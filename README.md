# Mars rover and bowling scorers

This project models three small C++ components of a repository of test-driven kata
exercises and proves properties of the models.

- **Mars rover** (`mars-rover-catch/src/rover.hpp`, module `MarsRover` in `rover.dfy`).
  A `Position` is integer coordinates plus a heading from the table `N, E, S, W`.
  Turning steps the heading's index around the table. Moving adds or subtracts the
  heading's unit vector. These operations are pure functions on the `Position`
  datatype. A `Rover` is a class holding one mutable `position`. Its method `Go`
  walks the command string left to right, upper-cases each character and dispatches
  `F`, `B`, `L` or `R`. On the first other character it stops with an
  `UnknownCommand` error and keeps the moves already made. The C++ throws that error;
  the model returns it as the `Err` case of a `Result`. `Go` is proved against the
  function `Execute`, which runs a string of known commands, and against
  `KnownPrefix`, the index of the first unknown command.
- **Bowling scorer with 21 slots** (`bowling-catch/src/bowling.hpp`, module
  `Bowling21` in `bowling21.dfy`). A class over a 21-slot `array<u64>` with a write
  cursor. `Roll` writes the next slot. `Score` walks ten frames and adds the strike
  and spare bonuses. Every `size_t` addition of pins or totals wraps modulo 2^64, as in
  the C++; the roll index and counter stay at or below 21 and cannot wrap.
  `Score` is proved equal to the function `ScoreOf`. `ScoreOf` is then proved equal
  to an independent statement of the rules, `BowlingRules.RulesScore`, whenever every
  roll is 0 to 10 pins. The concrete games of the repository's tests are proved as
  lemmas.
- **Bowling scorer with 20 slots** (`src/bowling_game.hpp`, module `Bowling20` in
  `bowling20.dfy`). Same rules, structured differently: `unsigned int` pins, so the
  sum of two pins wraps modulo 2^32, a strike branch that adds the constant 10, and a
  result cut to `unsigned int`. The buffer has only 20 slots. A spare or strike in a
  tenth frame that starts at roll 18 makes `score` read `pins_[20]`, one past the end;
  after an earlier strike the tenth frame starts sooner and its reads fit. The model
  keeps the 20 slots and requires, by the predicate `ReadsFit`, that every read stays
  inside them. `ReadsFitUnlessMarkAtRoll18` proves exactly when that holds. Where it
  holds and every roll is 0 to 10 pins, this scorer returns what the 21-slot scorer and
  the rules give; `ScorersDifferOnOversizedPins` shows that larger rolls can make the
  two scorers differ. The inputs that `ReadsFit` excludes are logged under
  "## Findings".

`unsigned.dfy` (module `Unsigned`) holds the 32- and 64-bit unsigned ranges and
wrapping additions. `bowling_rules.dfy` (module `BowlingRules`) holds the rules of
ten-pin scoring that both scorers are proved against.

## Model

| member | source | states |
|---|---|---|
| Unsigned.Add64 | bowling-catch/src/bowling.hpp:22-27 | `+` on `size_t`: the sum of two values below 2^64, less 2^64 when it reaches 2^64 |
| Unsigned.Add32 | src/bowling_game.hpp:17 | `+` on `unsigned int`: the sum of two values below 2^32, less 2^32 when it reaches 2^32 |
| Unsigned.AddWraps | bowling-catch/src/bowling.hpp:22-27 | the wrapping additions used for `size_t` and `unsigned int` sums are addition modulo 2^64 and 2^32 |
| BowlingRules.RulesScoreBounds | bowling-catch/src/bowling.hpp:17-29 | with every roll 0 to 10 pins, each frame is worth 0 to 30, so `frames` frames score between 0 and 30 per frame |
| MarsRover.Position.OrientationIndex | mars-rover-catch/src/rover.hpp:34-40 | for one of the four headings, the index found is a valid index of the table and holds that heading; the C++ assert becomes the precondition |
| MarsRover.Position.NextClockwise | mars-rover-catch/src/rover.hpp:55-61 | N turns to E, E to S, S to W, W to N; the coordinates are unchanged and the result is a heading |
| MarsRover.Position.NextCounterClockwise | mars-rover-catch/src/rover.hpp:63-69 | N turns to W, W to S, S to E, E to N, computing `(index - 1) % 4` on a wrapped 64-bit index; the coordinates are unchanged |
| MarsRover.Position.MoveForward | mars-rover-catch/src/rover.hpp:71-87 | adds the heading's unit vector (N: +y, E: +x, S: -y, W: -x) and keeps the orientation |
| MarsRover.Position.MoveBackward | mars-rover-catch/src/rover.hpp:89-103 | subtracts the heading's unit vector and keeps the orientation |
| MarsRover.CounterClockwiseWrapAtNorth | mars-rover-catch/src/rover.hpp:66 | a position facing N has index 0; the unsigned `index - 1` of its left turn is 2^64 - 1, that modulo 4 is 3, and the turn leaves the coordinates and faces W |
| MarsRover.TurnsAreInverse | mars-rover-catch/src/rover.hpp:55-69 | a right turn after a left turn, and a left turn after a right turn, restore the position |
| MarsRover.MovesAreInverse | mars-rover-catch/src/rover.hpp:71-103 | a backward move after a forward move, and the reverse order, restore the position |
| MarsRover.FourTurnsRestorePosition | mars-rover-catch/src/rover.hpp:55-69 | four turns in the same direction restore the position |
| MarsRover.ToUpper | mars-rover-catch/src/rover.hpp:179 | ASCII `toupper`: a lower-case letter moves down by 32, every other character stays, and no result is lower-case |
| MarsRover.IsCommand | mars-rover-catch/src/rover.hpp:179-192 | the characters the switch handles: those whose upper-case form is F, B, L or R |
| MarsRover.Step | mars-rover-catch/src/rover.hpp:179-192 | one known command keeps the position's orientation a heading |
| MarsRover.Execute | mars-rover-catch/src/rover.hpp:177-196 | running known commands from a heading ends at a heading |
| MarsRover.KnownPrefix | mars-rover-catch/src/rover.hpp:177-195 | the length of the leading run of commands: every character before it is a command, and the one at it, if any, is not |
| MarsRover.KnownPrefixIsFirstUnknown | mars-rover-catch/src/rover.hpp:177-195 | any index with those three properties equals `KnownPrefix`, so it is the first unknown command |
| MarsRover.ExecuteAppend | mars-rover-catch/src/rover.hpp:177-196 | running `s + t` is running `s` and then `t` |
| MarsRover.ExecuteFirst | mars-rover-catch/src/rover.hpp:177-196 | the first command acts first: running `s` is one step for `s[0]` then running the rest |
| MarsRover.ExecuteIgnoresCase | mars-rover-catch/src/rover.hpp:179-192 | lower-case f, b, l, r act exactly like F, B, L, R: a string and its upper-cased copy end at the same position |
| MarsRover.GoReturnsFinalPosition | mars-rover-catch/tests/tests_mars_rover.cpp:107 | `FFRFF` from (0, 0, N) ends at (2, 2, E) |
| MarsRover.GoWithBackwardMoves | mars-rover-catch/tests/tests_mars_rover.cpp:108 | `FFRFFBFLR` from (0, 0, N) ends at (2, 2, E) |
| MarsRover.GoLongerRoute | mars-rover-catch/tests/tests_mars_rover.cpp:109 | `FFRFFLFFRFFLFF` from (0, 0, N) ends at (4, 6, N) |
| MarsRover.GoLowerCase | mars-rover-catch/tests/tests_mars_rover.cpp:124 | `ffrffBflr` from (0, 0, N) ends at (2, 2, E) |
| MarsRover.GoBeforeUnknownCommand | mars-rover-catch/tests/tests_mars_rover.cpp:157-163 | the eight commands before the 'x' of `FFRFFLFFxLLLL` end at (2, 4, N) |
| MarsRover.GoStopsAtUnknownCommand | mars-rover-catch/tests/tests_mars_rover.cpp:136-164 | in `FFRFFLFFxLLLL` the first unknown command is the 'x' at index 8, and the rover stops at (2, 4, N) |
| MarsRover.Rover.constructor | mars-rover-catch/src/rover.hpp:140-143 | the rover starts at the given coordinates and orientation |
| MarsRover.Rover.FromPosition | mars-rover-catch/src/rover.hpp:145-148 | the rover starts at the given position |
| MarsRover.Rover.TurnLeft | mars-rover-catch/src/rover.hpp:155-158 | the new position is the old one turned counter-clockwise |
| MarsRover.Rover.TurnRight | mars-rover-catch/src/rover.hpp:160-163 | the new position is the old one turned clockwise |
| MarsRover.Rover.MoveForward | mars-rover-catch/src/rover.hpp:165-168 | the new position is the old one moved forward |
| MarsRover.Rover.MoveBackward | mars-rover-catch/src/rover.hpp:170-173 | the new position is the old one moved backward |
| MarsRover.Rover.Go | mars-rover-catch/src/rover.hpp:175-199 | the rover ends where the commands before the first unknown one take it. With no unknown command it returns that final position, equal to the rover's position. Otherwise it returns `UnknownCommand` holding that character in its original case and the whole input |
| Bowling21.IsStrike | bowling-catch/src/bowling.hpp:47-50 | the roll at the index knocks down all 10 pins |
| Bowling21.StrikeBonus | bowling-catch/src/bowling.hpp:52-55 | the `size_t` sum of the two rolls after the index |
| Bowling21.IsSpare | bowling-catch/src/bowling.hpp:57-60 | the `size_t` sum of the roll at the index and the next one is 10 |
| Bowling21.SpareBonus | bowling-catch/src/bowling.hpp:62-65 | the roll two after the index |
| Bowling21.FrameScore | bowling-catch/src/bowling.hpp:67-73 | a strike gives its own roll and one roll taken; any other frame gives the `size_t` sum of its two rolls and two rolls taken |
| Bowling21.AddFrame | bowling-catch/src/bowling.hpp:19-27 | one pass of the loop: the running total plus the frame's pins, plus the strike bonus for a strike or else the spare bonus for a spare, each addition wrapping in `size_t` |
| Bowling21.TallyFrom | bowling-catch/src/bowling.hpp:17-30 | the total the loop reaches from a running total and roll index with a number of frames left, advancing by the rolls each frame takes |
| Bowling21.ScoreOf | bowling-catch/src/bowling.hpp:12-33 | the loop's total from 0 at roll 0 over ten frames |
| Bowling21.RulesScoreStep | bowling-catch/src/bowling.hpp:17-29 | the rules' score from roll `s` is the value of the frame there plus the rules' score after the one roll of a strike or the two rolls of any other frame |
| Bowling21.AddFrameNoWrap | bowling-catch/src/bowling.hpp:22-27 | with legal pins and a running total of at most 270, one pass of the loop adds exactly the frame's value: 10 plus two rolls for a strike, 10 plus one roll for a spare, the two rolls for an open frame |
| Bowling21.FrameStep | bowling-catch/src/bowling.hpp:17-29 | one frame adds its value under the rules and moves the roll index on by 1 for a strike and 2 otherwise |
| Bowling21.TallyFromFollowsRules | bowling-catch/src/bowling.hpp:12-33 | from any frame start, with legal pins and no room for overflow, the remaining loop adds exactly the rules' score of the remaining rolls |
| Bowling21.ScoreFollowsRules | bowling-catch/src/bowling.hpp:12-33 | for any buffer whose rolls are 0 to 10 pins, `score` equals the rules' score of ten frames |
| Bowling21.OpenFrameStep | bowling-catch/src/bowling.hpp:22-29 | a frame that leaves pins standing adds its two rolls and moves on by two rolls |
| Bowling21.OpenFramesAddPins | bowling-catch/src/bowling.hpp:12-33 | a run of open frames adds exactly the sum of its pins |
| Bowling21.NoMarkScoreIsSumOfPins | bowling-catch/tests/bowling_tests.cpp:43-49 | a game of ten open frames scores the sum of its 20 rolls |
| Bowling21.EqualOpenFrames | bowling-catch/src/bowling.hpp:12-33 | frames whose rolls all knock down the same `n <= 4` pins add `2 * n` each |
| Bowling21.StrikeFrames | bowling-catch/src/bowling.hpp:24-25 | consecutive strikes, with strikes in the two rolls after them, add 30 a frame |
| Bowling21.GutterGameScoresZero | bowling-catch/tests/bowling_tests.cpp:35-41 | 20 gutter balls score 0 |
| Bowling21.NewGameScoresZero | bowling-catch/tests/bowling_tests.cpp:28-33 | the all-zero buffer of a new game scores 0 |
| Bowling21.EqualRollsScoreSumOfPins | bowling-catch/tests/bowling_tests.cpp:43-49 | 20 rolls of `n <= 4` pins score `20 * n`: 40 for twos, and 20 for ones as in the first vector at line 144 |
| Bowling21.SpareCountsNextRollTwice | bowling-catch/tests/bowling_tests.cpp:51-59 | a spare (1, 9) followed by 18 ones scores 29 |
| Bowling21.StrikeCountsNextTwoRollsTwice | bowling-catch/tests/bowling_tests.cpp:61-70 | two ones, a strike and 16 ones score 30 |
| Bowling21.SpareInLastFrame | bowling-catch/tests/bowling_tests.cpp:72-81 | 18 ones, a spare (1, 9) and a bonus roll of 6 score 34 |
| Bowling21.StrikeInLastFrame | bowling-catch/tests/bowling_tests.cpp:83-93 | 18 ones, a strike and bonus rolls 6 and 7 score 41 |
| Bowling21.PerfectGame | bowling-catch/tests/bowling_tests.cpp:95-103 | twelve strikes score 300 |
| Bowling21.StrikeThenOpenFrames | bowling-catch/tests/bowling_tests.cpp:145 | a strike, 3, 6 and 16 ones score 44 |
| Bowling21.StrikeAndSpareBonusInLastFrame | bowling-catch/tests/bowling_tests.cpp:146 | 18 ones, a strike and bonus rolls 5 and 5 score 38 |
| Bowling21.OneNineSpares | bowling-catch/tests/bowling_tests.cpp:147 | spares (1, 9), each followed by another, add 11 a frame |
| Bowling21.AllSpares | bowling-catch/tests/bowling_tests.cpp:147 | ten spares (1, 9) and a bonus roll of 10 score 119 |
| Bowling21.Rolled | bowling-catch/src/bowling.hpp:35-45 | the buffer after the given rolls holds them in order from slot 0 and zeros after |
| Bowling21.BowlingGame.constructor | bowling-catch/src/bowling.hpp:44-45 | a new game has all 21 slots zero and no roll made |
| Bowling21.BowlingGame.Roll | bowling-catch/src/bowling.hpp:35-38 | writes the pins into slot `throw_no_`, changes no other slot, and advances the counter by one; `throw_no_ < 21` is required because the write is unchecked |
| Bowling21.BowlingGame.Score | bowling-catch/src/bowling.hpp:12-33 | returns `ScoreOf` of the buffer and changes nothing. Every read at the roll index, +1 and +2 stays inside the 21 slots |
| Bowling21.PlayGame | bowling-catch/tests/bowling_tests.cpp:152-157 | a new game given the rolls one after another scores `ScoreOf` of the rolled buffer |
| Bowling20.IsSpare | src/bowling_game.hpp:15-18 | the `unsigned int` sum, wrapping modulo 2^32, of the roll at the index and the next one is 10 |
| Bowling20.SpareBonus | src/bowling_game.hpp:20-23 | the roll two after the index |
| Bowling20.IsStrike | src/bowling_game.hpp:25-28 | the roll at the index knocks down all 10 pins |
| Bowling20.StrikeBonus | src/bowling_game.hpp:30-33 | the `unsigned int` sum of the two rolls after the index, widened to `size_t` |
| Bowling20.FrameScore | src/bowling_game.hpp:35-38 | the `unsigned int` sum of the roll at the index and the next one, widened to `size_t` |
| Bowling20.RollsInFrame | src/bowling_game.hpp:51-59 | the loop advances by one roll after a strike and by two otherwise |
| Bowling20.ReadsFit | src/bowling_game.hpp:46-61 | every read of the remaining frames stays inside the 20 slots: a strike or spare also reads two rolls on |
| Bowling20.AddFrame | src/bowling_game.hpp:48-60 | one pass of the loop: a strike adds the constant 10 plus the strike bonus; any other frame adds its pins, and a spare also its bonus; every addition to the total wraps in `size_t` |
| Bowling20.TallyFrom | src/bowling_game.hpp:46-61 | the total the loop reaches from a running total and roll index with a number of frames left |
| Bowling20.ScoreOf | src/bowling_game.hpp:41-64 | the loop's `size_t` total over ten frames, cut to `unsigned int` on return |
| Bowling20.LastFrameStart | src/bowling_game.hpp:46-61 | the roll at which the last of the remaining frames starts lies between the current roll and roll 18 |
| Bowling20.ReadsFitUnlessMarkAtRoll18 | src/bowling_game.hpp:46-61 | every read of `score` stays inside the 20 slots if and only if the tenth frame starts before roll 18 or is neither a strike nor a spare |
| Bowling20.AddFrameAgrees | src/bowling_game.hpp:48-60 | with legal pins, one pass of this loop adds what a pass of the 21-slot loop adds and advances by the same number of rolls; the constant 10 of the strike branch is the strike's own roll |
| Bowling20.TallyFromAgrees | src/bowling_game.hpp:46-61 | where the reads fit, the remaining frames of this loop and of the 21-slot loop reach the same total |
| Bowling20.ScoreAgreesWithTwentyOneSlots | src/bowling_game.hpp:41-64 | where the reads fit and the rolls are legal, `score` returns what the 21-slot scorer returns for the same rolls, and the rules' score |
| Bowling20.ScorersDifferOnOversizedPins | src/bowling_game.hpp:15-18 | the rolls 2^32 - 1, 11 and then zeros fit; the 32-bit pair sum wraps to a spare and scores 10, while the 21-slot scorer's 64-bit sum leaves an open frame scoring 2^32 + 10 |
| Bowling20.ZeroFrames | src/bowling_game.hpp:46-61 | frames of zero pins fit the buffer and add nothing to the running total |
| Bowling20.LastFrameSpareReadsPastBuffer | src/bowling_game.hpp:20-23 | 18 ones then a spare (1, 9): the tenth frame starts at roll 18, and its bonus read at roll 20 does not fit the 20 slots |
| Bowling20.LastFrameStrikeReadsPastBuffer | src/bowling_game.hpp:30-33 | 18 ones then a strike: the tenth frame starts at roll 18, and its bonus reads do not fit the 20 slots |
| Bowling20.NoStrikeFrameStarts | src/bowling_game.hpp:53-59 | frames that start with fewer than 10 pins take two rolls each, so the frame after `k` of them starts `2 * k` rolls on |
| Bowling20.OpenTenthFrameFits | src/bowling_game.hpp:46-61 | with no strike in the first 18 rolls and an open tenth frame, every read fits |
| Bowling20.GutterGameScoresZero | tests/bowling_game_tests.cpp:33-38 | 20 gutter balls fit and score 0 |
| Bowling20.NewGameScoresZero | tests/bowling_game_tests.cpp:28-31 | the all-zero buffer of a new game fits and scores 0 |
| Bowling20.AllTwosScoreForty | tests/bowling_game_tests.cpp:40-45 | 20 rolls of 2 fit and score 40 |
| Bowling20.SpareCountsNextRollTwice | tests/bowling_game_tests.cpp:47-54 | a spare (1, 9) followed by 18 ones fits and scores 29 |
| Bowling20.StrikeInSecondFrameFits | tests/bowling_game_tests.cpp:56-63 | with an open first frame, a strike at roll 2 and no other strike before roll 17, the tenth frame starts at roll 17 and every read fits |
| Bowling20.StrikeCountsNextTwoRollsTwice | tests/bowling_game_tests.cpp:56-63 | two ones, a strike and 16 ones (19 rolls) fit and score 30 |
| Bowling20.BowlingGame.constructor | src/bowling_game.hpp:12-13 | a new game has all 20 slots zero and no roll made |
| Bowling20.BowlingGame.Roll | src/bowling_game.hpp:66-70 | writes the pins into slot `roll_no`, changes no other slot, and advances the counter by one; `roll_no < 20` is required because the write is unchecked |
| Bowling20.BowlingGame.Score | src/bowling_game.hpp:41-64 | where every read fits, returns `ScoreOf` of the buffer, cut to `unsigned int`, and changes nothing |
| Bowling20.Rolled | src/bowling_game.hpp:66-70 | the buffer after the given rolls holds them in order from slot 0 and zeros after |
| Bowling20.PlayGame | tests/bowling_game_tests.cpp:10-14 | a new game given the rolls one after another scores `ScoreOf` of the rolled buffer, where the reads fit |

## Left out

- Grid wrapping and obstacle detection: the `Grid`, `ObstacleDetector` and `ObstacleDetected` classes and the two- and three-argument rover constructors that the rover's tests use are not defined in `mars-rover-catch/src/rover.hpp`. This model follows that code and has no grid and no obstacles, although mars-rover-catch/tests/tests_mars_rover.cpp:14-25 and 168-225 use `ObstacleDetector` and `Grid`.
- `operator<<` on coordinates and positions, and the message text of `UnknownCommand`'s `std::invalid_argument` base: formatting only. The error keeps its two fields, and its `==` compares exactly those, which is datatype equality here.
- The `==` of `Coordinates` and `Position` is Dafny's datatype equality, so no member of its own models it.
- `Rover::position()` is modelled by reading the public field `position`.
- The exception of `go` is modelled as an `Err` result. The rover's position after an error is stated by `Rover.Go`'s postcondition.
- `std::toupper` is modelled on ASCII only; locale behaviour is left out. Dafny strings hold Unicode characters where `std::string` holds bytes, so on non-ASCII input the model's `unknown_command` is one code point where the C++ holds one byte of its encoding.
- Rover coordinates are unbounded integers: signed `int` overflow is undefined behaviour in C++ and is not modelled.
- MarsRover.Position.OrientationIndex: the `assert` on an unknown orientation becomes a precondition, so a position with another orientation can be built but not turned or moved.
- MarsRover.Rover.Go: requires the rover to face a heading unless the first command is already unknown, because before that no turn or move is executed.
- Bowling21.ScoreFollowsRules: proved only for rolls of 0 to 10 pins. Outside that range `ScoreOf` still gives the exact wrapping `size_t` result, but it is not compared with the rules.
- Bowling20.ScoreAgreesWithTwentyOneSlots: proved only for rolls of 0 to 10 pins, because outside that range the two scorers really differ: this one sums a pair of pins in 32 bits and the 21-slot one in 64 bits. `ScorersDifferOnOversizedPins` shows it for the rolls 2^32 - 1, 11 and then zeros, which score 10 here and 2^32 + 10 there.
- Bowling21.BowlingGame.Roll: a roll beyond the buffer, an out-of-bounds write in C++, is excluded by precondition instead of modelled.
- Bowling20.BowlingGame.Roll: likewise for a 21st roll. The last-frame tests make that 21st roll; see "## Findings".
- Bowling20.BowlingGame.Score: a tenth-frame spare or strike at roll 18 reads one past the buffer. Such a buffer is excluded by the precondition `ReadsFit`, whose exact extent `ReadsFitUnlessMarkAtRoll18` states.
- The Bowling21 example lemmas constrain only the slots their games roll; the unused slots may hold anything, which covers the zeros a real game leaves there.
- The document editor is not part of this model: `Application::run` (document-editor-gtest/src/application.hpp) is an interactive loop over console input and output, and the commands of document-editor-gtest/src/command.hpp only forward to the `Console` and `Document` classes of the headers it includes (`console.hpp` and `document.hpp`, next to `clipboard.hpp`), which this model does not cover; document-editor-gtest/main.cpp is dependency-injection wiring.
- The recently-used list is not part of this model, together with its class `RecentlyUsedList` (header `recently_used_list.hpp`); its tests are the only part of it cited here.
- The test frameworks (Catch2, gtest, trompeloeil) and the test files themselves are not modelled; the tests serve only as sources of the concrete games and routes proved as lemmas.

## Findings

| source | as written | input that shows it | evidently intended | confidence | as-written member | corrected member |
|---|---|---|---|---|---|---|
| src/bowling_game.hpp:20-23 | `spare_bonus` reads `pins_[roll_index + 2]` of a 20-slot buffer, and `roll` writes slot `roll_no` unchecked | 18 ones, then 1, 9 and a bonus roll of 6 (tests/bowling_game_tests.cpp:74-80): the tenth frame starts at roll 18, `score` reads `pins_[20]` and the 21st `roll` writes it | a buffer with a 21st slot for the bonus roll, as in bowling-catch/src/bowling.hpp:44, scoring 34 | not executed | Bowling20.LastFrameSpareReadsPastBuffer | Bowling21.SpareInLastFrame |
| src/bowling_game.hpp:30-33 | `strike_bonus` reads `pins_[roll_index + 1]` and `pins_[roll_index + 2]` of a 20-slot buffer | 18 ones, then a strike and bonus rolls 6 and 7 (tests/bowling_game_tests.cpp:82-91): `score` reads `pins_[20]` and the 21st `roll` writes it | a 21-slot buffer, scoring 41 | not executed | Bowling20.LastFrameStrikeReadsPastBuffer | Bowling21.StrikeInLastFrame |
