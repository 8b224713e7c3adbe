/** The bowling scorer with a 20-slot roll buffer (src/bowling_game.hpp). Pins are
    `unsigned int`, so the sum of two pins wraps modulo 2^32; the running total is
    `size_t`, wrapping modulo 2^64, and `score` returns it as an `unsigned int`.

    Twenty slots hold ten frames of two rolls but not the bonus rolls of a spare or
    strike in a tenth frame that starts at roll 18 (after an earlier strike the tenth
    frame starts sooner, and its bonus rolls fit). The model keeps the buffer at 20
    slots and makes every read and write stay inside it by precondition, so a
    tenth-frame mark at roll 18, which would read or write slot 20, is excluded, and
    the lemmas below exhibit such inputs. */
module Bowling20 {
  import opened Unsigned
  import opened BowlingRules
  import Bowling21

  const AllPinsInFrame: nat := 10

  const Slots: nat := 20

  predicate IsSpare(pins: seq<u32>, i: nat)
    requires i + 1 < |pins|
  {
    Add32(pins[i], pins[i + 1]) == AllPinsInFrame
  }

  function SpareBonus(pins: seq<u32>, i: nat): u64
    requires i + 2 < |pins|
  {
    pins[i + 2]
  }

  predicate IsStrike(pins: seq<u32>, i: nat)
    requires i < |pins|
  {
    pins[i] == AllPinsInFrame
  }

  function StrikeBonus(pins: seq<u32>, i: nat): u64
    requires i + 2 < |pins|
  {
    Add32(pins[i + 1], pins[i + 2])
  }

  function FrameScore(pins: seq<u32>, i: nat): u64
    requires i + 1 < |pins|
  {
    Add32(pins[i], pins[i + 1])
  }

  /** How far `score` moves `roll_index` past the frame starting at roll `i`. */
  function RollsInFrame(pins: seq<u32>, i: nat): nat
    requires i < |pins|
  {
    if IsStrike(pins, i) then 1 else 2
  }

  /** Every read of the `frames` frames from roll `s` on stays inside the buffer: a frame
      reads its roll and the next, and a strike or spare also the one after. */
  predicate ReadsFit(pins: seq<u32>, s: nat, frames: nat)
    requires |pins| == Slots && s + 2 * frames <= Slots
    decreases frames
  {
    frames == 0 ||
    ((IsStrike(pins, s) || IsSpare(pins, s) ==> s + 2 < Slots)
     && ReadsFit(pins, s + RollsInFrame(pins, s), frames - 1))
  }

  /** The roll at which the last of the `frames` frames from roll `s` on starts. */
  function LastFrameStart(pins: seq<u32>, s: nat, frames: nat): (t: nat)
    requires |pins| == Slots && s + 2 * frames <= Slots && frames > 0
    ensures s <= t <= Slots - 2
    decreases frames
  {
    if frames == 1 then s else LastFrameStart(pins, s + RollsInFrame(pins, s), frames - 1)
  }

  /** Only the last frame can read past the buffer, and only when it is a strike or a
      spare that starts at roll 18. */
  lemma {:induction false} ReadsFitUnlessMarkAtRoll18(pins: seq<u32>, s: nat, frames: nat)
    requires |pins| == Slots && s + 2 * frames <= Slots && frames > 0
    ensures var t := LastFrameStart(pins, s, frames);
      ReadsFit(pins, s, frames) <==> (t < Slots - 2 || !(IsStrike(pins, t) || IsSpare(pins, t)))
    decreases frames
  {
    if frames > 1 {
      ReadsFitUnlessMarkAtRoll18(pins, s + RollsInFrame(pins, s), frames - 1);
    }
  }

  /** One pass of the loop of `score`. */
  function AddFrame(result: u64, pins: seq<u32>, s: nat): u64
    requires s + 1 < |pins| && (IsStrike(pins, s) || IsSpare(pins, s) ==> s + 2 < |pins|)
  {
    if IsStrike(pins, s) then Add64(result, Add64(AllPinsInFrame, StrikeBonus(pins, s)))
    else
      var withPins := Add64(result, FrameScore(pins, s));
      if IsSpare(pins, s) then Add64(withPins, SpareBonus(pins, s)) else withPins
  }

  /** The total the loop of `score` reaches from running total `result` at roll `s`
      with `frames` frames still to go. */
  function TallyFrom(result: u64, pins: seq<u32>, s: nat, frames: nat): u64
    requires |pins| == Slots && s + 2 * frames <= Slots && ReadsFit(pins, s, frames)
    decreases frames
  {
    if frames == 0 then result
    else TallyFrom(AddFrame(result, pins, s), pins, s + RollsInFrame(pins, s), frames - 1)
  }

  /** What `score` returns: the `size_t` total cut to an `unsigned int`. */
  function ScoreOf(pins: seq<u32>): u32
    requires |pins| == Slots && ReadsFit(pins, 0, FrameCount)
  {
    TallyFrom(0, pins, 0, FrameCount) % U32_LIMIT
  }

  /** With legal pins a pass of this loop adds what a pass of the 21-slot loop adds: the
      constant 10 of the strike branch is the strike's own roll. */
  lemma AddFrameAgrees(result: u64, p20: seq<u32>, p21: seq<u64>, s: nat)
    requires |p20| == Slots && |p21| == Bowling21.Slots && s + 2 <= Slots && result <= 270
    requires forall i | 0 <= i < Slots :: p20[i] == p21[i]
    requires LegalPins(p20) && LegalPins(p21)
    requires IsStrike(p20, s) || IsSpare(p20, s) ==> s + 2 < Slots
    ensures AddFrame(result, p20, s) == Bowling21.AddFrame(result, p21, s)
    ensures RollsInFrame(p20, s) == Bowling21.FrameScore(p21, s).1
    ensures AddFrame(result, p20, s) <= result + 30
  {
    assert p20[s] == p21[s] && p20[s + 1] == p21[s + 1];
    assert p21[s] <= 10 && p21[s + 1] <= 10 && p21[s + 2] <= 10;
    if s + 2 < Slots {
      assert p20[s + 2] == p21[s + 2];
    }
  }

  /** Where the rolls fit, the loop of this scorer and that of the 21-slot scorer agree
      frame by frame, whatever the 21st slot holds. */
  lemma {:induction false} TallyFromAgrees(result: u64, p20: seq<u32>, p21: seq<u64>, s: nat, frames: nat)
    requires |p20| == Slots && |p21| == Bowling21.Slots && s + 2 * frames <= Slots
    requires forall i | 0 <= i < Slots :: p20[i] == p21[i]
    requires LegalPins(p20) && LegalPins(p21) && ReadsFit(p20, s, frames)
    requires result + 30 * frames <= 300
    ensures TallyFrom(result, p20, s, frames) == Bowling21.TallyFrom(result, p21, s, frames)
    decreases frames
  {
    if frames > 0 {
      AddFrameAgrees(result, p20, p21, s);
      var next := AddFrame(result, p20, s);
      var n := RollsInFrame(p20, s);
      TallyFromAgrees(next, p20, p21, s + n, frames - 1);
      assert Bowling21.TallyFrom(result, p21, s, frames) == Bowling21.TallyFrom(next, p21, s + n, frames - 1);
    }
  }

  /** Where the rolls fit and every roll is 0 to 10 pins, this scorer returns what the
      21-slot scorer returns for the same rolls, and so what the rules of the game give. */
  lemma ScoreAgreesWithTwentyOneSlots(p20: seq<u32>, p21: seq<u64>)
    requires |p20| == Slots && |p21| == Bowling21.Slots
    requires forall i | 0 <= i < Slots :: p20[i] == p21[i]
    requires LegalPins(p21) && ReadsFit(p20, 0, FrameCount)
    ensures ScoreOf(p20) == Bowling21.ScoreOf(p21)
    ensures ScoreOf(p20) == RulesScore(p21, FrameCount)
  {
    assert LegalPins(p20) by {
      forall i | 0 <= i < |p20| ensures 0 <= p20[i] <= AllPins {
        assert p20[i] == p21[i];
      }
    }
    TallyFromAgrees(0, p20, p21, 0, FrameCount);
    Bowling21.ScoreFollowsRules(p21);
    RulesScoreBounds(p21, FrameCount);
    var total := TallyFrom(0, p20, 0, FrameCount);
    assert total == RulesScore(p21, FrameCount) <= 300;
    ModOfSmall32(total);
  }

  /** Outside 0 to 10 pins the two scorers differ: this one sums a pair of pins in
      32 bits, the 21-slot one in 64 bits. A first roll of 2^32 - 1 and a second of 11
      wrap to the spare 10 here, but stay an open frame of 2^32 + 10 there. */
  lemma ScorersDifferOnOversizedPins(p20: seq<u32>, p21: seq<u64>)
    requires |p20| == Slots && |p21| == Bowling21.Slots
    requires forall i | 0 <= i < Slots :: p20[i] == p21[i]
    requires p20[0] == U32_LIMIT - 1 && p20[1] == 11
    requires forall i | 2 <= i < Slots :: p20[i] == 0
    ensures IsSpare(p20, 0) && !Bowling21.IsSpare(p21, 0)
    ensures ReadsFit(p20, 0, FrameCount) && ScoreOf(p20) == 10
    ensures Bowling21.ScoreOf(p21) == U32_LIMIT + 10
  {
    assert p21[0] == U32_LIMIT - 1 && p21[1] == 11;
    assert forall i | 2 <= i < 20 :: p21[i] == 0;
    assert Bowling21.TallyFrom(0, p21, 0, FrameCount) == Bowling21.TallyFrom(U32_LIMIT + 10, p21, 2, 9);
    Bowling21.EqualOpenFrames(U32_LIMIT + 10, p21, 2, 9, 0);
    ZeroFrames(10, p20, 2, 9);
    assert TallyFrom(0, p20, 0, FrameCount) == TallyFrom(10, p20, 2, 9);
    ModOfSmall32(10);
  }

  /** Frames of zero pins fit and add nothing. */
  lemma {:induction false} ZeroFrames(result: u64, pins: seq<u32>, s: nat, frames: nat)
    requires |pins| == Slots && s + 2 * frames <= Slots
    requires forall i | s <= i < Slots :: pins[i] == 0
    ensures ReadsFit(pins, s, frames) && TallyFrom(result, pins, s, frames) == result
    decreases frames
  {
    if frames > 0 {
      assert pins[s] == 0 && pins[s + 1] == 0;
      ZeroFrames(result, pins, s + 2, frames - 1);
      assert AddFrame(result, pins, s) == result;
    }
  }

  /** The 21-slot buffer holding the same rolls and an empty 21st slot. */
  function Widened(p20: seq<u32>): (p21: seq<u64>)
    requires |p20| == Slots
    ensures |p21| == Bowling21.Slots && p21[Slots] == 0
    ensures forall i | 0 <= i < Slots :: p21[i] == p20[i]
  {
    p20 + [0]
  }

  /** A game whose first 18 rolls are 1 and whose tenth frame is the spare (1, 9): the
      tenth frame starts at roll 18 and `spare_bonus` would read slot 20, one past the
      buffer. This is the situation of the spare-in-the-last-frame test, which then
      also writes a 21st roll. */
  lemma LastFrameSpareReadsPastBuffer(pins: seq<u32>)
    requires |pins| == Slots && forall i | 0 <= i < 18 :: pins[i] == 1
    requires pins[18] == 1 && pins[19] == 9
    ensures LastFrameStart(pins, 0, FrameCount) == 18 && IsSpare(pins, 18)
    ensures 18 + 2 == Slots && !ReadsFit(pins, 0, FrameCount)
  {
    NoStrikeFrameStarts(pins, 0, 9);
    ReadsFitUnlessMarkAtRoll18(pins, 0, FrameCount);
  }

  /** The same with a strike in the tenth frame: `strike_bonus` would read slots 19 and 20. */
  lemma LastFrameStrikeReadsPastBuffer(pins: seq<u32>)
    requires |pins| == Slots && forall i | 0 <= i < 18 :: pins[i] == 1
    requires pins[18] == AllPinsInFrame
    ensures LastFrameStart(pins, 0, FrameCount) == 18 && IsStrike(pins, 18)
    ensures 18 + 2 == Slots && !ReadsFit(pins, 0, FrameCount)
  {
    NoStrikeFrameStarts(pins, 0, 9);
    ReadsFitUnlessMarkAtRoll18(pins, 0, FrameCount);
  }

  /** Frames that start with fewer than 10 pins take two rolls each, so the frame after
      `k` of them starts `2 * k` rolls on. */
  lemma {:induction false} NoStrikeFrameStarts(pins: seq<u32>, s: nat, k: nat)
    requires |pins| == Slots && s + 2 * k <= 18
    requires forall i | s <= i < s + 2 * k :: pins[i] < AllPinsInFrame
    ensures LastFrameStart(pins, s, k + 1) == s + 2 * k
    decreases k
  {
    if k > 0 {
      NoStrikeFrameStarts(pins, s + 2, k - 1);
    }
  }

  /** A game with no strike among its first 18 rolls and an open tenth frame fits the
      buffer. */
  lemma OpenTenthFrameFits(pins: seq<u32>)
    requires |pins| == Slots && forall i | 0 <= i < 18 :: pins[i] < AllPinsInFrame
    requires pins[18] + pins[19] < AllPinsInFrame
    ensures ReadsFit(pins, 0, FrameCount)
  {
    NoStrikeFrameStarts(pins, 0, 9);
    ReadsFitUnlessMarkAtRoll18(pins, 0, FrameCount);
  }

  /** A new game, and 20 gutter balls, score 0. */
  lemma GutterGameScoresZero(pins: seq<u32>)
    requires |pins| == Slots && forall i | 0 <= i < Slots :: pins[i] == 0
    ensures ReadsFit(pins, 0, FrameCount) && ScoreOf(pins) == 0
  {
    OpenTenthFrameFits(pins);
    ScoreAgreesWithTwentyOneSlots(pins, Widened(pins));
    Bowling21.GutterGameScoresZero(Widened(pins));
  }

  /** The buffer of a new game, all 20 slots zero, fits and scores 0. */
  lemma NewGameScoresZero()
    ensures ReadsFit(seq(Slots, _ => 0), 0, FrameCount) && ScoreOf(seq(Slots, _ => 0)) == 0
  {
    GutterGameScoresZero(seq(Slots, _ => 0));
  }

  /** Twenty rolls of two pins score 40. */
  lemma AllTwosScoreForty(pins: seq<u32>)
    requires |pins| == Slots && forall i | 0 <= i < Slots :: pins[i] == 2
    ensures ReadsFit(pins, 0, FrameCount) && ScoreOf(pins) == 40
  {
    OpenTenthFrameFits(pins);
    ScoreAgreesWithTwentyOneSlots(pins, Widened(pins));
    Bowling21.EqualRollsScoreSumOfPins(Widened(pins), 2);
  }

  /** A spare (1, 9) followed by 18 rolls of one pin scores 29. */
  lemma SpareCountsNextRollTwice(pins: seq<u32>)
    requires |pins| == Slots && pins[0] == 1 && pins[1] == 9
    requires forall i | 2 <= i < Slots :: pins[i] == 1
    ensures ReadsFit(pins, 0, FrameCount) && ScoreOf(pins) == 29
  {
    OpenTenthFrameFits(pins);
    ScoreAgreesWithTwentyOneSlots(pins, Widened(pins));
    Bowling21.SpareCountsNextRollTwice(Widened(pins));
  }

  /** With an open first frame, a strike at roll 2 and no other strike in rolls 3 to 16,
      the tenth frame starts at roll 17, so even a mark there would fit. */
  lemma StrikeInSecondFrameFits(pins: seq<u32>)
    requires |pins| == Slots && pins[0] + pins[1] < AllPinsInFrame && pins[2] == AllPinsInFrame
    requires forall i | 3 <= i < 17 :: pins[i] < AllPinsInFrame
    ensures LastFrameStart(pins, 0, FrameCount) == 17 && ReadsFit(pins, 0, FrameCount)
  {
    NoStrikeFrameStarts(pins, 3, 7);
    assert LastFrameStart(pins, 0, FrameCount) == LastFrameStart(pins, 3, 8);
    ReadsFitUnlessMarkAtRoll18(pins, 0, FrameCount);
  }

  /** Two ones, a strike, then 16 ones (and an empty last slot) score 30. */
  lemma StrikeCountsNextTwoRollsTwice(pins: seq<u32>)
    requires |pins| == Slots && pins[0] == 1 && pins[1] == 1 && pins[2] == AllPinsInFrame
    requires (forall i | 3 <= i < 19 :: pins[i] == 1) && pins[19] == 0
    ensures ReadsFit(pins, 0, FrameCount) && ScoreOf(pins) == 30
  {
    StrikeInSecondFrameFits(pins);
    ScoreAgreesWithTwentyOneSlots(pins, Widened(pins));
    Bowling21.StrikeCountsNextTwoRollsTwice(Widened(pins));
  }

  class BowlingGame {
    var pins: array<u32>
    var rollNo: nat

    ghost predicate Valid()
      reads this
    {
      pins.Length == Slots && rollNo <= Slots
    }

    /** A new game: every slot zero and no roll made. */
    constructor ()
      ensures Valid() && fresh(pins) && rollNo == 0
      ensures pins[..] == seq(Slots, _ => 0)
    {
      pins := new u32[Slots](_ => 0);
      rollNo := 0;
    }

    /** Writes the pins into the next slot. The C++ does not check the index, so a
        21st roll, which the last-frame tests make, is excluded by the precondition. */
    method Roll(p: u32)
      requires Valid() && rollNo < Slots
      modifies this, pins
      ensures Valid() && pins == old(pins)
      ensures rollNo == old(rollNo) + 1
      ensures pins[..] == old(pins[..])[old(rollNo) := p]
    {
      pins[rollNo] := p;
      rollNo := rollNo + 1;
    }

    /** The game's score, defined only where every read stays inside the buffer; it
        changes neither the buffer nor the roll counter. */
    method Score() returns (score: u32)
      requires Valid() && ReadsFit(pins[..], 0, FrameCount)
      ensures score == ScoreOf(pins[..])
    {
      var rolls := pins[..];
      var result: u64 := 0;
      var rollIndex: nat := 0;
      var i := 0;
      while i < FrameCount
        invariant 0 <= i <= FrameCount && rollIndex <= 2 * i
        invariant ReadsFit(rolls, rollIndex, FrameCount - i)
        invariant TallyFrom(result, rolls, rollIndex, FrameCount - i) == TallyFrom(0, rolls, 0, FrameCount)
      {
        ghost var before := result;
        ghost var start := rollIndex;
        if IsStrike(rolls, rollIndex) {
          result := Add64(result, Add64(AllPinsInFrame, StrikeBonus(rolls, rollIndex)));
          rollIndex := rollIndex + 1;
        } else {
          result := Add64(result, FrameScore(rolls, rollIndex));
          if IsSpare(rolls, rollIndex) {
            result := Add64(result, SpareBonus(rolls, rollIndex));
          }
          rollIndex := rollIndex + 2;
        }
        assert result == AddFrame(before, rolls, start);
        i := i + 1;
        assert TallyFrom(before, rolls, start, FrameCount - i + 1)
            == TallyFrom(result, rolls, rollIndex, FrameCount - i);
      }
      score := result % U32_LIMIT;
    }
  }

  /** The buffer of a new game after `rolls` have been rolled into it. */
  function Rolled(rolls: seq<u32>): (pins: seq<u32>)
    requires |rolls| <= Slots
    ensures |pins| == Slots && pins[..|rolls|] == rolls
    ensures forall i | |rolls| <= i < Slots :: pins[i] == 0
  {
    rolls + seq(Slots - |rolls|, _ => 0)
  }

  /** A new game that is given `rolls` one after the other, then scored. */
  method PlayGame(rolls: seq<u32>) returns (score: u32)
    requires |rolls| <= Slots && ReadsFit(Rolled(rolls), 0, FrameCount)
    ensures score == ScoreOf(Rolled(rolls))
  {
    var game := new BowlingGame();
    var i := 0;
    while i < |rolls|
      invariant 0 <= i <= |rolls|
      invariant game.Valid() && fresh(game.pins) && game.rollNo == i
      invariant forall j | 0 <= j < Slots :: game.pins[j] == if j < i then rolls[j] else 0
    {
      game.Roll(rolls[i]);
      i := i + 1;
    }
    assert game.pins[..] == Rolled(rolls);
    score := game.Score();
  }
}
