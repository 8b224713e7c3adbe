/** The bowling scorer with a 21-slot roll buffer (bowling-catch/src/bowling.hpp).
    Pins and the running total are `size_t`, so every sum wraps modulo 2^64. */
module Bowling21 {
  import opened Unsigned
  import opened BowlingRules

  const AllPinsInFrame: nat := 10

  /** Ten frames of two rolls plus the one extra roll of the tenth frame. */
  const Slots: nat := 21

  predicate IsStrike(pins: seq<u64>, i: nat)
    requires i < |pins|
  {
    pins[i] == AllPinsInFrame
  }

  function StrikeBonus(pins: seq<u64>, i: nat): u64
    requires i + 2 < |pins|
  {
    Add64(pins[i + 1], pins[i + 2])
  }

  predicate IsSpare(pins: seq<u64>, i: nat)
    requires i + 1 < |pins|
  {
    Add64(pins[i], pins[i + 1]) == AllPinsInFrame
  }

  function SpareBonus(pins: seq<u64>, i: nat): u64
    requires i + 2 < |pins|
  {
    pins[i + 2]
  }

  /** The pins of the frame starting at roll `i` and how many rolls it takes. */
  function FrameScore(pins: seq<u64>, i: nat): (u64, nat)
    requires i < |pins| && (!IsStrike(pins, i) ==> i + 1 < |pins|)
  {
    if IsStrike(pins, i) then (pins[i], 1)
    else (Add64(pins[i], pins[i + 1]), 2)
  }

  /** One pass of the loop of `score`: the frame's pins, then its strike or spare bonus. */
  function AddFrame(result: u64, pins: seq<u64>, s: nat): u64
    requires s + 2 < |pins|
  {
    var withPins := Add64(result, FrameScore(pins, s).0);
    if IsStrike(pins, s) then Add64(withPins, StrikeBonus(pins, s))
    else if IsSpare(pins, s) then Add64(withPins, SpareBonus(pins, s))
    else withPins
  }

  /** The total the loop of `score` reaches from running total `result` at roll `s`
      with `frames` frames still to go. A frame takes one or two rolls, so with
      `s + 2 * frames <= 20` no read at `s + 1` or `s + 2` passes slot 20. */
  function TallyFrom(result: u64, pins: seq<u64>, s: nat, frames: nat): u64
    requires |pins| == Slots && s + 2 * frames <= 20
    decreases frames
  {
    if frames == 0 then result
    else TallyFrom(AddFrame(result, pins, s), pins, s + FrameScore(pins, s).1, frames - 1)
  }

  /** What `score` returns for the buffer `pins`. */
  function ScoreOf(pins: seq<u64>): u64
    requires |pins| == Slots
  {
    TallyFrom(0, pins, 0, FrameCount)
  }

  /** What the rules credit to the frame starting at roll `s`. */
  function FrameValue(pins: seq<u64>, s: nat): int
    requires s + 2 < |pins|
  {
    var (first, second, third) := (pins[s] as int, pins[s + 1] as int, pins[s + 2] as int);
    if first == AllPinsInFrame then AllPinsInFrame + second + third
    else if first + second == AllPinsInFrame then AllPinsInFrame + third
    else first + second
  }

  lemma RulesScoreStep(pins: seq<u64>, s: nat, frames: nat)
    requires |pins| == Slots && s <= 18 && frames > 0
    ensures var n := FrameScore(pins, s).1;
      RulesScore(Drop(pins, s), frames) == FrameValue(pins, s) + RulesScore(Drop(pins, s + n), frames - 1)
  {
    var rest := Drop(pins, s);
    assert rest == pins[s..];
    assert At(rest, 0) == pins[s] && At(rest, 1) == pins[s + 1] && At(rest, 2) == pins[s + 2];
    assert Drop(rest, 1) == Drop(pins, s + 1);
    assert Drop(rest, 2) == Drop(pins, s + 2);
  }

  /** With legal pins and a small running total, no addition of a frame wraps. */
  lemma AddFrameNoWrap(t: u64, pins: seq<u64>, s: nat)
    requires s + 2 < |pins| && t <= 270
    requires pins[s] <= 10 && pins[s + 1] <= 10 && pins[s + 2] <= 10
    ensures AddFrame(t, pins, s) == t + FrameValue(pins, s)
  {
  }

  /** One frame of legal rolls adds what the rules credit to it and moves on by the
      rolls it takes. */
  lemma FrameStep(result: u64, pins: seq<u64>, s: nat, frames: nat)
    requires |pins| == Slots && s + 2 * frames <= 20 && frames > 0 && result <= 270
    requires pins[s] <= 10 && pins[s + 1] <= 10 && pins[s + 2] <= 10
    ensures TallyFrom(result, pins, s, frames)
         == TallyFrom(result + FrameValue(pins, s), pins, s + FrameScore(pins, s).1, frames - 1)
  {
    AddFrameNoWrap(result, pins, s);
  }

  /** With legal pin counts nothing wraps: the remaining frames add exactly what the
      rules credit to the rolls from `s` on. */
  lemma {:induction false} TallyFromFollowsRules(result: u64, pins: seq<u64>, s: nat, frames: nat)
    requires |pins| == Slots && s + 2 * frames <= 20 && LegalPins(pins)
    requires result + 30 * frames <= 300
    ensures TallyFrom(result, pins, s, frames) == result + RulesScore(Drop(pins, s), frames)
    decreases frames
  {
    if frames > 0 {
      var next := AddFrame(result, pins, s);
      var n := FrameScore(pins, s).1;
      assert pins[s] <= 10 && pins[s + 1] <= 10 && pins[s + 2] <= 10;
      AddFrameNoWrap(result, pins, s);
      RulesScoreStep(pins, s, frames);
      TallyFromFollowsRules(next, pins, s + n, frames - 1);
      assert TallyFrom(result, pins, s, frames) == TallyFrom(next, pins, s + n, frames - 1);
    }
  }

  /** `score` agrees with the rules of ten-pin bowling whenever every roll is 0 to 10 pins. */
  lemma ScoreFollowsRules(pins: seq<u64>)
    requires |pins| == Slots && LegalPins(pins)
    ensures ScoreOf(pins) == RulesScore(pins, FrameCount)
  {
    TallyFromFollowsRules(0, pins, 0, FrameCount);
    assert Drop(pins, 0) == pins;
  }

  /** The `frames` frames from roll `s` on are open: the two rolls of each leave pins standing. */
  ghost predicate OpenFrames(pins: seq<u64>, s: nat, frames: nat)
    requires s + 2 * frames <= |pins|
    decreases frames
  {
    frames == 0 || (pins[s] + pins[s + 1] < AllPinsInFrame && OpenFrames(pins, s + 2, frames - 1))
  }

  /** An open frame adds its two rolls and moves on by two rolls. */
  lemma OpenFrameStep(result: u64, pins: seq<u64>, s: nat, frames: nat)
    requires |pins| == Slots && s + 2 * frames <= 20 && frames > 0
    requires pins[s] + pins[s + 1] < AllPinsInFrame && result + 20 * frames < U64_LIMIT
    ensures TallyFrom(result, pins, s, frames)
         == TallyFrom(result + pins[s] + pins[s + 1], pins, s + 2, frames - 1)
  {
    assert !IsStrike(pins, s) && !IsSpare(pins, s);
    assert AddFrame(result, pins, s) == result + pins[s] + pins[s + 1];
  }

  /** Open frames add exactly their pins. */
  lemma {:induction false} OpenFramesAddPins(result: u64, pins: seq<u64>, s: nat, frames: nat)
    requires |pins| == Slots && s + 2 * frames <= 20 && OpenFrames(pins, s, frames)
    requires result + 20 * frames < U64_LIMIT
    ensures TallyFrom(result, pins, s, frames) == result + Total(pins[s..s + 2 * frames])
    decreases frames
  {
    if frames > 0 {
      var next := result + pins[s] + pins[s + 1];
      OpenFrameStep(result, pins, s, frames);
      OpenFramesAddPins(next, pins, s + 2, frames - 1);
      var r := pins[s..s + 2 * frames];
      assert r[1..][1..] == pins[s + 2..s + 2 * frames];
      assert Total(r) == pins[s] + pins[s + 1] + Total(r[1..][1..]);
    }
  }

  /** A game without a strike or a spare scores the sum of its pins. */
  lemma NoMarkScoreIsSumOfPins(pins: seq<u64>)
    requires |pins| == Slots && OpenFrames(pins, 0, FrameCount)
    ensures ScoreOf(pins) == Total(pins[..20])
  {
    OpenFramesAddPins(0, pins, 0, FrameCount);
  }

  /** Frames whose rolls all knock down the same `n <= 4` pins are open, and add `2 * n` each. */
  lemma {:induction false} EqualOpenFrames(result: u64, pins: seq<u64>, s: nat, frames: nat, n: nat)
    requires |pins| == Slots && s + 2 * frames <= 20 && n <= 4 && result + 20 * frames < U64_LIMIT
    requires forall i | s <= i < s + 2 * frames :: pins[i] == n
    ensures TallyFrom(result, pins, s, frames) == result + 2 * n * frames
    decreases frames
  {
    if frames > 0 {
      assert pins[s] == n && pins[s + 1] == n;
      OpenFrameStep(result, pins, s, frames);
      var next := result + pins[s] + pins[s + 1];
      EqualOpenFrames(next, pins, s + 2, frames - 1, n);
      assert 2 * n * frames == 2 * n * (frames - 1) + 2 * n;
    }
  }

  /** Strikes from roll `s` on, with strikes for the bonus rolls too, add 30 a frame. */
  lemma {:induction false} StrikeFrames(result: u64, pins: seq<u64>, s: nat, frames: nat)
    requires |pins| == Slots && s + 2 * frames <= 20 && s + frames + 2 <= Slots
    requires result + 30 * frames <= 300
    requires forall i | s <= i < s + frames + 2 :: pins[i] == AllPinsInFrame
    ensures TallyFrom(result, pins, s, frames) == result + 30 * frames
    decreases frames
  {
    if frames > 0 {
      FrameStep(result, pins, s, frames);
      StrikeFrames(result + 30, pins, s + 1, frames - 1);
    }
  }

  /** A new game scores 0, and so do 20 gutter balls whatever the unused last slot holds. */
  lemma GutterGameScoresZero(pins: seq<u64>)
    requires |pins| == Slots && forall i | 0 <= i < 20 :: pins[i] == 0
    ensures ScoreOf(pins) == 0
  {
    EqualOpenFrames(0, pins, 0, FrameCount, 0);
  }

  /** The buffer of a new game, all 21 slots zero, scores 0. */
  lemma NewGameScoresZero()
    ensures ScoreOf(seq(Slots, _ => 0)) == 0
  {
    GutterGameScoresZero(seq(Slots, _ => 0));
  }

  /** Twenty rolls of `n <= 4` pins score `20 * n`: 40 for all twos, 20 for all ones. */
  lemma EqualRollsScoreSumOfPins(pins: seq<u64>, n: nat)
    requires |pins| == Slots && n <= 4 && forall i | 0 <= i < 20 :: pins[i] == n
    ensures ScoreOf(pins) == 20 * n
  {
    EqualOpenFrames(0, pins, 0, FrameCount, n);
  }

  /** A spare (1, 9) followed by 18 rolls of one pin scores 29. */
  lemma SpareCountsNextRollTwice(pins: seq<u64>)
    requires |pins| == Slots && pins[0] == 1 && pins[1] == 9
    requires forall i | 2 <= i < 20 :: pins[i] == 1
    ensures ScoreOf(pins) == 29
  {
    FrameStep(0, pins, 0, 10);
    EqualOpenFrames(11, pins, 2, 9, 1);
  }

  /** Two ones, a strike, then 16 ones score 30. */
  lemma StrikeCountsNextTwoRollsTwice(pins: seq<u64>)
    requires |pins| == Slots && pins[0] == 1 && pins[1] == 1 && pins[2] == AllPinsInFrame
    requires forall i | 3 <= i < 19 :: pins[i] == 1
    ensures ScoreOf(pins) == 30
  {
    OpenFrameStep(0, pins, 0, 10);
    FrameStep(2, pins, 2, 9);
    EqualOpenFrames(14, pins, 3, 8, 1);
  }

  /** 18 ones, then a spare (1, 9) in the tenth frame and its bonus roll of 6, score 34. */
  lemma SpareInLastFrame(pins: seq<u64>)
    requires |pins| == Slots && forall i | 0 <= i < 18 :: pins[i] == 1
    requires pins[18] == 1 && pins[19] == 9 && pins[20] == 6
    ensures ScoreOf(pins) == 34
  {
    EqualOpenFrames(0, pins, 0, 9, 1);
    FrameStep(18, pins, 18, 1);
  }

  /** 18 ones, then a strike in the tenth frame and its bonus rolls 6 and 7, score 41. */
  lemma StrikeInLastFrame(pins: seq<u64>)
    requires |pins| == Slots && forall i | 0 <= i < 18 :: pins[i] == 1
    requires pins[18] == AllPinsInFrame && pins[19] == 6 && pins[20] == 7
    ensures ScoreOf(pins) == 41
  {
    EqualOpenFrames(0, pins, 0, 9, 1);
    FrameStep(18, pins, 18, 1);
  }

  /** Twelve strikes score 300. */
  lemma PerfectGame(pins: seq<u64>)
    requires |pins| == Slots && forall i | 0 <= i < 12 :: pins[i] == AllPinsInFrame
    ensures ScoreOf(pins) == 300
  {
    StrikeFrames(0, pins, 0, FrameCount);
  }

  /** A strike, then 3 and 6, then 16 ones score 44. */
  lemma StrikeThenOpenFrames(pins: seq<u64>)
    requires |pins| == Slots && pins[0] == AllPinsInFrame && pins[1] == 3 && pins[2] == 6
    requires forall i | 3 <= i < 19 :: pins[i] == 1
    ensures ScoreOf(pins) == 44
  {
    FrameStep(0, pins, 0, 10);
    OpenFrameStep(19, pins, 1, 9);
    EqualOpenFrames(28, pins, 3, 8, 1);
  }

  /** 18 ones, then a strike in the tenth frame with bonus rolls 5 and 5, score 38. */
  lemma StrikeAndSpareBonusInLastFrame(pins: seq<u64>)
    requires |pins| == Slots && forall i | 0 <= i < 18 :: pins[i] == 1
    requires pins[18] == AllPinsInFrame && pins[19] == 5 && pins[20] == 5
    ensures ScoreOf(pins) == 38
  {
    EqualOpenFrames(0, pins, 0, 9, 1);
    FrameStep(18, pins, 18, 1);
  }

  /** The `frames` frames from roll `s` on are each the spare (1, 9). */
  ghost predicate OneNinePairs(pins: seq<u64>, s: nat, frames: nat)
    requires s + 2 * frames <= |pins|
    decreases frames
  {
    frames == 0 || (pins[s] == 1 && pins[s + 1] == 9 && OneNinePairs(pins, s + 2, frames - 1))
  }

  /** Spares (1, 9), each followed by another, add 11 a frame. */
  lemma {:induction false} OneNineSpares(result: u64, pins: seq<u64>, s: nat, frames: nat)
    requires |pins| == Slots && s + 2 * frames <= 18 && result + 11 * frames <= 99
    requires OneNinePairs(pins, s, frames + 1)
    ensures TallyFrom(result, pins, s, frames) == result + 11 * frames
    ensures pins[s + 2 * frames] == 1 && pins[s + 2 * frames + 1] == 9
    decreases frames
  {
    if frames > 0 {
      FrameStep(result, pins, s, frames);
      OneNineSpares(result + 11, pins, s + 2, frames - 1);
    }
  }

  /** Ten spares (1, 9) and a last bonus roll of 10 score 119. */
  lemma AllSpares(pins: seq<u64>)
    requires |pins| == Slots && OneNinePairs(pins, 0, FrameCount) && pins[20] == AllPinsInFrame
    ensures ScoreOf(pins) == 119
  {
    OneNineSpares(0, pins, 0, 9);
    FrameStep(99, pins, 18, 1);
  }

  /** The buffer of a new game after `rolls` have been rolled into it. */
  function Rolled(rolls: seq<u64>): (pins: seq<u64>)
    requires |rolls| <= Slots
    ensures |pins| == Slots && pins[..|rolls|] == rolls
    ensures forall i | |rolls| <= i < Slots :: pins[i] == 0
  {
    rolls + seq(Slots - |rolls|, _ => 0)
  }

  class BowlingGame {
    var pins: array<u64>
    var throwNo: nat

    ghost predicate Valid()
      reads this
    {
      pins.Length == Slots && throwNo <= Slots
    }

    /** A new game: every slot zero and no roll made. */
    constructor ()
      ensures Valid() && fresh(pins) && throwNo == 0
      ensures pins[..] == seq(Slots, _ => 0)
    {
      pins := new u64[Slots](_ => 0);
      throwNo := 0;
    }

    /** Writes the pins into the next slot. The C++ does not check the index, so a
        22nd roll is excluded here by the precondition. */
    method Roll(p: u64)
      requires Valid() && throwNo < Slots
      modifies this, pins
      ensures Valid() && pins == old(pins)
      ensures throwNo == old(throwNo) + 1
      ensures pins[..] == old(pins[..])[old(throwNo) := p]
    {
      pins[throwNo] := p;
      throwNo := throwNo + 1;
    }

    /** The game's score; it changes neither the buffer nor the roll counter. */
    method Score() returns (result: u64)
      requires Valid()
      ensures result == ScoreOf(pins[..])
    {
      var rolls := pins[..];
      result := 0;
      var rollIndex: nat := 0;
      var i := 0;
      while i < FrameCount
        invariant 0 <= i <= FrameCount && rollIndex <= 2 * i
        invariant TallyFrom(result, rolls, rollIndex, FrameCount - i) == ScoreOf(rolls)
      {
        ghost var before := result;
        var (pinsInFrame, rollsInFrame) := FrameScore(rolls, rollIndex);
        result := Add64(result, pinsInFrame);
        if IsStrike(rolls, rollIndex) {
          result := Add64(result, StrikeBonus(rolls, rollIndex));
        } else if IsSpare(rolls, rollIndex) {
          result := Add64(result, SpareBonus(rolls, rollIndex));
        }
        assert TallyFrom(before, rolls, rollIndex, FrameCount - i)
            == TallyFrom(result, rolls, rollIndex + rollsInFrame, FrameCount - i - 1);
        rollIndex := rollIndex + rollsInFrame;
        i := i + 1;
      }
    }
  }

  /** A new game that is given `rolls` one after the other, then scored. */
  method PlayGame(rolls: seq<u64>) returns (score: u64)
    requires |rolls| <= Slots
    ensures score == ScoreOf(Rolled(rolls))
  {
    var game := new BowlingGame();
    var i := 0;
    while i < |rolls|
      invariant 0 <= i <= |rolls|
      invariant game.Valid() && fresh(game.pins) && game.throwNo == i
      invariant forall j | 0 <= j < Slots :: game.pins[j] == if j < i then rolls[j] else 0
    {
      game.Roll(rolls[i]);
      i := i + 1;
    }
    assert game.pins[..] == Rolled(rolls);
    score := game.Score();
  }
}
