/** Ten-pin scoring stated directly from the rules of the game, independently of
    either scorer's buffer and loop: the reference both scorers are proved against. */
module BowlingRules {

  const FrameCount: nat := 10

  const AllPins: nat := 10

  /** Roll `i`, or 0 for a roll that was never made. */
  function At(rolls: seq<int>, i: nat): int
  {
    if i < |rolls| then rolls[i] else 0
  }

  /** The rolls after the first `n`. */
  function Drop(rolls: seq<int>, n: nat): seq<int>
  {
    if n <= |rolls| then rolls[n..] else []
  }

  /** Every roll knocks down between 0 and 10 pins. */
  predicate LegalPins(rolls: seq<int>)
  {
    forall i | 0 <= i < |rolls| :: 0 <= rolls[i] <= AllPins
  }

  /** The score of the next `frames` frames of `rolls`: a strike counts 10 plus the
      next two rolls and takes one roll, a spare counts 10 plus the next roll, an
      open frame counts its two rolls; both of the latter take two rolls. */
  function RulesScore(rolls: seq<int>, frames: nat): int
    decreases frames
  {
    if frames == 0 then 0
    else if At(rolls, 0) == AllPins then
      AllPins + At(rolls, 1) + At(rolls, 2) + RulesScore(Drop(rolls, 1), frames - 1)
    else if At(rolls, 0) + At(rolls, 1) == AllPins then
      AllPins + At(rolls, 2) + RulesScore(Drop(rolls, 2), frames - 1)
    else
      At(rolls, 0) + At(rolls, 1) + RulesScore(Drop(rolls, 2), frames - 1)
  }

  /** With legal pin counts a frame is worth 0 to 30, so `frames` frames at most 30 each. */
  lemma {:induction false} RulesScoreBounds(rolls: seq<int>, frames: nat)
    requires LegalPins(rolls)
    ensures 0 <= RulesScore(rolls, frames) <= 30 * frames
  {
    if frames > 0 {
      assert LegalPins(Drop(rolls, 1)) && LegalPins(Drop(rolls, 2));
      RulesScoreBounds(Drop(rolls, 1), frames - 1);
      RulesScoreBounds(Drop(rolls, 2), frames - 1);
    }
  }

  /** The sum of the pins of `rolls`. */
  function Total(rolls: seq<int>): int
  {
    if rolls == [] then 0 else rolls[0] + Total(rolls[1..])
  }
}
