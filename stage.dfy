/**
 One stage of the pipeline (run_experiment): roll the pool, apply the stage's
 reroll option, count the successes and the sixes. The hit and wound stages
 (j < 2) count dice at or above the threshold. The two save stages (j > 1)
 reuse the same count on a mirrored configuration: the option is swapped
 ("1" and "6", "positive" and "negative") and the threshold becomes 8 - t.
 The lemmas at the end show that this is the "die below the save" reading of
 the stage on the mirrored die 7 - d.
 */
module Stage {
  import opened Dice

  /** What one stage reports: its success count, its number of sixes, and
      the stream position after its last draw. */
  datatype StageOutcome = StageOutcome(successes: nat, sixes: nat, next: nat)

  /** Roll, reroll and count with one option and one threshold; the body the
      two branches of run_experiment share. */
  function Resolve(numDice: int, option: string, threshold: int, rng: Stream, pos: nat): (r: StageOutcome)
    ensures r.successes <= PoolSize(numDice) && r.sixes <= PoolSize(numDice)
    ensures threshold <= 6 ==> r.sixes <= r.successes
    ensures Fair(rng) && threshold <= 1 ==> r.successes == PoolSize(numDice)
    ensures Fair(rng) && threshold >= 7 ==> r.successes == 0
    ensures r.next == pos + PoolSize(numDice) + Matching(RollDice(numDice, rng, pos), option, threshold)
  {
    var rolls := RollDice(numDice, rng, pos);
    var drawn := pos + |rolls|;
    var rerolled := Reroll(rolls, option, threshold, rng, drawn);
    assert threshold <= 6 ==> CountSixes(rerolled) <= CheckCriteria(rerolled, threshold) by {
      if threshold <= 6 {
        SixesAreSuccesses(rerolled, threshold);
      }
    }
    assert Fair(rng) ==> AllFaces(rerolled);
    assert AllFaces(rerolled) ==> (threshold <= 1 ==> CheckCriteria(rerolled, threshold) == |rerolled|)
                                  && (threshold >= 7 ==> CheckCriteria(rerolled, threshold) == 0) by {
      if AllFaces(rerolled) {
        CriteriaBoundaries(rerolled, threshold);
      }
    }
    StageOutcome(CheckCriteria(rerolled, threshold), CountSixes(rerolled),
                 drawn + Matching(rolls, option, threshold))
  }

  /** The option a save stage uses in place of the configured one. */
  function SwapOption(option: string): (r: string)
    ensures option == "none" ==> r == "none"
    ensures Recognised(r) <==> Recognised(option)
    ensures !Recognised(option) ==> r == option
  {
    if option == "1" then "6"
    else if option == "6" then "1"
    else if option == "positive" then "negative"
    else if option == "negative" then "positive"
    else option
  }

  /** run_experiment: stage j of the pipeline. */
  function RunExperiment(numDice: int, option: string, threshold: int, j: int, rng: Stream, pos: nat): (r: StageOutcome)
    ensures r.successes <= PoolSize(numDice) && r.sixes <= PoolSize(numDice)
    ensures pos + PoolSize(numDice) <= r.next <= pos + 2 * PoolSize(numDice)
    ensures j < 2 && threshold <= 6 ==> r.sixes <= r.successes
    ensures j > 1 && threshold >= 2 ==> r.sixes <= r.successes
    // "1 = auto-hit" on the hit and wound stages
    ensures Fair(rng) && j < 2 && threshold <= 1 ==> r.successes == PoolSize(numDice)
    ensures Fair(rng) && j < 2 && threshold >= 7 ==> r.successes == 0
    // "7 = no save" on the save stages: every die gets through; 1 stops every die
    ensures Fair(rng) && j > 1 && threshold >= 7 ==> r.successes == PoolSize(numDice)
    ensures Fair(rng) && j > 1 && threshold <= 1 ==> r.successes == 0
  {
    if j < 2 then
      Resolve(numDice, option, threshold, rng, pos)
    else
      Resolve(numDice, SwapOption(option), 8 - threshold, rng, pos)
  }

  /** Swapping the option twice gives it back. */
  lemma SwapInvolution(option: string)
    ensures SwapOption(SwapOption(option)) == option
  {
  }

  /** The die as the save stages read it: a roll of d stands for 7 - d. */
  function MirrorAll(rolls: seq<int>): (r: seq<int>)
    ensures |r| == |rolls|
    ensures forall i :: 0 <= i < |r| ==> r[i] + rolls[i] == 7
  {
    seq(|rolls|, i requires 0 <= i < |rolls| => 7 - rolls[i])
  }

  function MirrorStream(rng: Stream): (r: Stream)
    ensures forall k: nat :: r(k) + rng(k) == 7
  {
    (k: nat) => 7 - rng(k)
  }

  /** The swapped option at threshold 8 - t matches a die exactly when the
      configured option at threshold t matches its mirror. */
  lemma MatchesMirror(option: string, threshold: int, roll: int)
    ensures Matches(SwapOption(option), 8 - threshold, roll) == Matches(option, threshold, 7 - roll)
  {
  }

  /** Mirroring commutes with rolling. */
  lemma RollMirror(n: int, rng: Stream, pos: nat)
    ensures MirrorAll(RollDice(n, rng, pos)) == RollDice(n, MirrorStream(rng), pos)
  {
  }

  /** Rerolling with the swapped option at 8 - t, then mirroring, is rerolling
      the mirrored pool with the configured option at t from the mirrored
      stream. */
  lemma {:induction false} RerollMirror(rolls: seq<int>, option: string, threshold: int, rng: Stream, pos: nat)
    ensures MirrorAll(Reroll(rolls, SwapOption(option), 8 - threshold, rng, pos))
            == Reroll(MirrorAll(rolls), option, threshold, MirrorStream(rng), pos)
  {
    if rolls != [] {
      MatchesMirror(option, threshold, rolls[0]);
      var mirrored := MirrorAll(rolls);
      assert mirrored == [7 - rolls[0]] + MirrorAll(rolls[1..]);
      if Matches(option, threshold, 7 - rolls[0]) {
        RerollMirror(rolls[1..], option, threshold, rng, pos + 1);
        MirrorCons(rng(pos), Reroll(rolls[1..], SwapOption(option), 8 - threshold, rng, pos + 1));
      } else {
        RerollMirror(rolls[1..], option, threshold, rng, pos);
        MirrorCons(rolls[0], Reroll(rolls[1..], SwapOption(option), 8 - threshold, rng, pos));
      }
    }
  }

  lemma MirrorCons(x: int, rolls: seq<int>)
    ensures MirrorAll([x] + rolls) == [7 - x] + MirrorAll(rolls)
  {
  }

  /** A die counts as a success at a save stage exactly when its mirror lies
      below the save value. */
  lemma {:induction false} SaveCriteria(rolls: seq<int>, threshold: int)
    ensures CheckCriteria(rolls, 8 - threshold) == CountBelow(MirrorAll(rolls), threshold)
  {
    if rolls != [] {
      SaveCriteria(rolls[1..], threshold);
      assert MirrorAll(rolls)[1..] == MirrorAll(rolls[1..]);
    }
  }

  /** The save stages as written (swapped option, threshold 8 - t, at-or-above
      count) are the stage that rolls the mirrored dice, rerolls them with the
      configured option at t, and counts the dice below t. */
  lemma SaveStageReading(numDice: int, option: string, threshold: int, j: int, rng: Stream, pos: nat)
    requires j > 1
    ensures var mirrored := MirrorStream(rng);
            var rolls := RollDice(numDice, mirrored, pos);
            RunExperiment(numDice, option, threshold, j, rng, pos).successes
            == CountBelow(Reroll(rolls, option, threshold, mirrored, pos + PoolSize(numDice)), threshold)
  {
    var rolls := RollDice(numDice, rng, pos);
    var drawn := pos + PoolSize(numDice);
    var rerolled := Reroll(rolls, SwapOption(option), 8 - threshold, rng, drawn);
    SaveCriteria(rerolled, threshold);
    RerollMirror(rolls, option, threshold, rng, drawn);
    RollMirror(numDice, rng, pos);
  }
}
