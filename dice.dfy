/**
 The per-die helpers of the roller: rolling a pool, rerolling it under one of
 the reroll options, and counting the dice that meet a threshold.

 Randomness is a supplied stream: `rng(k)` is the value the k-th call of
 `random.randint(1, 6)` would have returned, and every operation that draws
 dice takes the position `pos` of its first draw and consumes the stream in
 order from there.
 */
module Dice {

  /** The k-th die face drawn by the program, for every k. */
  type Stream = nat -> int

  /** A die face of a six-sided die. */
  predicate IsFace(v: int) {
    1 <= v <= 6
  }

  predicate AllFaces(rolls: seq<int>) {
    forall i :: 0 <= i < |rolls| ==> IsFace(rolls[i])
  }

  /** A stream that `random.randint(1, 6)` could produce. */
  ghost predicate Fair(rng: Stream) {
    forall k: nat :: IsFace(rng(k))
  }

  /** The number of dice `range(n)` rolls: none for a zero or negative pool. */
  function PoolSize(n: int): (r: nat)
    ensures n <= 0 ==> r == 0
    ensures n >= 0 ==> r == n
  {
    if n < 0 then 0 else n
  }

  /** roll_dice: `PoolSize(n)` fresh dice, drawn in order from position `pos`. */
  function RollDice(n: int, rng: Stream, pos: nat): (r: seq<int>)
    ensures |r| == PoolSize(n)
    ensures forall i :: 0 <= i < |r| ==> r[i] == rng(pos + i)
    ensures Fair(rng) ==> AllFaces(r)
  {
    seq(PoolSize(n), i requires 0 <= i => rng(pos + i))
  }

  predicate Recognised(option: string) {
    option == "1" || option == "6" || option == "positive" || option == "negative"
  }

  /** Whether reroll option `option` rerolls a die showing `roll`.
      An option other than the four recognised ones rerolls nothing. */
  function Matches(option: string, threshold: int, roll: int): (m: bool)
    ensures m ==> Recognised(option)
    ensures option == "positive" || option == "negative" ==> (m <==> (option == "positive") == (roll >= threshold))
  {
    if option == "1" then roll == 1
    else if option == "6" then roll == 6
    else if option == "positive" then roll >= threshold
    else if option == "negative" then roll < threshold
    else false
  }

  /** The number of dice of `rolls` the option rerolls, i.e. the number of
      draws a reroll consumes. */
  function Matching(rolls: seq<int>, option: string, threshold: int): (r: nat)
    ensures r <= |rolls|
  {
    if rolls == [] then 0
    else (if Matches(option, threshold, rolls[0]) then 1 else 0)
         + Matching(rolls[1..], option, threshold)
  }

  /** reroll_dice: scanning left to right, every die the option matches is
      replaced by the next value of the stream; the others are kept. */
  function Reroll(rolls: seq<int>, option: string, threshold: int, rng: Stream, pos: nat): (r: seq<int>)
    ensures |r| == |rolls|
    ensures Fair(rng) && AllFaces(rolls) ==> AllFaces(r)
  {
    if rolls == [] then []
    else if Matches(option, threshold, rolls[0]) then
      [rng(pos)] + Reroll(rolls[1..], option, threshold, rng, pos + 1)
    else
      [rolls[0]] + Reroll(rolls[1..], option, threshold, rng, pos)
  }

  /** check_criteria: the number of dice showing at least `threshold`. */
  function CheckCriteria(rolls: seq<int>, threshold: int): (r: nat)
    ensures r <= |rolls|
  {
    if rolls == [] then 0
    else (if rolls[0] >= threshold then 1 else 0) + CheckCriteria(rolls[1..], threshold)
  }

  /** The number of dice showing less than `threshold`. */
  function CountBelow(rolls: seq<int>, threshold: int): (r: nat)
    ensures r <= |rolls|
  {
    if rolls == [] then 0
    else (if rolls[0] < threshold then 1 else 0) + CountBelow(rolls[1..], threshold)
  }

  /** `rolls.count(6)`. */
  function CountSixes(rolls: seq<int>): (r: nat)
    ensures r <= |rolls|
  {
    if rolls == [] then 0
    else (if rolls[0] == 6 then 1 else 0) + CountSixes(rolls[1..])
  }

  /** Each die of a reroll is the old die when the option does not match it,
      and otherwise the single stream value drawn for it: the one after the
      draws of the matching dice to its left. A replacement is never rerolled
      again. */
  lemma {:induction false} RerollAt(rolls: seq<int>, option: string, threshold: int, rng: Stream, pos: nat, i: nat)
    requires i < |rolls|
    ensures Reroll(rolls, option, threshold, rng, pos)[i]
            == if Matches(option, threshold, rolls[i])
               then rng(pos + Matching(rolls[..i], option, threshold))
               else rolls[i]
  {
    if i > 0 {
      var step := if Matches(option, threshold, rolls[0]) then 1 else 0;
      RerollAt(rolls[1..], option, threshold, rng, pos + step, i - 1);
      assert rolls[1..][..i - 1] == rolls[..i][1..];
      assert rolls[..i][0] == rolls[0];
    }
  }

  /** Every draw a reroll makes lies below `pos + Matching(rolls)`, the
      position the stage hands on, so no later stage reuses a rerolled value. */
  lemma {:induction false} RerollDrawsBelowNext(rolls: seq<int>, option: string, threshold: int, i: nat)
    requires i < |rolls| && Matches(option, threshold, rolls[i])
    ensures Matching(rolls[..i], option, threshold) < Matching(rolls, option, threshold)
  {
    if i > 0 {
      RerollDrawsBelowNext(rolls[1..], option, threshold, i - 1);
      assert rolls[1..][..i - 1] == rolls[..i][1..];
      assert rolls[..i][0] == rolls[0];
    }
  }

  /** "none" and every unrecognised option leave the pool as it is. */
  lemma {:induction false} RerollUnrecognised(rolls: seq<int>, option: string, threshold: int, rng: Stream, pos: nat)
    requires !Recognised(option)
    ensures Reroll(rolls, option, threshold, rng, pos) == rolls
  {
    if rolls != [] {
      RerollUnrecognised(rolls[1..], option, threshold, rng, pos);
    }
  }

  /** Every die either meets the threshold or lies below it. */
  lemma {:induction false} CriteriaComplement(rolls: seq<int>, threshold: int)
    ensures CheckCriteria(rolls, threshold) + CountBelow(rolls, threshold) == |rolls|
  {
    if rolls != [] {
      CriteriaComplement(rolls[1..], threshold);
    }
  }

  /** A threshold of 1 or less ("auto-hit") counts every die; 7 or more
      counts none. */
  lemma {:induction false} CriteriaBoundaries(rolls: seq<int>, threshold: int)
    requires AllFaces(rolls)
    ensures threshold <= 1 ==> CheckCriteria(rolls, threshold) == |rolls|
    ensures threshold >= 7 ==> CheckCriteria(rolls, threshold) == 0
  {
    if rolls != [] {
      assert IsFace(rolls[0]);
      CriteriaBoundaries(rolls[1..], threshold);
    }
  }

  /** Raising the threshold never increases the count. */
  lemma {:induction false} CriteriaAntitone(rolls: seq<int>, lo: int, hi: int)
    requires lo <= hi
    ensures CheckCriteria(rolls, hi) <= CheckCriteria(rolls, lo)
  {
    if rolls != [] {
      CriteriaAntitone(rolls[1..], lo, hi);
    }
  }

  /** With a threshold of at most 6 every six is a success. */
  lemma {:induction false} SixesAreSuccesses(rolls: seq<int>, threshold: int)
    requires threshold <= 6
    ensures CountSixes(rolls) <= CheckCriteria(rolls, threshold)
  {
    if rolls != [] {
      SixesAreSuccesses(rolls[1..], threshold);
    }
  }

  /** CountSixes agrees with the multiplicity of 6 in the pool. */
  lemma {:induction false} CountSixesIsMultiplicity(rolls: seq<int>)
    ensures CountSixes(rolls) == multiset(rolls)[6]
  {
    if rolls != [] {
      CountSixesIsMultiplicity(rolls[1..]);
      assert rolls == [rolls[0]] + rolls[1..];
      assert multiset(rolls) == multiset([rolls[0]]) + multiset(rolls[1..]);
    }
  }
}
