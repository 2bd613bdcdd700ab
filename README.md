# t9aroller dice pipeline, modelled in Dafny

t9aroller is a Monte-Carlo roller for tabletop-wargame combat. It rolls a pool
of six-sided dice through four stages in order: hit, wound, armour save and
special save. Each stage can reroll some dice once, under one of the options
"1", "6", "positive", "negative" or "none". The stage adds its successes to its
own slot of a four-slot tally. Special rules then act on the stage's number of
sixes. After the hit stage, Poison moves the sixes from slot 0 to slot 2 and
Fury adds them to slot 0. After the wound stage, Lethal moves them from slot 1
to slot 3 when Regenerates is on, and to slot 2 otherwise. The next stage rolls
as many dice as the stage's slot holds after these rules. For the save stages
that slot can already hold sixes that Poison or Lethal put there before the
stage ran. Slot 3 of the tally is the result of a trial, and a run records
1000 trials.

The project has three modules, one per layer of `main.py`:

- `Dice` (`dice.dfy`): `roll_dice`, `reroll_dice` and `check_criteria`, the
  six count, and their lemmas.
- `Stage` (`stage.dfy`): `run_experiment`. This covers the save-stage mirroring
  (swapped option, threshold `8 - t`). It also proves that the save stages
  are the "die below the save" reading of the mirrored die `7 - d`.
- `Trial` (`trial.dfy`): the body of `run_simulation`. It is an imperative
  method over a four-element array whose loop is proved against the
  functional specification `Stages`. The special-rule lemmas, the
  pool-threading lemmas and the 1000-trial collection loop are also here.

Randomness is a supplied stream `rng: nat -> int`. `rng(k)` is the value the
k-th call of `random.randint(1, 6)` returns. `Fair(rng)` says every value is
a die face. Every operation that draws dice takes the position of its first
draw. `roll_dice(n)` draws `max(0, n)` values from there. A reroll draws one
value per matching die, from left to right, so it stops at
`pos + Matching(rolls, ...)`. Every stage and every trial also reports the
position after its last draw.
Python's random state is shared by all calls, so the position carries over
from stage to stage and from trial to trial.

The save stages do not count dice below the threshold directly. `run_experiment`
swaps the option ("1" with "6", "positive" with "negative"), replaces the
threshold `t` by `8 - t` and uses the same at-or-above count. The model
follows that code. `Stage.SaveStageReading` proves what it amounts to: roll
the mirrored die `7 - d`, reroll with the configured option at `t`, and count
the dice below `t`. A save threshold of 7 ("no save") lets every die through.
A save threshold of 1 stops every die.

## Model

| member | source | states |
|---|---|---|
| `Dice.PoolSize` | main.py:11 | `range(num_dice)` rolls no dice for a zero or negative pool and `n` dice otherwise |
| `Dice.Matches` | main.py:15-22 | the four reroll predicates; an unrecognised option matches no die; "positive" and "negative" match complementary sets of dice |
| `Dice.RollDice` | main.py:10-11 | exactly `max(0, n)` dice, the stream values from `pos` on in order; all die faces when the stream is fair |
| `Dice.Reroll` | main.py:14-23 | keeps the pool length; keeps dice in 1..6 when the stream is fair |
| `Dice.RerollAt` | main.py:14-23 | each die is unchanged when the option does not match it; otherwise it is the single stream value after the draws for the matching dice to its left (no chained rerolls) |
| `Dice.RerollDrawsBelowNext` | main.py:15-22 | every value a reroll draws lies below the position the stage hands on, so no later stage reuses it |
| `Dice.RerollUnrecognised` | main.py:15-23 | "none" and every unrecognised option return the pool unchanged |
| `Dice.Matching` | main.py:15-22 | a reroll draws at most one value per die |
| `Dice.CheckCriteria` | main.py:26-27 | the success count lies in [0, number of dice] |
| `Dice.CriteriaComplement` | main.py:26-27 | successes plus dice below the threshold make up the whole pool |
| `Dice.CriteriaBoundaries` | main.py:26-27 | on die faces, a threshold of at most 1 counts every die and one of at least 7 counts none |
| `Dice.CriteriaAntitone` | main.py:26-27 | raising the threshold never raises the count |
| `Dice.CountSixes` | main.py:35 | the six count lies in [0, number of dice] |
| `Dice.CountSixesIsMultiplicity` | main.py:35 | the six count is the number of occurrences of 6 in the pool |
| `Dice.SixesAreSuccesses` | main.py:34-35 | with a threshold of at most 6, the number of sixes is at most the number of successes |
| `Stage.Resolve` | main.py:32-36 | both counts are at most the pool size; sixes at most successes for a threshold of at most 6; auto-success at or below 1 and none at or above 7 on a fair stream; the stream position advances by the pool size plus the reroll draws |
| `Stage.SwapOption` | main.py:39-46 | leaves "none" and every unrecognised option fixed; maps recognised options to recognised ones |
| `Stage.SwapInvolution` | main.py:39-46 | swapping twice gives the option back |
| `Stage.RunExperiment` | main.py:30-52 | both counts are at most `max(0, n)`; draws between `max(0, n)` and `2 max(0, n)` values; sixes at most successes (hit/wound threshold at most 6, save threshold at least 2); on a fair stream threshold 1 auto-hits at stages 0-1, and threshold 7 passes every die while 1 passes none at stages 2-3 |
| `Stage.MatchesMirror` | main.py:39-49 | the swapped option at `8 - t` matches a die exactly when the configured option at `t` matches `7 - d` |
| `Stage.RollMirror` | main.py:48 | mirroring the rolled pool is rolling from the mirrored stream |
| `Stage.RerollMirror` | main.py:39-49 | rerolling with the swapped option at `8 - t` and then mirroring is rerolling the mirrored pool with the configured option at `t` |
| `Stage.SaveCriteria` | main.py:47-50 | a die counts at `8 - t` exactly when its mirror `7 - d` is below `t` |
| `Stage.SaveStageReading` | main.py:38-52 | a save stage's successes are the mirrored dice, after rerolling with the configured option, that lie below the threshold |
| `Trial.ApplyRules` | main.py:94-110 | four slots; only stages 0 and 1 change the tally; the rules keep the tally's total except Fury, which adds the six count |
| `Trial.UpdateRules` | main.py:94-110 | the in-place rule branches leave the array equal to `ApplyRules` of its old contents |
| `Trial.StageStep` | main.py:90-111 | one loop pass keeps four slots and passes slot i, after the rules, as the next pool |
| `Trial.PlayStage` | main.py:90-111 | the in-place loop pass on the array produces exactly `StageStep` |
| `Trial.Stages` | main.py:87-111 | after k stages the next pool is slot k-1 of the adjusted tally |
| `Trial.TrialRun` | main.py:87-112 | a whole trial: four slots, the last slot is the pool after stage 3, and the stream only moves forward |
| `Trial.RunTrial` | main.py:87-112 | the array loop yields the specified tally and stream position, and records slot 3 |
| `Trial.HitStageRules` | main.py:94-102 | Poison and Fury act on the same six count k: with both on, slot 0 keeps the successes and slot 2 is pre-seeded with k; each alone and neither, as well |
| `Trial.WoundStageRules` | main.py:103-110 | Lethal lowers slot 1 by k and raises slot 3 (with Regenerates) or slot 2 (without) by k; slot 0 is untouched |
| `Trial.SaveStageStep` | main.py:92-93 | at stages 2 and 3 only the stage's own slot changes, by its successes |
| `Trial.NoRulesStages` | main.py:89-111 | without special rules all slots are non-negative, slot 0 is at most the pool, each slot is at most the previous one, and later slots are still 0 |
| `Trial.NoRulesTrial` | main.py:87-112 | without special rules `0 <= slot 3 <= slot 2 <= slot 1 <= slot 0 <= max(0, n)` |
| `Trial.EmptyPoolStages` | main.py:89-111 | a pool of 0 or fewer dice leaves every slot 0 at every stage, whatever the rules |
| `Trial.EmptyPoolTrial` | main.py:87-112 | a trial with an empty pool ends with the all-zero tally |
| `Trial.NonNegativeStages` | main.py:94-110 | the tally stays non-negative when Poison and Lethal only act on stages with a threshold of at most 6 |
| `Trial.PoisonWithoutHits` | main.py:94-98 | with a hit threshold of 7 or more and Fury off, Poison drives slot 0 to minus the six count; the wound stage then rolls no dice |
| `Trial.OneSixNoHit` | main.py:30-36 | one die showing 6 against threshold 7 gives no success and one six, so the negative slot is reachable |
| `Trial.PoisonNegativeHitSlot` | main.py:94-98 | one die, a stream of sixes, Poison on and hit threshold 7 leave slot 0 at -1 |
| `Trial.Collect` | main.py:85-112 | the collection loop for any trial: it appends exactly one value per run, and the stream position never goes back when no run moves it back |
| `Trial.CollectAt` | main.py:85-112 | the j-th collected value is what the trial records when started where run j-1 stopped; later runs leave it unchanged |
| `Trial.StepNonNegative` | main.py:92-111 | one stage keeps a non-negative tally non-negative when Poison and Lethal only act at thresholds of at most 6 |
| `Trial.Simulation` | main.py:84-112 | a run of m trials of the trial body records exactly m results and only moves the stream forward |
| `Trial.RunSimulation` | main.py:83-114 | the 1000-trial loop records slot 3 of each trial in order, each trial drawing where the previous one stopped |
| `Trial.SimulationAt` | main.py:86-112 | the j-th recorded value is slot 3 of the trial that starts where trial j-1 stopped |
| `Trial.SimulationBounded` | main.py:86-112 | without special rules every recorded value lies in [0, max(0, n)] |
| `Trial.SimulationEmptyPool` | main.py:86-112 | with an empty pool every recorded value is 0 |

Two behaviours of the program are worth stating on their own.

- The save stages are labelled "7-brak save" (main.py:135), but the code
  does not count rolls below the save. It swaps the option and counts rolls
  at or above `8 - t` (main.py:39-50). `Stage.SaveStageReading` proves that
  this equals the below-the-save count on the mirrored die `7 - d`.
- Negative tallies can be reached. With Poison on, Fury off and a hit
  threshold of 7 or more, slot 0 ends at minus the hit stage's six count
  (`Trial.PoisonWithoutHits`). It is negative as soon as one six is rolled
  (`Trial.OneSixNoHit`, `Trial.PoisonNegativeHitSlot`), and the wound stage
  then rolls no dice. With Fury also on, Fury adds the sixes back and slot 0
  keeps exactly the hit successes (`Trial.HitStageRules`). Negative tallies
  cannot be reached when Poison and Lethal act only on stages with a
  threshold of at most 6 (`Trial.NonNegativeStages`).

## Left out

- The tkinter window, its widgets and the event loop (main.py:117-182). These
  are layout only. Their values become the `Config` parameter: four
  thresholds, four reroll options and four rule flags.
- `plot_histogram` (main.py:55-80). It relies on matplotlib, on numpy's
  `percentile` and on floating-point percentages. `RunSimulation` returns the
  data that would be plotted instead.
- The debug `print` calls in the rule branches (main.py:95-110). They are
  output only.
- `random.randint`. The model takes it as the supplied stream and does not
  model a pseudo-random generator. Claims about the distribution of results
  (binomial thinning, means) are not stated.
- The `int(...)` parsing of the entry fields (main.py:88, 90). The pool size
  and thresholds arrive as integers. Python integers are unbounded, as
  Dafny's `int` is, so no wrap-around is needed.
- Reading the form again during a run. The pool size is read for every
  trial (main.py:88). The thresholds, options and rule flags are read at
  every stage of every trial (main.py:90-91, 94, 99, 103, 106). The model
  fixes the pool size and the whole `Config` for one run, as the form does
  not change during a run.
