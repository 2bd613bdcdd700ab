/**
 The per-trial pipeline of run_simulation: four stages run in order over a
 four-slot tally. After the hit stage Poison moves that stage's six count
 from slot 0 to slot 2 and Fury adds it to slot 0; after the wound stage
 Lethal moves it from slot 1 to slot 3 (with Regenerates) or slot 2. The tally
 slot of the stage, as adjusted, is the pool of the next stage. The last slot is the trial's
 result; a simulation runs the trial repeatedly and collects those results.
 */
module Trial {
  import opened Dice
  import opened Stage

  /** The values the form supplies, already parsed: the threshold and reroll
      option of each stage and the four rule flags. */
  datatype Config = Config(
    thresholds: seq<int>,
    options: seq<string>,
    poison: bool,
    fury: bool,
    lethal: bool,
    regenerates: bool)

  predicate WellFormed(cfg: Config) {
    |cfg.thresholds| == 4 && |cfg.options| == 4
  }

  predicate NoRules(cfg: Config) {
    !cfg.poison && !cfg.fury && !cfg.lethal
  }

  /** The loop state of one trial between stages: the tally, the number of
      dice the next stage rolls, and the stream position. */
  datatype TrialState = TrialState(results: seq<int>, pool: int, cursor: nat)

  /** The special rules applied after stage i, all acting on the same six
      count k of that stage: Poison, then Fury, then Lethal. */
  function ApplyRules(results: seq<int>, i: int, k: int, cfg: Config): (r: seq<int>)
    requires |results| == 4
    ensures |r| == 4
    ensures i != 0 && i != 1 ==> r == results
    ensures r[0] + r[1] + r[2] + r[3]
            == results[0] + results[1] + results[2] + results[3] + (if cfg.fury && i == 0 then k else 0)
  {
    var poisoned := if cfg.poison && i == 0 then results[0 := results[0] - k][2 := results[2] + k] else results;
    var furious := if cfg.fury && i == 0 then poisoned[0 := poisoned[0] + k] else poisoned;
    if cfg.lethal && i == 1 then
      var lethal := furious[1 := furious[1] - k];
      if cfg.regenerates then lethal[3 := lethal[3] + k] else lethal[2 := lethal[2] + k]
    else
      furious
  }

  /** One pass of the loop body for stage i. */
  function StageStep(st: TrialState, i: nat, cfg: Config, rng: Stream): (r: TrialState)
    requires WellFormed(cfg) && |st.results| == 4 && i < 4
    ensures |r.results| == 4
    ensures r.pool == r.results[i]
    ensures r.cursor >= st.cursor
  {
    var o := RunExperiment(st.pool, cfg.options[i], cfg.thresholds[i], i, rng, st.cursor);
    var counted := st.results[i := st.results[i] + o.successes];
    var adjusted := ApplyRules(counted, i, o.sixes, cfg);
    TrialState(adjusted, adjusted[i], o.next)
  }

  /** The state after the first k stages of a trial. */
  function Stages(numDice: int, cfg: Config, rng: Stream, pos: nat, k: nat): (r: TrialState)
    requires WellFormed(cfg) && k <= 4
    ensures |r.results| == 4
    ensures r.cursor >= pos
    ensures k > 0 ==> r.pool == r.results[k - 1]
  {
    if k == 0 then TrialState([0, 0, 0, 0], numDice, pos)
    else StageStep(Stages(numDice, cfg, rng, pos, k - 1), k - 1, cfg, rng)
  }

  /** The state after a whole trial; its results[3] is the trial's result. */
  function TrialRun(numDice: int, cfg: Config, rng: Stream, pos: nat): (r: TrialState)
    requires WellFormed(cfg)
    ensures |r.results| == 4
    ensures r.pool == r.results[3]
    ensures r.cursor >= pos
  {
    Stages(numDice, cfg, rng, pos, 4)
  }

  /** The rule branches of the loop body, updating the tally in place. */
  method UpdateRules(results: array<int>, i: int, k: int, cfg: Config)
    requires results.Length == 4
    modifies results
    ensures results[..] == ApplyRules(old(results[..]), i, k, cfg)
  {
    if cfg.poison && i == 0 {
      results[0] := results[0] - k;
      results[2] := results[2] + k;
    }
    if cfg.fury && i == 0 {
      results[0] := results[0] + k;
    }
    if cfg.lethal && i == 1 {
      results[1] := results[1] - k;
      if cfg.regenerates {
        results[3] := results[3] + k;
      } else {
        results[2] := results[2] + k;
      }
    }
  }

  /** One pass of the trial loop on the tally array: run stage i on `pool`
      dice, add its successes to slot i, apply the rules, and hand back the
      next pool and stream position. */
  method PlayStage(results: array<int>, i: nat, pool: int, cursor: nat, cfg: Config, rng: Stream)
    returns (nextPool: int, nextCursor: nat)
    requires WellFormed(cfg) && results.Length == 4 && i < 4
    modifies results
    ensures TrialState(results[..], nextPool, nextCursor)
            == StageStep(TrialState(old(results[..]), pool, cursor), i, cfg, rng)
  {
    var o := RunExperiment(pool, cfg.options[i], cfg.thresholds[i], i, rng, cursor);
    results[i] := results[i] + o.successes;
    UpdateRules(results, i, o.sixes, cfg);
    nextPool := results[i];
    nextCursor := o.next;
  }

  /** The body of run_simulation's trial loop: a four-slot tally updated in
      place stage by stage. Returns the tally, its last slot (the value that
      is recorded), and the stream position after the trial. */
  method RunTrial(numDice: int, cfg: Config, rng: Stream, pos: nat) returns (tally: seq<int>, recorded: int, next: nat)
    requires WellFormed(cfg)
    ensures tally == TrialRun(numDice, cfg, rng, pos).results
    ensures next == TrialRun(numDice, cfg, rng, pos).cursor
    ensures recorded == tally[3]
  {
    var results := new int[4](_ => 0);
    var pool := numDice;
    var cursor := pos;
    assert results[..] == [0, 0, 0, 0];
    for i := 0 to 4
      invariant TrialState(results[..], pool, cursor) == Stages(numDice, cfg, rng, pos, i)
    {
      pool, cursor := PlayStage(results, i, pool, cursor, cfg, rng);
    }
    tally := results[..];
    recorded := results[3];
    next := cursor;
  }

  /** The hit stage's rules. Poison moves the stage's six count k from slot 0
      to slot 2 before the armour save has run; Fury adds k to slot 0. Both
      act on the same k, so with both on slot 0 keeps exactly the successes
      and slot 2 is pre-seeded with k. */
  lemma HitStageRules(numDice: int, cfg: Config, rng: Stream, pos: nat)
    requires WellFormed(cfg)
    ensures var o := RunExperiment(numDice, cfg.options[0], cfg.thresholds[0], 0, rng, pos);
            var r := Stages(numDice, cfg, rng, pos, 1).results;
            && r[1] == 0 && r[3] == 0
            && (cfg.poison && cfg.fury ==> r[0] == o.successes && r[2] == o.sixes)
            && (cfg.poison && !cfg.fury ==> r[0] == o.successes - o.sixes && r[2] == o.sixes)
            && (!cfg.poison && cfg.fury ==> r[0] == o.successes + o.sixes && r[2] == 0)
            && (!cfg.poison && !cfg.fury ==> r[0] == o.successes && r[2] == 0)
  {
  }

  /** The wound stage's rules, from any tally. Lethal takes the stage's six
      count k out of slot 1 and puts it in slot 3 when Regenerates is on and in
      slot 2 otherwise; slot 0 never changes. */
  lemma WoundStageRules(st: TrialState, cfg: Config, rng: Stream)
    requires WellFormed(cfg) && |st.results| == 4
    ensures var o := RunExperiment(st.pool, cfg.options[1], cfg.thresholds[1], 1, rng, st.cursor);
            var k := if cfg.lethal then o.sixes else 0;
            var r := StageStep(st, 1, cfg, rng).results;
            && r[0] == st.results[0]
            && r[1] == st.results[1] + o.successes - k
            && r[2] == st.results[2] + (if cfg.regenerates then 0 else k)
            && r[3] == st.results[3] + (if cfg.regenerates then k else 0)
  {
  }

  /** At a save stage no rule applies: only the stage's own slot grows, by
      its successes. */
  lemma SaveStageStep(st: TrialState, i: nat, cfg: Config, rng: Stream)
    requires WellFormed(cfg) && |st.results| == 4 && 2 <= i < 4
    ensures var o := RunExperiment(st.pool, cfg.options[i], cfg.thresholds[i], i, rng, st.cursor);
            StageStep(st, i, cfg, rng).results == st.results[i := st.results[i] + o.successes]
  {
  }

  /** Without special rules every slot is the success count of its stage, so
      each stage passes on at most the dice it received. */
  lemma {:induction false} NoRulesStages(numDice: int, cfg: Config, rng: Stream, pos: nat, k: nat)
    requires WellFormed(cfg) && NoRules(cfg) && k <= 4
    ensures var r := Stages(numDice, cfg, rng, pos, k).results;
            && (forall i :: 0 <= i < 4 ==> 0 <= r[i])
            && (k > 0 ==> r[0] <= PoolSize(numDice))
            && (forall i :: 0 < i < k ==> r[i] <= r[i - 1])
            && (forall i :: k <= i < 4 ==> r[i] == 0)
  {
    if k > 0 {
      NoRulesStages(numDice, cfg, rng, pos, k - 1);
    }
  }

  /** Without special rules the recorded result lies between 0 and the
      initial pool, and the tally never grows from stage to stage. */
  lemma NoRulesTrial(numDice: int, cfg: Config, rng: Stream, pos: nat)
    requires WellFormed(cfg) && NoRules(cfg)
    ensures var r := TrialRun(numDice, cfg, rng, pos).results;
            0 <= r[3] <= r[2] <= r[1] <= r[0] <= PoolSize(numDice)
  {
    NoRulesStages(numDice, cfg, rng, pos, 4);
  }

  /** A pool of zero (or fewer) dice leaves every slot at 0, whatever the
      rules: no dice means no sixes for the rules to move. */
  lemma {:induction false} EmptyPoolStages(numDice: int, cfg: Config, rng: Stream, pos: nat, k: nat)
    requires WellFormed(cfg) && numDice <= 0 && k <= 4
    ensures Stages(numDice, cfg, rng, pos, k).results == [0, 0, 0, 0]
    ensures Stages(numDice, cfg, rng, pos, k).pool <= 0
  {
    if k > 0 {
      EmptyPoolStages(numDice, cfg, rng, pos, k - 1);
    }
  }

  lemma EmptyPoolTrial(numDice: int, cfg: Config, rng: Stream, pos: nat)
    requires WellFormed(cfg) && numDice <= 0
    ensures TrialRun(numDice, cfg, rng, pos).results == [0, 0, 0, 0]
  {
    EmptyPoolStages(numDice, cfg, rng, pos, 4);
  }

  /** The tally stays non-negative whenever the rules that subtract sixes
      (Poison after the hit stage, Lethal after the wound stage) act on a
      stage whose threshold is at most 6, since then every six is a success. */
  lemma {:induction false} NonNegativeStages(numDice: int, cfg: Config, rng: Stream, pos: nat, k: nat)
    requires WellFormed(cfg) && k <= 4
    requires cfg.poison ==> cfg.thresholds[0] <= 6
    requires cfg.lethal ==> cfg.thresholds[1] <= 6
    ensures forall i :: 0 <= i < 4 ==> Stages(numDice, cfg, rng, pos, k).results[i] >= 0
  {
    if k > 0 {
      NonNegativeStages(numDice, cfg, rng, pos, k - 1);
      StepNonNegative(Stages(numDice, cfg, rng, pos, k - 1), k - 1, cfg, rng);
    }
  }

  /** One stage keeps a non-negative tally non-negative under the same
      conditions on Poison and Lethal. */
  lemma StepNonNegative(st: TrialState, i: nat, cfg: Config, rng: Stream)
    requires WellFormed(cfg) && |st.results| == 4 && i < 4
    requires forall j :: 0 <= j < 4 ==> st.results[j] >= 0
    requires cfg.poison ==> cfg.thresholds[0] <= 6
    requires cfg.lethal ==> cfg.thresholds[1] <= 6
    ensures forall j :: 0 <= j < 4 ==> StageStep(st, i, cfg, rng).results[j] >= 0
  {
    var o := RunExperiment(st.pool, cfg.options[i], cfg.thresholds[i], i, rng, st.cursor);
    var counted := st.results[i := st.results[i] + o.successes];
    assert i == 0 && cfg.poison ==> o.sixes <= o.successes;
    assert i == 1 && cfg.lethal ==> o.sixes <= o.successes;
    assert StageStep(st, i, cfg, rng).results == ApplyRules(counted, i, o.sixes, cfg);
  }

  /** With a hit threshold of 7 or more no die hits, yet Poison still
      subtracts the sixes. With Fury off the hit slot ends at minus the six
      count (with Fury on, Fury adds them back: see HitStageRules), the
      wound stage then rolls no dice, and the poisoned sixes still reach the
      armour-save slot. */
  lemma PoisonWithoutHits(numDice: int, cfg: Config, rng: Stream, pos: nat)
    requires WellFormed(cfg) && Fair(rng)
    requires cfg.poison && !cfg.fury && cfg.thresholds[0] >= 7
    ensures var o := RunExperiment(numDice, cfg.options[0], cfg.thresholds[0], 0, rng, pos);
            var r := Stages(numDice, cfg, rng, pos, 1).results;
            r[0] == -(o.sixes as int) && r[1] == 0 && r[2] == o.sixes && r[3] == 0
    ensures var o := RunExperiment(numDice, cfg.options[0], cfg.thresholds[0], 0, rng, pos);
            Stages(numDice, cfg, rng, pos, 2).results[1] == 0
  {
  }

  /** One die showing 6 against a hit threshold of 7 and no reroll: no hit,
      one six, so with Poison the hit slot above becomes -1. */
  lemma OneSixNoHit(rng: Stream, pos: nat)
    requires rng(pos) == 6
    ensures RunExperiment(1, "none", 7, 0, rng, pos) == StageOutcome(0, 1, pos + 1)
  {
    assert RollDice(1, rng, pos) == [6];
    RerollUnrecognised([6], "none", 7, rng, pos + 1);
  }

  /** What a run of `trials` trials records, and where it leaves the stream.
      The random state is shared, so each trial draws where the previous
      one stopped. */
  datatype Experiment = Experiment(plotData: seq<int>, next: nat)

  /** One trial as the collection loop sees it: the value it records and
      the stream position it leaves. */
  datatype Record = Record(recorded: int, next: nat)

  /** The collection loop for any trial: run it `trials` times, each time
      from where the previous run stopped, and append what it records. */
  function Collect(trials: nat, trial: nat -> Record, pos: nat): (r: Experiment)
    ensures |r.plotData| == trials
    ensures (forall p: nat :: trial(p).next >= p) ==> r.next >= pos
  {
    if trials == 0 then Experiment([], pos)
    else
      var before := Collect(trials - 1, trial, pos);
      var t := trial(before.next);
      Experiment(before.plotData + [t.recorded], t.next)
  }

  /** The j-th value collected is what the trial records when started where
      the j-th run left the stream; later runs do not change it. */
  lemma {:induction false} CollectAt(trials: nat, trial: nat -> Record, pos: nat, j: nat)
    requires j < trials
    ensures Collect(trials, trial, pos).plotData[j] == trial(Collect(j, trial, pos).next).recorded
  {
    if j < trials - 1 {
      CollectAt(trials - 1, trial, pos, j);
    }
  }

  function Simulation(trials: nat, numDice: int, cfg: Config, rng: Stream, pos: nat): (r: Experiment)
    requires WellFormed(cfg)
    ensures |r.plotData| == trials
    ensures r.next >= pos
  {
    Collect(trials, (p: nat) => var t := TrialRun(numDice, cfg, rng, p); Record(t.results[3], t.cursor), pos)
  }

  /** The number of trials run_simulation runs. */
  const NumExperiments: nat := 1000

  /** run_simulation without the plot: run the trial body NumExperiments
      times and collect each trial's last tally slot. */
  method RunSimulation(numDice: int, cfg: Config, rng: Stream) returns (plotData: seq<int>)
    requires WellFormed(cfg)
    ensures plotData == Simulation(NumExperiments, numDice, cfg, rng, 0).plotData
  {
    plotData := [];
    var cursor := 0;
    for j := 0 to NumExperiments
      invariant plotData == Simulation(j, numDice, cfg, rng, 0).plotData
      invariant cursor == Simulation(j, numDice, cfg, rng, 0).next
    {
      var tally, recorded, next := RunTrial(numDice, cfg, rng, cursor);
      plotData := plotData + [recorded];
      cursor := next;
    }
  }

  /** The hit slot is reachable below zero: one die, a stream of sixes,
      Poison on and a hit threshold of 7 leave it at -1. */
  lemma PoisonNegativeHitSlot()
    ensures var cfg := Config([7, 4, 4, 4], ["none", "none", "none", "none"], true, false, false, false);
            Stages(1, cfg, (k: nat) => 6, 0, 1).results[0] == -1
  {
    var cfg := Config([7, 4, 4, 4], ["none", "none", "none", "none"], true, false, false, false);
    var rng: Stream := (k: nat) => 6;
    assert Fair(rng);
    PoisonWithoutHits(1, cfg, rng, 0);
    OneSixNoHit(rng, 0);
  }

  /** Each trial of a simulation records the last slot of the trial that
      starts where the previous one stopped; later trials do not change what
      earlier ones recorded. */
  lemma SimulationAt(trials: nat, numDice: int, cfg: Config, rng: Stream, pos: nat, j: nat)
    requires WellFormed(cfg) && j < trials
    ensures Simulation(trials, numDice, cfg, rng, pos).plotData[j]
            == TrialRun(numDice, cfg, rng, Simulation(j, numDice, cfg, rng, pos).next).results[3]
  {
    var trial := (p: nat) => var t := TrialRun(numDice, cfg, rng, p); Record(t.results[3], t.cursor);
    CollectAt(trials, trial, pos, j);
  }

  /** Without special rules every recorded result lies between 0 and the
      pool size. */
  lemma SimulationBounded(trials: nat, numDice: int, cfg: Config, rng: Stream, pos: nat)
    requires WellFormed(cfg) && NoRules(cfg)
    ensures forall j :: 0 <= j < trials ==>
              0 <= Simulation(trials, numDice, cfg, rng, pos).plotData[j] <= PoolSize(numDice)
  {
    forall j | 0 <= j < trials
      ensures 0 <= Simulation(trials, numDice, cfg, rng, pos).plotData[j] <= PoolSize(numDice)
    {
      SimulationAt(trials, numDice, cfg, rng, pos, j);
      NoRulesTrial(numDice, cfg, rng, Simulation(j, numDice, cfg, rng, pos).next);
    }
  }

  /** With an empty pool every trial records 0. */
  lemma SimulationEmptyPool(trials: nat, numDice: int, cfg: Config, rng: Stream, pos: nat)
    requires WellFormed(cfg) && numDice <= 0
    ensures forall j :: 0 <= j < trials ==> Simulation(trials, numDice, cfg, rng, pos).plotData[j] == 0
  {
    forall j | 0 <= j < trials
      ensures Simulation(trials, numDice, cfg, rng, pos).plotData[j] == 0
    {
      SimulationAt(trials, numDice, cfg, rng, pos, j);
      EmptyPoolTrial(numDice, cfg, rng, Simulation(j, numDice, cfg, rng, pos).next);
    }
  }
}
