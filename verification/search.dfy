/** `optimiser.run`: a global phase of `maxSteps` steps that move every
    variable, then a finetune phase that moves one variable per step,
    keeping the best datapoint and its loss throughout. */
module Search {
  import opened Options
  import opened Seqs
  import opened AlDatapoint
  import opened Settings
  import opened Step

  /** Which `calculateStep` call of a run the draws belong to. */
  datatype Call = GlobalCall(step: nat) | FinetuneCall(round: nat, key: nat)

  /** The random draws of every call of a run. */
  type Oracle = Call -> Draws

  /** One `calculateStep` call: its target, step number, returned loss and
      datapoint, and the best loss once the call has been taken into account. */
  datatype Record = Record(target: string, stepNumber: nat, loss: real, point: Datapoint, best: real)

  /** The driver's state: `best_datapoint`, `best_loss` and the calls so far. */
  datatype State = State(best: Datapoint, bestLoss: Option<real>, log: seq<Record>)

  /** How a Python `for` loop ended; its `else` clause runs only on `Completed`. */
  datatype LoopExit = Completed | Broken

  /** Every degenerate variable sits at its single value. */
  predicate Pinned(cfg: Config, d: Datapoint)
    requires WellFormed(cfg) && Shaped(cfg, d)
  {
    forall j :: 0 <= j < |cfg.contKeys| && Degenerate(cfg, j) ==> d.continuous[j] == Min(cfg.contRanges[j])
  }

  /** Every categorical variable holds a drawn code of its domain. */
  predicate Drawn(cfg: Config, d: Datapoint)
    requires WellFormed(cfg) && Shaped(cfg, d)
  {
    forall j :: 0 <= j < |cfg.catKeys| ==> d.categorical[j].Code? && d.categorical[j].code in cfg.catDomains[j]
  }

  /** The best loss never goes up from one call to a later one. */
  predicate NonIncreasing(log: seq<Record>)
  {
    forall i, j :: 0 <= i < j < |log| ==> log[j].best <= log[i].best
  }

  /** The best loss never goes up from one call to the next. */
  predicate StepsDown(log: seq<Record>)
  {
    forall i :: 0 < i < |log| ==> log[i].best <= log[i - 1].best
  }

  /** Never going up from one call to the next is never going up at all. */
  lemma {:induction false} StepsDownIsNonIncreasing(log: seq<Record>)
    requires StepsDown(log)
    ensures NonIncreasing(log)
  {
    if |log| > 1 {
      var init := log[..|log| - 1];
      assert StepsDown(init) by {
        forall i | 0 < i < |init|
          ensures init[i].best <= init[i - 1].best
        {
          assert init[i] == log[i] && init[i - 1] == log[i - 1];
        }
      }
      StepsDownIsNonIncreasing(init);
      forall i, j | 0 <= i < j < |log|
        ensures log[j].best <= log[i].best
      {
        if j < |log| - 1 {
          assert init[i] == log[i] && init[j] == log[j];
        } else if i < j - 1 {
          assert init[i] == log[i] && init[j - 1] == log[j - 1];
        }
      }
    }
  }

  /** The logged best loss is the running minimum of the calls' losses:
      the first call sets it, and a later call replaces it only when its
      loss is strictly smaller. */
  predicate RunningMin(log: seq<Record>)
  {
    && (|log| > 0 ==> log[0].best == log[0].loss)
    && (forall i :: 0 < i < |log| ==>
          log[i].best == if log[i].loss < log[i - 1].best then log[i].loss else log[i - 1].best)
  }

  /** A running minimum never goes up and never exceeds a call's loss. */
  lemma RunningMinBounds(log: seq<Record>)
    requires RunningMin(log)
    ensures StepsDown(log)
    ensures forall i :: 0 <= i < |log| ==> log[i].best <= log[i].loss
  {
    forall i | 0 <= i < |log|
      ensures log[i].best <= log[i].loss
    {
      if i > 0 {
        assert log[i].best == if log[i].loss < log[i - 1].best then log[i].loss else log[i - 1].best;
      }
    }
  }

  /** A running minimum is reached: the last best loss is the loss of some call. */
  lemma {:induction false} RunningMinAttained(log: seq<Record>)
    requires RunningMin(log) && |log| > 0
    ensures exists t :: 0 <= t < |log| && log[|log| - 1].best == log[t].loss
  {
    var n := |log| - 1;
    if n > 0 && log[n].best != log[n].loss {
      var init := log[..n];
      assert RunningMin(init) by {
        forall i | 0 < i < |init|
          ensures init[i].best == if init[i].loss < init[i - 1].best then init[i].loss else init[i - 1].best
        {
          assert init[i] == log[i] && init[i - 1] == log[i - 1];
        }
      }
      RunningMinAttained(init);
      var t :| 0 <= t < n && init[n - 1].best == init[t].loss;
      assert log[t] == init[t] && log[n - 1] == init[n - 1];
    }
  }

  /** Call `i` set the best loss: it is the first call or strictly lowered the best. */
  predicate Lowered(log: seq<Record>, i: nat)
    requires i < |log|
  {
    i == 0 || log[i].loss < log[i - 1].best
  }

  /** The datapoint of the last call that set the best loss; a later call
      with an equal loss does not displace it. */
  function Holder(log: seq<Record>): Datapoint
    requires |log| > 0
    decreases |log|
  {
    if Lowered(log, |log| - 1) then log[|log| - 1].point else Holder(log[..|log| - 1])
  }

  /** The driver's invariant: the best loss is unset exactly before the
      first call, afterwards it is the last logged best, which is the
      running minimum of the calls' losses; the best datapoint is the one
      returned by the last call that set the best loss, and the best loss
      is its loss; the best datapoint keeps degenerate variables pinned
      and, once set, holds a domain code for every categorical variable. */
  predicate Tracking(cfg: Config, loss: Loss, st: State)
    requires WellFormed(cfg)
  {
    && Shaped(cfg, st.best)
    && Pinned(cfg, st.best)
    && RunningMin(st.log)
    && (st.bestLoss.None? <==> |st.log| == 0)
    && (st.bestLoss.Some? ==>
          && st.bestLoss.value == st.log[|st.log| - 1].best
          && st.best == Holder(st.log)
          && st.bestLoss.value == loss(Features(st.best))
          && Drawn(cfg, st.best))
  }

  /** Takes one step's outcome into account: replace the best when `better`, and log the call. */
  function Accept(st: State, target: string, stepNumber: nat, o: Outcome, better: bool): (r: State)
    requires better || st.bestLoss.Some?
    ensures r.bestLoss.Some?
    ensures r.log == st.log + [Record(target, stepNumber, o.loss, o.point, r.bestLoss.value)]
    ensures r.best == if better then o.point else st.best
  {
    var next := if better then State(o.point, Some(o.loss), st.log) else st;
    next.(log := st.log + [Record(target, stepNumber, o.loss, o.point, next.bestLoss.value)])
  }

  /** A step's outcome keeps degenerate variables pinned, and gives every
      categorical variable a domain code when the anchor had one or the
      step moved every variable. */
  lemma FrameKeeps(cfg: Config, anchor: Datapoint, target: string, d: Datapoint)
    requires WellFormed(cfg) && Shaped(cfg, anchor) && Frame(cfg, anchor, target, d)
    ensures Pinned(cfg, anchor) ==> Pinned(cfg, d)
    ensures Drawn(cfg, anchor) || target == AllVars ==> Drawn(cfg, d)
  {
  }

  /** Accepting a step's outcome by the driver's rule keeps the invariant:
      a better outcome (or the first one) replaces the best, a worse one
      is only logged. */
  lemma AcceptKeepsTracking(cfg: Config, loss: Loss, st: State, target: string, stepNumber: nat,
                            o: Outcome, better: bool)
    requires WellFormed(cfg) && Tracking(cfg, loss, st)
    requires Frame(cfg, st.best, target, o.point) && o.loss == loss(Features(o.point))
    requires st.bestLoss.Some? || target == AllVars
    requires better <==> st.bestLoss.None? || o.loss < st.bestLoss.value
    ensures Tracking(cfg, loss, Accept(st, target, stepNumber, o, better))
    ensures st.bestLoss.Some? ==> Accept(st, target, stepNumber, o, better).bestLoss.value <= st.bestLoss.value
  {
    FrameKeeps(cfg, st.best, target, o.point);
    var r := Accept(st, target, stepNumber, o, better);
    assert r.log[..|st.log|] == st.log;
  }

  /** `for i in range(i, max_steps)` of the global phase: a step on every
      variable, kept when there is no best yet or it is strictly better. */
  function GlobalLoop(cfg: Config, loss: Loss, oracle: Oracle, i: nat, st: State): (r: State)
    requires WellFormed(cfg) && Shaped(cfg, st.best) && i <= cfg.maxSteps
    ensures Shaped(cfg, r.best)
    ensures st.bestLoss.Some? || i < cfg.maxSteps ==> r.bestLoss.Some?
    decreases cfg.maxSteps - i
  {
    if i == cfg.maxSteps then st
    else
      var o := CalculateStep(cfg, loss, oracle(GlobalCall(i)), st.best, i, AllVars);
      var next := Accept(st, AllVars, i, o, st.bestLoss.None? || o.loss < st.bestLoss.value);
      GlobalLoop(cfg, loss, oracle, i + 1, next)
  }

  /** The inner `for key in [...]` of finetune round `round`, from the
      `k`-th key on: a step on that key alone, kept when strictly better.
      The loop body has no `break`, so the loop ends by running out of
      keys and reports `Completed`. */
  function FinetunePass(cfg: Config, loss: Loss, oracle: Oracle, round: nat, k: nat, st: State): (r: (State, LoopExit))
    requires WellFormed(cfg) && Shaped(cfg, st.best) && st.bestLoss.Some? && k <= |AllKeys(cfg)|
    ensures Shaped(cfg, r.0.best) && r.0.bestLoss.Some?
    decreases |AllKeys(cfg)| - k
  {
    if k == |AllKeys(cfg)| then (st, Completed)
    else
      var key := AllKeys(cfg)[k];
      var o := CalculateStep(cfg, loss, oracle(FinetuneCall(round, k)), st.best, round, key);
      var next := Accept(st, key, round, o, o.loss < st.bestLoss.value);
      FinetunePass(cfg, loss, oracle, round, k + 1, next)
  }

  /** The global loop keeps the driver's invariant and never raises the best loss. */
  lemma {:induction false} GlobalLoopTracks(cfg: Config, loss: Loss, oracle: Oracle, i: nat, st: State)
    requires WellFormed(cfg) && Tracking(cfg, loss, st) && i <= cfg.maxSteps
    ensures var r := GlobalLoop(cfg, loss, oracle, i, st);
      && Tracking(cfg, loss, r)
      && (st.bestLoss.Some? ==> r.bestLoss.value <= st.bestLoss.value)
    decreases cfg.maxSteps - i
  {
    if i < cfg.maxSteps {
      var o := CalculateStep(cfg, loss, oracle(GlobalCall(i)), st.best, i, AllVars);
      var better := st.bestLoss.None? || o.loss < st.bestLoss.value;
      AcceptKeepsTracking(cfg, loss, st, AllVars, i, o, better);
      GlobalLoopTracks(cfg, loss, oracle, i + 1, Accept(st, AllVars, i, o, better));
    }
  }

  /** A finetune pass keeps the driver's invariant and never raises the best loss. */
  lemma {:induction false} FinetunePassTracks(cfg: Config, loss: Loss, oracle: Oracle, round: nat, k: nat, st: State)
    requires WellFormed(cfg) && Tracking(cfg, loss, st) && st.bestLoss.Some? && k <= |AllKeys(cfg)|
    ensures var r := FinetunePass(cfg, loss, oracle, round, k, st).0;
      && Tracking(cfg, loss, r)
      && r.bestLoss.value <= st.bestLoss.value
    decreases |AllKeys(cfg)| - k
  {
    if k < |AllKeys(cfg)| {
      var key := AllKeys(cfg)[k];
      var o := CalculateStep(cfg, loss, oracle(FinetuneCall(round, k)), st.best, round, key);
      AcceptKeepsTracking(cfg, loss, st, key, round, o, o.loss < st.bestLoss.value);
      FinetunePassTracks(cfg, loss, oracle, round, k + 1, Accept(st, key, round, o, o.loss < st.bestLoss.value));
    }
  }

  /** The calls of a log: each call's target and step number. */
  function Schedule(log: seq<Record>): seq<(string, nat)>
  {
    seq(|log|, t requires 0 <= t < |log| => (log[t].target, log[t].stepNumber))
  }

  /** Global steps `i`, ..., `n - 1`, each on every variable. */
  function Sweeps(i: nat, n: nat): seq<(string, nat)>
    decreases n - i
  {
    if i >= n then [] else [(AllVars, i)] + Sweeps(i + 1, n)
  }

  /** One step per key, in order, all with step number `round`. */
  function Visits(keys: seq<string>, round: nat): seq<(string, nat)>
  {
    if |keys| == 0 then [] else [(keys[0], round)] + Visits(keys[1..], round)
  }

  /** The global schedule from `i` to `n`: step numbers `i`, ..., `n - 1`, each on every variable. */
  lemma {:induction false} SweepsAt(i: nat, n: nat)
    requires i <= n
    ensures |Sweeps(i, n)| == n - i
    ensures forall t :: 0 <= t < n - i ==> Sweeps(i, n)[t] == (AllVars, i + t)
    decreases n - i
  {
    if i < n {
      SweepsAt(i + 1, n);
    }
  }

  /** A visit schedule names every key once, in order, with the given step number. */
  lemma {:induction false} VisitsAt(keys: seq<string>, round: nat)
    ensures |Visits(keys, round)| == |keys|
    ensures forall t :: 0 <= t < |keys| ==> Visits(keys, round)[t] == (keys[t], round)
  {
    if |keys| > 0 {
      VisitsAt(keys[1..], round);
    }
  }

  /** Logging one more call adds it at the end of the schedule. */
  lemma ScheduleAppend(log: seq<Record>, rec: Record)
    ensures Schedule(log + [rec]) == Schedule(log) + [(rec.target, rec.stepNumber)]
  {
  }

  /** Moving one element across a concatenation. The call-log lemmas below
      use this instead of leaving sequence associativity to the solver,
      which keeps their proofs cheap. */
  lemma Regroup<T>(head: seq<T>, x: T, tail: seq<T>)
    ensures (head + [x]) + tail == head + ([x] + tail)
    ensures [] + tail == tail
  {
  }

  /** The global loop makes one call per remaining step, each on every
      variable, numbered from `i`. */
  lemma {:induction false} GlobalLoopCalls(cfg: Config, loss: Loss, oracle: Oracle, i: nat, st: State)
    requires WellFormed(cfg) && Shaped(cfg, st.best) && i <= cfg.maxSteps
    ensures Schedule(GlobalLoop(cfg, loss, oracle, i, st).log) == Schedule(st.log) + Sweeps(i, cfg.maxSteps)
    decreases cfg.maxSteps - i
  {
    if i < cfg.maxSteps {
      var o := CalculateStep(cfg, loss, oracle(GlobalCall(i)), st.best, i, AllVars);
      var next := Accept(st, AllVars, i, o, st.bestLoss.None? || o.loss < st.bestLoss.value);
      GlobalLoopCalls(cfg, loss, oracle, i + 1, next);
      ScheduleAppend(st.log, next.log[|st.log|]);
      assert next.log == st.log + [next.log[|st.log|]];
      var head, tail := Schedule(st.log), Sweeps(i + 1, cfg.maxSteps);
      assert GlobalLoop(cfg, loss, oracle, i, st) == GlobalLoop(cfg, loss, oracle, i + 1, next);
      Regroup(head, (AllVars, i), tail);
      assert Sweeps(i, cfg.maxSteps) == [(AllVars, i)] + tail;
    } else {
      assert Sweeps(i, cfg.maxSteps) == [];
    }
  }

  /** A finetune pass from the `k`-th key makes one call per remaining key,
      in key order, each with the round as step number. */
  lemma {:induction false} FinetunePassCalls(cfg: Config, loss: Loss, oracle: Oracle, round: nat, k: nat, st: State)
    requires WellFormed(cfg) && Shaped(cfg, st.best) && st.bestLoss.Some? && k <= |AllKeys(cfg)|
    ensures Schedule(FinetunePass(cfg, loss, oracle, round, k, st).0.log)
         == Schedule(st.log) + Visits(AllKeys(cfg)[k..], round)
    decreases |AllKeys(cfg)| - k
  {
    if k < |AllKeys(cfg)| {
      var key := AllKeys(cfg)[k];
      var o := CalculateStep(cfg, loss, oracle(FinetuneCall(round, k)), st.best, round, key);
      var next := Accept(st, key, round, o, o.loss < st.bestLoss.value);
      FinetunePassCalls(cfg, loss, oracle, round, k + 1, next);
      ScheduleAppend(st.log, next.log[|st.log|]);
      assert next.log == st.log + [next.log[|st.log|]];
      assert AllKeys(cfg)[k..][1..] == AllKeys(cfg)[k + 1..];
      var head, tail := Schedule(st.log), Visits(AllKeys(cfg)[k + 1..], round);
      assert FinetunePass(cfg, loss, oracle, round, k, st) == FinetunePass(cfg, loss, oracle, round, k + 1, next);
      Regroup(head, (key, round), tail);
      assert Visits(AllKeys(cfg)[k..], round) == [(key, round)] + tail;
    } else {
      assert Visits(AllKeys(cfg)[k..], round) == [];
    }
  }

  /** The inner loop has no `break`: every pass completes. */
  lemma {:induction false} PassCompletes(cfg: Config, loss: Loss, oracle: Oracle, round: nat, k: nat, st: State)
    requires WellFormed(cfg) && Shaped(cfg, st.best) && st.bestLoss.Some? && k <= |AllKeys(cfg)|
    ensures FinetunePass(cfg, loss, oracle, round, k, st).1 == Completed
    decreases |AllKeys(cfg)| - k
  {
    if k < |AllKeys(cfg)| {
      var key := AllKeys(cfg)[k];
      var o := CalculateStep(cfg, loss, oracle(FinetuneCall(round, k)), st.best, round, key);
      PassCompletes(cfg, loss, oracle, round, k + 1, Accept(st, key, round, o, o.loss < st.bestLoss.value));
    }
  }

  /** `for i in range(rounds)` of the finetune phase, from round `i`: a
      pass over every key with step number `i`. The pass's `else: break`
      ends the phase whenever the pass completes; only a pass that broke
      would lead on to round `i + 1`. */
  function FinetuneLoop(cfg: Config, loss: Loss, oracle: Oracle, i: nat, rounds: nat, st: State): (r: State)
    requires WellFormed(cfg) && Shaped(cfg, st.best) && st.bestLoss.Some?
    ensures Shaped(cfg, r.best) && r.bestLoss.Some?
    decreases rounds - i
  {
    if i >= rounds then st
    else
      var (next, exit) := FinetunePass(cfg, loss, oracle, i, 0, st);
      match exit
      case Completed => next
      case Broken => FinetuneLoop(cfg, loss, oracle, i + 1, rounds, next)
  }

  /** `run` on a configuration: the state after the global phase. */
  function GlobalPhase(cfg: Config, loss: Loss, oracle: Oracle): (r: State)
    requires WellFormed(cfg) && cfg.maxSteps >= 1
    ensures Shaped(cfg, r.best) && r.bestLoss.Some?
  {
    GlobalLoop(cfg, loss, oracle, 0, State(Initial(cfg), None, []))
  }

  /** The global phase establishes the driver's invariant from a fresh datapoint. */
  lemma GlobalPhaseTracks(cfg: Config, loss: Loss, oracle: Oracle)
    requires WellFormed(cfg) && cfg.maxSteps >= 1
    ensures Tracking(cfg, loss, GlobalPhase(cfg, loss, oracle))
  {
    InitialPinned(cfg);
    GlobalLoopTracks(cfg, loss, oracle, 0, State(Initial(cfg), None, []));
  }

  /** `run`: the global phase, then the finetune phase with the
      optimiser's `finetune_max_rounds`; it ends with a best loss set and
      a best datapoint of the configuration's shape. */
  function Run(cfg: Config, loss: Loss, oracle: Oracle): (r: State)
    requires WellFormed(cfg) && cfg.maxSteps >= 1
    ensures Shaped(cfg, r.best) && r.bestLoss.Some?
  {
    FinetuneLoop(cfg, loss, oracle, 0, FinetuneMaxRounds, GlobalPhase(cfg, loss, oracle))
  }

  /** The `for ... else: break` makes every finetune phase with at least
      one round exactly one pass over the keys at round 0. */
  lemma FinetuneIsOnePass(cfg: Config, loss: Loss, oracle: Oracle, rounds: nat, st: State)
    requires WellFormed(cfg) && Shaped(cfg, st.best) && st.bestLoss.Some? && rounds >= 1
    ensures FinetuneLoop(cfg, loss, oracle, 0, rounds, st) == FinetunePass(cfg, loss, oracle, 0, 0, st).0
  {
    PassCompletes(cfg, loss, oracle, 0, 0, st);
  }

  /** The calls a run makes: `maxSteps` global steps on every variable with
      step numbers 0, 1, ..., then one step per key, categorical keys first,
      all with step number 0. */
  lemma RunCalls(cfg: Config, loss: Loss, oracle: Oracle)
    requires WellFormed(cfg) && cfg.maxSteps >= 1
    ensures Schedule(Run(cfg, loss, oracle).log) == Sweeps(0, cfg.maxSteps) + Visits(AllKeys(cfg), 0)
  {
    var g := GlobalPhase(cfg, loss, oracle);
    GlobalPhaseCalls(cfg, loss, oracle);
    FinetunePhaseCalls(cfg, loss, oracle, FinetuneMaxRounds, g);
  }

  /** The global phase's calls, from an empty log. */
  lemma GlobalPhaseCalls(cfg: Config, loss: Loss, oracle: Oracle)
    requires WellFormed(cfg) && cfg.maxSteps >= 1
    ensures Schedule(GlobalPhase(cfg, loss, oracle).log) == Sweeps(0, cfg.maxSteps)
  {
    GlobalLoopCalls(cfg, loss, oracle, 0, State(Initial(cfg), None, []));
    assert Schedule([]) == [];
    Regroup([], (AllVars, 0), Sweeps(0, cfg.maxSteps));
  }

  /** The finetune phase's calls, for every number of rounds of at least
      one: one pass over every key at round 0. */
  lemma FinetunePhaseCalls(cfg: Config, loss: Loss, oracle: Oracle, rounds: nat, g: State)
    requires WellFormed(cfg) && Shaped(cfg, g.best) && g.bestLoss.Some? && rounds >= 1
    ensures Schedule(FinetuneLoop(cfg, loss, oracle, 0, rounds, g).log)
         == Schedule(g.log) + Visits(AllKeys(cfg), 0)
  {
    FinetuneIsOnePass(cfg, loss, oracle, rounds, g);
    FinetunePassCalls(cfg, loss, oracle, 0, 0, g);
    assert AllKeys(cfg)[0..] == AllKeys(cfg);
  }

  /** The final best datapoint keeps every degenerate variable at its
      single value and holds a domain code for every categorical variable. */
  lemma RunBestInDomain(cfg: Config, loss: Loss, oracle: Oracle)
    requires WellFormed(cfg) && cfg.maxSteps >= 1
    ensures var r := Run(cfg, loss, oracle); Pinned(cfg, r.best) && Drawn(cfg, r.best)
  {
    var g := GlobalPhase(cfg, loss, oracle);
    GlobalPhaseTracks(cfg, loss, oracle);
    FinetuneIsOnePass(cfg, loss, oracle, FinetuneMaxRounds, g);
    FinetunePassTracks(cfg, loss, oracle, 0, 0, g);
  }

  /** The best loss only moves down: it never rises along the run, the
      final best loss is at most the best after the global phase and at
      most every step's loss, and it is the loss of the final best
      datapoint. It is the running minimum of the steps' losses (set by the
      first step, replaced only by a strictly smaller loss), it is reached
      by some step, and the final best datapoint is the one returned by the
      last step that set it. */
  lemma RunBestLoss(cfg: Config, loss: Loss, oracle: Oracle)
    requires WellFormed(cfg) && cfg.maxSteps >= 1
    ensures var r, g := Run(cfg, loss, oracle), GlobalPhase(cfg, loss, oracle);
      && r.bestLoss.Some? && g.bestLoss.Some?
      && r.bestLoss.value <= g.bestLoss.value
      && r.bestLoss.value == loss(Features(r.best))
      && NonIncreasing(r.log)
      && (forall t :: 0 <= t < |r.log| ==> r.bestLoss.value <= r.log[t].loss)
      && RunningMin(r.log) && |r.log| > 0
      && r.bestLoss.value == r.log[|r.log| - 1].best
      && (exists t :: 0 <= t < |r.log| && r.bestLoss.value == r.log[t].loss)
      && r.best == Holder(r.log)
  {
    var r, g := Run(cfg, loss, oracle), GlobalPhase(cfg, loss, oracle);
    FinetuneIsOnePass(cfg, loss, oracle, FinetuneMaxRounds, g);
    GlobalPhaseTracks(cfg, loss, oracle);
    FinetunePassTracks(cfg, loss, oracle, 0, 0, g);
    RunningMinBounds(r.log);
    StepsDownIsNonIncreasing(r.log);
    RunningMinAttained(r.log);
    forall t | 0 <= t < |r.log|
      ensures r.bestLoss.value <= r.log[t].loss
    {
      assert r.log[|r.log| - 1].best <= r.log[t].best;
    }
  }
}
