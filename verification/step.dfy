/** `optimiser.calculateStep`: one batch of resampled copies of an anchor
    datapoint, scored by the loss, of which the first best one is kept.
    Random draws and the loss are parameters. */
module Step {
  import opened Seqs
  import opened AlDatapoint
  import opened Settings

  /** The optimiser's own constants. */
  const StepBatchSize: nat := 100
  const FinetuneBatchSize: nat := 10
  const StepFinalStd: real := 0.01
  const FinetuneMaxRounds: nat := 3

  /** The `target_var` value that selects every variable. */
  const AllVars: string := "all"

  /** The random draws of one step. `choice(member, j)` is the index drawn
      by `np.random.choice` for categorical variable `j` of batch member
      `member` (reduced modulo the domain size, so any oracle is admissible);
      `truncnorm(member, j, lo, hi, loc, scale)` is the value
      `truncnorm.rvs` yields for continuous variable `j`, for the bounds
      `[lo, hi]`, centre `loc` and width `scale` it is given. */
  datatype Draws = Draws(
    choice: (nat, nat) -> nat,
    truncnorm: (nat, nat, real, real, real, real) -> real)

  /** The loss: the prediction for a feature vector. */
  type Loss = seq<real> -> real

  /** Variable `key` is resampled under `target`. */
  predicate Selected(target: string, key: string)
  {
    target == key || target == AllVars
  }

  /** Batch size: the global size when every variable moves, else the finetune size. */
  function BatchSize(target: string): (n: nat)
    ensures n > 0
    ensures target == AllVars ==> n == 100
    ensures target != AllVars ==> n == 10
  {
    if target == AllVars then StepBatchSize else FinetuneBatchSize
  }

  /** The cooling schedule: `final * maxSteps / (stepNumber + 1)`. */
  function Std(final: real, maxSteps: nat, stepNumber: nat): real
  {
    final * ((maxSteps as real) / ((stepNumber + 1) as real))
  }

  /** The width is positive for positive parameters and strictly shrinks
      as the step number grows; it reaches `final` at the last step. */
  lemma StdCools(final: real, maxSteps: nat, n: nat, m: nat)
    requires final > 0.0 && maxSteps > 0 && n < m
    ensures 0.0 < Std(final, maxSteps, m) < Std(final, maxSteps, n)
    ensures Std(final, maxSteps, maxSteps - 1) == final
  {
    var M, a, b := maxSteps as real, (n + 1) as real, (m + 1) as real;
    assert M / b < M / a by {
      assert M / b * b == M;
      assert M / a * a == M;
      assert M / b * a < M / b * b;
    }
    assert M / b > 0.0;
    assert M / (M - 1.0 + 1.0) == 1.0;
  }

  /** Categorical variable `j` of batch member `member`. */
  function ResampleCat(cfg: Config, anchor: Datapoint, target: string, draws: Draws,
                       member: nat, j: nat): CatValue
    requires WellFormed(cfg) && Shaped(cfg, anchor) && j < |cfg.catKeys|
  {
    if Selected(target, cfg.catKeys[j]) then
      var dom := cfg.catDomains[j];
      Code(dom[draws.choice(member, j) % |dom|])
    else anchor.categorical[j]
  }

  /** Continuous variable `j` of batch member `member`: a degenerate
      range pins it, otherwise the truncated normal is centred on the
      anchor's value with width `std`. */
  function ResampleCont(cfg: Config, anchor: Datapoint, target: string, draws: Draws,
                        std: real, member: nat, j: nat): real
    requires WellFormed(cfg) && Shaped(cfg, anchor) && j < |cfg.contKeys|
  {
    if Selected(target, cfg.contKeys[j]) then
      var range := cfg.contRanges[j];
      if Max(range) != Min(range) then
        draws.truncnorm(member, j, Min(range), Max(range), anchor.continuous[j], std)
      else Min(range)
    else anchor.continuous[j]
  }

  /** `d` is what a step may make of `anchor` under `target`: the same
      shape, every unselected variable equal to the anchor's value, every
      selected categorical variable a code of its domain, every selected
      degenerate variable at its single value. */
  predicate Frame(cfg: Config, anchor: Datapoint, target: string, d: Datapoint)
    requires WellFormed(cfg) && Shaped(cfg, anchor)
  {
    && Shaped(cfg, d)
    && (forall j :: 0 <= j < |cfg.catKeys| ==>
          if Selected(target, cfg.catKeys[j])
          then d.categorical[j].Code? && d.categorical[j].code in cfg.catDomains[j]
          else d.categorical[j] == anchor.categorical[j])
    && (forall j :: 0 <= j < |cfg.contKeys| ==>
          if Selected(target, cfg.contKeys[j])
          then Degenerate(cfg, j) ==> d.continuous[j] == Min(cfg.contRanges[j])
          else d.continuous[j] == anchor.continuous[j])
  }

  /** With distinct keys, a step aimed at the `k`-th key of the finetune
      order leaves every other variable exactly as in the anchor. */
  lemma FrameTouchesOnlyTarget(cfg: Config, anchor: Datapoint, k: nat, d: Datapoint)
    requires WellFormed(cfg) && Shaped(cfg, anchor) && DistinctKeys(cfg)
    requires k < |AllKeys(cfg)| && Frame(cfg, anchor, AllKeys(cfg)[k], d)
    ensures forall j :: 0 <= j < |cfg.catKeys| && j != k ==> d.categorical[j] == anchor.categorical[j]
    ensures forall j :: 0 <= j < |cfg.contKeys| && |cfg.catKeys| + j != k ==>
      d.continuous[j] == anchor.continuous[j]
  {
    var keys, n := AllKeys(cfg), |cfg.catKeys|;
    forall j | 0 <= j < n && j != k
      ensures d.categorical[j] == anchor.categorical[j]
    {
      assert keys[j] == cfg.catKeys[j];
      assert keys[j] != keys[k] by {
        if j < k { } else { }
      }
    }
    forall j | 0 <= j < |cfg.contKeys| && n + j != k
      ensures d.continuous[j] == anchor.continuous[j]
    {
      assert keys[n + j] == cfg.contKeys[j];
      assert keys[n + j] != keys[k] by {
        if n + j < k { } else { }
      }
    }
  }

  /** Batch member `member`: a copy of the anchor with the selected variables redrawn. */
  function Member(cfg: Config, anchor: Datapoint, target: string, draws: Draws,
                  std: real, member: nat): (d: Datapoint)
    requires WellFormed(cfg) && Shaped(cfg, anchor)
    ensures Frame(cfg, anchor, target, d)
    ensures forall j :: 0 <= j < |cfg.contKeys| && Selected(target, cfg.contKeys[j]) && !Degenerate(cfg, j) ==>
      d.continuous[j] == draws.truncnorm(member, j, Min(cfg.contRanges[j]), Max(cfg.contRanges[j]),
                                         anchor.continuous[j], std)
  {
    Datapoint(
      seq(|cfg.catKeys|, j requires 0 <= j < |cfg.catKeys| => ResampleCat(cfg, anchor, target, draws, member, j)),
      seq(|cfg.contKeys|, j requires 0 <= j < |cfg.contKeys| => ResampleCont(cfg, anchor, target, draws, std, member, j)))
  }

  /** The batch of one step. */
  function Batch(cfg: Config, anchor: Datapoint, target: string, draws: Draws, std: real): (b: seq<Datapoint>)
    requires WellFormed(cfg) && Shaped(cfg, anchor)
    ensures |b| == BatchSize(target)
    ensures forall i :: 0 <= i < |b| ==> Frame(cfg, anchor, target, b[i])
  {
    seq(BatchSize(target), i requires 0 <= i => Member(cfg, anchor, target, draws, std, i))
  }

  /** The loss of every batch member, in batch order. */
  function Losses(loss: Loss, batch: seq<Datapoint>): (ls: seq<real>)
    ensures |ls| == |batch|
    ensures forall i :: 0 <= i < |batch| ==> ls[i] == loss(Features(batch[i]))
  {
    seq(|batch|, i requires 0 <= i < |batch| => loss(Features(batch[i])))
  }

  /** The outcome of a step: the smallest batch loss and its datapoint. */
  datatype Outcome = Outcome(loss: real, point: Datapoint)

  /** `calculateStep(anchor, stepNumber, target)`: `min(loss)` and the
      batch member at `loss.index(min(loss))`. */
  function CalculateStep(cfg: Config, loss: Loss, draws: Draws, anchor: Datapoint,
                         stepNumber: nat, target: string): (r: Outcome)
    requires WellFormed(cfg) && Shaped(cfg, anchor)
    ensures Frame(cfg, anchor, target, r.point)
    ensures r.loss == loss(Features(r.point))
  {
    var batch := Batch(cfg, anchor, target, draws, Std(StepFinalStd, cfg.maxSteps, stepNumber));
    var losses := Losses(loss, batch);
    var m := Min(losses);
    Outcome(m, batch[IndexOf(losses, m)])
  }

  /** The step keeps the first batch member of least loss: the returned
      loss is at most every batch member's loss, and every member before
      the returned one has a strictly larger loss. */
  lemma StepIsFirstMinimum(cfg: Config, loss: Loss, draws: Draws, anchor: Datapoint,
                           stepNumber: nat, target: string)
    requires WellFormed(cfg) && Shaped(cfg, anchor)
    ensures var r := CalculateStep(cfg, loss, draws, anchor, stepNumber, target);
      var batch := Batch(cfg, anchor, target, draws, Std(StepFinalStd, cfg.maxSteps, stepNumber));
      && (forall i :: 0 <= i < |batch| ==> r.loss <= loss(Features(batch[i])))
      && (exists k :: 0 <= k < |batch| && batch[k] == r.point &&
            forall i :: 0 <= i < k ==> r.loss < loss(Features(batch[i])))
  {
    var batch := Batch(cfg, anchor, target, draws, Std(StepFinalStd, cfg.maxSteps, stepNumber));
    var losses := Losses(loss, batch);
    var k := IndexOf(losses, Min(losses));
    assert forall i :: 0 <= i < k ==> Min(losses) < losses[i];
  }
}
