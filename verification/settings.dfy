/** `scanSettings`: the search configuration for the two modes, and the
    fresh datapoint (`AlDatapoint(settings)`) built from it. */
module Settings {
  import opened Options
  import opened Seqs
  import opened AlDatapoint

  /** A configuration. Categorical and continuous variables are parallel
      lists: key `catKeys[j]` has legal values `catDomains[j]` and code
      span `catSpans[j]`; key `contKeys[j]` has range list `contRanges[j]`,
      whose `min` and `max` bound it. The span is the code list of the
      variable's one-hot tags; the search never reads it, but it bounds
      the codes a mode may offer. */
  datatype Config = Config(
    mode: string,
    maxSteps: nat,
    catKeys: seq<string>,
    catDomains: seq<seq<int>>,
    catSpans: seq<seq<int>>,
    contKeys: seq<string>,
    contRanges: seq<seq<real>>)

  /** Shapes line up, and every domain and range list is non-empty (the
      source's `np.random.choice`, `min` and `max` fail on an empty list). */
  predicate WellFormed(cfg: Config)
  {
    && |cfg.catDomains| == |cfg.catKeys|
    && |cfg.catSpans| == |cfg.catKeys|
    && |cfg.contRanges| == |cfg.contKeys|
    && (forall j :: 0 <= j < |cfg.catDomains| ==> |cfg.catDomains[j]| > 0)
    && (forall j :: 0 <= j < |cfg.contRanges| ==> |cfg.contRanges[j]| > 0)
  }

  /** Every variable key, categorical first: the finetune visiting order. */
  function AllKeys(cfg: Config): seq<string>
  {
    cfg.catKeys + cfg.contKeys
  }

  /** No key is repeated across both dictionaries and none is the word "all". */
  predicate DistinctKeys(cfg: Config)
  {
    var keys := AllKeys(cfg);
    && (forall i, j :: 0 <= i < j < |keys| ==> keys[i] != keys[j])
    && (forall i :: 0 <= i < |keys| ==> keys[i] != "all")
  }

  /** Continuous variable `j` has a one-value range: `max == min`. */
  predicate Degenerate(cfg: Config, j: nat)
    requires WellFormed(cfg) && j < |cfg.contKeys|
  {
    Max(cfg.contRanges[j]) == Min(cfg.contRanges[j])
  }

  /** A datapoint has one value per declared key. */
  predicate Shaped(cfg: Config, d: Datapoint)
  {
    |d.categorical| == |cfg.catKeys| && |d.continuous| == |cfg.contKeys|
  }

  /** The heat-treatment codes and the 31 alloying elements of both modes. */
  const HeatTreatmentSpan: seq<int> := [1, 2, 3, 4, 5, 6]
  const Elements: seq<string> :=
    ["Mg", "Nd", "Ce", "La", "Zn", "Sn", "Al", "Ca", "Zr", "Ag", "Ho", "Mn",
     "Y", "Gd", "Cu", "Si", "Li", "Yb", "Th", "Sb", "Pr", "Ga", "Be", "Fe",
     "Ni", "Sc", "Tb", "Dy", "Er", "Sr", "Bi"]

  /** A mode's configuration: one categorical variable over the given
      domain, every element fixed by the one-value range `[0]`, one step. */
  function ModeConfig(mode: string, domain: seq<int>): Config
  {
    Config(mode, 1, ["heat treatment"], [domain], [HeatTreatmentSpan],
           Elements, seq(|Elements|, _ => [0.0]))
  }

  /** The 31 element names are pairwise different. */
  lemma ElementsDistinct()
    ensures forall i, j :: 0 <= i < j < |Elements| ==> Elements[i] != Elements[j]
  {
  }

  /** Every element name is at most two letters long. */
  lemma ElementsShort()
    ensures forall i :: 0 <= i < |Elements| ==> |Elements[i]| <= 2
  {
  }

  /** Keys are distinct when each list is, the categorical keys are long
      names, and the continuous keys are short ones ("all" being neither).
      Comparing lengths settles the 31 cross pairs of a mode configuration
      at once, where comparing the strings themselves would make the
      solver inspect every pair. */
  lemma DistinctByLength(cfg: Config)
    requires forall i, j :: 0 <= i < j < |cfg.catKeys| ==> cfg.catKeys[i] != cfg.catKeys[j]
    requires forall i, j :: 0 <= i < j < |cfg.contKeys| ==> cfg.contKeys[i] != cfg.contKeys[j]
    requires forall i :: 0 <= i < |cfg.catKeys| ==> |cfg.catKeys[i]| > 3
    requires forall i :: 0 <= i < |cfg.contKeys| ==> |cfg.contKeys[i]| < 3
    ensures DistinctKeys(cfg)
  {
    var keys, n := AllKeys(cfg), |cfg.catKeys|;
    forall i | 0 <= i < |keys|
      ensures keys[i] != "all"
    {
      if i < n { assert keys[i] == cfg.catKeys[i]; } else { assert keys[i] == cfg.contKeys[i - n]; }
    }
    forall i, j | 0 <= i < j < |keys|
      ensures keys[i] != keys[j]
    {
      if j < n {
        assert keys[i] == cfg.catKeys[i] && keys[j] == cfg.catKeys[j];
      } else if i >= n {
        assert keys[i] == cfg.contKeys[i - n] && keys[j] == cfg.contKeys[j - n];
      } else {
        assert keys[i] == cfg.catKeys[i] && keys[j] == cfg.contKeys[j - n];
      }
    }
  }

  /** A mode configuration's keys are pairwise distinct and never "all". */
  lemma ModeKeysDistinct(mode: string, domain: seq<int>)
    ensures DistinctKeys(ModeConfig(mode, domain))
  {
    ElementsDistinct();
    ElementsShort();
    DistinctByLength(ModeConfig(mode, domain));
  }

  /** Every element range of a mode configuration is the single value 0. */
  lemma ModeRangesAtZero(mode: string, domain: seq<int>)
    requires |domain| > 0
    ensures var cfg := ModeConfig(mode, domain);
      forall j :: 0 <= j < |cfg.contKeys| ==> Degenerate(cfg, j) && Min(cfg.contRanges[j]) == 0.0
  {
    var cfg := ModeConfig(mode, domain);
    forall j | 0 <= j < |cfg.contKeys|
      ensures Degenerate(cfg, j) && Min(cfg.contRanges[j]) == 0.0
    {
      assert cfg.contRanges[j] == [0.0];
    }
  }

  /** What every mode configuration guarantees, for a domain inside the span. */
  lemma ModeConfigFacts(mode: string, domain: seq<int>)
    requires |domain| > 0
    requires forall v :: v in domain ==> v in HeatTreatmentSpan
    ensures var cfg := ModeConfig(mode, domain);
      && WellFormed(cfg) && DistinctKeys(cfg)
      && (forall j :: 0 <= j < |cfg.contKeys| ==> Degenerate(cfg, j) && Min(cfg.contRanges[j]) == 0.0)
      && (forall j, v :: 0 <= j < |cfg.catKeys| && v in cfg.catDomains[j] ==>
            v in cfg.catSpans[j] && 1 <= v <= HotSlots)
  {
    ModeKeysDistinct(mode, domain);
    ModeRangesAtZero(mode, domain);
  }

  /** `scanSettings(mode)`. Any mode other than 'DoS' and 'Mechanical'
      leaves the object without settings (`None`). */
  function ScanSettings(mode: string): (r: Option<Config>)
    ensures r.Some? <==> mode == "DoS" || mode == "Mechanical"
    ensures r.Some? ==> WellFormed(r.value) && DistinctKeys(r.value)
    ensures r.Some? ==> r.value.mode == mode && r.value.maxSteps == 1
    ensures r.Some? ==> |r.value.contKeys| == 31 && |r.value.catKeys| == 1
    ensures r.Some? ==> forall j :: 0 <= j < |r.value.contKeys| ==>
      Degenerate(r.value, j) && Min(r.value.contRanges[j]) == 0.0
    ensures r.Some? ==> forall j, v :: 0 <= j < |r.value.catKeys| && v in r.value.catDomains[j] ==>
      v in r.value.catSpans[j] && 1 <= v <= HotSlots
  {
    if mode == "DoS" then
      ModeConfigFacts(mode, [1]);
      Some(ModeConfig(mode, [1]))
    else if mode == "Mechanical" then
      ModeConfigFacts(mode, [1, 2, 4, 5]);
      Some(ModeConfig(mode, [1, 2, 4, 5]))
    else None
  }

  /** `AlDatapoint(settings)`: categorical values are still their domain
      lists; a continuous value is its range list, whose `np.mean` is the
      sampling centre, so it is modelled by that mean. */
  function Initial(cfg: Config): (d: Datapoint)
    requires WellFormed(cfg)
    ensures Shaped(cfg, d)
    ensures forall j :: 0 <= j < |d.categorical| ==> d.categorical[j] == Pending(cfg.catDomains[j])
    ensures forall j :: 0 <= j < |d.continuous| ==> d.continuous[j] == Mean(cfg.contRanges[j])
  {
    Datapoint(seq(|cfg.catKeys|, j requires 0 <= j < |cfg.catKeys| => Pending(cfg.catDomains[j])),
              seq(|cfg.contKeys|, j requires 0 <= j < |cfg.contKeys| => Mean(cfg.contRanges[j])))
  }

  /** A fresh datapoint already sits at the pinned value of every
      degenerate variable. */
  lemma InitialPinned(cfg: Config)
    requires WellFormed(cfg)
    ensures forall j :: 0 <= j < |cfg.contKeys| && Degenerate(cfg, j) ==>
      Initial(cfg).continuous[j] == Min(cfg.contRanges[j])
  {
    forall j | 0 <= j < |cfg.contKeys| && Degenerate(cfg, j)
      ensures Initial(cfg).continuous[j] == Min(cfg.contRanges[j])
    {
      DegenerateMean(cfg.contRanges[j]);
    }
  }
}
