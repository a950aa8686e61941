/** What the search can return in the two shipped modes, whose elements
    are all fixed at 0: the result is decided by the heat treatment alone. */
module Modes {
  import opened Options
  import opened Seqs
  import opened AlDatapoint
  import opened Settings
  import opened Step
  import opened Search

  /** A configuration shaped like the shipped modes: one categorical
      variable with codes in 1..6, and every continuous range the single value 0. */
  predicate ElementsFixedAtZero(cfg: Config)
  {
    && WellFormed(cfg) && cfg.maxSteps >= 1 && |cfg.catKeys| == 1
    && (forall v :: v in cfg.catDomains[0] ==> 1 <= v <= HotSlots)
    && (forall j :: 0 <= j < |cfg.contKeys| ==> Degenerate(cfg, j) && Min(cfg.contRanges[j]) == 0.0)
  }

  /** With every element fixed at 0, a datapoint that keeps degenerate
      variables pinned and holds a drawn code has no alloying elements, an
      aluminium balance of 100, and its code as the one hot slot. */
  lemma FixedElementsPoint(cfg: Config, best: Datapoint)
    requires ElementsFixedAtZero(cfg) && Shaped(cfg, best)
    requires Pinned(cfg, best) && Drawn(cfg, best)
    ensures best.continuous == seq(|cfg.contKeys|, _ => 0.0)
    ensures AlBalance(best) == 100.0
    ensures |best.categorical| == 1 && best.categorical[0].Code?
    ensures best.categorical[0].code in cfg.catDomains[0]
    ensures HotCodes(Features(best)[|cfg.contKeys|..]) == {best.categorical[0].code}
  {
    assert best.continuous == seq(|cfg.contKeys|, _ => 0.0);
    AlBalanceOfZeros(best);
    FeaturesDecode(best);
    var c := best.categorical[0].code;
    assert c in AssignedCodes(best);
    assert AssignedCodes(best) == {c};
  }

  /** With every element fixed at 0, the final best datapoint has no
      alloying elements, an aluminium balance of 100, and one drawn
      heat-treatment code, which is the one hot slot of its feature vector. */
  lemma FixedElementsResult(cfg: Config, loss: Loss, oracle: Oracle)
    requires ElementsFixedAtZero(cfg)
    ensures var best := Run(cfg, loss, oracle).best;
      && best.continuous == seq(|cfg.contKeys|, _ => 0.0)
      && AlBalance(best) == 100.0
      && |best.categorical| == 1 && best.categorical[0].Code?
      && best.categorical[0].code in cfg.catDomains[0]
      && HotCodes(Features(best)[|cfg.contKeys|..]) == {best.categorical[0].code}
  {
    RunBestInDomain(cfg, loss, oracle);
    FixedElementsPoint(cfg, Run(cfg, loss, oracle).best);
  }

  /** Both shipped modes fix every element at 0. */
  lemma ModesFixElements(mode: string)
    requires mode == "DoS" || mode == "Mechanical"
    ensures ElementsFixedAtZero(ScanSettings(mode).value)
    ensures |ScanSettings(mode).value.contKeys| == 31
  {
  }

  /** In either mode the search returns 31 zero elements, a balance of
      100, and a heat-treatment code of the mode's domain. */
  lemma ModeResult(mode: string, loss: Loss, oracle: Oracle)
    requires mode == "DoS" || mode == "Mechanical"
    ensures var cfg := ScanSettings(mode).value;
      var best := Run(cfg, loss, oracle).best;
      && best.continuous == seq(31, _ => 0.0)
      && AlBalance(best) == 100.0
      && |best.categorical| == 1 && best.categorical[0].Code?
      && best.categorical[0].code in cfg.catDomains[0]
  {
    ModesFixElements(mode);
    FixedElementsResult(ScanSettings(mode).value, loss, oracle);
  }

  /** In the 'DoS' mode the domain is the single code 1, so whatever the
      loss and the draws, the search returns no alloying elements and
      heat-treatment code 1. */
  lemma DoSResult(loss: Loss, oracle: Oracle)
    ensures Run(ScanSettings("DoS").value, loss, oracle).best
         == Datapoint([Code(1)], seq(31, _ => 0.0))
  {
    var cfg := ScanSettings("DoS").value;
    ModeResult("DoS", loss, oracle);
    assert cfg.catDomains[0] == [1];
  }
}
