/** A candidate alloy (`AlDatapoint`): a categorical assignment and a
    continuous assignment, each aligned with the key order of its
    configuration, plus the fixed-order feature vector the prediction
    models consume and the implied aluminium balance. */
module AlDatapoint {
  import opened Seqs

  /** Width of the one-hot block: heat-treatment codes 1..6. */
  const HotSlots: nat := 6

  /** A categorical value. A fresh datapoint still holds the whole domain
      list it was built from (`Pending`); resampling replaces it by one
      drawn code. */
  datatype CatValue = Pending(domain: seq<int>) | Code(code: int)

  /** Values only: the keys live in the configuration, in the same order. */
  datatype Datapoint = Datapoint(categorical: seq<CatValue>, continuous: seq<real>)

  /** Code `c` is currently assigned to some categorical variable. A
      `Pending` list is never equal to a code, so it never counts. */
  predicate Assigned(cats: seq<CatValue>, c: int)
  {
    exists i :: 0 <= i < |cats| && cats[i] == Code(c)
  }

  /** The multi-hot block over codes 1..6: slot `j` is 1 exactly when
      code `j + 1` is assigned to some categorical variable. */
  function OneHot(cats: seq<CatValue>): (h: seq<real>)
    ensures |h| == HotSlots
    ensures forall j :: 0 <= j < HotSlots ==> (h[j] == 1.0 <==> Assigned(cats, j + 1))
    ensures forall j :: 0 <= j < HotSlots ==> (h[j] == 0.0 <==> !Assigned(cats, j + 1))
  {
    seq(HotSlots, j requires 0 <= j => if Code(j + 1) in cats then 1.0 else 0.0)
  }

  /** `formatForInput`: continuous values in key order, then the 6 slots. */
  function Features(d: Datapoint): (v: seq<real>)
    ensures |v| == |d.continuous| + HotSlots
    ensures forall i :: 0 <= i < |d.continuous| ==> v[i] == d.continuous[i]
    ensures v[|d.continuous|..] == OneHot(d.categorical)
  {
    d.continuous + OneHot(d.categorical)
  }

  /** The codes in 1..6 that some categorical variable holds. */
  function AssignedCodes(d: Datapoint): set<int>
  {
    set i | 0 <= i < |d.categorical| && d.categorical[i].Code? && 1 <= d.categorical[i].code <= HotSlots
      :: d.categorical[i].code
  }

  /** Reads the codes back out of a one-hot block. */
  function HotCodes(h: seq<real>): set<int>
  {
    set j | 0 <= j < |h| && h[j] == 1.0 :: j + 1
  }

  /** The feature vector loses nothing: its prefix is the continuous
      assignment and its one-hot block decodes to exactly the assigned codes. */
  lemma FeaturesDecode(d: Datapoint)
    ensures |Features(d)| == |d.continuous| + HotSlots
    ensures Features(d)[..|d.continuous|] == d.continuous
    ensures HotCodes(Features(d)[|d.continuous|..]) == AssignedCodes(d)
  {
    var h := Features(d)[|d.continuous|..];
    assert h == OneHot(d.categorical);
    forall c | c in HotCodes(h)
      ensures c in AssignedCodes(d)
    {
      assert h[c - 1] == 1.0;
      var i :| 0 <= i < |d.categorical| && d.categorical[i] == Code(c);
    }
    forall c | c in AssignedCodes(d)
      ensures c in HotCodes(h)
    {
      var i :| 0 <= i < |d.categorical| && d.categorical[i].Code? && 1 <= d.categorical[i].code <= HotSlots
        && d.categorical[i].code == c;
      assert Assigned(d.categorical, c);
      assert h[c - 1] == 1.0;
    }
  }

  /** A datapoint whose categorical values are all still domain lists has
      an all-zero one-hot block. */
  lemma PendingIsCold(d: Datapoint)
    requires forall i :: 0 <= i < |d.categorical| ==> d.categorical[i].Pending?
    ensures forall j :: 0 <= j < HotSlots ==> Features(d)[|d.continuous|..][j] == 0.0
  {
    var h := Features(d)[|d.continuous|..];
    forall j | 0 <= j < HotSlots
      ensures h[j] == 0.0
    {
      assert !Assigned(d.categorical, j + 1);
    }
  }

  /** `getAl`: the aluminium balance, 100 minus the alloying percentages. */
  function AlBalance(d: Datapoint): real
  {
    100.0 - Sum(d.continuous)
  }

  /** Changing one element's percentage moves the balance by the opposite amount. */
  lemma AlBalanceUpdate(d: Datapoint, i: nat, v: real)
    requires i < |d.continuous|
    ensures AlBalance(d.(continuous := d.continuous[i := v])) == AlBalance(d) + d.continuous[i] - v
  {
    SumUpdate(d.continuous, i, v);
  }

  /** With every alloying element at 0 the balance is all aluminium. */
  lemma AlBalanceOfZeros(d: Datapoint)
    requires forall i :: 0 <= i < |d.continuous| ==> d.continuous[i] == 0.0
    ensures AlBalance(d) == 100.0
  {
    SumConstant(d.continuous, 0.0);
  }
}
