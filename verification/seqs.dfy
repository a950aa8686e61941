/** Folds over sequences of reals that the optimiser takes from Python's
    builtins and numpy: `sum`, `min`, `max`, `list.index` and `np.mean`. */
module Seqs {

  /** Python's `sum` over a list of numbers (exact reals here). */
  function Sum(s: seq<real>): real
  {
    if |s| == 0 then 0.0 else s[0] + Sum(s[1..])
  }

  /** Python's `min`: the smallest element of a non-empty list. */
  function Min(s: seq<real>): (r: real)
    requires |s| > 0
    ensures r in s
    ensures forall i :: 0 <= i < |s| ==> r <= s[i]
  {
    if |s| == 1 then s[0]
    else
      var m := Min(s[1..]);
      if m < s[0] then m else s[0]
  }

  /** Python's `max`: the largest element of a non-empty list. */
  function Max(s: seq<real>): (r: real)
    requires |s| > 0
    ensures r in s
    ensures forall i :: 0 <= i < |s| ==> s[i] <= r
  {
    if |s| == 1 then s[0]
    else
      var m := Max(s[1..]);
      if s[0] < m then m else s[0]
  }

  /** Python's `list.index`: the position of the first occurrence of `x`. */
  function IndexOf(s: seq<real>, x: real): (k: nat)
    requires x in s
    ensures k < |s| && s[k] == x
    ensures forall i :: 0 <= i < k ==> s[i] != x
  {
    if s[0] == x then 0 else 1 + IndexOf(s[1..], x)
  }

  /** numpy's `mean` of a non-empty list. */
  function Mean(s: seq<real>): real
    requires |s| > 0
  {
    Sum(s) / (|s| as real)
  }

  /** Replacing one entry moves the sum by exactly the difference. */
  lemma {:induction false} SumUpdate(s: seq<real>, i: nat, v: real)
    requires i < |s|
    ensures Sum(s[i := v]) == Sum(s) - s[i] + v
  {
    if i > 0 {
      assert s[i := v][1..] == s[1..][i - 1 := v];
      SumUpdate(s[1..], i - 1, v);
    } else {
      assert s[i := v][1..] == s[1..];
    }
  }

  /** A list whose entries all equal `v` sums to its length times `v`. */
  lemma {:induction false} SumConstant(s: seq<real>, v: real)
    requires forall i :: 0 <= i < |s| ==> s[i] == v
    ensures Sum(s) == (|s| as real) * v
  {
    if |s| > 0 {
      SumConstant(s[1..], v);
    }
  }

  /** When `min == max` every entry is that value. */
  lemma DegenerateEntries(s: seq<real>)
    requires |s| > 0 && Min(s) == Max(s)
    ensures forall i :: 0 <= i < |s| ==> s[i] == Min(s)
  {
  }

  /** The mean of a list whose entries all equal `m` is `m`. */
  lemma MeanConstant(s: seq<real>, m: real)
    requires |s| > 0
    requires forall i :: 0 <= i < |s| ==> s[i] == m
    ensures Mean(s) == m
  {
    SumConstant(s, m);
    var n := |s| as real;
    assert n * m / n == m;
  }

  /** A degenerate range's sampling centre (its mean) is its single value. */
  lemma DegenerateMean(s: seq<real>)
    requires |s| > 0 && Min(s) == Max(s)
    ensures Mean(s) == Min(s)
  {
    DegenerateEntries(s);
    MeanConstant(s, Min(s));
  }
}
