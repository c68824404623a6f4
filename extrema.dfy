/**
 * `np.argmin` and `np.argmax` over a one-dimensional array: the index of the
 * first extreme value.
 */
module Extrema {
  /** `k` holds the minimum of `ds`, and no earlier index holds it. */
  predicate IsFirstMin(ds: seq<real>, k: nat) {
    && k < |ds|
    && (forall j :: 0 <= j < |ds| ==> ds[k] <= ds[j])
    && (forall j :: 0 <= j < k ==> ds[j] > ds[k])
  }

  /** `k` holds the maximum of `ds`, and no earlier index holds it. */
  predicate IsFirstMax(ds: seq<real>, k: nat) {
    && k < |ds|
    && (forall j :: 0 <= j < |ds| ==> ds[j] <= ds[k])
    && (forall j :: 0 <= j < k ==> ds[j] < ds[k])
  }

  function FirstArgMin(ds: seq<real>): (k: nat)
    requires |ds| > 0
    ensures IsFirstMin(ds, k)
  {
    if |ds| == 1 then 0
    else
      var k := FirstArgMin(ds[..|ds| - 1]);
      if ds[|ds| - 1] < ds[k] then |ds| - 1 else k
  }

  function FirstArgMax(ds: seq<real>): (k: nat)
    requires |ds| > 0
    ensures IsFirstMax(ds, k)
  {
    if |ds| == 1 then 0
    else
      var k := FirstArgMax(ds[..|ds| - 1]);
      if ds[|ds| - 1] > ds[k] then |ds| - 1 else k
  }

  /** The tie-break is determined: only one index is the first minimum. */
  lemma FirstMinUnique(ds: seq<real>, k: nat, k': nat)
    requires IsFirstMin(ds, k) && IsFirstMin(ds, k')
    ensures k == k'
  {
    assert ds[k] == ds[k'];
  }
}
