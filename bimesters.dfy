/** The six two-month billing periods B1 (Jan-Feb) .. B6 (Nov-Dec) and the
    per-bimester maps (BMap) that consumption, generation, bills, credits and
    savings are kept in. Key Bk is index k-1. */
module Bimesters {
  import opened Numeric

  const Count: nat := 6

  type BMap = s: seq<real> | |s| == 6 witness [0.0, 0.0, 0.0, 0.0, 0.0, 0.0]

  /** `{ B1:0,B2:0,B3:0,B4:0,B5:0,B6:0 }` */
  function Zeros(): (m: BMap)
    ensures forall k :: 0 <= k < Count ==> m[k] == 0.0
  {
    [0.0, 0.0, 0.0, 0.0, 0.0, 0.0]
  }

  lemma SumPrefixStep(s: seq<real>, k: nat)
    requires k < |s|
    ensures Sum(s[..k + 1]) == Sum(s[..k]) + s[k]
  {
    assert s[..k + 1][..k] == s[..k];
  }

  /** sumBMap: the annual total of a per-bimester map. */
  function SumBMap(m: BMap): (r: real)
    ensures r == m[0] + m[1] + m[2] + m[3] + m[4] + m[5]
  {
    SumPrefixStep(m, 0);
    SumPrefixStep(m, 1);
    SumPrefixStep(m, 2);
    SumPrefixStep(m, 3);
    SumPrefixStep(m, 4);
    SumPrefixStep(m, 5);
    assert m[..6] == m;
    Sum(m)
  }

  /** An annual total of non-negative bimesters is non-negative and bounds every bimester. */
  lemma SumBMapBounds(m: BMap)
    requires forall k :: 0 <= k < Count ==> m[k] >= 0.0
    ensures SumBMap(m) >= 0.0
    ensures forall k :: 0 <= k < Count ==> m[k] <= SumBMap(m)
  {
  }
}
