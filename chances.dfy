/**
 The count maps of a bit record: trait name to number of alleles. The
 source keeps them as `map[string]float32` but only ever adds 1.0 to small
 whole numbers, so they are exact naturals here.
 */
module Chances {

  type Chances = map<string, nat>

  /** The count of `k`, 0 when `k` is absent (a missing map entry reads as zero). */
  function Get(m: Chances, k: string): nat
  {
    if k in m then m[k] else 0
  }

  /** `m[k] += 1` on a map whose missing entries read as zero. */
  function Inc(m: Chances, k: string): Chances
  {
    m[k := Get(m, k) + 1]
  }

  /** An increment adds `k` if absent, bumps its count by one and leaves every other key alone. */
  lemma IncEntries(m: Chances, k: string)
    ensures Inc(m, k).Keys == m.Keys + {k}
    ensures Inc(m, k)[k] == Get(m, k) + 1
    ensures forall k' :: k' != k ==> Get(Inc(m, k), k') == Get(m, k')
  {
  }

  /** The sum of all counts in `m`. */
  ghost function Total(m: Chances): nat
    decreases |m|
  {
    if m == map[] then 0
    else
      var k :| k in m;
      m[k] + Total(m - {k})
  }

  /** Any key may be taken out first when summing. */
  lemma {:induction false} TotalRemove(m: Chances, k: string)
    requires k in m
    ensures Total(m) == m[k] + Total(m - {k})
    decreases |m|
  {
    var k' :| k' in m && Total(m) == m[k'] + Total(m - {k'});
    if k' != k {
      assert |m - {k'}| < |m| by { assert (m - {k'}).Keys < m.Keys; }
      assert |m - {k}| < |m| by { assert (m - {k}).Keys < m.Keys; }
      TotalRemove(m - {k'}, k);
      TotalRemove(m - {k}, k');
      assert m - {k'} - {k} == m - {k} - {k'};
    }
  }

  /** One increment adds exactly one to the total. */
  lemma TotalInc(m: Chances, k: string)
    ensures Total(Inc(m, k)) == Total(m) + 1
  {
    var r := Inc(m, k);
    TotalRemove(r, k);
    if k in m {
      TotalRemove(m, k);
      assert r - {k} == m - {k};
    } else {
      assert r - {k} == m;
    }
  }

  /** A map with a single key sums to that key's count. */
  lemma TotalSingle(k: string, n: nat)
    ensures Total(map[k := n]) == n
  {
    var m := map[k := n];
    TotalRemove(m, k);
    assert m - {k} == map[];
  }

  /** `into` with every key of `ks` that `from` has written in, with its count in `from`. */
  function CopyKeys(into: Chances, from: Chances, ks: set<string>): Chances
  {
    into + map k | k in ks && k in from :: from[k]
  }

  lemma CopyKeysStep(into: Chances, from: Chances, ks: set<string>, k: string)
    requires k in from
    ensures CopyKeys(into, from, ks + {k}) == CopyKeys(into, from, ks)[k := from[k]]
  {
  }

  lemma CopyKeysAll(into: Chances, from: Chances)
    ensures CopyKeys(into, from, from.Keys) == into + from
  {
    assert (map k | k in from.Keys && k in from :: from[k]) == from;
  }
}
