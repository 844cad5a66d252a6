/**
 Per-locus simulation (`runTypeGeneSimulation`). For a locus of `len`
 bits every allele in [0, 2^len) is fed to the locus's expressor twice:
 once with the trait field reset to "" (the fresh pass) and once with it
 pre-set to "X" (the dominant pass). For every bit offset `i` the trait
 name left in the field is counted in the bit-0 or the bit-1 bucket of
 record `i`, by bit `i` of the allele. A final normalisation copies every
 entry of `chances0` into the other three maps of the same record.
 */
module Simulation {
  import opened Bits
  import opened Chances

  /** `len` bits starting at bit `start` of chromosome `chromosome`. */
  datatype Locus = Locus(chromosome: nat, start: nat, len: nat)

  /**
   A gene expressor acting on one trait field: given the allele and the
   field's current value it yields the field's new value. It may overwrite
   the field or leave it as it was.
   */
  type Expressor = (nat, string) -> string

  /** The value the dominant pass seeds the field with. */
  const Sentinel: string := "X"

  /** The value of one bit record (`DnaBitSpec`). */
  datatype BitCounts = BitCounts(
    bitIndex: nat,
    chances0: Chances,
    chances1: Chances,
    chances0Dom: Chances,
    chances1Dom: Chances)

  /** One call of the expressor: the allele and the value the field held before it. */
  datatype Call = Call(allel: nat, seed: string)

  /**
   The bucket of bit value `v` at bit offset `i` after the alleles 0 to
   n-1 have been expressed with the field seeded to `seed`.
   */
  function Tally(expr: Expressor, seed: string, i: nat, v: nat, n: nat): Chances
  {
    if n == 0 then map[]
    else
      var m := Tally(expr, seed, i, v, n - 1);
      if Bit(n - 1, i) == v then Inc(m, expr(n - 1, seed)) else m
  }

  /** Record `i` after the first `n` alleles, before normalisation. */
  function Counted(expr: Expressor, i: nat, n: nat): BitCounts
  {
    BitCounts(i,
      Tally(expr, "", i, 0, n), Tally(expr, "", i, 1, n),
      Tally(expr, Sentinel, i, 0, n), Tally(expr, Sentinel, i, 1, n))
  }

  /** Record `i` once allele `n` has been through the fresh pass only. */
  function FreshCounted(expr: Expressor, i: nat, n: nat): BitCounts
  {
    BitCounts(i,
      Tally(expr, "", i, 0, n + 1), Tally(expr, "", i, 1, n + 1),
      Tally(expr, Sentinel, i, 0, n), Tally(expr, Sentinel, i, 1, n))
  }

  /**
   One allele counted into record `c`: `key` goes to the bucket that bit
   `c.bitIndex` of `allel` selects, in the fresh pair or the dominant pair.
   */
  function CountInto(c: BitCounts, allel: nat, key: string, dominant: bool): BitCounts
  {
    if !dominant then
      if Bit(allel, c.bitIndex) == 0 then c.(chances0 := Inc(c.chances0, key))
      else c.(chances1 := Inc(c.chances1, key))
    else
      if Bit(allel, c.bitIndex) == 0 then c.(chances0Dom := Inc(c.chances0Dom, key))
      else c.(chances1Dom := Inc(c.chances1Dom, key))
  }

  /**
   Counting allele `n` with the name the expressor leaves in the fresh
   field, then with the name it leaves in the seeded field, extends every
   bucket of record `i` from the first `n` alleles to the first `n + 1`.
   */
  lemma CountedStep(expr: Expressor, i: nat, n: nat)
    ensures CountInto(Counted(expr, i, n), n, expr(n, ""), false) == FreshCounted(expr, i, n)
    ensures CountInto(FreshCounted(expr, i, n), n, expr(n, Sentinel), true) == Counted(expr, i, n + 1)
  {
  }

  /**
   Normalisation of one record: every key of `chances0` is written, with
   its `chances0` count, into `chances1`, `chances0Dom` and `chances1Dom`;
   keys absent from `chances0` keep their counts.
   */
  function Normalized(c: BitCounts): BitCounts
  {
    c.(chances1 := c.chances1 + c.chances0,
       chances0Dom := c.chances0Dom + c.chances0,
       chances1Dom := c.chances1Dom + c.chances0)
  }

  /**
   What normalisation leaves: `chances0` and the bit index as they were;
   for every key of `chances0` the other three maps hold its `chances0`
   count; every other key keeps its count (or its absence) in each map.
   */
  lemma NormalizedEntries(c: BitCounts)
    ensures Normalized(c).bitIndex == c.bitIndex && Normalized(c).chances0 == c.chances0
    ensures Normalized(c).chances1.Keys == c.chances1.Keys + c.chances0.Keys
    ensures Normalized(c).chances0Dom.Keys == c.chances0Dom.Keys + c.chances0.Keys
    ensures Normalized(c).chances1Dom.Keys == c.chances1Dom.Keys + c.chances0.Keys
    ensures forall k :: k in c.chances0 ==>
      && Normalized(c).chances1[k] == c.chances0[k]
      && Normalized(c).chances0Dom[k] == c.chances0[k]
      && Normalized(c).chances1Dom[k] == c.chances0[k]
    ensures forall k :: k !in c.chances0 ==>
      && Get(Normalized(c).chances1, k) == Get(c.chances1, k)
      && Get(Normalized(c).chances0Dom, k) == Get(c.chances0Dom, k)
      && Get(Normalized(c).chances1Dom, k) == Get(c.chances1Dom, k)
  {
  }

  /**
   The number of alleles enumerated, `uint32(1) << len`: 2^len, or 0 once
   the bit is shifted out of the 32-bit word.
   */
  function AlleleCount(len: nat): nat
  {
    if len < 32 then Pow2(len) else 0
  }

  /** Record `i` of a locus of `len` bits as the simulation returns it. */
  function SimulatedBit(expr: Expressor, len: nat, i: nat): BitCounts
  {
    Normalized(Counted(expr, i, AlleleCount(len)))
  }

  /** Each bucket sums to the number of alleles whose bit `i` is `v`. */
  lemma {:induction false} TallyTotal(expr: Expressor, seed: string, i: nat, v: nat, n: nat)
    ensures Total(Tally(expr, seed, i, v, n)) == CountBit(i, v, 0, n)
  {
    if n > 0 {
      TallyTotal(expr, seed, i, v, n - 1);
      if Bit(n - 1, i) == v {
        TotalInc(Tally(expr, seed, i, v, n - 1), expr(n - 1, seed));
      }
    }
  }

  /**
   The keys counted: `k` is in a bucket exactly when some allele with the
   bucket's bit value leaves `k` in the field seeded with `seed`.
   */
  lemma {:induction false} TallyKeys(expr: Expressor, seed: string, i: nat, v: nat, n: nat, k: string)
    ensures k in Tally(expr, seed, i, v, n) <==> exists a :: 0 <= a < n && Bit(a, i) == v && expr(a, seed) == k
  {
    if n > 0 {
      TallyKeys(expr, seed, i, v, n - 1, k);
      if k in Tally(expr, seed, i, v, n) {
        if k !in Tally(expr, seed, i, v, n - 1) {
          assert Bit(n - 1, i) == v && expr(n - 1, seed) == k;
        }
      } else {
        forall a | 0 <= a < n && Bit(a, i) == v
          ensures expr(a, seed) != k
        {
          if a == n - 1 {
            assert k in Inc(Tally(expr, seed, i, v, n - 1), expr(a, seed)).Keys ==> k in Tally(expr, seed, i, v, n);
          }
        }
      }
    }
  }

  /**
   Bucket totals before normalisation: for every bit offset of a locus of
   `len` bits each of the four buckets sums to 2^(len-1), and the two
   buckets of a pass together to 2^len, over the alleles the simulation
   enumerates.
   */
  lemma BucketTotals(expr: Expressor, len: nat, i: nat)
    requires i < len <= MaxLocusLen
    ensures AlleleCount(len) == Pow2(len)
    ensures Total(Counted(expr, i, AlleleCount(len)).chances0) == Pow2(len - 1)
    ensures Total(Counted(expr, i, AlleleCount(len)).chances1) == Pow2(len - 1)
    ensures Total(Counted(expr, i, AlleleCount(len)).chances0Dom) == Pow2(len - 1)
    ensures Total(Counted(expr, i, AlleleCount(len)).chances1Dom) == Pow2(len - 1)
    ensures Total(Counted(expr, i, AlleleCount(len)).chances0) + Total(Counted(expr, i, AlleleCount(len)).chances1) == Pow2(len)
    ensures Total(Counted(expr, i, AlleleCount(len)).chances0Dom) + Total(Counted(expr, i, AlleleCount(len)).chances1Dom) == Pow2(len)
  {
    var n := AlleleCount(len);
    TallyTotal(expr, "", i, 0, n);
    TallyTotal(expr, "", i, 1, n);
    TallyTotal(expr, Sentinel, i, 0, n);
    TallyTotal(expr, Sentinel, i, 1, n);
    HalfHaveBit(i, 0, len);
    HalfHaveBit(i, 1, len);
  }

  lemma TallySilent(expr: Expressor, seed: string, i: nat, v: nat, len: nat)
    requires i < len && v < 2
    requires forall a :: expr(a, seed) == seed
    ensures Tally(expr, seed, i, v, Pow2(len)) == map[seed := Pow2(len - 1)]
  {
    var m := Tally(expr, seed, i, v, Pow2(len));
    forall k | k != seed ensures k !in m {
      TallyKeys(expr, seed, i, v, Pow2(len), k);
    }
    TallyTotal(expr, seed, i, v, Pow2(len));
    HalfHaveBit(i, v, len);
    assert m != map[];
    assert m == map[seed := m[seed]];
    TotalSingle(seed, m[seed]);
  }

  /**
   An expressor that never writes the field leaves "" in the fresh pass
   and the sentinel in the dominant pass, for every allele: each bucket
   then holds that one key with count 2^(len-1).
   */
  lemma SilentExpressor(expr: Expressor, len: nat, i: nat)
    requires i < len <= MaxLocusLen
    requires forall a, s :: expr(a, s) == s
    ensures Counted(expr, i, AlleleCount(len)) ==
      BitCounts(i,
        map["" := Pow2(len - 1)], map["" := Pow2(len - 1)],
        map[Sentinel := Pow2(len - 1)], map[Sentinel := Pow2(len - 1)])
  {
    TallySilent(expr, "", i, 0, len);
    TallySilent(expr, "", i, 1, len);
    TallySilent(expr, Sentinel, i, 0, len);
    TallySilent(expr, Sentinel, i, 1, len);
  }

  /**
   A locus of 32 bits or more enumerates no allele at all: its records
   come back with all four maps empty.
   */
  lemma WideLocus(expr: Expressor, len: nat, i: nat)
    requires len >= 32
    ensures SimulatedBit(expr, len, i) == BitCounts(i, map[], map[], map[], map[])
  {
  }

  /** Normalising a second time changes nothing. */
  lemma NormalizedIdempotent(c: BitCounts)
    ensures Normalized(Normalized(c)) == Normalized(c)
  {
    var r := Normalized(c);
    assert r.chances1 + r.chances0 == r.chances1;
    assert r.chances0Dom + r.chances0 == r.chances0Dom;
    assert r.chances1Dom + r.chances0 == r.chances1Dom;
  }

  /**
   A one-bit locus whose expressor always writes "A" for bit 0 and "B"
   for bit 1: `chances0` keeps only "A" while the other maps of the fresh
   and dominant passes take "A" in beside what they counted.
   */
  lemma OneBitLocus()
    ensures SimulatedBit((a: nat, s: string) => if Bit(a, 0) == 0 then "A" else "B", 1, 0) ==
      BitCounts(0, map["A" := 1], map["B" := 1, "A" := 1], map["A" := 1], map["B" := 1, "A" := 1])
  {
    var expr: Expressor := (a: nat, s: string) => if Bit(a, 0) == 0 then "A" else "B";
    assert Pow2(1) == 2;
    assert Tally(expr, "", 0, 0, 2) == map["A" := 1];
    assert Tally(expr, "", 0, 1, 2) == map["B" := 1];
    assert Tally(expr, Sentinel, 0, 0, 2) == map["A" := 1];
    assert Tally(expr, Sentinel, 0, 1, 2) == map["B" := 1];
  }

  /** The trait field an expressor writes (the `*string` into the look). */
  class TraitField {
    var value: string

    constructor (v: string)
      ensures value == v
    {
      value := v;
    }
  }

  /** One bit record (`DnaBitSpec`), updated in place while counting. */
  class DnaBitSpec {
    var bitIndex: nat
    var chances0: Chances
    var chances1: Chances
    var chances0Dom: Chances
    var chances1Dom: Chances

    function Snapshot(): BitCounts
      reads this
    {
      BitCounts(bitIndex, chances0, chances1, chances0Dom, chances1Dom)
    }

    constructor (i: nat)
      ensures Snapshot() == BitCounts(i, map[], map[], map[], map[])
    {
      bitIndex := i;
      chances0, chances1 := map[], map[];
      chances0Dom, chances1Dom := map[], map[];
    }

    /** The normalisation loop over the entries of `chances0`. */
    method Normalize()
      modifies this
      ensures Snapshot() == Normalized(old(Snapshot()))
    {
      ghost var c := Snapshot();
      var keys := chances0.Keys;
      ghost var done: set<string> := {};
      while keys != {}
        invariant keys <= c.chances0.Keys && done == c.chances0.Keys - keys
        invariant bitIndex == c.bitIndex && chances0 == c.chances0
        invariant chances1 == CopyKeys(c.chances1, c.chances0, done)
        invariant chances0Dom == CopyKeys(c.chances0Dom, c.chances0, done)
        invariant chances1Dom == CopyKeys(c.chances1Dom, c.chances0, done)
        decreases keys
      {
        var k :| k in keys;
        var v := chances0[k];
        CopyKeysStep(c.chances1, c.chances0, done, k);
        CopyKeysStep(c.chances0Dom, c.chances0, done, k);
        CopyKeysStep(c.chances1Dom, c.chances0, done, k);
        chances1 := chances1[k := v];
        chances0 := chances0[k := v];
        assert chances0 == c.chances0;
        chances1Dom := chances1Dom[k := v];
        chances0Dom := chances0Dom[k := v];
        keys := keys - {k};
        done := done + {k};
      }
      assert done == c.chances0.Keys;
      CopyKeysAll(c.chances1, c.chances0);
      CopyKeysAll(c.chances0Dom, c.chances0);
      CopyKeysAll(c.chances1Dom, c.chances0);
      assert c == old(Snapshot());
    }
  }

  /** The records of a locus of `len` bits: one per bit offset, all maps empty. */
  method NewBitSpecs(len: nat) returns (specs: seq<DnaBitSpec>)
    ensures |specs| == len
    ensures forall q :: 0 <= q < |specs| ==> fresh(specs[q])
    ensures forall p, q :: 0 <= p < q < |specs| ==> specs[p] != specs[q]
    ensures forall q :: 0 <= q < |specs| ==> specs[q].Snapshot() == BitCounts(q, map[], map[], map[], map[])
  {
    specs := [];
    var i := 0;
    while i < len
      invariant i <= len && |specs| == i
      invariant forall q :: 0 <= q < i ==> fresh(specs[q])
      invariant forall p, q :: 0 <= p < q < i ==> specs[p] != specs[q]
      invariant forall q :: 0 <= q < i ==> specs[q].Snapshot() == BitCounts(q, map[], map[], map[], map[])
    {
      var bitspec := new DnaBitSpec(i);
      specs := specs + [bitspec];
      i := i + 1;
    }
  }

  /**
   The counting loop of one pass: for every bit offset `i`, `key` (the
   name left in the field) is counted in record `i`, in the bucket that
   `allel & geneBitMasks[i]` selects.
   */
  method CountPass(specs: seq<DnaBitSpec>, allel: nat, key: string, dominant: bool)
    requires |specs| <= MaxLocusLen
    requires forall p, q :: 0 <= p < q < |specs| ==> specs[p] != specs[q]
    requires forall q :: 0 <= q < |specs| ==> specs[q].bitIndex == q
    modifies specs
    ensures forall q :: 0 <= q < |specs| ==>
      specs[q].Snapshot() == CountInto(old(specs[q].Snapshot()), allel, key, dominant)
  {
    var i := 0;
    while i < |specs|
      invariant i <= |specs|
      invariant forall q :: 0 <= q < |specs| ==>
        specs[q].Snapshot() == (if q < i then CountInto(old(specs[q].Snapshot()), allel, key, dominant)
                                else old(specs[q].Snapshot()))
    {
      MaskClearIsBit(allel, i);
      if MaskClear(allel, i) {
        if dominant {
          specs[i].chances0Dom := Inc(specs[i].chances0Dom, key);
        } else {
          specs[i].chances0 := Inc(specs[i].chances0, key);
        }
      } else {
        if dominant {
          specs[i].chances1Dom := Inc(specs[i].chances1Dom, key);
        } else {
          specs[i].chances1 := Inc(specs[i].chances1, key);
        }
      }
      i := i + 1;
    }
  }

  /** The normalisation loop over all records. */
  method NormalizeAll(specs: seq<DnaBitSpec>)
    requires forall p, q :: 0 <= p < q < |specs| ==> specs[p] != specs[q]
    modifies specs
    ensures forall q :: 0 <= q < |specs| ==> specs[q].Snapshot() == Normalized(old(specs[q].Snapshot()))
  {
    var n := 0;
    while n < |specs|
      invariant n <= |specs|
      invariant forall q :: 0 <= q < |specs| ==>
        specs[q].Snapshot() == (if q < n then Normalized(old(specs[q].Snapshot())) else old(specs[q].Snapshot()))
    {
      specs[n].Normalize();
      n := n + 1;
    }
  }

  /**
   The body of the allele loop: the fresh pass and then the dominant pass
   for one allele, each a call of the expressor followed by a counting
   loop. `calls` records the two calls of the expressor.
   */
  method ExpressAllel(specs: seq<DnaBitSpec>, expr: Expressor, prop: TraitField, allel: nat)
    returns (ghost calls: seq<Call>)
    requires |specs| <= MaxLocusLen
    requires forall p, q :: 0 <= p < q < |specs| ==> specs[p] != specs[q]
    requires forall q :: 0 <= q < |specs| ==> specs[q].Snapshot() == Counted(expr, q, allel)
    modifies prop, specs
    ensures forall q :: 0 <= q < |specs| ==> specs[q].Snapshot() == Counted(expr, q, allel + 1)
    ensures prop.value == expr(allel, Sentinel)
    ensures calls == [Call(allel, ""), Call(allel, Sentinel)]
  {
    // Fresh pass: reset the field so that non-dominant values show too.
    prop.value := "";
    calls := [Call(allel, prop.value)];
    prop.value := expr(allel, prop.value);
    CountPass(specs, allel, prop.value, false);
    forall q | 0 <= q < |specs| ensures specs[q].Snapshot() == FreshCounted(expr, q, allel) {
      CountedStep(expr, q, allel);
    }
    // Dominant pass: the field already holds the sentinel, so only an
    // expressor that overwrites it leaves another name.
    prop.value := Sentinel;
    calls := calls + [Call(allel, prop.value)];
    prop.value := expr(allel, prop.value);
    CountPass(specs, allel, prop.value, true);
    forall q | 0 <= q < |specs| ensures specs[q].Snapshot() == Counted(expr, q, allel + 1) {
      CountedStep(expr, q, allel);
    }
  }

  /**
   `runTypeGeneSimulation`: one fresh record per bit offset, then every
   allele in ascending order through the fresh and the dominant pass,
   then normalisation. `calls` is a ghost log that `ExpressAllel` appends
   to beside each expressor application it makes; it documents the call
   order but is not observed from the expressor. What pins the results
   is the equality of every record with `SimulatedBit`.
   */
  method RunTypeGeneSimulation(locus: Locus, expr: Expressor, prop: TraitField)
    returns (specs: seq<DnaBitSpec>, ghost calls: seq<Call>)
    requires locus.len <= MaxLocusLen || locus.len >= 32
    modifies prop
    ensures |specs| == locus.len
    ensures forall q :: 0 <= q < |specs| ==> fresh(specs[q])
    ensures forall p, q :: 0 <= p < q < |specs| ==> specs[p] != specs[q]
    ensures forall q :: 0 <= q < |specs| ==> specs[q].bitIndex == q
    ensures forall q :: 0 <= q < |specs| ==> specs[q].Snapshot() == SimulatedBit(expr, locus.len, q)
    ensures |calls| == 2 * AlleleCount(locus.len)
    ensures forall c :: 0 <= c < |calls| ==> calls[c] == Call(c / 2, if c % 2 == 0 then "" else Sentinel)
    ensures AlleleCount(locus.len) > 0 ==> prop.value == expr(AlleleCount(locus.len) - 1, Sentinel)
    ensures AlleleCount(locus.len) == 0 ==> prop.value == old(prop.value)
  {
    specs := NewBitSpecs(locus.len);
    var maxAllelNum := AlleleCount(locus.len); // uint32(1) << locus.Len
    calls := [];
    var allel := 0;
    while allel < maxAllelNum
      invariant allel <= maxAllelNum
      invariant |calls| == 2 * allel
      invariant forall c :: 0 <= c < |calls| ==> calls[c] == Call(c / 2, if c % 2 == 0 then "" else Sentinel)
      invariant forall q :: 0 <= q < |specs| ==> specs[q].Snapshot() == Counted(expr, q, allel)
      invariant allel > 0 ==> prop.value == expr(allel - 1, Sentinel)
      invariant allel == 0 ==> prop.value == old(prop.value)
    {
      ghost var two := ExpressAllel(specs, expr, prop, allel);
      calls := calls + two;
      allel := allel + 1;
    }
    NormalizeAll(specs);
  }
}
