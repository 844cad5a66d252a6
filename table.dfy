/**
 Table placement (`buildTypePartDnaTable`). Every declared locus is
 simulated and its records are placed in one 256-slot table, one slot per
 bit of the genome: chromosome 1 fills the left half [0, 128), chromosome 0
 the right half [128, 256). Within a locus the bits are written in reverse:
 the record of bit offset len-1 lands on the locus's first slot, that of
 bit offset 0 on its last. Slots no locus covers stay empty (nil).
 */
module Table {
  import opened Bits
  import opened Simulation

  datatype Option<T> = None | Some(value: T)

  const ChromosomeSize: nat := 128
  const TableSize: nat := 256

  /** A locus paired with the expressor of its trait field. */
  datatype Gene = Gene(locus: Locus, expressor: Expressor)

  /**
   A locus the table can take: on one of the two chromosomes and inside
   it, and short enough for the twelve masks or so long (32 bits or more)
   that no allele is enumerated.
   */
  predicate Placeable(l: Locus)
  {
    l.chromosome <= 1 && l.start + l.len <= ChromosomeSize && (l.len <= MaxLocusLen || l.len >= 32)
  }

  /** The first slot of a locus: chromosome 1 on the left, chromosome 0 on the right. */
  function Begin(l: Locus): (r: nat)
    requires Placeable(l)
    ensures r == if l.chromosome == 1 then l.start else ChromosomeSize + l.start
  {
    TableSize - (ChromosomeSize * l.chromosome + ChromosomeSize - l.start)
  }

  /** One past the last slot of a locus: the locus spans exactly `len` slots inside its chromosome's half. */
  function End(l: Locus): (r: nat)
    requires Placeable(l)
    ensures r == Begin(l) + l.len && r <= TableSize
    ensures l.chromosome == 1 ==> r <= ChromosomeSize
    ensures l.chromosome == 0 ==> ChromosomeSize <= Begin(l)
  {
    TableSize - (ChromosomeSize * l.chromosome + ChromosomeSize - (l.start + l.len))
  }

  predicate Covers(l: Locus, s: nat)
    requires Placeable(l)
  {
    Begin(l) <= s < End(l)
  }

  predicate AllPlaceable(genes: seq<Gene>)
  {
    forall g :: 0 <= g < |genes| ==> Placeable(genes[g].locus)
  }

  predicate Disjoint(a: Locus, b: Locus)
    requires Placeable(a) && Placeable(b)
  {
    End(a) <= Begin(b) || End(b) <= Begin(a)
  }

  predicate PairwiseDisjoint(genes: seq<Gene>)
    requires AllPlaceable(genes)
  {
    forall g, h :: 0 <= g < h < |genes| ==> Disjoint(genes[g].locus, genes[h].locus)
  }

  /** What a slot receives: the record of bit offset `bit` of `gene`'s locus. */
  datatype Placement = Placement(gene: Gene, bit: nat)

  /**
   The placement at slot `s` once the loci of the first `n` genes have been
   placed in order: the last of them covering `s` decides it, with the
   locus's bits reversed.
   */
  function SlotAfter(genes: seq<Gene>, n: nat, s: nat): Option<Placement>
    requires AllPlaceable(genes) && n <= |genes|
  {
    if n == 0 then None
    else if Covers(genes[n - 1].locus, s) then
      Some(Placement(genes[n - 1], genes[n - 1].locus.len - 1 - (s - Begin(genes[n - 1].locus))))
    else SlotAfter(genes, n - 1, s)
  }

  /** The placement at slot `s` once every gene has been placed. */
  function Slot(genes: seq<Gene>, s: nat): Option<Placement>
    requires AllPlaceable(genes)
  {
    SlotAfter(genes, |genes|, s)
  }

  /** The simulated record a placement puts in its slot. */
  function Record(p: Option<Placement>): Option<BitCounts>
  {
    match p
    case None => None
    case Some(pl) => Some(SimulatedBit(pl.gene.expressor, pl.gene.locus.len, pl.bit))
  }

  /** The value a table slot holds. */
  function View(o: DnaBitSpec?): Option<BitCounts>
    reads o
  {
    if o == null then None else Some(o.Snapshot())
  }

  lemma {:induction false} SlotAfterPlaced(genes: seq<Gene>, n: nat, g: nat, k: nat)
    requires AllPlaceable(genes) && PairwiseDisjoint(genes)
    requires g < n <= |genes| && k < genes[g].locus.len
    ensures SlotAfter(genes, n, Begin(genes[g].locus) + k) == Some(Placement(genes[g], genes[g].locus.len - 1 - k))
  {
    if g < n - 1 {
      assert Disjoint(genes[g].locus, genes[n - 1].locus);
      SlotAfterPlaced(genes, n - 1, g, k);
    }
  }

  /**
   Reversed scatter: with disjoint loci, slot `Begin + k` of gene `g`
   receives bit offset len-1-k of that gene.
   */
  lemma SlotPlaced(genes: seq<Gene>, g: nat, k: nat)
    requires AllPlaceable(genes) && PairwiseDisjoint(genes)
    requires g < |genes| && k < genes[g].locus.len
    ensures Slot(genes, Begin(genes[g].locus) + k) == Some(Placement(genes[g], genes[g].locus.len - 1 - k))
  {
    SlotAfterPlaced(genes, |genes|, g, k);
  }

  /** A slot covered by gene `g` holds that gene's placement. */
  lemma SlotCovered(genes: seq<Gene>, g: nat, gene: Gene, s: nat)
    requires AllPlaceable(genes) && PairwiseDisjoint(genes)
    requires g < |genes| && genes[g] == gene && Covers(gene.locus, s)
    ensures Slot(genes, s) == Some(Placement(gene, gene.locus.len - 1 - (s - Begin(gene.locus))))
  {
    SlotPlaced(genes, g, s - Begin(gene.locus));
  }

  lemma {:induction false} SlotAfterEmpty(genes: seq<Gene>, n: nat, s: nat)
    requires AllPlaceable(genes) && n <= |genes|
    ensures SlotAfter(genes, n, s) == None <==> forall g :: 0 <= g < n ==> !Covers(genes[g].locus, s)
  {
    if n > 0 {
      SlotAfterEmpty(genes, n - 1, s);
    }
  }

  /** A slot is empty exactly when no locus covers it. */
  lemma SlotEmpty(genes: seq<Gene>, s: nat)
    requires AllPlaceable(genes)
    ensures Slot(genes, s) == None <==> forall g :: 0 <= g < |genes| ==> !Covers(genes[g].locus, s)
  {
    SlotAfterEmpty(genes, |genes|, s);
  }

  /**
   With disjoint loci the table does not depend on the order in which the
   loci are placed: two sequences holding the same genes give the same
   placement, and so the same record, at every slot.
   */
  lemma SlotOrderFree(genes: seq<Gene>, other: seq<Gene>, s: nat)
    requires AllPlaceable(genes) && PairwiseDisjoint(genes)
    requires AllPlaceable(other) && PairwiseDisjoint(other)
    requires multiset(genes) == multiset(other)
    ensures Slot(genes, s) == Slot(other, s)
  {
    if exists g :: 0 <= g < |genes| && Covers(genes[g].locus, s) {
      var g :| 0 <= g < |genes| && Covers(genes[g].locus, s);
      assert genes[g] in multiset(other);
      var x :| 0 <= x < |other| && other[x] == genes[g];
      var gene := genes[g];
      SlotCovered(genes, g, gene, s);
      SlotCovered(other, x, gene, s);
      assert Slot(genes, s) == Slot(other, s);
    } else {
      forall x | 0 <= x < |other| ensures !Covers(other[x].locus, s) {
        assert other[x] in multiset(genes);
        var g :| 0 <= g < |genes| && genes[g] == other[x];
      }
      SlotEmpty(genes, s);
      SlotEmpty(other, s);
      assert Slot(genes, s) == None;
      assert Slot(other, s) == None;
    }
  }

  /**
   The inner loop of `buildTypePartDnaTable`: slots [begin, end) receive
   the records of `res` from the last one down to the first; every other
   slot keeps its value.
   */
  method Scatter(table: array<DnaBitSpec?>, res: seq<DnaBitSpec>, begin: nat, end: nat)
    requires begin <= end <= table.Length && end - begin == |res|
    modifies table
    ensures forall s :: 0 <= s < table.Length ==>
      table[s] == (if begin <= s < end then res[|res| - 1 - (s - begin)] else old(table[s]))
  {
    var j: int := |res| - 1;
    var i := begin;
    while i < end
      invariant begin <= i <= end && j == |res| - 1 - (i - begin)
      invariant forall s :: 0 <= s < table.Length ==>
        table[s] == (if begin <= s < i then res[|res| - 1 - (s - begin)] else old(table[s]))
    {
      table[i] := res[j];
      j := j - 1;
      i := i + 1;
    }
  }

  /**
   One iteration of `buildTypePartDnaTable`: the gene's locus is simulated
   on a trait field of its own and its records are written from slot
   `begin` upwards while the record index runs down from len-1. The slots
   the locus covers hold its simulated bits in reverse; every other slot
   keeps the object it held.
   */
  method PlaceGene(table: array<DnaBitSpec?>, gene: Gene)
    requires table.Length == TableSize && Placeable(gene.locus)
    modifies table
    ensures forall s :: Begin(gene.locus) <= s < End(gene.locus) ==>
      View(table[s]) == Some(SimulatedBit(gene.expressor, gene.locus.len, gene.locus.len - 1 - (s - Begin(gene.locus))))
    ensures forall s :: 0 <= s < TableSize && !Covers(gene.locus, s) ==> table[s] == old(table[s])
  {
    var locus := gene.locus;
    var prop := new TraitField("");
    var res;
    ghost var calls;
    res, calls := RunTypeGeneSimulation(locus, gene.expressor, prop);
    var chromOffset := ChromosomeSize * locus.chromosome;
    var begin := TableSize - (chromOffset + ChromosomeSize - locus.start);
    var end := TableSize - (chromOffset + ChromosomeSize - (locus.start + locus.len));
    assert begin == Begin(locus) && end == End(locus);
    Scatter(table, res, begin, end);
    forall s | Begin(gene.locus) <= s < End(gene.locus)
      ensures View(table[s]) == Some(SimulatedBit(gene.expressor, gene.locus.len, gene.locus.len - 1 - (s - Begin(gene.locus))))
    {
      var q := gene.locus.len - 1 - (s - Begin(gene.locus));
      assert table[s] == res[q];
    }
  }

  /**
   `buildTypePartDnaTable`: a 256-slot table, initially all nil, into
   which every gene is placed in turn.
   */
  method BuildTypePartDnaTable(genes: seq<Gene>) returns (table: array<DnaBitSpec?>)
    requires AllPlaceable(genes)
    ensures table.Length == TableSize
    ensures forall s :: 0 <= s < TableSize ==> View(table[s]) == Record(Slot(genes, s))
  {
    table := new DnaBitSpec?[TableSize](_ => null);
    var g := 0;
    while g < |genes|
      invariant g <= |genes|
      invariant forall s :: 0 <= s < TableSize ==> View(table[s]) == Record(SlotAfter(genes, g, s))
    {
      ghost var before := table[..];
      assert forall s :: 0 <= s < TableSize ==> View(before[s]) == Record(SlotAfter(genes, g, s));
      PlaceGene(table, genes[g]);
      forall s | 0 <= s < TableSize
        ensures View(table[s]) == Record(SlotAfter(genes, g + 1, s))
      {
        var gene := genes[g];
        if Covers(gene.locus, s) {
          assert SlotAfter(genes, g + 1, s) == Some(Placement(gene, gene.locus.len - 1 - (s - Begin(gene.locus))));
        } else {
          assert table[s] == before[s];
        }
      }
      g := g + 1;
    }
  }

  /** The declared type loci (`typeGenes`): eyes, hair, mouth on chromosome 0; neck, shirt, glasses on chromosome 1. */
  const TypeGeneLoci: seq<Locus> := [
    Locus(0, 20, 12), Locus(0, 32, 12), Locus(0, 60, 12),
    Locus(1, 0, 8), Locus(1, 8, 8), Locus(1, 26, 8)]

  /** The declared loci paired with their expressors. */
  function TypeGenes(expressors: seq<Expressor>): seq<Gene>
    requires |expressors| == |TypeGeneLoci|
  {
    seq(|TypeGeneLoci|, g requires 0 <= g < |TypeGeneLoci| => Gene(TypeGeneLoci[g], expressors[g]))
  }

  /**
   The declared loci fit the table and do not overlap, whatever the
   expressors; the eye-type locus spans slots [148, 160).
   */
  lemma TypeGenesLayout(expressors: seq<Expressor>)
    requires |expressors| == |TypeGeneLoci|
    ensures AllPlaceable(TypeGenes(expressors)) && PairwiseDisjoint(TypeGenes(expressors))
    ensures Begin(TypeGeneLoci[0]) == 148 && End(TypeGeneLoci[0]) == 160
  {
  }

  /**
   The eye-type locus in the declared table: its bit offset 11 lands on
   slot 148 and its bit offset 0 on slot 159.
   */
  lemma EyeTypePlacement(expressors: seq<Expressor>)
    requires |expressors| == |TypeGeneLoci|
    ensures AllPlaceable(TypeGenes(expressors))
    ensures Slot(TypeGenes(expressors), 148) == Some(Placement(TypeGenes(expressors)[0], 11))
    ensures Slot(TypeGenes(expressors), 159) == Some(Placement(TypeGenes(expressors)[0], 0))
  {
    TypeGenesLayout(expressors);
    SlotPlaced(TypeGenes(expressors), 0, 0);
    SlotPlaced(TypeGenes(expressors), 0, 11);
  }
}
