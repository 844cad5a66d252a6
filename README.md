# Pepe DNA bit-table generator, modelled in Dafny

The generator builds the table that tells, for every bit of a 256-bit pepe
genome, how that bit influences the visible traits. The genome is two
128-bit chromosomes, and each trait type (eyes, hair, mouth, neck, shirt,
glasses) is governed by a locus: `len` bits starting at `start` on one
chromosome.

For every locus the generator runs `runTypeGeneSimulation`:

- It enumerates every allele in [0, 2^len).
- It calls the trait's gene expressor twice per allele. The first call has
  the trait field reset to "" (the fresh pass). The second has the field
  pre-set to "X" (the dominant pass).
- After each call, every bit offset `i` of the locus gets the trait name
  left in the field counted in record `i`'s bit-0 or bit-1 map, chosen by
  bit `i` of the allele.
- A normalisation loop then copies every entry of `chances0` into the other
  three maps of the same record.

`buildTypePartDnaTable` scatters each locus's records into a 256-slot table:

- Chromosome 1 fills slots [0, 128) and chromosome 0 fills [128, 256).
- Within a locus the records go in reverse: bit offset len-1 lands on the
  locus's first slot.
- Uncovered slots stay nil.

The model has four modules:

- `bits.dfy` covers allele bits and the twelve masks, and proves that
  exactly half of the alleles have a given bit value.
- `chances.dfy` covers the count maps, their increment and their total.
- `simulation.dfy` has the classes `DnaBitSpec` and `TraitField`, with
  fields updated in place. Methods mirror each loop of
  `runTypeGeneSimulation`, and each is proved against pure specification
  functions (`Tally`, `Counted`, `Normalized`, `SimulatedBit`).
- `table.dfy` has the placement arithmetic and the table as an array of
  `DnaBitSpec` references. Its builder methods are proved against `Slot`,
  the "last covering locus decides" specification of the table.

The expressor is external code. It becomes a function parameter
`(allele, current field value) -> new field value`.

Two behaviours of the program are worth stating outright:

- Normalisation does not make the four maps equal. It only copies the
  entries of `chances0` into the other three maps, so `chances0` and
  `chances0Dom` keep only names counted for bit value 0
  (`Simulation.OneBitLocus` shows this on a one-bit locus).
- The program checks no locus for zero length, excess length or overlap.
  A locus of 32 bits or more enumerates no allele, and overlapping loci
  are resolved by the last one placed.

## Model

| member | source | states |
|---|---|---|
| Bits.GeneBitMasksArePowers | main.go:72-74 | there are twelve masks and mask `i` is 2^i |
| Bits.MaskClearIsBit | main.go:94 | `allel & geneBitMasks[i] == 0` holds exactly when bit `i` of the allele is 0 |
| Bits.HalfHaveBit | main.go:87-88 | of the 2^len alleles of a locus, exactly 2^(len-1) have bit `i` (i < len) equal to 0, and as many equal to 1 |
| Chances.IncEntries | main.go:95 | `m[k] += 1` adds `k` if absent, raises its count by one and leaves every other key's count unchanged |
| Chances.TotalInc | main.go:95 | one increment raises the sum of a map's counts by exactly one |
| Simulation.CountedStep | main.go:88-111 | counting allele `n` in the fresh pass and then the dominant pass extends every record from the first `n` alleles to the first `n + 1` |
| Simulation.TallyTotal | main.go:92-99 | a bucket's counts sum to the number of alleles whose bit `i` has the bucket's value |
| Simulation.TallyKeys | main.go:90-98 | a name is a key of a bucket exactly when some allele with the bucket's bit value leaves that name in the field seeded as the pass seeds it |
| Simulation.BucketTotals | main.go:87-111 | for a locus of at most 12 bits the loop enumerates 2^len alleles, and before normalisation each of `chances0`, `chances1`, `chances0Dom`, `chances1Dom` sums to 2^(len-1), and each pass's pair sums to 2^len |
| Simulation.SilentExpressor | main.go:89-103 | an expressor that never writes the field yields the key "" in both fresh buckets and "X" in both dominant buckets, each with count 2^(len-1), over the alleles the loop enumerates |
| Simulation.WideLocus | main.go:87-88 | a locus of 32 bits or more enumerates no allele (`uint32(1) << len` is 0) and its records come back empty |
| Simulation.NormalizedEntries | main.go:114-121 | after normalisation, every key of `chances0` has its `chances0` count in `chances1`, `chances0Dom` and `chances1Dom`; `chances0`, the bit index and every other key's count (or absence) are unchanged |
| Simulation.NormalizedIdempotent | main.go:114-121 | normalising a record a second time changes nothing |
| Simulation.OneBitLocus | main.go:76-123 | with a one-bit locus whose expressor writes "A" for bit 0 and "B" for bit 1, the record is `chances0 = chances0Dom = {A:1}` and `chances1 = chances1Dom = {A:1, B:1}` |
| Simulation.DnaBitSpec.constructor | main.go:79-84 | a new record has the given bit index and four empty maps |
| Simulation.DnaBitSpec.Normalize | main.go:115-120 | the loop over `chances0` leaves the record equal to the normalised old record |
| Simulation.NewBitSpecs | main.go:77-86 | `len` distinct fresh records, record `q` with bit index `q` and empty maps |
| Simulation.CountPass | main.go:92-111 | one counting loop counts the key into each record `q`, in the bucket that bit `q` of the allele selects, in the fresh or dominant pair; other buckets are unchanged |
| Simulation.NormalizeAll | main.go:114-121 | every record becomes the normalised old record |
| Simulation.ExpressAllel | main.go:89-111 | one allele goes through the reset-to-"" call and the seeded-with-"X" call; every record advances from `n` alleles counted to `n + 1`; the field ends holding the dominant-pass name |
| Simulation.RunTypeGeneSimulation | main.go:76-123 | returns `len` distinct fresh records, record `q` with bit index `q` and equal to `SimulatedBit(expr, len, q)`; the ghost log written beside each expressor call lists 2·2^len calls (none for len ≥ 32), alleles in ascending order, each first with "" and then with "X" |
| Table.Begin | main.go:133-134 | a locus on chromosome 1 starts at slot `start`, one on chromosome 0 at slot `128 + start` |
| Table.End | main.go:135 | `end - begin == len`, and the locus stays inside its chromosome's half of the 256 slots |
| Table.SlotPlaced | main.go:136-140 | with disjoint loci, slot `begin + k` of a locus receives its bit offset `len - 1 - k` |
| Table.SlotEmpty | main.go:128 | a slot is empty exactly when no locus covers it |
| Table.SlotOrderFree | main.go:130 | with disjoint loci, placing the same loci in any order gives the same placement at every slot |
| Table.Scatter | main.go:136-140 | slots [begin, end) receive the records from the last down to the first; every other slot is unchanged |
| Table.PlaceGene | main.go:132-140 | every slot the locus covers holds its simulated record of bit offset `len - 1 - (s - begin)`; every other slot is unchanged |
| Table.BuildTypePartDnaTable | main.go:127-143 | returns 256 slots; each slot holds the simulated record that `Slot` assigns it, and uncovered slots are nil |
| Table.TypeGenesLayout | main.go:51-58 | the declared loci fit the table and are pairwise disjoint; the eye-type locus spans slots [148, 160) |
| Table.EyeTypePlacement | main.go:52 | in the declared table the eye-type locus's bit offset 11 lands on slot 148 and bit offset 0 on slot 159 |

## Left out

- `main` (main.go:12-23): JSON encoding and the write of `output.json` are I/O.
- The progress `fmt.Printf` (main.go:131) is logging only.
- The commented-out `colorGenes` table (main.go:37-49) is dead code.
- `pepe.GeneExpressor` and `look.PepeLook` are external packages and are not part of this model.
  - An expressor becomes a total function of the allele and the current value of its own trait field.
  - An expressor that reads or writes other fields of the shared look is not captured.
- The shared `tempLook` (main.go:129) is not modelled. Each locus gets a trait field of its own. The field is reset before every expressor call, so its starting value never matters.
- Counts are exact naturals, not `float32`. Only `+1.0` steps on counts of at most 4096 occur.
- Go's random iteration order over `typeGenes` is not modelled. The loci come as a sequence in some order, and `Table.SlotOrderFree` shows that the order does not matter for disjoint loci.
- The bitwise AND against a mask is computed as division and remainder. `Bits.MaskClearIsBit` links it to the bit.
- Simulation.RunTypeGeneSimulation: loci of 13 to 31 bits are excluded by its precondition. There the source panics on the thirteenth mask index.
- Table.Placeable: loci are required to lie inside chromosome 0 or 1.
  - The source's unsigned arithmetic would let a chromosome-1 locus running past bit 128 spill into chromosome 0's half.
  - Loci on a chromosome numbered 2 or more either index past the table and panic, or wrap around into it (for example chromosome 2, start 128, 8 bits writes slots [0, 8)).
