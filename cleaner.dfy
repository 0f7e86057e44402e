/** `clean_data`: drops aggregate rows, rows without generation, and the placeholder plant. */
module Cleaner {
  import opened Wrappers
  import opened Records
  import Seqs

  const AllSentinel := "ALL"
  const PlaceholderPlantCode := "99999"

  /** The negation of the three drop masks of `clean_data`. */
  predicate Keep(row: RawRow) {
    && row.fuel2002 != AllSentinel
    && row.primeMover != AllSentinel
    && row.grossGeneration.Some? && row.grossGeneration.value != 0.0
    && row.plantCode != PlaceholderPlantCode
  }

  /** `df[~all_mask & ~zero_gen_mask & ~plant_99999_mask]`. */
  function Clean(rows: seq<RawRow>): (r: seq<RawRow>)
    ensures forall i :: 0 <= i < |r| ==>
      && r[i] in rows
      && r[i].fuel2002 != AllSentinel && r[i].primeMover != AllSentinel
      && r[i].grossGeneration.Some? && r[i].grossGeneration.value != 0.0
      && r[i].plantCode != PlaceholderPlantCode
    ensures forall i :: 0 <= i < |rows| && Keep(rows[i]) ==> rows[i] in r
  {
    Seqs.Filter(rows, Keep)
  }

  /** A kept row occurs in the output exactly as often as in the input; a dropped row never. */
  lemma CleanCounts(rows: seq<RawRow>, row: RawRow)
    ensures multiset(Clean(rows))[row] == if Keep(row) then multiset(rows)[row] else 0
  {
    Seqs.FilterMultiset(rows, Keep, row);
  }

  /** Cleaning is order-preserving: it acts on each part of a concatenation separately. */
  lemma CleanConcat(a: seq<RawRow>, b: seq<RawRow>)
    ensures Clean(a + b) == Clean(a) + Clean(b)
  {
    Seqs.FilterConcat(a, b, Keep);
  }

  /** Cleaning its own output removes nothing. */
  lemma CleanIdempotent(rows: seq<RawRow>)
    ensures Clean(Clean(rows)) == Clean(rows)
  {
    Seqs.FilterAll(Clean(rows), Keep);
  }
}
