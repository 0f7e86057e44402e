/**
 * The bookkeeping of `enrich_with_deepseek`: basic flags for every record,
 * selection of the records the AI pass sees, batches of 25, the per-batch
 * fallback to basic flags, the last-write-wins name-to-flag map, and the
 * "AI_"-prefixed overwrite of every record with a matching name. The remote
 * call is the parameter `analyze`, applied to a batch's index and contents.
 */
module Enrichment {
  import opened Wrappers
  import opened Records
  import Classifier

  const BatchSize: nat := 25
  const AiPrefix := "AI_"

  /** One entry of `analysis_data`. */
  datatype AnalysisItem = AnalysisItem(
    plantName: string,
    fuelType: string,
    capacityFactor: real,
    capacity: Option<real>,
    state: string)

  /** What `analyze_batch_with_deepseek` returns: the parsed flags and the success bit. */
  datatype AiReply = AiReply(flags: map<string, string>, success: bool)

  /** The basic flag of a merged record (`df.apply(flag_basic_capacity_factor)`). */
  function RecordFlag(e: EnrichedPlant): string {
    Classifier.BasicFlag(e.capacityFactorPercent, e.fuelTypeDescription)
  }

  /** The basic flag recomputed from an analysis item, as the failed-batch fallback does. */
  function ItemFlag(item: AnalysisItem): string {
    Classifier.BasicFlag(Some(item.capacityFactor), Some(item.fuelType))
  }

  /** Only records with both a capacity factor and a fuel description are sent to the AI pass. */
  predicate Eligible(e: EnrichedPlant) {
    e.capacityFactorPercent.Some? && e.fuelTypeDescription.Some?
  }

  function ItemOf(e: EnrichedPlant): AnalysisItem
    requires Eligible(e)
  {
    AnalysisItem(e.plantName, e.fuelTypeDescription.value, e.capacityFactorPercent.value,
                 e.totalCapacityMW, e.state)
  }

  /** `analysis_data`: one item per eligible record, in record order. */
  function AnalysisData(records: seq<EnrichedPlant>): (r: seq<AnalysisItem>)
    ensures |r| <= |records|
    ensures forall k :: 0 <= k < |r| ==>
      exists i :: 0 <= i < |records| && Eligible(records[i]) && r[k] == ItemOf(records[i])
    ensures forall i :: 0 <= i < |records| && Eligible(records[i]) ==> ItemOf(records[i]) in r
    decreases |records|
  {
    if |records| == 0 then []
    else
      var n := |records| - 1;
      var prefix := AnalysisData(records[..n]);
      assert forall i :: 0 <= i < n ==> records[..n][i] == records[i];
      if Eligible(records[n]) then prefix + [ItemOf(records[n])] else prefix
  }

  /** A single record contributes its item exactly when it is eligible. */
  lemma AnalysisDataOne(e: EnrichedPlant)
    ensures AnalysisData([e]) == if Eligible(e) then [ItemOf(e)] else []
  {
    assert [e][..0] == [];
  }

  /** Selection keeps record order: it acts on each part of a concatenation separately. */
  lemma {:induction false} AnalysisDataConcat(a: seq<EnrichedPlant>, b: seq<EnrichedPlant>)
    ensures AnalysisData(a + b) == AnalysisData(a) + AnalysisData(b)
    decreases |b|
  {
    if |b| == 0 {
      assert a + b == a;
    } else {
      var n := |b| - 1;
      assert (a + b)[..|a + b| - 1] == a + b[..n];
      assert (a + b)[|a + b| - 1] == b[n];
      AnalysisDataConcat(a, b[..n]);
    }
  }

  /** `[analysis_data[i:i+25] for i in range(0, n, 25)]`. */
  function Batches(items: seq<AnalysisItem>): seq<seq<AnalysisItem>>
    decreases |items|
  {
    if |items| == 0 then []
    else if |items| <= BatchSize then [items]
    else [items[..BatchSize]] + Batches(items[BatchSize..])
  }

  /** The batches laid end to end. */
  function Flatten(batches: seq<seq<AnalysisItem>>): seq<AnalysisItem>
    decreases |batches|
  {
    if |batches| == 0 then [] else Flatten(batches[..|batches| - 1]) + batches[|batches| - 1]
  }

  lemma {:induction false} FlattenCons(b: seq<AnalysisItem>, rest: seq<seq<AnalysisItem>>)
    ensures Flatten([b] + rest) == b + Flatten(rest)
    decreases |rest|
  {
    if |rest| > 0 {
      var n := |rest| - 1;
      assert ([b] + rest)[..n + 1] == [b] + rest[..n];
      FlattenCons(b, rest[..n]);
    }
  }

  /**
   * The batches partition the items in order; each is non-empty and at most
   * 25 long, and there are ceil(n / 25) of them.
   */
  lemma {:induction false} BatchesPartition(items: seq<AnalysisItem>)
    ensures Flatten(Batches(items)) == items
    ensures forall k :: 0 <= k < |Batches(items)| ==> 0 < |Batches(items)[k]| <= BatchSize
    ensures |Batches(items)| == (|items| + BatchSize - 1) / BatchSize
    decreases |items|
  {
    if |items| > BatchSize {
      BatchesPartition(items[BatchSize..]);
      FlattenCons(items[..BatchSize], Batches(items[BatchSize..]));
      assert items == items[..BatchSize] + items[BatchSize..];
    } else if |items| > 0 {
      assert Flatten([items]) == Flatten([]) + items;
    }
  }

  /** Batch `k` is the slice starting at `25 * k`, the one the loop cuts in its `k`-th round. */
  lemma {:induction false} BatchAt(items: seq<AnalysisItem>, k: nat)
    requires k * BatchSize < |items|
    ensures k < |Batches(items)|
    ensures Batches(items)[k] == items[k * BatchSize..if (k + 1) * BatchSize < |items| then (k + 1) * BatchSize else |items|]
    decreases k
  {
    if k > 0 {
      BatchAt(items[BatchSize..], k - 1);
      assert items[BatchSize..][(k - 1) * BatchSize..] == items[k * BatchSize..];
    }
  }

  /** The batch loop stops exactly after the last batch. */
  lemma BatchCountBound(items: seq<AnalysisItem>, k: nat)
    ensures k < |Batches(items)| <==> k * BatchSize < |items|
  {
    BatchesPartition(items);
  }

  /** `if success and flags`: a batch counts as a success only with a non-empty map. */
  predicate Succeeded(reply: AiReply) {
    reply.success && |reply.flags| > 0
  }

  /** The plant names of a batch. */
  function NamesOf(batch: seq<AnalysisItem>): set<string> {
    set j | 0 <= j < |batch| :: batch[j].plantName
  }

  /** Position `j` holds the last plant of the batch with its name. */
  ghost predicate LastOfName(batch: seq<AnalysisItem>, j: int) {
    0 <= j < |batch| && forall k :: j < k < |batch| ==> batch[k].plantName != batch[j].plantName
  }

  /**
   * The fallback loop of a failed batch: each plant's name is mapped to
   * `rule` of that plant, a later plant with the same name overwriting an
   * earlier one. The pass itself uses `rule := ItemFlag`; the map lemmas
   * below hold for any rule.
   */
  function Fallback(flags: map<string, string>, batch: seq<AnalysisItem>, rule: AnalysisItem -> string): map<string, string>
    decreases |batch|
  {
    if |batch| == 0 then flags
    else
      var n := |batch| - 1;
      Fallback(flags, batch[..n], rule)[batch[n].plantName := rule(batch[n])]
  }

  lemma NamesOfSnoc(batch: seq<AnalysisItem>)
    requires |batch| > 0
    ensures NamesOf(batch) == NamesOf(batch[..|batch| - 1]) + {batch[|batch| - 1].plantName}
  {
    var n := |batch| - 1;
    assert forall j :: 0 <= j < n ==> batch[..n][j] == batch[j];
  }

  /** After the fallback every name of the batch is a key, and other keys keep their value. */
  lemma {:induction false} FallbackKeys(flags: map<string, string>, batch: seq<AnalysisItem>, rule: AnalysisItem -> string)
    ensures Fallback(flags, batch, rule).Keys == flags.Keys + NamesOf(batch)
    ensures forall name :: name in flags && name !in NamesOf(batch) ==> Fallback(flags, batch, rule)[name] == flags[name]
    decreases |batch|
  {
    if |batch| > 0 {
      FallbackKeys(flags, batch[..|batch| - 1], rule);
      NamesOfSnoc(batch);
    }
  }

  /** A name's fallback flag is the rule applied to the last plant in the batch with that name. */
  lemma {:induction false} FallbackLastWins(flags: map<string, string>, batch: seq<AnalysisItem>, rule: AnalysisItem -> string, j: int)
    requires LastOfName(batch, j)
    ensures batch[j].plantName in Fallback(flags, batch, rule)
    ensures Fallback(flags, batch, rule)[batch[j].plantName] == rule(batch[j])
    decreases |batch|
  {
    var n := |batch| - 1;
    if j < n {
      var prefix := batch[..n];
      assert prefix[j] == batch[j];
      assert LastOfName(prefix, j);
      FallbackLastWins(flags, prefix, rule, j);
    }
  }

  lemma {:induction false} FallbackConcat(flags: map<string, string>, a: seq<AnalysisItem>, b: seq<AnalysisItem>, rule: AnalysisItem -> string)
    ensures Fallback(flags, a + b, rule) == Fallback(Fallback(flags, a, rule), b, rule)
    decreases |b|
  {
    if |b| > 0 {
      var n := |b| - 1;
      assert (a + b)[..|a + b| - 1] == a + b[..n];
      FallbackConcat(flags, a, b[..n], rule);
    } else {
      assert a + b == a;
    }
  }

  /** One round of the batch loop: `flagged_plants.update(flags)` on success, the fallback otherwise. */
  function ApplyBatch(flags: map<string, string>, batch: seq<AnalysisItem>, reply: AiReply, rule: AnalysisItem -> string): map<string, string> {
    if Succeeded(reply) then flags + reply.flags else Fallback(flags, batch, rule)
  }

  /** `flagged_plants` after the given batches, batch `k` answered by `analyze(k, batch)`. */
  function FlagsAfter(batches: seq<seq<AnalysisItem>>, analyze: (nat, seq<AnalysisItem>) -> AiReply, rule: AnalysisItem -> string): map<string, string>
    decreases |batches|
  {
    if |batches| == 0 then map[]
    else
      var k := |batches| - 1;
      ApplyBatch(FlagsAfter(batches[..k], analyze, rule), batches[k], analyze(k, batches[k]), rule)
  }

  /** `successful_ai_analyses`: the number of items in batches that succeeded. */
  function SucceededItems(batches: seq<seq<AnalysisItem>>, analyze: (nat, seq<AnalysisItem>) -> AiReply): nat
    decreases |batches|
  {
    if |batches| == 0 then 0
    else
      var k := |batches| - 1;
      SucceededItems(batches[..k], analyze) + (if Succeeded(analyze(k, batches[k])) then |batches[k]| else 0)
  }

  /** The name-to-flag map the whole pass builds for `records`. */
  function PlantFlags(records: seq<EnrichedPlant>, analyze: (nat, seq<AnalysisItem>) -> AiReply): map<string, string> {
    FlagsAfter(Batches(AnalysisData(records)), analyze, ItemFlag)
  }

  /** The final `capacityFactorFlag` of a record: "AI_" + the map's flag for its name, else its basic flag. */
  function FinalFlag(e: EnrichedPlant, flags: map<string, string>): string {
    if e.plantName in flags then AiPrefix + flags[e.plantName] else RecordFlag(e)
  }

  /** Whether a round of the batch loop writes `name` into the map. */
  ghost predicate Touches(batch: seq<AnalysisItem>, reply: AiReply, name: string) {
    if Succeeded(reply) then name in reply.flags else name in NamesOf(batch)
  }

  lemma ApplyBatchUntouched(flags: map<string, string>, batch: seq<AnalysisItem>, reply: AiReply, rule: AnalysisItem -> string, name: string)
    requires !Touches(batch, reply, name)
    ensures name in ApplyBatch(flags, batch, reply, rule) <==> name in flags
    ensures name in flags ==> ApplyBatch(flags, batch, reply, rule)[name] == flags[name]
  {
    FallbackKeys(flags, batch, rule);
  }

  /** Rounds that do not write `name` leave its entry as it was after the first `k` rounds. */
  lemma {:induction false} FlagsAfterUntouched(batches: seq<seq<AnalysisItem>>, analyze: (nat, seq<AnalysisItem>) -> AiReply, rule: AnalysisItem -> string,
                                               name: string, k: nat)
    requires k <= |batches|
    requires forall j :: k <= j < |batches| ==> !Touches(batches[j], analyze(j, batches[j]), name)
    ensures name in FlagsAfter(batches, analyze, rule) <==> name in FlagsAfter(batches[..k], analyze, rule)
    ensures name in FlagsAfter(batches[..k], analyze, rule) ==>
      FlagsAfter(batches, analyze, rule)[name] == FlagsAfter(batches[..k], analyze, rule)[name]
    decreases |batches|
  {
    if |batches| > k {
      var n := |batches| - 1;
      var prefix := batches[..n];
      assert prefix[..k] == batches[..k];
      assert forall j :: k <= j < n ==> prefix[j] == batches[j];
      FlagsAfterUntouched(prefix, analyze, rule, name, k);
      var reply := analyze(n, batches[n]);
      assert FlagsAfter(batches, analyze, rule) == ApplyBatch(FlagsAfter(prefix, analyze, rule), batches[n], reply, rule);
      ApplyBatchUntouched(FlagsAfter(prefix, analyze, rule), batches[n], reply, rule, name);
    } else {
      assert batches[..k] == batches;
    }
  }

  lemma FlagsAfterLast(batches: seq<seq<AnalysisItem>>, analyze: (nat, seq<AnalysisItem>) -> AiReply, rule: AnalysisItem -> string, k: nat)
    requires k < |batches|
    ensures FlagsAfter(batches[..k + 1], analyze, rule)
         == ApplyBatch(FlagsAfter(batches[..k], analyze, rule), batches[k], analyze(k, batches[k]), rule)
  {
    assert batches[..k + 1][..k] == batches[..k];
  }

  /**
   * Last write wins: a flag returned by a successful batch is the final one
   * for its name when no later round writes that name.
   */
  lemma LastWriteWins(batches: seq<seq<AnalysisItem>>, analyze: (nat, seq<AnalysisItem>) -> AiReply, rule: AnalysisItem -> string, k: nat, name: string)
    requires k < |batches|
    requires Succeeded(analyze(k, batches[k])) && name in analyze(k, batches[k]).flags
    requires forall j :: k < j < |batches| ==> !Touches(batches[j], analyze(j, batches[j]), name)
    ensures name in FlagsAfter(batches, analyze, rule)
    ensures FlagsAfter(batches, analyze, rule)[name] == analyze(k, batches[k]).flags[name]
  {
    FlagsAfterLast(batches, analyze, rule, k);
    FlagsAfterUntouched(batches, analyze, rule, name, k + 1);
  }

  /**
   * A failed batch maps each of its plants to the fallback rule of that
   * plant, unless a later plant of the same name, or a later round, writes
   * the name again.
   */
  lemma FailedBatchFallsBack(batches: seq<seq<AnalysisItem>>, analyze: (nat, seq<AnalysisItem>) -> AiReply, rule: AnalysisItem -> string, k: nat, j: int)
    requires k < |batches| && !Succeeded(analyze(k, batches[k]))
    requires LastOfName(batches[k], j)
    requires forall m :: k < m < |batches| ==> !Touches(batches[m], analyze(m, batches[m]), batches[k][j].plantName)
    ensures batches[k][j].plantName in FlagsAfter(batches, analyze, rule)
    ensures FlagsAfter(batches, analyze, rule)[batches[k][j].plantName] == rule(batches[k][j])
  {
    FlagsAfterLast(batches, analyze, rule, k);
    FallbackLastWins(FlagsAfter(batches[..k], analyze, rule), batches[k], rule, j);
    FlagsAfterUntouched(batches, analyze, rule, batches[k][j].plantName, k + 1);
  }

  /** A name no round writes is not a key, so records with that name keep their basic flag. */
  lemma NeverWrittenStaysBasic(batches: seq<seq<AnalysisItem>>, analyze: (nat, seq<AnalysisItem>) -> AiReply, rule: AnalysisItem -> string, e: EnrichedPlant)
    requires forall j :: 0 <= j < |batches| ==> !Touches(batches[j], analyze(j, batches[j]), e.plantName)
    ensures e.plantName !in FlagsAfter(batches, analyze, rule)
    ensures FinalFlag(e, FlagsAfter(batches, analyze, rule)) == RecordFlag(e)
  {
    FlagsAfterUntouched(batches, analyze, rule, e.plantName, 0);
  }

  /** When every round fails, the map is the fallback over all items in order. */
  lemma {:induction false} AllFailedIsFallback(batches: seq<seq<AnalysisItem>>, analyze: (nat, seq<AnalysisItem>) -> AiReply, rule: AnalysisItem -> string)
    requires forall k :: 0 <= k < |batches| ==> !Succeeded(analyze(k, batches[k]))
    ensures FlagsAfter(batches, analyze, rule) == Fallback(map[], Flatten(batches), rule)
    decreases |batches|
  {
    if |batches| > 0 {
      var n := |batches| - 1;
      AllFailedIsFallback(batches[..n], analyze, rule);
      FallbackConcat(map[], Flatten(batches[..n]), batches[n], rule);
    }
  }

  /** Every item comes from an earlier record, so none shares the name of a later record. */
  lemma ItemNamesBefore(records: seq<EnrichedPlant>, n: nat)
    requires n < |records|
    requires forall i :: 0 <= i < n ==> records[i].plantName != records[n].plantName
    ensures forall k :: 0 <= k < |AnalysisData(records[..n])| ==> AnalysisData(records[..n])[k].plantName != records[n].plantName
  {
    var prefix := records[..n];
    var before := AnalysisData(prefix);
    forall k | 0 <= k < |before| ensures before[k].plantName != records[n].plantName {
      var i :| 0 <= i < |prefix| && Eligible(prefix[i]) && before[k] == ItemOf(prefix[i]);
      assert prefix[i] == records[i];
    }
  }

  /** Distinct record names give distinct item names. */
  lemma {:induction false} AnalysisNamesDistinct(records: seq<EnrichedPlant>)
    requires forall i, j :: 0 <= i < j < |records| ==> records[i].plantName != records[j].plantName
    ensures forall k1, k2 :: 0 <= k1 < k2 < |AnalysisData(records)| ==>
      AnalysisData(records)[k1].plantName != AnalysisData(records)[k2].plantName
    decreases |records|
  {
    if |records| > 0 {
      var n := |records| - 1;
      var prefix := records[..n];
      assert forall i, j :: 0 <= i < j < n ==> prefix[i] == records[i] && prefix[j] == records[j];
      AnalysisNamesDistinct(prefix);
      ItemNamesBefore(records, n);
      var before := AnalysisData(prefix);
      if Eligible(records[n]) {
        var items := before + [ItemOf(records[n])];
        assert AnalysisData(records) == items;
        forall k1, k2 | 0 <= k1 < k2 < |items| ensures items[k1].plantName != items[k2].plantName {
          if k2 < |before| {
            assert items[k1] == before[k1] && items[k2] == before[k2];
          } else {
            assert items[k1] == before[k1];
          }
        }
      } else {
        assert AnalysisData(records) == before;
      }
    }
  }

  /** With all calls failing, the pass's map is the fallback over `analysis_data`. */
  lemma AllFailedFlags(items: seq<AnalysisItem>, analyze: (nat, seq<AnalysisItem>) -> AiReply, rule: AnalysisItem -> string)
    requires forall k: nat, b: seq<AnalysisItem> :: !Succeeded(analyze(k, b))
    ensures FlagsAfter(Batches(items), analyze, rule) == Fallback(map[], items, rule)
  {
    BatchesPartition(items);
    AllFailedIsFallback(Batches(items), analyze, rule);
  }

  /** Over items with distinct names, the fallback maps exactly those names, each to its own item's rule. */
  lemma FallbackDistinct(items: seq<AnalysisItem>, rule: AnalysisItem -> string)
    requires forall k1, k2 :: 0 <= k1 < k2 < |items| ==> items[k1].plantName != items[k2].plantName
    ensures Fallback(map[], items, rule).Keys == NamesOf(items)
    ensures forall j :: 0 <= j < |items| ==> Fallback(map[], items, rule)[items[j].plantName] == rule(items[j])
  {
    FallbackKeys(map[], items, rule);
    forall j | 0 <= j < |items| ensures Fallback(map[], items, rule)[items[j].plantName] == rule(items[j]) {
      assert LastOfName(items, j);
      FallbackLastWins(map[], items, rule, j);
    }
  }

  /** A record that is not sent to the AI pass shares its name with no item, when names are distinct. */
  lemma IneligibleNotNamed(records: seq<EnrichedPlant>, i: int)
    requires forall i, j :: 0 <= i < j < |records| ==> records[i].plantName != records[j].plantName
    requires 0 <= i < |records| && !Eligible(records[i])
    ensures records[i].plantName !in NamesOf(AnalysisData(records))
  {
    var items := AnalysisData(records);
    forall j | 0 <= j < |items| ensures items[j].plantName != records[i].plantName {
      var i' :| 0 <= i' < |records| && Eligible(records[i']) && items[j] == ItemOf(records[i']);
    }
  }

  /**
   * When every round fails and record names are distinct, each eligible
   * record's name maps to the rule of its own item and no other name is a key.
   */
  lemma AllFailedMap(records: seq<EnrichedPlant>, analyze: (nat, seq<AnalysisItem>) -> AiReply, rule: AnalysisItem -> string)
    requires forall k: nat, b: seq<AnalysisItem> :: !Succeeded(analyze(k, b))
    requires forall i, j :: 0 <= i < j < |records| ==> records[i].plantName != records[j].plantName
    ensures forall i :: 0 <= i < |records| ==>
      (records[i].plantName in FlagsAfter(Batches(AnalysisData(records)), analyze, rule) <==> Eligible(records[i]))
    ensures forall i :: 0 <= i < |records| && Eligible(records[i]) ==>
      FlagsAfter(Batches(AnalysisData(records)), analyze, rule)[records[i].plantName] == rule(ItemOf(records[i]))
  {
    var items := AnalysisData(records);
    AllFailedFlags(items, analyze, rule);
    AnalysisNamesDistinct(records);
    FallbackDistinct(items, rule);
    var flags := Fallback(map[], items, rule);
    forall i | 0 <= i < |records|
      ensures records[i].plantName in flags <==> Eligible(records[i])
      ensures Eligible(records[i]) ==> flags[records[i].plantName] == rule(ItemOf(records[i]))
    {
      if Eligible(records[i]) {
        var j :| 0 <= j < |items| && items[j] == ItemOf(records[i]);
        assert records[i].plantName == items[j].plantName;
      } else {
        IneligibleNotNamed(records, i);
      }
    }
  }

  /** The fallback rule agrees with the basic flag of the record an item came from. */
  lemma ItemFlagOfRecord(e: EnrichedPlant)
    requires Eligible(e)
    ensures ItemFlag(ItemOf(e)) == RecordFlag(e)
  {
  }

  /**
   * When every AI call fails and plant names are distinct, every eligible
   * record ends with "AI_" + its own basic flag and every other record keeps
   * its basic flag: the fallback flags are prefixed like any AI answer.
   */
  lemma AllBatchesFailed(records: seq<EnrichedPlant>, analyze: (nat, seq<AnalysisItem>) -> AiReply)
    requires forall k: nat, b: seq<AnalysisItem> :: !Succeeded(analyze(k, b))
    requires forall i, j :: 0 <= i < j < |records| ==> records[i].plantName != records[j].plantName
    ensures forall i :: 0 <= i < |records| ==>
      FinalFlag(records[i], PlantFlags(records, analyze))
        == if Eligible(records[i]) then AiPrefix + RecordFlag(records[i]) else RecordFlag(records[i])
  {
    AllFailedMap(records, analyze, ItemFlag);
    forall i | 0 <= i < |records| && Eligible(records[i]) ensures ItemFlag(ItemOf(records[i])) == RecordFlag(records[i]) {
      ItemFlagOfRecord(records[i]);
    }
  }

  /** The loop that fills `analysis_data`. */
  method CollectAnalysisData(records: seq<EnrichedPlant>) returns (analysis: seq<AnalysisItem>)
    ensures analysis == AnalysisData(records)
  {
    analysis := [];
    for i := 0 to |records|
      invariant analysis == AnalysisData(records[..i])
    {
      var row := records[i];
      if row.capacityFactorPercent.Some? && row.fuelTypeDescription.Some? {
        analysis := analysis + [AnalysisItem(row.plantName, row.fuelTypeDescription.value,
                                             row.capacityFactorPercent.value, row.totalCapacityMW, row.state)];
      }
      assert records[..i + 1][..i] == records[..i];
    }
    assert records[..|records|] == records;
  }

  /** The inner loop of a failed batch. */
  method FallbackFlags(flags: map<string, string>, batch: seq<AnalysisItem>) returns (updated: map<string, string>)
    ensures updated == Fallback(flags, batch, ItemFlag)
  {
    updated := flags;
    for j := 0 to |batch|
      invariant updated == Fallback(flags, batch[..j], ItemFlag)
    {
      var plant := batch[j];
      updated := updated[plant.plantName := ItemFlag(plant)];
      assert batch[..j + 1][..j] == batch[..j];
    }
    assert batch[..|batch|] == batch;
  }

  /** The batch loop, with its success and failure counters. */
  method ProcessBatches(items: seq<AnalysisItem>, analyze: (nat, seq<AnalysisItem>) -> AiReply)
    returns (flags: map<string, string>, successful: nat, failed: nat)
    ensures flags == FlagsAfter(Batches(items), analyze, ItemFlag)
    ensures successful + failed == |items|
    ensures successful == SucceededItems(Batches(items), analyze)
  {
    flags, successful, failed := map[], 0, 0;
    var i := 0;
    var k: nat := 0;
    BatchCountBound(items, 0);
    while i < |items|
      invariant i == k * BatchSize
      invariant k <= |Batches(items)|
      invariant k < |Batches(items)| <==> i < |items|
      invariant successful + failed == if i < |items| then i else |items|
      invariant flags == FlagsAfter(Batches(items)[..k], analyze, ItemFlag)
      invariant successful == SucceededItems(Batches(items)[..k], analyze)
      decreases |items| - i
    {
      var end := if i + BatchSize < |items| then i + BatchSize else |items|;
      var batch := items[i..end];
      BatchAt(items, k);
      assert batch == Batches(items)[k];
      var reply := analyze(k, batch);
      if reply.success && |reply.flags| > 0 {
        flags := flags + reply.flags;
        successful := successful + |batch|;
      } else {
        failed := failed + |batch|;
        flags := FallbackFlags(flags, batch);
      }
      assert Batches(items)[..k + 1][..k] == Batches(items)[..k];
      i := i + BatchSize;
      k := k + 1;
      BatchCountBound(items, k);
    }
    assert Batches(items)[..k] == Batches(items);
  }

  /** The final loop: every record whose name is a key gets "AI_" + that key's flag. */
  method ApplyFlags(records: seq<EnrichedPlant>, column: seq<string>, flags: map<string, string>)
    returns (updated: seq<string>)
    requires |column| == |records|
    ensures |updated| == |records|
    ensures forall j :: 0 <= j < |records| ==>
      updated[j] == if records[j].plantName in flags then AiPrefix + flags[records[j].plantName] else column[j]
  {
    updated := column;
    var remaining := flags.Keys;
    while remaining != {}
      invariant remaining <= flags.Keys
      invariant |updated| == |records|
      invariant forall j :: 0 <= j < |records| ==>
        updated[j] == if records[j].plantName in flags && records[j].plantName !in remaining
                      then AiPrefix + flags[records[j].plantName] else column[j]
      decreases remaining
    {
      var name :| name in remaining;
      var flag := AiPrefix + flags[name];
      for j := 0 to |records|
        invariant |updated| == |records|
        invariant forall m :: 0 <= m < |records| ==>
          updated[m] == if records[m].plantName in flags
                           && (records[m].plantName !in remaining || (m < j && records[m].plantName == name))
                        then AiPrefix + flags[records[m].plantName] else column[m]
      {
        if records[j].plantName == name {
          updated := updated[j := flag];
        }
      }
      remaining := remaining - {name};
    }
  }

  /**
   * `enrich_with_deepseek` once the merged records are loaded: basic flags
   * first, then the AI pass, then the overwrite by name. Returns the flagged
   * records and the success and failure counters.
   */
  method EnrichWithAi(records: seq<EnrichedPlant>, analyze: (nat, seq<AnalysisItem>) -> AiReply)
    returns (flagged: seq<FlaggedPlant>, successful: nat, failed: nat)
    ensures |flagged| == |records|
    ensures forall i :: 0 <= i < |records| ==>
      flagged[i] == FlaggedPlant(records[i], FinalFlag(records[i], PlantFlags(records, analyze)))
    ensures successful + failed == |AnalysisData(records)|
    ensures successful == SucceededItems(Batches(AnalysisData(records)), analyze)
  {
    var column := seq(|records|, i requires 0 <= i < |records| => RecordFlag(records[i]));
    var analysis := CollectAnalysisData(records);
    var flags;
    flags, successful, failed := ProcessBatches(analysis, analyze);
    column := ApplyFlags(records, column, flags);
    flagged := seq(|records|, i requires 0 <= i < |records| => FlaggedPlant(records[i], column[i]));
  }
}
