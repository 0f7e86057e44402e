/** `apply_geographic_filter`: keeps the plants whose state abbreviation is selected. */
module GeoFilter {
  import opened Wrappers
  import opened Records
  import Seqs

  const NoFilter := "all"

  /** The full-name to postal-abbreviation table of `apply_geographic_filter`. */
  const StateMapping: map<string, string> := map[
    "Alabama" := "AL", "Alaska" := "AK", "Arizona" := "AZ", "Arkansas" := "AR",
    "California" := "CA", "Colorado" := "CO", "Connecticut" := "CT", "Delaware" := "DE",
    "Florida" := "FL", "Georgia" := "GA", "Hawaii" := "HI", "Idaho" := "ID",
    "Illinois" := "IL", "Indiana" := "IN", "Iowa" := "IA", "Kansas" := "KS",
    "Kentucky" := "KY", "Louisiana" := "LA", "Maine" := "ME", "Maryland" := "MD",
    "Massachusetts" := "MA", "Michigan" := "MI", "Minnesota" := "MN", "Mississippi" := "MS",
    "Missouri" := "MO", "Montana" := "MT", "Nebraska" := "NE", "Nevada" := "NV",
    "New Hampshire" := "NH", "New Jersey" := "NJ", "New Mexico" := "NM", "New York" := "NY",
    "North Carolina" := "NC", "North Dakota" := "ND", "Ohio" := "OH", "Oklahoma" := "OK",
    "Oregon" := "OR", "Pennsylvania" := "PA", "Rhode Island" := "RI", "South Carolina" := "SC",
    "South Dakota" := "SD", "Tennessee" := "TN", "Texas" := "TX", "Utah" := "UT",
    "Vermont" := "VT", "Virginia" := "VA", "Washington" := "WA", "West Virginia" := "WV",
    "Wisconsin" := "WI", "Wyoming" := "WY", "District of Columbia" := "DC"]

  /** `Series.map(state_mapping)`: NaN for a name the table does not know. */
  function AbbreviationOf(stateDescription: string): Option<string> {
    if stateDescription in StateMapping then Some(StateMapping[stateDescription]) else None
  }

  /** The record with the `stateAbbr` column filled in. */
  function WithAbbreviation(e: EnrichedPlant): EnrichedPlant {
    e.(stateAbbr := AbbreviationOf(e.stateDescription))
  }

  function Tagged(records: seq<EnrichedPlant>): seq<EnrichedPlant> {
    seq(|records|, i requires 0 <= i < |records| => WithAbbreviation(records[i]))
  }

  /** `df['stateAbbr'].isin(filter_list)`: a NaN abbreviation is never selected. */
  function Selected(selection: seq<string>): EnrichedPlant -> bool {
    (e: EnrichedPlant) => e.stateAbbr.Some? && e.stateAbbr.value in selection
  }

  /**
   * `apply_geographic_filter`: the input itself for "all" or no list;
   * otherwise the tagged records whose abbreviation is in the list, in order.
   */
  function ApplyGeographicFilter(records: seq<EnrichedPlant>, filterType: string,
                                 filterList: Option<seq<string>>): (r: seq<EnrichedPlant>)
    ensures filterType == "all" || filterList.None? ==> r == records
    ensures filterType != "all" && filterList.Some? ==>
      && (forall i :: 0 <= i < |r| ==>
            && r[i] in Tagged(records)
            && r[i].stateDescription in StateMapping
            && r[i].stateAbbr == Some(StateMapping[r[i].stateDescription])
            && StateMapping[r[i].stateDescription] in filterList.value)
      && (forall i :: 0 <= i < |records| && records[i].stateDescription in StateMapping
                      && StateMapping[records[i].stateDescription] in filterList.value
                      ==> WithAbbreviation(records[i]) in r)
  {
    if filterType == NoFilter || filterList.None? then records
    else
      var tagged := Tagged(records);
      var r := Seqs.Filter(tagged, Selected(filterList.value));
      assert forall i :: 0 <= i < |records| ==> tagged[i] == WithAbbreviation(records[i]);
      assert forall e :: e in tagged ==> e.stateAbbr == AbbreviationOf(e.stateDescription);
      r
  }

  /** The filter keeps relative order: it acts on each part of a concatenation separately. */
  lemma GeographicFilterConcat(a: seq<EnrichedPlant>, b: seq<EnrichedPlant>, filterType: string,
                               filterList: Option<seq<string>>)
    requires filterType != "all" && filterList.Some?
    ensures ApplyGeographicFilter(a + b, filterType, filterList)
         == ApplyGeographicFilter(a, filterType, filterList) + ApplyGeographicFilter(b, filterType, filterList)
  {
    assert Tagged(a + b) == Tagged(a) + Tagged(b);
    Seqs.FilterConcat(Tagged(a), Tagged(b), Selected(filterList.value));
  }

  /**
   * Each selected record is kept exactly as often as it occurs, tagged, in
   * the input; a record that is not selected never occurs in the output.
   */
  lemma GeographicFilterCounts(records: seq<EnrichedPlant>, filterType: string, selection: seq<string>,
                               e: EnrichedPlant)
    requires filterType != "all"
    ensures multiset(ApplyGeographicFilter(records, filterType, Some(selection)))[e]
         == if Selected(selection)(e) then multiset(Tagged(records))[e] else 0
  {
    Seqs.FilterMultiset(Tagged(records), Selected(selection), e);
  }
}
