/**
 * `flag_basic_capacity_factor`: the deterministic capacity-factor flag, an
 * ordered chain of case-insensitive substring checks on the fuel description
 * with an inclusive expected range per fuel category.
 */
module Classifier {
  import opened Wrappers
  import opened Strings

  const NoData := "No_Data"
  const Normal := "Normal"
  const UnusualNuclear := "Unusual_Nuclear"
  const UnusualFossil := "Unusual_Fossil"
  const UnusualHydro := "Unusual_Hydro"
  const UnusualWind := "Unusual_Wind"
  const UnusualSolar := "Unusual_Solar"

  /** Every flag the deterministic rule can produce. */
  const BasicLabels: set<string> :=
    {NoData, Normal, UnusualNuclear, UnusualFossil, UnusualHydro, UnusualWind, UnusualSolar}

  predicate IsNuclear(text: string) { Contains(text, "nuclear") }
  predicate IsFossil(text: string) {
    Contains(text, "natural gas") || Contains(text, "gas") || Contains(text, "coal")
  }
  predicate IsHydro(text: string) { Contains(text, "hydro") || Contains(text, "water") }
  predicate IsWind(text: string) { Contains(text, "wind") }
  predicate IsSolar(text: string) { Contains(text, "solar") || Contains(text, "sun") }

  /** `str(row.get('fuelTypeDescription', '')).lower()`; a NaN description reads as "nan". */
  function FuelText(fuelDescription: Option<string>): string {
    Lower(fuelDescription.GetOr("nan"))
  }

  /** `cf < lo or cf > hi` */
  predicate OutOfRange(cf: real, lo: real, hi: real) { cf < lo || cf > hi }

  /** The deterministic flag for a capacity factor and a fuel description. */
  function BasicFlag(capacityFactor: Option<real>, fuelDescription: Option<string>): (r: string)
    ensures r in BasicLabels
  {
    if capacityFactor.None? then NoData
    else
      var cf := capacityFactor.value;
      var text := FuelText(fuelDescription);
      if IsNuclear(text) then (if OutOfRange(cf, 70.0, 110.0) then UnusualNuclear else Normal)
      else if IsFossil(text) then (if OutOfRange(cf, 20.0, 90.0) then UnusualFossil else Normal)
      else if IsHydro(text) then (if OutOfRange(cf, 10.0, 80.0) then UnusualHydro else Normal)
      else if IsWind(text) then (if OutOfRange(cf, 5.0, 60.0) then UnusualWind else Normal)
      else if IsSolar(text) then (if OutOfRange(cf, 5.0, 50.0) then UnusualSolar else Normal)
      else Normal
  }

  /** "No_Data" exactly when the capacity factor is missing, whatever the fuel. */
  lemma NoDataIffMissing(capacityFactor: Option<real>, fuelDescription: Option<string>)
    ensures BasicFlag(capacityFactor, fuelDescription) == "No_Data" <==> capacityFactor.None?
  {
  }

  /**
   * A missing description reads as the text "nan", which holds no keyword of
   * any category, so a plant with a capacity factor but no fuel is "Normal".
   */
  lemma MissingFuelIsNormal(cf: real)
    ensures FuelText(None) == "nan"
    ensures BasicFlag(Some(cf), None) == "Normal"
  {
    assert Lower("nan") == "nan";
    assert "nan"[..3] == "nan";
    assert "nan"[0] != "gas"[0] && "nan"[0] != "sun"[0];
    assert !Contains("an", "gas") && !Contains("an", "sun");
    assert !Contains("nan", "gas") && !Contains("nan", "sun");
  }

  /** The keyword tests, read as "the word occurs at some position of the lower-cased text". */
  lemma KeywordsAsOccurrences(text: string)
    ensures IsNuclear(text) <==> Mentions(text, "nuclear")
    ensures IsFossil(text) <==> Mentions(text, "natural gas") || Mentions(text, "gas") || Mentions(text, "coal")
    ensures IsHydro(text) <==> Mentions(text, "hydro") || Mentions(text, "water")
    ensures IsWind(text) <==> Mentions(text, "wind")
    ensures IsSolar(text) <==> Mentions(text, "solar") || Mentions(text, "sun")
  {
    ContainsIff(text, "nuclear");
    ContainsIff(text, "natural gas");
    ContainsIff(text, "gas");
    ContainsIff(text, "coal");
    ContainsIff(text, "hydro");
    ContainsIff(text, "water");
    ContainsIff(text, "wind");
    ContainsIff(text, "solar");
    ContainsIff(text, "sun");
  }

  /**
   * Any description mentioning nuclear (in any letter case) is judged on the
   * nuclear range alone: "Unusual_Nuclear" exactly outside [70, 110], else "Normal".
   */
  lemma NuclearRule(cf: real, fuel: string)
    requires Mentions(Lower(fuel), "nuclear")
    ensures BasicFlag(Some(cf), Some(fuel)) == "Unusual_Nuclear" <==> cf < 70.0 || cf > 110.0
    ensures BasicFlag(Some(cf), Some(fuel)) in {"Unusual_Nuclear", "Normal"}
  {
    KeywordsAsOccurrences(Lower(fuel));
  }

  /** Each later category's rule fires only when no earlier category matched. */
  lemma FossilRule(cf: real, fuel: string)
    requires !Mentions(Lower(fuel), "nuclear")
    requires Mentions(Lower(fuel), "gas") || Mentions(Lower(fuel), "coal")
    ensures BasicFlag(Some(cf), Some(fuel)) == "Unusual_Fossil" <==> cf < 20.0 || cf > 90.0
    ensures BasicFlag(Some(cf), Some(fuel)) in {"Unusual_Fossil", "Normal"}
  {
    KeywordsAsOccurrences(Lower(fuel));
  }

  lemma HydroRule(cf: real, fuel: string)
    requires !Mentions(Lower(fuel), "nuclear") && !Mentions(Lower(fuel), "gas") && !Mentions(Lower(fuel), "coal")
    requires Mentions(Lower(fuel), "hydro") || Mentions(Lower(fuel), "water")
    ensures BasicFlag(Some(cf), Some(fuel)) == "Unusual_Hydro" <==> cf < 10.0 || cf > 80.0
    ensures BasicFlag(Some(cf), Some(fuel)) in {"Unusual_Hydro", "Normal"}
  {
    KeywordsAsOccurrences(Lower(fuel));
    NaturalGasMentionsGas(Lower(fuel));
  }

  lemma WindRule(cf: real, fuel: string)
    requires !Mentions(Lower(fuel), "nuclear") && !Mentions(Lower(fuel), "gas") && !Mentions(Lower(fuel), "coal")
    requires !Mentions(Lower(fuel), "hydro") && !Mentions(Lower(fuel), "water")
    requires Mentions(Lower(fuel), "wind")
    ensures BasicFlag(Some(cf), Some(fuel)) == "Unusual_Wind" <==> cf < 5.0 || cf > 60.0
    ensures BasicFlag(Some(cf), Some(fuel)) in {"Unusual_Wind", "Normal"}
  {
    KeywordsAsOccurrences(Lower(fuel));
    NaturalGasMentionsGas(Lower(fuel));
  }

  lemma SolarRule(cf: real, fuel: string)
    requires !Mentions(Lower(fuel), "nuclear") && !Mentions(Lower(fuel), "gas") && !Mentions(Lower(fuel), "coal")
    requires !Mentions(Lower(fuel), "hydro") && !Mentions(Lower(fuel), "water") && !Mentions(Lower(fuel), "wind")
    requires Mentions(Lower(fuel), "solar") || Mentions(Lower(fuel), "sun")
    ensures BasicFlag(Some(cf), Some(fuel)) == "Unusual_Solar" <==> cf < 5.0 || cf > 50.0
    ensures BasicFlag(Some(cf), Some(fuel)) in {"Unusual_Solar", "Normal"}
  {
    KeywordsAsOccurrences(Lower(fuel));
    NaturalGasMentionsGas(Lower(fuel));
  }

  /** A description that mentions no category keyword is always "Normal". */
  lemma UnmatchedIsNormal(cf: real, fuel: string)
    requires !Mentions(Lower(fuel), "nuclear") && !Mentions(Lower(fuel), "gas") && !Mentions(Lower(fuel), "coal")
    requires !Mentions(Lower(fuel), "hydro") && !Mentions(Lower(fuel), "water") && !Mentions(Lower(fuel), "wind")
    requires !Mentions(Lower(fuel), "solar") && !Mentions(Lower(fuel), "sun")
    ensures BasicFlag(Some(cf), Some(fuel)) == "Normal"
  {
    KeywordsAsOccurrences(Lower(fuel));
    NaturalGasMentionsGas(Lower(fuel));
  }

  /** "natural gas" is subsumed by "gas": the first fossil keyword never decides anything alone. */
  lemma NaturalGasMentionsGas(text: string)
    ensures Mentions(text, "natural gas") ==> Mentions(text, "gas")
  {
    if Mentions(text, "natural gas") {
      var i :| OccursAt(text, "natural gas", i);
      assert text[i + 8..i + 11] == text[i..i + 11][8..11];
      assert OccursAt(text, "gas", i + 8);
    }
  }

  /** Only the first matching category counts: an in-range nuclear plant that also burns gas is "Normal". */
  lemma NuclearBeforeFossil()
    ensures BasicFlag(Some(95.0), Some("Natural Gas, Nuclear")) == "Normal"
  {
    MixedTextMentionsNuclear();
    NuclearRule(95.0, "Natural Gas, Nuclear");
  }

  lemma MixedTextMentionsNuclear()
    ensures Mentions(Lower("Natural Gas, Nuclear"), "nuclear")
  {
    LowerMixedText();
    assert OccursAt("natural gas, nuclear", "nuclear", 13);
  }

  lemma LowerMixedText()
    ensures Lower("Natural Gas, Nuclear") == "natural gas, nuclear"
  {
  }

  lemma NaturalGasIsNotNuclear()
    ensures !Mentions("natural gas", "nuclear")
  {
    var gas := "natural gas";
    assert !OccursAt(gas, "nuclear", 0) by { assert gas[0..7][1] == 'a'; }
    assert !OccursAt(gas, "nuclear", 1) by { assert gas[1..8][0] == 'a'; }
    assert !OccursAt(gas, "nuclear", 2) by { assert gas[2..9][0] == 't'; }
    assert !OccursAt(gas, "nuclear", 3) by { assert gas[3..10][0] == 'u'; }
    assert !OccursAt(gas, "nuclear", 4) by { assert gas[4..11][0] == 'r'; }
  }

  /** A gas plant below the fossil range is flagged. */
  lemma LowGasIsUnusualFossil()
    ensures BasicFlag(Some(15.0), Some("Natural Gas")) == "Unusual_Fossil"
  {
    assert Lower("Natural Gas") == "natural gas";
    NaturalGasIsNotNuclear();
    assert OccursAt("natural gas", "gas", 8);
    FossilRule(15.0, "Natural Gas");
  }
}
