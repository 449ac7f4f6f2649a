/** The safety, utilities and environment dashboard: the per-school overall
    score and critical-issue tags, the KPI cards with their colours, the
    emergency-preparedness shares, the filter, the province comparison, the
    list of schools with several critical issues, and the recommendations. */
module Safety {
  import opened Wrappers
  import opened Stats
  import opened Ranking
  import opened Colours
  import opened Schools
  import opened Comparison

  /** The assumptions the dashboard makes about an inspection: indices in
      [0, 100], a hygiene index in [0, 1], 0/1 observation flags. */
  predicate WellFormed(r: Inspection)
  {
    0.0 <= r.safetyCompliance <= 100.0 && 0.0 <= r.utilitiesReliability <= 100.0 &&
    0.0 <= r.hygiene <= 1.0 &&
    0 <= r.accessDisabled <= 1 && 0 <= r.adequateLighting <= 1 && 0 <= r.adequateVentilation <= 1 &&
    0 <= r.waterAvailable <= 1 && 0 <= r.ptaPresent <= 1 && 0 <= r.firefightingTools <= 1 &&
    0 <= r.exitSigns <= 1 && 0 <= r.evacuationPlans <= 1 && 0 <= r.safetyDrills <= 1
  }

  // ---------------------------------------------------------------------------
  // Overall score.

  /** `calculate_overall_score`: 30% safety, 30% utilities, 20% hygiene and 20%
      for the share of the three accessibility observations. */
  function OverallScore(r: Inspection): real
  {
    r.safetyCompliance * 0.3 + r.utilitiesReliability * 0.3 + r.hygiene * 100.0 * 0.2 +
    (((r.accessDisabled + r.adequateLighting + r.adequateVentilation) as real) / 3.0) * 100.0 * 0.2
  }

  /** For a well-formed inspection the score lies in [0, 100]; it is 100
      exactly when every component is at its best. */
  lemma OverallScoreBounds(r: Inspection)
    requires WellFormed(r)
    ensures 0.0 <= OverallScore(r) <= 100.0
    ensures OverallScore(r) == 100.0 <==>
              r.safetyCompliance == 100.0 && r.utilitiesReliability == 100.0 && r.hygiene == 1.0 &&
              r.accessDisabled == 1 && r.adequateLighting == 1 && r.adequateVentilation == 1
  {
  }

  // ---------------------------------------------------------------------------
  // Critical issues of one school.

  const SafetyTag := "🔴 Safety"
  const NoWaterTag := "💧 No Water"
  const PoorElectricityTag := "⚡ Poor Electricity"
  const PoorHygieneTag := "🧼 Poor Hygiene"
  const NoAccessTag := "♿ No Access"
  const NoPtaTag := "👥 No PTA"

  const AllTags := [SafetyTag, NoWaterTag, PoorElectricityTag, PoorHygieneTag, NoAccessTag, NoPtaTag]

  function SafetyPart(r: Inspection): seq<string> { if r.safetyCompliance < 50.0 then [SafetyTag] else [] }
  function WaterPart(r: Inspection): seq<string> { if r.waterAvailable == 0 then [NoWaterTag] else [] }
  function ElectricityPart(r: Inspection): seq<string> { if r.electricityObserved < 0.5 then [PoorElectricityTag] else [] }
  function HygienePart(r: Inspection): seq<string> { if r.hygiene < 0.4 then [PoorHygieneTag] else [] }
  function AccessPart(r: Inspection): seq<string> { if r.accessDisabled == 0 then [NoAccessTag] else [] }
  function PtaPart(r: Inspection): seq<string> { if r.ptaPresent == 0 then [NoPtaTag] else [] }

  /** The tags that apply to a school, in the order they are appended. */
  function CriticalIssues(r: Inspection): seq<string>
  {
    SafetyPart(r) + WaterPart(r) + ElectricityPart(r) + HygienePart(r) + AccessPart(r) + PtaPart(r)
  }

  /** `identify_critical_issues`. */
  method IdentifyCriticalIssues(r: Inspection) returns (issues: seq<string>)
    ensures issues == CriticalIssues(r)
  {
    issues := [];
    if r.safetyCompliance < 50.0 {
      issues := issues + [SafetyTag];
    }
    assert issues == SafetyPart(r);
    if r.waterAvailable == 0 {
      issues := issues + [NoWaterTag];
    }
    assert issues == SafetyPart(r) + WaterPart(r);
    if r.electricityObserved < 0.5 {
      issues := issues + [PoorElectricityTag];
    }
    assert issues == SafetyPart(r) + WaterPart(r) + ElectricityPart(r);
    if r.hygiene < 0.4 {
      issues := issues + [PoorHygieneTag];
    }
    assert issues == SafetyPart(r) + WaterPart(r) + ElectricityPart(r) + HygienePart(r);
    if r.accessDisabled == 0 {
      issues := issues + [NoAccessTag];
    }
    assert issues == SafetyPart(r) + WaterPart(r) + ElectricityPart(r) + HygienePart(r) + AccessPart(r);
    if r.ptaPresent == 0 {
      issues := issues + [NoPtaTag];
    }
  }

  /** Each tag is present exactly when its condition holds. */
  lemma CriticalIssuesExact(r: Inspection)
    ensures SafetyTag in CriticalIssues(r) <==> r.safetyCompliance < 50.0
    ensures NoWaterTag in CriticalIssues(r) <==> r.waterAvailable == 0
    ensures PoorElectricityTag in CriticalIssues(r) <==> r.electricityObserved < 0.5
    ensures PoorHygieneTag in CriticalIssues(r) <==> r.hygiene < 0.4
    ensures NoAccessTag in CriticalIssues(r) <==> r.accessDisabled == 0
    ensures NoPtaTag in CriticalIssues(r) <==> r.ptaPresent == 0
    ensures forall t :: t in CriticalIssues(r) ==> t in AllTags
  {
    var a, b, c, d, e, f := SafetyPart(r), WaterPart(r), ElectricityPart(r), HygienePart(r), AccessPart(r), PtaPart(r);
    assert CriticalIssues(r) == a + b + c + d + e + f;
    assert forall t :: t in CriticalIssues(r) <==> t in a || t in b || t in c || t in d || t in e || t in f;
  }

  /** The tags keep the fixed order Safety, No Water, Poor Electricity, Poor
      Hygiene, No Access, No PTA, so there are at most six of them. */
  lemma CriticalIssuesInOrder(r: Inspection)
    ensures IsSubseq(CriticalIssues(r), AllTags)
    ensures |CriticalIssues(r)| <= 6
  {
    SixInOrder(SafetyTag, NoWaterTag, PoorElectricityTag, PoorHygieneTag, NoAccessTag, NoPtaTag,
               r.safetyCompliance < 50.0, r.waterAvailable == 0, r.electricityObserved < 0.5,
               r.hygiene < 0.4, r.accessDisabled == 0, r.ptaPresent == 0);
  }

  // ---------------------------------------------------------------------------
  // Schools with several critical issues.

  datatype CriticalSchool = CriticalSchool(school: string, province: string, issues: seq<string>, count: nat)

  function CriticalEntry(r: Inspection): CriticalSchool
  {
    CriticalSchool(r.place.schoolName, r.place.province, CriticalIssues(r), |CriticalIssues(r)|)
  }

  predicate MultipleIssues(r: Inspection)
  {
    |CriticalIssues(r)| >= 2
  }

  function IssueCount(c: CriticalSchool): int
  {
    c.count
  }

  function CountIs(k: int): CriticalSchool -> bool
  {
    (c: CriticalSchool) => c.count == k
  }

  /** The entries appended by the loop, in table order. */
  function CriticalEntries(data: seq<Inspection>): seq<CriticalSchool>
  {
    Map(Where(data, MultipleIssues), CriticalEntry)
  }

  /** The list after `sorted(..., key=count, reverse=True)`. */
  function CriticalSchools(data: seq<Inspection>): seq<CriticalSchool>
  {
    SortDesc(CriticalEntries(data), IssueCount)
  }

  datatype CriticalView = NoCriticalSchools | CriticalList(shown: seq<CriticalSchool>)

  /** What the table shows: the message, or the first ten entries. */
  function CriticalViewOf(data: seq<Inspection>): CriticalView
  {
    var sorted := CriticalSchools(data);
    if |sorted| == 0 then NoCriticalSchools else CriticalList(Take(sorted, 10))
  }

  /** `update_critical_issues` on the filtered table. */
  method UpdateCriticalIssues(data: seq<Inspection>) returns (view: CriticalView)
    ensures view == CriticalViewOf(data)
  {
    var critical: seq<CriticalSchool> := [];
    for i := 0 to |data|
      invariant critical == Map(Where(data[..i], MultipleIssues), CriticalEntry)
    {
      var row := data[i];
      var issues := IdentifyCriticalIssues(row);
      if |issues| >= 2 {
        critical := critical + [CriticalSchool(row.place.schoolName, row.place.province, issues, |issues|)];
      }
      MapWherePrefix(data, i, MultipleIssues, CriticalEntry);
    }
    assert data[..|data|] == data;
    var sorted := SortDesc(critical, IssueCount);
    if |sorted| == 0 {
      return NoCriticalSchools;
    }
    view := CriticalList(Take(sorted, 10));
  }

  /** Every entry of the sorted list stands for a school of the table with at
      least two issues, and every such school has its entry: the list is a
      permutation of the loop's entries, sorted by issue count, largest first. */
  lemma CriticalSchoolsExact(data: seq<Inspection>)
    ensures multiset(CriticalSchools(data)) == multiset(CriticalEntries(data))
    ensures SortedDesc(CriticalSchools(data), IssueCount)
    ensures forall i :: 0 <= i < |CriticalEntries(data)| ==>
              CriticalEntries(data)[i].count >= 2 &&
              CriticalEntries(data)[i].count == |CriticalEntries(data)[i].issues|
    ensures forall j :: 0 <= j < |data| && MultipleIssues(data[j]) ==> CriticalEntry(data[j]) in CriticalEntries(data)
  {
    CriticalEntriesCounted(data);
    CriticalEntriesComplete(data);
  }

  /** Every entry counts its own issues, and there are at least two. */
  lemma CriticalEntriesCounted(data: seq<Inspection>)
    ensures forall i :: 0 <= i < |CriticalEntries(data)| ==>
              CriticalEntries(data)[i].count >= 2 &&
              CriticalEntries(data)[i].count == |CriticalEntries(data)[i].issues|
  {
    var kept := Where(data, MultipleIssues);
    WhereMembers(data, MultipleIssues);
    forall i | 0 <= i < |CriticalEntries(data)|
      ensures CriticalEntries(data)[i].count >= 2
      ensures CriticalEntries(data)[i].count == |CriticalEntries(data)[i].issues|
    {
      assert CriticalEntries(data)[i] == CriticalEntry(kept[i]);
      assert MultipleIssues(kept[i]);
    }
  }

  /** Every school with two issues or more has its entry. */
  lemma CriticalEntriesComplete(data: seq<Inspection>)
    ensures forall j :: 0 <= j < |data| && MultipleIssues(data[j]) ==> CriticalEntry(data[j]) in CriticalEntries(data)
  {
    MapWhereComplete(data, MultipleIssues, CriticalEntry);
  }

  /** Ties keep the table order: the schools that share one issue count appear
      in the order of the table. */
  lemma CriticalSchoolsStable(data: seq<Inspection>, k: int)
    ensures Where(CriticalSchools(data), CountIs(k)) == Where(CriticalEntries(data), CountIs(k))
  {
    SortDescStable(CriticalEntries(data), IssueCount, k, CountIs(k));
  }

  /** The first ten entries of the sorted list are shown (all of them when
      there are fewer), and the message appears exactly when no school has two
      issues or more. */
  lemma CriticalViewShape(data: seq<Inspection>)
    ensures CriticalViewOf(data).NoCriticalSchools? <==> forall j :: 0 <= j < |data| ==> !MultipleIssues(data[j])
    ensures CriticalViewOf(data).CriticalList? ==>
              |CriticalViewOf(data).shown| == (if |CriticalSchools(data)| < 10 then |CriticalSchools(data)| else 10) &&
              CriticalViewOf(data).shown == CriticalSchools(data)[..|CriticalViewOf(data).shown|]
  {
    MapWhereEmptyIff(data, MultipleIssues, CriticalEntry);
    assert |CriticalSchools(data)| == |CriticalEntries(data)| by {
      assert |multiset(CriticalSchools(data))| == |multiset(CriticalEntries(data))|;
    }
  }

  // ---------------------------------------------------------------------------
  // KPI cards.

  function SafetyIndex(r: Inspection): real { r.safetyCompliance }
  function UtilitiesIndex(r: Inspection): real { r.utilitiesReliability }
  function HygieneIndex(r: Inspection): real { r.hygiene }
  function AccessFlag(r: Inspection): real { r.accessDisabled as real }
  function LightingFlag(r: Inspection): real { r.adequateLighting as real }
  function VentilationFlag(r: Inspection): real { r.adequateVentilation as real }
  function PtaFlag(r: Inspection): real { r.ptaPresent as real }
  function FirefightingFlag(r: Inspection): real { r.firefightingTools as real }
  function WaterFlag(r: Inspection): real { r.waterAvailable as real }
  function HasKitchen(r: Inspection): bool { r.kitchenCondition > 0.0 }

  datatype SafetyKpis = SafetyKpis(
    safetyCompliance: real,
    utilitiesReliability: real,
    hygieneIndex: real,
    accessibilityPct: real,
    kitchenAvailability: real,
    ptaPresence: real,
    firefightingPct: real,
    waterAvailability: real)

  const ZeroKpis := SafetyKpis(0.0, 0.0, 0.0, 0.0, 0.0, 0.0, 0.0, 0.0)

  /** The three accessibility observations of every school, in percent. */
  function AccessibilityPct(data: seq<Inspection>): real
    requires data != []
  {
    ((SumOf(data, AccessFlag) + SumOf(data, LightingFlag) + SumOf(data, VentilationFlag)) /
     ((|data| * 3) as real)) * 100.0
  }

  /** `calculate_dashboard_kpis`, without the rounding. */
  function CalculateDashboardKpis(data: seq<Inspection>): (k: SafetyKpis)
    ensures data == [] ==> k == ZeroKpis
  {
    if |data| == 0 then ZeroKpis
    else
      var n := |data|;
      SafetyKpis(
        MeanOf(data, SafetyIndex),
        MeanOf(data, UtilitiesIndex),
        MeanOf(data, HygieneIndex),
        AccessibilityPct(data),
        Percent(CountWhere(data, HasKitchen) as real, n),
        Percent(SumOf(data, PtaFlag), n),
        Percent(SumOf(data, FirefightingFlag), n),
        Percent(SumOf(data, WaterFlag), n))
  }

  /** The share of the three accessibility observations lies in [0, 100]. */
  lemma AccessibilityBounded(data: seq<Inspection>)
    requires data != [] && forall r :: r in data ==> WellFormed(r)
    ensures 0.0 <= AccessibilityPct(data) <= 100.0
  {
    var n := |data| as real;
    SumBounds(data, AccessFlag, 0.0, 1.0);
    SumBounds(data, LightingFlag, 0.0, 1.0);
    SumBounds(data, VentilationFlag, 0.0, 1.0);
    var total := SumOf(data, AccessFlag) + SumOf(data, LightingFlag) + SumOf(data, VentilationFlag);
    assert ((|data| * 3) as real) == 3.0 * n;
    DivideBounds(total, 3.0 * n, 0.0);
    DivideBoundsAbove(total, 3.0 * n, 1.0);
  }

  /** For well-formed inspections every KPI lies in its range: the two indices
      and the five percentages in [0, 100], the hygiene mean in [0, 1]. */
  lemma DashboardKpisBounded(data: seq<Inspection>)
    requires forall r :: r in data ==> WellFormed(r)
    ensures var k := CalculateDashboardKpis(data);
      0.0 <= k.safetyCompliance <= 100.0 && 0.0 <= k.utilitiesReliability <= 100.0 &&
      0.0 <= k.hygieneIndex <= 1.0 && 0.0 <= k.accessibilityPct <= 100.0 &&
      0.0 <= k.kitchenAvailability <= 100.0 && 0.0 <= k.ptaPresence <= 100.0 &&
      0.0 <= k.firefightingPct <= 100.0 && 0.0 <= k.waterAvailability <= 100.0
  {
    if data != [] {
      var n := |data|;
      MeanBounds(data, SafetyIndex, 0.0, 100.0);
      MeanBounds(data, UtilitiesIndex, 0.0, 100.0);
      MeanBounds(data, HygieneIndex, 0.0, 1.0);
      AccessibilityBounded(data);
      PercentBounds(CountWhere(data, HasKitchen) as real, n);
      FlagPercentBounds(data, PtaFlag);
      FlagPercentBounds(data, FirefightingFlag);
      FlagPercentBounds(data, WaterFlag);
    }
  }

  /** The card colours of `update_kpis`. */
  datatype CardColours = CardColours(safety: Colour, utilities: Colour, hygiene: Colour, access: Colour)

  function KpiColours(k: SafetyKpis): CardColours
  {
    CardColours(AtLeastRule(k.safetyCompliance, 75.0, 50.0),
                AtLeastRule(k.utilitiesReliability, 75.0, 50.0),
                AtLeastRule(k.hygieneIndex, 0.7, 0.5),
                AtLeastRule(k.accessibilityPct, 75.0, 50.0))
  }

  /** An empty selection shows four red cards. */
  lemma EmptySelectionColours()
    ensures KpiColours(CalculateDashboardKpis([])) == CardColours(Red, Red, Red, Red)
  {
  }

  /** A selection in which every school is fully compliant, fully reliable,
      perfectly clean and fully accessible shows four green cards. */
  lemma PerfectSelectionGreen(data: seq<Inspection>)
    requires data != []
    requires forall r :: r in data ==>
               r.safetyCompliance == 100.0 && r.utilitiesReliability == 100.0 && r.hygiene == 1.0 &&
               r.accessDisabled == 1 && r.adequateLighting == 1 && r.adequateVentilation == 1
    ensures KpiColours(CalculateDashboardKpis(data)) == CardColours(Green, Green, Green, Green)
  {
    MeanAtLeast(data, SafetyIndex, 100.0);
    MeanAtLeast(data, UtilitiesIndex, 100.0);
    MeanAtLeast(data, HygieneIndex, 1.0);
    var n := |data| as real;
    SumAtLeast(data, AccessFlag, 1.0);
    SumAtLeast(data, LightingFlag, 1.0);
    SumAtLeast(data, VentilationFlag, 1.0);
    var total := SumOf(data, AccessFlag) + SumOf(data, LightingFlag) + SumOf(data, VentilationFlag);
    assert ((|data| * 3) as real) == 3.0 * n;
    DivideBounds(total, 3.0 * n, 1.0);
  }

  // ---------------------------------------------------------------------------
  // Emergency preparedness.

  function ExitSignsFlag(r: Inspection): real { r.exitSigns as real }
  function EvacuationFlag(r: Inspection): real { r.evacuationPlans as real }
  function DrillsFlag(r: Inspection): real { r.safetyDrills as real }

  /** The three bars of `update_emergency_prep`, each 0 for an empty selection. */
  function EmergencyPrep(data: seq<Inspection>): (bars: seq<real>)
    ensures |bars| == 3
    ensures data == [] ==> bars == [0.0, 0.0, 0.0]
  {
    var total := |data|;
    [if total > 0 then Percent(SumOf(data, ExitSignsFlag), total) else 0.0,
     if total > 0 then Percent(SumOf(data, EvacuationFlag), total) else 0.0,
     if total > 0 then Percent(SumOf(data, DrillsFlag), total) else 0.0]
  }

  /** For 0/1 flags each bar lies in [0, 100]. */
  lemma EmergencyPrepBounded(data: seq<Inspection>)
    requires forall r :: r in data ==> WellFormed(r)
    ensures forall i :: 0 <= i < 3 ==> 0.0 <= EmergencyPrep(data)[i] <= 100.0
  {
    if data != [] {
      FlagPercentBounds(data, ExitSignsFlag);
      FlagPercentBounds(data, EvacuationFlag);
      FlagPercentBounds(data, DrillsFlag);
    }
  }

  // ---------------------------------------------------------------------------
  // The filter.

  /** `filter_data(province, district, sector)`. */
  method FilterData(df: seq<Inspection>, province: Option<string>, district: Option<string>, sector: Option<string>)
    returns (filtered: seq<Inspection>)
    ensures filtered == Filtered(df, InspectionPlace, Criteria(None, province, district, sector, None))
  {
    filtered := FilterRows(df, InspectionPlace, Criteria(None, province, district, sector, None));
  }

  /** The filter is the conjunction of the three location criteria, each
      skipped when it is `None`, empty or its "All …" entry. */
  lemma FilterDataIsConjunction(df: seq<Inspection>, province: Option<string>, district: Option<string>,
                                sector: Option<string>, r: Inspection)
    requires r in df
    ensures r in Filtered(df, InspectionPlace, Criteria(None, province, district, sector, None)) <==>
      (Active(province, AllProvinces) ==> r.place.province == province.value) &&
      (Active(district, AllDistricts) ==> r.place.district == district.value) &&
      (Active(sector, AllSectors) ==> r.place.sector == sector.value)
  {
    var c := Criteria(None, province, district, sector, None);
    FilteredSound(df, InspectionPlace, c);
    var i :| 0 <= i < |df| && df[i] == r;
    var kept := Filtered(df, InspectionPlace, c);
    if r in kept {
      var j :| 0 <= j < |kept| && kept[j] == r;
    }
  }

  // ---------------------------------------------------------------------------
  // Province comparison.

  function ProvinceRows(df: seq<Inspection>, prov: string): seq<Inspection>
  {
    Filtered(df, InspectionPlace, Criteria(None, Some(prov), None, None, None))
  }

  /** The six metrics of the comparison table; on all of them higher is better. */
  function ComparisonMetrics(k1: SafetyKpis, k2: SafetyKpis): (m: seq<MetricPair>)
    ensures |m| == 6 && forall i :: 0 <= i < 6 ==> m[i].higherBetter
  {
    [MetricPair("Safety Compliance", k1.safetyCompliance, k2.safetyCompliance, true),
     MetricPair("Utilities Reliability", k1.utilitiesReliability, k2.utilitiesReliability, true),
     MetricPair("Hygiene Index", k1.hygieneIndex, k2.hygieneIndex, true),
     MetricPair("Accessibility %", k1.accessibilityPct, k2.accessibilityPct, true),
     MetricPair("Kitchen Availability", k1.kitchenAvailability, k2.kitchenAvailability, true),
     MetricPair("PTA Presence", k1.ptaPresence, k2.ptaPresence, true)]
  }

  /** `update_province_comparison`: `None` is the "Select two provinces to
      compare" message. */
  method ProvinceComparison(df: seq<Inspection>, prov1: Option<string>, prov2: Option<string>)
    returns (view: Option<seq<ComparisonLine>>)
    ensures view.None? <==> !BothChosen(prov1, prov2)
    ensures view.Some? ==>
      view.value == Map(ComparisonMetrics(CalculateDashboardKpis(ProvinceRows(df, prov1.value)),
                                          CalculateDashboardKpis(ProvinceRows(df, prov2.value))),
                        LineFn(prov1.value, prov2.value))
  {
    if !BothChosen(prov1, prov2) {
      return None;
    }
    var df1 := FilterData(df, prov1, None, None);
    var df2 := FilterData(df, prov2, None, None);
    var kpis1 := CalculateDashboardKpis(df1);
    var kpis2 := CalculateDashboardKpis(df2);
    var table := BuildTable(prov1.value, prov2.value, ComparisonMetrics(kpis1, kpis2));
    view := Some(table);
  }

  /** A province with no inspection loses or ties every metric against a
      province of well-formed inspections: it never earns a trophy. */
  lemma EmptyProvinceNeverWins(df: seq<Inspection>, prov1: string, prov2: string)
    requires ProvinceRows(df, prov1) == []
    requires forall r :: r in ProvinceRows(df, prov2) ==> WellFormed(r)
    ensures forall i :: 0 <= i < 6 ==>
      var m := ComparisonMetrics(CalculateDashboardKpis(ProvinceRows(df, prov1)),
                                 CalculateDashboardKpis(ProvinceRows(df, prov2)))[i];
      WinnerBadge(m.v1, m.v2, m.higherBetter) == ""
  {
    DashboardKpisBounded(ProvinceRows(df, prov2));
  }

  // ---------------------------------------------------------------------------
  // Recommendations.

  /** The messages of `update_recommendations`, one per kind (their texts embed
      the formatted KPI values). */
  datatype Advice =
    | CriticalSafety          // compliance below 50
    | ImproveSafety           // compliance below 75
    | VeryLowUtilities        // reliability below 50
    | ImproveUtilities        // reliability below 75
    | PoorHygieneConditions   // hygiene below 0.5
    | ImproveHygiene          // hygiene below 0.7
    | UrgentAccessibility     // accessibility below 50%
    | ImproveAccessibility    // accessibility below 75%
    | FewKitchens             // kitchens in fewer than 50% of schools
    | LowPtaPresence          // PTA in fewer than 50% of schools
    | PerformingWell          // none of the above

  function SafetyAdvice(k: SafetyKpis): seq<Advice>
  {
    if k.safetyCompliance < 50.0 then [CriticalSafety]
    else if k.safetyCompliance < 75.0 then [ImproveSafety] else []
  }

  function UtilitiesAdvice(k: SafetyKpis): seq<Advice>
  {
    if k.utilitiesReliability < 50.0 then [VeryLowUtilities]
    else if k.utilitiesReliability < 75.0 then [ImproveUtilities] else []
  }

  function HygieneAdvice(k: SafetyKpis): seq<Advice>
  {
    if k.hygieneIndex < 0.5 then [PoorHygieneConditions]
    else if k.hygieneIndex < 0.7 then [ImproveHygiene] else []
  }

  function AccessAdvice(k: SafetyKpis): seq<Advice>
  {
    if k.accessibilityPct < 50.0 then [UrgentAccessibility]
    else if k.accessibilityPct < 75.0 then [ImproveAccessibility] else []
  }

  function KitchenAdvice(k: SafetyKpis): seq<Advice>
  {
    if k.kitchenAvailability < 50.0 then [FewKitchens] else []
  }

  function PtaAdvice(k: SafetyKpis): seq<Advice>
  {
    if k.ptaPresence < 50.0 then [LowPtaPresence] else []
  }

  /** The warnings that apply, in the order the dashboard appends them. */
  function Concerns(k: SafetyKpis): seq<Advice>
  {
    SafetyAdvice(k) + UtilitiesAdvice(k) + HygieneAdvice(k) + AccessAdvice(k) + KitchenAdvice(k) + PtaAdvice(k)
  }

  function AdviceFor(k: SafetyKpis): seq<Advice>
  {
    if Concerns(k) == [] then [PerformingWell] else Concerns(k)
  }

  /** The list built by appending, as the callback does. */
  method Recommendations(k: SafetyKpis) returns (recs: seq<Advice>)
    ensures recs == AdviceFor(k)
  {
    recs := [];
    if k.safetyCompliance < 50.0 {
      recs := recs + [CriticalSafety];
    } else if k.safetyCompliance < 75.0 {
      recs := recs + [ImproveSafety];
    }
    assert recs == SafetyAdvice(k);
    if k.utilitiesReliability < 50.0 {
      recs := recs + [VeryLowUtilities];
    } else if k.utilitiesReliability < 75.0 {
      recs := recs + [ImproveUtilities];
    }
    assert recs == SafetyAdvice(k) + UtilitiesAdvice(k);
    if k.hygieneIndex < 0.5 {
      recs := recs + [PoorHygieneConditions];
    } else if k.hygieneIndex < 0.7 {
      recs := recs + [ImproveHygiene];
    }
    assert recs == SafetyAdvice(k) + UtilitiesAdvice(k) + HygieneAdvice(k);
    if k.accessibilityPct < 50.0 {
      recs := recs + [UrgentAccessibility];
    } else if k.accessibilityPct < 75.0 {
      recs := recs + [ImproveAccessibility];
    }
    assert recs == SafetyAdvice(k) + UtilitiesAdvice(k) + HygieneAdvice(k) + AccessAdvice(k);
    if k.kitchenAvailability < 50.0 {
      recs := recs + [FewKitchens];
    }
    assert recs == SafetyAdvice(k) + UtilitiesAdvice(k) + HygieneAdvice(k) + AccessAdvice(k) + KitchenAdvice(k);
    if k.ptaPresence < 50.0 {
      recs := recs + [LowPtaPresence];
    }
    assert recs == Concerns(k);
    if recs == [] {
      recs := recs + [PerformingWell];
    }
  }

  /** Each warning appears exactly when its threshold is crossed, so safety,
      utilities, hygiene and accessibility each add at most one message. */
  lemma ConcernsExact(k: SafetyKpis)
    ensures CriticalSafety in Concerns(k) <==> k.safetyCompliance < 50.0
    ensures ImproveSafety in Concerns(k) <==> 50.0 <= k.safetyCompliance < 75.0
    ensures VeryLowUtilities in Concerns(k) <==> k.utilitiesReliability < 50.0
    ensures ImproveUtilities in Concerns(k) <==> 50.0 <= k.utilitiesReliability < 75.0
    ensures PoorHygieneConditions in Concerns(k) <==> k.hygieneIndex < 0.5
    ensures ImproveHygiene in Concerns(k) <==> 0.5 <= k.hygieneIndex < 0.7
    ensures UrgentAccessibility in Concerns(k) <==> k.accessibilityPct < 50.0
    ensures ImproveAccessibility in Concerns(k) <==> 50.0 <= k.accessibilityPct < 75.0
    ensures FewKitchens in Concerns(k) <==> k.kitchenAvailability < 50.0
    ensures LowPtaPresence in Concerns(k) <==> k.ptaPresence < 50.0
    ensures PerformingWell !in Concerns(k)
    ensures |Concerns(k)| <= 6
  {
    ConcernsEarly(k);
    ConcernsLate(k);
  }

  /** A message is listed exactly when one of the six checks lists it. */
  lemma ConcernsMembers(k: SafetyKpis)
    ensures forall x :: x in Concerns(k) <==>
              x in SafetyAdvice(k) || x in UtilitiesAdvice(k) || x in HygieneAdvice(k) ||
              x in AccessAdvice(k) || x in KitchenAdvice(k) || x in PtaAdvice(k)
    ensures |Concerns(k)| <= 6
  {
  }

  /** The safety and utilities warnings. */
  lemma ConcernsEarly(k: SafetyKpis)
    ensures CriticalSafety in Concerns(k) <==> k.safetyCompliance < 50.0
    ensures ImproveSafety in Concerns(k) <==> 50.0 <= k.safetyCompliance < 75.0
    ensures VeryLowUtilities in Concerns(k) <==> k.utilitiesReliability < 50.0
    ensures ImproveUtilities in Concerns(k) <==> 50.0 <= k.utilitiesReliability < 75.0
  {
    ConcernsMembers(k);
  }

  /** The hygiene, accessibility, kitchen and PTA warnings. */
  lemma ConcernsLate(k: SafetyKpis)
    ensures PoorHygieneConditions in Concerns(k) <==> k.hygieneIndex < 0.5
    ensures ImproveHygiene in Concerns(k) <==> 0.5 <= k.hygieneIndex < 0.7
    ensures UrgentAccessibility in Concerns(k) <==> k.accessibilityPct < 50.0
    ensures ImproveAccessibility in Concerns(k) <==> 50.0 <= k.accessibilityPct < 75.0
    ensures FewKitchens in Concerns(k) <==> k.kitchenAvailability < 50.0
    ensures LowPtaPresence in Concerns(k) <==> k.ptaPresence < 50.0
    ensures PerformingWell !in Concerns(k)
    ensures |Concerns(k)| <= 6
  {
    ConcernsMembers(k);
  }

  /** The list is never empty, and the "performing well" message appears
      exactly when no threshold is crossed, and then alone. */
  lemma AdviceExact(k: SafetyKpis)
    ensures AdviceFor(k) != []
    ensures PerformingWell in AdviceFor(k) <==> AdviceFor(k) == [PerformingWell]
    ensures AdviceFor(k) == [PerformingWell] <==>
              k.safetyCompliance >= 75.0 && k.utilitiesReliability >= 75.0 && k.hygieneIndex >= 0.7 &&
              k.accessibilityPct >= 75.0 && k.kitchenAvailability >= 50.0 && k.ptaPresence >= 50.0
  {
    ConcernsExact(k);
    var c := Concerns(k);
    if c != [] {
      assert c[0] in c;
    }
  }
}
