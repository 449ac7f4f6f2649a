/** The maintenance-operations dashboard: the per-school risk and urgency
    scores, the risk buckets, the gap index, the degradation rate and its
    ten-year projection, the KPI cards with their colours, the province
    comparison, the top-10 and high-risk lists, and the recommendations. */
module Maintenance {
  import opened Wrappers
  import opened Stats
  import opened Ranking
  import opened Colours
  import opened Schools
  import opened Comparison

  // ---------------------------------------------------------------------------
  // Columns.

  function Delayed(a: Assessment): int { a.delayedMaintenance }
  function DelayedShare(a: Assessment): real { a.delayedMaintenance as real }
  function Activity(a: Assessment): real { a.maintenanceActivity as real }
  function Days(a: Assessment): real { a.daysSinceMaintenance }
  function Frequency(a: Assessment): real { a.maintenanceFrequency }
  function Diversity(a: Assessment): real { a.fundingDiversity }
  function Health(a: Assessment): real { a.infraHealth }

  /** `(cond).astype(int)`. */
  function Indicator(b: bool): int
  {
    if b then 1 else 0
  }

  /** The assumptions the dashboard makes about a row: 0/1 flags, days not
      negative, a funding diversity and a health index in [0, 1]. */
  predicate WellFormed(a: Assessment)
  {
    0 <= a.delayedMaintenance <= 1 && 0 <= a.maintenanceActivity <= 1 &&
    0.0 <= a.daysSinceMaintenance &&
    0.0 <= a.fundingDiversity <= 1.0 && 0.0 <= a.infraHealth <= 1.0
  }

  // ---------------------------------------------------------------------------
  // Risk and urgency.

  function DelayedTerm(a: Assessment): int { a.delayedMaintenance * 3 }
  function StaleTerm(a: Assessment): int { Indicator(a.daysSinceMaintenance > 365.0) * 2 }
  function GrantTerm(a: Assessment): int { Indicator(a.capitationGrantPct < 15.0) * 2 }
  function DiversityTerm(a: Assessment): int { Indicator(a.fundingDiversity < 0.3) * 1 }
  function HealthTerm(a: Assessment): int { Indicator(a.infraHealth < 0.5) * 2 }

  /** The risk score of one school. */
  function RiskScore(a: Assessment): int
  {
    DelayedTerm(a) + StaleTerm(a) + GrantTerm(a) + DiversityTerm(a) + HealthTerm(a)
  }

  /** The urgency score of the top-10 table: the risk terms without the
      funding-diversity term. */
  function UrgencyScore(a: Assessment): int
  {
    DelayedTerm(a) + StaleTerm(a) + GrantTerm(a) + HealthTerm(a)
  }

  /** `series + term(row)` for every row. */
  function AddTerm(risk: seq<int>, data: seq<Assessment>, term: Assessment -> int): (r: seq<int>)
    requires |risk| == |data|
    ensures |r| == |data|
    ensures forall i :: 0 <= i < |data| ==> r[i] == risk[i] + term(data[i])
  {
    seq(|data|, i requires 0 <= i < |data| => risk[i] + term(data[i]))
  }

  /** `calculate_risk_scores`: a series of zeros to which each term is added. */
  method CalculateRiskScores(data: seq<Assessment>) returns (risk: seq<int>)
    ensures risk == Map(data, RiskScore)
  {
    risk := seq(|data|, _ => 0);
    risk := AddTerm(risk, data, DelayedTerm);
    risk := AddTerm(risk, data, StaleTerm);
    risk := AddTerm(risk, data, GrantTerm);
    risk := AddTerm(risk, data, DiversityTerm);
    risk := AddTerm(risk, data, HealthTerm);
  }

  /** With a 0/1 delay flag the risk score lies in 0..10, and without a delay
      it never exceeds 7. */
  lemma RiskBounds(a: Assessment)
    requires 0 <= a.delayedMaintenance <= 1
    ensures 0 <= RiskScore(a) <= 10
    ensures a.delayedMaintenance == 0 ==> RiskScore(a) <= 7
    ensures RiskScore(a) == 10 <==>
              a.delayedMaintenance == 1 && a.daysSinceMaintenance > 365.0 && a.capitationGrantPct < 15.0 &&
              a.fundingDiversity < 0.3 && a.infraHealth < 0.5
  {
  }

  /** The urgency score differs from the risk score only by the diversity
      term: urgency <= risk <= urgency + 1, and urgency lies in 0..9. */
  lemma UrgencyVersusRisk(a: Assessment)
    requires 0 <= a.delayedMaintenance <= 1
    ensures UrgencyScore(a) <= RiskScore(a) <= UrgencyScore(a) + 1
    ensures RiskScore(a) == UrgencyScore(a) + 1 <==> a.fundingDiversity < 0.3
    ensures 0 <= UrgencyScore(a) <= 9
  {
  }

  // ---------------------------------------------------------------------------
  // Risk buckets of the distribution chart.

  predicate LowRisk(s: int) { s <= 3 }
  predicate MediumRisk(s: int) { s > 3 && s <= 6 }
  predicate HighRisk(s: int) { s >= 7 }

  /** The three buckets of `update_risk_distribution`, with their counts. */
  function RiskCounts(data: seq<Assessment>): (nat, nat, nat)
  {
    var scores := Map(data, RiskScore);
    (CountWhere(scores, LowRisk), CountWhere(scores, MediumRisk), CountWhere(scores, HighRisk))
  }

  /** Every integer score lies in exactly one bucket, so the counts add up to
      the number of schools. */
  lemma RiskBucketsPartition(data: seq<Assessment>)
    ensures RiskCounts(data).0 + RiskCounts(data).1 + RiskCounts(data).2 == |data|
    ensures forall s: int :: (LowRisk(s) || MediumRisk(s) || HighRisk(s)) &&
              !(LowRisk(s) && MediumRisk(s)) && !(LowRisk(s) && HighRisk(s)) && !(MediumRisk(s) && HighRisk(s))
  {
    CountPartition3(Map(data, RiskScore), LowRisk, MediumRisk, HighRisk);
  }

  // ---------------------------------------------------------------------------
  // Gap index and degradation rate.

  /** `calculate_gap_index`, without the rounding. */
  function GapIndex(data: seq<Assessment>): (g: real)
    ensures data == [] ==> g == 0.0
  {
    if |data| == 0 then 0.0
    else
      (SumOf(data, DelayedShare) / (|data| as real)) * 0.4 +
      (MeanOf(data, Days) / 365.0) * 0.3 +
      (1.0 - MeanOf(data, Diversity)) * 0.3
  }

  /** The index lies in [0, 1], as its docstring says, once no school is more
      than a year past its last maintenance. */
  lemma GapIndexBounds(data: seq<Assessment>)
    requires forall a :: a in data ==> WellFormed(a) && a.daysSinceMaintenance <= 365.0
    ensures 0.0 <= GapIndex(data) <= 1.0
  {
    if data != [] {
      SumBounds(data, DelayedShare, 0.0, 1.0);
      var n := |data| as real;
      DivideBounds(SumOf(data, DelayedShare), n, 0.0);
      DivideBoundsAbove(SumOf(data, DelayedShare), n, 1.0);
      MeanBounds(data, Days, 0.0, 365.0);
      MeanBounds(data, Diversity, 0.0, 1.0);
    }
  }

  /** Past a year without maintenance the days term alone can pass the upper
      end: one delayed school, 730 days, no funding diversity gives 1.3. */
  lemma GapIndexCanPassOne(a: Assessment)
    requires a.delayedMaintenance == 1 && a.daysSinceMaintenance == 730.0 && a.fundingDiversity == 0.0
    ensures GapIndex([a]) == 1.3
  {
    assert [a][1..] == [];
    assert SumOf([a], DelayedShare) == 1.0;
    assert SumOf([a], Days) == 730.0;
    assert SumOf([a], Diversity) == 0.0;
  }

  function Min(x: real, y: real): real
  {
    if x <= y then x else y
  }

  /** `calculate_degradation_rate`, in percent per year, without the rounding. */
  function DegradationRate(data: seq<Assessment>): (d: real)
    ensures d <= 20.0
    ensures data == [] ==> d == 0.0
    ensures data != [] && MeanOf(data, Days) <= 0.0 ==> d == 0.0
  {
    if |data| == 0 then 0.0
    else
      var avgDays := MeanOf(data, Days);
      var avgHealth := MeanOf(data, Health);
      if avgDays > 0.0 then Min(((1.0 - avgHealth) / (avgDays / 365.0)) * 100.0, 20.0) else 0.0
  }

  /** With health indices at most 1 the rate is never negative. */
  lemma DegradationNonNegative(data: seq<Assessment>)
    requires forall a :: a in data ==> a.infraHealth <= 1.0
    ensures 0.0 <= DegradationRate(data) <= 20.0
  {
    if data != [] {
      MeanAtMost(data, Health, 1.0);
      var avgDays := MeanOf(data, Days);
      if avgDays > 0.0 {
        DivideBounds(1.0 - MeanOf(data, Health), avgDays / 365.0, 0.0);
      }
    }
  }

  // ---------------------------------------------------------------------------
  // Degradation projection.

  function Max(x: real, y: real): real
  {
    if x >= y then x else y
  }

  /** Projected health in year `y`: `max(current - rate * y, 0)`. */
  function HealthAt(current: real, rate: real, y: nat): real
  {
    Max(current - rate * (y as real), 0.0)
  }

  /** Projected health for years 0..10. */
  function Projection(current: real, rate: real): (p: seq<real>)
    ensures |p| == 11
    ensures forall y :: 0 <= y < 11 ==> p[y] >= 0.0
  {
    seq(11, y requires 0 <= y => HealthAt(current, rate, y))
  }

  /** With a rate that is not negative the curve starts at the current health
      (when that is not negative) and never rises. */
  lemma ProjectionNonIncreasing(current: real, rate: real)
    requires rate >= 0.0
    ensures current >= 0.0 ==> Projection(current, rate)[0] == current
    ensures forall i, j :: 0 <= i <= j < 11 ==> Projection(current, rate)[i] >= Projection(current, rate)[j]
  {
    var p := Projection(current, rate);
    assert p[0] == HealthAt(current, rate, 0);
    forall i, j | 0 <= i <= j < 11
      ensures p[i] >= p[j]
    {
      assert p[i] == HealthAt(current, rate, i) && p[j] == HealthAt(current, rate, j);
      HealthAtMonotone(current, rate, i, j);
    }
  }

  /** A later year never has a higher projected health. */
  lemma HealthAtMonotone(current: real, rate: real, x: nat, y: nat)
    requires rate >= 0.0 && x <= y
    ensures HealthAt(current, rate, x) >= HealthAt(current, rate, y)
  {
    ScaleMonotone(rate, x as real, y as real);
  }

  /** Multiplying by a rate that is not negative keeps the order. */
  lemma ScaleMonotone(rate: real, x: real, y: real)
    requires rate >= 0.0 && x <= y
    ensures rate * x <= rate * y
  {
    assert rate * y - rate * x == rate * (y - x);
  }

  /** The curve of `update_degradation_chart`; `None` stands for an empty
      selection, whose mean health is not a number. */
  function ProjectionFor(data: seq<Assessment>): Option<seq<real>>
  {
    if data == [] then None
    else Some(Projection(MeanOf(data, Health), DegradationRate(data) / 100.0))
  }

  /** For well-formed rows the projected health stays in [0, 1] and never rises. */
  lemma ProjectionForBounded(data: seq<Assessment>)
    requires data != []
    requires forall a :: a in data ==> WellFormed(a)
    ensures forall y :: 0 <= y < 11 ==> 0.0 <= ProjectionFor(data).value[y] <= 1.0
    ensures forall i, j :: 0 <= i <= j < 11 ==> ProjectionFor(data).value[i] >= ProjectionFor(data).value[j]
  {
    DegradationNonNegative(data);
    MeanBounds(data, Health, 0.0, 1.0);
    var current := MeanOf(data, Health);
    var rate := DegradationRate(data) / 100.0;
    ProjectionNonIncreasing(current, rate);
    var p := Projection(current, rate);
    forall y | 0 <= y < 11
      ensures p[y] <= 1.0
    {
      assert p[0] >= p[y];
    }
  }

  // ---------------------------------------------------------------------------
  // KPI cards.

  datatype MaintenanceKpis = MaintenanceKpis(
    pctDoing: real,
    delayedCount: int,
    pctDelayed: real,
    avgDays: real,
    avgFrequency: real,
    avgDiversity: real,
    gapIndex: real,
    degradationRate: real,
    pctHighRisk: real)

  const ZeroKpis := MaintenanceKpis(0.0, 0, 0.0, 0.0, 0.0, 0.0, 0.0, 0.0, 0.0)

  /** `calculate_maintenance_kpis`, without the rounding. */
  function CalculateMaintenanceKpis(data: seq<Assessment>): (k: MaintenanceKpis)
    ensures data == [] ==> k == ZeroKpis
    ensures data != [] ==> k.pctDelayed == Percent(k.delayedCount as real, |data|)
    ensures k.gapIndex == GapIndex(data) && k.degradationRate == DegradationRate(data)
  {
    if |data| == 0 then ZeroKpis
    else
      var n := |data|;
      var delayedCount := IntSumOf(data, Delayed);
      MaintenanceKpis(
        Percent(SumOf(data, Activity), n),
        delayedCount,
        Percent(delayedCount as real, n),
        MeanOf(data, Days),
        MeanOf(data, Frequency),
        MeanOf(data, Diversity),
        GapIndex(data),
        DegradationRate(data),
        Percent(CountWhere(Map(data, RiskScore), HighRisk) as real, n))
  }

  /** For 0/1 flags the delayed count is at most the number of schools and all
      three percentages lie in [0, 100]; the rate lies in [0, 20]. */
  lemma MaintenanceKpisBounded(data: seq<Assessment>)
    requires forall a :: a in data ==> WellFormed(a)
    ensures 0 <= CalculateMaintenanceKpis(data).delayedCount <= |data|
    ensures 0.0 <= CalculateMaintenanceKpis(data).pctDoing <= 100.0
    ensures 0.0 <= CalculateMaintenanceKpis(data).pctDelayed <= 100.0
    ensures 0.0 <= CalculateMaintenanceKpis(data).pctHighRisk <= 100.0
    ensures 0.0 <= CalculateMaintenanceKpis(data).degradationRate <= 20.0
  {
    DegradationNonNegative(data);
    if data != [] {
      var n := |data|;
      FlagPercentBounds(data, Activity);
      IntSumOfFlags(data, Delayed);
      PercentBounds(IntSumOf(data, Delayed) as real, n);
      var high := CountWhere(Map(data, RiskScore), HighRisk);
      PercentBounds(high as real, n);
    }
  }

  /** The card colours of `update_kpis`. */
  datatype CardColours = CardColours(doing: Colour, delayed: Colour, days: Colour, gap: Colour, degradation: Colour)

  function KpiColours(k: MaintenanceKpis): CardColours
  {
    CardColours(AtLeastRule(k.pctDoing, 80.0, 60.0),
                BelowRule(k.pctDelayed, 20.0, 40.0),
                BelowRule(k.avgDays, 180.0, 365.0),
                BelowRule(k.gapIndex, 0.3, 0.6),
                BelowRule(k.degradationRate, 5.0, 10.0))
  }

  /** An empty selection shows a red "Doing Maintenance" card and four green ones. */
  lemma EmptySelectionColours()
    ensures KpiColours(CalculateMaintenanceKpis([])) == CardColours(Red, Green, Green, Green, Green)
  {
  }

  /** The degradation card is never red when the average school is in perfect
      health, and always green when the rate is capped below 5. */
  lemma PerfectHealthDegradationGreen(data: seq<Assessment>)
    requires data != [] && forall a :: a in data ==> a.infraHealth == 1.0
    ensures KpiColours(CalculateMaintenanceKpis(data)).degradation == Green
  {
    MeanBounds(data, Health, 1.0, 1.0);
    assert MeanOf(data, Health) == 1.0;
  }

  // ---------------------------------------------------------------------------
  // The filter.

  /** `filter_data(province, district, sector)`. */
  method FilterData(df: seq<Assessment>, province: Option<string>, district: Option<string>, sector: Option<string>)
    returns (filtered: seq<Assessment>)
    ensures filtered == Filtered(df, AssessmentPlace, Criteria(None, province, district, sector, None))
  {
    filtered := FilterRows(df, AssessmentPlace, Criteria(None, province, district, sector, None));
  }

  // ---------------------------------------------------------------------------
  // Province comparison.

  function ProvinceRows(df: seq<Assessment>, prov: string): seq<Assessment>
  {
    Filtered(df, AssessmentPlace, Criteria(None, Some(prov), None, None, None))
  }

  /** The six metrics of the comparison table with their polarity. */
  function ComparisonMetrics(k1: MaintenanceKpis, k2: MaintenanceKpis): (m: seq<MetricPair>)
    ensures |m| == 6
  {
    [MetricPair("Doing Maintenance %", k1.pctDoing, k2.pctDoing, true),
     MetricPair("Delayed %", k1.pctDelayed, k2.pctDelayed, false),
     MetricPair("Avg Days Since", k1.avgDays, k2.avgDays, false),
     MetricPair("Gap Index", k1.gapIndex, k2.gapIndex, false),
     MetricPair("Degradation Rate", k1.degradationRate, k2.degradationRate, false),
     MetricPair("Frequency Score", k1.avgFrequency, k2.avgFrequency, true)]
  }

  /** `update_province_comparison`: `None` is the "Select two provinces to
      compare" message. */
  method ProvinceComparison(df: seq<Assessment>, prov1: Option<string>, prov2: Option<string>)
    returns (view: Option<seq<ComparisonLine>>)
    ensures view.None? <==> !BothChosen(prov1, prov2)
    ensures view.Some? ==>
      view.value == Map(ComparisonMetrics(CalculateMaintenanceKpis(ProvinceRows(df, prov1.value)),
                                          CalculateMaintenanceKpis(ProvinceRows(df, prov2.value))),
                        LineFn(prov1.value, prov2.value))
  {
    if !BothChosen(prov1, prov2) {
      return None;
    }
    var df1 := FilterData(df, prov1, None, None);
    var df2 := FilterData(df, prov2, None, None);
    var kpis1 := CalculateMaintenanceKpis(df1);
    var kpis2 := CalculateMaintenanceKpis(df2);
    var table := BuildTable(prov1.value, prov2.value, ComparisonMetrics(kpis1, kpis2));
    view := Some(table);
  }

  /** A province compared with itself ties on every metric. */
  lemma SelfComparisonTies(df: seq<Assessment>, prov: string)
    ensures forall i :: 0 <= i < 6 ==>
      Map(ComparisonMetrics(CalculateMaintenanceKpis(ProvinceRows(df, prov)),
                            CalculateMaintenanceKpis(ProvinceRows(df, prov))),
          LineFn(prov, prov))[i].winner == "Tie"
  {
  }

  // ---------------------------------------------------------------------------
  // Ranked lists.

  /** A ranked list, or the message shown when it is empty. */
  datatype Listing = Message(text: string) | Ranked(rows: seq<Assessment>)

  /** `urgency_df.nlargest(10, 'urgency_score')`. */
  function TopUrgent(data: seq<Assessment>): seq<Assessment>
  {
    NLargest(data, 10, UrgencyScore)
  }

  /** `update_top10_urgent`. */
  function UrgentTable(data: seq<Assessment>): (v: Listing)
    ensures v.Message? <==> data == []
    ensures v.Message? ==> v.text == "No urgent schools found"
  {
    NLargestIsTop(data, 10, UrgencyScore);
    var top := TopUrgent(data);
    if |top| == 0 then Message("No urgent schools found") else Ranked(top)
  }

  /** The top-10 table: ten rows (fewer only if there are fewer schools),
      highest urgency first, and no school left out is more urgent than one
      shown. */
  lemma TopUrgentIsTop(data: seq<Assessment>)
    ensures |TopUrgent(data)| == if |data| < 10 then |data| else 10
    ensures SortedDesc(TopUrgent(data), UrgencyScore)
    ensures forall y, z :: y in multiset(data) - multiset(TopUrgent(data)) && z in TopUrgent(data)
              ==> UrgencyScore(y) <= UrgencyScore(z)
  {
    NLargestIsTop(data, 10, UrgencyScore);
  }

  function HighRiskRow(a: Assessment): bool
  {
    RiskScore(a) >= 7
  }

  /** `risk_df[risk_df['risk_score'] >= 7].nlargest(10, 'risk_score')`. */
  function HighRiskList(data: seq<Assessment>): seq<Assessment>
  {
    NLargest(Where(data, HighRiskRow), 10, RiskScore)
  }

  /** `update_high_risk_list`. */
  function HighRiskView(data: seq<Assessment>): (v: Listing)
    ensures v.Message? ==> v.text == "✅ No high-risk schools found"
  {
    var top := HighRiskList(data);
    if |top| == 0 then Message("✅ No high-risk schools found") else Ranked(top)
  }

  /** The high-risk list holds the ten riskiest schools of risk at least 7 (all
      of them when there are fewer), highest first: no high-risk school left
      out has a higher risk than one listed. */
  lemma HighRiskListSound(data: seq<Assessment>)
    ensures |HighRiskList(data)| ==
              if |Where(data, HighRiskRow)| < 10 then |Where(data, HighRiskRow)| else 10
    ensures forall y, z ::
              y in multiset(Where(data, HighRiskRow)) - multiset(HighRiskList(data)) && z in HighRiskList(data)
              ==> RiskScore(y) <= RiskScore(z)
    ensures SortedDesc(HighRiskList(data), RiskScore)
    ensures forall i :: 0 <= i < |HighRiskList(data)| ==>
              HighRiskList(data)[i] in data && RiskScore(HighRiskList(data)[i]) >= 7
  {
    NLargestIsTop(Where(data, HighRiskRow), 10, RiskScore);
    HighRiskMembers(data);
  }

  /** Every listed school is a school of the selection with risk at least 7. */
  lemma HighRiskMembers(data: seq<Assessment>)
    ensures forall i :: 0 <= i < |HighRiskList(data)| ==>
              HighRiskList(data)[i] in data && RiskScore(HighRiskList(data)[i]) >= 7
  {
    var high := Where(data, HighRiskRow);
    NLargestFromInput(high, 10, RiskScore);
    WhereMembers(data, HighRiskRow);
    forall x | x in high
      ensures x in data && RiskScore(x) >= 7
    {
      var j :| 0 <= j < |high| && high[j] == x;
    }
  }

  /** The "no high-risk schools" message appears exactly when no school of the
      selection reaches a risk of 7. */
  lemma HighRiskMessageIffNone(data: seq<Assessment>)
    ensures HighRiskView(data).Message? <==> forall i :: 0 <= i < |data| ==> RiskScore(data[i]) < 7
  {
    var high := Where(data, HighRiskRow);
    NLargestIsTop(high, 10, RiskScore);
    WhereMembers(data, HighRiskRow);
    if exists i :: 0 <= i < |data| && RiskScore(data[i]) >= 7 {
      var i :| 0 <= i < |data| && RiskScore(data[i]) >= 7;
      assert data[i] in high;
    }
  }

  // ---------------------------------------------------------------------------
  // Recommendations.

  /** The messages of `update_recommendations`, one per kind (their texts embed
      the formatted KPI values). */
  datatype Advice =
    | LowActivity            // fewer than 80% of schools maintain regularly
    | DelayedBacklog         // more than 30% delayed
    | HighGap                // gap index above 0.6
    | ModerateGap            // gap index above 0.3
    | HighDegradation        // above 10% a year
    | ModerateDegradation    // above 5% a year
    | LongSinceMaintenance   // more than 365 days on average
    | LowFundingDiversity    // diversity below 0.3
    | PerformingWell         // none of the above

  function ActivityPart(k: MaintenanceKpis): seq<Advice>
  {
    if k.pctDoing < 80.0 then [LowActivity] else []
  }

  function DelayedPart(k: MaintenanceKpis): seq<Advice>
  {
    if k.pctDelayed > 30.0 then [DelayedBacklog] else []
  }

  function GapPart(k: MaintenanceKpis): seq<Advice>
  {
    if k.gapIndex > 0.6 then [HighGap] else if k.gapIndex > 0.3 then [ModerateGap] else []
  }

  function DegradationPart(k: MaintenanceKpis): seq<Advice>
  {
    if k.degradationRate > 10.0 then [HighDegradation]
    else if k.degradationRate > 5.0 then [ModerateDegradation] else []
  }

  function DaysPart(k: MaintenanceKpis): seq<Advice>
  {
    if k.avgDays > 365.0 then [LongSinceMaintenance] else []
  }

  function DiversityPart(k: MaintenanceKpis): seq<Advice>
  {
    if k.avgDiversity < 0.3 then [LowFundingDiversity] else []
  }

  /** The warnings that apply, in the order the dashboard appends them. */
  function Concerns(k: MaintenanceKpis): seq<Advice>
  {
    ActivityPart(k) + DelayedPart(k) + GapPart(k) + DegradationPart(k) + DaysPart(k) + DiversityPart(k)
  }

  function AdviceFor(k: MaintenanceKpis): seq<Advice>
  {
    if Concerns(k) == [] then [PerformingWell] else Concerns(k)
  }

  /** The list built by appending, as the callback does. */
  method Recommendations(k: MaintenanceKpis) returns (recs: seq<Advice>)
    ensures recs == AdviceFor(k)
  {
    recs := [];
    if k.pctDoing < 80.0 {
      recs := recs + [LowActivity];
    }
    assert recs == ActivityPart(k);
    if k.pctDelayed > 30.0 {
      recs := recs + [DelayedBacklog];
    }
    assert recs == ActivityPart(k) + DelayedPart(k);
    if k.gapIndex > 0.6 {
      recs := recs + [HighGap];
    } else if k.gapIndex > 0.3 {
      recs := recs + [ModerateGap];
    }
    assert recs == ActivityPart(k) + DelayedPart(k) + GapPart(k);
    if k.degradationRate > 10.0 {
      recs := recs + [HighDegradation];
    } else if k.degradationRate > 5.0 {
      recs := recs + [ModerateDegradation];
    }
    assert recs == ActivityPart(k) + DelayedPart(k) + GapPart(k) + DegradationPart(k);
    if k.avgDays > 365.0 {
      recs := recs + [LongSinceMaintenance];
    }
    assert recs == ActivityPart(k) + DelayedPart(k) + GapPart(k) + DegradationPart(k) + DaysPart(k);
    if k.avgDiversity < 0.3 {
      recs := recs + [LowFundingDiversity];
    }
    assert recs == Concerns(k);
    if recs == [] {
      recs := recs + [PerformingWell];
    }
  }

  /** Each warning appears exactly when its threshold is crossed, and the two
      gap warnings and the two degradation warnings exclude each other. */
  lemma ConcernsExact(k: MaintenanceKpis)
    ensures LowActivity in Concerns(k) <==> k.pctDoing < 80.0
    ensures DelayedBacklog in Concerns(k) <==> k.pctDelayed > 30.0
    ensures HighGap in Concerns(k) <==> k.gapIndex > 0.6
    ensures ModerateGap in Concerns(k) <==> 0.3 < k.gapIndex <= 0.6
    ensures HighDegradation in Concerns(k) <==> k.degradationRate > 10.0
    ensures ModerateDegradation in Concerns(k) <==> 5.0 < k.degradationRate <= 10.0
    ensures LongSinceMaintenance in Concerns(k) <==> k.avgDays > 365.0
    ensures LowFundingDiversity in Concerns(k) <==> k.avgDiversity < 0.3
    ensures PerformingWell !in Concerns(k)
  {
    var a, b, c, d, e, f := ActivityPart(k), DelayedPart(k), GapPart(k), DegradationPart(k), DaysPart(k), DiversityPart(k);
    assert Concerns(k) == a + b + c + d + e + f;
    assert forall x :: x in Concerns(k) <==> x in a || x in b || x in c || x in d || x in e || x in f;
  }

  /** The list is never empty, and the "performing well" message appears
      exactly when no threshold is crossed, and then alone. */
  lemma AdviceExact(k: MaintenanceKpis)
    ensures AdviceFor(k) != []
    ensures PerformingWell in AdviceFor(k) <==> AdviceFor(k) == [PerformingWell]
    ensures AdviceFor(k) == [PerformingWell] <==>
              k.pctDoing >= 80.0 && k.pctDelayed <= 30.0 && k.gapIndex <= 0.3 &&
              k.degradationRate <= 5.0 && k.avgDays <= 365.0 && k.avgDiversity >= 0.3
  {
    ConcernsExact(k);
    var c := Concerns(k);
    if c != [] {
      assert c[0] in c;
    }
  }

  /** An empty selection, with its all-zero KPIs, asks for more maintenance
      activity and more funding sources, and nothing else. */
  lemma EmptySelectionAdvice()
    ensures AdviceFor(CalculateMaintenanceKpis([])) == [LowActivity, LowFundingDiversity]
  {
  }
}
