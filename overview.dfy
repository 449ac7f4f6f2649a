/** The overview dashboard: the school alerts, the headline KPIs with their
    colours, the location filter with a school list, the school-age table and
    the choice of heat-map grouping. */
module Overview {
  import opened Wrappers
  import opened Text
  import opened Stats
  import opened Ranking
  import opened Colours
  import opened Schools
  import opened Alerts

  // ---------------------------------------------------------------------------
  // Alerts.

  /** The six columns the alert rule reads from an assessment row. */
  function ReadingsOf(a: Assessment): Readings
  {
    Readings(a.studentClassroomRatio, a.studentTeacherRatio, a.infraHealth,
             a.delayedMaintenance, a.safetyConcern, a.fence)
  }

  /** One line of an alert list; `issues` and `whyGood` are the keys added to
      the record only in the Attention and Good branches. */
  datatype AlertEntry = AlertEntry(
    school: string,
    location: string,
    province: string,
    sc: real,
    st: real,
    infra: real,
    issues: Option<string>,
    whyGood: Option<string>)

  /** The record built for every school before it is classified. */
  function SchoolInfo(a: Assessment): AlertEntry
  {
    AlertEntry(a.place.schoolName, LocationOf(a.place), a.place.province,
               a.studentClassroomRatio, a.studentTeacherRatio, a.infraHealth, None, None)
  }

  predicate UrgentRow(a: Assessment)
  {
    Classify(ReadingsOf(a)).Urgent?
  }

  predicate AttentionRow(a: Assessment)
  {
    Classify(ReadingsOf(a)).Attention?
  }

  predicate GoodRow(a: Assessment)
  {
    Classify(ReadingsOf(a)).Good?
  }

  function UrgentEntry(a: Assessment): AlertEntry
  {
    SchoolInfo(a)
  }

  function AttentionEntry(a: Assessment): AlertEntry
  {
    SchoolInfo(a).(issues := Some(IssuesText(ReadingsOf(a))))
  }

  function GoodEntry(a: Assessment): AlertEntry
  {
    SchoolInfo(a).(whyGood := Some(WhyGoodText(ReadingsOf(a))))
  }

  datatype AlertLists = AlertLists(urgent: seq<AlertEntry>, attention: seq<AlertEntry>, good: seq<AlertEntry>)

  /** The three lists: the schools of each kind, in table order. */
  function AlertsOf(data: seq<Assessment>): AlertLists
  {
    AlertLists(Map(Where(data, UrgentRow), UrgentEntry),
               Map(Where(data, AttentionRow), AttentionEntry),
               Map(Where(data, GoodRow), GoodEntry))
  }

  /** The lists after one more school: its entry joins its own section. */
  function AddRow(lists: AlertLists, a: Assessment): AlertLists
  {
    if UrgentRow(a) then lists.(urgent := lists.urgent + [UrgentEntry(a)])
    else if AttentionRow(a) then lists.(attention := lists.attention + [AttentionEntry(a)])
    else lists.(good := lists.good + [GoodEntry(a)])
  }

  lemma AlertsOfStep(data: seq<Assessment>, i: nat)
    requires i < |data|
    ensures AlertsOf(data[..i + 1]) == AddRow(AlertsOf(data[..i]), data[i])
  {
    MapWherePrefix(data, i, UrgentRow, UrgentEntry);
    MapWherePrefix(data, i, AttentionRow, AttentionEntry);
    MapWherePrefix(data, i, GoodRow, GoodEntry);
  }

  /** `calculate_alerts`: one pass over the table, appending each school to one list. */
  method CalculateAlerts(data: seq<Assessment>) returns (alerts: AlertLists)
    ensures alerts == AlertsOf(data)
    ensures data == [] ==> alerts == AlertLists([], [], [])
  {
    if |data| == 0 {
      return AlertLists([], [], []);
    }
    var urgent: seq<AlertEntry> := [];
    var attention: seq<AlertEntry> := [];
    var good: seq<AlertEntry> := [];
    for i := 0 to |data|
      invariant AlertLists(urgent, attention, good) == AlertsOf(data[..i])
    {
      var row := data[i];
      var r := ReadingsOf(row);
      var info := SchoolInfo(row);
      ghost var before := AlertLists(urgent, attention, good);
      if r.sc > 50.0 || r.st > 40.0 || r.infra < 0.5 {
        assert UrgentRow(row);
        urgent := urgent + [info];
      } else if (45.0 < r.sc <= 50.0) || (35.0 < r.st <= 40.0) || (0.5 <= r.infra < 0.7) ||
                r.delayed == 1 || r.safety == 1 || r.fence == 0 {
        assert !UrgentRow(row) && AttentionRow(row);
        var issues := IssueList(r);
        info := info.(issues := Some(Join(issues, ", ")));
        attention := attention + [info];
      } else {
        assert !UrgentRow(row) && !AttentionRow(row);
        var reasons := ReasonList(r);
        info := info.(whyGood := Some(Join(reasons, ", ")));
        good := good + [info];
      }
      assert AlertLists(urgent, attention, good) == AddRow(before, row);
      AlertsOfStep(data, i);
    }
    assert data[..|data|] == data;
    alerts := AlertLists(urgent, attention, good);
  }

  /** Every school is in exactly one list, so the three lengths add up to the
      number of schools, and each list keeps the table order. */
  lemma AlertsPartition(data: seq<Assessment>)
    ensures |AlertsOf(data).urgent| + |AlertsOf(data).attention| + |AlertsOf(data).good| == |data|
    ensures IsSubseq(Where(data, UrgentRow), data)
    ensures IsSubseq(Where(data, AttentionRow), data)
    ensures IsSubseq(Where(data, GoodRow), data)
  {
    WherePartition3(data, UrgentRow, AttentionRow, GoodRow);
    WhereIsSubseq(data, UrgentRow);
    WhereIsSubseq(data, AttentionRow);
    WhereIsSubseq(data, GoodRow);
  }

  /** Urgent lines carry neither issues nor reasons. */
  lemma UrgentEntriesBare(data: seq<Assessment>)
    ensures forall i :: 0 <= i < |AlertsOf(data).urgent| ==>
              AlertsOf(data).urgent[i].issues.None? && AlertsOf(data).urgent[i].whyGood.None?
  {
  }

  /** Attention lines carry a non-empty issue text and no reasons. */
  lemma AttentionEntriesHaveIssues(data: seq<Assessment>)
    ensures forall i :: 0 <= i < |AlertsOf(data).attention| ==>
              AlertsOf(data).attention[i].issues.Some? &&
              AlertsOf(data).attention[i].issues.value != "" &&
              AlertsOf(data).attention[i].whyGood.None?
  {
    var rows := Where(data, AttentionRow);
    WhereMembers(data, AttentionRow);
    forall i | 0 <= i < |rows|
      ensures IssuesText(ReadingsOf(rows[i])) != ""
    {
      AttentionIssuesNonEmpty(ReadingsOf(rows[i]));
    }
  }

  /** Good lines carry all three reasons and no issues. */
  lemma GoodEntriesHaveAllReasons(data: seq<Assessment>)
    ensures forall i :: 0 <= i < |AlertsOf(data).good| ==>
              AlertsOf(data).good[i].whyGood == Some("S/C≤45, S/T≤35, Infra≥0.7") &&
              AlertsOf(data).good[i].issues.None?
  {
    var rows := Where(data, GoodRow);
    WhereMembers(data, GoodRow);
    forall i | 0 <= i < |AlertsOf(data).good|
      ensures AlertsOf(data).good[i].whyGood == Some("S/C≤45, S/T≤35, Infra≥0.7") &&
                AlertsOf(data).good[i].issues.None?
    {
      var row := rows[i];
      assert AlertsOf(data).good[i] == GoodEntry(row);
      assert GoodRow(row);
      GoodHasAllReasons(ReadingsOf(row));
    }
  }

  // ---------------------------------------------------------------------------
  // The filter.

  /** `filter_data(location, province, district, sector, schools)` over the
      assessment sheet. */
  method FilterData(df: seq<Assessment>, location: Option<string>, province: Option<string>,
                    district: Option<string>, sector: Option<string>, schools: Option<seq<string>>)
    returns (filtered: seq<Assessment>)
    ensures filtered == Filtered(df, AssessmentPlace, Criteria(location, province, district, sector, schools))
  {
    filtered := FilterRows(df, AssessmentPlace, Criteria(location, province, district, sector, schools));
  }

  // ---------------------------------------------------------------------------
  // KPIs.

  datatype Kpis = Kpis(
    totalSchools: nat,
    totalStudents: int,
    totalClassrooms: int,
    totalTeachers: int,
    avgStudentClassroom: real,
    avgStudentTeacher: real,
    avgInfrastructure: real,
    pctElectricity: real,
    avgWaterQuality: real,
    avgClassroomDamage: real,
    avgToiletDamage: real,
    pctFence: real,
    toiletsBoys: int,
    toiletsGirls: int,
    scColour: Colour,
    stColour: Colour,
    infraColour: Colour,
    classDamageColour: Colour,
    toiletDamageColour: Colour)

  function Students(a: Assessment): int { a.students }
  function Classrooms(a: Assessment): int { a.classrooms }
  function Teachers(a: Assessment): int { a.teachers }
  function BoysToilets(a: Assessment): int { a.toiletsBoys }
  function GirlsToilets(a: Assessment): int { a.toiletsGirls }
  function SCRatio(a: Assessment): real { a.studentClassroomRatio }
  function STRatio(a: Assessment): real { a.studentTeacherRatio }
  function Infra(a: Assessment): real { a.infraHealth }
  function Electricity(a: Assessment): real { a.electricityReliability }
  function Water(a: Assessment): real { a.waterQuality }
  function ClassDamage(a: Assessment): real { a.classroomDamage }
  function ToiletDamage(a: Assessment): real { a.toiletDamage }
  function Fence(a: Assessment): real { a.fence as real }

  /** The KPI record of an empty selection: zeros and grey cards. */
  const EmptyKpis := Kpis(0, 0, 0, 0, 0.0, 0.0, 0.0, 0.0, 0.0, 0.0, 0.0, 0.0, 0, 0,
                          Grey, Grey, Grey, Grey, Grey)

  /** `calculate_kpis`: totals, means and percentages of the selection, and the
      colour of each card. */
  function CalculateKpis(data: seq<Assessment>): (k: Kpis)
    ensures data == [] ==> k == EmptyKpis
    ensures data != [] ==> k.totalSchools == |data|
    ensures data != [] ==>
      k.avgStudentClassroom == MeanOf(data, SCRatio) && k.avgStudentTeacher == MeanOf(data, STRatio) &&
      k.avgInfrastructure == MeanOf(data, Infra) &&
      k.avgClassroomDamage == MeanOf(data, ClassDamage) && k.avgToiletDamage == MeanOf(data, ToiletDamage)
    ensures data != [] ==>
      (k.scColour == Red <==> k.avgStudentClassroom > 45.0) &&
      (k.scColour == Green <==> k.avgStudentClassroom <= 45.0) &&
      (k.stColour == Red <==> k.avgStudentTeacher > 35.0) &&
      (k.stColour == Green <==> k.avgStudentTeacher <= 35.0) &&
      (k.infraColour == Green <==> k.avgInfrastructure >= 0.7) &&
      (k.infraColour == Red <==> k.avgInfrastructure < 0.7)
    ensures data != [] ==>
      (k.classDamageColour == Green <==> k.avgClassroomDamage < 15.0) &&
      (k.classDamageColour == Orange <==> 15.0 <= k.avgClassroomDamage < 30.0) &&
      (k.classDamageColour == Red <==> k.avgClassroomDamage >= 30.0)
    ensures data != [] ==>
      (k.toiletDamageColour == Green <==> k.avgToiletDamage < 15.0) &&
      (k.toiletDamageColour == Orange <==> 15.0 <= k.avgToiletDamage < 30.0) &&
      (k.toiletDamageColour == Red <==> k.avgToiletDamage >= 30.0)
  {
    if |data| == 0 then EmptyKpis
    else
      var sc := MeanOf(data, SCRatio);
      var st := MeanOf(data, STRatio);
      var infra := MeanOf(data, Infra);
      var classDamage := MeanOf(data, ClassDamage);
      var toiletDamage := MeanOf(data, ToiletDamage);
      Kpis(|data|,
           IntSumOf(data, Students), IntSumOf(data, Classrooms), IntSumOf(data, Teachers),
           sc, st, infra,
           Percent(SumOf(data, Electricity), |data|),
           MeanOf(data, Water), classDamage, toiletDamage,
           Percent(SumOf(data, Fence), |data|),
           IntSumOf(data, BoysToilets), IntSumOf(data, GirlsToilets),
           AboveIsRed(sc, 45.0), AboveIsRed(st, 35.0), AtLeastIsGreen(infra, 0.7),
           BelowRule(classDamage, 15.0, 30.0), BelowRule(toiletDamage, 15.0, 30.0))
  }

  /** With 0/1 fence flags and an electricity score in [0, 1], both percentages
      lie in [0, 100]. */
  lemma KpiPercentagesBounded(data: seq<Assessment>)
    requires data != []
    requires forall a :: a in data ==> 0 <= a.fence <= 1 && 0.0 <= a.electricityReliability <= 1.0
    ensures 0.0 <= CalculateKpis(data).pctElectricity <= 100.0
    ensures 0.0 <= CalculateKpis(data).pctFence <= 100.0
  {
    FlagPercentBounds(data, Electricity);
    FlagPercentBounds(data, Fence);
  }

  /** When every selected school is Good, the three ratio cards are green: the
      card colours agree with the alert rule. */
  lemma AllGoodMeansGreenCards(data: seq<Assessment>)
    requires data != []
    requires forall a :: a in data ==> GoodRow(a)
    ensures CalculateKpis(data).scColour == Green
    ensures CalculateKpis(data).stColour == Green
    ensures CalculateKpis(data).infraColour == Green
  {
    forall a | a in data
      ensures SCRatio(a) <= 45.0 && STRatio(a) <= 35.0 && Infra(a) >= 0.7
    {
      GoodHasAllReasons(ReadingsOf(a));
    }
    MeanAtMost(data, SCRatio, 45.0);
    MeanAtMost(data, STRatio, 35.0);
    MeanAtLeast(data, Infra, 0.7);
  }

  // ---------------------------------------------------------------------------
  // The school-age table.

  const AgeBins: seq<real> := [0.0, 10.0, 20.0, 30.0, 40.0, 50.0, 60.0, 100.0]
  const AgeLabels: seq<string> :=
    ["0-10 yrs", "11-20 yrs", "21-30 yrs", "31-40 yrs", "41-50 yrs", "51-60 yrs", ">60 yrs"]

  /** Bin `k` is the right-closed interval `(bins[k], bins[k+1]]`. */
  predicate InBin(age: real, k: nat)
    requires k < 7
  {
    AgeBins[k] < age <= AgeBins[k + 1]
  }

  /** `pd.cut(..., right=True)` from bin `k` on: the first bin `(lo, hi]` holding the age. */
  function FindBin(age: real, k: nat): (g: Option<nat>)
    requires k <= 7
    ensures g.Some? ==> k <= g.value < 7 && InBin(age, g.value)
    ensures g.None? ==> forall j :: k <= j < 7 ==> !InBin(age, j)
    decreases 7 - k
  {
    if k == 7 then None
    else if InBin(age, k) then Some(k)
    else FindBin(age, k + 1)
  }

  /** The label index of an age; ages of 0 or less and above 100 get none. */
  function AgeGroup(age: real): Option<nat>
  {
    FindBin(age, 0)
  }

  /** An age is in group `k` exactly when it lies in `(bins[k], bins[k+1]]`, and it
      has a group exactly when it lies in `(0, 100]`. */
  lemma AgeGroupExact(age: real, k: nat)
    requires k < 7
    ensures AgeGroup(age) == Some(k) <==> AgeBins[k] < age <= AgeBins[k + 1]
    ensures AgeGroup(age).Some? <==> 0.0 < age <= 100.0
  {
  }

  function InGroupFn(k: nat): Assessment -> bool
  {
    (a: Assessment) => AgeGroup(a.schoolAge) == Some(k)
  }

  function BelowGroupFn(k: nat): Assessment -> bool
  {
    (a: Assessment) => AgeGroup(a.schoolAge).Some? && AgeGroup(a.schoolAge).value < k
  }

  function SchoolName(a: Assessment): string
  {
    a.place.schoolName
  }

  /** The names of the schools in age group `k`, in table order. */
  function NamesInGroup(rows: seq<Assessment>, k: nat): seq<string>
  {
    Map(Where(rows, InGroupFn(k)), SchoolName)
  }

  /** The `Schools` cell: at most five names, then how many more there are. */
  function SchoolsText(names: seq<string>): string
  {
    Join(Take(names, 5), ", ") +
    (if |names| > 5 then " (+" + NatToString(|names| - 5) + " more)" else "")
  }

  /** Up to five names the cell lists them all; beyond five it lists the first
      five and a suffix whose number reads back as the count of names left out. */
  lemma SchoolsTextShape(names: seq<string>)
    ensures |names| <= 5 ==> SchoolsText(names) == Join(names, ", ")
    ensures |names| > 5 ==>
              SchoolsText(names) == Join(names[..5], ", ") + (" (+" + NatToString(|names| - 5) + " more)") &&
              5 + ParseNat(NatToString(|names| - 5)) == |names|
  {
    if |names| > 5 {
      assert Take(names, 5) == names[..5];
      NatToStringRoundTrip(|names| - 5);
    } else {
      assert Take(names, 5) == names;
    }
  }

  datatype AgeRow = AgeRow(ageRange: string, count: nat, schools: string)

  /** The table lines for the first `k` labels; empty groups have no line. */
  function AgeSummary(rows: seq<Assessment>, k: nat): seq<AgeRow>
    requires k <= 7
  {
    if k == 0 then [] else AgeSummary(rows, k - 1) + AgeLine(rows, k - 1)
  }

  /** The line of label `k`, or nothing when its group is empty. */
  function AgeLine(rows: seq<Assessment>, k: nat): (line: seq<AgeRow>)
    requires k < 7
    ensures |line| <= 1
    ensures line != [] ==> line[0].count > 0
  {
    var names := NamesInGroup(rows, k);
    if names != [] then [AgeRow(AgeLabels[k], |names|, SchoolsText(names))] else []
  }

  /** What the age panel shows: a message, or the table. */
  datatype AgeView = NoData | AgeTable(lines: seq<AgeRow>)

  /** `update_age_table` once the selection is filtered: one pass over the labels. */
  method UpdateAgeTable(rows: seq<Assessment>) returns (view: AgeView)
    ensures view == if AgeSummary(rows, 7) == [] then NoData else AgeTable(AgeSummary(rows, 7))
  {
    var summary: seq<AgeRow> := [];
    for k := 0 to 7
      invariant summary == AgeSummary(rows, k)
    {
      var names := Map(Where(rows, InGroupFn(k)), SchoolName);
      if names != [] {
        summary := summary + [AgeRow(AgeLabels[k], |names|, SchoolsText(names))];
      }
      assert AgeLine(rows, k) == if names != [] then [AgeRow(AgeLabels[k], |names|, SchoolsText(names))] else [];
    }
    if summary == [] {
      return NoData;
    }
    view := AgeTable(summary);
  }

  function TotalCount(lines: seq<AgeRow>): nat
  {
    if lines == [] then 0 else TotalCount(lines[..|lines| - 1]) + lines[|lines| - 1].count
  }

  /** Each line counts a non-empty group, and there is at most one line per label. */
  lemma {:induction false} AgeSummaryLines(rows: seq<Assessment>, k: nat)
    requires k <= 7
    ensures |AgeSummary(rows, k)| <= k
    ensures forall i :: 0 <= i < |AgeSummary(rows, k)| ==> AgeSummary(rows, k)[i].count > 0
  {
    if k > 0 {
      AgeSummaryLines(rows, k - 1);
      var before: seq<AgeRow> := AgeSummary(rows, k - 1);
      var line: seq<AgeRow> := AgeLine(rows, k - 1);
      forall i | 0 <= i < |before + line|
        ensures (before + line)[i].count > 0
      {
        if i < |before| {
          assert (before + line)[i] == before[i];
        } else {
          assert (before + line)[i] == line[0];
        }
      }
    }
  }

  lemma TotalCountAppend(a: seq<AgeRow>, b: seq<AgeRow>)
    requires |b| <= 1
    ensures TotalCount(a + b) == TotalCount(a) + TotalCount(b)
  {
    if b != [] {
      assert (a + b)[..|a|] == a;
      assert b[..0] == [];
    } else {
      assert a + b == a;
    }
  }

  lemma AgeLineCount(rows: seq<Assessment>, k: nat)
    requires k < 7
    ensures TotalCount(AgeLine(rows, k)) == |Where(rows, InGroupFn(k))|
  {
    var line := AgeLine(rows, k);
    if line != [] {
      assert line[..0] == [];
    }
  }

  /** The schools below group `k` are those below `k - 1` and those in `k - 1`. */
  lemma BelowGroupSplit(rows: seq<Assessment>, k: nat)
    requires k > 0
    ensures |Where(rows, BelowGroupFn(k))| == |Where(rows, BelowGroupFn(k - 1))| + |Where(rows, InGroupFn(k - 1))|
  {
    WhereCountUnion(rows, BelowGroupFn(k - 1), InGroupFn(k - 1), BelowGroupFn(k));
  }

  lemma NoneBelowFirstGroup(rows: seq<Assessment>)
    ensures Where(rows, BelowGroupFn(0)) == []
    ensures TotalCount(AgeSummary(rows, 0)) == |Where(rows, BelowGroupFn(0))|
  {
    forall a | a in rows
      ensures !BelowGroupFn(0)(a)
    {
    }
    WhereNone(rows, BelowGroupFn(0));
  }

  /** The line counts of the whole table add up to the number of schools that
      fall in one of the seven groups. */
  lemma AgeSummaryTotal(rows: seq<Assessment>)
    ensures TotalCount(AgeSummary(rows, 7)) == |Where(rows, BelowGroupFn(7))|
  {
    NoneBelowFirstGroup(rows);
    AgeSummaryTotalStep(rows, 1);
    AgeSummaryTotalStep(rows, 2);
    AgeSummaryTotalStep(rows, 3);
    AgeSummaryTotalStep(rows, 4);
    AgeSummaryTotalStep(rows, 5);
    AgeSummaryTotalStep(rows, 6);
    AgeSummaryTotalStep(rows, 7);
  }

  /** If the totals agree for the first `k - 1` labels, they agree for `k`. */
  lemma AgeSummaryTotalStep(rows: seq<Assessment>, k: nat)
    requires 0 < k <= 7
    requires TotalCount(AgeSummary(rows, k - 1)) == |Where(rows, BelowGroupFn(k - 1))|
    ensures TotalCount(AgeSummary(rows, k)) == |Where(rows, BelowGroupFn(k))|
  {
    AgeSummaryStep(rows, k);
    BelowGroupSplit(rows, k);
  }

  /** One more label adds the size of its group to the total. */
  lemma AgeSummaryStep(rows: seq<Assessment>, k: nat)
    requires 0 < k <= 7
    ensures TotalCount(AgeSummary(rows, k)) == TotalCount(AgeSummary(rows, k - 1)) + |Where(rows, InGroupFn(k - 1))|
  {
    var before := AgeSummary(rows, k - 1);
    var line := AgeLine(rows, k - 1);
    assert AgeSummary(rows, k) == before + line;
    AgeLineCount(rows, k - 1);
    TotalCountAppend(before, line);
  }

  lemma {:induction false} TotalCountPositive(lines: seq<AgeRow>)
    requires lines != []
    requires forall i :: 0 <= i < |lines| ==> lines[i].count > 0
    ensures TotalCount(lines) > 0
  {
  }

  /** The panel says "No data available" exactly when no selected school has an
      age in `(0, 100]`; otherwise its counts add up to the schools that have one. */
  lemma AgeTableEmptyIffNoAges(rows: seq<Assessment>)
    ensures AgeSummary(rows, 7) == [] <==> forall a :: a in rows ==> !(0.0 < a.schoolAge <= 100.0)
    ensures TotalCount(AgeSummary(rows, 7)) == |Where(rows, BelowGroupFn(7))|
  {
    AgeSummaryLines(rows, 7);
    AgeSummaryTotal(rows);
    var summary := AgeSummary(rows, 7);
    var with := Where(rows, BelowGroupFn(7));
    WhereMembers(rows, BelowGroupFn(7));
    if summary != [] {
      TotalCountPositive(summary);
      assert with[0] in rows;
      AgeGroupExact(with[0].schoolAge, 0);
    } else {
      forall a | a in rows
        ensures !(0.0 < a.schoolAge <= 100.0)
      {
        AgeGroupExact(a.schoolAge, 0);
      }
    }
  }

  // ---------------------------------------------------------------------------
  // The heat-map grouping.

  datatype GroupColumn = ByLocationType | BySector | ByDistrict | ByProvince

  /** The column the heat map groups by, chosen from the raw dropdown values. */
  function HeatmapGroupColumn(location: Option<string>, province: Option<string>, district: Option<string>): (g: GroupColumn)
    ensures g == ByLocationType <==> location == Some(AllLocations)
    ensures g == BySector <==>
      location != Some(AllLocations) && province != Some(AllProvinces) && district != Some(AllDistricts)
    ensures g == ByDistrict <==>
      location != Some(AllLocations) && province != Some(AllProvinces) && district == Some(AllDistricts)
    ensures g == ByProvince <==> location != Some(AllLocations) && province == Some(AllProvinces)
  {
    if location == Some(AllLocations) then ByLocationType
    else if province != Some(AllProvinces) && district != Some(AllDistricts) then BySector
    else if province != Some(AllProvinces) then ByDistrict
    else ByProvince
  }

  /** A dropdown value passed on to the filter, with its "All …" entry turned into `None`. */
  function Pass(sel: Option<string>, sentinel: string): Option<string>
  {
    if sel == Some(sentinel) then None else sel
  }

  /** When the heat map groups by sector and a district is chosen, every school it
      aggregates lies in that district, so the columns are sectors of one district. */
  lemma SectorHeatmapStaysInDistrict(df: seq<Assessment>, location: Option<string>, province: Option<string>,
                                     district: Option<string>, sector: Option<string>, schools: Option<seq<string>>)
    requires HeatmapGroupColumn(location, province, district) == BySector
    requires district.Some? && district.value != ""
    ensures forall a :: a in Filtered(df, AssessmentPlace,
                Criteria(Pass(location, AllLocations), Pass(province, AllProvinces),
                         Pass(district, AllDistricts), Pass(sector, AllSectors), schools))
              ==> a.place.district == district.value
  {
    var c := Criteria(Pass(location, AllLocations), Pass(province, AllProvinces),
                      Pass(district, AllDistricts), Pass(sector, AllSectors), schools);
    FilteredSound(df, AssessmentPlace, c);
    var r := Filtered(df, AssessmentPlace, c);
    forall a | a in r
      ensures a.place.district == district.value
    {
      var i :| 0 <= i < |r| && r[i] == a;
      assert Matches(c, AssessmentPlace(r[i]));
    }
  }
}
