/** The combined dashboard: the alert lists over the merged assessment and
    inspection table (whose columns are read with a default of 0), the location
    filter, the cascading district and sector dropdowns, and the text that
    describes the current selection. */
module DashSimple {
  import opened Wrappers
  import opened Text
  import opened Ranking
  import opened Schools
  import opened Alerts

  // ---------------------------------------------------------------------------
  // The merged table.

  /** One row of the merged table. The columns read with `row.get(col, 0)` are
      optional: `None` stands for a column the merged table does not have, which
      `row.get` reads as 0. A cell left empty by the left merge (NaN) is not
      modelled. */
  datatype MergedRow = MergedRow(
    place: Place,
    students: Option<int>,
    teachers: Option<int>,
    classrooms: Option<int>,
    sc: Option<real>,
    st: Option<real>,
    infra: Option<real>,
    studentsPerToilet: Option<real>,
    toiletDamage: Option<real>,
    waterQuality: Option<real>,
    electricity: Option<real>,
    safetyCompliance: Option<real>,
    pta: Option<int>,
    delayed: Option<int>,
    safetyConcern: Option<int>,
    fence: Option<int>)

  function MergedPlace(m: MergedRow): Place
  {
    m.place
  }

  /** The six values the alert rule reads, each defaulting to 0. */
  function ReadingsOf(m: MergedRow): Readings
  {
    Readings(m.sc.GetOr(0.0), m.st.GetOr(0.0), m.infra.GetOr(0.0),
             m.delayed.GetOr(0), m.safetyConcern.GetOr(0), m.fence.GetOr(0))
  }

  // ---------------------------------------------------------------------------
  // Alerts.

  /** One line of an alert table, with the display columns of this dashboard. */
  datatype AlertEntry = AlertEntry(
    school: string,
    location: string,
    province: string,
    district: string,
    students: int,
    teachers: int,
    classrooms: int,
    sc: real,
    st: real,
    infra: real,
    toilets: real,
    damagedToiletsPct: real,
    waterQuality: real,
    electricity: real,
    safetyCompliancePct: real,
    pta: int,
    delayedMaintenance: int,
    issues: Option<string>,
    whyGood: Option<string>)

  function SchoolInfo(m: MergedRow): AlertEntry
  {
    var r := ReadingsOf(m);
    AlertEntry(m.place.schoolName, LocationOf(m.place), m.place.province, m.place.district,
               m.students.GetOr(0), m.teachers.GetOr(0), m.classrooms.GetOr(0),
               r.sc, r.st, r.infra,
               m.studentsPerToilet.GetOr(0.0), m.toiletDamage.GetOr(0.0) * 100.0,
               m.waterQuality.GetOr(0.0), m.electricity.GetOr(0.0),
               m.safetyCompliance.GetOr(0.0) * 100.0, m.pta.GetOr(0), r.delayed,
               None, None)
  }

  predicate UrgentRow(m: MergedRow)
  {
    Classify(ReadingsOf(m)).Urgent?
  }

  predicate AttentionRow(m: MergedRow)
  {
    Classify(ReadingsOf(m)).Attention?
  }

  predicate GoodRow(m: MergedRow)
  {
    Classify(ReadingsOf(m)).Good?
  }

  function UrgentEntry(m: MergedRow): AlertEntry
  {
    SchoolInfo(m)
  }

  function AttentionEntry(m: MergedRow): AlertEntry
  {
    SchoolInfo(m).(issues := Some(IssuesText(ReadingsOf(m))))
  }

  function GoodEntry(m: MergedRow): AlertEntry
  {
    SchoolInfo(m).(whyGood := Some(WhyGoodText(ReadingsOf(m))))
  }

  datatype AlertLists = AlertLists(urgent: seq<AlertEntry>, attention: seq<AlertEntry>, good: seq<AlertEntry>)

  function AlertsOf(data: seq<MergedRow>): AlertLists
  {
    AlertLists(Map(Where(data, UrgentRow), UrgentEntry),
               Map(Where(data, AttentionRow), AttentionEntry),
               Map(Where(data, GoodRow), GoodEntry))
  }

  /** The lists after one more row: the row's entry joins its own section. */
  function AddRow(lists: AlertLists, m: MergedRow): AlertLists
  {
    if UrgentRow(m) then lists.(urgent := lists.urgent + [UrgentEntry(m)])
    else if AttentionRow(m) then lists.(attention := lists.attention + [AttentionEntry(m)])
    else lists.(good := lists.good + [GoodEntry(m)])
  }

  lemma AlertsOfStep(data: seq<MergedRow>, i: nat)
    requires i < |data|
    ensures AlertsOf(data[..i + 1]) == AddRow(AlertsOf(data[..i]), data[i])
  {
    MapWherePrefix(data, i, UrgentRow, UrgentEntry);
    MapWherePrefix(data, i, AttentionRow, AttentionEntry);
    MapWherePrefix(data, i, GoodRow, GoodEntry);
  }

  /** `calculate_alerts` of the combined dashboard. */
  method CalculateAlerts(data: seq<MergedRow>) returns (alerts: AlertLists)
    ensures alerts == AlertsOf(data)
    ensures data == [] ==> alerts == AlertLists([], [], [])
  {
    if |data| == 0 {
      return AlertLists([], [], []);
    }
    var urgent: seq<AlertEntry> := [];
    var attention: seq<AlertEntry> := [];
    var good: seq<AlertEntry> := [];
    for i := 0 to |data|
      invariant AlertLists(urgent, attention, good) == AlertsOf(data[..i])
    {
      var row := data[i];
      var sc := row.sc.GetOr(0.0);
      var st := row.st.GetOr(0.0);
      var infra := row.infra.GetOr(0.0);
      var delayedMaint := row.delayed.GetOr(0);
      var safetyConcerns := row.safetyConcern.GetOr(0);
      var fenceAvail := row.fence.GetOr(0);
      var info := SchoolInfo(row);
      ghost var before := AlertLists(urgent, attention, good);
      if sc > 50.0 || st > 40.0 || infra < 0.5 {
        assert UrgentRow(row);
        urgent := urgent + [info];
      } else if (45.0 < sc <= 50.0) || (35.0 < st <= 40.0) || (0.5 <= infra < 0.7) ||
                delayedMaint == 1 || safetyConcerns == 1 || fenceAvail == 0 {
        assert !UrgentRow(row) && AttentionRow(row);
        var issues := IssueList(ReadingsOf(row));
        info := info.(issues := Some(Join(issues, ", ")));
        attention := attention + [info];
      } else {
        assert !UrgentRow(row) && !AttentionRow(row);
        var reasons := ReasonList(ReadingsOf(row));
        info := info.(whyGood := Some(Join(reasons, ", ")));
        good := good + [info];
      }
      assert AlertLists(urgent, attention, good) == AddRow(before, row);
      AlertsOfStep(data, i);
    }
    assert data[..|data|] == data;
    alerts := AlertLists(urgent, attention, good);
  }

  /** The three section counts add up to the count in the card header, the
      number of schools in the selection, and each list keeps the table order. */
  lemma SectionCountsMatchHeader(data: seq<MergedRow>)
    ensures |AlertsOf(data).urgent| + |AlertsOf(data).attention| + |AlertsOf(data).good| == |data|
    ensures IsSubseq(Where(data, UrgentRow), data)
    ensures IsSubseq(Where(data, AttentionRow), data)
    ensures IsSubseq(Where(data, GoodRow), data)
  {
    WherePartition3(data, UrgentRow, AttentionRow, GoodRow);
    WhereIsSubseq(data, UrgentRow);
    WhereIsSubseq(data, AttentionRow);
    WhereIsSubseq(data, GoodRow);
  }

  /** When the table has no infrastructure column, `row.get` reads 0, so the
      row is Urgent. */
  lemma MissingInfraIsUrgent(m: MergedRow)
    requires m.infra.None?
    ensures UrgentRow(m)
  {
  }

  /** When the table has no fence column, `row.get` reads 0: unless the row is
      Urgent, it needs Attention, and its issues end with "No Fence". */
  lemma MissingFenceNeedsAttention(m: MergedRow)
    requires m.fence.None? && !UrgentRow(m)
    ensures AttentionRow(m)
    ensures NoFence in IssueTags(ReadingsOf(m))
    ensures Map(IssueTags(ReadingsOf(m)), IssueLabel)[|IssueTags(ReadingsOf(m))| - 1] == "No Fence"
  {
    var r := ReadingsOf(m);
    assert r.fence == 0;
    NoFenceListedLast(r);
    assert IssueHolds(NoFence, r);
  }

  /** Good rows carry all three reasons. */
  lemma GoodEntriesHaveAllReasons(data: seq<MergedRow>)
    ensures forall i :: 0 <= i < |AlertsOf(data).good| ==>
              AlertsOf(data).good[i].whyGood == Some("S/C≤45, S/T≤35, Infra≥0.7")
  {
    var rows := Where(data, GoodRow);
    WhereMembers(data, GoodRow);
    forall i | 0 <= i < |AlertsOf(data).good|
      ensures AlertsOf(data).good[i].whyGood == Some("S/C≤45, S/T≤35, Infra≥0.7")
    {
      var row := rows[i];
      assert AlertsOf(data).good[i] == GoodEntry(row);
      assert GoodRow(row);
      GoodHasAllReasons(ReadingsOf(row));
    }
  }

  // ---------------------------------------------------------------------------
  // The filter.

  /** `filter_data(location, province, district, sector)` over the merged table. */
  method FilterData(df: seq<MergedRow>, location: Option<string>, province: Option<string>,
                    district: Option<string>, sector: Option<string>)
    returns (filtered: seq<MergedRow>)
    ensures filtered == Filtered(df, MergedPlace, Criteria(location, province, district, sector, None))
  {
    filtered := FilterRows(df, MergedPlace, Criteria(location, province, district, sector, None));
  }

  /** With four criteria the school-list step never applies: the rows kept are
      exactly those that agree with every active location criterion. */
  lemma FilterDataIsConjunction(df: seq<MergedRow>, location: Option<string>, province: Option<string>,
                                district: Option<string>, sector: Option<string>, m: MergedRow)
    requires m in df
    ensures m in Filtered(df, MergedPlace, Criteria(location, province, district, sector, None)) <==>
      (Active(location, AllLocations) ==> LocationOf(m.place) == location.value) &&
      (Active(province, AllProvinces) ==> m.place.province == province.value) &&
      (Active(district, AllDistricts) ==> m.place.district == district.value) &&
      (Active(sector, AllSectors) ==> m.place.sector == sector.value)
  {
    var c := Criteria(location, province, district, sector, None);
    FilteredSound(df, MergedPlace, c);
    var i :| 0 <= i < |df| && df[i] == m;
    var r := Filtered(df, MergedPlace, c);
    if m in r {
      var j :| 0 <= j < |r| && r[j] == m;
    }
  }

  // ---------------------------------------------------------------------------
  // The cascading dropdowns.

  function Province(m: MergedRow): string { m.place.province }
  function District(m: MergedRow): string { m.place.district }
  function Sector(m: MergedRow): string { m.place.sector }

  function ProvinceIs(p: string): MergedRow -> bool
  {
    (m: MergedRow) => m.place.province == p
  }

  function DistrictIs(d: string): MergedRow -> bool
  {
    (m: MergedRow) => m.place.district == d
  }

  /** `districts_by_province`: for every province of the table, its districts,
      sorted and without repeats. */
  function DistrictsByProvince(df: seq<MergedRow>): map<string, seq<string>>
  {
    map p | p in SortedUnique(Map(df, Province)) :: SortedUnique(Map(Where(df, ProvinceIs(p)), District))
  }

  /** `sectors_by_district`: for every district name of the table, in whichever
      province, its sectors, sorted and without repeats. */
  function SectorsByDistrict(df: seq<MergedRow>): map<string, seq<string>>
  {
    map d | d in Map(df, District) :: SortedUnique(Map(Where(df, DistrictIs(d)), Sector))
  }

  /** `dict.get(key, [])` on an optional key. */
  function Lookup(m: map<string, seq<string>>, key: Option<string>): seq<string>
  {
    if key.Some? && key.value in m then m[key.value] else []
  }

  /** `update_district_options`: the options and the reset value. */
  function DistrictOptions(df: seq<MergedRow>, selectedProvince: Option<string>): (r: (seq<string>, string))
    ensures |r.0| > 0 && r.0[0] == AllDistricts && r.1 == AllDistricts
  {
    if selectedProvince == Some(AllProvinces) then
      ([AllDistricts] + SortedUnique(Map(df, District)), AllDistricts)
    else
      ([AllDistricts] + Lookup(DistrictsByProvince(df), selectedProvince), AllDistricts)
  }

  /** `update_sector_options`: the options and the reset value. */
  function SectorOptions(df: seq<MergedRow>, selectedDistrict: Option<string>): (r: (seq<string>, string))
    ensures |r.0| > 0 && r.0[0] == AllSectors && r.1 == AllSectors
  {
    if selectedDistrict == Some(AllDistricts) then
      ([AllSectors] + SortedUnique(Map(df, Sector)), AllSectors)
    else
      ([AllSectors] + Lookup(SectorsByDistrict(df), selectedDistrict), AllSectors)
  }

  lemma MapMember<A, B>(xs: seq<A>, f: A -> B, y: B)
    ensures y in Map(xs, f) <==> exists i :: 0 <= i < |xs| && f(xs[i]) == y
  {
    if y in Map(xs, f) {
      var i :| 0 <= i < |Map(xs, f)| && Map(xs, f)[i] == y;
    }
  }

  /** A province that no row has, or no province at all, offers only "All Districts". */
  lemma UnknownProvinceOffersOnlySentinel(df: seq<MergedRow>, p: Option<string>)
    requires p != Some(AllProvinces)
    requires p.Some? ==> forall i :: 0 <= i < |df| ==> df[i].place.province != p.value
    ensures DistrictOptions(df, p).0 == [AllDistricts]
  {
    if p.Some? {
      MapMember(df, Province, p.value);
    }
  }

  /** A district that no row has, or no district at all, offers only "All Sectors". */
  lemma UnknownDistrictOffersOnlySentinel(df: seq<MergedRow>, d: Option<string>)
    requires d != Some(AllDistricts)
    requires d.Some? ==> forall i :: 0 <= i < |df| ==> df[i].place.district != d.value
    ensures SectorOptions(df, d).0 == [AllSectors]
  {
    if d.Some? {
      MapMember(df, District, d.value);
    }
  }

  /** The districts of the rows in province `p` are the districts of the table's
      rows whose province is `p`. */
  lemma DistrictsInProvince(df: seq<MergedRow>, p: string, d: string)
    ensures d in Map(Where(df, ProvinceIs(p)), District) <==>
              exists i :: 0 <= i < |df| && df[i].place.province == p && df[i].place.district == d
  {
    var inProv := Where(df, ProvinceIs(p));
    WhereMembers(df, ProvinceIs(p));
    MapMember(inProv, District, d);
    if d in Map(inProv, District) {
      var j :| 0 <= j < |inProv| && District(inProv[j]) == d;
      var k :| 0 <= k < |df| && df[k] == inProv[j];
      assert df[k].place.province == p && df[k].place.district == d;
    }
    if exists i :: 0 <= i < |df| && df[i].place.province == p && df[i].place.district == d {
      var i :| 0 <= i < |df| && df[i].place.province == p && df[i].place.district == d;
      assert ProvinceIs(p)(df[i]);
      assert df[i] in inProv;
      var j :| 0 <= j < |inProv| && inProv[j] == df[i];
      assert District(inProv[j]) == d;
    }
  }

  /** For a province of the table, the offered districts after the sentinel are
      sorted, without repeats, and are exactly the districts of its schools. */
  lemma ProvinceDistrictsExact(df: seq<MergedRow>, p: string, d: string)
    requires p != AllProvinces
    requires exists i :: 0 <= i < |df| && df[i].place.province == p
    ensures StrictlySorted(DistrictOptions(df, Some(p)).0[1..])
    ensures d in DistrictOptions(df, Some(p)).0[1..] <==>
              exists i :: 0 <= i < |df| && df[i].place.province == p && df[i].place.district == d
  {
    var i0 :| 0 <= i0 < |df| && df[i0].place.province == p;
    MapMember(df, Province, p);
    assert p in SortedUnique(Map(df, Province));
    assert DistrictOptions(df, Some(p)).0[1..] == SortedUnique(Map(Where(df, ProvinceIs(p)), District));
    DistrictsInProvince(df, p, d);
  }

  /** With "All Provinces", every district of the table is offered once, in order. */
  lemma AllProvincesOffersEveryDistrict(df: seq<MergedRow>, d: string)
    ensures StrictlySorted(DistrictOptions(df, Some(AllProvinces)).0[1..])
    ensures d in DistrictOptions(df, Some(AllProvinces)).0[1..] <==>
              exists i :: 0 <= i < |df| && df[i].place.district == d
  {
    MapMember(df, District, d);
    assert DistrictOptions(df, Some(AllProvinces)).0[1..] == SortedUnique(Map(df, District));
  }

  // ---------------------------------------------------------------------------
  // The selection text.

  const DefaultSelectionText := "🌍 All Locations | All Provinces, Districts & Sectors"

  /** The parts describing the active dropdowns, in the order location,
      province, district, sector. */
  function SelectionParts(location: string, province: string, district: string, sector: string): seq<string>
  {
    (if location != AllLocations then ["🌍 " + location] else []) +
    (if province != AllProvinces then ["📍 " + province] else []) +
    (if district != AllDistricts then ["\U{1F3D8}\U{FE0F} " + district] else []) +
    (if sector != AllSectors then ["\U{1F5FA}\U{FE0F} " + sector] else [])
  }

  /** `update_selection_display`. */
  function SelectionText(location: string, province: string, district: string, sector: string): (t: string)
    ensures t != ""
  {
    var parts := SelectionParts(location, province, district, sector);
    if parts != [] then
      assert parts[0] != "";
      JoinNonEmpty(parts, " → ", 0);
      Join(parts, " → ")
    else DefaultSelectionText
  }

  /** There is one part per dropdown that is not at its "All …" entry. */
  lemma SelectionPartsCount(location: string, province: string, district: string, sector: string)
    ensures |SelectionParts(location, province, district, sector)| ==
      (if location != AllLocations then 1 else 0) + (if province != AllProvinces then 1 else 0) +
      (if district != AllDistricts then 1 else 0) + (if sector != AllSectors then 1 else 0)
  {
  }

  /** With every dropdown at its "All …" entry the text is the fixed default;
      otherwise it is the parts joined by " → ", and the first part comes first. */
  lemma SelectionTextCases(location: string, province: string, district: string, sector: string)
    ensures (location == AllLocations && province == AllProvinces && district == AllDistricts && sector == AllSectors)
              ==> SelectionText(location, province, district, sector) == DefaultSelectionText
    ensures location != AllLocations ==>
              SelectionText(location, province, district, sector)[..|"🌍 " + location|] == "🌍 " + location
  {
    var parts := SelectionParts(location, province, district, sector);
    if location != AllLocations {
      var first := "🌍 " + location;
      assert parts[0] == first;
      if |parts| > 1 {
        assert Join(parts, " → ") == first + " → " + Join(parts[1..], " → ");
      }
    }
  }

  /** A province and a district chosen, location and sector left open: the
      two parts joined by the arrow. */
  lemma SelectionTextProvinceDistrict(province: string, district: string)
    requires province != AllProvinces && district != AllDistricts
    ensures SelectionText(AllLocations, province, district, AllSectors)
              == "📍 " + province + " → " + "\U{1F3D8}\U{FE0F} " + district
  {
    var a := "📍 " + province;
    var b := "\U{1F3D8}\U{FE0F} " + district;
    JoinSmall(a, b, "", " → ");
    assert SelectionParts(AllLocations, province, district, AllSectors) == [a, b];
  }

  /** All four dropdowns chosen: the four parts in order, joined by the arrow. */
  lemma SelectionTextAllFour(location: string, province: string, district: string, sector: string)
    requires location != AllLocations && province != AllProvinces
    requires district != AllDistricts && sector != AllSectors
    ensures SelectionText(location, province, district, sector)
              == ("🌍 " + location) + " → " + ("📍 " + province) + " → " +
                 ("\U{1F3D8}\U{FE0F} " + district) + " → " + ("\U{1F5FA}\U{FE0F} " + sector)
  {
    var a := "🌍 " + location;
    var b := "📍 " + province;
    var c := "\U{1F3D8}\U{FE0F} " + district;
    var d := "\U{1F5FA}\U{FE0F} " + sector;
    assert SelectionParts(location, province, district, sector) == [a, b, c, d];
    JoinFour(a, b, c, d, " → ");
  }
}
