/** The school records the dashboards read, the urban/rural typing of a school
    by its code, and the location filter every dashboard applies before it
    computes anything. */
module Schools {
  import opened Wrappers
  import opened Ranking

  // ---------------------------------------------------------------------------
  // Where a school is.

  /** The identifying and location columns every sheet carries. Missing province,
      district and sector names have already been replaced by "Unknown" at load. */
  datatype Place = Place(
    schoolName: string,
    schoolCode: int,
    province: string,
    district: string,
    sector: string)

  /** School codes of the schools in Kigali City. */
  const KigaliCodes: seq<int> :=
    [110504, 110505, 120735, 130804, 130405, 121207, 110306, 121011, 130819, 110909]

  /** School codes of the schools in the secondary cities. */
  const SecondaryCodes: seq<int> :=
    [331232, 330802, 330713, 240605, 240504, 240202, 271011, 270202, 270517,
     270613, 430207, 430706, 430518, 430801, 520312, 520403, 520801, 361510,
     360614, 361306]

  datatype LocationType = KigaliCity | SecondaryCities | RuralDistricts

  /** The text stored in the `location_type` column. */
  function LocationName(t: LocationType): string
  {
    match t
    case KigaliCity => "Kigali City"
    case SecondaryCities => "Secondary Cities"
    case RuralDistricts => "Rural Districts"
  }

  /** `get_location_type`: the Kigali list is consulted first, then the
      secondary-city list; every other code is rural. */
  function GetLocationType(code: int): (t: LocationType)
    ensures t == KigaliCity <==> code in KigaliCodes
    ensures t == SecondaryCities <==> code !in KigaliCodes && code in SecondaryCodes
    ensures t == RuralDistricts <==> code !in KigaliCodes && code !in SecondaryCodes
  {
    if code in KigaliCodes then KigaliCity
    else if code in SecondaryCodes then SecondaryCities
    else RuralDistricts
  }

  /** The derived `location_type` column of a school. */
  function LocationOf(p: Place): string
  {
    LocationName(GetLocationType(p.schoolCode))
  }

  /** No code is on both lists, so the precedence of the Kigali test never hides
      a secondary city. */
  lemma CodeListsDisjoint(code: int)
    ensures !(code in KigaliCodes && code in SecondaryCodes)
    ensures GetLocationType(code) == SecondaryCities <==> code in SecondaryCodes
  {
  }

  /** The three names are distinct, so the column value determines the type. */
  lemma LocationNameInjective(a: LocationType, b: LocationType)
    ensures LocationName(a) == LocationName(b) <==> a == b
  {
  }

  /** The column only ever holds one of the three names. */
  lemma LocationOfIsOneOfThree(p: Place)
    ensures LocationOf(p) in ["Kigali City", "Secondary Cities", "Rural Districts"]
  {
  }

  // ---------------------------------------------------------------------------
  // The two sheets.

  /** One row of the assessment sheet, which the overview and the maintenance
      dashboard read. Ratios, indices and rates are reals; counts and 0/1 flags
      are integers. */
  datatype Assessment = Assessment(
    place: Place,
    students: int,
    classrooms: int,
    teachers: int,
    studentClassroomRatio: real,        // kpi_a1
    studentTeacherRatio: real,          // kpi_a2
    infraHealth: real,                  // index_1, in [0, 1]
    electricityReliability: real,       // kpi_d2
    waterQuality: real,                 // kpi_d1
    classroomDamage: real,              // kpi_b1
    toiletDamage: real,                 // kpi_b2
    fence: int,                         // kpi_c1, 0/1
    schoolAge: real,                    // kpi_b3, in years
    toiletsBoys: int,
    toiletsGirls: int,
    maintenanceActivity: int,           // m1, 0/1: maintenance in the last three years
    daysSinceMaintenance: real,         // m2
    capitationGrantPct: real,           // m3
    maintenanceFrequency: real,         // m4
    delayedMaintenance: int,            // m5, 0/1
    fundingDiversity: real,             // m6, in [0, 1]
    safetyConcern: int)                 // s2, 0/1: immediate safety concerns

  function AssessmentPlace(a: Assessment): Place
  {
    a.place
  }

  /** One row of the inspection sheet, which the safety dashboard reads. */
  datatype Inspection = Inspection(
    place: Place,
    safetyCompliance: real,             // saf_10, in [0, 100]
    utilitiesReliability: real,         // utl_9, in [0, 100]
    hygiene: real,                      // cln_4, in [0, 1]
    accessDisabled: int,                // acc_1, 0/1
    adequateLighting: int,              // acc_2, 0/1
    adequateVentilation: int,           // acc_3, 0/1
    waterAvailable: int,                // utl_2, 0/1
    electricityObserved: real,          // utl_6
    ptaPresent: int,                    // com_2, 0/1
    kitchenCondition: real,             // inf_8
    firefightingTools: int,             // saf_2, 0/1
    exitSigns: int,                     // saf_4, 0/1
    evacuationPlans: int,               // saf_5, 0/1
    safetyDrills: int)                  // saf_8, 0/1

  function InspectionPlace(r: Inspection): Place
  {
    r.place
  }

  // ---------------------------------------------------------------------------
  // The location filter.

  const AllLocations := "All Locations"
  const AllProvinces := "All Provinces"
  const AllDistricts := "All Districts"
  const AllSectors := "All Sectors"

  /** The selections passed to `filter_data`; `None` is Python's `None`. */
  datatype Criteria = Criteria(
    location: Option<string>,
    province: Option<string>,
    district: Option<string>,
    sector: Option<string>,
    schools: Option<seq<string>>)

  /** `if sel and sel != sentinel`: `None`, the empty text and the "All …"
      entry impose nothing. */
  predicate Active(sel: Option<string>, sentinel: string)
  {
    sel.Some? && sel.value != "" && sel.value != sentinel
  }

  /** `if schools and len(schools) > 0`. */
  predicate SchoolsActive(sel: Option<seq<string>>)
  {
    sel.Some? && |sel.value| > 0
  }

  /** Whether the step numbered `k` (location, province, district, sector,
      school list) will narrow the table. */
  predicate StepActive(c: Criteria, k: nat)
  {
    if k == 0 then Active(c.location, AllLocations)
    else if k == 1 then Active(c.province, AllProvinces)
    else if k == 2 then Active(c.district, AllDistricts)
    else if k == 3 then Active(c.sector, AllSectors)
    else if k == 4 then SchoolsActive(c.schools)
    else false
  }

  /** The row test of step `k`; an inactive step lets every row through. */
  predicate StepHolds(c: Criteria, k: nat, p: Place)
  {
    !StepActive(c, k) ||
    (if k == 0 then LocationOf(p) == c.location.value
     else if k == 1 then p.province == c.province.value
     else if k == 2 then p.district == c.district.value
     else if k == 3 then p.sector == c.sector.value
     else p.schoolName in c.schools.value)
  }

  /** The first `k` steps all let the row through. */
  predicate MatchesUpTo(c: Criteria, k: nat, p: Place)
  {
    (k > 0 ==> StepHolds(c, 0, p)) &&
    (k > 1 ==> StepHolds(c, 1, p)) &&
    (k > 2 ==> StepHolds(c, 2, p)) &&
    (k > 3 ==> StepHolds(c, 3, p)) &&
    (k > 4 ==> StepHolds(c, 4, p))
  }

  /** A row survives `filter_data` exactly when it meets every active criterion. */
  predicate Matches(c: Criteria, p: Place)
    ensures Matches(c, p) <==>
      (Active(c.location, AllLocations) ==> LocationOf(p) == c.location.value) &&
      (Active(c.province, AllProvinces) ==> p.province == c.province.value) &&
      (Active(c.district, AllDistricts) ==> p.district == c.district.value) &&
      (Active(c.sector, AllSectors) ==> p.sector == c.sector.value) &&
      (SchoolsActive(c.schools) ==> p.schoolName in c.schools.value)
  {
    MatchesUpTo(c, 5, p)
  }

  function PrefixFn<T>(place: T -> Place, c: Criteria, k: nat): T -> bool
  {
    (r: T) => MatchesUpTo(c, k, place(r))
  }

  function StepFn<T>(place: T -> Place, c: Criteria, k: nat): T -> bool
  {
    (r: T) => StepHolds(c, k, place(r))
  }

  function MatchFn<T>(place: T -> Place, c: Criteria): T -> bool
  {
    (r: T) => Matches(c, place(r))
  }

  /** The rows `filter_data` keeps, in their order. */
  function Filtered<T>(df: seq<T>, place: T -> Place, c: Criteria): seq<T>
  {
    Where(df, MatchFn(place, c))
  }

  lemma PrefixFnComplete<T>(df: seq<T>, place: T -> Place, c: Criteria)
    ensures Where(df, PrefixFn(place, c, 5)) == Filtered(df, place, c)
  {
    WhereExt(df, PrefixFn(place, c, 5), MatchFn(place, c));
  }

  /** One step of `filter_data`: narrowing the table by step `k` when it is active,
      leaving it as it is otherwise, gives the rows that pass the first `k + 1` steps. */
  lemma NextStep<T>(df: seq<T>, place: T -> Place, c: Criteria, k: nat, before: seq<T>, after: seq<T>)
    requires k < 5
    requires before == Where(df, PrefixFn(place, c, k))
    requires after == if StepActive(c, k) then Where(before, StepFn(place, c, k)) else before
    ensures after == Where(df, PrefixFn(place, c, k + 1))
  {
    if StepActive(c, k) {
      WhereThen(df, PrefixFn(place, c, k), StepFn(place, c, k), PrefixFn(place, c, k + 1));
    } else {
      WhereExt(df, PrefixFn(place, c, k), PrefixFn(place, c, k + 1));
    }
  }

  /** One `if sel and sel != sentinel: filtered = filtered[mask]` step. */
  method NarrowBy<T>(ghost df: seq<T>, place: T -> Place, c: Criteria, k: nat, filtered: seq<T>)
    returns (narrowed: seq<T>)
    requires k < 5
    requires filtered == Where(df, PrefixFn(place, c, k))
    ensures narrowed == Where(df, PrefixFn(place, c, k + 1))
  {
    narrowed := filtered;
    if StepActive(c, k) {
      narrowed := Where(filtered, StepFn(place, c, k));
    }
    NextStep(df, place, c, k, filtered, narrowed);
  }

  /** `filter_data`: the table narrowed in turn by location, province, district,
      sector and school list. */
  method FilterRows<T>(df: seq<T>, place: T -> Place, c: Criteria) returns (filtered: seq<T>)
    ensures filtered == Filtered(df, place, c)
  {
    filtered := df;
    WhereAll(df, PrefixFn(place, c, 0));
    filtered := NarrowBy(df, place, c, 0, filtered);
    filtered := NarrowBy(df, place, c, 1, filtered);
    filtered := NarrowBy(df, place, c, 2, filtered);
    filtered := NarrowBy(df, place, c, 3, filtered);
    filtered := NarrowBy(df, place, c, 4, filtered);
    PrefixFnComplete(df, place, c);
  }

  /** The filter keeps exactly the matching rows, in their original order. */
  lemma FilteredSound<T>(df: seq<T>, place: T -> Place, c: Criteria)
    ensures IsSubseq(Filtered(df, place, c), df)
    ensures forall i :: 0 <= i < |Filtered(df, place, c)| ==> Matches(c, place(Filtered(df, place, c)[i]))
    ensures forall i :: 0 <= i < |df| && Matches(c, place(df[i])) ==> df[i] in Filtered(df, place, c)
  {
    WhereIsSubseq(df, MatchFn(place, c));
    WhereMembers(df, MatchFn(place, c));
  }

  /** Filtering an already filtered table with the same selections changes nothing. */
  lemma FilteredIdempotent<T>(df: seq<T>, place: T -> Place, c: Criteria)
    ensures Filtered(Filtered(df, place, c), place, c) == Filtered(df, place, c)
  {
    WhereIdempotent(df, MatchFn(place, c));
  }

  /** With every selection at `None`, empty or its "All …" entry the whole table is kept. */
  lemma NoSelectionKeepsAll<T>(df: seq<T>, place: T -> Place, c: Criteria)
    requires forall k :: 0 <= k < 5 ==> !StepActive(c, k)
    ensures Filtered(df, place, c) == df
  {
    assert !StepActive(c, 0) && !StepActive(c, 1) && !StepActive(c, 2) && !StepActive(c, 3) && !StepActive(c, 4);
    WhereAll(df, MatchFn(place, c));
  }

  /** Selecting a province that no row has leaves nothing. */
  lemma {:induction false} UnknownProvinceGivesNothing<T>(df: seq<T>, place: T -> Place, c: Criteria)
    requires Active(c.province, AllProvinces)
    requires forall i :: 0 <= i < |df| ==> place(df[i]).province != c.province.value
    ensures Filtered(df, place, c) == []
  {
    if df != [] {
      assert !Matches(c, place(df[0]));
      UnknownProvinceGivesNothing(df[1..], place, c);
    }
  }
}
