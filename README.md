# School infrastructure dashboards: the rule engines, in Dafny

This project models the decision logic of a set of Dash dashboards. The dashboards
monitor school infrastructure in Rwanda's provinces, districts and sectors. Each
dashboard file mixes plotting code with small deterministic rule engines. The
model keeps the rule engines:

- **The school alert classifier** (`calculate_alerts`). It has two variants: one in
  the overview dashboard and one in the simple dashboard, which reads its columns
  with `row.get(…, 0)`. Every school goes into exactly one of Urgent, Attention
  or Good. Urgent is tested first. Attention carries the ordered issue tags. Good
  carries the "why good" reasons.
- **Location typing and the location filter** (`get_location_type`, `filter_data`).
  A filter is a conjunction of optional equality criteria, and an "All …" entry
  means "no constraint". The simple dashboard adds the cascading district and
  sector option lists and the selection caption.
- **The overview's KPI cards** with their colour thresholds, the school-age table
  (`pd.cut` binning, at most five names per group) and the heat-map's choice of
  grouping column.
- **Maintenance scoring.** This covers the risk score and the urgency score, the
  low/medium/high risk buckets, the gap index, the capped degradation rate, the
  clamped ten-year health projection, the KPI cards and their colours, the top-10
  urgent table, the high-risk list and the recommendation list.
- **Safety, utilities and environment scoring.** This covers the composite
  overall score, the critical-issue tags, the list of schools with several
  critical issues (sorted stably, first ten shown), the KPI cards and their
  colours, the emergency-preparedness bars and the recommendation list.
- **The province comparison table** shared by the maintenance and the safety
  dashboards: the trophy badge (`winner_badge`) and the Winner column.

Modules:
- `Wrappers`: `Option`.
- `Text`: join with a separator, Python's `str` ordering, decimal digits.
- `Stats`: sums, means and percentages, with bound lemmas.
- `Ranking`: filtering a sequence, sub-sequences, and the stable descending sort
  behind `sorted(…, reverse=True)` and `nlargest(…, keep='first')`.
- `Colours`: the traffic-light rules.
- `Schools`: rows, places, location typing and the filter.
- `Alerts`: the alert rule.
- `Comparison`: the province table.
- One module per dashboard file: `Overview`, `DashSimple`, `Maintenance`, `Safety`.

Where the source loops and appends, the model is a method proved equal to a
specification function. This applies to `calculate_alerts`, `filter_data`'s
step-by-step reassignment, `calculate_risk_scores`'s `risk +=` terms, the
comparison table, `identify_critical_issues`, the critical list, the age table and
the recommendation lists. The properties are proved about those functions.

## Model

| member | source | states |
|---|---|---|
| Schools.GetLocationType | 1_overview.py:47-53 | Kigali City exactly for a Kigali code; Secondary Cities exactly for a secondary code that is not a Kigali code; Rural Districts for every other code |
| Schools.CodeListsDisjoint | 1_overview.py:41-45 | no code is in both lists, so Secondary Cities holds exactly for the secondary codes |
| Schools.LocationNameInjective | 1_overview.py:47-55 | the three location-type labels are distinct, so the label identifies the type |
| Schools.LocationOfIsOneOfThree | 1_overview.py:55 | the `location_type` column always holds one of the three labels |
| Schools.Matches | 1_overview.py:186-204 | a row passes the filter iff it satisfies every active criterion (a None or "All …" value, or an empty school list, imposes nothing) |
| Schools.NextStep | 1_overview.py:188-202 | one reassignment `filtered = filtered[...]` narrows the prefix-filter by exactly the next criterion |
| Schools.NarrowBy | 1_overview.py:188-202 | one guarded filtering step of `filter_data`, proved equal to the filter by the first k+1 criteria |
| Schools.FilterRows | 1_overview.py:186-204 | the sequence of guarded reassignments computes exactly the conjunctive filter |
| Schools.FilteredSound | 1_overview.py:186-204 | the result is an order-preserving sub-sequence of the table; every kept row matches; every matching row is kept |
| Schools.FilteredIdempotent | 1_overview.py:186-204 | filtering twice with the same criteria equals filtering once |
| Schools.NoSelectionKeepsAll | 1_overview.py:186-204 | with no active criterion the table comes back unchanged |
| Schools.UnknownProvinceGivesNothing | 1_overview.py:190-191 | a province that no row carries selects nothing |
| Alerts.Classify | 1_overview.py:143-182 | Urgent iff S/C > 50 or S/T > 40 or infra < 0.5; Attention iff not Urgent and one of the six attention conditions holds; Good otherwise |
| Alerts.IssueList | 1_overview.py:156-169 | the appended tags are exactly the labels of the conditions that hold, in the fixed order |
| Alerts.ReasonList | 1_overview.py:173-180 | the appended reasons are exactly the labels of the good conditions that hold, in the fixed order |
| Alerts.NeedsAttentionIffSomeIssue | 1_overview.py:150-155 | the Attention guard holds iff at least one tagged issue condition holds |
| Alerts.IssueTagsExact | 1_overview.py:156-168 | a tag is listed iff its condition holds; the tags follow High S/C, High S/T, Med Infra, Delayed, Safety, No Fence; there are at most six |
| Alerts.NoFenceListedLast | 1_overview.py:156-168 | a school without a fence lists "No Fence", and as the last tag |
| Alerts.AttentionIffSomeTag | 1_overview.py:150-168 | the Attention guard holds iff the tag list is non-empty |
| Alerts.AttentionIssuesNonEmpty | 1_overview.py:150-169 | an Attention school's Issues text is never empty |
| Alerts.GoodHasAllReasons | 1_overview.py:172-181 | a school that is neither Urgent nor Attention meets all three good conditions and reads "S/C≤45, S/T≤35, Infra≥0.7" |
| Alerts.RatioFiftyIsAttention | 1_overview.py:144-157 | S/C = 50 is not Urgent but is Attention with "High S/C" |
| Alerts.RatioAboveFiftyIsUrgent | 1_overview.py:144-147 | S/C = 50.1 is Urgent |
| Alerts.RatioFortyFiveIsGood | 1_overview.py:150-181 | S/C = 45 raises no S/C issue; with the other readings fine the school is Good |
| Alerts.InfraHalfIsAttention | 1_overview.py:146-161 | infra = 0.5 is not Urgent but is Attention with "Med Infra" |
| Alerts.UrgentHidesFlags | 1_overview.py:144-147 | an Urgent school stays Urgent even when delayed, safety and no-fence also hold |
| Alerts.SeveralIssuesInOrder | 1_overview.py:156-169 | High S/T, delayed and no fence together give "High S/T, Delayed, No Fence" |
| Overview.CalculateAlerts | 1_overview.py:124-184 | the row loop builds exactly the three filtered, mapped lists; empty input gives three empty lists |
| Overview.AlertsPartition | 1_overview.py:133-182 | the three list lengths add up to the row count, and each list keeps table order |
| Overview.UrgentEntriesBare | 1_overview.py:144-147 | Urgent entries carry neither Issues nor Why Good |
| Overview.AttentionEntriesHaveIssues | 1_overview.py:150-170 | every Attention entry carries a non-empty Issues text and no Why Good |
| Overview.GoodEntriesHaveAllReasons | 1_overview.py:172-182 | every Good entry carries all three reasons and no Issues |
| Overview.FilterData | 1_overview.py:186-204 | the overview's filter with location, province, district, sector and school list is the conjunctive filter |
| Overview.CalculateKpis | 1_overview.py:85-120 | empty data gives zeros and grey cards; otherwise the school count is the row count, the five averages are the means of their columns over the selection, S/C and S/T are red iff their mean exceeds 45 and 35 and green otherwise, infrastructure is green iff its mean reaches 0.7 and red otherwise, and each damage card is green below 15, orange from 15 to below 30 and red from 30 |
| Overview.KpiPercentagesBounded | 1_overview.py:107-111 | for 0/1 fence flags and reliabilities in [0,1], the electricity and fence percentages lie in [0,100] |
| Overview.AllGoodMeansGreenCards | 1_overview.py:116-118 | if every school is Good, the S/C, S/T and infrastructure cards are green |
| Overview.FindBin | 1_overview.py:779-782 | the found bin is the first one from k whose interval (lo, hi] holds the age; none is found only if no such bin exists |
| Overview.AgeGroupExact | 1_overview.py:779-782 | an age gets label k iff bins[k] < age ≤ bins[k+1], and gets a label iff 0 < age ≤ 100 |
| Overview.SchoolsTextShape | 1_overview.py:790 | up to five names are all listed; beyond five the first five are listed and the "(+n more)" count reads back as the number left out |
| Overview.AgeLine | 1_overview.py:785-791 | a label contributes at most one line, never with a zero count |
| Overview.UpdateAgeTable | 1_overview.py:784-797 | the label loop builds the table of non-empty groups, or the no-data message when there are none |
| Overview.AgeSummaryLines | 1_overview.py:784-792 | at most one line per label, each with a positive count |
| Overview.AgeSummaryTotal | 1_overview.py:784-792 | the counts add up to the number of schools whose age falls in some bin |
| Overview.AgeTableEmptyIffNoAges | 1_overview.py:794-795 | the table is empty iff no school age lies in (0, 100] |
| Overview.HeatmapGroupColumn | 1_overview.py:995-998 | grouping is by location type iff "All Locations" is selected; otherwise by sector iff a province and a district are chosen, by district iff only a province is chosen, and by province iff all provinces are shown |
| Overview.SectorHeatmapStaysInDistrict | 1_overview.py:986-998 | when grouping by sector, every plotted school is in the selected district |
| DashSimple.CalculateAlerts | dash_simple.py:82-156 | the loop with `row.get(…, 0)` defaults builds exactly the three filtered, mapped lists; empty input gives three empty lists |
| DashSimple.SectionCountsMatchHeader | dash_simple.py:285-337 | the three section sizes add up to the school count in the card header, and each list keeps table order |
| DashSimple.MissingInfraIsUrgent | dash_simple.py:93-100 | a row of a merged table without the infrastructure column reads 0 through `row.get` and is Urgent |
| DashSimple.MissingFenceNeedsAttention | dash_simple.py:93-143 | a non-Urgent row without a fence value is Attention, and its last tag is "No Fence" |
| DashSimple.GoodEntriesHaveAllReasons | dash_simple.py:147-153 | every Good entry reads "S/C≤45, S/T≤35, Infra≥0.7" |
| DashSimple.FilterData | dash_simple.py:158-168 | the filter by location, province, district and sector is the conjunctive filter |
| DashSimple.FilterDataIsConjunction | dash_simple.py:158-168 | a row is kept iff it equals every criterion that is neither None nor "All …" |
| DashSimple.DistrictOptions | dash_simple.py:241-248 | the options start with "All Districts" and the value resets to "All Districts" |
| DashSimple.SectorOptions | dash_simple.py:254-261 | the options start with "All Sectors" and the value resets to "All Sectors" |
| DashSimple.UnknownProvinceOffersOnlySentinel | dash_simple.py:247 | a province absent from the data offers only "All Districts" |
| DashSimple.UnknownDistrictOffersOnlySentinel | dash_simple.py:260 | a district absent from the data offers only "All Sectors" |
| DashSimple.DistrictsInProvince | dash_simple.py:67-71 | a district is collected for a province iff some row pairs the two |
| DashSimple.ProvinceDistrictsExact | dash_simple.py:66-71 | a province's options are sorted without duplicates, and hold exactly the districts that occur with it |
| DashSimple.AllProvincesOffersEveryDistrict | dash_simple.py:243-245 | under "All Provinces" the options are sorted without duplicates, and hold every district in the data |
| DashSimple.SelectionText | dash_simple.py:270-276 | the caption is never empty |
| DashSimple.SelectionPartsCount | dash_simple.py:271-275 | there is one part per dropdown not at its "All …" entry |
| DashSimple.SelectionTextCases | dash_simple.py:270-276 | all defaults give the fixed default caption; a chosen location comes first |
| DashSimple.SelectionTextProvinceDistrict | dash_simple.py:270-276 | a province and a district alone read "📍 province → 🏘️ district" |
| DashSimple.SelectionTextAllFour | dash_simple.py:270-276 | all four chosen read location → province → district → sector, joined by " → " |
| Colours.AtLeastRule | 3_safety_utilities_enironment.py:537-540 | green iff the value reaches the green bar; orange iff it reaches only the orange bar; red otherwise |
| Colours.BelowRule | 2_maintenance_operation.py:530-533 | green iff the value is below the green bar; orange iff it is below only the orange bar; red otherwise |
| Colours.AboveIsRed | 1_overview.py:116-117 | red iff the value exceeds the limit, green otherwise |
| Colours.AtLeastIsGreen | 1_overview.py:118 | green iff the value reaches the limit, red otherwise |
| Colours.RulesNeverGrey | 2_maintenance_operation.py:529-533 | every threshold rule yields one of its defined colours, never grey |
| Colours.AtLeastRuleMonotone | 3_safety_utilities_enironment.py:537-540 | a higher value never gets a worse colour under a higher-is-better rule |
| Colours.BelowRuleMonotone | 2_maintenance_operation.py:530-533 | a lower value never gets a worse colour under a lower-is-better rule |
| Comparison.WinnerBadge | 2_maintenance_operation.py:565-569 | the trophy iff province 1 strictly wins under the metric's polarity, empty otherwise |
| Comparison.NoBadgeOnEquality | 2_maintenance_operation.py:565-569 | equal values never earn the trophy |
| Comparison.BadgeAntisymmetric | 3_safety_utilities_enironment.py:572-576 | the two provinces can never both hold the trophy on one metric |
| Comparison.WinnerColumnAsWritten | 2_maintenance_operation.py:588 | an empty badge always gives "Tie" |
| Comparison.AsWrittenHidesSecondWinner | 2_maintenance_operation.py:588 | whenever province 2 strictly wins, the Winner cell reads "Tie" |
| Comparison.AsWrittenCreditsLoser | 2_maintenance_operation.py:588 | on a lower-is-better metric at 10.0 against 20.0, the cell names province 2 |
| Comparison.AsWrittenCreditsLoserHigherBetter | 3_safety_utilities_enironment.py:595 | on a higher-is-better metric at 10.0 against 9.0, the cell names province 2 |
| Comparison.WinnerColumn | 2_maintenance_operation.py:586-589 | corrected cell: the strictly better province with the trophy, "Tie" on equal values |
| Comparison.WinnerColumnTieIffEqual | 2_maintenance_operation.py:586-589 | corrected cell reads "Tie" iff the values are equal, and names province 1 iff `winner_badge` gives it the trophy |
| Comparison.WinnerColumnSymmetric | 3_safety_utilities_enironment.py:594-596 | swapping the two provinces and their values leaves the corrected cell unchanged |
| Comparison.BuildTable | 2_maintenance_operation.py:586-589 | the loop appends one line per metric, in order, with the metric's name; with the corrected Winner cell (see Findings), a line reads "Tie" iff its two values are equal |
| Maintenance.AddTerm | 2_maintenance_operation.py:131-135 | one `risk +=` step adds the term to every school's running score |
| Maintenance.CalculateRiskScores | 2_maintenance_operation.py:127-137 | the five accumulation steps give each school its risk score |
| Maintenance.RiskBounds | 2_maintenance_operation.py:127-137 | for delayed ∈ {0,1} the score lies in 0..10; without delay it is at most 7; it is 10 iff all five conditions hold |
| Maintenance.UrgencyVersusRisk | 2_maintenance_operation.py:927-932 | urgency ≤ risk ≤ urgency + 1, with equality on the right iff funding diversity < 0.3; urgency lies in 0..9 |
| Maintenance.RiskBucketsPartition | 2_maintenance_operation.py:1017-1019 | the buckets are disjoint and cover every integer score, so the three counts add up to the school count |
| Maintenance.GapIndex | 2_maintenance_operation.py:65-75 | empty data gives 0 |
| Maintenance.GapIndexBounds | 2_maintenance_operation.py:65-75 | for 0/1 delay flags, diversity in [0,1] and at most 365 days, the index lies in [0,1] |
| Maintenance.GapIndexCanPassOne | 2_maintenance_operation.py:66-72 | one delayed school 730 days since maintenance with no funding diversity gives 1.3, outside the documented 0-1 range |
| Maintenance.DegradationRate | 2_maintenance_operation.py:77-91 | never above the 20 cap; 0 on empty data or when the mean days are not positive |
| Maintenance.DegradationNonNegative | 2_maintenance_operation.py:86-90 | when health is at most 1 the rate lies in [0,20] |
| Maintenance.Projection | 2_maintenance_operation.py:877-878 | eleven yearly values, none negative |
| Maintenance.ProjectionNonIncreasing | 2_maintenance_operation.py:877-878 | year 0 is the current health, and the values never increase when the rate is not negative |
| Maintenance.HealthAtMonotone | 2_maintenance_operation.py:877-878 | with a rate that is not negative, a later year never has a higher projected health |
| Maintenance.ProjectionForBounded | 2_maintenance_operation.py:874-878 | for well-formed schools every projected value lies in [0,1] and the curve never increases |
| Maintenance.CalculateMaintenanceKpis | 2_maintenance_operation.py:93-125 | empty data gives all zeros; otherwise pct_delayed = delayed_count / n · 100; the gap index and degradation rate are those of the data |
| Maintenance.MaintenanceKpisBounded | 2_maintenance_operation.py:103-113 | for well-formed schools the delayed count is at most n and the percentages lie in [0,100], the rate in [0,20] |
| Maintenance.EmptySelectionColours | 2_maintenance_operation.py:529-533 | the all-zero cards of an empty selection colour red, green, green, green, green |
| Maintenance.PerfectHealthDegradationGreen | 2_maintenance_operation.py:533 | if every school's health is 1, the degradation card is green |
| Maintenance.FilterData | 2_maintenance_operation.py:139-152 | the filter by province, district and sector is the conjunctive filter |
| Maintenance.ComparisonMetrics | 2_maintenance_operation.py:571-585 | the comparison has six metric lines |
| Maintenance.ProvinceComparison | 2_maintenance_operation.py:555-600 | no table unless both provinces are chosen; otherwise one line per metric from each province's own KPIs, with the corrected Winner cell (see Findings) |
| Maintenance.SelfComparisonTies | 2_maintenance_operation.py:586-589 | a province compared with itself ties on every metric |
| Maintenance.UrgentTable | 2_maintenance_operation.py:934-937 | the "No urgent schools found" message iff the selection is empty |
| Maintenance.TopUrgentIsTop | 2_maintenance_operation.py:934 | at most ten schools (all of them when fewer), in descending urgency, and no school left out scores higher than one shown |
| Maintenance.HighRiskView | 2_maintenance_operation.py:1050-1051 | the message reads "✅ No high-risk schools found" |
| Maintenance.HighRiskListSound | 2_maintenance_operation.py:1048 | the ten riskiest schools with risk ≥ 7 (all of them when fewer), in descending risk; no high-risk school left out outranks a listed one; all are from the selection |
| Maintenance.HighRiskMembers | 2_maintenance_operation.py:1048 | every listed school belongs to the selection and has risk ≥ 7 |
| Maintenance.HighRiskMessageIffNone | 2_maintenance_operation.py:1048-1051 | the message is shown iff no selected school has risk ≥ 7 |
| Maintenance.Recommendations | 2_maintenance_operation.py:1079-1104 | the appended messages are exactly the advice the KPI thresholds call for |
| Maintenance.ConcernsExact | 2_maintenance_operation.py:1081-1101 | each message appears iff its threshold is crossed; the gap and degradation pairs are exclusive bands |
| Maintenance.AdviceExact | 2_maintenance_operation.py:1079-1104 | the list is never empty; "performing well" appears only alone, and exactly when no threshold is crossed |
| Maintenance.EmptySelectionAdvice | 2_maintenance_operation.py:1079-1104 | an empty selection yields the low-activity and low-diversity messages |
| Safety.OverallScoreBounds | 3_safety_utilities_enironment.py:66-74 | for well-formed inspections the score lies in [0,100], and it is 100 iff every component is at its best |
| Safety.IdentifyCriticalIssues | 3_safety_utilities_enironment.py:76-91 | the appended tags are exactly the critical-issue tags |
| Safety.CriticalIssuesExact | 3_safety_utilities_enironment.py:76-91 | each tag is present iff its condition holds, and only the six known tags occur |
| Safety.CriticalIssuesInOrder | 3_safety_utilities_enironment.py:76-91 | the tags follow Safety, No Water, Poor Electricity, Poor Hygiene, No Access, No PTA, at most six |
| Safety.UpdateCriticalIssues | 3_safety_utilities_enironment.py:1127-1145 | the loop, sort and slice build exactly the critical view |
| Safety.CriticalSchoolsExact | 3_safety_utilities_enironment.py:1127-1138 | the sorted list is a permutation of the collected entries, sorted by count descending; every entry has ≥ 2 issues and its count is its tag count; every such school is collected |
| Safety.CriticalSchoolsStable | 3_safety_utilities_enironment.py:1138 | schools with equal counts keep their table order |
| Safety.CriticalViewShape | 3_safety_utilities_enironment.py:1140-1145 | the message iff no school has two issues; otherwise the first ten of the sorted list are shown, or all of them when there are fewer |
| Safety.CalculateDashboardKpis | 3_safety_utilities_enironment.py:93-126 | empty data gives all zeros |
| Safety.AccessibilityBounded | 3_safety_utilities_enironment.py:106-110 | for 0/1 flags the accessibility percentage lies in [0,100] |
| Safety.DashboardKpisBounded | 3_safety_utilities_enironment.py:93-126 | for well-formed inspections every index and percentage lies in its range |
| Safety.EmptySelectionColours | 3_safety_utilities_enironment.py:537-540 | the all-zero cards of an empty selection are all red |
| Safety.PerfectSelectionGreen | 3_safety_utilities_enironment.py:537-540 | if every inspection is at its best, all four cards are green |
| Safety.EmergencyPrep | 3_safety_utilities_enironment.py:676-684 | three bars, all 0 on an empty selection |
| Safety.EmergencyPrepBounded | 3_safety_utilities_enironment.py:676-684 | for 0/1 flags each bar lies in [0,100] |
| Safety.FilterData | 3_safety_utilities_enironment.py:128-141 | the filter by province, district and sector is the conjunctive filter |
| Safety.FilterDataIsConjunction | 3_safety_utilities_enironment.py:128-141 | a row is kept iff it equals every criterion that is neither None nor "All …" |
| Safety.ComparisonMetrics | 3_safety_utilities_enironment.py:578-592 | six metric lines, all higher-is-better |
| Safety.ProvinceComparison | 3_safety_utilities_enironment.py:562-600 | no table unless both provinces are chosen; otherwise one line per metric from each province's own KPIs, with the corrected Winner cell (see Findings) |
| Safety.EmptyProvinceNeverWins | 3_safety_utilities_enironment.py:572-576 | a province with no inspections never earns the trophy against well-formed data |
| Safety.Recommendations | 3_safety_utilities_enironment.py:1240-1269 | the appended messages are exactly the advice the KPI thresholds call for |
| Safety.ConcernsExact | 3_safety_utilities_enironment.py:1242-1266 | each message appears iff its band holds (critical and improve bands are exclusive), at most six messages |
| Safety.AdviceExact | 3_safety_utilities_enironment.py:1240-1269 | the list is never empty; "performing well" appears only alone, and exactly when every KPI is at or above its bar |
| Ranking.NLargestIsTop | 2_maintenance_operation.py:934 | `nlargest(n)` keeps min(n, len) rows in descending key order, and no row left out outranks one kept |
| Ranking.SortDescStable | 3_safety_utilities_enironment.py:1138 | the descending sort keeps rows with equal keys in input order |

## Left out

- Dash layout, callback wiring, Plotly figures, `create_kpi_card` and the progress bars are display only.
- Loading the Excel sheets and merging them is file I/O through pandas. The tables arrive as sequences of rows.
- `app.py` (page navigation) and `convert_dashboard_to_page.py` (rewriting source files) are not part of this model.
- `round(…)` and the f-string number formats are not modelled. Every KPI is the unrounded value.
- Overview.CalculateKpis: the colours are taken on the unrounded means, while the source compares the rounded card values. A mean just beside a threshold can colour differently.
- Maintenance.KpiColours: the colours are taken on the unrounded values, for the same reason.
- Safety.KpiColours: the colours are taken on the unrounded values, for the same reason.
- NaN is not modelled. pandas means skip missing cells, and an empty selection's mean is NaN. Maintenance.ProjectionFor returns `None` for an empty selection, where the source would plot NaN values.
- In the simple dashboard, `None` in a merged-row field stands for a column the table does not have, which `row.get` reads as 0. A missing cell is not modelled: the left merge leaves NaN cells for a school without an inspection row, `row.get` returns that NaN, and every comparison with it is false.
- Recommendation messages are modelled as message kinds. Their texts embed formatted numbers, and the model keeps which message appears and in what order.
- The risk buckets are proved for integer scores, which `calculate_risk_scores` produces for 0/1 delay flags.
- A dropdown cleared to `None` would show "None" in the simple dashboard's caption. The model takes the four dropdown values as text.
- The overview's school dropdown (`update_school_options`) and its own selection caption are not modelled. Neither is named among its rule engines, and the simple dashboard's caption is modelled instead.
- The remaining chart callbacks are not modelled: pie charts, histograms, heat-map means, the map, the radar, top and bottom performers, and the cost analysis. They aggregate for display only.
- Overview.CalculateKpis: the `avg_teacher_classroom` card value (the mean of teachers divided by classrooms per school) is not a field of `Kpis`. A school with no classrooms makes that quotient infinite or NaN in pandas, which the model's real numbers cannot express.
- Comparison.BuildTable: the comparison tables of both dashboards use the corrected Winner cell `Comparison.WinnerColumn`. The cell as written, which compares the formatted texts and never names a winning province 2, is modelled by `Comparison.WinnerColumnAsWritten` (see Findings).
- Maintenance.GapIndex: the docstring calls the index "0-1", but the formula can exceed 1 when the mean days pass 365. The bound is proved only for at most 365 days, and GapIndexCanPassOne gives the input that passes 1.

## Findings

| source | as written | input that shows it | evidently intended | confidence | as-written member | corrected member |
|---|---|---|---|---|---|---|
| 2_maintenance_operation.py:588 and 3_safety_utilities_enironment.py:595 | The Winner cell names a province only when `winner_badge(val1, val2)` is non-empty, that is when province 1 wins. The choice between the two names then compares the formatted value texts with `str` ordering. A strict win by province 2 reads "Tie", and a province 1 win can be credited to province 2. | "Delayed %" (lower is better) at 10.0 for province 1 and 20.0 for province 2: the badge goes to province 1, but "10.0%" > "20.0%" is false, so the cell reads province 2 with the trophy. A higher-is-better metric at 10.0 against 9.0 does the same ("10.0%" < "9.0%"). | A numeric three-way comparison: the better province with the trophy, "Tie" only on equal values | not executed | Comparison.WinnerColumnAsWritten, with Comparison.AsWrittenCreditsLoser, Comparison.AsWrittenCreditsLoserHigherBetter and Comparison.AsWrittenHidesSecondWinner | Comparison.WinnerColumn, with Comparison.WinnerColumnTieIffEqual; Comparison.BuildTable uses it |
