/** The province comparison table shared by the maintenance and the safety
    dashboards: a trophy badge per metric, and the Winner column that names the
    province that did better. */
module Comparison {
  import opened Wrappers
  import opened Text
  import opened Ranking

  const Trophy := "\U{1F3C6}"

  /** Whether `a` beats `b` on a metric whose polarity is `higherBetter`. */
  predicate Beats(a: real, b: real, higherBetter: bool)
  {
    if higherBetter then a > b else a < b
  }

  /** `winner_badge(val1, val2, higher_better)`: the trophy when province 1
      strictly wins, the empty text otherwise (equality included). */
  function WinnerBadge(v1: real, v2: real, higherBetter: bool): (badge: string)
    ensures badge == Trophy <==> Beats(v1, v2, higherBetter)
    ensures badge == "" <==> !Beats(v1, v2, higherBetter)
  {
    if higherBetter then (if v1 > v2 then Trophy else "")
    else (if v1 < v2 then Trophy else "")
  }

  /** Equal values never earn a trophy, whatever the polarity. */
  lemma NoBadgeOnEquality(v: real, higherBetter: bool)
    ensures WinnerBadge(v, v, higherBetter) == ""
  {
  }

  /** At most one of the two provinces can hold the badge on one metric. */
  lemma BadgeAntisymmetric(v1: real, v2: real, higherBetter: bool)
    ensures !(WinnerBadge(v1, v2, higherBetter) == Trophy && WinnerBadge(v2, v1, higherBetter) == Trophy)
  {
  }

  /** The comparison needs two chosen provinces (`not prov` is true for `None`
      and for the empty text). */
  predicate BothChosen(prov1: Option<string>, prov2: Option<string>)
  {
    prov1.Some? && prov1.value != "" && prov2.Some? && prov2.value != ""
  }

  // ---------------------------------------------------------------------------
  // The Winner column as the dashboards write it.

  /** The Winner cell as written: the badge was computed from province 1's side
      only, and the choice between the two names compares the two FORMATTED
      value texts (such as "10.0%" and "20.0%") with Python's `>` on `str`. */
  function WinnerColumnAsWritten(prov1: string, prov2: string, shown1: string, shown2: string,
                                 badge: string): (cell: string)
    ensures badge == "" ==> cell == "Tie"
  {
    if badge != "" && StrLess(shown2, shown1) then prov1 + " " + badge
    else if badge != "" then prov2 + " " + badge
    else "Tie"
  }

  /** Whenever province 2 strictly wins, the cell written reads "Tie". */
  lemma AsWrittenHidesSecondWinner(prov1: string, prov2: string, shown1: string, shown2: string,
                                   v1: real, v2: real, higherBetter: bool)
    requires Beats(v2, v1, higherBetter)
    ensures WinnerColumnAsWritten(prov1, prov2, shown1, shown2, WinnerBadge(v1, v2, higherBetter)) == "Tie"
  {
  }

  /** A lower-is-better metric ("Delayed %") where province 1 has 10.0 and
      province 2 has 20.0: province 1 wins and gets the badge, but "20.0%" is
      not below "10.0%" as text, so the cell credits province 2. */
  lemma AsWrittenCreditsLoser()
    ensures WinnerBadge(10.0, 20.0, false) == Trophy
    ensures WinnerColumnAsWritten("East", "West", "10.0%", "20.0%", WinnerBadge(10.0, 20.0, false))
              == "West " + Trophy
  {
    assert !StrLess("20.0%", "10.0%") by {
      assert "20.0%"[0] == '2' && "10.0%"[0] == '1';
    }
  }

  /** A higher-is-better metric where province 1 has 10.0 and province 2 has
      9.0: "10.0%" sorts before "9.0%", so the winning province 1 is not named. */
  lemma AsWrittenCreditsLoserHigherBetter()
    ensures WinnerBadge(10.0, 9.0, true) == Trophy
    ensures WinnerColumnAsWritten("East", "West", "10.0%", "9.0%", WinnerBadge(10.0, 9.0, true))
              == "West " + Trophy
  {
    assert !StrLess("9.0%", "10.0%") by {
      assert "9.0%"[0] == '9' && "10.0%"[0] == '1';
    }
  }

  // ---------------------------------------------------------------------------
  // The Winner column as evidently intended.

  /** The Winner cell on the metric values: the better province with the
      trophy, "Tie" on equal values. */
  function WinnerColumn(prov1: string, prov2: string, v1: real, v2: real, higherBetter: bool): (cell: string)
    ensures Beats(v1, v2, higherBetter) ==> cell == prov1 + " " + Trophy
    ensures Beats(v2, v1, higherBetter) ==> cell == prov2 + " " + Trophy
    ensures v1 == v2 ==> cell == "Tie"
  {
    if Beats(v1, v2, higherBetter) then prov1 + " " + Trophy
    else if Beats(v2, v1, higherBetter) then prov2 + " " + Trophy
    else "Tie"
  }

  /** The cell reads "Tie" exactly when the two values are equal, and otherwise
      it holds the trophy of whichever side `winner_badge` favours. */
  lemma WinnerColumnTieIffEqual(prov1: string, prov2: string, v1: real, v2: real, higherBetter: bool)
    ensures WinnerColumn(prov1, prov2, v1, v2, higherBetter) == "Tie" <==> v1 == v2
    ensures v1 != v2 ==>
              (WinnerBadge(v1, v2, higherBetter) == Trophy <==>
               WinnerColumn(prov1, prov2, v1, v2, higherBetter) == prov1 + " " + WinnerBadge(v1, v2, higherBetter))
  {
    var cell := WinnerColumn(prov1, prov2, v1, v2, higherBetter);
    if v1 != v2 {
      var who := if Beats(v1, v2, higherBetter) then prov1 else prov2;
      assert cell == who + " " + Trophy;
      assert cell[|cell| - 1] == Trophy[0];
      assert "Tie"[2] == 'e';
      if WinnerBadge(v1, v2, higherBetter) == "" {
        assert Beats(v2, v1, higherBetter);
      }
    }
  }

  /** Swapping the two provinces with their values does not change the cell. */
  lemma WinnerColumnSymmetric(prov1: string, prov2: string, v1: real, v2: real, higherBetter: bool)
    ensures WinnerColumn(prov1, prov2, v1, v2, higherBetter) == WinnerColumn(prov2, prov1, v2, v1, higherBetter)
  {
  }

  // ---------------------------------------------------------------------------
  // The table.

  /** One metric of the table: its name, the two provinces' values and its polarity. */
  datatype MetricPair = MetricPair(name: string, v1: real, v2: real, higherBetter: bool)

  /** One line of the table: the metric, the two values and the Winner cell. */
  datatype ComparisonLine = ComparisonLine(metric: string, value1: real, value2: real, winner: string)

  function LineFor(prov1: string, prov2: string, m: MetricPair): ComparisonLine
  {
    ComparisonLine(m.name, m.v1, m.v2, WinnerColumn(prov1, prov2, m.v1, m.v2, m.higherBetter))
  }

  function LineFn(prov1: string, prov2: string): MetricPair -> ComparisonLine
  {
    (m: MetricPair) => LineFor(prov1, prov2, m)
  }

  /** The loop that appends one line per metric to `table_data`. */
  method BuildTable(prov1: string, prov2: string, metrics: seq<MetricPair>) returns (table: seq<ComparisonLine>)
    ensures table == Map(metrics, LineFn(prov1, prov2))
    ensures |table| == |metrics|
    ensures forall i :: 0 <= i < |table| ==>
              table[i].metric == metrics[i].name &&
              (table[i].winner == "Tie" <==> metrics[i].v1 == metrics[i].v2)
  {
    table := [];
    for i := 0 to |metrics|
      invariant table == Map(metrics[..i], LineFn(prov1, prov2))
    {
      var m := metrics[i];
      var line := ComparisonLine(m.name, m.v1, m.v2, WinnerColumn(prov1, prov2, m.v1, m.v2, m.higherBetter));
      MapAppend(metrics[..i], [m], LineFn(prov1, prov2));
      assert metrics[..i + 1] == metrics[..i] + [m];
      table := table + [line];
    }
    assert metrics[..|metrics|] == metrics;
    forall i | 0 <= i < |table|
      ensures table[i].winner == "Tie" <==> metrics[i].v1 == metrics[i].v2
    {
      WinnerColumnTieIffEqual(prov1, prov2, metrics[i].v1, metrics[i].v2, metrics[i].higherBetter);
    }
  }
}
