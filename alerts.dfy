/** The school alert rule shared by the overview and the combined dashboard:
    every school is Urgent, needs Attention (with the list of what is wrong), or
    is Good (with the list of what is right). */
module Alerts {
  import opened Text
  import opened Ranking

  /** The six columns the rule reads: the student/classroom and student/teacher
      ratios, the infrastructure health index, and the delayed-maintenance,
      immediate-safety-concern and fence flags. */
  datatype Readings = Readings(sc: real, st: real, infra: real, delayed: int, safety: int, fence: int)

  /** Any one of an over-full classroom, too few teachers or poor infrastructure. */
  predicate IsUrgent(r: Readings)
  {
    r.sc > 50.0 || r.st > 40.0 || r.infra < 0.5
  }

  datatype Issue = HighSC | HighST | MedInfra | Delayed | SafetyConcern | NoFence

  /** The condition each issue tag stands for. */
  predicate IssueHolds(i: Issue, r: Readings)
  {
    match i
    case HighSC => 45.0 < r.sc <= 50.0
    case HighST => 35.0 < r.st <= 40.0
    case MedInfra => 0.5 <= r.infra < 0.7
    case Delayed => r.delayed == 1
    case SafetyConcern => r.safety == 1
    case NoFence => r.fence == 0
  }

  function IssueLabel(i: Issue): string
  {
    match i
    case HighSC => "High S/C"
    case HighST => "High S/T"
    case MedInfra => "Med Infra"
    case Delayed => "Delayed"
    case SafetyConcern => "Safety"
    case NoFence => "No Fence"
  }

  /** The order in which the issues are tested and listed. */
  const IssueOrder: seq<Issue> := [HighSC, HighST, MedInfra, Delayed, SafetyConcern, NoFence]

  /** The `elif` guard of the Attention branch. */
  predicate NeedsAttention(r: Readings)
  {
    (45.0 < r.sc <= 50.0) || (35.0 < r.st <= 40.0) || (0.5 <= r.infra < 0.7) ||
    r.delayed == 1 || r.safety == 1 || r.fence == 0
  }

  function HoldsFn(r: Readings): Issue -> bool
  {
    (i: Issue) => IssueHolds(i, r)
  }

  /** The issues that hold, in listing order. */
  function IssueTags(r: Readings): seq<Issue>
  {
    Where(IssueOrder, HoldsFn(r))
  }

  /** The one-element list of issue `i` if it holds, else nothing. */
  function TagIf(i: Issue, r: Readings): seq<string>
  {
    if IssueHolds(i, r) then [IssueLabel(i)] else []
  }

  /** The `Issues` cell: the tags joined by ", ". */
  function IssuesText(r: Readings): string
  {
    Join(Map(IssueTags(r), IssueLabel), ", ")
  }

  datatype GoodReason = SCWithinLimit | STWithinLimit | InfraSound

  predicate ReasonHolds(g: GoodReason, r: Readings)
  {
    match g
    case SCWithinLimit => r.sc <= 45.0
    case STWithinLimit => r.st <= 35.0
    case InfraSound => r.infra >= 0.7
  }

  function ReasonLabel(g: GoodReason): string
  {
    match g
    case SCWithinLimit => "S/C≤45"
    case STWithinLimit => "S/T≤35"
    case InfraSound => "Infra≥0.7"
  }

  const ReasonOrder: seq<GoodReason> := [SCWithinLimit, STWithinLimit, InfraSound]

  function ReasonFn(r: Readings): GoodReason -> bool
  {
    (g: GoodReason) => ReasonHolds(g, r)
  }

  /** The good reasons that hold, in listing order. */
  function Reasons(r: Readings): seq<GoodReason>
  {
    Where(ReasonOrder, ReasonFn(r))
  }

  /** The `Why Good` cell: the reasons that hold, joined by ", ". */
  function WhyGoodText(r: Readings): string
  {
    Join(Map(Reasons(r), ReasonLabel), ", ")
  }

  /** Where a school lands, with the text attached to it. */
  datatype Status = Urgent | Attention(issues: string) | Good(whyGood: string)

  /** The rule itself: Urgent is tested first, Attention only otherwise. An
      Urgent school carries neither issues nor reasons, whatever its flags. */
  function Classify(r: Readings): (s: Status)
    ensures s.Urgent? <==> IsUrgent(r)
    ensures s.Attention? <==> !IsUrgent(r) && NeedsAttention(r)
    ensures s.Good? <==> !IsUrgent(r) && !NeedsAttention(r)
  {
    if IsUrgent(r) then Urgent
    else if NeedsAttention(r) then Attention(IssuesText(r))
    else Good(WhyGoodText(r))
  }

  /** Testing one more issue appends its label exactly when it holds. */
  lemma TagStep(r: Readings, prefix: seq<Issue>, i: Issue)
    ensures Map(Where(prefix + [i], HoldsFn(r)), IssueLabel) ==
            Map(Where(prefix, HoldsFn(r)), IssueLabel) + TagIf(i, r)
  {
    WhereSnoc(prefix, i, HoldsFn(r));
    MapAppend(Where(prefix, HoldsFn(r)), if IssueHolds(i, r) then [i] else [], IssueLabel);
  }

  /** The listed labels, issue by issue. */
  lemma IssueLabelsUnrolled(r: Readings)
    ensures Map(IssueTags(r), IssueLabel) ==
      TagIf(HighSC, r) + TagIf(HighST, r) + TagIf(MedInfra, r) +
      TagIf(Delayed, r) + TagIf(SafetyConcern, r) + TagIf(NoFence, r)
  {
    var p1 := [HighSC];
    var p2 := p1 + [HighST];
    var p3 := p2 + [MedInfra];
    var p4 := p3 + [Delayed];
    var p5 := p4 + [SafetyConcern];
    var p6 := p5 + [NoFence];
    assert p6 == IssueOrder;
    TagStep(r, [], HighSC);
    assert [] + [HighSC] == p1;
    TagStep(r, p1, HighST);
    TagStep(r, p2, MedInfra);
    TagStep(r, p3, Delayed);
    TagStep(r, p4, SafetyConcern);
    TagStep(r, p5, NoFence);
    assert Map(Where([], HoldsFn(r)), IssueLabel) == [];
    assert Map(Where(p1, HoldsFn(r)), IssueLabel) == TagIf(HighSC, r);
  }

  /** A school without a fence lists "No Fence", and lists it last. */
  lemma NoFenceListedLast(r: Readings)
    requires r.fence == 0
    ensures NoFence in IssueTags(r)
    ensures Map(IssueTags(r), IssueLabel)[|IssueTags(r)| - 1] == "No Fence"
  {
    IssueTagsExact(r);
    IssueLabelsUnrolled(r);
    var front := TagIf(HighSC, r) + TagIf(HighST, r) + TagIf(MedInfra, r) +
                 TagIf(Delayed, r) + TagIf(SafetyConcern, r);
    var labels := Map(IssueTags(r), IssueLabel);
    assert TagIf(NoFence, r) == ["No Fence"];
    assert labels == front + ["No Fence"];
    assert labels[|front|] == "No Fence";
  }

  /** The issue list built tag by tag, as the Attention branch does. */
  method IssueList(r: Readings) returns (issues: seq<string>)
    ensures issues == Map(IssueTags(r), IssueLabel)
  {
    issues := [];
    if 45.0 < r.sc <= 50.0 {
      issues := issues + ["High S/C"];
    }
    assert issues == TagIf(HighSC, r);
    if 35.0 < r.st <= 40.0 {
      issues := issues + ["High S/T"];
    }
    assert issues == TagIf(HighSC, r) + TagIf(HighST, r);
    if 0.5 <= r.infra < 0.7 {
      issues := issues + ["Med Infra"];
    }
    assert issues == TagIf(HighSC, r) + TagIf(HighST, r) + TagIf(MedInfra, r);
    if r.delayed == 1 {
      issues := issues + ["Delayed"];
    }
    assert issues == TagIf(HighSC, r) + TagIf(HighST, r) + TagIf(MedInfra, r) + TagIf(Delayed, r);
    if r.safety == 1 {
      issues := issues + ["Safety"];
    }
    assert issues == TagIf(HighSC, r) + TagIf(HighST, r) + TagIf(MedInfra, r) + TagIf(Delayed, r)
      + TagIf(SafetyConcern, r);
    if r.fence == 0 {
      issues := issues + ["No Fence"];
    }
    IssueLabelsUnrolled(r);
  }

  function ReasonIf(g: GoodReason, r: Readings): seq<string>
  {
    if ReasonHolds(g, r) then [ReasonLabel(g)] else []
  }

  /** The listed reasons, one test at a time. */
  lemma ReasonLabelsUnrolled(r: Readings)
    ensures Map(Reasons(r), ReasonLabel) ==
      ReasonIf(SCWithinLimit, r) + ReasonIf(STWithinLimit, r) + ReasonIf(InfraSound, r)
  {
    var p := ReasonFn(r);
    var p1 := [SCWithinLimit];
    var p2 := p1 + [STWithinLimit];
    var p3 := p2 + [InfraSound];
    assert p3 == ReasonOrder;
    assert [] + [SCWithinLimit] == p1;
    MapWhereSnoc([], SCWithinLimit, p, ReasonLabel);
    MapWhereSnoc(p1, STWithinLimit, p, ReasonLabel);
    MapWhereSnoc(p2, InfraSound, p, ReasonLabel);
    assert Map(Where([], p), ReasonLabel) == [];
    assert Map(Where(p1, p), ReasonLabel) == ReasonIf(SCWithinLimit, r);
    assert Map(Where(p2, p), ReasonLabel) == ReasonIf(SCWithinLimit, r) + ReasonIf(STWithinLimit, r);
  }

  /** The reason list built one test at a time, as the Good branch does. */
  method ReasonList(r: Readings) returns (reasons: seq<string>)
    ensures reasons == Map(Reasons(r), ReasonLabel)
  {
    reasons := [];
    if r.sc <= 45.0 {
      reasons := reasons + ["S/C≤45"];
    }
    if r.st <= 35.0 {
      reasons := reasons + ["S/T≤35"];
    }
    if r.infra >= 0.7 {
      reasons := reasons + ["Infra≥0.7"];
    }
    ReasonLabelsUnrolled(r);
  }

  // ---------------------------------------------------------------------------
  // What the rule guarantees.

  /** The Attention guard is exactly "some issue tag applies". */
  lemma NeedsAttentionIffSomeIssue(r: Readings)
    ensures NeedsAttention(r) <==> exists i :: IssueHolds(i, r)
  {
    if NeedsAttention(r) {
      if 45.0 < r.sc <= 50.0 { assert IssueHolds(HighSC, r); }
      else if 35.0 < r.st <= 40.0 { assert IssueHolds(HighST, r); }
      else if 0.5 <= r.infra < 0.7 { assert IssueHolds(MedInfra, r); }
      else if r.delayed == 1 { assert IssueHolds(Delayed, r); }
      else if r.safety == 1 { assert IssueHolds(SafetyConcern, r); }
      else { assert IssueHolds(NoFence, r); }
    }
  }

  /** Where each issue sits in the listing order. */
  function IssueRank(i: Issue): (k: nat)
    ensures k < |IssueOrder| && IssueOrder[k] == i
  {
    match i
    case HighSC => 0
    case HighST => 1
    case MedInfra => 2
    case Delayed => 3
    case SafetyConcern => 4
    case NoFence => 5
  }

  /** The `Issues` list names exactly the conditions that hold, each once, in
      the order High S/C, High S/T, Med Infra, Delayed, Safety, No Fence. */
  lemma IssueTagsExact(r: Readings)
    ensures forall i :: i in IssueTags(r) <==> IssueHolds(i, r)
    ensures IsSubseq(IssueTags(r), IssueOrder)
    ensures |IssueTags(r)| <= 6
  {
    WhereMembers(IssueOrder, HoldsFn(r));
    WhereIsSubseq(IssueOrder, HoldsFn(r));
    forall i | IssueHolds(i, r)
      ensures i in IssueTags(r)
    {
      assert IssueOrder[IssueRank(i)] == i;
    }
  }

  /** A school is in Attention exactly when at least one issue is listed. */
  lemma AttentionIffSomeTag(r: Readings)
    ensures NeedsAttention(r) <==> IssueTags(r) != []
  {
    IssueTagsExact(r);
    NeedsAttentionIffSomeIssue(r);
    var tags := IssueTags(r);
    if NeedsAttention(r) {
      var i :| IssueHolds(i, r);
      assert i in tags;
    }
  }

  /** An Attention school's `Issues` text is never empty. */
  lemma AttentionIssuesNonEmpty(r: Readings)
    requires NeedsAttention(r)
    ensures IssuesText(r) != ""
  {
    AttentionIffSomeTag(r);
    var labels := Map(IssueTags(r), IssueLabel);
    assert labels[0] == IssueLabel(IssueTags(r)[0]);
    JoinNonEmpty(labels, ", ", 0);
  }

  /** When all three tests pass, every reason is listed. */
  lemma AllReasonsHold(r: Readings)
    requires r.sc <= 45.0 && r.st <= 35.0 && r.infra >= 0.7
    ensures Reasons(r) == ReasonOrder
  {
    forall g | g in ReasonOrder
      ensures ReasonFn(r)(g)
    {
    }
    WhereAll(ReasonOrder, ReasonFn(r));
  }

  /** The three reason labels, in listing order. */
  lemma ReasonOrderLabels()
    ensures Map(ReasonOrder, ReasonLabel) == ["S/C≤45", "S/T≤35", "Infra≥0.7"]
  {
    var labels := Map(ReasonOrder, ReasonLabel);
    assert labels[0] == "S/C≤45" && labels[1] == "S/T≤35" && labels[2] == "Infra≥0.7";
  }

  /** A Good school passes all three tests, so it always gets all three reasons. */
  lemma GoodHasAllReasons(r: Readings)
    requires !IsUrgent(r) && !NeedsAttention(r)
    ensures Reasons(r) == ReasonOrder
    ensures WhyGoodText(r) == "S/C≤45, S/T≤35, Infra≥0.7"
  {
    AllReasonsHold(r);
    ReasonOrderLabels();
    JoinSmall("S/C≤45", "S/T≤35", "Infra≥0.7", ", ");
    assert WhyGoodText(r) == Join(["S/C≤45", "S/T≤35", "Infra≥0.7"], ", ");
  }

  /** The one tag of the example below. */
  lemma RatioFiftyTags(r: Readings)
    requires r == Readings(50.0, 30.0, 0.8, 0, 0, 1)
    ensures Map(IssueTags(r), IssueLabel) == ["High S/C"]
  {
    IssueLabelsUnrolled(r);
    assert TagIf(HighSC, r) == ["High S/C"] && TagIf(HighST, r) == [] && TagIf(MedInfra, r) == [];
    assert TagIf(Delayed, r) == [] && TagIf(SafetyConcern, r) == [] && TagIf(NoFence, r) == [];
  }

  /** A ratio of exactly 50 is Attention with "High S/C". */
  lemma RatioFiftyIsAttention()
    ensures Classify(Readings(50.0, 30.0, 0.8, 0, 0, 1)) == Attention("High S/C")
  {
    var r := Readings(50.0, 30.0, 0.8, 0, 0, 1);
    RatioFiftyTags(r);
    JoinSmall("High S/C", "", "", ", ");
    assert IssuesText(r) == "High S/C";
  }

  /** Just above 50 the school is Urgent. */
  lemma RatioAboveFiftyIsUrgent()
    ensures Classify(Readings(50.1, 30.0, 0.8, 0, 0, 1)) == Urgent
  {
  }

  /** A ratio of exactly 45 raises no S/C issue: that school is Good. */
  lemma RatioFortyFiveIsGood()
    ensures Classify(Readings(45.0, 30.0, 0.8, 0, 0, 1)) == Good("S/C≤45, S/T≤35, Infra≥0.7")
  {
    GoodHasAllReasons(Readings(45.0, 30.0, 0.8, 0, 0, 1));
  }

  /** The one tag of the example below. */
  lemma InfraHalfTags(r: Readings)
    requires r == Readings(40.0, 30.0, 0.5, 0, 0, 1)
    ensures Map(IssueTags(r), IssueLabel) == ["Med Infra"]
  {
    IssueLabelsUnrolled(r);
    assert TagIf(HighSC, r) == [] && TagIf(HighST, r) == [] && TagIf(MedInfra, r) == ["Med Infra"];
    assert TagIf(Delayed, r) == [] && TagIf(SafetyConcern, r) == [] && TagIf(NoFence, r) == [];
  }

  /** An index of exactly 0.5 is not Urgent but Attention with "Med Infra". */
  lemma InfraHalfIsAttention()
    ensures Classify(Readings(40.0, 30.0, 0.5, 0, 0, 1)) == Attention("Med Infra")
  {
    var r := Readings(40.0, 30.0, 0.5, 0, 0, 1);
    InfraHalfTags(r);
    JoinSmall("Med Infra", "", "", ", ");
    assert IssuesText(r) == "Med Infra";
  }

  /** A delayed, unfenced school with a safety concern but an over-full
      classroom is Urgent, and none of its flags is reported. */
  lemma UrgentHidesFlags()
    ensures Classify(Readings(55.0, 30.0, 0.8, 1, 1, 0)) == Urgent
  {
  }

  /** The three tags of the example below, in listing order. */
  lemma SeveralIssuesTags(r: Readings)
    requires r == Readings(30.0, 38.0, 0.9, 1, 0, 0)
    ensures Map(IssueTags(r), IssueLabel) == ["High S/T", "Delayed", "No Fence"]
  {
    IssueLabelsUnrolled(r);
    assert TagIf(HighSC, r) == [] && TagIf(HighST, r) == ["High S/T"] && TagIf(MedInfra, r) == [];
    assert TagIf(Delayed, r) == ["Delayed"] && TagIf(SafetyConcern, r) == [] && TagIf(NoFence, r) == ["No Fence"];
  }

  /** The three tags of the example below, joined. */
  lemma SeveralIssuesJoined()
    ensures Join(["High S/T", "Delayed", "No Fence"], ", ") == "High S/T, Delayed, No Fence"
  {
    JoinSmall("High S/T", "Delayed", "No Fence", ", ");
  }

  /** Several issues are listed in the fixed order, joined by ", ". */
  lemma SeveralIssuesInOrder()
    ensures Classify(Readings(30.0, 38.0, 0.9, 1, 0, 0)) == Attention("High S/T, Delayed, No Fence")
  {
    var r := Readings(30.0, 38.0, 0.9, 1, 0, 0);
    SeveralIssuesTags(r);
    SeveralIssuesJoined();
    assert IssuesText(r) == "High S/T, Delayed, No Fence";
  }
}
