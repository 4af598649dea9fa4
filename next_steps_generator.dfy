/**
 * The next-steps generator: an ordered list of recommendations built from the rating
 * and the lengths of the four priority tiers.
 */
module NextStepsGenerator {
  import opened Types
  import opened Decimal

  /** The kinds of recommendation; the count-carrying ones embed a tier's length. */
  datatype Step =
    | ImmediateCritical(count: nat)
    | ScheduleHigh(count: nat)
    | ComprehensiveReview
    | RemediationTimeline
    | PrioritizeAndAssign
    | PlanSprint(count: nat)
    | AddToBacklog(count: nat)
    | AssignTasks
    | FollowUpReview
    | ReadyForLaunch

  /** The kinds whose text embeds a tier's length. */
  predicate Counted(step: Step)
  {
    step.ImmediateCritical? || step.ScheduleHigh? || step.PlanSprint? || step.AddToBacklog?
  }

  /**
   * The text of a recommendation: its icon, then its wording; a counted kind's wording is
   * a lead, the decimal numeral of its count, and a trail.
   */
  function Message(step: Step): (text: string)
    ensures |text| > 0 && text[0] == Icon(step)
    ensures Counted(step) ==> Contains(text, NatToString(step.count))
  {
    if Counted(step) then
      InsertedPiece([Icon(step)] + Lead(step), NatToString(step.count), Trail(step));
      [Icon(step)] + Lead(step) + NatToString(step.count) + Trail(step)
    else [Icon(step)] + Wording(step)
  }

  /** What comes between the icon and the count. */
  function Lead(step: Step): string
    requires Counted(step)
  {
    match step
    case ImmediateCritical(_) => " Immediately address "
    case ScheduleHigh(_) => "\U{FE0F} Schedule fixes for "
    case PlanSprint(_) => " Plan sprint for "
    case AddToBacklog(_) => " Add "
  }

  /** What follows the count. */
  function Trail(step: Step): string
    requires Counted(step)
  {
    match step
    case ImmediateCritical(_) => " critical issue(s) before site launch or promotion"
    case ScheduleHigh(_) => " high-priority item(s) within one week"
    case PlanSprint(_) => " medium-priority improvement(s)"
    case AddToBacklog(_) => " low-priority item(s) to backlog for future iterations"
  }

  /** What follows the icon in a text without a count. */
  function Wording(step: Step): string
    requires !Counted(step)
  {
    match step
    case ComprehensiveReview => " Conduct comprehensive site review with development team"
    case RemediationTimeline => " Create detailed remediation timeline with milestones"
    case PrioritizeAndAssign => " Prioritize and assign issues to development team"
    case AssignTasks => " Assign tasks to team members with clear completion dates"
    case FollowUpReview => " Schedule follow-up QA review after fixes are implemented"
    case ReadyForLaunch => " Site is ready for launch - proceed with deployment plan"
  }

  /** The icon that opens each text; the kind's phase can be read back from it. */
  function Icon(step: Step): (icon: char)
    ensures IconPhase(icon) == Phase(step)
  {
    match step
    case ImmediateCritical(_) => '\U{1F6A8}'
    case ScheduleHigh(_) => '\U{26A0}'
    case ComprehensiveReview => '\U{1F4CB}'
    case RemediationTimeline => '\U{1F4C5}'
    case PrioritizeAndAssign => '\U{1F50D}'
    case PlanSprint(_) => '\U{1F4CC}'
    case AddToBacklog(_) => '\U{1F4A1}'
    case AssignTasks => '\U{1F465}'
    case FollowUpReview => '\U{1F504}'
    case ReadyForLaunch => '\U{1F680}'
  }

  /** Reads an icon back as the phase of its kind; 10 for a character that is no icon. */
  function IconPhase(icon: char): nat
  {
    if icon == '\U{1F6A8}' then 0
    else if icon == '\U{26A0}' then 1
    else if icon == '\U{1F4CB}' then 2
    else if icon == '\U{1F4C5}' then 3
    else if icon == '\U{1F50D}' then 4
    else if icon == '\U{1F4CC}' then 5
    else if icon == '\U{1F4A1}' then 6
    else if icon == '\U{1F465}' then 7
    else if icon == '\U{1F504}' then 8
    else if icon == '\U{1F680}' then 9
    else 10
  }

  /** Different recommendations have different texts, so facts about steps carry over to texts. */
  lemma MessageInjective(a: Step, b: Step)
    requires Message(a) == Message(b)
    ensures a == b
  {
    // the icons tell the kinds apart; within a kind the numeral tells the counts apart
    assert Icon(a) == Message(a)[0] == Message(b)[0] == Icon(b);
    assert Phase(a) == IconPhase(Icon(a)) == Phase(b);
    SamePhase(a, b);
    if Counted(a) {
      CountInMessage(a, b);
    }
  }

  /** Steps in the same phase are of the same kind: equal outright, or differing in the count alone. */
  lemma SamePhase(a: Step, b: Step)
    requires Phase(a) == Phase(b)
    ensures Counted(a) == Counted(b)
    ensures !Counted(a) ==> a == b
    ensures Counted(a) ==> Lead(a) == Lead(b) && Trail(a) == Trail(b) && b == a.(count := b.count)
  {
  }

  /** Two texts of the same counted kind agree only when their counts do. */
  lemma CountInMessage(a: Step, b: Step)
    requires Counted(a) && Phase(a) == Phase(b)
    requires Message(a) == Message(b)
    ensures a == b
  {
    SamePhase(a, b);
    EmbeddedNumeral([Icon(a)] + Lead(a), a.count, b.count, Trail(a));
  }

  // ---------------------------------------------------------------- the rules

  /** The fixed position of each kind in the output. */
  function Phase(step: Step): nat
  {
    match step
    case ImmediateCritical(_) => 0
    case ScheduleHigh(_) => 1
    case ComprehensiveReview => 2
    case RemediationTimeline => 3
    case PrioritizeAndAssign => 4
    case PlanSprint(_) => 5
    case AddToBacklog(_) => 6
    case AssignTasks => 7
    case FollowUpReview => 8
    case ReadyForLaunch => 9
  }

  /** Whether a step belongs in the output; each rule stands on its own. */
  predicate Wanted(step: Step, rating: Rating, summary: PrioritySummary)
    ensures Wanted(step, rating, summary) && Counted(step) ==> step.count > 0
  {
    match step
    case ImmediateCritical(n) => n == |summary.critical| && n > 0
    case ScheduleHigh(n) => n == |summary.high| && n > 0
    case ComprehensiveReview => rating == Poor
    case RemediationTimeline => rating == Poor
    case PrioritizeAndAssign => rating == Fair
    case PlanSprint(n) => n == |summary.medium| && n > 0
    case AddToBacklog(n) => n == |summary.low| && n > 0 && rating != Poor
    case AssignTasks => true
    case FollowUpReview => true
    case ReadyForLaunch => rating == Excellent
  }

  /** Every step that could be recommended, in phase order, counts taken from the tiers. */
  function Candidates(summary: PrioritySummary): seq<Step>
  {
    [ImmediateCritical(|summary.critical|), ScheduleHigh(|summary.high|), ComprehensiveReview,
     RemediationTimeline, PrioritizeAndAssign, PlanSprint(|summary.medium|), AddToBacklog(|summary.low|),
     AssignTasks, FollowUpReview, ReadyForLaunch]
  }

  /** The step alone if the rules want it, otherwise nothing. */
  function Include(step: Step, rating: Rating, summary: PrioritySummary): seq<Step>
  {
    if Wanted(step, rating, summary) then [step] else []
  }

  /** The candidates that the rules want, keeping their order. */
  function Select(candidates: seq<Step>, rating: Rating, summary: PrioritySummary): seq<Step>
  {
    if candidates == [] then []
    else Select(candidates[..|candidates| - 1], rating, summary) + Include(candidates[|candidates| - 1], rating, summary)
  }

  /** The recommendations for a rating and a priority summary. */
  function NextStepPlan(rating: Rating, summary: PrioritySummary): (plan: seq<Step>)
    ensures forall s :: s in plan ==> Wanted(s, rating, summary)
  {
    SelectMembers(Candidates(summary), rating, summary);
    Select(Candidates(summary), rating, summary)
  }

  // ---------------------------------------------------------------- the generator

  /** `texts` are the texts of `plan`, one for one. */
  predicate Renders(texts: seq<string>, plan: seq<Step>)
  {
    |texts| == |plan| && forall i :: 0 <= i < |plan| ==> texts[i] == Message(plan[i])
  }

  /** The texts determine the steps behind them. */
  lemma RendersDeterminesPlan(texts: seq<string>, plan: seq<Step>, other: seq<Step>)
    requires Renders(texts, plan) && Renders(texts, other)
    ensures plan == other
  {
    forall i | 0 <= i < |plan| ensures plan[i] == other[i] {
      MessageInjective(plan[i], other[i]);
    }
  }

  /**
   * One guarded `push` of the generator: appends the text of `step` when the guard holds.
   * The guard written in the generator must be the rule that wants the step.
   */
  method PushIf(texts: seq<string>, ghost plan: seq<Step>, guard: bool, step: Step,
                ghost rating: Rating, ghost summary: PrioritySummary) returns (longer: seq<string>)
    requires Renders(texts, plan)
    requires guard == Wanted(step, rating, summary)
    ensures Renders(longer, plan + Include(step, rating, summary))
  {
    longer := texts;
    if guard {
      longer := longer + [Message(step)];
    }
  }

  /**
   * Builds the recommendation texts rule by rule, in the fixed order, in two stretches;
   * the ghost `plan` records the kinds appended so far.
   */
  method GenerateNextSteps(rating: Rating, summary: PrioritySummary) returns (steps: seq<string>)
    ensures Renders(steps, NextStepPlan(rating, summary))
  {
    ghost var plan: seq<Step>;
    steps, plan := PushEarlySteps(rating, summary);
    steps := PushLateSteps(steps, plan, rating, summary);
  }

  /** The urgent part: critical and high tiers, then the rating's own steps. */
  method PushEarlySteps(rating: Rating, summary: PrioritySummary) returns (steps: seq<string>, ghost plan: seq<Step>)
    ensures plan == Select(Candidates(summary)[..5], rating, summary)
    ensures Renders(steps, plan)
  {
    plan := [];
    steps := [];
    var step := ImmediateCritical(|summary.critical|);
    steps := PushIf(steps, plan, |summary.critical| > 0, step, rating, summary);
    plan := plan + Include(step, rating, summary);
    step := ScheduleHigh(|summary.high|);
    steps := PushIf(steps, plan, |summary.high| > 0, step, rating, summary);
    plan := plan + Include(step, rating, summary);
    // poor: a full review and a timeline; fair: prioritising
    steps := PushIf(steps, plan, rating == Poor, ComprehensiveReview, rating, summary);
    plan := plan + Include(ComprehensiveReview, rating, summary);
    steps := PushIf(steps, plan, rating == Poor, RemediationTimeline, rating, summary);
    plan := plan + Include(RemediationTimeline, rating, summary);
    steps := PushIf(steps, plan, rating == Fair, PrioritizeAndAssign, rating, summary);
    plan := plan + Include(PrioritizeAndAssign, rating, summary);
    EarlyDecisions(rating, summary);
  }

  /** The rest, appended to the urgent part: medium and low tiers, the fixed steps, the launch step. */
  method PushLateSteps(texts: seq<string>, ghost early: seq<Step>, rating: Rating, summary: PrioritySummary)
      returns (steps: seq<string>)
    requires early == Select(Candidates(summary)[..5], rating, summary)
    requires Renders(texts, early)
    ensures Renders(steps, NextStepPlan(rating, summary))
  {
    ghost var plan := early;
    steps := texts;
    var step := PlanSprint(|summary.medium|);
    steps := PushIf(steps, plan, |summary.medium| > 0, step, rating, summary);
    plan := plan + Include(step, rating, summary);
    step := AddToBacklog(|summary.low|);
    steps := PushIf(steps, plan, |summary.low| > 0 && rating != Poor, step, rating, summary);
    plan := plan + Include(step, rating, summary);
    steps := PushIf(steps, plan, true, AssignTasks, rating, summary);
    plan := plan + Include(AssignTasks, rating, summary);
    steps := PushIf(steps, plan, true, FollowUpReview, rating, summary);
    plan := plan + Include(FollowUpReview, rating, summary);
    steps := PushIf(steps, plan, rating == Excellent, ReadyForLaunch, rating, summary);
    plan := plan + Include(ReadyForLaunch, rating, summary);
    LateDecisions(rating, summary);
  }

  lemma SelectSnoc(candidates: seq<Step>, step: Step, rating: Rating, summary: PrioritySummary)
    ensures Select(candidates + [step], rating, summary) == Select(candidates, rating, summary) + Include(step, rating, summary)
  {
    assert (candidates + [step])[..|candidates|] == candidates;
  }

  /** The plan as the chain of per-candidate decisions, in the order the generator takes them. */
  lemma PlanUnfolded(rating: Rating, summary: PrioritySummary)
    ensures NextStepPlan(rating, summary)
         == [] + Include(ImmediateCritical(|summary.critical|), rating, summary)
               + Include(ScheduleHigh(|summary.high|), rating, summary)
               + Include(ComprehensiveReview, rating, summary)
               + Include(RemediationTimeline, rating, summary)
               + Include(PrioritizeAndAssign, rating, summary)
               + Include(PlanSprint(|summary.medium|), rating, summary)
               + Include(AddToBacklog(|summary.low|), rating, summary)
               + Include(AssignTasks, rating, summary)
               + Include(FollowUpReview, rating, summary)
               + Include(ReadyForLaunch, rating, summary)
  {
    EarlyDecisions(rating, summary);
    LateDecisions(rating, summary);
  }

  /** The decisions on the five candidates that come first. */
  lemma EarlyDecisions(rating: Rating, summary: PrioritySummary)
    ensures Select(Candidates(summary)[..5], rating, summary)
         == [] + Include(ImmediateCritical(|summary.critical|), rating, summary)
               + Include(ScheduleHigh(|summary.high|), rating, summary)
               + Include(ComprehensiveReview, rating, summary)
               + Include(RemediationTimeline, rating, summary)
               + Include(PrioritizeAndAssign, rating, summary)
  {
    var c := Candidates(summary);
    SelectPrefixSnoc(c, 0, rating, summary);
    SelectPrefixSnoc(c, 1, rating, summary);
    SelectPrefixSnoc(c, 2, rating, summary);
    SelectPrefixSnoc(c, 3, rating, summary);
    SelectPrefixSnoc(c, 4, rating, summary);
    assert c[..0] == [];
  }

  /** The decisions on the remaining five candidates, after the first five. */
  lemma LateDecisions(rating: Rating, summary: PrioritySummary)
    ensures NextStepPlan(rating, summary)
         == Select(Candidates(summary)[..5], rating, summary)
               + Include(PlanSprint(|summary.medium|), rating, summary)
               + Include(AddToBacklog(|summary.low|), rating, summary)
               + Include(AssignTasks, rating, summary)
               + Include(FollowUpReview, rating, summary)
               + Include(ReadyForLaunch, rating, summary)
  {
    var c := Candidates(summary);
    SelectPrefixSnoc(c, 5, rating, summary);
    SelectPrefixSnoc(c, 6, rating, summary);
    SelectPrefixSnoc(c, 7, rating, summary);
    SelectPrefixSnoc(c, 8, rating, summary);
    SelectPrefixSnoc(c, 9, rating, summary);
    assert c[..10] == c;
  }

  lemma SelectPrefixSnoc(candidates: seq<Step>, k: nat, rating: Rating, summary: PrioritySummary)
    requires k < |candidates|
    ensures Select(candidates[..k + 1], rating, summary)
         == Select(candidates[..k], rating, summary) + Include(candidates[k], rating, summary)
  {
    assert candidates[..k + 1] == candidates[..k] + [candidates[k]];
    SelectSnoc(candidates[..k], candidates[k], rating, summary);
  }

  // ---------------------------------------------------------------- a declarative reading

  /** Phases strictly increase along the sequence: fixed order, and no kind twice. */
  predicate InPhaseOrder(steps: seq<Step>)
  {
    forall i, j :: 0 <= i < j < |steps| ==> Phase(steps[i]) < Phase(steps[j])
  }

  /** Selection keeps exactly the wanted candidates. */
  lemma {:induction false} SelectMembers(candidates: seq<Step>, rating: Rating, summary: PrioritySummary)
    ensures forall s :: s in Select(candidates, rating, summary) <==> s in candidates && Wanted(s, rating, summary)
  {
    if candidates != [] {
      var init := candidates[..|candidates| - 1];
      SelectMembers(init, rating, summary);
      assert candidates == init + [candidates[|candidates| - 1]];
    }
  }

  /** Selection keeps the candidates' order. */
  lemma {:induction false} SelectInPhaseOrder(candidates: seq<Step>, rating: Rating, summary: PrioritySummary)
    requires InPhaseOrder(candidates)
    ensures InPhaseOrder(Select(candidates, rating, summary))
  {
    if candidates != [] {
      var n := |candidates|;
      var init, last := candidates[..n - 1], candidates[n - 1];
      var front := Select(init, rating, summary);
      var selected := Select(candidates, rating, summary);
      SelectInPhaseOrder(init, rating, summary);
      SelectMembers(init, rating, summary);
      forall i, j | 0 <= i < j < |selected| ensures Phase(selected[i]) < Phase(selected[j]) {
        assert selected[i] == front[i];
        if j == |front| {
          // the last candidate comes after everything selected before it
          assert front[i] in init;
          var m :| 0 <= m < |init| && init[m] == front[i];
          assert candidates[m] == front[i] && selected[j] == last;
        } else {
          assert selected[j] == front[j];
        }
      }
    }
  }

  /** The plan holds exactly the wanted steps, in phase order. */
  lemma PlanIsWantedInOrder(rating: Rating, summary: PrioritySummary)
    ensures InPhaseOrder(NextStepPlan(rating, summary))
    ensures forall s :: s in NextStepPlan(rating, summary) <==> Wanted(s, rating, summary)
  {
    var c := Candidates(summary);
    assert forall i :: 0 <= i < |c| ==> Phase(c[i]) == i;
    SelectInPhaseOrder(c, rating, summary);
    SelectMembers(c, rating, summary);
    forall s | Wanted(s, rating, summary) ensures s in c {
      assert s == c[Phase(s)];
    }
  }

  /** Two phase-ordered sequences with the same elements are the same sequence. */
  lemma {:induction false} PhaseOrderedUnique(a: seq<Step>, b: seq<Step>)
    requires InPhaseOrder(a) && InPhaseOrder(b)
    requires forall s :: s in a <==> s in b
    ensures a == b
  {
    // neither side can be empty while the other is not
    assert a != [] ==> a[0] in b;
    assert b != [] ==> b[0] in a;
    if a != [] && b != [] {
      // each head has the smallest phase of its side, so the heads coincide
      var i :| 0 <= i < |b| && b[i] == a[0];
      var j :| 0 <= j < |a| && a[j] == b[0];
      assert i == 0 && j == 0;
      forall s ensures s in a[1..] <==> s in b[1..] {
        InTail(a, s);
        InTail(b, s);
      }
      PhaseOrderedUnique(a[1..], b[1..]);
      assert a == [a[0]] + a[1..] && b == [b[0]] + b[1..];
    }
  }

  /** In a phase-ordered sequence the tail holds every element but the head. */
  lemma InTail(a: seq<Step>, s: Step)
    requires InPhaseOrder(a) && a != []
    ensures s in a[1..] <==> s in a && s != a[0]
  {
    if s in a[1..] {
      var k :| 0 <= k < |a| - 1 && a[1..][k] == s;
      assert a[k + 1] == s;
    }
    if s in a && s != a[0] {
      var m :| 0 <= m < |a| && a[m] == s;
      assert a[1..][m - 1] == s;
    }
  }

  /** Any phase-ordered sequence holding exactly the wanted steps is the plan. */
  lemma PlanIsDeterminedByRules(rating: Rating, summary: PrioritySummary, steps: seq<Step>)
    requires InPhaseOrder(steps)
    requires forall s :: s in steps <==> Wanted(s, rating, summary)
    ensures steps == NextStepPlan(rating, summary)
  {
    PlanIsWantedInOrder(rating, summary);
    PhaseOrderedUnique(steps, NextStepPlan(rating, summary));
  }

  // ---------------------------------------------------------------- consequences

  /** The two closing steps always come last, followed only by the launch step for excellent. */
  lemma PlanEnding(rating: Rating, summary: PrioritySummary)
    ensures var plan := NextStepPlan(rating, summary);
            if rating == Excellent then
              |plan| >= 3 && plan[|plan| - 3..] == [AssignTasks, FollowUpReview, ReadyForLaunch]
            else
              |plan| >= 2 && plan[|plan| - 2..] == [AssignTasks, FollowUpReview]
  {
    PlanUnfolded(rating, summary);
  }

  /** With critical issues the first step names their number; without them no step mentions them. */
  lemma PlanCriticalFirst(rating: Rating, summary: PrioritySummary)
    ensures var plan := NextStepPlan(rating, summary);
            (|summary.critical| > 0 ==> |plan| > 0 && plan[0] == ImmediateCritical(|summary.critical|))
            && (|summary.critical| == 0 ==> forall s :: s in plan ==> !s.ImmediateCritical?)
  {
    PlanUnfolded(rating, summary);
  }

  /** The backlog step appears exactly when there are low-priority items and the rating is not poor. */
  lemma PlanBacklog(rating: Rating, summary: PrioritySummary)
    ensures (exists s :: s in NextStepPlan(rating, summary) && s.AddToBacklog?)
        <==> |summary.low| > 0 && rating != Poor
  {
    PlanIsWantedInOrder(rating, summary);
    if |summary.low| > 0 && rating != Poor {
      assert Wanted(AddToBacklog(|summary.low|), rating, summary);
    }
  }

  /** Poor adds the review and the timeline, fair adds prioritising, good and excellent add neither. */
  lemma PlanRatingSteps(rating: Rating, summary: PrioritySummary)
    ensures ComprehensiveReview in NextStepPlan(rating, summary) <==> rating == Poor
    ensures RemediationTimeline in NextStepPlan(rating, summary) <==> rating == Poor
    ensures PrioritizeAndAssign in NextStepPlan(rating, summary) <==> rating == Fair
  {
    PlanIsWantedInOrder(rating, summary);
  }

  /** Every count carried by a step is the length of its tier. */
  lemma PlanCounts(rating: Rating, summary: PrioritySummary)
    ensures forall s :: s in NextStepPlan(rating, summary) ==>
              (s.ImmediateCritical? ==> s.count == |summary.critical|)
              && (s.ScheduleHigh? ==> s.count == |summary.high|)
              && (s.PlanSprint? ==> s.count == |summary.medium|)
              && (s.AddToBacklog? ==> s.count == |summary.low|)
  {
    PlanIsWantedInOrder(rating, summary);
  }

  /** Between two and seven steps; exactly three for excellent with every tier empty. */
  lemma PlanLength(rating: Rating, summary: PrioritySummary)
    ensures 2 <= |NextStepPlan(rating, summary)| <= 7
    ensures rating == Excellent && summary == PrioritySummary([], [], [], [])
            ==> NextStepPlan(rating, summary) == [AssignTasks, FollowUpReview, ReadyForLaunch]
  {
    PlanUnfolded(rating, summary);
  }

  /** Poor with all four tiers non-empty: everything but the backlog step, in order. */
  lemma PlanPoorAllTiers(summary: PrioritySummary)
    requires |summary.critical| > 0 && |summary.high| > 0 && |summary.medium| > 0 && |summary.low| > 0
    ensures NextStepPlan(Poor, summary)
         == [ImmediateCritical(|summary.critical|), ScheduleHigh(|summary.high|), ComprehensiveReview,
             RemediationTimeline, PlanSprint(|summary.medium|), AssignTasks, FollowUpReview]
  {
    PlanUnfolded(Poor, summary);
  }
}
