/** What a run of the graph achieves when nothing raises: which calls it makes, and how it ends. */
module WorkflowProgress {
  import opened Options
  import opened Workflow

  ghost predicate Calm(replies: seq<Reply>) { forall i :: 0 <= i < |replies| ==> !replies[i].crash }

  lemma {:induction false} RunConcat(c: Config, registry: Registry, some: seq<Reply>, more: seq<Reply>)
    ensures Run(c, registry, some + more) == Run(Run(c, registry, some), registry, more)
  {
    hide Step;
    if more == [] {
      assert some + more == some;
    } else {
      var front := more[..|more| - 1];
      assert (some + more)[..|some + more| - 1] == some + front;
      RunConcat(c, registry, some, front);
    }
  }

  lemma RunOne(c: Config, registry: Registry, reply: Reply)
    ensures Run(c, registry, [reply]) == Step(c, registry, reply)
  {
    hide Step;
    assert [reply][..0] == [];
    assert Run(c, registry, []) == c;
  }

  /** A first node, and the rest of the run. */
  lemma RunFirst(c: Config, registry: Registry, replies: seq<Reply>)
    requires replies != []
    ensures Run(c, registry, replies) == Run(Step(c, registry, replies[0]), registry, replies[1..])
  {
    hide Step, Run;
    assert replies == [replies[0]] + replies[1..];
    RunConcat(c, registry, [replies[0]], replies[1..]);
    RunOne(c, registry, replies[0]);
  }

  // ------------------------------------------------------------- the calls

  predicate AllSucceeded(outcomes: seq<Outcome>) { forall i :: 0 <= i < |outcomes| ==> outcomes[i].Output? }

  /** All `n` calls; but without tracked services the first failed call is the last one. */
  ghost predicate CallsMade(outcomes: seq<Outcome>, n: nat, tracked: bool) {
    && 1 <= |outcomes| <= n
    && if tracked then |outcomes| == n
       else AllSucceeded(outcomes[..|outcomes| - 1]) && (|outcomes| == n || outcomes[|outcomes| - 1].Failure?)
  }

  function Successes(outcomes: seq<Outcome>): nat {
    if outcomes == [] then 0
    else Successes(outcomes[..|outcomes| - 1]) + if outcomes[|outcomes| - 1].Output? then 1 else 0
  }

  /** Whether the last call ended the run. */
  predicate BrokenOff(outcomes: seq<Outcome>, tracked: bool) {
    !tracked && outcomes != [] && outcomes[|outcomes| - 1].Failure?
  }

  /** Whether a run that was not broken off has its evidence analysed. */
  predicate Analyses(state: FlowState) {
    (state.intent == "incident_analysis" || |state.investigations| > 1)
    && (state.evidence != [] || state.investigations != [])
  }

  /** A run that has just been let through to the tools. */
  ghost predicate Ready(c: Config) {
    && c.node == ToolExecutor && c.outcomes == [] && c.state.currentStep == 0 && c.state.plan != []
    && c.state.maxSteps >= 1 && c.state.error.None? && c.state.results == [] && c.state.answer.None?
    && !c.state.analysed
  }

  function Bound(state: FlowState): nat {
    if |state.plan| <= state.maxSteps then |state.plan| else state.maxSteps
  }

  /** Where a run is that was ready at `c` and got these replies since. */
  ghost predicate Under(c: Config, d: Config, replies: seq<Reply>) {
    var n, m, tracked := Bound(c.state), |d.outcomes|, c.state.investigations != [];
    && d.state.plan == c.state.plan && d.state.maxSteps == c.state.maxSteps && d.state.intent == c.state.intent
    && |d.state.investigations| == |c.state.investigations| && m <= n && m <= |replies| && d.state.currentStep == m
    && (forall i :: 0 <= i < m ==> d.outcomes[i] == replies[i].outcome)
    && |d.state.results| == Successes(d.outcomes)
    && (BrokenOff(d.outcomes, tracked) <==> d.state.error.Some?)
    && (d.state.error.Some? ==> d.state.error.value.ToolError?)
    && match d.node
       case ToolExecutor =>
         m == |replies| < n && d.state.error.None? && (!tracked ==> AllSucceeded(d.outcomes)) && !d.state.analysed
         && d.state.answer.None?
       case IncidentAnalyzer =>
         m == |replies| && CallsMade(d.outcomes, n, tracked) && d.state.error.None? && Analyses(d.state)
         && d.state.answer.None?
       case AnswerGenerator =>
         |replies| <= m + 1 && CallsMade(d.outcomes, n, tracked) && d.state.answer.None?
         && (d.state.analysed <==> d.state.error.None? && Analyses(d.state))
       case End =>
         CallsMade(d.outcomes, n, tracked)
         && d.state.answer == Some(if BrokenOff(d.outcomes, tracked) then StoppedAfter(Successes(d.outcomes))
                                   else if Successes(d.outcomes) == 0 then NoResults
                                   else Report(Analyses(d.state), Successes(d.outcomes)))
       case _ => false
  }

  lemma OneMore(outcomes: seq<Outcome>, more: Outcome)
    ensures Successes(outcomes + [more]) == Successes(outcomes) + if more.Output? then 1 else 0
    ensures (outcomes + [more])[..|outcomes + [more]| - 1] == outcomes
  {
    assert (outcomes + [more])[..|outcomes|] == outcomes;
  }

  lemma CallKeepsUnder(c: Config, d: Config, registry: Registry, replies: seq<Reply>, reply: Reply)
    requires Ready(c) && Under(c, d, replies) && d.node == ToolExecutor && !reply.crash
    ensures Under(c, Step(d, registry, reply), replies + [reply])
  {
    hide StepService, RecordedFailure, RecordedSuccess, Successes;
    ExecutedFrame(d.state, reply.outcome);
    OneMore(d.outcomes, reply.outcome);
  }

  lemma StepKeepsUnder(c: Config, d: Config, registry: Registry, replies: seq<Reply>, reply: Reply)
    requires Ready(c) && Under(c, d, replies) && !reply.crash
    ensures Under(c, Step(d, registry, reply), replies + [reply])
  {
    if d.node == ToolExecutor {
      CallKeepsUnder(c, d, registry, replies, reply);
    } else {
      hide Executed, AssessedRisk, Successes, AfterExecution, CallsMade, Analyses, AllSucceeded, BrokenOff;
    }
  }

  /** From the tools on, a calm run makes the calls of its plan in order with the outcomes it gets, up to the limit or,
      without tracked services, to the first failure; then it reports them. */
  lemma {:induction false} ReadyRunsItsPlan(c: Config, registry: Registry, replies: seq<Reply>)
    requires Ready(c) && Calm(replies)
    ensures Under(c, Run(c, registry, replies), replies)
    ensures |replies| >= Bound(c.state) + 2 ==> Run(c, registry, replies).node == End
  {
    hide Step, Under, Ready;
    if replies == [] {
      ReadyIsUnder(c);
    } else {
      var front, last := replies[..|replies| - 1], replies[|replies| - 1];
      ReadyRunsItsPlan(c, registry, front);
      assert replies == front + [last];
      StepKeepsUnder(c, Run(c, registry, front), registry, front, last);
    }
    UnderEnds(c, Run(c, registry, replies), replies);
  }

  lemma ReadyIsUnder(c: Config)
    requires Ready(c)
    ensures Under(c, c, [])
  {
  }

  lemma UnderEnds(c: Config, d: Config, replies: seq<Reply>)
    requires Under(c, d, replies)
    ensures |replies| >= Bound(c.state) + 2 ==> d.node == End
  {
    hide Successes, CallsMade, Analyses;
  }

  // ------------------------------------------------------------- a decision

  /** The answer to a refusal. */
  function Refusal(action: Action): Answer
    requires action != Approve
  {
    if action == Reject then NothingRunRejected else NothingRunCancelled
  }

  /** A run let through, as it then goes on with these replies. */
  ghost predicate Proceeds(before: FlowState, d: Config, replies: seq<Reply>) {
    exists c :: Ready(c) && Under(c, d, replies) && c.state.approval == Approved
                && c.state.plan == before.plan && c.state.maxSteps == before.maxSteps && c.state.intent == before.intent
                && c.state.investigations == before.investigations
  }

  /** A refused run: nothing was called, and it says so. */
  ghost predicate Refused(d: Config, action: Action)
    requires action != Approve
  {
    d.node == End && d.outcomes == [] && d.state.answer == Some(Refusal(action)) && d.state.error.Some?
  }

  lemma RefusedStays(d: Config, registry: Registry, replies: seq<Reply>, action: Action)
    requires action != Approve && Refused(d, action)
    ensures Run(d, registry, replies) == d
  {
    if replies != [] { RefusedStays(d, registry, replies[..|replies| - 1], action); }
  }

  /** What an approval releases is done: a run restored with `approve` makes the calls of the saved plan and reports
      them; a run restored with another decision calls nothing and says so. */
  lemma {:induction false} ResumedRunDoesWhatWasDecided(saved: FlowState, action: Action, registry: Registry, replies: seq<Reply>)
    requires AtGate(saved, registry) && Calm(replies) && |replies| >= 3
    ensures var d := Run(Restored(saved, action), registry, replies);
      if action == Approve then
        Proceeds(saved, d, replies[2..]) && (|replies| >= Bound(saved) + 4 ==> d.node == End)
      else Refused(d, action)
  {
    hide Run, Under, AtGate;
    PlanAtGate(saved, registry);
    var c0 := Restored(saved, action);
    RunFirst(c0, registry, replies);
    RunFirst(Step(c0, registry, replies[0]), registry, replies[1..]);
    var c2 := Step(Step(c0, registry, replies[0]), registry, replies[1]);
    assert replies[1..][1..] == replies[2..];
    if action == Approve {
      assert Ready(c2) && c2.state.approval == Approved;
      ReadyRunsItsPlan(c2, registry, replies[2..]);
    } else {
      RunFirst(c2, registry, replies[2..]);
      RefusedStays(Step(c2, registry, replies[2]), registry, replies[2..][1..], action);
    }
  }

  lemma PlanAtGate(state: FlowState, registry: Registry)
    requires AtGate(state, registry)
    ensures state.plan != [] && state.maxSteps >= 1 && state.currentStep == 0 && state.results == []
    ensures state.error.None? && state.answer.None? && !state.analysed
  {
  }

  /** The same for a decision given while the run waits at its gate in memory; without one it stops to ask. */
  lemma {:induction false} GateDoesWhatIsDecided(c: Config, registry: Registry, replies: seq<Reply>)
    requires c.node == ApprovalGate && Sound(c, registry) && Calm(replies) && |replies| >= 2
    ensures var d, answer := Run(c, registry, replies), replies[0].decision;
      match answer
      case None => d.node == Interrupted && d.state == c.state && d.outcomes == []
      case Some(action) =>
        if action == Approve then
          Proceeds(c.state, d, replies[1..]) && (|replies| >= Bound(c.state) + 3 ==> d.node == End)
        else Refused(d, action)
  {
    hide Run, Under, AtGate;
    GateIsSound(c, registry);
    PlanAtGate(c.state, registry);
    RunFirst(c, registry, replies);
    var d := Step(c, registry, replies[0]);
    match replies[0].decision
    case None => InterruptedStays(d, registry, replies[1..]);
    case Some(action) =>
      if action == Approve {
        assert Ready(d) && d.state.approval == Approved;
        ReadyRunsItsPlan(d, registry, replies[1..]);
      } else {
        RunFirst(d, registry, replies[1..]);
        RefusedStays(Step(d, registry, replies[1]), registry, replies[1..][1..], action);
      }
  }

  lemma GateIsSound(c: Config, registry: Registry)
    requires c.node == ApprovalGate && Sound(c, registry)
    ensures AtGate(c.state, registry) && c.outcomes == []
  {
  }

  lemma InterruptedStays(d: Config, registry: Registry, replies: seq<Reply>)
    requires d.node in {Interrupted, Raised, End}
    ensures Run(d, registry, replies) == d
  {
    if replies != [] { InterruptedStays(d, registry, replies[..|replies| - 1]); }
  }

  // --------------------------------------------------------------- a new run

  /** How a calm new run ends, told by the replies to its first nodes: the intent, the plan with its services, and the
      decision at the gate if the plan has a HIGH step. */
  ghost predicate EndsAsDecided(
    maxSteps: nat, registry: Registry, replies: seq<Reply>, d: Config)
    requires |replies| >= 5
  {
    var planned := replies[2].planned;
    if planned.steps == [] then d.node == End && d.outcomes == [] && d.state.answer == Some(NoPlan)
    else if exists i :: 0 <= i < |planned.steps| && planned.steps[i].tool !in registry then
      d.node == Raised && d.outcomes == []
    else if exists i :: 0 <= i < |planned.steps| && registry[planned.steps[i].tool].risk == High then
      match replies[4].decision
      case None => d.node == Interrupted && d.outcomes == [] && d.state.plan == planned.steps && AtGate(d.state, registry)
      case Some(action) =>
        if action == Approve then
          exists c :: Ready(c) && Under(c, d, replies[5..]) && Starts(c, maxSteps, replies[1].intent, planned)
        else Refused(d, action)
    else exists c :: Ready(c) && Under(c, d, replies[4..]) && Starts(c, maxSteps, replies[1].intent, planned)
  }

  /** The run reached the tools with what was planned. */
  ghost predicate Starts(c: Config, maxSteps: nat, intent: string, planned: PlannerDecision) {
    && c.state.plan == planned.steps && c.state.maxSteps == maxSteps && c.state.intent == intent
    && |c.state.investigations| == |planned.services| && c.state.evidence == []
    && forall i :: 0 <= i < |planned.services| ==> c.state.investigations[i].service == planned.services[i]
  }

  function Arrived(maxSteps: nat, intent: string, planned: PlannerDecision): Config {
    var c := Initial(maxSteps);
    c.(node := RiskChecker, state := Planned(c.state.(intent := intent), planned))
  }

  lemma NewRunIsExact(maxSteps: nat, registry: Registry, replies: seq<Reply>)
    requires maxSteps >= 1 && Calm(replies) && |replies| >= maxSteps + 8
    ensures var d := Run(Initial(maxSteps), registry, replies);
      EndsAsDecided(maxSteps, registry, replies, d) && d.node in {End, Interrupted, Raised}
  {
    hide Under, Run, HighPlan, AllRegistered, AssessedRisk, Executed, Ready, Starts, AtGate, GeneratedAnswer;
    var planned, c0 := replies[2].planned, Initial(maxSteps);
    RunFirst(c0, registry, replies);
    RunFirst(Step(c0, registry, replies[0]), registry, replies[1..]);
    assert replies[1..][0] == replies[1] && replies[1..][1..] == replies[2..];
    var c2 := Step(Step(c0, registry, replies[0]), registry, replies[1]);
    RunFirst(c2, registry, replies[2..]);
    assert replies[2..][0] == replies[2] && replies[2..][1..] == replies[3..];
    var c3 := Step(c2, registry, replies[2]);
    if planned.steps == [] {
      EmptyPlanEnds(c3, registry, replies[3..]);
    } else {
      assert c3 == Arrived(maxSteps, replies[1].intent, planned);
      PlannedRunIsExact(maxSteps, registry, replies, c3);
    }
  }

  lemma EmptyPlanEnds(c: Config, registry: Registry, replies: seq<Reply>)
    requires c.node == AnswerGenerator && c.outcomes == [] && c.state.plan == [] && c.state.error.None?
    requires Calm(replies) && replies != []
    ensures var d := Run(c, registry, replies);
      d.node == End && d.outcomes == [] && d.state.answer == Some(NoPlan)
  {
    hide Run;
    RunFirst(c, registry, replies);
    InterruptedStays(Step(c, registry, replies[0]), registry, replies[1..]);
  }

  lemma Assessed(intent: string, plan: seq<PlanStep>, registry: Registry)
    ensures AssessedRisk(intent, plan, registry).None? <==>
              exists i :: 0 <= i < |plan| && plan[i].tool !in registry
    ensures AssessedRisk(intent, plan, registry).Some? ==>
              (AssessedRisk(intent, plan, registry).value == High <==>
                exists i :: 0 <= i < |plan| && plan[i].tool in registry && registry[plan[i].tool].risk == High)
  {
    hide AssessedRisk;
    ApprovalNeededExactlyForHighPlans(intent, plan, registry);
    if HighPlan(plan, registry) {
      var i :| 0 <= i < |plan| && IsHigh(plan[i], registry);
    }
    if i :| 0 <= i < |plan| && plan[i].tool in registry && registry[plan[i].tool].risk == High {
      assert IsHigh(plan[i], registry);
    }
  }

  lemma PlannedRunIsExact(maxSteps: nat, registry: Registry, replies: seq<Reply>, c: Config)
    requires maxSteps >= 1 && Calm(replies) && |replies| >= maxSteps + 8 && replies[2].planned.steps != []
    requires c == Arrived(maxSteps, replies[1].intent, replies[2].planned)
    ensures var d := Run(c, registry, replies[3..]);
      EndsAsDecided(maxSteps, registry, replies, d) && d.node in {End, Interrupted, Raised}
  {
    hide Under, Run, AssessedRisk, Executed, AtGate, GeneratedAnswer;
    var planned, rest := replies[2].planned, replies[3..];
    Assessed(replies[1].intent, planned.steps, registry);
    RunFirst(c, registry, rest);
    var risked := Step(c, registry, rest[0]);
    assert rest[1..] == replies[4..] && rest[0] == replies[3];
    if risked.node == Raised {
      InterruptedStays(risked, registry, rest[1..]);
    } else if risked.node == ToolExecutor {
      assert Ready(risked) && Starts(risked, maxSteps, replies[1].intent, planned);
      ReadyRunsItsPlan(risked, registry, replies[4..]);
    } else {
      GatedRunIsExact(maxSteps, registry, replies, risked);
    }
  }

  lemma GatedRunIsExact(maxSteps: nat, registry: Registry, replies: seq<Reply>, c: Config)
    requires maxSteps >= 1 && Calm(replies) && |replies| >= maxSteps + 8 && replies[2].planned.steps != []
    requires c.node == ApprovalGate && c.outcomes == [] && c.state.currentStep == 0 && c.state.error.None?
    requires c.state.results == [] && c.state.answer.None? && !c.state.analysed
    requires Starts(c, maxSteps, replies[1].intent, replies[2].planned)
    requires forall i :: 0 <= i < |c.state.plan| ==> c.state.plan[i].tool in registry
    requires exists i :: 0 <= i < |c.state.plan| && registry[c.state.plan[i].tool].risk == High
    ensures var d := Run(c, registry, replies[4..]);
      EndsAsDecided(maxSteps, registry, replies, d) && d.node in {End, Interrupted, Raised}
  {
    hide Under, Run;
    var i :| 0 <= i < |c.state.plan| && registry[c.state.plan[i].tool].risk == High;
    assert IsHigh(c.state.plan[i], registry);
    var rest := replies[4..];
    RunFirst(c, registry, rest);
    assert rest[1..] == replies[5..] && rest[0] == replies[4];
    var d := Step(c, registry, rest[0]);
    match replies[4].decision
    case None => InterruptedStays(d, registry, rest[1..]);
    case Some(action) =>
      if action == Approve {
        assert Ready(d) && Starts(d, maxSteps, replies[1].intent, replies[2].planned);
        ReadyRunsItsPlan(d, registry, replies[5..]);
      } else {
        RunFirst(d, registry, rest[1..]);
        RefusedStays(Step(d, registry, rest[1]), registry, rest[1..][1..], action);
      }
  }
}
