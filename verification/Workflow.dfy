/** The bounded plan-then-execute graph: its nodes, its edges and what every run of it keeps. */
module Workflow {
  import opened Options

  // ------------------------------------------------------------------ data

  datatype Risk = Low | Medium | High

  datatype Tool = Tool(risk: Risk, enabled: bool)

  type Registry = map<string, Tool>

  /** One planned call. `service` is the string input `service_name`, when the step has one. */
  datatype PlanStep = PlanStep(tool: string, service: Option<string>, arguments: string)

  datatype Observation = Observation(step: nat, service: string, tool: string, output: int)

  datatype Progress = Pending | Underway | Complete | Partial | Broken

  datatype Investigation = Investigation(
    service: string, status: Progress, evidence: seq<Observation>, error: Option<string>, citations: seq<nat>)

  datatype Action = Approve | Reject | Cancel

  datatype Approval = NotAsked | AwaitingDecision | Approved | Rejected | Cancelled

  /** Tool codes are the constants of the registry errors, so they never equal the two approval codes. */
  datatype Error = ApprovalRejected | ApprovalCancelled | ToolError(code: string)

  datatype Answer =
    | NothingRunRejected
    | NothingRunCancelled
    | StoppedAfter(results: nat)
    | NoPlan
    | NoResults
    | Report(analysed: bool, results: nat)

  datatype FlowState = FlowState(
    intent: string,
    plan: seq<PlanStep>,
    currentStep: nat,
    maxSteps: nat,
    results: seq<Observation>,
    evidence: seq<Observation>,
    investigations: seq<Investigation>,
    risk: Risk,
    requiresApproval: bool,
    approval: Approval,
    action: Option<Action>,
    resume: bool,
    analysed: bool,
    error: Option<Error>,
    answer: Option<Answer>)

  datatype Node =
    | Start
    | IntentRouter
    | Planner
    | RiskChecker
    | ApprovalGate
    | ApprovalDecision
    | ToolExecutor
    | IncidentAnalyzer
    | AnswerGenerator
    | End
    | Interrupted
    | Raised

  datatype Outcome = Output(data: int) | Failure(code: string)

  datatype PlannerDecision = PlannerDecision(steps: seq<PlanStep>, services: seq<string>)

  /** What the outside world contributes to one node: the model, the tools and unexpected exceptions. */
  datatype Reply = Reply(intent: string, planned: PlannerDecision, outcome: Outcome, decision: Option<Action>, crash: bool)

  /** A run: where it is, its state, and the tool outcomes so far in call order. */
  datatype Config = Config(node: Node, state: FlowState, outcomes: seq<Outcome>)

  // ------------------------------------------------------------ risk check

  function Rank(risk: Risk): nat {
    match risk
    case Low => 0
    case Medium => 1
    case High => 2
  }

  /** The highest declared risk of the plan, or None when a step names no registered tool. */
  function DeclaredRisk(plan: seq<PlanStep>, registry: Registry): Option<Risk> {
    if plan == [] then Some(Low)
    else
      var last := plan[|plan| - 1];
      var level := DeclaredRisk(plan[..|plan| - 1], registry);
      if level.None? || last.tool !in registry then None
      else if Rank(registry[last.tool].risk) > Rank(level.value) then Some(registry[last.tool].risk)
      else level
  }

  const INCIDENT_ANALYSIS := "incident_analysis"

  function AssessedRisk(intent: string, plan: seq<PlanStep>, registry: Registry): Option<Risk> {
    var level := DeclaredRisk(plan, registry);
    if level == Some(Low) && intent == INCIDENT_ANALYSIS then Some(Medium) else level
  }

  predicate IsHigh(step: PlanStep, registry: Registry) {
    step.tool in registry && registry[step.tool].risk == High
  }

  predicate HighPlan(plan: seq<PlanStep>, registry: Registry) {
    exists i :: 0 <= i < |plan| && IsHigh(plan[i], registry)
  }

  predicate AllRegistered(plan: seq<PlanStep>, registry: Registry) {
    forall i :: 0 <= i < |plan| ==> plan[i].tool in registry
  }

  lemma {:induction false} DeclaredRiskIsHighest(plan: seq<PlanStep>, registry: Registry)
    ensures DeclaredRisk(plan, registry).Some? <==> AllRegistered(plan, registry)
    ensures DeclaredRisk(plan, registry).Some? ==> Highest(DeclaredRisk(plan, registry).value, plan, registry)
  {
    if plan != [] {
      var n := |plan| - 1;
      var front := plan[..n];
      assert forall i :: 0 <= i < n ==> front[i] == plan[i];
      DeclaredRiskIsHighest(front, registry);
      assert AllRegistered(plan, registry) <==> AllRegistered(front, registry) && plan[n].tool in registry;
      if DeclaredRisk(plan, registry).Some? {
        HighestMore(DeclaredRisk(front, registry).value, front, plan[n], registry);
        assert plan == front + [plan[n]];
      }
    }
  }

  /** A level that no step exceeds, and that is LOW or the level of a step. */
  ghost predicate Highest(level: Risk, plan: seq<PlanStep>, registry: Registry) {
    && (forall i :: 0 <= i < |plan| && plan[i].tool in registry ==>
          registry[plan[i].tool].risk == level || level == High || (level == Medium && registry[plan[i].tool].risk == Low))
    && (level == Low || exists i :: 0 <= i < |plan| && plan[i].tool in registry && registry[plan[i].tool].risk == level)
  }

  lemma HighestMore(level: Risk, plan: seq<PlanStep>, step: PlanStep, registry: Registry)
    requires Highest(level, plan, registry) && step.tool in registry
    ensures Highest(if Rank(registry[step.tool].risk) > Rank(level) then registry[step.tool].risk else level,
                    plan + [step], registry)
  {
    var more := plan + [step];
    assert more[|plan|] == step;
    forall i | 0 <= i < |plan| ensures more[i] == plan[i] {}
    if i :| 0 <= i < |plan| && plan[i].tool in registry && registry[plan[i].tool].risk == level {
      assert more[i] == plan[i];
    }
  }

  lemma HighestIsHigh(level: Risk, plan: seq<PlanStep>, registry: Registry)
    requires Highest(level, plan, registry)
    ensures level == High <==> HighPlan(plan, registry)
  {
    if level == High {
      var i :| 0 <= i < |plan| && plan[i].tool in registry && registry[plan[i].tool].risk == High;
      assert IsHigh(plan[i], registry);
    }
  }

  /** The level of a plan is the highest its tools declare, raised to MEDIUM for an incident analysis of LOW tools;
      assessing fails exactly on an unknown tool; and approval is asked for exactly when the plan holds a HIGH tool,
      whatever the intent. */
  lemma ApprovalNeededExactlyForHighPlans(intent: string, plan: seq<PlanStep>, registry: Registry)
    ensures AssessedRisk(intent, plan, registry).Some? <==> AllRegistered(plan, registry)
    ensures AssessedRisk(intent, plan, registry).Some? ==>
              var level := AssessedRisk(intent, plan, registry).value;
              && (level == High <==> HighPlan(plan, registry))
              && (Highest(level, plan, registry)
                  || (level == Medium && intent == "incident_analysis" && Highest(Low, plan, registry)))
              && (intent == "incident_analysis" ==> level != Low)
  {
    DeclaredRiskIsHighest(plan, registry);
    var declared := DeclaredRisk(plan, registry);
    if declared.Some? { HighestIsHigh(declared.value, plan, registry); }
  }

  // ------------------------------------------------- per-service progress

  function StepService(step: PlanStep, items: seq<Investigation>): string {
    if step.service.Some? then step.service.value
    else if items != [] then items[0].service
    else "unscoped"
  }

  function Find(items: seq<Investigation>, service: string): (index: nat)
    ensures index <= |items|
    ensures index < |items| ==> items[index].service == service
    ensures forall i :: 0 <= i < index ==> items[i].service != service
  {
    if items == [] || items[0].service == service then 0 else 1 + Find(items[1..], service)
  }

  function FailedItem(item: Investigation, code: string): Investigation {
    item.(status := if item.evidence != [] then Partial else Broken, error := Some(code))
  }

  function SucceededItem(item: Investigation, seen: Observation, more: bool): Investigation {
    item.(evidence := item.evidence + [seen],
          citations := item.citations + [seen.step],
          status := if item.error.Some? then Partial else if more then Underway else Complete)
  }

  predicate AnyFor(steps: seq<PlanStep>, items: seq<Investigation>, service: string) {
    exists step :: step in steps && StepService(step, items) == service
  }

  function RecordedFailure(items: seq<Investigation>, service: string, code: string): seq<Investigation> {
    var at := Find(items, service);
    if at == |items| then items else items[at := FailedItem(items[at], code)]
  }

  function RecordedSuccess(items: seq<Investigation>, service: string, seen: Observation, remaining: seq<PlanStep>)
    : seq<Investigation>
  {
    var at := Find(items, service);
    if at == |items| then items
    else items[at := SucceededItem(items[at], seen, AnyFor(remaining, items, service))]
  }

  method RecordInvestigationFailure(items: array<Investigation>, service: string, code: string)
    modifies items
    ensures items[..] == RecordedFailure(old(items[..]), service, code)
  {
    ghost var before := items[..];
    var i := 0;
    while i < items.Length
      invariant 0 <= i <= items.Length
      invariant items[..] == before
      invariant forall j :: 0 <= j < i ==> before[j].service != service
    {
      if items[i].service == service {
        assert Find(before, service) == i;
        items[i] := FailedItem(items[i], code);
        assert items[..] == before[i := FailedItem(before[i], code)];
        return;
      }
      i := i + 1;
    }
  }

  method RecordInvestigationSuccess(
      items: array<Investigation>, service: string, seen: Observation, remaining: seq<PlanStep>)
    modifies items
    ensures items[..] == RecordedSuccess(old(items[..]), service, seen, remaining)
  {
    ghost var before := items[..];
    var i := 0;
    while i < items.Length
      invariant 0 <= i <= items.Length
      invariant items[..] == before
      invariant forall j :: 0 <= j < i ==> before[j].service != service
    {
      if items[i].service == service {
        assert Find(before, service) == i;
        var more := false;
        var k := 0;
        while k < |remaining|
          invariant 0 <= k <= |remaining|
          invariant more <==> exists step :: step in remaining[..k] && StepService(step, before) == service
        {
          more := more || StepService(remaining[k], items[..]) == service;
          assert remaining[..k + 1] == remaining[..k] + [remaining[k]];
          k := k + 1;
        }
        assert remaining[..k] == remaining;
        items[i] := SucceededItem(items[i], seen, more);
        assert items[..] == before[i := SucceededItem(before[i], seen, AnyFor(remaining, before, service))];
        return;
      }
      i := i + 1;
    }
  }

  // ------------------------------------------------------------- the nodes

  function Fresh(services: seq<string>): (items: seq<Investigation>)
    ensures |items| == |services|
    ensures forall i :: 0 <= i < |items| ==> items[i] == Investigation(services[i], Pending, [], None, [])
  {
    seq(|services|, i requires 0 <= i < |services| => Investigation(services[i], Pending, [], None, []))
  }

  function Planned(state: FlowState, decision: PlannerDecision): FlowState {
    state.(plan := decision.steps, investigations := Fresh(decision.services), currentStep := 0)
  }

  /** Applies a human decision; the same rule serves the in-memory gate and the durable resume. */
  function Decided(state: FlowState, action: Action): FlowState {
    match action
    case Approve => state.(requiresApproval := false, approval := Approved, error := None)
    case Reject => state.(requiresApproval := false, approval := Rejected, error := Some(ApprovalRejected))
    case Cancel => state.(requiresApproval := false, approval := Cancelled, error := Some(ApprovalCancelled))
  }

  function Executed(state: FlowState, outcome: Outcome): FlowState
    requires state.currentStep < |state.plan|
  {
    var step := state.plan[state.currentStep];
    var next := state.currentStep + 1;
    var items := state.investigations;
    var service := StepService(step, items);
    match outcome
    case Failure(code) =>
      if items != [] then
        state.(currentStep := next, investigations := RecordedFailure(items, service, code), error := None)
      else
        state.(currentStep := next, error := Some(ToolError(code)))
    case Output(data) =>
      var seen := Observation(next, service, step.tool, data);
      state.(currentStep := next,
             results := state.results + [seen],
             evidence := state.evidence + [seen],
             investigations := if items == [] then items
                               else RecordedSuccess(items, service, seen, state.plan[next..]),
             error := None)
  }

  function GeneratedAnswer(state: FlowState): Answer {
    if state.error == Some(ApprovalRejected) then NothingRunRejected
    else if state.error == Some(ApprovalCancelled) then NothingRunCancelled
    else if state.error.Some? then StoppedAfter(|state.results|)
    else if state.plan == [] then NoPlan
    else if state.results == [] then NoResults
    else Report(state.analysed, |state.results|)
  }

  function Min(a: nat, b: nat): nat { if a < b then a else b }

  function AfterExecution(state: FlowState): Node {
    if state.error.Some? then AnswerGenerator
    else if state.currentStep >= Min(|state.plan|, state.maxSteps) then
      if (state.intent == INCIDENT_ANALYSIS || |state.investigations| > 1)
         && (state.evidence != [] || state.investigations != [])
      then IncidentAnalyzer
      else AnswerGenerator
    else ToolExecutor
  }

  function AfterApproval(state: FlowState): Node {
    if state.error.Some? then AnswerGenerator else ToolExecutor
  }

  /** One node of the compiled graph together with the edge it takes. */
  function Step(c: Config, registry: Registry, reply: Reply): Config {
    var state := c.state;
    if c.node in {End, Interrupted, Raised} then c
    else if reply.crash && c.node != Start then c.(node := Raised)
    else
      match c.node
      case Start => c.(node := if state.resume then ApprovalDecision else IntentRouter)
      case IntentRouter => c.(node := Planner, state := state.(intent := reply.intent))
      case Planner =>
        var next := Planned(state, reply.planned);
        c.(node := if next.plan == [] then AnswerGenerator else RiskChecker, state := next)
      case RiskChecker =>
        var level := AssessedRisk(state.intent, state.plan, registry);
        if level.None? then c.(node := Raised)
        else
          var high := level.value == High;
          c.(node := if high then ApprovalGate else ToolExecutor,
             state := state.(risk := level.value, requiresApproval := high,
                             approval := if high then AwaitingDecision else NotAsked))
      case ApprovalGate =>
        if reply.decision.None? then c.(node := Interrupted)
        else
          var next := Decided(state, reply.decision.value);
          c.(node := AfterApproval(next), state := next)
      case ApprovalDecision =>
        if state.action.None? then c.(node := Raised)
        else
          var next := Decided(state, state.action.value).(resume := false);
          c.(node := AfterApproval(next), state := next)
      case ToolExecutor =>
        if state.currentStep >= |state.plan| then c.(node := Raised)
        else
          var next := Executed(state, reply.outcome);
          Config(AfterExecution(next), next, c.outcomes + [reply.outcome])
      case IncidentAnalyzer => c.(node := AnswerGenerator, state := state.(analysed := true))
      case AnswerGenerator => c.(node := End, state := state.(answer := Some(GeneratedAnswer(state))))
      case _ => c
  }

  function Run(c: Config, registry: Registry, replies: seq<Reply>): Config {
    if replies == [] then c
    else Step(Run(c, registry, replies[..|replies| - 1]), registry, replies[|replies| - 1])
  }

  /** The state a new run starts from. */
  function Initial(maxSteps: nat): Config {
    Config(Start,
           FlowState("", [], 0, maxSteps, [], [], [], Low, false, NotAsked, None, false, false, None, None),
           [])
  }

  /** The state restored from a durable approval checkpoint with the claimed decision. */
  function Restored(saved: FlowState, action: Action): Config {
    Config(Start, saved.(action := Some(action), resume := true), [])
  }

  // -------------------------------------------------- safety of every run

  /** What holds between two nodes of any run that started afresh or from a checkpoint. */
  ghost predicate Sound(c: Config, registry: Registry) {
    var state := c.state;
    && state.maxSteps >= 1
    && |c.outcomes| == state.currentStep <= |state.plan|
    && (state.currentStep > 0 ==> state.currentStep <= state.maxSteps)
    && (state.currentStep > 0 && HighPlan(state.plan, registry) ==> state.approval == Approved)
    && (c.node in {Start, IntentRouter, RiskChecker, ApprovalGate, ApprovalDecision} ==> state.currentStep == 0)
    && (c.node == Interrupted ==> AtGate(state, registry))
    && (c.node == Start && state.resume ==> AtGate(state, registry))
    && (c.node == ApprovalDecision ==> AtGate(state, registry))
    && (c.node == ApprovalGate ==> AtGate(state, registry))
    && (c.node in {Start, IntentRouter, Planner, RiskChecker} ==> state.error.None? && state.results == [])
    && (c.node in {IntentRouter, Planner, RiskChecker} ==> state.currentStep == 0)
    && (c.node == RiskChecker ==> state.plan != [])
    && (c.node == ToolExecutor ==>
          && state.currentStep < Min(|state.plan|, state.maxSteps)
          && state.error.None?
          && (HighPlan(state.plan, registry) ==> state.approval == Approved))
    && (state.error in {Some(ApprovalRejected), Some(ApprovalCancelled)} ==> c.outcomes == [])
    && (state.answer in {Some(NothingRunRejected), Some(NothingRunCancelled)} ==> c.outcomes == [])
    && (c.node != End ==> state.answer.None?)
    && (c.node in {Start, IntentRouter, Planner, RiskChecker, ToolExecutor} ==> !state.analysed)
  }

  /** The state saved when a run stops to ask: a HIGH plan of which nothing has run. */
  ghost predicate AtGate(state: FlowState, registry: Registry) {
    && state.maxSteps >= 1
    && state.currentStep == 0
    && state.plan != []
    && HighPlan(state.plan, registry)
    && state.results == []
    && state.error.None?
    && state.answer.None?
    && !state.analysed
  }

  /** One tool call touches only the position, the observations, the records and the error. */
  lemma ExecutedFrame(state: FlowState, outcome: Outcome)
    requires state.currentStep < |state.plan|
    ensures var next := Executed(state, outcome);
            && next == state.(currentStep := state.currentStep + 1, results := next.results, evidence := next.evidence,
                              investigations := next.investigations, error := next.error)
            && |next.investigations| == |state.investigations|
            && (next.error.Some? ==> next.error.value.ToolError? && state.investigations == [])
  {
  }

  lemma StepKeepsSound(c: Config, registry: Registry, reply: Reply)
    requires Sound(c, registry)
    ensures Sound(Step(c, registry, reply), registry)
  {
    hide Executed, HighPlan, AssessedRisk;
    if c.node == RiskChecker {
      ApprovalNeededExactlyForHighPlans(c.state.intent, c.state.plan, registry);
    } else if c.node == ToolExecutor {
      ExecutedFrame(c.state, reply.outcome);
    }
  }

  lemma {:induction false} RunKeepsSound(c: Config, registry: Registry, replies: seq<Reply>)
    requires Sound(c, registry)
    ensures Sound(Run(c, registry, replies), registry)
  {
    hide Step, Sound;
    if replies != [] {
      RunKeepsSound(c, registry, replies[..|replies| - 1]);
      StepKeepsSound(Run(c, registry, replies[..|replies| - 1]), registry, replies[|replies| - 1]);
    }
  }

  /** In every run of a new task, a HIGH plan reaches the tools only after an approval, and the calls are bounded. */
  lemma NoHighPlanRunsUnapproved(maxSteps: nat, registry: Registry, replies: seq<Reply>)
    requires maxSteps >= 1
    ensures var c := Run(Initial(maxSteps), registry, replies);
            && (c.node == ToolExecutor && HighPlan(c.state.plan, registry) ==> c.state.approval == Approved)
            && (c.outcomes != [] && HighPlan(c.state.plan, registry) ==> c.state.approval == Approved)
            && |c.outcomes| <= Min(|c.state.plan|, c.state.maxSteps)
  {
    RunKeepsSound(Initial(maxSteps), registry, replies);
  }

  /** The two "nothing was executed" answers are only ever given when no tool was called. */
  lemma RefusedPlansRunNothing(maxSteps: nat, registry: Registry, replies: seq<Reply>)
    requires maxSteps >= 1
    ensures var c := Run(Initial(maxSteps), registry, replies);
            c.state.answer in {Some(NothingRunRejected), Some(NothingRunCancelled)} ==> c.outcomes == []
  {
    RunKeepsSound(Initial(maxSteps), registry, replies);
  }

  // ---------------------------------------------------------- termination

  function NodeRank(node: Node): nat {
    match node
    case Start => 8
    case IntentRouter => 7
    case Planner => 6
    case RiskChecker => 5
    case ApprovalGate => 4
    case ApprovalDecision => 4
    case ToolExecutor => 3
    case IncidentAnalyzer => 2
    case AnswerGenerator => 1
    case _ => 0
  }

  /** Before the plan is fixed the step bound stands for the calls still possible. */
  function Remaining(c: Config): int {
    var left := if NodeRank(c.node) >= 6 then c.state.maxSteps
                else if c.node in {RiskChecker, ApprovalGate, ApprovalDecision, ToolExecutor}
                then c.state.maxSteps - c.state.currentStep
                else 0;
    left + NodeRank(c.node)
  }

  lemma StepDecreases(c: Config, registry: Registry, reply: Reply)
    requires Sound(c, registry)
    ensures 0 <= Remaining(c)
    ensures c.node !in {End, Interrupted, Raised} ==> Remaining(Step(c, registry, reply)) < Remaining(c)
  {
    hide Executed, HighPlan, AssessedRisk;
    if c.node == ToolExecutor { ExecutedFrame(c.state, reply.outcome); }
  }

  /** Whatever the tools, the model and the approver do, a run stops within `maxSteps + 8` nodes. */
  lemma {:induction false} RunStops(c: Config, registry: Registry, replies: seq<Reply>)
    requires Sound(c, registry)
    ensures Run(c, registry, replies).node in {End, Interrupted, Raised}
            || Remaining(Run(c, registry, replies)) + |replies| <= Remaining(c)
  {
    if replies != [] {
      var front := replies[..|replies| - 1];
      RunStops(c, registry, front);
      RunKeepsSound(c, registry, front);
      StepDecreases(Run(c, registry, front), registry, replies[|replies| - 1]);
    }
  }

  lemma EveryRunStops(maxSteps: nat, registry: Registry, replies: seq<Reply>)
    requires maxSteps >= 1 && |replies| > maxSteps + 8
    ensures Run(Initial(maxSteps), registry, replies).node in {End, Interrupted, Raised}
  {
    var c := Initial(maxSteps);
    RunStops(c, registry, replies);
    RunKeepsSound(c, registry, replies);
    var last := Run(c, registry, replies);
    StepDecreases(last, registry, replies[0]);
  }

  // ------------------------------------------------- resuming a saved run

  /** A resumed run carries the saved plan and the claimed decision and never asks again. */
  ghost predicate Resuming(c: Config, saved: FlowState, action: Action, registry: Registry) {
    && Sound(c, registry)
    && c.state.plan == saved.plan
    && c.state.maxSteps == saved.maxSteps
    && c.node in {Start, ApprovalDecision, ToolExecutor, IncidentAnalyzer, AnswerGenerator, End, Raised}
    && (c.node == Start ==> c.state.resume)
    && (c.node in {Start, ApprovalDecision} ==> c.state.action == Some(action) && c.outcomes == [])
    && (c.node in {ToolExecutor, IncidentAnalyzer} || c.outcomes != [] ==> action == Approve)
    && (c.node in {AnswerGenerator, End} && action != Approve ==> c.state.error.Some?)
  }

  lemma RestoredIsResuming(saved: FlowState, action: Action, registry: Registry)
    requires AtGate(saved, registry)
    ensures Resuming(Restored(saved, action), saved, action, registry)
  {
  }

  lemma StepKeepsResuming(c: Config, saved: FlowState, action: Action, registry: Registry, reply: Reply)
    requires Resuming(c, saved, action, registry)
    ensures Resuming(Step(c, registry, reply), saved, action, registry)
    ensures Step(c, registry, reply).outcomes == c.outcomes
            || (c.node == ToolExecutor && Step(c, registry, reply).outcomes == c.outcomes + [reply.outcome])
  {
    hide Executed, HighPlan, AssessedRisk;
    StepKeepsSound(c, registry, reply);
    if c.node == ToolExecutor { ExecutedFrame(c.state, reply.outcome); }
  }

  /** After a restart the graph asks no second time, and calls tools only if the decision was to approve. */
  lemma {:induction false} ResumedRunNeverAsksAgain(
      saved: FlowState, action: Action, registry: Registry, replies: seq<Reply>)
    requires AtGate(saved, registry)
    ensures var c := Run(Restored(saved, action), registry, replies);
            && Resuming(c, saved, action, registry)
            && c.node !in {ApprovalGate, Interrupted, Planner}
            && (c.outcomes != [] ==> action == Approve)
  {
    RestoredIsResuming(saved, action, registry);
    if replies != [] {
      var front := replies[..|replies| - 1];
      ResumedRunNeverAsksAgain(saved, action, registry, front);
      StepKeepsResuming(Run(Restored(saved, action), registry, front), saved, action, registry, replies[|replies| - 1]);
    }
  }

  /** A run no human has answered: it can only ask, never act on an approval. */
  ghost predicate Unattended(c: Config, registry: Registry) {
    && Sound(c, registry)
    && !c.state.resume && c.state.action.None? && c.state.approval != Approved
    && c.node != ApprovalDecision
  }

  lemma StepKeepsUnattended(c: Config, registry: Registry, reply: Reply)
    requires Unattended(c, registry) && reply.decision.None?
    ensures Unattended(Step(c, registry, reply), registry)
    ensures c.node == ToolExecutor ==> !HighPlan(c.state.plan, registry)
  {
    StepKeepsSound(c, registry, reply);
    if c.node == ToolExecutor { ExecutedFrame(c.state, reply.outcome); }
    hide Executed, HighPlan, AssessedRisk, Sound;
  }

  // ----------------------------------------- what the investigations record

  function Names(items: seq<Investigation>): (names: seq<string>)
    ensures |names| == |items|
    ensures forall i :: 0 <= i < |items| ==> names[i] == items[i].service
  {
    seq(|items|, i requires 0 <= i < |items| => items[i].service)
  }

  function Owner(step: PlanStep, names: seq<string>): string {
    if step.service.Some? then step.service.value
    else if names != [] then names[0]
    else "unscoped"
  }

  ghost predicate Distinct(names: seq<string>) {
    forall i, j :: 0 <= i < j < |names| ==> names[i] != names[j]
  }

  /** Every observation of the executed prefix of the plan, in call order. */
  function Seen(plan: seq<PlanStep>, names: seq<string>, outcomes: seq<Outcome>): seq<Observation>
    requires |outcomes| <= |plan|
  {
    if outcomes == [] then []
    else
      var k := |outcomes| - 1;
      var before := Seen(plan, names, outcomes[..k]);
      if outcomes[k].Output?
      then before + [Observation(k + 1, Owner(plan[k], names), plan[k].tool, outcomes[k].data)]
      else before
  }

  function For(seen: seq<Observation>, service: string): seq<Observation> {
    if seen == [] then []
    else
      var last := seen[|seen| - 1];
      For(seen[..|seen| - 1], service) + if last.service == service then [last] else []
  }

  function Steps(seen: seq<Observation>): (steps: seq<nat>)
    ensures |steps| == |seen|
  {
    seq(|seen|, i requires 0 <= i < |seen| => seen[i].step)
  }

  function LastFailure(plan: seq<PlanStep>, names: seq<string>, outcomes: seq<Outcome>, service: string): Option<string>
    requires |outcomes| <= |plan|
  {
    if outcomes == [] then None
    else
      var k := |outcomes| - 1;
      if outcomes[k].Failure? && Owner(plan[k], names) == service then Some(outcomes[k].code)
      else LastFailure(plan, names, outcomes[..k], service)
  }

  predicate Occurs(plan: seq<PlanStep>, names: seq<string>, from: nat, until: nat, service: string)
    requires from <= until <= |plan|
  {
    exists i :: from <= i < until && Owner(plan[i], names) == service
  }

  /** The record of one service as a function of the outcomes alone. */
  function Settled(plan: seq<PlanStep>, names: seq<string>, outcomes: seq<Outcome>, service: string): Investigation
    requires |outcomes| <= |plan|
  {
    var seen := For(Seen(plan, names, outcomes), service);
    var failure := LastFailure(plan, names, outcomes, service);
    var status :=
      if !Occurs(plan, names, 0, |outcomes|, service) then Pending
      else if failure.Some? then (if seen == [] then Broken else Partial)
      else if Occurs(plan, names, |outcomes|, |plan|, service) then Underway
      else Complete;
    Investigation(service, status, seen, failure, Steps(seen))
  }

  ghost predicate Tracked(c: Config) {
    var names := Names(c.state.investigations);
    && |c.outcomes| <= |c.state.plan|
    && c.state.evidence == Seen(c.state.plan, names, c.outcomes)
    && c.state.results == c.state.evidence
    && Distinct(names)
    && forall i :: 0 <= i < |names| ==> c.state.investigations[i] == Settled(c.state.plan, names, c.outcomes, names[i])
  }

  lemma FindIsUnique(items: seq<Investigation>, i: nat)
    requires i < |items| && Distinct(Names(items))
    ensures Find(items, items[i].service) == i
  {
    var names := Names(items);
    assert forall j :: 0 <= j < i ==> names[j] != names[i];
  }

  lemma StepServiceIsOwner(step: PlanStep, items: seq<Investigation>)
    ensures StepService(step, items) == Owner(step, Names(items))
  {
  }

  lemma RemainingIsPlanned(plan: seq<PlanStep>, items: seq<Investigation>, from: nat, service: string)
    requires from <= |plan|
    ensures AnyFor(plan[from..], items, service) <==> Occurs(plan, Names(items), from, |plan|, service)
  {
    if AnyFor(plan[from..], items, service) {
      var step :| step in plan[from..] && StepService(step, items) == service;
      var i :| from <= i < |plan| && plan[i] == step;
      StepServiceIsOwner(step, items);
    }
    if Occurs(plan, Names(items), from, |plan|, service) {
      var i :| from <= i < |plan| && Owner(plan[i], Names(items)) == service;
      StepServiceIsOwner(plan[i], items);
      assert plan[from..][i - from] == plan[i];
    }
  }

  /** One more outcome of another service leaves a service's record unchanged. */
  lemma SettledFrame(plan: seq<PlanStep>, names: seq<string>, outcomes: seq<Outcome>, more: Outcome, service: string)
    requires |outcomes| < |plan|
    requires Owner(plan[|outcomes|], names) != service
    ensures Settled(plan, names, outcomes + [more], service) == Settled(plan, names, outcomes, service)
  {
    var longer := outcomes + [more];
    assert longer[..|longer| - 1] == outcomes;
    var seen := Seen(plan, names, longer);
    if more.Output? {
      assert seen[..|seen| - 1] == Seen(plan, names, outcomes);
    }
    assert For(seen, service) == For(Seen(plan, names, outcomes), service);
    assert Occurs(plan, names, 0, |outcomes| + 1, service) <==> Occurs(plan, names, 0, |outcomes|, service);
    assert Occurs(plan, names, |outcomes| + 1, |plan|, service) <==> Occurs(plan, names, |outcomes|, |plan|, service);
  }

  /** One more outcome of a service changes its record exactly as the code updates it. */
  lemma SettledStep(plan: seq<PlanStep>, names: seq<string>, outcomes: seq<Outcome>, more: Outcome, service: string)
    requires |outcomes| < |plan|
    requires Owner(plan[|outcomes|], names) == service
    ensures Settled(plan, names, outcomes + [more], service) ==
            var item := Settled(plan, names, outcomes, service);
            match more
            case Failure(code) => FailedItem(item, code)
            case Output(data) =>
              SucceededItem(item, Observation(|outcomes| + 1, service, plan[|outcomes|].tool, data),
                            Occurs(plan, names, |outcomes| + 1, |plan|, service))
  {
    var longer := outcomes + [more];
    assert longer[..|longer| - 1] == outcomes;
    assert Occurs(plan, names, 0, |longer|, service);
    var seen := Seen(plan, names, longer);
    match more
    case Failure(code) =>
    case Output(data) =>
      var now := Observation(|outcomes| + 1, service, plan[|outcomes|].tool, data);
      assert seen == Seen(plan, names, outcomes) + [now];
      assert seen[..|seen| - 1] == Seen(plan, names, outcomes);
      assert For(seen, service) == For(Seen(plan, names, outcomes), service) + [now];
      assert Steps(For(seen, service)) == Steps(For(Seen(plan, names, outcomes), service)) + [now.step];
  }

  lemma ExecutionUpdatesItem(state: FlowState, outcome: Outcome, i: nat)
    requires state.currentStep < |state.plan| && i < |state.investigations| && Distinct(Names(state.investigations))
    ensures var items, after := state.investigations, Executed(state, outcome).investigations;
            var names, k := Names(items), state.currentStep;
            var owner := Owner(state.plan[k], names);
            && Names(after) == names
            && after[i] ==
                 if items[i].service != owner then items[i]
                 else
                   match outcome
                   case Failure(code) => FailedItem(items[i], code)
                   case Output(data) =>
                     SucceededItem(items[i], Observation(k + 1, owner, state.plan[k].tool, data),
                                   Occurs(state.plan, names, k + 1, |state.plan|, owner))
  {
    var items, step := state.investigations, state.plan[state.currentStep];
    var owner := Owner(step, Names(items));
    StepServiceIsOwner(step, items);
    RemainingIsPlanned(state.plan, items, state.currentStep + 1, owner);
    FindIsUnique(items, i);
  }

  lemma ExecutionExtendsEvidence(state: FlowState, names: seq<string>, outcomes: seq<Outcome>, outcome: Outcome)
    requires |outcomes| == state.currentStep < |state.plan| && names == Names(state.investigations)
    requires state.evidence == Seen(state.plan, names, outcomes)
    ensures Executed(state, outcome).evidence == Seen(state.plan, names, outcomes + [outcome])
  {
    StepServiceIsOwner(state.plan[state.currentStep], state.investigations);
    assert (outcomes + [outcome])[..|outcomes|] == outcomes;
  }

  lemma ExecutionKeepsResults(state: FlowState, outcome: Outcome)
    requires state.currentStep < |state.plan| && state.results == state.evidence
    ensures Executed(state, outcome).results == Executed(state, outcome).evidence
    ensures Executed(state, outcome).plan == state.plan
    ensures |Executed(state, outcome).investigations| == |state.investigations|
  {
    hide StepService;
  }

  lemma ExecutionSettles(state: FlowState, outcomes: seq<Outcome>, outcome: Outcome, i: nat)
    requires |outcomes| == state.currentStep < |state.plan| && i < |state.investigations|
    requires Distinct(Names(state.investigations))
    requires state.investigations[i]
          == Settled(state.plan, Names(state.investigations), outcomes, Names(state.investigations)[i])
    ensures |Executed(state, outcome).investigations| == |state.investigations|
    ensures Names(Executed(state, outcome).investigations) == Names(state.investigations)
    ensures Executed(state, outcome).investigations[i]
         == Settled(state.plan, Names(state.investigations), outcomes + [outcome], Names(state.investigations)[i])
  {
    hide Executed, Settled, FailedItem, SucceededItem, Occurs, Distinct, Owner;
    var plan, names := state.plan, Names(state.investigations);
    ExecutionUpdatesItem(state, outcome, i);
    SettledName(plan, names, outcomes, names[i]);
    if names[i] == Owner(plan[state.currentStep], names) {
      SettledStep(plan, names, outcomes, outcome, names[i]);
    } else {
      SettledFrame(plan, names, outcomes, outcome, names[i]);
    }
  }

  lemma SettledName(plan: seq<PlanStep>, names: seq<string>, outcomes: seq<Outcome>, service: string)
    requires |outcomes| <= |plan|
    ensures Settled(plan, names, outcomes, service).service == service
  {
    hide Seen, For, LastFailure, Occurs;
  }

  lemma ExecutionKeepsTracked(c: Config, registry: Registry, reply: Reply)
    requires Sound(c, registry) && Tracked(c) && c.node == ToolExecutor && !reply.crash
    ensures Tracked(Step(c, registry, reply))
  {
    hide Executed, Settled, Seen, HighPlan, AfterExecution, Distinct, Owner;
    var state, names := c.state, Names(c.state.investigations);
    var after := Executed(state, reply.outcome);
    var outcomes := c.outcomes + [reply.outcome];
    assert Step(c, registry, reply) == Config(AfterExecution(after), after, outcomes);
    ExecutionExtendsEvidence(state, names, c.outcomes, reply.outcome);
    ExecutionKeepsResults(state, reply.outcome);
    forall i | 0 <= i < |names|
      ensures after.investigations[i] == Settled(state.plan, names, outcomes, names[i])
    {
      ExecutionSettles(state, c.outcomes, reply.outcome, i);
    }
    if names == [] {
      assert Names(after.investigations) == names;
    } else {
      ExecutionSettles(state, c.outcomes, reply.outcome, 0);
    }
  }

  /** Before planning there is nothing to track; from planning on every record follows the outcomes. */
  ghost predicate TrackedOrEarly(c: Config) {
    if c.node in {Start, IntentRouter, Planner} && !c.state.resume
    then c.state.evidence == [] && c.state.results == [] && c.outcomes == []
    else c.node != Raised ==> Tracked(c)
  }

  lemma ExecutorHasStep(c: Config, registry: Registry)
    requires Sound(c, registry)
    ensures c.node == ToolExecutor ==> c.state.currentStep < |c.state.plan|
  {
    hide HighPlan;
  }

  lemma ExecutionLeads(after: FlowState)
    ensures AfterExecution(after) in {AnswerGenerator, IncidentAnalyzer, ToolExecutor}
  {
  }

  lemma PlanningKeepsTracked(c: Config, registry: Registry, reply: Reply)
    requires c.node == Planner && !c.state.resume && TrackedOrEarly(c) && !reply.crash
    requires Distinct(reply.planned.services)
    ensures Tracked(Step(c, registry, reply))
  {
    hide HighPlan, AssessedRisk, Executed;
    assert Names(Step(c, registry, reply).state.investigations) == reply.planned.services;
  }

  lemma StepKeepsTracked(c: Config, registry: Registry, reply: Reply)
    requires Sound(c, registry) && TrackedOrEarly(c) && Distinct(reply.planned.services)
    requires c.node in {IntentRouter, Planner} ==> !c.state.resume
    ensures TrackedOrEarly(Step(c, registry, reply))
  {
    hide HighPlan, AssessedRisk, Executed, Settled, AfterExecution, GeneratedAnswer, Sound;
    assert c.node == ToolExecutor ==> c.state.currentStep < |c.state.plan| by { ExecutorHasStep(c, registry); }
    if c.node == ToolExecutor && !reply.crash {
      ExecutionKeepsTracked(c, registry, reply);
      ExecutedFrame(c.state, reply.outcome);
      ExecutionLeads(Executed(c.state, reply.outcome));
    } else if c.node == Planner && !reply.crash {
      PlanningKeepsTracked(c, registry, reply);
    }
  }

  ghost predicate DistinctServices(replies: seq<Reply>) {
    forall i :: 0 <= i < |replies| ==> Distinct(replies[i].planned.services)
  }

  lemma StepKeepsResumeFlag(c: Config, registry: Registry, reply: Reply)
    requires !c.state.resume
    ensures !Step(c, registry, reply).state.resume
  {
  }

  lemma {:induction false} RunIsNotResumed(maxSteps: nat, registry: Registry, replies: seq<Reply>)
    ensures !Run(Initial(maxSteps), registry, replies).state.resume
  {
    if replies != [] {
      RunIsNotResumed(maxSteps, registry, replies[..|replies| - 1]);
      StepKeepsResumeFlag(Run(Initial(maxSteps), registry, replies[..|replies| - 1]), registry, replies[|replies| - 1]);
    }
  }

  lemma {:induction false} RunKeepsTracked(maxSteps: nat, registry: Registry, replies: seq<Reply>)
    requires maxSteps >= 1 && DistinctServices(replies)
    ensures TrackedOrEarly(Run(Initial(maxSteps), registry, replies))
  {
    if replies != [] {
      var front := replies[..|replies| - 1];
      RunKeepsTracked(maxSteps, registry, front);
      RunKeepsSound(Initial(maxSteps), registry, front);
      RunIsNotResumed(maxSteps, registry, front);
      hide Step, Sound, TrackedOrEarly;
      StepKeepsTracked(Run(Initial(maxSteps), registry, front), registry, replies[|replies| - 1]);
    }
  }

  /** Multi-service runs never carry an error between steps, so no failure cuts the plan short. */
  ghost predicate Isolated(c: Config) {
    c.state.investigations != [] && c.node in {IncidentAnalyzer, AnswerGenerator, End} && c.state.plan != []
    && c.state.error !in {Some(ApprovalRejected), Some(ApprovalCancelled)}
    ==> c.state.error.None? && |c.outcomes| == Min(|c.state.plan|, c.state.maxSteps)
  }

  lemma StepKeepsIsolated(c: Config, registry: Registry, reply: Reply)
    requires Sound(c, registry) && Isolated(c)
    ensures Isolated(Step(c, registry, reply))
  {
    hide Executed, HighPlan, AssessedRisk;
    if c.node == ToolExecutor { ExecutedFrame(c.state, reply.outcome); }
  }

  lemma {:induction false} RunKeepsIsolated(maxSteps: nat, registry: Registry, replies: seq<Reply>)
    requires maxSteps >= 1
    ensures Isolated(Run(Initial(maxSteps), registry, replies))
  {
    if replies != [] {
      var front := replies[..|replies| - 1];
      RunKeepsIsolated(maxSteps, registry, front);
      RunKeepsSound(Initial(maxSteps), registry, front);
      StepKeepsIsolated(Run(Initial(maxSteps), registry, front), registry, replies[|replies| - 1]);
    }
  }

  /** At the end of a multi-service run: every step within the bound was attempted whatever failed, the
      observations are split by service, and each status says exactly whether evidence and a failure exist. */
  lemma MultiServiceRunIsExact(maxSteps: nat, registry: Registry, replies: seq<Reply>, i: nat)
    requires maxSteps >= 1 && DistinctServices(replies)
    requires var c := Run(Initial(maxSteps), registry, replies);
             && c.node == End && c.state.plan != [] && |c.state.plan| <= maxSteps
             && c.state.error !in {Some(ApprovalRejected), Some(ApprovalCancelled)}
             && i < |c.state.investigations|
    ensures var c := Run(Initial(maxSteps), registry, replies);
            var item := c.state.investigations[i];
            var names := Names(c.state.investigations);
            && |c.outcomes| == |c.state.plan| && c.state.error.None?
            && item.evidence == For(c.state.evidence, item.service)
            && item.citations == Steps(item.evidence)
            && item.error == LastFailure(c.state.plan, names, c.outcomes, item.service)
            && (item.status == Pending <==> !Occurs(c.state.plan, names, 0, |c.state.plan|, item.service))
            && (item.status != Pending ==>
                  && (item.status == Complete <==> item.error.None?)
                  && (item.status == Partial <==> item.error.Some? && item.evidence != [])
                  && (item.status == Broken <==> item.error.Some? && item.evidence == []))
  {
    RunKeepsSound(Initial(maxSteps), registry, replies);
    RunKeepsTracked(maxSteps, registry, replies);
    RunKeepsIsolated(maxSteps, registry, replies);
    RunKeepsBound(maxSteps, registry, replies);
  }

  lemma {:induction false} RunKeepsBound(maxSteps: nat, registry: Registry, replies: seq<Reply>)
    ensures Run(Initial(maxSteps), registry, replies).state.maxSteps == maxSteps
  {
    if replies != [] {
      RunKeepsBound(maxSteps, registry, replies[..|replies| - 1]);
      StepKeepsBound(Run(Initial(maxSteps), registry, replies[..|replies| - 1]), registry, replies[|replies| - 1]);
    }
  }

  lemma StepKeepsBound(c: Config, registry: Registry, reply: Reply)
    ensures Step(c, registry, reply).state.maxSteps == c.state.maxSteps
  {
    hide Executed, AssessedRisk, GeneratedAnswer, AfterExecution;
    if c.state.currentStep < |c.state.plan| { ExecutedFrame(c.state, reply.outcome); }
  }
}
