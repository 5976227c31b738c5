/** One bounded read-only investigation of a service, as a branch sharing its budgets with others. */
module Investigation {
  import opened Options

  // ------------------------------------------------------------------ data

  datatype Tool = Logs | Tickets | Knowledge

  /** The inputs a tool is called with, without the null fields of the logged form. */
  datatype Inputs =
    | LogInputs(service: string, minutes: nat, limit: nat)
    | TicketInputs(service: string, limit: nat)
    | KnowledgeInputs(query: string, limit: nat)

  /** A record of a result; documents have a number of their own kind. */
  datatype Row = Row(
    id: Option<int>, documentId: Option<int>, service: Option<string>, errorType: Option<string>,
    status: Option<string>)

  datatype Output = Output(total: int, items: seq<Row>)

  datatype TaskId = Primary(index: nat) | FollowUp

  datatype EvidenceId = EvidenceId(run: nat, task: TaskId, step: nat, attempt: nat)

  datatype ResultStatus = EmptySuccess | SuccessWithData

  /** `step` is zero until the supervisor merges the observation. */
  datatype Observation = Observation(
    step: nat, id: EvidenceId, agent: nat, task: TaskId, service: string, tool: Tool, inputs: Inputs,
    attempt: nat, status: ResultStatus, sources: seq<Option<int>>, output: Output)

  datatype AttemptResult = Succeeded | Failed(code: string, transient: bool) | OutOfScope

  /** The `number`-th attempt of the `step`-th selected tool. */
  datatype Attempt = Attempt(step: nat, number: nat, result: AttemptResult)

  datatype Decision = Decision(tool: Tool, inputs: Inputs)

  datatype ClaimId = ClaimId(agent: nat, task: TaskId, number: nat)

  datatype Claim = Claim(id: ClaimId, text: string, evidence: seq<EvidenceId>)

  /** A row of the tool call log. A delivered call is logged as completed before its scope is checked. */
  datatype Call = Call(tool: Tool, inputs: Inputs, completed: bool, output: Output)

  datatype Event =
    | TaskStarted
    | ToolSelected(step: nat)
    | ToolFailed(step: nat, number: nat, code: string)
    | ToolRejected(step: nat, number: nat)
    | ToolCompleted(id: EvidenceId, tool: Tool, inputs: Inputs, status: ResultStatus, agent: nat, task: TaskId)
    | DecisionMade(next: Option<Tool>)
    | DecisionFailed
    | TaskFinished

  datatype Stop = NotStarted | RunStopped | TaskTimeout | BudgetExhausted | PartialFailure | Finished

  datatype TaskStatus = Complete | Partial | Unusable

  /** What a branch is started with; `low` are the enabled LOW-risk tools. */
  datatype Setup = Setup(
    run: nat, service: string, index: nat, followup: bool, limit: nat, retry: bool, model: bool,
    low: set<Tool>, prior: set<EvidenceId>, modelLimit: nat)

  datatype Point = Outer | Inner | InFlight | Deciding | Done | Aborted

  datatype Branch = Branch(
    point: Point, next: Option<Tool>, failed: bool, total: int, stopped: bool, late: bool,
    attemptsUsed: nat, attempts: seq<Attempt>, decisions: seq<Decision>, observations: seq<Observation>,
    errors: seq<string>, gaps: set<string>, findings: seq<Claim>, stop: Stop, status: TaskStatus, decides: nat,
    calls: seq<Call>, events: seq<Event>)

  /** A reply of the tool registry: a result, a tool error, or an error that aborts the investigation. */
  datatype CallReply = Delivered(output: Output) | Refused(code: string, transient: bool) | Fatal

  datatype ModelReply = NoAnswer | Proposal(next: Option<Tool>, claims: seq<Claim>, gaps: set<string>) | Broken

  /** What the world shows a branch at one step: the stop flag, the deadline, and the replies it may need. */
  datatype Input = Input(stop: bool, late: bool, call: CallReply, model: ModelReply)

  const MAX_TOOL_ATTEMPTS := 9
  const MAX_AGENT_ATTEMPTS := 3
  const MAX_CLAIMS := 4
  const MAX_CITATIONS := 6
  const MAX_CLAIM_TEXT := 700
  const EMPTY_WINDOW := "logs_empty_in_initial_window"

  // ------------------------------------------------------------ pure helpers

  function ToolInputs(tool: Tool, service: string, followup: bool): Inputs {
    match tool
    case Logs => LogInputs(service, if followup then 1440 else 60, 20)
    case Tickets => TicketInputs(service, 10)
    case Knowledge => KnowledgeInputs(service + " 故障排查", 5)
  }

  predicate RecordsMatchScope(tool: Tool, service: string, output: Output) {
    tool != Knowledge ==> forall i :: 0 <= i < |output.items| ==> output.items[i].service == Some(service)
  }

  function NextTool(tool: Tool, failed: bool, total: int): Option<Tool> {
    match tool
    case Logs => Some(Tickets)
    case Tickets => if failed || total == 0 then Some(Knowledge) else None
    case Knowledge => None
  }

  function Task(s: Setup): TaskId { if s.followup then FollowUp else Primary(s.index) }

  function UsedTools(decisions: seq<Decision>): set<Tool> {
    set i | 0 <= i < |decisions| :: decisions[i].tool
  }

  /** The number of a record: its id, or that of its document. */
  function SourceOf(row: Row): Option<int> { if row.id.Some? then row.id else row.documentId }

  function SourceIds(output: Output): (r: seq<Option<int>>)
    ensures |r| == |output.items|
    ensures forall i :: 0 <= i < |r| ==> r[i] == SourceOf(output.items[i])
  {
    seq(|output.items|, i requires 0 <= i < |output.items| => SourceOf(output.items[i]))
  }

  /** The observation of a delivered output. */
  function ObservationOf(s: Setup, tool: Tool, step: nat, number: nat, output: Output): Observation {
    Observation(0, EvidenceId(s.run, Task(s), step, number), s.index, Task(s), s.service, tool,
                ToolInputs(tool, s.service, s.followup), number,
                if output.total == 0 then EmptySuccess else SuccessWithData, SourceIds(output), output)
  }

  /** The event that announces an observation; it does not hold the output. */
  function CompletionOf(o: Observation): Event {
    ToolCompleted(o.id, o.tool, o.inputs, o.status, o.agent, o.task)
  }

  /** Attempts already recorded for a step. */
  function Tries(attempts: seq<Attempt>, step: nat): nat {
    if attempts == [] then 0
    else Tries(attempts[..|attempts| - 1], step) + if attempts[|attempts| - 1].step == step then 1 else 0
  }

  function Min(a: int, b: int): int { if a < b then a else b }

  function Max(a: int, b: int): int { if a > b then a else b }

  // ---------------------------------------------------------------- one step

  function Start(s: Setup): Branch {
    Branch(Outer, Some(Logs), false, 0, false, false, 0, [], [], [], [], {}, [], NotStarted, Unusable, 0, [],
           [TaskStarted])
  }

  function Seen(b: Branch, x: Input): Branch {
    b.(stopped := b.stopped || x.stop, late := b.late || x.late)
  }

  /** The end of the task: its stop reason and its status. */
  function Ended(b: Branch): Branch {
    var stop :=
      if b.stop != NotStarted then b.stop
      else if b.next.Some? then BudgetExhausted
      else if b.errors != [] then PartialFailure
      else Finished;
    var cut := b.errors != [] || stop in {BudgetExhausted, TaskTimeout, RunStopped};
    b.(point := Done, stop := stop,
       status := if b.observations == [] then Unusable else if cut then Partial else Complete,
       events := b.events + [TaskFinished])
  }

  /** The loop head: stop, give up, or select the next tool. */
  function Select(s: Setup, b: Branch, x: Input): Branch {
    if b.next.None? || b.attemptsUsed >= s.limit then Ended(b)
    else
      var b := Seen(b, x);
      if b.stopped then Ended(b.(stop := RunStopped))
      else if b.late then Ended(b.(stop := TaskTimeout))
      else if b.next.value !in s.low then b.(point := Aborted)
      else
        var decision := Decision(b.next.value, ToolInputs(b.next.value, s.service, s.followup));
        b.(point := Inner, failed := false, decisions := b.decisions + [decision],
           events := b.events + [ToolSelected(|b.decisions| + 1)])
  }

  function CutShort(b: Branch, stop: Stop): Branch {
    b.(point := Deciding, stop := stop, failed := true, next := None)
  }

  /** The head of the attempt loop: stop, or claim one attempt of the shared budget. */
  function TryClaim(s: Setup, b: Branch, used: nat, x: Input): (Branch, nat) {
    var b := Seen(b, x);
    if b.stopped then (CutShort(b, RunStopped), used)
    else if b.late then (CutShort(b, TaskTimeout), used)
    else if b.attemptsUsed >= s.limit || used >= MAX_TOOL_ATTEMPTS then (CutShort(b, BudgetExhausted), used)
    else (b.(point := InFlight), used + 1)
  }

  /** After a tool error: another try of the same step, or the end of the step. */
  function AfterRefusal(s: Setup, b: Branch, tool: Tool, number: nat, code: string, transient: bool): Branch {
    var b := b.(attempts := b.attempts + [Attempt(|b.decisions|, number, Failed(code, transient))],
                events := b.events + [ToolFailed(|b.decisions|, number, code)],
                calls := b.calls
                  + [Call(tool, ToolInputs(tool, s.service, s.followup), false, Output(0, []))]);
    if s.retry && transient && number == 1 && b.attemptsUsed < s.limit then b.(point := Inner)
    else b.(point := Deciding, failed := true, errors := b.errors + [code])
  }

  /** After a result with a record of another service. */
  function AfterRejection(s: Setup, b: Branch, tool: Tool, number: nat, output: Output): Branch {
    b.(point := Deciding, failed := true, errors := b.errors + ["SERVICE_SCOPE_MISMATCH"],
       attempts := b.attempts + [Attempt(|b.decisions|, number, OutOfScope)],
       events := b.events + [ToolRejected(|b.decisions|, number)],
       calls := b.calls + [Call(tool, ToolInputs(tool, s.service, s.followup), true, output)])
  }

  /** After a result in scope: an observation. */
  function AfterResult(s: Setup, b: Branch, tool: Tool, number: nat, output: Output): Branch {
    var seen := ObservationOf(s, tool, |b.decisions|, number, output);
    b.(point := Deciding, total := output.total,
       observations := b.observations + [seen],
       attempts := b.attempts + [Attempt(|b.decisions|, number, Succeeded)],
       events := b.events + [CompletionOf(seen)],
       calls := b.calls + [Call(tool, ToolInputs(tool, s.service, s.followup), true, output)],
       gaps := if tool == Logs && output.total == 0 && !s.followup then b.gaps + {EMPTY_WINDOW} else b.gaps)
  }

  /** The tool call under a claimed attempt, and what its reply leads to. */
  function CallTool(s: Setup, b: Branch, x: Input): Branch
    requires b.next.Some?
  {
    var tool, number := b.next.value, 1 + Tries(b.attempts, |b.decisions|);
    var b := b.(attemptsUsed := b.attemptsUsed + 1);
    match x.call
    case Fatal => b.(point := Aborted)
    case Refused(code, transient) => AfterRefusal(s, b, tool, number, code, transient)
    case Delivered(output) =>
      if RecordsMatchScope(tool, s.service, output) then AfterResult(s, b, tool, number, output)
      else AfterRejection(s, b, tool, number, output)
  }

  function Known(s: Setup, b: Branch): set<EvidenceId> {
    s.prior + set i | 0 <= i < |b.observations| :: b.observations[i].id
  }

  predicate Reserves(s: Setup, b: Branch) { !s.followup && EMPTY_WINDOW in b.gaps }

  /** Attempts the model may still spend, keeping one back for a wider window when the first was empty. */
  function Offered(s: Setup, b: Branch, used: nat): int {
    var remaining := if s.followup then 0 else Min(s.limit - b.attemptsUsed, MAX_TOOL_ATTEMPTS - used);
    if Reserves(s, b) then Max(0, remaining - 1) else remaining
  }

  /** A claim as the reply schema and `decide` let it pass: it cites something, and only what is known. */
  predicate Admissible(c: Claim, known: set<EvidenceId>) {
    && 1 <= |c.text| <= MAX_CLAIM_TEXT && 1 <= |c.evidence| <= MAX_CITATIONS
    && forall i :: 0 <= i < |c.evidence| ==> c.evidence[i] in known
  }

  predicate AllAdmissible(claims: seq<Claim>, known: set<EvidenceId>) {
    |claims| <= MAX_CLAIMS && forall i :: 0 <= i < |claims| ==> Admissible(claims[i], known)
  }

  /** The identities that `decide` gives to the claims of a reply. */
  function NumberClaims(agent: nat, task: TaskId, claims: seq<Claim>): (r: seq<Claim>)
    ensures |r| == |claims|
    ensures forall i :: 0 <= i < |r| ==> r[i] == claims[i].(id := ClaimId(agent, task, i + 1))
  {
    seq(|claims|, i requires 0 <= i < |claims| => claims[i].(id := ClaimId(agent, task, i + 1)))
  }

  /** The checks of `decide` on a model proposal. */
  predicate Acceptable(s: Setup, b: Branch, used: nat, reply: ModelReply) {
    reply.Proposal?
    && AllAdmissible(reply.claims, Known(s, b))
    && (reply.next.Some? ==>
          Offered(s, b, used) > 0 && reply.next.value != Logs && reply.next.value !in UsedTools(b.decisions))
  }

  /** The fixed rule that follows when there is no model or it failed. */
  function FollowRule(s: Setup, b: Branch): Branch {
    b.(point := Outer,
       next := if s.followup || b.next.None? then None else NextTool(b.next.value, b.failed, b.total))
  }

  /** An accepted proposal of the model replaces the findings; only the gap of the empty window outlives it. */
  function AfterProposal(s: Setup, b: Branch, reply: ModelReply): Branch
    requires reply.Proposal?
  {
    b.(point := Outer, next := reply.next, findings := NumberClaims(s.index, Task(s), reply.claims),
       gaps := (b.gaps * {EMPTY_WINDOW}) + reply.gaps,
       events := b.events + [DecisionMade(reply.next)])
  }

  /** Without a usable answer of the model the rule goes on, unless the last attempt is kept back. */
  function AfterModelFailure(s: Setup, b: Branch, used: nat): Branch {
    var next := if Reserves(s, b) && Offered(s, b, used) == 0 then None else b.next;
    FollowRule(s, b.(errors := b.errors + ["INVESTIGATOR_LLM_FAILED"],
                     events := b.events + [DecisionFailed], next := next))
  }

  /** After a tool: ask the model when there is one, otherwise, or when it fails, follow the rule. */
  function Decide(s: Setup, b: Branch, used: nat, models: nat, x: Input): (Branch, nat) {
    if !s.model then (FollowRule(s, b), models)
    else if models >= s.modelLimit then (AfterModelFailure(s, b, used), models)
    else
      var b := b.(decides := b.decides + 1);
      if x.model.Broken? then (b.(point := Aborted), models + 1)
      else if Acceptable(s, b, used, x.model) then (AfterProposal(s, b, x.model), models + 1)
      else (AfterModelFailure(s, b, used), models + 1)
  }

  datatype Shared = Shared(branch: Branch, used: nat, models: nat)

  function Advance(s: Setup, c: Shared, x: Input): Shared {
    match c.branch.point
    case Outer => c.(branch := Select(s, c.branch, x))
    case Inner => var (b, used) := TryClaim(s, c.branch, c.used, x); c.(branch := b, used := used)
    case InFlight => if c.branch.next.None? then c else c.(branch := CallTool(s, c.branch, x))
    case Deciding => var (b, models) := Decide(s, c.branch, c.used, c.models, x); c.(branch := b, models := models)
    case Done => c
    case Aborted => c
  }

  // ---------------------------------------------------------------- whole runs

  /** One step of the branch, after other branches claimed `tools` attempts and `decisions` decisions. */
  datatype Turn = Turn(tools: nat, decisions: nat, input: Input)

  function Others(c: Shared, t: Turn): Shared {
    c.(used := c.used + t.tools, models := c.models + t.decisions)
  }

  /** The branch after the first `n` turns of the world. */
  function Drive(s: Setup, c: Shared, world: nat -> Turn, n: nat): Shared {
    if n == 0 then c
    else Advance(s, Others(Drive(s, c, world, n - 1), world(n - 1)), world(n - 1).input)
  }

  predicate Halted(b: Branch) { b.stopped || b.late }
}
