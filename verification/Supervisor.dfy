/** The supervisor: branches that share two budgets, a follow-up, and the merge of their results. */
module Supervisor {
  import opened Options
  import opened Investigation

  datatype Settings = Settings(run: nat, retry: bool, model: bool, low: set<Tool>)

  /** The branches of a run and the budgets they share. */
  datatype Team = Team(setups: seq<Setup>, branches: seq<Branch>, used: nat, models: nat)

  /** The branch that moves next, and what the world shows it. */
  datatype Move = Move(index: nat, input: Input)

  function ModelLimit(services: seq<string>): nat { MAX_AGENT_ATTEMPTS * |services| + 1 }

  function SetupOf(c: Settings, services: seq<string>, i: nat): Setup
    requires i < |services|
  {
    Setup(c.run, services[i], i + 1, false, MAX_AGENT_ATTEMPTS, c.retry, c.model, c.low, {}, ModelLimit(services))
  }

  /** One branch for each service, with fresh budgets. */
  function Dispatch(c: Settings, services: seq<string>): Team {
    var setups := seq(|services|, i requires 0 <= i < |services| => SetupOf(c, services, i));
    Team(setups, seq(|services|, i requires 0 <= i < |services| => Start(SetupOf(c, services, i))), 0, 0)
  }

  predicate Sized(t: Team) { |t.setups| == |t.branches| }

  function Play(t: Team, m: Move): (u: Team)
    requires Sized(t)
    ensures Sized(u) && u.setups == t.setups
  {
    if m.index >= |t.branches| then t
    else
      var c := Advance(t.setups[m.index], Shared(t.branches[m.index], t.used, t.models), m.input);
      t.(branches := t.branches[m.index := c.branch], used := c.used, models := c.models)
  }

  function PlayAll(t: Team, moves: seq<Move>): (u: Team)
    requires Sized(t)
    ensures Sized(u) && u.setups == t.setups
  {
    if moves == [] then t else Play(PlayAll(t, moves[..|moves| - 1]), moves[|moves| - 1])
  }

  /** What the world showed branch `i`, in order. */
  function InputsOf(moves: seq<Move>, i: nat): seq<Input> {
    if moves == [] then []
    else
      InputsOf(moves[..|moves| - 1], i)
      + if moves[|moves| - 1].index == i then [moves[|moves| - 1].input] else []
  }

  /** A branch that shares its budgets with nobody. */
  function Alone(s: Setup, inputs: seq<Input>): Branch {
    if inputs == [] then Start(s)
    else Advance(s, Shared(Alone(s, inputs[..|inputs| - 1]), 0, 0), inputs[|inputs| - 1]).branch
  }

  /** Attempts a branch has claimed from the shared budget. */
  function Claimed(b: Branch): nat { b.attemptsUsed + if b.point == InFlight then 1 else 0 }

  function Sum(branches: seq<Branch>, f: Branch -> nat): nat {
    if branches == [] then 0 else Sum(branches[..|branches| - 1], f) + f(branches[|branches| - 1])
  }

  function Decides(b: Branch): nat { b.decides }

  // ------------------------------------------------------------- the follow-up

  /** A merged task: what the later stages look at. */
  datatype Outcome = Outcome(setup: Setup, branch: Branch)

  function WideLogs(service: string): Inputs { LogInputs(service, 1440, 20) }

  predicate Eligible(o: Outcome, evidence: seq<Observation>) {
    && o.branch.attemptsUsed < MAX_AGENT_ATTEMPTS
    && EMPTY_WINDOW in o.branch.gaps
    && (forall i :: 0 <= i < |o.branch.decisions| ==>
          !(o.branch.decisions[i].tool == Logs && o.branch.decisions[i].inputs == WideLogs(o.setup.service)))
    && (forall i :: 0 <= i < |evidence| ==>
          !(evidence[i].tool == Logs && evidence[i].inputs == WideLogs(o.setup.service)))
  }

  function FirstEligible(outcomes: seq<Outcome>, evidence: seq<Observation>, from: nat): Option<nat>
    requires from <= |outcomes|
    decreases |outcomes| - from
  {
    if from == |outcomes| then None
    else if Eligible(outcomes[from], evidence) then Some(from)
    else FirstEligible(outcomes, evidence, from + 1)
  }

  function FollowupCandidate(outcomes: seq<Outcome>, evidence: seq<Observation>, used: nat): Option<nat> {
    if used >= MAX_TOOL_ATTEMPTS then None else FirstEligible(outcomes, evidence, 0)
  }

  /** The follow-up spends what its service has left of three attempts. */
  function FollowupSetup(o: Outcome, prior: set<EvidenceId>): Setup
    requires o.branch.attemptsUsed <= MAX_AGENT_ATTEMPTS
  {
    o.setup.(followup := true, limit := MAX_AGENT_ATTEMPTS - o.branch.attemptsUsed, prior := prior)
  }

  /** A branch that runs by itself on budgets already used by others. */
  function Continue(s: Setup, c: Shared, inputs: seq<Input>): Shared {
    if inputs == [] then c
    else Advance(s, Continue(s, c, inputs[..|inputs| - 1]), inputs[|inputs| - 1])
  }

  /** The follow-up of service `k` after the branches of `t` ended. */
  function RunFollowUp(t: Team, k: nat, prior: set<EvidenceId>, inputs: seq<Input>): Shared
    requires Sized(t) && k < |t.branches| && t.branches[k].attemptsUsed <= MAX_AGENT_ATTEMPTS
  {
    var s := FollowupSetup(Outcome(t.setups[k], t.branches[k]), prior);
    Continue(s, Shared(Start(s), t.used, t.models), inputs)
  }
}
