/** A run whose claims are never reviewed: the verifier finds its model decision already spent. */
module VerifierRefusal {
  import opened Options
  import opened Investigation
  import opened InvestigationLedger
  import opened Supervisor
  import opened SupervisorTheorems
  import opened Merge
  import opened ReviewedRun
  import SemanticReview

  /** One step of a branch that runs alone. */
  function Next(s: Setup, b: Branch, x: Input): Branch { Advance(s, Shared(b, 0, 0), x).branch }

  lemma AloneStep(s: Setup, inputs: seq<Input>, x: Input)
    ensures Alone(s, inputs + [x]) == Next(s, Alone(s, inputs), x)
  {
    hide Advance, Alone;
    AloneOnce(s, inputs, x);
  }

  /** Where the story stands between two tools. */
  ghost predicate Stands(s: Setup, b: Branch, n: nat, next: Tool, gaps: set<string>) {
    && b.point == Outer && b.next == Some(next) && !Halted(b) && b.stop == NotStarted
    && b.attemptsUsed == b.decides == n == |b.decisions| && b.gaps == gaps
  }

  ghost predicate Ordinary(s: Setup) {
    s.limit == 3 && !s.followup && s.model && s.modelLimit > 0 && s.low == {Logs, Tickets, Knowledge} && !s.retry
  }

  /** A reply of the tool, and an answer of the model. */
  function Told(call: CallReply, model: ModelReply): Input { Input(false, false, call, model) }

  lemma SelectAndClaim(s: Setup, b: Branch, n: nat, tool: Tool, gaps: set<string>, x: Input)
    requires Ordinary(s) && n < 3 && Stands(s, b, n, tool, gaps) && !x.stop && !x.late
    ensures var c := Next(s, b, x);
      && c == b.(point := Inner, failed := false, decisions := c.decisions, events := c.events)
      && c.decisions == b.decisions + [Decision(tool, ToolInputs(tool, s.service, false))]
  {
    hide ToolInputs;
    assert tool.Logs? || tool.Tickets? || tool.Knowledge?;
  }

  /** A tool is called once, with an answer that stays in scope or with an error that is not retried. */
  lemma CallSettles(s: Setup, c: Branch, x: Input)
    requires Ordinary(s) && c.point == Inner && c.next.Some? && !Halted(c) && c.attemptsUsed < 3
    requires !x.stop && !x.late
    requires x.call == Refused("TOOL_ERROR", false)
             || (x.call.Delivered? && RecordsMatchScope(c.next.value, s.service, x.call.output) && c.next != Some(Logs))
    ensures var d := Next(s, Next(s, c, x), x);
      && d.point == Deciding && d.next == c.next && d.attemptsUsed == c.attemptsUsed + 1 && d.decides == c.decides
      && d.decisions == c.decisions && d.gaps == c.gaps && d.stop == c.stop && d.findings == c.findings
      && |d.observations| == |c.observations| + (if x.call.Delivered? then 1 else 0) && !Halted(d)
  {
    hide ToolInputs, Tries, RecordsMatchScope, ObservationOf, CompletionOf;
  }

  lemma ModelChooses(s: Setup, d: Branch, x: Input)
    requires Ordinary(s) && d.point == Deciding && d.attemptsUsed < 3 && d.gaps == {} && !Halted(d)
    requires x.model.Proposal? && AllAdmissible(x.model.claims, Known(s, d))
    requires x.model.next.Some? && x.model.next.value != Logs && x.model.next.value !in UsedTools(d.decisions)
    ensures var e := Next(s, d, x);
      && e.point == Outer && e.next == x.model.next && e.decides == d.decides + 1 && e.attemptsUsed == d.attemptsUsed
      && e.decisions == d.decisions && e.gaps == x.model.gaps && e.stop == d.stop && !Halted(e)
      && e.observations == d.observations && |e.findings| == |x.model.claims|
  {
    hide UsedTools, AllAdmissible, NumberClaims;
    SameKnown(s, d, d.(decides := d.decides + 1));
    assert d.gaps * {EMPTY_WINDOW} + x.model.gaps == x.model.gaps;
  }

  lemma NotUsed(decisions: seq<Decision>, tool: Tool)
    requires forall i :: 0 <= i < |decisions| ==> decisions[i].tool != tool
    ensures tool !in UsedTools(decisions)
  {
  }

  /** The logs fail, and the model goes on to the tickets. */
  lemma FirstRound(s: Setup, b: Branch, x: Input)
    requires Ordinary(s) && Stands(s, b, 0, Logs, {})
    requires x == Told(Refused("TOOL_ERROR", false), Proposal(Some(Tickets), [], {}))
    ensures var e := Next(s, Next(s, Next(s, Next(s, b, x), x), x), x);
      Stands(s, e, 1, Tickets, {}) && |e.decisions| == 1 && e.decisions[0].tool == Logs
  {
    hide ToolInputs, Next, UsedTools, Known;
    SelectAndClaim(s, b, 0, Logs, {}, x);
    CallSettles(s, Next(s, b, x), x);
    var d := Next(s, Next(s, Next(s, b, x), x), x);
    NotUsed(d.decisions, Tickets);
    ModelChooses(s, d, x);
  }

  /** A claim that cites the last thing seen. */
  function Citing(d: Branch): Claim
    requires d.observations != []
  {
    Claim(ClaimId(0, FollowUp, 0), "open", [d.observations[|d.observations| - 1].id])
  }

  lemma CitesKnown(s: Setup, d: Branch)
    requires d.observations != []
    ensures AllAdmissible([Citing(d)], Known(s, d))
  {
  }

  /** The tickets show something; the model states it, names the gap of the empty window, and goes on to the
      knowledge. What it answers depends on what was seen, so the answer comes last. */
  lemma SecondRound(s: Setup, b: Branch, x: Input) returns (y: Input)
    requires Ordinary(s) && Stands(s, b, 1, Tickets, {}) && |b.decisions| == 1 && b.decisions[0].tool == Logs
    requires !x.stop && !x.late && x.call.Delivered? && RecordsMatchScope(Tickets, s.service, x.call.output)
    ensures var e := Next(s, Next(s, Next(s, Next(s, b, x), x), x), y);
      Stands(s, e, 2, Knowledge, {EMPTY_WINDOW}) && e.findings != []
  {
    hide ToolInputs, Next, UsedTools, Known, RecordsMatchScope, AllAdmissible, Citing;
    SelectAndClaim(s, b, 1, Tickets, {}, x);
    CallSettles(s, Next(s, b, x), x);
    var d := Next(s, Next(s, Next(s, b, x), x), x);
    CitesKnown(s, d);
    NotUsed(d.decisions, Knowledge);
    y := Told(x.call, Proposal(Some(Knowledge), [Citing(d)], {EMPTY_WINDOW}));
    ModelChooses(s, d, y);
  }

  /** The knowledge is selected, the deadline passes, the model is asked once more in vain, and the task ends. */
  lemma CutOff(s: Setup, b: Branch, x: Input, late: Input)
    requires Ordinary(s) && Stands(s, b, 2, Knowledge, {EMPTY_WINDOW}) && !x.stop && !x.late
    requires !late.stop && late.late && late.model.NoAnswer?
    ensures var e := Next(s, Next(s, Next(s, Next(s, b, x), late), late), late);
      e.point == Done && e.decides == 3 && e.attemptsUsed == 2 && e.gaps == {EMPTY_WINDOW} && e.findings == b.findings
  {
    hide ToolInputs, UsedTools;
    SelectAndClaim(s, b, 2, Knowledge, {EMPTY_WINDOW}, x);
    var c := Next(s, b, x);
    var d := Next(s, c, late);
    assert d == c.(point := Deciding, late := true, stop := TaskTimeout, failed := true, next := None);
    var e := Next(s, d, late);
    assert e.point == Outer && e.next.None? && e.decides == 3 && e.stop == TaskTimeout && e.findings == b.findings;
  }

  /** The moves that show branch 0 these inputs. */
  function MovesOf(inputs: seq<Input>): (r: seq<Move>)
    ensures |r| == |inputs|
  {
    if inputs == [] then [] else MovesOf(inputs[..|inputs| - 1]) + [Move(0, inputs[|inputs| - 1])]
  }

  lemma {:induction false} MovesShow(inputs: seq<Input>)
    ensures InputsOf(MovesOf(inputs), 0) == inputs
  {
    if inputs != [] {
      MovesShow(inputs[..|inputs| - 1]);
      assert MovesOf(inputs)[..|inputs| - 1] == MovesOf(inputs[..|inputs| - 1]);
      assert inputs == inputs[..|inputs| - 1] + [inputs[|inputs| - 1]];
    }
  }

  lemma Story(s: Setup) returns (inputs: seq<Input>)
    requires Ordinary(s)
    ensures var e := Alone(s, inputs);
      e.point == Done && e.decides == 3 && e.attemptsUsed == 2 && EMPTY_WINDOW in e.gaps && e.findings != []
  {
    hide Next, ToolInputs, Alone, Stands, RecordsMatchScope;
    var x1 := Told(Refused("TOOL_ERROR", false), Proposal(Some(Tickets), [], {}));
    var x2 := Told(Delivered(Output(1, [Row(Some(7), None, Some(s.service), None, Some("open"))])), NoAnswer);
    var late := Input(false, true, Fatal, NoAnswer);
    Beginning(s);
    FirstRound(s, Start(s), x1);
    var i1 := FourSteps(s, [], x1, x1, x1);
    InScope(s, x2.call.output);
    var y2 := SecondRound(s, Alone(s, i1), x2);
    var i2 := FourSteps(s, i1, x2, x2, y2);
    CutOff(s, Alone(s, i2), x2, late);
    inputs := FourSteps(s, i2, x2, late, late);
  }

  lemma InScope(s: Setup, output: Output)
    requires |output.items| == 1 && output.items[0].service == Some(s.service)
    ensures RecordsMatchScope(Tickets, s.service, output)
  {
  }

  lemma Beginning(s: Setup)
    ensures Alone(s, []) == Start(s) && Stands(s, Start(s), 0, Logs, {})
  {
  }

  lemma FourSteps(s: Setup, inputs: seq<Input>, x: Input, y: Input, z: Input) returns (more: seq<Input>)
    ensures Alone(s, more) == Next(s, Next(s, Next(s, Next(s, Alone(s, inputs), x), y), y), z)
  {
    hide Next, Alone;
    AloneStep(s, inputs, x);
    AloneStep(s, inputs + [x], y);
    AloneStep(s, inputs + [x] + [y], y);
    AloneStep(s, inputs + [x] + [y] + [y], z);
    more := inputs + [x] + [y] + [y] + [z];
  }

  ghost predicate Following(s: Setup) {
    s.followup && s.limit == 1 && s.model && s.modelLimit > 0 && s.low == {Logs, Tickets, Knowledge}
  }

  lemma FollowupCalls(s: Setup, x: Input)
    requires Following(s) && !x.stop && !x.late && x.call == Refused("TOOL_ERROR", false)
    ensures var d := Next(s, Next(s, Next(s, Start(s), x), x), x);
      d.point == Deciding && d.attemptsUsed == 1 && d.decides == 0
  {
    hide ToolInputs, Tries;
    var b := Next(s, Start(s), x);
    assert b.point == Inner && b.attemptsUsed == 0 && b.decides == 0 && b.next == Some(Logs) && !Halted(b);
    var c := Next(s, b, x);
    assert c == b.(point := InFlight);
  }

  lemma FollowupEnds(s: Setup, d: Branch, x: Input)
    requires Following(s) && d.point == Deciding && d.attemptsUsed == 1 && d.decides == 0 && x.model.NoAnswer?
    ensures var e := Next(s, Next(s, d, x), x);
      e.point == Done && e.decides == 1
  {
    hide UsedTools, NextTool;
    var e := Next(s, d, x);
    assert e.point == Outer && e.decides == 1 && e.attemptsUsed == 1;
  }

  /** A follow-up whose tool fails asks the model once. */
  lemma FollowupAsks(s: Setup) returns (inputs: seq<Input>)
    requires Following(s)
    ensures Alone(s, inputs).point == Done && Alone(s, inputs).decides == 1
  {
    hide Alone, Next, Start, Following;
    var x := Input(false, false, Refused("TOOL_ERROR", false), NoAnswer);
    FollowupCalls(s, x);
    var four := FourSteps(s, [], x, x, x);
    inputs := four + [x];
    AloneStep(s, four, x);
    NothingYet(s);
    FollowupEnds(s, Next(s, Next(s, Next(s, Start(s), x), x), x), x);
  }

  lemma NothingYet(s: Setup)
    ensures Alone(s, []) == Start(s)
  {
  }

  // ------------------------------------------------------------- the follow-up

  /** No task of a service ever looked at the wide window, so only the gap and the attempts decide. */
  lemma {:induction false} WideWindowIsNew(o: Outcome, outcomes: seq<Outcome>)
    requires LedgerOk(o.setup, o.branch, 0) && !o.setup.followup && Separate(outcomes)
    requires forall i :: 0 <= i < |outcomes| ==> !outcomes[i].setup.followup
    ensures Eligible(o, MergeAll(outcomes).evidence) <==>
              o.branch.attemptsUsed < MAX_AGENT_ATTEMPTS && EMPTY_WINDOW in o.branch.gaps
  {
    hide LedgerOk, MergeAll, AllObservations, Separate;
    var evidence, all := MergeAll(outcomes).evidence, AllObservations(outcomes);
    MergedLedger(outcomes);
    NarrowDecisions(o);
    forall i | 0 <= i < |evidence| ensures evidence[i].inputs != WideLogs(o.setup.service) {
      assert evidence[i].inputs == all[i].inputs;
      NarrowEvidence(all[i], outcomes, o.setup.service);
    }
  }

  lemma NarrowDecisions(o: Outcome)
    requires LedgerOk(o.setup, o.branch, 0) && !o.setup.followup
    ensures forall i :: 0 <= i < |o.branch.decisions| ==> o.branch.decisions[i].inputs != WideLogs(o.setup.service)
  {
    hide AttemptsOk, ObservationsOk, PointOk, CountsOk, Order;
    forall i | 0 <= i < |o.branch.decisions| ensures o.branch.decisions[i].inputs != WideLogs(o.setup.service) {
      var tool := o.branch.decisions[i].tool;
      assert tool.Logs? || tool.Tickets? || tool.Knowledge?;
    }
  }

  lemma NarrowEvidence(o: Observation, outcomes: seq<Outcome>, service: string)
    requires Owned(o, outcomes) && forall i :: 0 <= i < |outcomes| ==> !outcomes[i].setup.followup
    ensures o.inputs != WideLogs(service)
  {
    hide RecordsMatchScope, SourceIds, Task;
    assert o.tool.Logs? || o.tool.Tickets? || o.tool.Knowledge?;
  }

  /** The follow-up the supervisor chooses for this run, if it chooses one. */
  function Chosen(t: Team): Option<nat>
    requires Sized(t)
  {
    FollowupCandidate(Outcomes(t), MergeAll(Outcomes(t)).evidence, t.used)
  }

  lemma FollowupIsChosen(c: Settings, services: seq<string>, moves: seq<Move>)
    requires |services| == 1
    requires var b := Played(c, services, moves).branches[0]; b.attemptsUsed == 2 && EMPTY_WINDOW in b.gaps
    ensures Chosen(Played(c, services, moves)) == Some(0)
  {
    hide PlayAll, MergeAll, LedgerOk, Eligible, Sum;
    var t := Played(c, services, moves);
    DispatchTasks(c, services, 0);
    RunIsSeparate(c, services, moves, NoExtra);
    BudgetsAreConserved(c, services, moves);
    DispatchIsOk(c, services);
    PlayAllKeepsTeam(Dispatch(c, services), moves);
    TeamBudgets(t, 0);
    WideWindowIsNew(Outcomes(t)[0], Outcomes(t));
  }

  /** A run of one service. Its logs fail; its tickets show a row, which the model states as a claim that cites it,
      naming the gap of the empty window as well; the deadline passes before the third tool, and the third decision
      brings no answer. The follow-up is the one the supervisor chooses, its tool fails, and it asks the fourth
      decision. There is a claim to review, and no decision left: every review of this run is refused. */
  lemma VerifierCanBeRefused()
    returns (c: Settings, services: seq<string>, moves: seq<Move>, inputs: seq<Input>)
    ensures |services| == 1
    ensures var t := Played(c, services, moves);
      && t.branches[0].point == Done && t.branches[0].findings != [] && Chosen(t) == Some(0)
      && var extra := Extra(0, PriorOf(t, 0), inputs);
         && Happens(c, services, moves, extra)
         && RunFollowUp(t, 0, PriorOf(t, 0), inputs).branch.point == Done
         && forall verdicts, cited, bounds :: Review(t, extra, ModelLimit(services), verdicts, cited, bounds).NoBudget?
  {
    c, services := Settings(1, false, true, {Logs, Tickets, Knowledge}), ["pay"];
    moves, inputs := RefusedAfter(c, services);
  }

  lemma RefusedAfter(c: Settings, services: seq<string>) returns (moves: seq<Move>, inputs: seq<Input>)
    requires |services| == 1 && c.model && !c.retry && c.low == {Logs, Tickets, Knowledge}
    ensures var t := Played(c, services, moves);
      && t.branches[0].point == Done && t.branches[0].findings != [] && Chosen(t) == Some(0)
      && var extra := Extra(0, PriorOf(t, 0), inputs);
         && Happens(c, services, moves, extra)
         && RunFollowUp(t, 0, PriorOf(t, 0), inputs).branch.point == Done
         && forall verdicts, cited, bounds :: Review(t, extra, ModelLimit(services), verdicts, cited, bounds).NoBudget?
  {
    hide Alone, PlayAll, MergeAll, Start, Sum, Continue, Chosen, PriorOf, Review, LedgerOk;
    var s := SetupOf(c, services, 0);
    var story := Story(s);
    moves := MovesOf(story);
    MovesShow(story);
    BranchesDoNotInterfere(c, services, moves, 0);
    var t := Played(c, services, moves);
    FollowupIsChosen(c, services, moves);
    DispatchTasks(c, services, 0);
    var prior := PriorOf(t, 0);
    var f := FollowupSetup(Outcome(t.setups[0], t.branches[0]), prior);
    inputs := FollowupAsks(f);
    FollowUpStaysInBudget(c, services, moves, 0, prior, inputs);
    var extra := Extra(0, prior, inputs);
    RunTask(c, services, moves, extra, 0);
    forall verdicts, cited, bounds
      ensures Review(t, extra, ModelLimit(services), verdicts, cited, bounds).NoBudget?
    {
      VerifierGetsItsDecision(c, services, moves, extra, verdicts, cited, bounds);
    }
  }
}
