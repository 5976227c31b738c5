/** What an investigation does, and not only what it may do: which tools it asks, with which inputs, and what it keeps. */
module InvestigationRule {
  import opened Options
  import opened Investigation
  import opened InvestigationLedger
  import opened InvestigationLog
  import opened Supervisor
  import opened SupervisorTheorems

  // ------------------------------------------------------ queries and scope

  /** What each tool is asked for a service. */
  ghost predicate Asks(d: Decision, service: string, minutes: nat) {
    match d.tool
    case Logs => d.inputs == LogInputs(service, minutes, 20)
    case Tickets => d.inputs == TicketInputs(service, 10)
    case Knowledge => d.inputs == KnowledgeInputs(service + " 故障排查", 5)
  }

  /** Every record is of the service; knowledge belongs to none. */
  ghost predicate InScope(tool: Tool, service: string, output: Output) {
    tool != Knowledge ==> forall i :: 0 <= i < |output.items| ==> output.items[i].service == Some(service)
  }

  /** Every completed call is evidence exactly when all its records are of the service. */
  ghost predicate Evidenced(s: Setup, b: Branch) {
    && (forall i :: 0 <= i < |b.observations| ==> InScope(b.observations[i].tool, s.service, b.observations[i].output))
    && (forall k :: 0 <= k < |b.calls| && b.calls[k].completed && InScope(b.calls[k].tool, s.service, b.calls[k].output) ==>
          exists i :: 0 <= i < |b.observations| && b.observations[i].tool == b.calls[k].tool
                      && b.observations[i].output == b.calls[k].output)
  }

  /** One more call, with its observation if it has one. */
  lemma EvidencedMore(s: Setup, b: Branch, c: Branch, call: Call)
    requires Evidenced(s, b) && c.calls == b.calls + [call]
    requires (c.observations == b.observations && !(call.completed && InScope(call.tool, s.service, call.output)))
             || (|c.observations| == |b.observations| + 1 && c.observations[..|b.observations|] == b.observations
                 && c.observations[|b.observations|].tool == call.tool
                 && c.observations[|b.observations|].output == call.output
                 && InScope(call.tool, s.service, call.output))
    ensures Evidenced(s, c)
  {
    forall k | 0 <= k < |c.calls| && c.calls[k].completed && InScope(c.calls[k].tool, s.service, c.calls[k].output)
      ensures exists i :: 0 <= i < |c.observations| && c.observations[i].tool == c.calls[k].tool
                          && c.observations[i].output == c.calls[k].output
    {
      if k < |b.calls| {
        var i :| 0 <= i < |b.observations| && b.observations[i].tool == b.calls[k].tool
                 && b.observations[i].output == b.calls[k].output;
        assert c.observations[i] == b.observations[i];
      } else {
        assert c.observations[|b.observations|].tool == call.tool;
      }
    }
  }

  lemma ScopeIs(tool: Tool, service: string, output: Output)
    ensures RecordsMatchScope(tool, service, output) <==> InScope(tool, service, output)
  {
  }

  lemma CallKeepsEvidenced(s: Setup, b: Branch, x: Input)
    requires Evidenced(s, b) && b.next.Some?
    ensures Evidenced(s, CallTool(s, b, x))
  {
    hide CallTool, Evidenced, RecordsMatchScope, InScope, Tries, ToolInputs;
    CallToolLogs(s, b, x);
    CallToolShows(s, b, x);
    var c := CallTool(s, b, x);
    if x.call.Fatal? {
      SameEvidence(s, b, c);
    } else {
      ScopeIs(b.next.value, s.service, c.calls[|b.calls|].output);
      EvidencedMore(s, b, c, c.calls[|b.calls|]);
    }
  }

  lemma SameEvidence(s: Setup, b: Branch, c: Branch)
    requires Evidenced(s, b) && c.calls == b.calls && c.observations == b.observations
    ensures Evidenced(s, c)
  {
  }

  lemma OthersLeaveEvidence(s: Setup, b: Branch, x: Input)
    ensures var c := Select(s, b, x); c.calls == b.calls && c.observations == b.observations
    ensures var c := TryClaim(s, b, 0, x).0; c.calls == b.calls && c.observations == b.observations
  {
    hide ToolInputs;
  }

  lemma AdvanceKeepsEvidenced(s: Setup, b: Branch, x: Input)
    requires Evidenced(s, b)
    ensures Evidenced(s, Advance(s, Shared(b, 0, 0), x).branch)
  {
    hide Evidenced, Select, TryClaim, CallTool, Decide;
    var c := Advance(s, Shared(b, 0, 0), x).branch;
    OthersLeaveEvidence(s, b, x);
    DecideLogs(s, b, 0, 0, x);
    DecideFrame(s, b, 0, 0, x);
    if b.point == InFlight && b.next.Some? {
      CallKeepsEvidenced(s, b, x);
    } else {
      SameEvidence(s, b, c);
    }
  }

  lemma {:induction false} AloneKeepsEvidenced(s: Setup, inputs: seq<Input>)
    ensures Evidenced(s, Alone(s, inputs))
  {
    hide Evidenced, Advance;
    if inputs == [] {
      NothingEvidenced(s);
    } else {
      AloneKeepsEvidenced(s, inputs[..|inputs| - 1]);
      AdvanceKeepsEvidenced(s, Alone(s, inputs[..|inputs| - 1]), inputs[|inputs| - 1]);
    }
  }

  lemma NothingEvidenced(s: Setup)
    ensures Evidenced(s, Start(s))
  {
  }

  /** A task asks only about its own service: the last hour in its first logs query and a whole day in a follow-up,
      which asks nothing else; and a delivered result is evidence exactly when every record in it is of the service. */
  lemma TaskStaysInScope(s: Setup, inputs: seq<Input>)
    requires s.limit <= MAX_AGENT_ATTEMPTS
    ensures var b := Alone(s, inputs);
      && (forall i :: 0 <= i < |b.decisions| ==> Asks(b.decisions[i], s.service, if s.followup then 24 * 60 else 60))
      && (s.followup ==> |b.decisions| <= 1) && (b.decisions != [] ==> b.decisions[0].tool == Logs)
      && Evidenced(s, b)
  {
    AloneKeepsLog(s, inputs);
    AloneKeepsEvidenced(s, inputs);
    QueriesAre(s, Alone(s, inputs));
  }

  lemma QueriesAre(s: Setup, b: Branch)
    requires LedgerOk(s, b, 0)
    ensures forall i :: 0 <= i < |b.decisions| ==> Asks(b.decisions[i], s.service, if s.followup then 24 * 60 else 60)
    ensures (s.followup ==> |b.decisions| <= 1) && (b.decisions != [] ==> b.decisions[0].tool == Logs)
  {
    hide AttemptsOk, ObservationsOk, PointOk, CountsOk;
  }

  // ---------------------------------------------------------------- the rule

  /** The ticket query found something. */
  ghost predicate TicketsFound(b: Branch) {
    exists i :: 0 <= i < |b.observations| && b.observations[i].tool == Tickets && b.observations[i].output.total != 0
  }

  /** What the fixed rule asks: logs, then tickets, then the knowledge unless the tickets found something. */
  function RuleTools(found: bool): seq<Tool> { if found then [Logs, Tickets] else [Logs, Tickets, Knowledge] }

  function ToolsOf(decisions: seq<Decision>): (r: seq<Tool>)
    ensures |r| == |decisions|
    ensures forall i :: 0 <= i < |r| ==> r[i] == decisions[i].tool
  {
    seq(|decisions|, i requires 0 <= i < |decisions| => decisions[i].tool)
  }

  /** The model is there and fails, the first window was empty, and one attempt is left: it is kept for the follow-up. */
  ghost predicate KeptBack(s: Setup, b: Branch) {
    s.model && EMPTY_WINDOW in b.gaps && b.attemptsUsed + 1 >= s.limit
  }

  function RuleNext(asked: nat, found: bool): Option<Tool> {
    if asked == 0 then Some(Logs)
    else if asked == 1 then Some(Tickets)
    else if asked == 2 && !found then Some(Knowledge)
    else None
  }

  ghost predicate OnRule(s: Setup, b: Branch) {
    var n, found := |b.decisions|, TicketsFound(b);
    && n <= 3 && (n >= 1 ==> b.decisions[0].tool == Logs) && (n >= 2 ==> b.decisions[1].tool == Tickets)
    && (n >= 3 ==> b.decisions[2].tool == Knowledge && !found) && (found ==> n >= 2)
    && (b.point != Done ==> b.stop !in {Finished, PartialFailure})
    && match b.point
       case Outer =>
         b.next == RuleNext(n, found) || (n >= 1 && b.next.None? && (b.stop != NotStarted || KeptBack(s, b)))
       case Inner => n >= 1 && b.next == Some(b.decisions[n - 1].tool) && (n == 2 ==> !found) && !b.failed
       case InFlight => n >= 1 && b.next == Some(b.decisions[n - 1].tool) && (n == 2 ==> !found) && !b.failed
       case Deciding =>
         n >= 1
         && ((b.next.None? && b.stop != NotStarted)
             || (b.next == Some(b.decisions[n - 1].tool) && (n == 2 ==> (found <==> !b.failed && b.total != 0))))
       case Done =>
         b.stop in {Finished, PartialFailure} ==> n >= 1 && (RuleNext(n, found).None? || KeptBack(s, b))
       case Aborted => true
  }

  lemma SelectKeepsRule(s: Setup, b: Branch, x: Input)
    requires b.point == Outer && OnRule(s, b)
    ensures OnRule(s, Select(s, b, x))
  {
    hide ToolInputs, KeptBack, TicketsFound;
    var c := Select(s, b, x);
    SameKept(s, b, c);
    SameFound(b, c);
  }

  lemma SameKept(s: Setup, b: Branch, c: Branch)
    ensures c.gaps == b.gaps && c.attemptsUsed == b.attemptsUsed ==> (KeptBack(s, b) <==> KeptBack(s, c))
  {
  }

  lemma SameFound(b: Branch, c: Branch)
    ensures c.observations == b.observations ==> (TicketsFound(b) <==> TicketsFound(c))
  {
  }

  lemma FoundMore(b: Branch, c: Branch)
    requires |c.observations| == |b.observations| + 1 && c.observations[..|b.observations|] == b.observations
    ensures var o := c.observations[|b.observations|];
      TicketsFound(c) <==> TicketsFound(b) || (o.tool == Tickets && o.output.total != 0)
  {
    var o := c.observations[|b.observations|];
    if TicketsFound(b) {
      var i :| 0 <= i < |b.observations| && b.observations[i].tool == Tickets && b.observations[i].output.total != 0;
      assert c.observations[i] == b.observations[i];
    }
    if TicketsFound(c) && !(o.tool == Tickets && o.output.total != 0) {
      var i :| 0 <= i < |c.observations| && c.observations[i].tool == Tickets && c.observations[i].output.total != 0;
      assert c.observations[i] == b.observations[i];
    }
  }

  lemma ClaimKeepsRule(s: Setup, b: Branch, x: Input)
    requires b.point == Inner && OnRule(s, b)
    ensures OnRule(s, TryClaim(s, b, 0, x).0)
  {
    hide TicketsFound;
    SameFound(b, TryClaim(s, b, 0, x).0);
  }

  /** The parts of a call's result that the rule looks at. */
  lemma CallLeads(s: Setup, b: Branch, x: Input)
    requires b.next.Some?
    ensures var c := CallTool(s, b, x);
      && c.decisions == b.decisions && c.next == b.next && c.stop == b.stop && c.point in {Inner, Deciding, Aborted}
      && (c.point == Inner ==> c.failed == b.failed && c.observations == b.observations)
      && (c.point == Deciding ==>
            if |c.observations| > |b.observations| then
              c.failed == b.failed && |c.observations| == |b.observations| + 1
              && c.observations[..|b.observations|] == b.observations
              && c.observations[|b.observations|].tool == b.next.value
              && c.total == c.observations[|b.observations|].output.total
            else c.observations == b.observations && c.failed)
      && (c.point == Aborted ==> c.observations == b.observations)
  {
    hide RecordsMatchScope, Tries, ToolInputs, CompletionOf, SourceIds;
  }

  lemma CallKeepsRule(s: Setup, b: Branch, x: Input)
    requires b.point == InFlight && OnRule(s, b)
    ensures OnRule(s, CallTool(s, b, x))
  {
    hide CallTool, TicketsFound, KeptBack;
    CallLeads(s, b, x);
    var c := CallTool(s, b, x);
    SameFound(b, c);
    if |c.observations| > |b.observations| { FoundMore(b, c); }
  }

  /** What follows a decision that was not taken from a model: by the model's failure or its absence. */
  lemma RuleLeads(s: Setup, b: Branch, x: Input)
    requires !s.followup && s.limit <= 3 && !x.model.Proposal? && s.modelLimit > 0
    ensures var c := Decide(s, b, 0, 0, x).0;
      && c.decisions == b.decisions && c.observations == b.observations && c.stop == b.stop
      && c.attemptsUsed == b.attemptsUsed && c.gaps == b.gaps && c.point in {Outer, Aborted}
      && (c.point == Outer ==>
            (c.next.None? && KeptBack(s, b))
            || c.next == (match b.next
                          case None => None
                          case Some(tool) =>
                            match tool
                            case Logs => Some(Tickets)
                            case Tickets => if b.failed || b.total == 0 then Some(Knowledge) else None
                            case Knowledge => None))
  {
    hide AllAdmissible, UsedTools;
  }

  lemma DecideKeepsRule(s: Setup, b: Branch, x: Input)
    requires b.point == Deciding && OnRule(s, b)
    requires !s.followup && s.limit <= 3 && !x.model.Proposal? && s.modelLimit > 0
    ensures OnRule(s, Decide(s, b, 0, 0, x).0)
  {
    hide Decide, TicketsFound, KeptBack;
    RuleLeads(s, b, x);
    var c := Decide(s, b, 0, 0, x).0;
    SameFound(b, c);
    SameKept(s, b, c);
  }

  lemma AdvanceKeepsRule(s: Setup, b: Branch, x: Input)
    requires OnRule(s, b) && !s.followup && s.limit <= 3 && !x.model.Proposal? && s.modelLimit > 0
    ensures OnRule(s, Advance(s, Shared(b, 0, 0), x).branch)
  {
    hide OnRule, Select, TryClaim, CallTool, Decide;
    match b.point
    case Outer => SelectKeepsRule(s, b, x);
    case Inner => ClaimKeepsRule(s, b, x);
    case InFlight => if b.next.Some? { CallKeepsRule(s, b, x); }
    case Deciding => DecideKeepsRule(s, b, x);
    case Done =>
    case Aborted =>
  }

  lemma StartsOnRule(s: Setup)
    ensures OnRule(s, Start(s))
  {
  }

  lemma {:induction false} AloneKeepsRule(s: Setup, inputs: seq<Input>)
    requires !s.followup && s.limit <= 3 && s.modelLimit > 0
    requires forall i :: 0 <= i < |inputs| ==> !inputs[i].model.Proposal?
    ensures OnRule(s, Alone(s, inputs))
  {
    hide OnRule, Advance;
    if inputs == [] {
      StartsOnRule(s);
    } else {
      AloneKeepsRule(s, inputs[..|inputs| - 1]);
      AdvanceKeepsRule(s, Alone(s, inputs[..|inputs| - 1]), inputs[|inputs| - 1]);
    }
  }

  /** A task without a model, or whose model never answers, that is not cut short by stop, deadline or budget, asks the
      logs, then the tickets, and then the knowledge exactly when the tickets were not delivered or held nothing. With a
      model it may end earlier in one case: to keep its last attempt for the wider window. */
  lemma RuleIsFollowed(s: Setup, inputs: seq<Input>)
    requires !s.followup && s.limit <= MAX_AGENT_ATTEMPTS && s.modelLimit > 0
    requires forall i :: 0 <= i < |inputs| ==> !inputs[i].model.Proposal?
    requires Alone(s, inputs).point == Done && Alone(s, inputs).stop in {Finished, PartialFailure}
    ensures var b := Alone(s, inputs);
      var tools := ToolsOf(b.decisions);
      && tools != [] && tools <= RuleTools(TicketsFound(b))
      && (tools == RuleTools(TicketsFound(b)) || KeptBack(s, b))
      && (!s.model ==> tools == RuleTools(TicketsFound(b)))
  {
    AloneKeepsRule(s, inputs);
    RuleSays(s, Alone(s, inputs));
  }

  lemma RuleSays(s: Setup, b: Branch)
    requires OnRule(s, b) && b.point == Done && b.stop in {Finished, PartialFailure}
    ensures var tools := ToolsOf(b.decisions);
      && tools != [] && tools <= RuleTools(TicketsFound(b))
      && (tools == RuleTools(TicketsFound(b)) || KeptBack(s, b))
      && (!s.model ==> tools == RuleTools(TicketsFound(b)))
  {
    hide TicketsFound;
  }

  /** One decision that the model fails to give, whatever it replied and whatever is left of the budgets: the rule goes
      on from the tool just asked, unless the last attempt is kept for the wider window. */
  lemma FailedDecisionFollowsRule(s: Setup, b: Branch, used: nat, models: nat, x: Input)
    requires !s.followup && b.point == Deciding && !x.model.Broken?
    requires s.model ==> models >= s.modelLimit || !Acceptable(s, b.(decides := b.decides + 1), used, x.model)
    ensures var c := Decide(s, b, used, models, x).0;
      && c.point == Outer
      && c.next == if s.model && EMPTY_WINDOW in b.gaps && Max(0, Min(s.limit - b.attemptsUsed, 9 - used) - 1) == 0
                   then None
                   else match b.next
                        case None => None
                        case Some(tool) =>
                          match tool
                          case Logs => Some(Tickets)
                          case Tickets => if b.failed || b.total == 0 then Some(Knowledge) else None
                          case Knowledge => None
  {
    hide AllAdmissible, UsedTools, Known;
  }

  // ------------------------------------------------------------ the model's say

  predicate IsKnown(s: Setup, b: Branch, id: EvidenceId) {
    id in s.prior || exists i :: 0 <= i < |b.observations| && b.observations[i].id == id
  }

  /** Attempts the model may spend: none in a follow-up, one less when the wider window still has to be looked at. */
  function Room(s: Setup, b: Branch, used: nat): int {
    if s.followup then 0
    else
      var left := if s.limit - b.attemptsUsed <= 9 - used then s.limit - b.attemptsUsed else 9 - used;
      if EMPTY_WINDOW in b.gaps then left - 1 else left
  }

  /** A reply whose claims each cite known evidence, and which stops or goes on to a tool not asked yet. */
  ghost predicate Usable(s: Setup, b: Branch, used: nat, reply: ModelReply) {
    && reply.Proposal? && |reply.claims| <= 4
    && (forall i :: 0 <= i < |reply.claims| ==>
          && 1 <= |reply.claims[i].text| <= 700 && 1 <= |reply.claims[i].evidence| <= 6
          && forall j :: 0 <= j < |reply.claims[i].evidence| ==> IsKnown(s, b, reply.claims[i].evidence[j]))
    && (reply.next.Some? ==>
          && reply.next.value != Logs && Room(s, b, used) > 0
          && forall i :: 0 <= i < |b.decisions| ==> b.decisions[i].tool != reply.next.value)
  }

  lemma KnownIsKnown(s: Setup, b: Branch)
    ensures forall id :: id in Known(s, b) <==> IsKnown(s, b, id)
  {
  }

  lemma UsedIsUsed(decisions: seq<Decision>, tool: Tool)
    ensures tool in UsedTools(decisions) <==> exists i :: 0 <= i < |decisions| && decisions[i].tool == tool
  {
  }

  lemma UsableIsAcceptable(s: Setup, b: Branch, used: nat, reply: ModelReply)
    requires b.attemptsUsed <= s.limit && used <= 9
    ensures Acceptable(s, b, used, reply) <==> Usable(s, b, used, reply)
  {
    hide Known, IsKnown, UsedTools;
    KnownIsKnown(s, b);
    if reply.Proposal? && reply.next.Some? { UsedIsUsed(b.decisions, reply.next.value); }
    if Usable(s, b, used, reply) {
      forall i | 0 <= i < |reply.claims| ensures Admissible(reply.claims[i], Known(s, b)) {}
    }
    if Acceptable(s, b, used, reply) {
      forall i | 0 <= i < |reply.claims|
        ensures 1 <= |reply.claims[i].text| <= 700 && 1 <= |reply.claims[i].evidence| <= 6
        ensures forall j :: 0 <= j < |reply.claims[i].evidence| ==> IsKnown(s, b, reply.claims[i].evidence[j])
      {
        assert Admissible(reply.claims[i], Known(s, b));
      }
    }
  }

  /** A usable reply is followed: its tool comes next, its claims are the findings, numbered in order, and its gaps are
      the gaps, with the empty window kept. */
  lemma UsableReplyIsFollowed(s: Setup, b: Branch, used: nat, models: nat, x: Input)
    requires s.model && models < s.modelLimit && b.attemptsUsed <= s.limit && used <= 9 && Usable(s, b, used, x.model)
    ensures var (c, spent) := Decide(s, b, used, models, x);
      && c.point == Outer && c.next == x.model.next && spent == models + 1
      && |c.findings| == |x.model.claims|
      && (forall i :: 0 <= i < |c.findings| ==>
            && c.findings[i].id == ClaimId(s.index, Task(s), i + 1) && c.findings[i].text == x.model.claims[i].text
            && c.findings[i].evidence == x.model.claims[i].evidence)
      && (forall g :: g in c.gaps <==> g in x.model.gaps || (g == EMPTY_WINDOW && g in b.gaps))
  {
    hide Usable, Acceptable;
    UsableIsAcceptable(s, b, used, x.model);
    AskedAlike(s, b, used, x.model);
  }

  lemma AskedAlike(s: Setup, b: Branch, used: nat, reply: ModelReply)
    ensures Acceptable(s, b.(decides := b.decides + 1), used, reply) == Acceptable(s, b, used, reply)
    ensures Acceptable(s, b, used, reply) ==> reply.Proposal?
  {
    hide AllAdmissible, UsedTools;
  }
}
