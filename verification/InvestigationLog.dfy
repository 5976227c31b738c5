/** How the tool call log and the trace of an investigation relate to its observations. */
module InvestigationLog {
  import opened Options
  import opened Investigation
  import opened InvestigationLedger

  /** The completion events among `events`. */
  function Completions(events: seq<Event>): (r: seq<Event>)
    ensures forall e :: e in r ==> e.ToolCompleted? && e in events
  {
    if events == [] then []
    else Completions(events[..|events| - 1])
         + if events[|events| - 1].ToolCompleted? then [events[|events| - 1]] else []
  }

  function CompletionsOf(observations: seq<Observation>): (r: seq<Event>)
    ensures |r| == |observations|
  {
    seq(|observations|, i requires 0 <= i < |observations| => CompletionOf(observations[i]))
  }

  /** The tool being tried, if one is. */
  function Current(b: Branch): Option<Tool> {
    if b.point == Inner || b.point == InFlight then b.next else None
  }

  /** Completed calls are of selected tools, at most one for each, and none yet for the tool being tried. */
  ghost predicate CallsOk(s: Setup, decisions: seq<Decision>, calls: seq<Call>, current: Option<Tool>) {
    && (forall k :: 0 <= k < |calls| && calls[k].completed ==>
          && calls[k].tool in UsedTools(decisions) && Some(calls[k].tool) != current
          && calls[k].inputs == ToolInputs(calls[k].tool, s.service, s.followup))
    && (forall k, l :: 0 <= k < l < |calls| && calls[k].completed && calls[l].completed ==>
          calls[k].tool != calls[l].tool)
  }

  /** Every observation is the output of a completed call, with a tool of its own. */
  ghost predicate ShownOk(calls: seq<Call>, observations: seq<Observation>) {
    && (forall i :: 0 <= i < |observations| ==>
          Call(observations[i].tool, observations[i].inputs, true, observations[i].output) in calls)
    && (forall i, j :: 0 <= i < j < |observations| ==> observations[i].tool != observations[j].tool)
  }

  ghost predicate LogOk(s: Setup, b: Branch) {
    && CallsOk(s, b.decisions, b.calls, Current(b))
    && ShownOk(b.calls, b.observations)
    && Completions(b.events) == CompletionsOf(b.observations)
  }

  lemma CompletionsOnce(events: seq<Event>, e: Event)
    ensures Completions(events + [e]) == Completions(events) + if e.ToolCompleted? then [e] else []
  {
    assert (events + [e])[..|events|] == events;
  }

  lemma UsedGrow(decisions: seq<Decision>, d: Decision)
    ensures UsedTools(decisions + [d]) == UsedTools(decisions) + {d.tool}
  {
    var more := decisions + [d];
    forall t | t in UsedTools(decisions) + {d.tool} ensures t in UsedTools(more) {
      if t == d.tool {
        assert more[|decisions|].tool == t;
      } else {
        var i :| 0 <= i < |decisions| && decisions[i].tool == t;
        assert more[i].tool == t;
      }
    }
    forall t | t in UsedTools(more) ensures t in UsedTools(decisions) + {d.tool} {
      var i :| 0 <= i < |more| && more[i].tool == t;
      assert i < |decisions| ==> decisions[i].tool == t;
    }
  }

  /** A delivered call whose records are not in the scope of the service. */
  predicate Rejected(s: Setup, call: Call) {
    call.completed && !RecordsMatchScope(call.tool, s.service, call.output)
  }

  lemma SelectKeepsLog(s: Setup, b: Branch, used: nat, x: Input)
    requires s.limit <= 3 && b.point == Outer && LedgerOk(s, b, used) && LogOk(s, b)
    ensures LogOk(s, Select(s, b, x))
  {
    hide UsedTools, ToolInputs, DecisionsOk, AttemptsOk, ObservationsOk, Completions, CompletionsOf, ShownOk;
    var c := Select(s, b, x);
    if c.point == Inner {
      var d := Decision(b.next.value, ToolInputs(b.next.value, s.service, s.followup));
      UsedGrow(b.decisions, d);
      CompletionsOnce(b.events, ToolSelected(|b.decisions| + 1));
      assert |b.decisions| < 3 && d.tool !in UsedTools(b.decisions);
    } else {
      CompletionsOnce(b.events, TaskFinished);
    }
  }

  lemma CallAdded(s: Setup, decisions: seq<Decision>, calls: seq<Call>, current: Option<Tool>, call: Call)
    requires CallsOk(s, decisions, calls, current)
    requires call.completed ==> current == Some(call.tool)
    requires call.completed ==> call.tool in UsedTools(decisions)
    requires call.completed ==> call.inputs == ToolInputs(call.tool, s.service, s.followup)
    ensures CallsOk(s, decisions, calls + [call], if call.completed then None else current)
  {
  }

  /** What a call adds to the log and the trace. */
  lemma CallToolLogs(s: Setup, b: Branch, x: Input)
    requires b.next.Some?
    ensures var c := CallTool(s, b, x);
      && (x.call.Fatal? ==> c.calls == b.calls && c.events == b.events && c.point == Aborted)
      && (!x.call.Fatal? ==>
            && c.calls == b.calls + [Call(b.next.value, ToolInputs(b.next.value, s.service, s.followup),
                 x.call.Delivered?, if x.call.Delivered? then x.call.output else Output(0, []))]
            && |c.events| == |b.events| + 1 && c.events[..|b.events|] == b.events
            && (c.point == Inner ==> !x.call.Delivered?) && (c.point == Inner || c.point == Deciding))
      && (x.call.Delivered? && RecordsMatchScope(b.next.value, s.service, x.call.output) ==>
            c.events[|b.events|] == CompletionOf(
              ObservationOf(s, b.next.value, |b.decisions|, 1 + Tries(b.attempts, |b.decisions|), x.call.output)))
      && (!x.call.Fatal? && !(x.call.Delivered? && RecordsMatchScope(b.next.value, s.service, x.call.output)) ==>
            !c.events[|b.events|].ToolCompleted?)
      && c.decisions == b.decisions && c.next == b.next
  {
    hide RecordsMatchScope, Tries, ToolInputs, ObservationOf;
  }

  lemma CallToolKeepsLog(s: Setup, b: Branch, used: nat, x: Input)
    requires s.limit <= 3 && b.point == InFlight && LedgerOk(s, b, used) && LogOk(s, b)
    ensures LogOk(s, CallTool(s, b, x))
  {
    hide CallTool, RecordsMatchScope, Tries, ToolInputs, DecisionsOk, AttemptsOk, ObservationsOk, Completions,
      CompletionsOf, CallsOk, ShownOk;
    CallToolLogs(s, b, x);
    CallToolShows(s, b, x);
    var c := CallTool(s, b, x);
    var tool := b.next.value;
    assert tool in UsedTools(b.decisions);
    if x.call.Fatal? {
      CallsLess(s, b.decisions, b.calls, Current(b));
    } else {
      var call := c.calls[|b.calls|];
      CallAdded(s, b.decisions, b.calls, Current(b), call);
      CallsLess(s, b.decisions, c.calls, if call.completed then None else Current(b));
      CompletionsOnce(b.events, c.events[|b.events|]);
      assert c.events == b.events + [c.events[|b.events|]];
      if x.call.Delivered? && RecordsMatchScope(tool, s.service, x.call.output) {
        var o := ObservationOf(s, tool, |b.decisions|, 1 + Tries(b.attempts, |b.decisions|), x.call.output);
        ShownMore(s, b, call, o);
        CompletionsOfOnce(b.observations, o);
      } else {
        ShownStays(b.calls, call, b.observations);
      }
    }
  }

  lemma CallsLess(s: Setup, decisions: seq<Decision>, calls: seq<Call>, current: Option<Tool>)
    requires CallsOk(s, decisions, calls, current)
    ensures CallsOk(s, decisions, calls, None)
  {
  }

  lemma CompletionsOfOnce(observations: seq<Observation>, o: Observation)
    ensures CompletionsOf(observations + [o]) == CompletionsOf(observations) + [CompletionOf(o)]
  {
  }

  lemma ShownStays(calls: seq<Call>, call: Call, observations: seq<Observation>)
    requires ShownOk(calls, observations)
    ensures ShownOk(calls + [call], observations)
  {
  }

  lemma ShownMore(s: Setup, b: Branch, call: Call, o: Observation)
    requires LogOk(s, b) && b.point == InFlight && b.next == Some(o.tool)
    requires call == Call(o.tool, o.inputs, true, o.output)
    ensures ShownOk(b.calls + [call], b.observations + [o])
  {
    hide UsedTools, ToolInputs, Completions, CompletionsOf;
    var calls, shown := b.calls + [call], b.observations + [o];
    forall i | 0 <= i < |b.observations|
      ensures Call(shown[i].tool, shown[i].inputs, true, shown[i].output) in calls && shown[i].tool != o.tool
    {
      var own := Call(b.observations[i].tool, b.observations[i].inputs, true, b.observations[i].output);
      assert shown[i] == b.observations[i] && own in b.calls;
      var k :| 0 <= k < |b.calls| && b.calls[k] == own;
      assert calls[k] == own && own.completed;
    }
    assert calls[|b.calls|] == call;
  }

  lemma DecideKeepsLog(s: Setup, b: Branch, used: nat, models: nat, x: Input)
    requires b.point == Deciding && LogOk(s, b)
    ensures LogOk(s, Decide(s, b, used, models, x).0)
  {
    hide Decide, CallsOk, ShownOk, Completions, CompletionsOf;
    DecideFrame(s, b, used, models, x);
    DecideLogs(s, b, used, models, x);
    var c := Decide(s, b, used, models, x).0;
    if c.events != b.events { CompletionsOnce(b.events, c.events[|b.events|]); }
  }

  lemma DecideLogs(s: Setup, b: Branch, used: nat, models: nat, x: Input)
    ensures var c := Decide(s, b, used, models, x).0;
      && c.calls == b.calls
      && (c.events == b.events || (|c.events| == |b.events| + 1 && c.events == b.events + [c.events[|b.events|]]
                                   && !c.events[|b.events|].ToolCompleted?))
  {
    hide Acceptable, Offered, Reserves, UsedTools, NextTool;
  }

  lemma AdvanceKeepsLog(s: Setup, c: Shared, x: Input)
    requires s.limit <= 3 && LedgerOk(s, c.branch, c.used) && LogOk(s, c.branch)
    ensures LogOk(s, Advance(s, c, x).branch)
  {
    hide LedgerOk, LogOk, Select, TryClaim, CallTool, Decide;
    match c.branch.point
    case Outer => SelectKeepsLog(s, c.branch, c.used, x);
    case Inner => TryClaimKeepsLog(s, c.branch, c.used, x);
    case InFlight => CallToolKeepsLog(s, c.branch, c.used, x);
    case Deciding => DecideKeepsLog(s, c.branch, c.used, c.models, x);
    case Done =>
    case Aborted =>
  }

  lemma TryClaimKeepsLog(s: Setup, b: Branch, used: nat, x: Input)
    requires b.point == Inner && LogOk(s, b)
    ensures LogOk(s, TryClaim(s, b, used, x).0)
  {
    hide UsedTools, ToolInputs, Completions, CompletionsOf, ShownOk;
  }

  lemma {:induction false} DriveKeepsLog(s: Setup, c: Shared, world: nat -> Turn, n: nat)
    requires s.limit <= 3 && LedgerOk(s, c.branch, c.used) && LogOk(s, c.branch)
    ensures LogOk(s, Drive(s, c, world, n).branch)
  {
    hide LedgerOk, LogOk, Advance;
    if n > 0 {
      DriveKeepsLog(s, c, world, n - 1);
      DriveKeepsLedger(s, c, world, n - 1);
      var d := Drive(s, c, world, n - 1);
      OthersKeepLedger(s, d, world(n - 1));
      AdvanceKeepsLog(s, Others(d, world(n - 1)), world(n - 1).input);
    }
  }

  /** At every point of a task the trace holds one completion event for each observation, in order; each
      observation is the output of the only completed call of its tool; and a completed call whose records were
      rejected as out of scope is of a tool that no observation has. */
  lemma LogExplainsObservations(s: Setup, used: nat, models: nat, world: nat -> Turn, n: nat)
    requires s.limit <= MAX_AGENT_ATTEMPTS
    ensures var b := Drive(s, Shared(Start(s), used, models), world, n).branch;
      && Completions(b.events) == CompletionsOf(b.observations)
      && (forall i :: 0 <= i < |b.observations| ==>
            Call(b.observations[i].tool, b.observations[i].inputs, true, b.observations[i].output) in b.calls)
      && (forall k, l :: 0 <= k < l < |b.calls| && b.calls[k].completed && b.calls[l].completed ==>
            b.calls[k].tool != b.calls[l].tool)
      && (forall i, k :: 0 <= i < |b.observations| && 0 <= k < |b.calls| && Rejected(s, b.calls[k]) ==>
            b.observations[i].tool != b.calls[k].tool)
  {
    hide RecordsMatchScope, CompletionOf;
    assert LedgerOk(s, Start(s), used) && LogOk(s, Start(s));
    var c := Drive(s, Shared(Start(s), used, models), world, n);
    DriveKeepsLedger(s, Shared(Start(s), used, models), world, n);
    DriveKeepsLog(s, Shared(Start(s), used, models), world, n);
    RejectedAreNotShown(s, c.branch, c.used);
  }

  lemma RejectedAreNotShown(s: Setup, b: Branch, used: nat)
    requires LedgerOk(s, b, used) && LogOk(s, b)
    ensures forall i, k :: 0 <= i < |b.observations| && 0 <= k < |b.calls| && Rejected(s, b.calls[k]) ==>
              b.observations[i].tool != b.calls[k].tool
  {
    hide RecordsMatchScope, UsedTools, ToolInputs, Completions, CompletionsOf, AttemptsOk, PointOk, CountsOk;
    LedgerSays(s, b, used);
    forall i, k | 0 <= i < |b.observations| && 0 <= k < |b.calls| && Rejected(s, b.calls[k])
      ensures b.observations[i].tool != b.calls[k].tool
    {
      var o := b.observations[i];
      var l :| 0 <= l < |b.calls| && b.calls[l] == Call(o.tool, o.inputs, true, o.output);
      assert RecordsMatchScope(o.tool, s.service, o.output);
    }
  }
}
