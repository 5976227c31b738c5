/** How an investigation ends: which failures it reports, when it retries, and the attempt it leaves for a follow-up. */
module InvestigationOutcome {
  import opened Options
  import opened Investigation
  import opened InvestigationLedger
  import opened InvestigationLog
  import opened Supervisor
  import opened SupervisorTheorems

  // ------------------------------------------------------------- failures

  /** A failed attempt that may be repeated at once: a transient first failure with an attempt left. */
  predicate Repeatable(s: Setup, a: Attempt, made: nat) {
    s.retry && a.number == 1 && a.result.Failed? && a.result.transient && made < s.limit
  }

  /** Attempts that ended their step without a result. */
  function LostSteps(s: Setup, attempts: seq<Attempt>): nat {
    if attempts == [] then 0
    else
      var last := attempts[|attempts| - 1];
      LostSteps(s, attempts[..|attempts| - 1])
      + if last.result.Succeeded? || Repeatable(s, last, |attempts|) then 0 else 1
  }

  /** Decisions the model failed to give. */
  function LostDecisions(events: seq<Event>): nat {
    if events == [] then 0
    else LostDecisions(events[..|events| - 1]) + if events[|events| - 1].DecisionFailed? then 1 else 0
  }

  lemma LostMore(s: Setup, attempts: seq<Attempt>, a: Attempt)
    ensures LostSteps(s, attempts + [a]) == LostSteps(s, attempts)
              + if a.result.Succeeded? || Repeatable(s, a, |attempts| + 1) then 0 else 1
  {
    assert (attempts + [a])[..|attempts|] == attempts;
  }

  lemma LostEvent(events: seq<Event>, e: Event)
    ensures LostDecisions(events + [e]) == LostDecisions(events) + if e.DecisionFailed? then 1 else 0
  {
    assert (events + [e])[..|events|] == events;
  }

  /** A repeatable failure is repeated: the next attempt is of its step, or is about to be made, or the task was
      stopped or broken off. */
  ghost predicate RepeatOk(s: Setup, b: Branch, i: nat)
    requires i < |b.attempts|
  {
    Repeatable(s, b.attempts[i], i + 1) ==>
      if i + 1 < |b.attempts| then b.attempts[i + 1].step == b.attempts[i].step
      else Halted(b) || b.point == Aborted || (b.point in {Inner, InFlight} && b.attempts[i].step == |b.decisions|)
  }

  ghost predicate Repeated(s: Setup, b: Branch) {
    forall i :: 0 <= i < |b.attempts| ==> RepeatOk(s, b, i)
  }

  /** One error for each step that ended without a result, and one for each decision the model failed to give. */
  ghost predicate Reported(s: Setup, b: Branch) {
    |b.errors| == LostSteps(s, b.attempts) + LostDecisions(b.events)
  }

  /** How and why the task ended. */
  ghost predicate EndsWell(s: Setup, b: Branch) {
    && (b.point != Done ==> b.stop !in {Finished, PartialFailure})
    && (b.stop == RunStopped ==> b.stopped) && (b.stop == TaskTimeout ==> b.late)
    && (b.stop == BudgetExhausted ==> b.attemptsUsed >= s.limit)
    && (b.point == Done ==>
          && b.stop != NotStarted
          && (b.stop == Finished ==> b.errors == []) && (b.stop == PartialFailure ==> b.errors != [])
          && (b.status == Unusable <==> b.observations == [])
          && (b.status == Complete <==> b.observations != [] && b.errors == [] && b.stop == Finished))
  }

  ghost predicate OutcomeOk(s: Setup, b: Branch) { Repeated(s, b) && Reported(s, b) && EndsWell(s, b) }

  lemma RepeatedStays(s: Setup, b: Branch, c: Branch)
    requires Repeated(s, b) && c.attempts == b.attempts && (Halted(b) ==> Halted(c))
    requires b.point == Aborted ==> c.point == Aborted
    requires b.point in {Inner, InFlight} ==>
               Halted(c) || (c.point in {Inner, InFlight} && |c.decisions| == |b.decisions|)
    ensures Repeated(s, c)
  {
    hide Repeatable;
    forall i | 0 <= i < |c.attempts| ensures RepeatOk(s, c, i) { assert RepeatOk(s, b, i); }
  }

  lemma SelectReports(s: Setup, b: Branch, x: Input)
    requires b.point == Outer && EndsWell(s, b)
    ensures var c := Select(s, b, x);
      && c.attempts == b.attempts && c.errors == b.errors && (Halted(b) ==> Halted(c)) && EndsWell(s, c)
      && (c.events == b.events || exists e: Event :: !e.DecisionFailed? && c.events == b.events + [e])
  {
    hide ToolInputs;
    var c := Select(s, b, x);
    if c.events != b.events { assert c.events == b.events + [c.events[|b.events|]]; }
  }

  lemma SelectKeepsOutcome(s: Setup, b: Branch, x: Input)
    requires b.point == Outer && OutcomeOk(s, b)
    ensures OutcomeOk(s, Select(s, b, x))
  {
    hide Select, LostSteps, LostDecisions, Repeated, EndsWell;
    var c := Select(s, b, x);
    SelectReports(s, b, x);
    RepeatedStays(s, b, c);
    if c.events != b.events {
      var e: Event :| !e.DecisionFailed? && c.events == b.events + [e];
      LostEvent(b.events, e);
    }
  }

  lemma ClaimKeepsOutcome(s: Setup, b: Branch, x: Input)
    requires b.point == Inner && OutcomeOk(s, b) && b.attemptsUsed < s.limit
    ensures OutcomeOk(s, TryClaim(s, b, 0, x).0)
  {
    hide LostSteps, LostDecisions, Repeated;
    RepeatedStays(s, b, TryClaim(s, b, 0, x).0);
  }

  /** What one call adds to the attempts, the errors and the events, and where it leads. */
  ghost predicate Adds(s: Setup, b: Branch, c: Branch, y: Attempt, e: Event) {
    && y.step == |b.decisions| && c.attempts == b.attempts + [y] && c.events == b.events + [e] && !e.DecisionFailed?
    && c.stop == b.stop && c.stopped == b.stopped && c.late == b.late && c.decisions == b.decisions
    && (if y.result.Succeeded? || Repeatable(s, y, b.attemptsUsed + 1) then c.errors == b.errors
        else |c.errors| == |b.errors| + 1)
    && (c.point == Inner <==> Repeatable(s, y, b.attemptsUsed + 1)) && c.point in {Inner, Deciding}
    && c.attemptsUsed == b.attemptsUsed + 1
  }

  lemma RefusalAdds(s: Setup, b: Branch, tool: Tool, number: nat, code: string, transient: bool)
    ensures Adds(s, b, AfterRefusal(s, b.(attemptsUsed := b.attemptsUsed + 1), tool, number, code, transient),
                 Attempt(|b.decisions|, number, Failed(code, transient)), ToolFailed(|b.decisions|, number, code))
  {
    hide ToolInputs;
  }

  lemma RejectionAdds(s: Setup, b: Branch, tool: Tool, number: nat, output: Output)
    ensures Adds(s, b, AfterRejection(s, b.(attemptsUsed := b.attemptsUsed + 1), tool, number, output),
                 Attempt(|b.decisions|, number, OutOfScope), ToolRejected(|b.decisions|, number))
  {
    hide ToolInputs;
  }

  lemma ResultAdds(s: Setup, b: Branch, tool: Tool, number: nat, output: Output)
    ensures Adds(s, b, AfterResult(s, b.(attemptsUsed := b.attemptsUsed + 1), tool, number, output),
                 Attempt(|b.decisions|, number, Succeeded),
                 CompletionOf(ObservationOf(s, tool, |b.decisions|, number, output)))
  {
    hide ToolInputs, ObservationOf, CompletionOf;
    CompletionIsNoFailure(ObservationOf(s, tool, |b.decisions|, number, output));
  }

  lemma CallReports(s: Setup, b: Branch, x: Input) returns (y: Attempt, e: Event)
    requires b.next.Some? && !x.call.Fatal?
    ensures Adds(s, b, CallTool(s, b, x), y, e)
  {
    hide RecordsMatchScope, Tries, AfterRefusal, AfterRejection, AfterResult, Adds, ObservationOf, CompletionOf;
    var tool, number := b.next.value, 1 + Tries(b.attempts, |b.decisions|);
    match x.call
    case Refused(code, transient) =>
      y, e := Attempt(|b.decisions|, number, Failed(code, transient)), ToolFailed(|b.decisions|, number, code);
      RefusalAdds(s, b, tool, number, code, transient);
    case Delivered(output) =>
      if RecordsMatchScope(tool, s.service, output) {
        y := Attempt(|b.decisions|, number, Succeeded);
        e := CompletionOf(ObservationOf(s, tool, |b.decisions|, number, output));
        ResultAdds(s, b, tool, number, output);
      } else {
        y, e := Attempt(|b.decisions|, number, OutOfScope), ToolRejected(|b.decisions|, number);
        RejectionAdds(s, b, tool, number, output);
      }
  }

  lemma CompletionIsNoFailure(o: Observation)
    ensures !CompletionOf(o).DecisionFailed?
  {
  }

  lemma CallBreaksOff(s: Setup, b: Branch, x: Input)
    requires b.next.Some? && x.call.Fatal?
    ensures CallTool(s, b, x) == b.(attemptsUsed := b.attemptsUsed + 1, point := Aborted)
  {
  }

  lemma CallKeepsOutcome(s: Setup, b: Branch, x: Input)
    requires b.point == InFlight && b.next.Some? && !Halted(b) && OutcomeOk(s, b) && |b.attempts| == b.attemptsUsed
    ensures OutcomeOk(s, CallTool(s, b, x))
  {
    hide CallTool, LostSteps, LostDecisions, Repeated, Repeatable;
    var c := CallTool(s, b, x);
    if x.call.Fatal? {
      CallBreaksOff(s, b, x);
      BrokenOff(s, b, c);
    } else {
      var y, e := CallReports(s, b, x);
      LostMore(s, b.attempts, y);
      LostEvent(b.events, e);
      RepeatedMore(s, b, c, y);
    }
  }

  lemma BrokenOff(s: Setup, b: Branch, c: Branch)
    requires Repeated(s, b) && c.attempts == b.attempts && c.point == Aborted
    ensures Repeated(s, c)
  {
    hide Repeatable;
    forall i | 0 <= i < |c.attempts| ensures RepeatOk(s, c, i) { assert RepeatOk(s, b, i); }
  }

  lemma RepeatedMore(s: Setup, b: Branch, c: Branch, y: Attempt)
    requires b.point == InFlight && Repeated(s, b) && |b.attempts| == b.attemptsUsed && y.step == |b.decisions|
    requires c.attempts == b.attempts + [y] && c.decisions == b.decisions && c.stopped == b.stopped && c.late == b.late
    requires c.point == Inner <==> Repeatable(s, y, b.attemptsUsed + 1)
    requires !Halted(b)
    ensures Repeated(s, c)
  {
    hide Repeatable;
    forall i | 0 <= i < |c.attempts| ensures RepeatOk(s, c, i) {
      if i < |b.attempts| { assert RepeatOk(s, b, i) && c.attempts[i] == b.attempts[i]; }
    }
  }

  lemma DecideReports(s: Setup, b: Branch, x: Input)
    requires s.modelLimit > 0
    ensures var c := Decide(s, b, 0, 0, x).0;
      && (c.events == b.events ==> c.errors == b.errors)
      && (c.events != b.events ==>
            |c.events| == |b.events| + 1 && c.events == b.events + [c.events[|b.events|]]
            && |c.errors| == |b.errors| + if c.events[|b.events|].DecisionFailed? then 1 else 0)
  {
    hide AllAdmissible, Offered, Reserves, UsedTools, NextTool, Known;
  }

  lemma DecideKeepsOutcome(s: Setup, b: Branch, x: Input)
    requires b.point == Deciding && OutcomeOk(s, b) && s.modelLimit > 0
    ensures OutcomeOk(s, Decide(s, b, 0, 0, x).0)
  {
    hide Decide, LostSteps, LostDecisions, Repeated;
    DecideFrame(s, b, 0, 0, x);
    DecideReports(s, b, x);
    var c := Decide(s, b, 0, 0, x).0;
    RepeatedStays(s, b, c);
    if c.events != b.events { LostEvent(b.events, c.events[|b.events|]); }
  }

  lemma FlightIsOpen(s: Setup, b: Branch)
    requires LedgerOk(s, b, 0) && b.point == InFlight
    ensures b.next.Some? && !Halted(b) && |b.attempts| == b.attemptsUsed
  {
    hide DecisionsOk, AttemptsOk, ObservationsOk, Tries, Retried;
  }

  lemma TryIsOpen(s: Setup, b: Branch)
    requires LedgerOk(s, b, 0) && b.point == Inner
    ensures b.attemptsUsed < s.limit
  {
    hide DecisionsOk, AttemptsOk, ObservationsOk, Tries, Retried;
  }

  lemma AdvanceKeepsOutcome(s: Setup, b: Branch, x: Input)
    requires LedgerOk(s, b, 0) && OutcomeOk(s, b) && s.modelLimit > 0
    ensures OutcomeOk(s, Advance(s, Shared(b, 0, 0), x).branch)
  {
    hide LedgerOk, OutcomeOk, Select, TryClaim, CallTool, Decide;
    match b.point
    case Outer => SelectKeepsOutcome(s, b, x);
    case Inner =>
      TryIsOpen(s, b);
      ClaimKeepsOutcome(s, b, x);
    case InFlight =>
      FlightIsOpen(s, b);
      CallKeepsOutcome(s, b, x);
    case Deciding => DecideKeepsOutcome(s, b, x);
    case Done =>
    case Aborted =>
  }

  lemma StartsWell(s: Setup)
    ensures OutcomeOk(s, Start(s))
  {
  }

  lemma {:induction false} AloneKeepsOutcome(s: Setup, inputs: seq<Input>)
    requires s.limit <= MAX_AGENT_ATTEMPTS && s.modelLimit > 0
    ensures OutcomeOk(s, Alone(s, inputs))
  {
    hide OutcomeOk, LedgerOk, LogOk, Advance;
    if inputs == [] {
      StartsWell(s);
    } else {
      AloneKeepsOutcome(s, inputs[..|inputs| - 1]);
      AloneKeepsLog(s, inputs[..|inputs| - 1]);
      AdvanceKeepsOutcome(s, Alone(s, inputs[..|inputs| - 1]), inputs[|inputs| - 1]);
    }
  }

  /** For every reply of tools and model: a transient first failure is repeated at once while an attempt is left, unless
      the task is stopped; the errors are one for each step that ended without a result and one for each decision the
      model failed to give; and a finished task says why it ended and whether its evidence is complete. */
  lemma OutcomeIsExact(s: Setup, inputs: seq<Input>)
    requires s.limit <= MAX_AGENT_ATTEMPTS && s.modelLimit > 0
    ensures Repeated(s, Alone(s, inputs)) && Reported(s, Alone(s, inputs)) && EndsWell(s, Alone(s, inputs))
  {
    hide Repeated, Reported, EndsWell, Alone;
    AloneKeepsOutcome(s, inputs);
  }

  // ------------------------------------------------------ the reserved attempt

  ghost predicate EmptyFirst(b: Branch) {
    exists i :: 0 <= i < |b.observations| && b.observations[i].tool == Logs && b.observations[i].output.total == 0
  }

  ghost predicate SomeRepeat(b: Branch) { exists i :: 0 <= i < |b.attempts| && b.attempts[i].number == 2 }

  /** After an empty first window there is room for one more attempt at every place, unless one was repeated. */
  ghost predicate Roomy(s: Setup, b: Branch) {
    EmptyFirst(b) && b.point != Aborted ==>
      && EMPTY_WINDOW in b.gaps
      && (SomeRepeat(b)
          || match b.point
             case Outer => b.attemptsUsed + (if b.next.Some? then 2 else 1) <= s.limit
             case Inner => b.attemptsUsed + (if Tries(b.attempts, |b.decisions|) == 0 then 2 else 1) <= s.limit
             case InFlight => b.attemptsUsed + (if Tries(b.attempts, |b.decisions|) == 0 then 2 else 1) <= s.limit
             case _ => b.attemptsUsed + 1 <= s.limit)
  }

  lemma SelectKeepsRoom(s: Setup, b: Branch, x: Input)
    requires b.point == Outer && Roomy(s, b)
    ensures Roomy(s, Select(s, b, x))
  {
    hide ToolInputs, Tries, EmptyFirst, SomeRepeat;
    SameSight(b, Select(s, b, x));
  }

  lemma SameSight(b: Branch, c: Branch)
    ensures c.observations == b.observations ==> (EmptyFirst(b) <==> EmptyFirst(c))
    ensures c.attempts == b.attempts ==> (SomeRepeat(b) <==> SomeRepeat(c))
  {
  }

  lemma ClaimKeepsRoom(s: Setup, b: Branch, x: Input)
    requires b.point == Inner && Roomy(s, b)
    ensures Roomy(s, TryClaim(s, b, 0, x).0)
  {
    hide Tries, EmptyFirst, SomeRepeat;
    SameSight(b, TryClaim(s, b, 0, x).0);
  }

  /** A decision leaves the room: what it may spend is one less, and so is what the rule may spend. */
  lemma DecideKeepsRoom(s: Setup, b: Branch, x: Input)
    requires b.point == Deciding && Roomy(s, b) && s.model && !s.followup && s.limit <= 3 && s.modelLimit > 0
    ensures Roomy(s, Decide(s, b, 0, 0, x).0)
  {
    hide Tries, EmptyFirst, SomeRepeat, AllAdmissible, Known, UsedTools, NextTool;
    DecideFrame(s, b, 0, 0, x);
    SameSight(b, Decide(s, b, 0, 0, x).0);
  }

  lemma CallSights(s: Setup, b: Branch, x: Input)
    requires b.next.Some? && !x.call.Fatal?
    ensures var c := CallTool(s, b, x);
      && (forall g :: g in b.gaps ==> g in c.gaps)
      && (c.observations == b.observations
          || (c.point == Deciding && |c.observations| == |b.observations| + 1
              && c.observations[..|b.observations|] == b.observations
              && c.observations[|b.observations|].tool == b.next.value
              && (b.next == Some(Logs) && c.observations[|b.observations|].output.total == 0 && !s.followup ==>
                    EMPTY_WINDOW in c.gaps)))
  {
    hide RecordsMatchScope, Tries, ToolInputs, SourceIds, CompletionOf;
  }

  lemma EmptyMore(b: Branch, c: Branch)
    requires |c.observations| == |b.observations| + 1 && c.observations[..|b.observations|] == b.observations
    ensures var o := c.observations[|b.observations|];
      EmptyFirst(c) <==> EmptyFirst(b) || (o.tool == Logs && o.output.total == 0)
  {
    var o := c.observations[|b.observations|];
    if EmptyFirst(b) {
      var i :| 0 <= i < |b.observations| && b.observations[i].tool == Logs && b.observations[i].output.total == 0;
      assert c.observations[i] == b.observations[i];
    }
    if EmptyFirst(c) && !(o.tool == Logs && o.output.total == 0) {
      var i :| 0 <= i < |c.observations| && c.observations[i].tool == Logs && c.observations[i].output.total == 0;
      assert c.observations[i] == b.observations[i];
    }
  }

  /** The first attempt of the logs is the first attempt of all. */
  lemma LogsComeFirst(s: Setup, b: Branch)
    requires LedgerOk(s, b, 0) && b.point == InFlight && b.next == Some(Logs)
    ensures |b.decisions| == 1
    ensures Tries(b.attempts, |b.decisions|) == 0 ==> b.attemptsUsed == 0
    ensures Tries(b.attempts, |b.decisions|) != 0 ==> Tries(b.attempts, |b.decisions|) == 1
  {
    hide ObservationsOk, RetryOk, Before;
    if Tries(b.attempts, |b.decisions|) == 0 { TriesSome(b.attempts, |b.decisions|); }
  }

  lemma TriesAreFew(s: Setup, b: Branch)
    requires LedgerOk(s, b, 0) && b.point == InFlight
    ensures b.next.Some? && Tries(b.attempts, |b.decisions|) <= 1
  {
    hide DecisionsOk, AttemptsOk, ObservationsOk, CountsOk, Tries;
  }

  lemma CallKeepsRoom(s: Setup, b: Branch, x: Input)
    requires LedgerOk(s, b, 0) && b.point == InFlight && Roomy(s, b) && 2 <= s.limit && !s.followup
    ensures Roomy(s, CallTool(s, b, x))
  {
    hide LedgerOk, CallTool, Tries, EmptyFirst, SomeRepeat, Repeatable;
    TriesAreFew(s, b);
    var c := CallTool(s, b, x);
    if x.call.Fatal? {
      CallBreaksOff(s, b, x);
    } else {
      var tries := Tries(b.attempts, |b.decisions|);
      CallSights(s, b, x);
      var y, e := CallReports(s, b, x);
      var z := CallToolAdds(s, b, x);
      TriesOnce(b.attempts, z);
      RepeatsMore(b, c, z);
      SameSight(b, c);
      if c.observations != b.observations { EmptyMore(b, c); }
      if b.next == Some(Logs) { LogsComeFirst(s, b); }
    }
  }

  lemma RepeatsMore(b: Branch, c: Branch, y: Attempt)
    requires c.attempts == b.attempts + [y]
    ensures SomeRepeat(c) <==> SomeRepeat(b) || y.number == 2
  {
    assert c.attempts[|b.attempts|] == y;
    if SomeRepeat(b) {
      var i :| 0 <= i < |b.attempts| && b.attempts[i].number == 2;
      assert c.attempts[i] == b.attempts[i];
    }
  }

  lemma AdvanceKeepsRoom(s: Setup, b: Branch, x: Input)
    requires LedgerOk(s, b, 0) && Roomy(s, b) && s.model && !s.followup && 2 <= s.limit <= 3 && s.modelLimit > 0
    ensures Roomy(s, Advance(s, Shared(b, 0, 0), x).branch)
  {
    hide LedgerOk, Roomy, Select, TryClaim, CallTool, Decide;
    match b.point
    case Outer => SelectKeepsRoom(s, b, x);
    case Inner => ClaimKeepsRoom(s, b, x);
    case InFlight => if b.next.Some? { CallKeepsRoom(s, b, x); }
    case Deciding => DecideKeepsRoom(s, b, x);
    case Done =>
    case Aborted =>
  }

  lemma StartsRoomy(s: Setup)
    ensures Roomy(s, Start(s))
  {
  }

  lemma {:induction false} AloneKeepsRoom(s: Setup, inputs: seq<Input>)
    requires s.model && !s.followup && 2 <= s.limit <= 3 && s.modelLimit > 0
    ensures Roomy(s, Alone(s, inputs))
  {
    hide Roomy, LedgerOk, LogOk, Advance;
    if inputs == [] {
      StartsRoomy(s);
    } else {
      AloneKeepsRoom(s, inputs[..|inputs| - 1]);
      AloneKeepsLog(s, inputs[..|inputs| - 1]);
      AdvanceKeepsRoom(s, Alone(s, inputs[..|inputs| - 1]), inputs[|inputs| - 1]);
    }
  }

  /** With a model, a service whose first window was empty always has an attempt left for the wider one, whatever the
      model and the tools do, unless a transient failure was repeated. */
  lemma FollowupAttemptIsKept(s: Setup, inputs: seq<Input>)
    requires s.model && !s.followup && s.limit == MAX_AGENT_ATTEMPTS && s.modelLimit > 0
    requires Alone(s, inputs).point == Done
    requires exists i :: 0 <= i < |Alone(s, inputs).observations| && Alone(s, inputs).observations[i].tool == Logs
                         && Alone(s, inputs).observations[i].output.total == 0
    requires forall i :: 0 <= i < |Alone(s, inputs).attempts| ==> Alone(s, inputs).attempts[i].number == 1
    ensures EMPTY_WINDOW in Alone(s, inputs).gaps && Alone(s, inputs).attemptsUsed < MAX_AGENT_ATTEMPTS
  {
    hide Alone;
    AloneKeepsRoom(s, inputs);
  }

  // -------------------------------------------------------------- the follow-up

  /** A task that is not stopped asks at least the logs. */
  ghost predicate AsksSomething(b: Branch) {
    b.decisions == [] ==>
      Halted(b) || b.point == Aborted || (b.point == Outer && b.next == Some(Logs) && b.attemptsUsed == 0)
  }

  lemma AdvanceKeepsAsking(s: Setup, b: Branch, x: Input)
    requires AsksSomething(b) && s.limit >= 1
    ensures AsksSomething(Advance(s, Shared(b, 0, 0), x).branch)
  {
    hide ToolInputs, CallTool, Decide;
    if b.point == InFlight && b.next.Some? { CallLeavesDecisions(s, b, x); }
    if b.point == Deciding { DecideFrame(s, b, 0, 0, x); }
  }

  lemma CallLeavesDecisions(s: Setup, b: Branch, x: Input)
    requires b.next.Some?
    ensures var c := CallTool(s, b, x); c.decisions == b.decisions && c.stopped == b.stopped && c.late == b.late
  {
    hide RecordsMatchScope, Tries, ToolInputs, ObservationOf, CompletionOf;
  }

  lemma {:induction false} AloneKeepsAsking(s: Setup, inputs: seq<Input>)
    requires s.limit >= 1
    ensures AsksSomething(Alone(s, inputs))
  {
    hide Advance;
    if inputs != [] {
      AloneKeepsAsking(s, inputs[..|inputs| - 1]);
      AdvanceKeepsAsking(s, Alone(s, inputs[..|inputs| - 1]), inputs[|inputs| - 1]);
    }
  }

  /** A follow-up has exactly the attempts its service has left, and, when it is not stopped, asks the logs of the last
      24 hours and nothing else. */
  lemma FollowupLooksWider(
    c: Settings, services: seq<string>, moves: seq<Move>, k: nat, prior: set<EvidenceId>, inputs: seq<Input>)
    requires |services| <= 3 && k < |services|
    requires PlayAll(Dispatch(c, services), moves).branches[k].point == Done
    requires PlayAll(Dispatch(c, services), moves).branches[k].attemptsUsed < MAX_AGENT_ATTEMPTS
    ensures var t := PlayAll(Dispatch(c, services), moves);
      var b := RunFollowUp(t, k, prior, inputs).branch;
      && FollowupSetup(Outcome(t.setups[k], t.branches[k]), prior).limit + t.branches[k].attemptsUsed == 3
      && (b.point == Done && !Halted(b) ==> b.decisions == [Decision(Logs, LogInputs(services[k], 24 * 60, 20))])
  {
    hide Advance, Start, Alone, PlayAll;
    FollowUpStaysInBudget(c, services, moves, k, prior, inputs);
    var t := PlayAll(Dispatch(c, services), moves);
    SetupIs(c, services, k);
    var s := FollowupSetup(Outcome(t.setups[k], t.branches[k]), prior);
    AloneKeepsAsking(s, inputs);
    AloneKeepsLog(s, inputs);
    if Alone(s, inputs).decisions != [] { WideOnly(s, Alone(s, inputs)); }
  }

  lemma SetupIs(c: Settings, services: seq<string>, k: nat)
    requires k < |services|
    ensures Dispatch(c, services).setups[k].service == services[k]
  {
  }

  lemma WideOnly(s: Setup, b: Branch)
    requires LedgerOk(s, b, 0) && s.followup && b.decisions != []
    ensures b.decisions == [Decision(Logs, LogInputs(s.service, 24 * 60, 20))]
  {
    hide AttemptsOk, ObservationsOk, PointOk, CountsOk;
  }
}
