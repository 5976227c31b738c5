/** The investigation as the source runs it: nested loops over a task whose fields change in place. */
module Investigator {
  import opened Options
  import opened Investigation

  class ToolBudget {
    const limit: nat
    var used: nat

    constructor (limit: nat)
      ensures this.limit == limit && used == 0
    {
      this.limit := limit;
      used := 0;
    }

    method Claim() returns (granted: bool)
      modifies this`used
      ensures granted == (old(used) < limit)
      ensures used == old(used) + if granted then 1 else 0
    {
      if used >= limit { return false; }
      used := used + 1;
      return true;
    }
  }

  class TaskRun {
    const setup: Setup
    const budget: ToolBudget
    const models: ToolBudget

    var next: Option<Tool>
    var failed: bool
    var total: int
    var stopped: bool
    var late: bool
    var attemptsUsed: nat
    var attempts: seq<Attempt>
    var decisions: seq<Decision>
    var observations: seq<Observation>
    var errors: seq<string>
    var gaps: set<string>
    var findings: seq<Claim>
    var stop: Stop
    var status: TaskStatus
    var decides: nat
    var calls: seq<Call>
    var events: seq<Event>

    constructor (setup: Setup, budget: ToolBudget, models: ToolBudget)
      ensures this.setup == setup && this.budget == budget && this.models == models
      ensures At(Outer) == Start(setup)
    {
      this.setup, this.budget, this.models := setup, budget, models;
      next, failed, total, stopped, late := Some(Logs), false, 0, false, false;
      attemptsUsed, attempts, decisions, observations := 0, [], [], [];
      errors, gaps, findings, stop, status, decides := [], {}, [], NotStarted, Unusable, 0;
      calls, events := [], [TaskStarted];
    }

    ghost predicate Valid()
      reads this
    {
      budget != models && budget.limit == MAX_TOOL_ATTEMPTS && models.limit == setup.modelLimit
    }

    /** The branch at a place of the loops. */
    ghost function At(point: Point): Branch
      reads this
    {
      Branch(point, next, failed, total, stopped, late, attemptsUsed, attempts, decisions, observations,
             errors, gaps, findings, stop, status, decides, calls, events)
    }

    ghost function Here(point: Point): Shared
      reads this, budget, models
    {
      Shared(At(point), budget.used, models.used)
    }

    /** Other branches claim attempts and decisions. */
    method Yield(t: Turn)
      requires Valid()
      modifies budget, models
      ensures forall p :: Here(p) == Others(old(Here(p)), t)
    {
      budget.used := budget.used + t.tools;
      models.used := models.used + t.decisions;
    }

    method Look(x: Input)
      modifies this`stopped, this`late
      ensures forall p :: At(p) == Seen(old(At(p)), x)
    {
      stopped := stopped || x.stop;
      late := late || x.late;
    }

    method Finish()
      modifies this`stop, this`status, this`events
      ensures At(Done) == Ended(old(At(Outer)))
    {
      if stop == NotStarted {
        stop := if next.Some? then BudgetExhausted else if errors != [] then PartialFailure else Finished;
      }
      var incomplete := stop in {BudgetExhausted, TaskTimeout, RunStopped};
      if observations == [] {
        status := Unusable;
      } else if errors != [] || incomplete {
        status := Partial;
      } else {
        status := Complete;
      }
      events := events + [TaskFinished];
    }

    /** The checks before a tool is selected, and its selection. */
    method SelectTool(x: Input) returns (point: Point)
      requires next.Some? && attemptsUsed < setup.limit
      modifies this
      ensures point in {Inner, Done, Aborted}
      ensures At(point) == Select(setup, old(At(Outer)), x)
      ensures point != Done ==> attemptsUsed == old(attemptsUsed) && !stopped && !late
      ensures point == Inner ==> next.Some? && stop == old(stop)
      ensures old(stopped || late) ==> point == Done
    {
      Look(x);
      if stopped {
        stop := RunStopped;
        Finish();
        return Done;
      }
      if late {
        stop := TaskTimeout;
        Finish();
        return Done;
      }
      if next.value !in setup.low { return Aborted; }
      decisions := decisions + [Decision(next.value, ToolInputs(next.value, setup.service, setup.followup))];
      events := events + [ToolSelected(|decisions|)];
      failed := false;
      return Inner;
    }

    /** Stop the attempts of this tool. */
    method CutShort(reason: Stop)
      modifies this`stop, this`failed, this`next
      ensures At(Deciding) == Investigation.CutShort(old(At(Inner)), reason)
    {
      stop := reason;
      failed := true;
      next := None;
    }

    /** The checks before an attempt, and the claim on the shared budget. */
    method ClaimAttempt(x: Input) returns (point: Point)
      requires Valid()
      modifies this`stopped, this`late, this`stop, this`failed, this`next, budget`used
      ensures point in {InFlight, Deciding}
      ensures (At(point), budget.used) == TryClaim(setup, old(At(Inner)), old(budget.used), x)
      ensures point == InFlight ==> next == old(next) && stop == old(stop) && attemptsUsed < setup.limit
      ensures point == Deciding ==> next.None? && stop != NotStarted
      ensures point == Deciding && stop == BudgetExhausted ==>
                attemptsUsed >= setup.limit || budget.used >= MAX_TOOL_ATTEMPTS
      ensures point == Deciding && stop != BudgetExhausted ==> stopped || late
    {
      Look(x);
      if stopped {
        CutShort(RunStopped);
        return Deciding;
      }
      if late {
        CutShort(TaskTimeout);
        return Deciding;
      }
      if attemptsUsed >= setup.limit {
        CutShort(BudgetExhausted);
        return Deciding;
      }
      var granted := budget.Claim();
      if !granted {
        CutShort(BudgetExhausted);
        return Deciding;
      }
      return InFlight;
    }

    /** How often the current step was tried, counted over the recorded attempts. */
    method CountTries(step: nat) returns (tries: nat)
      ensures tries == Tries(attempts, step)
    {
      tries := 0;
      for i := 0 to |attempts|
        invariant tries == Tries(attempts[..i], step)
      {
        assert attempts[..i + 1][..i] == attempts[..i];
        if attempts[i].step == step { tries := tries + 1; }
      }
      assert attempts[..|attempts|] == attempts;
    }

    /** One record each in the attempts, the trace and the call log. */
    method Note(attempt: Attempt, event: Event, call: Call)
      modifies this`attempts, this`events, this`calls
      ensures At(InFlight) == old(At(InFlight)).(attempts := old(attempts) + [attempt], events := old(events) + [event],
                                                 calls := old(calls) + [call])
    {
      calls := calls + [call];
      attempts := attempts + [attempt];
      events := events + [event];
    }

    method RecordFailure(tool: Tool, number: nat, code: string, transient: bool) returns (point: Point)
      modifies this`failed, this`attempts, this`errors, this`calls, this`events
      ensures point in {Inner, Deciding}
      ensures At(point) == AfterRefusal(setup, old(At(InFlight)), tool, number, code, transient)
    {
      hide ToolInputs;
      Note(Attempt(|decisions|, number, Failed(code, transient)), ToolFailed(|decisions|, number, code),
           Call(tool, ToolInputs(tool, setup.service, setup.followup), false, Output(0, [])));
      if setup.retry && transient && number == 1 && attemptsUsed < setup.limit { return Inner; }
      errors := errors + [code];
      failed := true;
      return Deciding;
    }

    method RecordRejection(tool: Tool, number: nat, output: Output)
      modifies this`failed, this`attempts, this`errors, this`calls, this`events
      ensures At(Deciding) == AfterRejection(setup, old(At(InFlight)), tool, number, output)
    {
      hide ToolInputs;
      Note(Attempt(|decisions|, number, OutOfScope), ToolRejected(|decisions|, number),
           Call(tool, ToolInputs(tool, setup.service, setup.followup), true, output));
      errors := errors + ["SERVICE_SCOPE_MISMATCH"];
      failed := true;
    }

    method RecordObservation(tool: Tool, number: nat, output: Output)
      modifies this`total, this`attempts, this`observations, this`gaps, this`calls, this`events
      ensures At(Deciding) == AfterResult(setup, old(At(InFlight)), tool, number, output)
    {
      hide ToolInputs, ObservationOf, CompletionOf;
      var seen := ObservationOf(setup, tool, |decisions|, number, output);
      Note(Attempt(|decisions|, number, Succeeded), CompletionOf(seen),
           Call(tool, ToolInputs(tool, setup.service, setup.followup), true, output));
      total := output.total;
      observations := observations + [seen];
      if tool == Logs && total == 0 && !setup.followup { gaps := gaps + {EMPTY_WINDOW}; }
    }

    /** Call the tool under a claimed attempt. */
    method CallTool(x: Input) returns (point: Point)
      requires next.Some?
      modifies this`failed, this`total, this`attemptsUsed, this`attempts, this`observations, this`errors,
        this`gaps, this`calls, this`events
      ensures point in {Inner, Deciding, Aborted}
      ensures At(point) == Investigation.CallTool(setup, old(At(InFlight)), x)
      ensures attemptsUsed == old(attemptsUsed) + 1
    {
      hide RecordsMatchScope, Tries, AfterRefusal, AfterRejection, AfterResult;
      attemptsUsed := attemptsUsed + 1;
      var tries := CountTries(|decisions|);
      match x.call
      case Fatal =>
        return Aborted;
      case Refused(code, transient) =>
        point := RecordFailure(next.value, 1 + tries, code, transient);
      case Delivered(output) =>
        if RecordsMatchScope(next.value, setup.service, output) {
          RecordObservation(next.value, 1 + tries, output);
        } else {
          RecordRejection(next.value, 1 + tries, output);
        }
        return Deciding;
    }

    /** The next tool by the fixed rule. */
    method Follow()
      modifies this`next
      ensures At(Outer) == FollowRule(setup, old(At(Deciding)))
      ensures old(next).None? ==> next.None?
    {
      if setup.followup || next.None? {
        next := None;
      } else if failed {
        next := NextTool(next.value, true, total);
      } else {
        next := NextTool(next.value, false, total);
      }
    }

    /** What the model may still spend, and whether an attempt is kept back. */
    method Remaining() returns (remaining: int, reserve: bool)
      requires Valid()
      ensures remaining == Offered(setup, At(Deciding), budget.used) && reserve == Reserves(setup, At(Deciding))
      ensures attemptsUsed >= setup.limit || budget.used >= MAX_TOOL_ATTEMPTS ==> remaining <= 0
    {
      remaining := if setup.followup then 0 else Min(setup.limit - attemptsUsed, budget.limit - budget.used);
      reserve := !setup.followup && EMPTY_WINDOW in gaps;
      if reserve { remaining := Max(0, remaining - 1); }
    }

    method ModelFailed(remaining: int, reserve: bool)
      requires Valid()
      requires remaining == Offered(setup, At(Deciding), budget.used) && reserve == Reserves(setup, At(Deciding))
      modifies this`next, this`errors, this`events
      ensures At(Outer) == AfterModelFailure(setup, old(At(Deciding)), budget.used)
      ensures old(next).None? ==> next.None?
    {
      hide FollowRule, Offered, Reserves;
      errors := errors + ["INVESTIGATOR_LLM_FAILED"];
      events := events + [DecisionFailed];
      if reserve && remaining == 0 { next := None; }
      Follow();
    }

    /** The claims of an accepted reply, numbered in order, become the findings. */
    method TakeProposal(reply: ModelReply)
      requires reply.Proposal?
      modifies this`next, this`gaps, this`findings, this`events
      ensures At(Outer) == AfterProposal(setup, old(At(Deciding)), reply)
      ensures next == reply.next
    {
      var numbered: seq<Claim> := [];
      for i := 0 to |reply.claims|
        invariant numbered == NumberClaims(setup.index, Task(setup), reply.claims)[..i]
      {
        numbered := numbered + [reply.claims[i].(id := ClaimId(setup.index, Task(setup), i + 1))];
      }
      findings := numbered;
      gaps := (gaps * {EMPTY_WINDOW}) + reply.gaps;
      events := events + [DecisionMade(reply.next)];
      next := reply.next;
    }

    /** The checks of a reply of the model. */
    method Check(reply: ModelReply, remaining: int) returns (ok: bool)
      requires remaining == Offered(setup, At(Deciding), budget.used)
      ensures ok == Acceptable(setup, At(Deciding), budget.used, reply)
      ensures ok ==> reply.Proposal? && (remaining <= 0 ==> reply.next.None?)
    {
      hide Admissible, Offered;
      if !reply.Proposal? || |reply.claims| > MAX_CLAIMS { return false; }
      var known := setup.prior + set i | 0 <= i < |observations| :: observations[i].id;
      for i := 0 to |reply.claims|
        invariant forall j :: 0 <= j < i ==> Admissible(reply.claims[j], known)
      {
        if !Admissible(reply.claims[i], known) { return false; }
      }
      if reply.next.None? { return true; }
      return remaining > 0 && reply.next.value != Logs && reply.next.value !in UsedTools(decisions);
    }

    /** A granted question to the model. */
    method Ask(x: Input, remaining: int, reserve: bool) returns (point: Point)
      requires Valid()
      requires remaining == Offered(setup, At(Deciding), budget.used) && reserve == Reserves(setup, At(Deciding))
      requires attemptsUsed >= setup.limit || budget.used >= MAX_TOOL_ATTEMPTS ==> remaining <= 0
      modifies this`next, this`errors, this`gaps, this`findings, this`events
      ensures point in {Outer, Aborted}
      ensures At(point) == if x.model.Broken? then old(At(Aborted))
                           else if Acceptable(setup, old(At(Deciding)), budget.used, x.model) then
                             AfterProposal(setup, old(At(Deciding)), x.model)
                           else AfterModelFailure(setup, old(At(Deciding)), budget.used)
      ensures old(next).None? && (attemptsUsed >= setup.limit || budget.used >= MAX_TOOL_ATTEMPTS) ==> next.None?
    {
      hide Acceptable, AfterProposal, AfterModelFailure, Offered, Reserves;
      if x.model.Broken? { return Aborted; }
      var ok := Check(x.model, remaining);
      if ok {
        TakeProposal(x.model);
      } else {
        ModelFailed(remaining, reserve);
      }
      return Outer;
    }

    /** Ask the model, when there is one, for the next tool; fall back on the rule when it fails. */
    method DecideNext(x: Input) returns (point: Point)
      requires Valid()
      modifies this`next, this`errors, this`gaps, this`findings, this`decides, this`events, models`used
      ensures point in {Outer, Aborted}
      ensures (At(point), models.used) == Decide(setup, old(At(Deciding)), budget.used, old(models.used), x)
      ensures old(next).None? && (attemptsUsed >= setup.limit || budget.used >= MAX_TOOL_ATTEMPTS) ==> next.None?
    {
      hide FollowRule, Acceptable, AfterProposal, AfterModelFailure, Offered, Reserves;
      if !setup.model {
        Follow();
        return Outer;
      }
      var granted := models.Claim();
      if granted { decides := decides + 1; }
      var remaining, reserve := Remaining();
      if !granted {
        ModelFailed(remaining, reserve);
        return Outer;
      }
      point := Ask(x, remaining, reserve);
    }

    // Each place of the loops takes one turn of the world: others move, then this task does.

    ghost predicate On(point: Point, first: Shared, world: nat -> Turn, n: nat)
      reads this, budget, models
    {
      Here(point) == Drive(setup, first, world, n)
    }

    lemma NoTurns(world: nat -> Turn)
      requires At(Outer) == Start(setup)
      ensures On(Outer, Here(Outer), world, 0) && stop == NotStarted
      ensures Here(Outer) == Shared(Start(setup), budget.used, models.used)
    {
    }

    method SelectTurn(ghost first: Shared, world: nat -> Turn, n: nat) returns (point: Point)
      requires Valid() && next.Some? && attemptsUsed < setup.limit && On(Outer, first, world, n)
      modifies this, budget, models
      ensures point in {Inner, Done, Aborted} && On(point, first, world, n + 1)
      ensures point == Inner ==>
                next.Some? && stop == old(stop) && attemptsUsed == old(attemptsUsed) && !old(stopped || late)
    {
      hide Select;
      Yield(world(n));
      point := SelectTool(world(n).input);
    }

    method ClaimTurn(ghost first: Shared, world: nat -> Turn, n: nat) returns (point: Point)
      requires Valid() && On(Inner, first, world, n)
      modifies this`stopped, this`late, this`stop, this`failed, this`next, budget, models
      ensures point in {InFlight, Deciding} && On(point, first, world, n + 1)
      ensures point == InFlight ==> next == old(next) && stop == old(stop) && attemptsUsed < setup.limit
      ensures point == Deciding ==> next.None? && stop != NotStarted
      ensures point == Deciding && stop == BudgetExhausted ==>
                attemptsUsed >= setup.limit || budget.used >= MAX_TOOL_ATTEMPTS
      ensures point == Deciding && stop != BudgetExhausted ==> stopped || late
    {
      hide TryClaim;
      Yield(world(n));
      point := ClaimAttempt(world(n).input);
    }

    method CallTurn(ghost first: Shared, world: nat -> Turn, n: nat) returns (point: Point)
      requires Valid() && next.Some? && On(InFlight, first, world, n)
      modifies this`failed, this`total, this`attemptsUsed, this`attempts, this`observations, this`errors,
        this`gaps, this`calls, this`events, budget, models
      ensures point in {Inner, Deciding, Aborted} && On(point, first, world, n + 1)
      ensures attemptsUsed == old(attemptsUsed) + 1
    {
      hide Investigation.CallTool;
      Yield(world(n));
      point := CallTool(world(n).input);
    }

    method DecideTurn(ghost first: Shared, world: nat -> Turn, n: nat) returns (point: Point)
      requires Valid() && On(Deciding, first, world, n)
      modifies this`next, this`errors, this`gaps, this`findings, this`decides, this`events, budget, models
      ensures point in {Outer, Aborted} && On(point, first, world, n + 1)
      ensures old(next.None? && (attemptsUsed >= setup.limit || budget.used >= MAX_TOOL_ATTEMPTS)) ==> next.None?
    {
      hide Decide;
      Yield(world(n));
      point := DecideNext(world(n).input);
    }

    method LastTurn(ghost first: Shared, world: nat -> Turn, n: nat)
      requires Valid() && (next.None? || attemptsUsed >= setup.limit) && On(Outer, first, world, n)
      modifies this`stop, this`status, this`events, budget, models
      ensures On(Done, first, world, n + 1)
    {
      hide Ended;
      Yield(world(n));
      Finish();
    }

    /** The whole investigation; it ends, and it does what the step function does. */
    method Run(world: nat -> Turn) returns (point: Point, turns: nat)
      requires Valid() && At(Outer) == Start(setup)
      modifies this, budget, models
      ensures point == Done || point == Aborted
      ensures On(point, Shared(Start(setup), old(budget.used), old(models.used)), world, turns)
    {
      hide Drive, On, At, Here;
      ghost var first := Here(Outer);
      turns := 0;
      NoTurns(world);
      while next.Some? && attemptsUsed < setup.limit
        invariant On(Outer, first, world, turns)
        invariant next.Some? && stop != NotStarted ==> stopped || late
        decreases setup.limit - attemptsUsed, stop == NotStarted
      {
        point := SelectTurn(first, world, turns);
        turns := turns + 1;
        if point != Inner { return; }
        ghost var spent := attemptsUsed;
        while point == Inner
          invariant point in {Inner, Deciding, Aborted} && On(point, first, world, turns)
          invariant point == Inner ==> next.Some? && stop == NotStarted && attemptsUsed >= spent
          invariant point == Deciding ==> attemptsUsed > spent || (attemptsUsed == spent && stop != NotStarted)
          invariant point == Deciding && stop == BudgetExhausted ==>
                      next.None? && (attemptsUsed >= setup.limit || budget.used >= MAX_TOOL_ATTEMPTS)
          invariant point == Deciding && stop != NotStarted && stop != BudgetExhausted ==> stopped || late
          decreases point == Inner, setup.limit - attemptsUsed
        {
          point := ClaimTurn(first, world, turns);
          turns := turns + 1;
          if point == InFlight {
            point := CallTurn(first, world, turns);
            turns := turns + 1;
          }
        }
        if point == Aborted { return; }
        point := DecideTurn(first, world, turns);
        turns := turns + 1;
        if point == Aborted { return; }
      }
      LastTurn(first, world, turns);
      return Done, turns + 1;
    }
  }
}
