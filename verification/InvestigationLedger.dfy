/** What every investigation keeps, for every reply of the tools and of the model. */
module InvestigationLedger {
  import opened Options
  import opened Investigation

  // ------------------------------------------------------------- predicates

  /** The orders in which tools can be selected. */
  predicate Order(decisions: seq<Decision>) {
    && |decisions| <= 3
    && (|decisions| >= 1 ==> decisions[0].tool == Logs)
    && (|decisions| >= 2 ==> decisions[1].tool != Logs)
    && (|decisions| == 3 ==> decisions[2].tool != Logs && decisions[2].tool != decisions[1].tool)
  }

  ghost predicate DecisionsOk(s: Setup, decisions: seq<Decision>) {
    && Order(decisions)
    && (s.followup ==> |decisions| <= 1)
    && forall i :: 0 <= i < |decisions| ==>
         decisions[i].inputs == ToolInputs(decisions[i].tool, s.service, s.followup)
  }

  /** The second attempt of a step comes directly after a transient first failure of that step. */
  ghost predicate RetryOk(attempts: seq<Attempt>, i: nat)
    requires i < |attempts|
  {
    attempts[i].number == 2 ==>
      && i > 0 && attempts[i - 1].step == attempts[i].step && attempts[i - 1].number == 1
      && attempts[i - 1].result.Failed? && attempts[i - 1].result.transient
  }

  predicate Before(x: Attempt, y: Attempt) { x.step < y.step || (x.step == y.step && x.number < y.number) }

  ghost predicate AttemptsOk(attempts: seq<Attempt>, steps: nat) {
    && (forall i :: 0 <= i < |attempts| ==> 1 <= attempts[i].step <= steps && 1 <= attempts[i].number <= 2)
    && (forall i :: 0 <= i < |attempts| ==> RetryOk(attempts, i))
    && (forall i, j :: 0 <= i < j < |attempts| ==> Before(attempts[i], attempts[j]))
  }

  /** The evidence the completed attempts stand for, in order. */
  function CompletedIds(s: Setup, attempts: seq<Attempt>): seq<EvidenceId> {
    if attempts == [] then []
    else
      var last := attempts[|attempts| - 1];
      CompletedIds(s, attempts[..|attempts| - 1])
      + if last.result.Succeeded? then [EvidenceId(s.run, Task(s), last.step, last.number)] else []
  }

  function Ids(observations: seq<Observation>): (ids: seq<EvidenceId>)
    ensures |ids| == |observations|
  {
    seq(|observations|, i requires 0 <= i < |observations| => observations[i].id)
  }

  /** An observation is what its selected tool returned for this service, and nothing out of scope. */
  ghost predicate ObservationOk(s: Setup, decisions: seq<Decision>, o: Observation) {
    && o.step == 0 && o.agent == s.index && o.task == Task(s) && o.service == s.service
    && 1 <= o.id.step <= |decisions| && o.id == EvidenceId(s.run, Task(s), o.id.step, o.attempt)
    && o.tool == decisions[o.id.step - 1].tool && o.inputs == ToolInputs(o.tool, s.service, s.followup)
    && RecordsMatchScope(o.tool, s.service, o.output)
    && o.status == (if o.output.total == 0 then EmptySuccess else SuccessWithData)
    && o.sources == SourceIds(o.output)
  }

  ghost predicate ObservationsOk(
    s: Setup, decisions: seq<Decision>, attempts: seq<Attempt>, observations: seq<Observation>)
  {
    && Ids(observations) == CompletedIds(s, attempts)
    && forall i :: 0 <= i < |observations| ==> ObservationOk(s, decisions, observations[i])
  }

  /** The last attempt was the transient first failure of the current step. */
  ghost predicate Retried(b: Branch) {
    && |b.attempts| > 0
    && Tries(b.attempts, |b.decisions|) == 1
    && b.attempts[|b.attempts| - 1].step == |b.decisions| && b.attempts[|b.attempts| - 1].number == 1
    && b.attempts[|b.attempts| - 1].result.Failed? && b.attempts[|b.attempts| - 1].result.transient
  }

  ghost predicate CountsOk(s: Setup, b: Branch, used: nat) {
    && b.attemptsUsed <= s.limit
    && |b.attempts| <= b.attemptsUsed
    && (b.point != Aborted ==> |b.attempts| == b.attemptsUsed)
    && b.decides <= s.limit && b.decides <= |b.decisions| && b.decides <= b.attemptsUsed + 1
    && (b.decides == b.attemptsUsed + 1 ==> Halted(b) || used >= MAX_TOOL_ATTEMPTS)
    && (b.point != Done && b.stop == BudgetExhausted ==> used >= MAX_TOOL_ATTEMPTS)
  }

  ghost predicate Trying(s: Setup, b: Branch) {
    && |b.decisions| >= 1 && b.next == Some(b.decisions[|b.decisions| - 1].tool)
    && !Halted(b) && b.stop == NotStarted
    && b.attemptsUsed < s.limit && b.attemptsUsed + 1 >= |b.decisions|
    && b.decides < |b.decisions| && b.decides <= b.attemptsUsed
    && (Tries(b.attempts, |b.decisions|) == 0 || Retried(b))
  }

  ghost predicate Choosing(s: Setup, b: Branch) {
    && (b.next.Some? && !Halted(b) ==> b.attemptsUsed >= |b.decisions|)
    && (b.next.Some? && |b.decisions| < 3 ==> b.next.value !in UsedTools(b.decisions))
    && (b.next.Some? && |b.decisions| == 0 ==> b.next.value == Logs)
    && (b.next.Some? && s.followup ==> |b.decisions| == 0)
    && (b.stop == NotStarted ==> b.decides <= b.attemptsUsed)
    && (b.stop == NotStarted || b.next.None? || Halted(b))
  }

  ghost predicate Judging(s: Setup, b: Branch) {
    && |b.decisions| >= 1 && b.decides < |b.decisions|
    && (b.next.Some? ==>
          && b.next == Some(b.decisions[|b.decisions| - 1].tool) && b.stop == NotStarted
          && b.attemptsUsed >= |b.decisions| && b.decides < b.attemptsUsed)
    && (b.next.None? ==> b.stop != NotStarted && b.decides <= b.attemptsUsed < s.limit)
    && (b.stop != NotStarted ==> b.stop == BudgetExhausted || Halted(b))
  }

  /** What is known at each place of the loops. */
  ghost predicate PointOk(s: Setup, b: Branch) {
    match b.point
    case Outer => Choosing(s, b)
    case Inner => Trying(s, b)
    case InFlight => Trying(s, b)
    case Deciding => Judging(s, b)
    case Done => true
    case Aborted => true
  }

  ghost predicate LedgerOk(s: Setup, b: Branch, used: nat) {
    && DecisionsOk(s, b.decisions) && AttemptsOk(b.attempts, |b.decisions|)
    && ObservationsOk(s, b.decisions, b.attempts, b.observations)
    && PointOk(s, b) && CountsOk(s, b, used)
  }

  // ------------------------------------------------------------ small lemmas

  lemma {:induction false} TriesNone(attempts: seq<Attempt>, step: nat)
    requires forall i :: 0 <= i < |attempts| ==> attempts[i].step != step
    ensures Tries(attempts, step) == 0
  {
    if attempts != [] { TriesNone(attempts[..|attempts| - 1], step); }
  }

  lemma {:induction false} TriesSome(attempts: seq<Attempt>, step: nat)
    requires Tries(attempts, step) == 0
    ensures forall i :: 0 <= i < |attempts| ==> attempts[i].step != step
  {
    if attempts != [] { TriesSome(attempts[..|attempts| - 1], step); }
  }

  lemma TriesOnce(attempts: seq<Attempt>, x: Attempt)
    ensures Tries(attempts + [x], x.step) == Tries(attempts, x.step) + 1
  {
    assert (attempts + [x])[..|attempts|] == attempts;
  }

  lemma CompletedOnce(s: Setup, attempts: seq<Attempt>, x: Attempt)
    ensures CompletedIds(s, attempts + [x])
         == CompletedIds(s, attempts) + if x.result.Succeeded? then [EvidenceId(s.run, Task(s), x.step, x.number)] else []
  {
    assert (attempts + [x])[..|attempts|] == attempts;
  }

  lemma IdsOnce(observations: seq<Observation>, o: Observation)
    ensures Ids(observations + [o]) == Ids(observations) + [o.id]
  {
  }

  /** A new attempt of the current step keeps the order of attempts. */
  lemma AttemptAdded(b: Branch, x: Attempt)
    requires AttemptsOk(b.attempts, |b.decisions|) && |b.decisions| >= 1
    requires x.step == |b.decisions| && x.number == 1 + Tries(b.attempts, |b.decisions|)
    requires Tries(b.attempts, |b.decisions|) == 0 || Retried(b)
    ensures AttemptsOk(b.attempts + [x], |b.decisions|)
  {
    var more := b.attempts + [x];
    var k := |b.attempts|;
    if Tries(b.attempts, |b.decisions|) == 0 { TriesSome(b.attempts, |b.decisions|); }
    forall i | 0 <= i < k ensures Before(b.attempts[i], x) {
      assert i < k - 1 ==> Before(b.attempts[i], b.attempts[k - 1]);
    }
    forall i | 0 <= i < |more| ensures RetryOk(more, i) {
      assert i < k ==> RetryOk(b.attempts, i);
    }
  }

  lemma ObservationStays(s: Setup, decisions: seq<Decision>, d: Decision, observations: seq<Observation>)
    requires forall i :: 0 <= i < |observations| ==> ObservationOk(s, decisions, observations[i])
    ensures forall i :: 0 <= i < |observations| ==> ObservationOk(s, decisions + [d], observations[i])
  {
    forall i | 0 <= i < |observations| ensures ObservationOk(s, decisions + [d], observations[i]) {
      assert ObservationOk(s, decisions, observations[i]);
    }
  }

  // ------------------------------------------------------- every step keeps it

  lemma SelectedKeeps(s: Setup, b: Branch, used: nat, x: Input)
    requires s.limit <= 3 && b.point == Outer && LedgerOk(s, b, used) && Select(s, b, x).point == Inner
    ensures LedgerOk(s, Select(s, b, x), used)
  {
    hide ObservationOk, Tries, CompletedIds, Ids, RetryOk, Before;
    var c := Select(s, b, x);
    var d := Decision(b.next.value, ToolInputs(b.next.value, s.service, s.followup));
    assert c.decisions == b.decisions + [d] && c.attempts == b.attempts && c.observations == b.observations;
    ObservationStays(s, b.decisions, d, b.observations);
    TriesNone(b.attempts, |c.decisions|);
    assert forall i :: 0 <= i < |b.decisions| ==> b.decisions[i].tool in UsedTools(b.decisions);
  }

  lemma SelectKeeps(s: Setup, b: Branch, used: nat, x: Input)
    requires s.limit <= 3 && b.point == Outer && LedgerOk(s, b, used)
    ensures LedgerOk(s, Select(s, b, x), used)
  {
    hide DecisionsOk, AttemptsOk, ObservationsOk;
    var c := Select(s, b, x);
    if c.point == Inner { SelectedKeeps(s, b, used, x); }
  }

  lemma TryClaimKeeps(s: Setup, b: Branch, used: nat, x: Input)
    requires s.limit <= 3 && b.point == Inner && LedgerOk(s, b, used)
    ensures LedgerOk(s, TryClaim(s, b, used, x).0, TryClaim(s, b, used, x).1)
  {
    hide DecisionsOk, AttemptsOk, ObservationsOk, Tries, UsedTools;
  }

  /** Which attempt a call adds. */
  lemma CallToolAdds(s: Setup, b: Branch, x: Input) returns (y: Attempt)
    requires b.next.Some? && !x.call.Fatal?
    ensures y.step == |b.decisions| && y.number == 1 + Tries(b.attempts, |b.decisions|)
    ensures CallTool(s, b, x).attempts == b.attempts + [y]
    ensures y.result.Succeeded? <==> x.call.Delivered? && RecordsMatchScope(b.next.value, s.service, x.call.output)
    ensures CallTool(s, b, x).point == Inner ==> y.result.Failed? && y.result.transient && y.number == 1
  {
    hide RecordsMatchScope, Tries, ToolInputs, ObservationOf, CompletionOf;
    y := CallTool(s, b, x).attempts[|b.attempts|];
  }

  /** Which observation a call adds. */
  lemma CallToolShows(s: Setup, b: Branch, x: Input)
    requires b.next.Some?
    ensures CallTool(s, b, x).observations ==
      if x.call.Delivered? && RecordsMatchScope(b.next.value, s.service, x.call.output) then
        b.observations
        + [ObservationOf(s, b.next.value, |b.decisions|, 1 + Tries(b.attempts, |b.decisions|), x.call.output)]
      else b.observations
  {
    hide RecordsMatchScope, Tries, ToolInputs, ObservationOf, CompletionOf;
  }

  lemma CallToolObserves(s: Setup, b: Branch, x: Input)
    requires LedgerOk(s, b, 0) && b.point == InFlight && !x.call.Fatal?
    ensures ObservationsOk(s, b.decisions, CallTool(s, b, x).attempts, CallTool(s, b, x).observations)
  {
    hide CallTool, Tries, AttemptsOk, CountsOk, CompletedIds, Ids;
    var y := CallToolAdds(s, b, x);
    CallToolShows(s, b, x);
    CompletedOnce(s, b.attempts, y);
    if y.result.Succeeded? {
      var o := ObservationOf(s, b.next.value, |b.decisions|, y.number, x.call.output);
      IdsOnce(b.observations, o);
      assert ObservationOk(s, b.decisions, o);
    }
  }

  lemma CallToolKeeps(s: Setup, b: Branch, used: nat, x: Input)
    requires s.limit <= 3 && b.point == InFlight && LedgerOk(s, b, used)
    ensures LedgerOk(s, CallTool(s, b, x), used)
  {
    hide DecisionsOk, AttemptsOk, ObservationsOk, Tries, ToolInputs, RecordsMatchScope, Task, ObservationOf,
      CompletionOf;
    if !x.call.Fatal? {
      var y := CallToolAdds(s, b, x);
      CallToolObserves(s, b, x);
      AttemptAdded(b, y);
      TriesOnce(b.attempts, y);
    }
  }

  /** A decision changes nothing of what was tried and seen. */
  lemma DecideFrame(s: Setup, b: Branch, used: nat, models: nat, x: Input)
    ensures var c := Decide(s, b, used, models, x).0;
      && c.decisions == b.decisions && c.attempts == b.attempts && c.observations == b.observations
      && c.attemptsUsed == b.attemptsUsed && c.stopped == b.stopped && c.late == b.late && c.stop == b.stop
      && b.decides <= c.decides <= b.decides + 1
      && (c.point == Outer || c.point == Aborted)
  {
    hide Acceptable, Offered, Reserves, UsedTools, NextTool;
  }

  /** The rule never goes back to a selected tool before the third step. */
  lemma RuleIsNew(s: Setup, b: Branch)
    requires Order(b.decisions) && |b.decisions| >= 1
    requires b.next.Some? ==> b.next.value == b.decisions[|b.decisions| - 1].tool
    ensures var c := FollowRule(s, b);
      c.next.Some? ==> (|b.decisions| < 3 ==> c.next.value !in UsedTools(b.decisions)) && !s.followup && b.next.Some?
  {
    var n := |b.decisions|;
    forall t | t in UsedTools(b.decisions) && n < 3
      ensures t == b.decisions[0].tool || t == b.decisions[n - 1].tool {}
  }

  /** A next tool is new, and none follows a spent budget. */
  ghost predicate NewNext(s: Setup, b: Branch, next: Option<Tool>) {
    next.Some? ==>
      && (|b.decisions| < 3 ==> next.value !in UsedTools(b.decisions)) && !s.followup && (b.next.None? ==> Halted(b))
  }

  lemma FailureIsNew(s: Setup, b: Branch, used: nat)
    requires Order(b.decisions) && |b.decisions| >= 1
    requires b.next.Some? ==> b.next.value == b.decisions[|b.decisions| - 1].tool
    ensures NewNext(s, b, AfterModelFailure(s, b, used).next)
  {
    hide FollowRule, Order, UsedTools, Offered, Reserves;
    var errors, events := b.errors + ["INVESTIGATOR_LLM_FAILED"], b.events + [DecisionFailed];
    var failed := b.(errors := errors, events := events);
    RuleIsNew(s, failed);
    RuleIsNew(s, failed.(next := None));
  }

  lemma ProposalIsNew(s: Setup, b: Branch, used: nat, reply: ModelReply)
    requires Acceptable(s, b, used, reply) && Judging(s, b)
    requires b.stop == BudgetExhausted ==> used >= MAX_TOOL_ATTEMPTS
    ensures NewNext(s, b, AfterProposal(s, b, reply).next)
  {
    hide UsedTools, Known;
  }

  /** What may be proposed does not depend on how often the model was asked. */
  lemma SameOffer(s: Setup, b: Branch, used: nat, reply: ModelReply)
    ensures var asked := b.(decides := b.decides + 1);
      && Acceptable(s, asked, used, reply) == Acceptable(s, b, used, reply)
      && (Acceptable(s, b, used, reply) ==> reply.Proposal?)
      && (reply.Proposal? ==> AfterProposal(s, asked, reply).next == AfterProposal(s, b, reply).next)
  {
    hide UsedTools;
  }

  /** What a decision leaves as the next tool. */
  lemma DecideNext(s: Setup, b: Branch, used: nat, models: nat, x: Input)
    requires Order(b.decisions) && Judging(s, b) && (b.stop == BudgetExhausted ==> used >= MAX_TOOL_ATTEMPTS)
    ensures var c := Decide(s, b, used, models, x).0; c.point == Outer ==> NewNext(s, b, c.next)
  {
    hide FollowRule, Order, UsedTools, Acceptable, AfterProposal, AfterModelFailure;
    var asked := b.(decides := b.decides + 1);
    RuleIsNew(s, b);
    FailureIsNew(s, b, used);
    FailureIsNew(s, asked, used);
    if Acceptable(s, asked, used, x.model) {
      SameOffer(s, b, used, x.model);
      ProposalIsNew(s, b, used, x.model);
    }
  }

  lemma OrderHolds(s: Setup, decisions: seq<Decision>)
    requires DecisionsOk(s, decisions)
    ensures Order(decisions)
  {
  }

  lemma DecideKeeps(s: Setup, b: Branch, used: nat, models: nat, x: Input)
    requires s.limit <= 3 && b.point == Deciding && LedgerOk(s, b, used)
    ensures LedgerOk(s, Decide(s, b, used, models, x).0, used)
  {
    hide DecisionsOk, AttemptsOk, ObservationsOk, Order, UsedTools, Decide;
    OrderHolds(s, b.decisions);
    DecideNext(s, b, used, models, x);
    DecideFrame(s, b, used, models, x);
  }

  lemma AdvanceKeepsLedger(s: Setup, c: Shared, x: Input)
    requires s.limit <= 3 && LedgerOk(s, c.branch, c.used)
    ensures LedgerOk(s, Advance(s, c, x).branch, Advance(s, c, x).used)
  {
    hide LedgerOk, Select, TryClaim, CallTool, Decide;
    match c.branch.point
    case Outer => SelectKeeps(s, c.branch, c.used, x);
    case Inner => TryClaimKeeps(s, c.branch, c.used, x);
    case InFlight => CallToolKeeps(s, c.branch, c.used, x);
    case Deciding => DecideKeeps(s, c.branch, c.used, c.models, x);
    case Done =>
    case Aborted =>
  }

  lemma OthersKeepLedger(s: Setup, c: Shared, t: Turn)
    requires LedgerOk(s, c.branch, c.used)
    ensures LedgerOk(s, Others(c, t).branch, Others(c, t).used)
  {
    hide DecisionsOk, AttemptsOk, ObservationsOk, PointOk;
  }

  lemma {:induction false} DriveKeepsLedger(s: Setup, c: Shared, world: nat -> Turn, n: nat)
    requires s.limit <= 3 && LedgerOk(s, c.branch, c.used)
    ensures LedgerOk(s, Drive(s, c, world, n).branch, Drive(s, c, world, n).used)
  {
    hide LedgerOk, Advance, Others;
    if n > 0 {
      DriveKeepsLedger(s, c, world, n - 1);
      OthersKeepLedger(s, Drive(s, c, world, n - 1), world(n - 1));
      AdvanceKeepsLedger(s, Others(Drive(s, c, world, n - 1), world(n - 1)), world(n - 1).input);
    }
  }

  // --------------------------------------------------------- main statements

  predicate Earlier(x: EvidenceId, y: EvidenceId) { x.step < y.step || (x.step == y.step && x.attempt < y.attempt) }

  lemma AttemptsPrefix(attempts: seq<Attempt>, steps: nat, n: nat)
    requires AttemptsOk(attempts, steps) && n <= |attempts|
    ensures AttemptsOk(attempts[..n], steps)
  {
    forall i | 0 <= i < n ensures RetryOk(attempts[..n], i) { assert RetryOk(attempts, i); }
  }

  ghost predicate Ascending(ids: seq<EvidenceId>) {
    forall i, j :: 0 <= i < j < |ids| ==> Earlier(ids[i], ids[j])
  }

  ghost predicate NoneAfter(ids: seq<EvidenceId>, last: Attempt) {
    forall i :: 0 <= i < |ids| ==>
      ids[i].step < last.step || (ids[i].step == last.step && ids[i].attempt <= last.number)
  }

  /** Completed attempts come in order and none is later than the last attempt. */
  lemma {:induction false} CompletedIsSorted(s: Setup, attempts: seq<Attempt>, steps: nat)
    requires AttemptsOk(attempts, steps)
    ensures Ascending(CompletedIds(s, attempts))
    ensures if attempts == [] then CompletedIds(s, attempts) == []
            else NoneAfter(CompletedIds(s, attempts), attempts[|attempts| - 1])
  {
    if attempts != [] {
      var rest, last := attempts[..|attempts| - 1], attempts[|attempts| - 1];
      AttemptsPrefix(attempts, steps, |rest|);
      CompletedIsSorted(s, rest, steps);
      assert rest != [] ==> rest[|rest| - 1] == attempts[|attempts| - 2] && Before(attempts[|attempts| - 2], last);
      var ids := CompletedIds(s, rest);
      assert NoneAfter(ids, last);
    }
  }

  lemma LedgerSays(s: Setup, b: Branch, used: nat)
    requires LedgerOk(s, b, used)
    ensures forall i, j :: 0 <= i < j < |b.decisions| ==> b.decisions[i].tool != b.decisions[j].tool
    ensures forall i, j :: 0 <= i < j < |b.observations| ==> b.observations[i].id != b.observations[j].id
    ensures forall i :: 0 <= i < |b.observations| ==>
              RecordsMatchScope(b.observations[i].tool, s.service, b.observations[i].output)
  {
    hide RecordsMatchScope, CompletedIds, AttemptsOk, PointOk, CountsOk;
    CompletedIsSorted(s, b.attempts, |b.decisions|);
    var ids := Ids(b.observations);
    forall i, j | 0 <= i < j < |b.observations| ensures b.observations[i].id != b.observations[j].id {
      assert ids[i] == b.observations[i].id && ids[j] == b.observations[j].id;
      assert Ascending(ids) && Earlier(ids[i], ids[j]);
    }
  }

  /** Whatever the tools, the model, the deadline and the other branches do, at every point of a task:
      no tool is selected twice; a step has at most two attempts and the second only after a transient
      failure of the first; every claimed attempt has one record; the successful attempts and the
      observations are the same things in the same order, each with an identity of its own, and every
      observation is in the scope of the service. */
  lemma TaskLedger(s: Setup, used: nat, models: nat, world: nat -> Turn, n: nat)
    requires s.limit <= MAX_AGENT_ATTEMPTS
    ensures var b := Drive(s, Shared(Start(s), used, models), world, n).branch;
      && (forall i, j :: 0 <= i < j < |b.decisions| ==> b.decisions[i].tool != b.decisions[j].tool)
      && (forall i :: 0 <= i < |b.attempts| ==>
            1 <= b.attempts[i].step <= |b.decisions| && 1 <= b.attempts[i].number <= 2 && RetryOk(b.attempts, i))
      && (forall i, j :: 0 <= i < j < |b.attempts| ==> Before(b.attempts[i], b.attempts[j]))
      && (b.point != Aborted ==> |b.attempts| == b.attemptsUsed) && b.attemptsUsed <= s.limit
      && Ids(b.observations) == CompletedIds(s, b.attempts)
      && (forall i, j :: 0 <= i < j < |b.observations| ==> b.observations[i].id != b.observations[j].id)
      && (forall i :: 0 <= i < |b.observations| ==>
            && ObservationOk(s, b.decisions, b.observations[i])
            && RecordsMatchScope(b.observations[i].tool, s.service, b.observations[i].output))
  {
    var c := Drive(s, Shared(Start(s), used, models), world, n);
    assert LedgerOk(s, Start(s), used);
    DriveKeepsLedger(s, Shared(Start(s), used, models), world, n);
    hide Drive, Start, ObservationOk, RecordsMatchScope, RetryOk, CompletedIds, Before;
    LedgerSays(s, c.branch, c.used);
  }

  /** A task asks the model at most `limit` times, once per selected tool; and no more often than it called
      tools, unless the stop flag, its deadline or the exhausted shared budget cut it short. */
  lemma DecisionsAreBounded(s: Setup, used: nat, models: nat, world: nat -> Turn, n: nat)
    requires s.limit <= MAX_AGENT_ATTEMPTS
    ensures var c := Drive(s, Shared(Start(s), used, models), world, n);
      && c.branch.decides <= s.limit && c.branch.decides <= |c.branch.decisions|
      && (s.followup ==> c.branch.decides <= 1)
      && (!Halted(c.branch) && c.used < MAX_TOOL_ATTEMPTS ==> c.branch.decides <= c.branch.attemptsUsed)
  {
    assert LedgerOk(s, Start(s), used);
    DriveKeepsLedger(s, Shared(Start(s), used, models), world, n);
  }

  /** The first three steps of a round: select, claim, call. */
  function Called(s: Setup, c: Shared, x: Input): Shared { Advance(s, Advance(s, Advance(s, c, x), x), x) }

  lemma RoundIsDrive(s: Setup, c: Shared, world: nat -> Turn, n: nat, x: Input)
    requires forall i :: n <= i < n + 4 ==> world(i) == Turn(0, 0, x)
    ensures Drive(s, c, world, n + 4) == Advance(s, Called(s, Drive(s, c, world, n), x), x)
  {
    hide Advance;
    assert world(n) == world(n + 1) == world(n + 2) == world(n + 3) == Turn(0, 0, x);
    assert Drive(s, c, world, n + 3) == Advance(s, Drive(s, c, world, n + 2), x);
    assert Drive(s, c, world, n + 2) == Advance(s, Drive(s, c, world, n + 1), x);
  }

  ghost predicate Ready(s: Setup, c: Shared) {
    && c.branch.point == Outer && c.branch.next.Some? && !Halted(c.branch) && c.branch.stop == NotStarted
    && c.branch.attemptsUsed < s.limit && c.used < MAX_TOOL_ATTEMPTS && c.models < s.modelLimit
    && s.low == {Logs, Tickets, Knowledge} && s.model && !s.followup && c.branch.gaps == {}
  }

  /** What an undisturbed answer in scope does. */
  lemma CalledFacts(s: Setup, c: Shared, x: Input)
    requires Ready(s, c) && !x.stop && !x.late && x.call.Delivered?
    requires RecordsMatchScope(c.branch.next.value, s.service, x.call.output)
    requires c.branch.next == Some(Logs) ==> x.call.output.total != 0
    ensures var d := Called(s, c, x);
      && d.branch.point == Deciding && !Halted(d.branch) && d.branch.stop == NotStarted && d.branch.gaps == {}
      && d.branch.next == c.branch.next && d.branch.total == x.call.output.total && !d.branch.failed
      && d.used == c.used + 1 && d.models == c.models && d.branch.attemptsUsed == c.branch.attemptsUsed + 1
      && d.branch.decisions == c.branch.decisions
           + [Decision(c.branch.next.value, ToolInputs(c.branch.next.value, s.service, false))]
  {
    hide ToolInputs, RecordsMatchScope, Tries, ObservationOf, CompletionOf, Decide;
    var tool := c.branch.next.value;
    assert tool.Logs? || tool.Tickets? || tool.Knowledge?;
    var c1 := Advance(s, c, x);
    assert c1.branch.point == Inner && c1.branch.attemptsUsed == c.branch.attemptsUsed && c1.branch.gaps == {};
    var c2 := Advance(s, c1, x);
    assert c2.branch.point == InFlight && c2.used == c.used + 1 && c2.branch == c1.branch.(point := InFlight);
  }

  /** How the decision of a round continues. */
  lemma DecidedFacts(s: Setup, d: Shared, x: Input)
    requires d.branch.point == Deciding && !Halted(d.branch) && d.branch.stop == NotStarted && d.branch.gaps == {}
    requires d.branch.next.Some? && d.models < s.modelLimit && s.model && !s.followup && !d.branch.failed
    requires x.model.NoAnswer?
          || (x.model.Proposal? && x.model.next.Some? && x.model.next.value != Logs
              && x.model.claims == [] && x.model.gaps == {}
              && d.branch.attemptsUsed < s.limit && d.used < MAX_TOOL_ATTEMPTS
              && x.model.next.value !in UsedTools(d.branch.decisions))
    ensures var e := Advance(s, d, x);
      && e.branch.point == Outer && !Halted(e.branch) && e.branch.stop == NotStarted && e.branch.gaps == {}
      && e.used == d.used && e.models == d.models + 1 && e.branch.attemptsUsed == d.branch.attemptsUsed
      && e.branch.decisions == d.branch.decisions
      && e.branch.next == if x.model.NoAnswer? then NextTool(d.branch.next.value, false, d.branch.total) else x.model.next
  {
    hide UsedTools, NextTool;
    assert d.branch.gaps * {EMPTY_WINDOW} + {} == {};
  }

  /** With a fourth attempt the first statement fails: logs, then knowledge and tickets chosen by the model,
      then the rule after a failed model asks knowledge again. */
  lemma FourAttemptsRepeatATool() returns (s: Setup, world: nat -> Turn, n: nat)
    ensures s.limit == 4
    ensures var b := Drive(s, Shared(Start(s), 0, 0), world, n).branch;
      |b.decisions| == 4 && b.decisions[1].tool == b.decisions[3].tool == Knowledge
  {
    s := Setup(1, "pay", 1, false, 4, true, true, {Logs, Tickets, Knowledge}, {}, 10);
    var found := Delivered(Output(1, [Row(None, None, Some("pay"), None, None)]));
    var x1 := Input(false, false, found, Proposal(Some(Knowledge), [], {}));
    var x2 := Input(false, false, found, Proposal(Some(Tickets), [], {}));
    var x3 := Input(false, false, Delivered(Output(0, [])), NoAnswer);
    world := i => Turn(0, 0, if i < 4 then x1 else if i < 8 then x2 else x3);
    var start: nat :| start == 0;
    n := start + 13;
    var c := Shared(Start(s), 0, 0);
    FourRounds(s, c, world, start, c, x1, x2, x3);
  }

  lemma FourRounds(s: Setup, c0: Shared, world: nat -> Turn, m: nat, c: Shared, x1: Input, x2: Input, x3: Input)
    requires c == Drive(s, c0, world, m) && After(s, c, [], Logs) && s.limit == 4 && s.modelLimit >= 4
    requires s.low == {Logs, Tickets, Knowledge} && s.model && !s.followup
    requires forall i: nat :: m <= i <= m + 12 ==>
      world(i) == Turn(0, 0, if i < m + 4 then x1 else if i < m + 8 then x2 else x3)
    requires !x1.stop && !x1.late && !x2.stop && !x2.late && !x3.stop && !x3.late
    requires x1.model == Proposal(Some(Knowledge), [], {}) && x2.model == Proposal(Some(Tickets), [], {})
    requires x1.call.Delivered? && x1.call.output.total != 0 && RecordsMatchScope(Logs, s.service, x1.call.output)
    requires x2.call.Delivered? && x3.call == Delivered(Output(0, [])) && x3.model.NoAnswer?
    ensures var b := Drive(s, c0, world, m + 13).branch;
      |b.decisions| == 4 && b.decisions[1].tool == b.decisions[3].tool == Knowledge
  {
    hide After, Drive, RecordsMatchScope, Advance;
    AnyScope(s.service, x2.call.output);
    AnyScope(s.service, x3.call.output);
    var none: seq<Tool> := [];
    var c1 := Repeats(s, c0, world, m, c, x1, none, Logs, Knowledge);
    var c2 := Repeats(s, c0, world, m + 4, c1, x2, none + [Logs], Knowledge, Tickets);
    var c3 := Repeats(s, c0, world, m + 8, c2, x3, none + [Logs] + [Knowledge], Tickets, Knowledge);
    SelectsAgain(s, c0, world, m + 12, c3, x3, none + [Logs] + [Knowledge] + [Tickets], Knowledge);
  }

  lemma AnyScope(service: string, output: Output)
    ensures RecordsMatchScope(Knowledge, service, output)
    ensures output.items == [] ==> RecordsMatchScope(Tickets, service, output)
  {
  }

  /** An undisturbed branch after `|tools|` rounds that selected these tools. */
  ghost predicate After(s: Setup, c: Shared, tools: seq<Tool>, next: Tool) {
    && c.branch.point == Outer && !Halted(c.branch) && c.branch.stop == NotStarted && c.branch.gaps == {}
    && c.used == c.models == c.branch.attemptsUsed == |tools| && c.branch.next == Some(next)
    && |c.branch.decisions| == |tools|
    && forall i :: 0 <= i < |tools| ==> c.branch.decisions[i].tool == tools[i]
  }

  lemma Repeats(
    s: Setup, c0: Shared, world: nat -> Turn, n: nat, c: Shared, x: Input, tools: seq<Tool>, tool: Tool, next: Tool)
    returns (e: Shared)
    requires forall i :: n <= i < n + 4 ==> world(i) == Turn(0, 0, x)
    requires c == Drive(s, c0, world, n) && After(s, c, tools, tool)
    requires |tools| < 3 && s.limit == 4 && s.modelLimit >= 4 && s.low == {Logs, Tickets, Knowledge}
    requires s.model && !s.followup && !x.stop && !x.late && x.call.Delivered?
    requires RecordsMatchScope(tool, s.service, x.call.output) && (tool == Logs ==> x.call.output.total != 0)
    requires next != Logs && if x.model.NoAnswer? then Some(next) == NextTool(tool, false, x.call.output.total)
             else x.model == Proposal(Some(next), [], {}) && next != tool && next !in tools
    ensures e == Drive(s, c0, world, n + 4) && After(s, e, tools + [tool], next)
  {
    hide Advance, Called, Drive, RecordsMatchScope, ToolInputs, NextTool;
    e := Drive(s, c0, world, n + 4);
    RoundIsDrive(s, c0, world, n, x);
    CalledFacts(s, c, x);
    var d := Called(s, c, x);
    forall i | 0 <= i < |d.branch.decisions| && x.model.Proposal?
      ensures d.branch.decisions[i].tool != x.model.next.value
    {
      assert i < |c.branch.decisions| ==> d.branch.decisions[i] == c.branch.decisions[i] && tools[i] in tools;
    }
    DecidedFacts(s, d, x);
  }

  lemma SelectsAgain(
    s: Setup, c0: Shared, world: nat -> Turn, n: nat, c: Shared, x: Input, tools: seq<Tool>, tool: Tool)
    requires c == Drive(s, c0, world, n) && After(s, c, tools, tool) && world(n) == Turn(0, 0, x) && !x.stop && !x.late
    requires |tools| < s.limit && s.low == {Logs, Tickets, Knowledge}
    ensures var b := Drive(s, c0, world, n + 1).branch;
      && |b.decisions| == |tools| + 1 && b.decisions[|tools|].tool == tool
      && forall i :: 0 <= i < |tools| ==> b.decisions[i].tool == tools[i]
  {
    assert tool.Logs? || tool.Tickets? || tool.Knowledge?;
    assert Drive(s, c0, world, n + 1) == Advance(s, c, x);
  }
}
