/** Evidence rebuilt from the audit rows of a finished run. */
module History {
  import opened Options
  import opened Investigation
  import opened InvestigationLedger
  import opened InvestigationLog
  import opened Supervisor
  import opened SupervisorTheorems
  import opened Merge

  /** A row of the tool call log, in row order; `owner` says which task made the call and is not read back. */
  datatype Logged = Logged(owner: nat, call: Call)

  /** A trace event; `owner` is not read back. */
  datatype Traced = Traced(owner: nat, event: Event)

  /** An evidence record of the run detail; the event of a call does not name a service. */
  datatype Rebuilt = Rebuilt(
    step: nat, id: EvidenceId, status: ResultStatus, agent: nat, task: TaskId, service: Option<string>, tool: Tool,
    sources: seq<Option<int>>, output: Output)

  function ServiceName(inputs: Inputs): Option<string> {
    match inputs
    case LogInputs(service, _, _) => if service == "" then None else Some(service)
    case TicketInputs(service, _) => if service == "" then None else Some(service)
    case KnowledgeInputs(_, _) => None
  }

  predicate Matches(call: Call, e: Event)
    requires e.ToolCompleted?
  {
    call.tool == e.tool && call.inputs == e.inputs
  }

  function CompletedCalls(log: seq<Logged>): seq<Call> {
    if log == [] then []
    else CompletedCalls(log[..|log| - 1]) + if log[|log| - 1].call.completed then [log[|log| - 1].call] else []
  }

  /** The last completion event of each evidence identity. */
  function EventsById(trace: seq<Traced>): (r: map<EvidenceId, Event>)
    ensures forall id :: id in r ==> r[id].ToolCompleted?
  {
    if trace == [] then map[]
    else
      var e := trace[|trace| - 1].event;
      var r := EventsById(trace[..|trace| - 1]);
      if e.ToolCompleted? then r[e.id := e] else r
  }

  /** The first call that matches an event, if any. */
  function FirstMatch(available: seq<Call>, e: Event): (r: Option<nat>)
    requires e.ToolCompleted?
    ensures r.Some? ==> r.value < |available| && Matches(available[r.value], e)
    ensures r.Some? ==> forall i :: 0 <= i < r.value ==> !Matches(available[i], e)
    ensures r.None? ==> forall i :: 0 <= i < |available| ==> !Matches(available[i], e)
  {
    if available == [] then None
    else if Matches(available[0], e) then Some(0)
    else
      var rest := FirstMatch(available[1..], e);
      if rest.None? then None else Some(rest.value + 1)
  }

  function Record(id: EvidenceId, e: Event, call: Call, step: nat): Rebuilt
    requires e.ToolCompleted?
  {
    Rebuilt(step, id, e.status, e.agent, e.task, ServiceName(call.inputs), call.tool, SourceIds(call.output),
            call.output)
  }

  datatype Progress = Progress(available: seq<Call>, evidence: seq<Rebuilt>)

  function RebuildOne(p: Progress, byId: map<EvidenceId, Event>, id: EvidenceId): Progress
    requires forall id :: id in byId ==> byId[id].ToolCompleted?
  {
    if id !in byId then p
    else
      var m := FirstMatch(p.available, byId[id]);
      if m.None? then p
      else Progress(p.available[..m.value] + p.available[m.value + 1..],
                    p.evidence + [Record(id, byId[id], p.available[m.value], |p.evidence| + 1)])
  }

  function RebuildAll(p: Progress, byId: map<EvidenceId, Event>, ids: seq<EvidenceId>): Progress
    requires forall id :: id in byId ==> byId[id].ToolCompleted?
  {
    if ids == [] then p
    else RebuildOne(RebuildAll(p, byId, ids[..|ids| - 1]), byId, ids[|ids| - 1])
  }

  function Rebuild(log: seq<Logged>, trace: seq<Traced>, ids: seq<EvidenceId>): seq<Rebuilt> {
    RebuildAll(Progress(CompletedCalls(log), []), EventsById(trace), ids).evidence
  }

  /** The loops of the run detail: index the events, then take one call from the remaining ones for each id. */
  method RunDetail(log: seq<Logged>, trace: seq<Traced>, ids: seq<EvidenceId>) returns (evidence: seq<Rebuilt>)
    ensures evidence == Rebuild(log, trace, ids)
  {
    hide SourceIds, ServiceName;
    var available: seq<Call> := [];
    for i := 0 to |log|
      invariant available == CompletedCalls(log[..i])
    {
      assert log[..i + 1][..i] == log[..i];
      if log[i].call.completed { available := available + [log[i].call]; }
    }
    assert log[..|log|] == log;
    var byId: map<EvidenceId, Event> := map[];
    for i := 0 to |trace|
      invariant byId == EventsById(trace[..i])
    {
      assert trace[..i + 1][..i] == trace[..i];
      var e := trace[i].event;
      if e.ToolCompleted? { byId := byId[e.id := e]; }
    }
    assert trace[..|trace|] == trace;
    evidence := [];
    ghost var first := Progress(available, []);
    for i := 0 to |ids|
      invariant byId == EventsById(trace)
      invariant Progress(available, evidence) == RebuildAll(first, byId, ids[..i])
    {
      assert ids[..i + 1][..i] == ids[..i];
      if ids[i] in byId {
        var event := byId[ids[i]];
        var index := 0;
        while index < |available| && !Matches(available[index], event)
          invariant index <= |available|
          invariant forall k :: 0 <= k < index ==> !Matches(available[k], event)
        {
          index := index + 1;
        }
        if index < |available| {
          assert FirstMatch(available, event) == Some(index);
          evidence := evidence + [Record(ids[i], event, available[index], |evidence| + 1)];
          available := available[..index] + available[index + 1..];
        }
      }
    }
    assert ids[..|ids|] == ids;
  }

  // -------------------------------------------------------------- round trip

  function CallFor(o: Observation): Call { Call(o.tool, o.inputs, true, o.output) }

  function Expected(o: Observation): Rebuilt {
    Rebuilt(o.step, o.id, o.status, o.agent, o.task, ServiceName(o.inputs), o.tool, o.sources, o.output)
  }

  function ExpectedAll(evidence: seq<Observation>): (r: seq<Rebuilt>)
    ensures |r| == |evidence|
  {
    seq(|evidence|, i requires 0 <= i < |evidence| => Expected(evidence[i]))
  }

  ghost predicate KeysDistinct(calls: seq<Call>) {
    forall i, j :: 0 <= i < j < |calls| ==> calls[i].tool != calls[j].tool || calls[i].inputs != calls[j].inputs
  }

  ghost predicate EvidenceKeysDistinct(evidence: seq<Observation>) {
    forall i, j :: 0 <= i < j < |evidence| ==>
      evidence[i].tool != evidence[j].tool || evidence[i].inputs != evidence[j].inputs
  }

  ghost predicate AllCalled(available: seq<Call>, evidence: seq<Observation>, from: nat) {
    forall l :: from <= l < |evidence| ==> CallFor(evidence[l]) in available
  }

  ghost predicate Announced(byId: map<EvidenceId, Event>, evidence: seq<Observation>) {
    forall k :: 0 <= k < |evidence| ==> evidence[k].id in byId && byId[evidence[k].id] == CompletionOf(evidence[k])
  }

  ghost predicate Sourced(evidence: seq<Observation>) {
    forall k :: 0 <= k < |evidence| ==> evidence[k].sources == SourceIds(evidence[k].output)
  }

  lemma OwnedIsSourced(o: Observation, outcomes: seq<Outcome>)
    requires Owned(o, outcomes)
    ensures o.sources == SourceIds(o.output)
  {
    hide RecordsMatchScope, SourceIds, Task;
  }

  /** Taking out a call leaves those of other keys. */
  lemma TakenOut(available: seq<Call>, m: nat, evidence: seq<Observation>, k: nat)
    requires m < |available| && KeysDistinct(available) && k < |evidence|
    requires EvidenceKeysDistinct(evidence) && AllCalled(available, evidence, k)
    requires available[m].tool == evidence[k].tool && available[m].inputs == evidence[k].inputs
    ensures available[m] == CallFor(evidence[k])
    ensures KeysDistinct(available[..m] + available[m + 1..])
    ensures AllCalled(available[..m] + available[m + 1..], evidence, k + 1)
  {
    var rest := available[..m] + available[m + 1..];
    var own := CallFor(evidence[k]);
    var i :| 0 <= i < |available| && available[i] == own;
    assert i == m;
    forall l | k + 1 <= l < |evidence| ensures CallFor(evidence[l]) in rest {
      var j :| 0 <= j < |available| && available[j] == CallFor(evidence[l]);
      assert rest[if j < m then j else j - 1] == available[j];
    }
  }

  lemma RebuildStep(p: Progress, byId: map<EvidenceId, Event>, evidence: seq<Observation>, k: nat)
    requires forall id :: id in byId ==> byId[id].ToolCompleted?
    requires k < |evidence| && EvidenceKeysDistinct(evidence) && Announced(byId, evidence)
    requires Sourced(evidence)
    requires evidence[k].step == k + 1
    requires KeysDistinct(p.available) && AllCalled(p.available, evidence, k)
    requires p.evidence == ExpectedAll(evidence)[..k]
    ensures var q := RebuildOne(p, byId, evidence[k].id);
      && KeysDistinct(q.available) && AllCalled(q.available, evidence, k + 1)
      && q.evidence == ExpectedAll(evidence)[..k + 1]
  {
    hide KeysDistinct, EvidenceKeysDistinct, ServiceName, SourceIds;
    var e := byId[evidence[k].id];
    var own := CallFor(evidence[k]);
    assert own in p.available && Matches(own, e);
    var m := FirstMatch(p.available, e);
    assert m.Some?;
    TakenOut(p.available, m.value, evidence, k);
  }

  lemma {:induction false} RebuildPrefix(
    available: seq<Call>, byId: map<EvidenceId, Event>, evidence: seq<Observation>, ids: seq<EvidenceId>, k: nat)
    requires forall id :: id in byId ==> byId[id].ToolCompleted?
    requires |ids| == |evidence| && forall i :: 0 <= i < |ids| ==> ids[i] == evidence[i].id
    requires k <= |evidence| && EvidenceKeysDistinct(evidence) && Announced(byId, evidence)
    requires Sourced(evidence)
    requires forall i :: 0 <= i < |evidence| ==> evidence[i].step == i + 1
    requires KeysDistinct(available) && AllCalled(available, evidence, 0)
    ensures var q := RebuildAll(Progress(available, []), byId, ids[..k]);
      && KeysDistinct(q.available) && AllCalled(q.available, evidence, k)
      && q.evidence == ExpectedAll(evidence)[..k]
  {
    hide KeysDistinct, EvidenceKeysDistinct, AllCalled, Announced, Sourced, ExpectedAll, RebuildOne;
    if k > 0 {
      RebuildPrefix(available, byId, evidence, ids, k - 1);
      assert ids[..k][..k - 1] == ids[..k - 1];
      RebuildStep(RebuildAll(Progress(available, []), byId, ids[..k - 1]), byId, evidence, k - 1);
    }
  }

  /** The audit rows of these tasks, interleaved in any way. */
  function CallsOf(log: seq<Logged>, k: nat): seq<Call> {
    if log == [] then []
    else CallsOf(log[..|log| - 1], k) + if log[|log| - 1].owner == k then [log[|log| - 1].call] else []
  }

  function EventsOf(trace: seq<Traced>, k: nat): seq<Event> {
    if trace == [] then []
    else EventsOf(trace[..|trace| - 1], k) + if trace[|trace| - 1].owner == k then [trace[|trace| - 1].event] else []
  }

  ghost predicate Audit(outcomes: seq<Outcome>, log: seq<Logged>, trace: seq<Traced>) {
    && (forall i :: 0 <= i < |log| ==> log[i].owner < |outcomes|)
    && (forall i :: 0 <= i < |trace| ==> trace[i].owner < |outcomes|)
    && (forall k :: 0 <= k < |outcomes| ==> CallsOf(log, k) == outcomes[k].branch.calls)
    && (forall k :: 0 <= k < |outcomes| ==> EventsOf(trace, k) == outcomes[k].branch.events)
  }

  // ------------------------------------------------- the rows of a real run

  /** The tasks of a run: recorded faithfully, and no two about the same service and window. */
  ghost predicate Distinguished(outcomes: seq<Outcome>) {
    && Separate(outcomes)
    && (forall i :: 0 <= i < |outcomes| ==> LogOk(outcomes[i].setup, outcomes[i].branch))
    && (forall i, j :: 0 <= i < j < |outcomes| ==> Apart(outcomes[i].setup, outcomes[j].setup))
  }

  predicate Apart(s: Setup, u: Setup) { s.service != u.service || s.followup != u.followup }

  lemma SuffixKeepsDifference(x: string, y: string, suffix: string)
    requires x + suffix == y + suffix
    ensures x == y
  {
    assert |x| == |y|;
    assert x == (x + suffix)[..|x|] == (y + suffix)[..|y|] == y;
  }

  lemma InputsApart(tool: Tool, s: Setup, u: Setup)
    requires Apart(s, u) && (s.followup != u.followup ==> tool == Logs)
    ensures ToolInputs(tool, s.service, s.followup) != ToolInputs(tool, u.service, u.followup)
  {
    if tool == Knowledge && s.service + " 故障排查" == u.service + " 故障排查" {
      SuffixKeepsDifference(s.service, u.service, " 故障排查");
    }
  }

  lemma FollowupCallsLogs(o: Outcome, c: Call)
    requires LedgerOk(o.setup, o.branch, 0) && LogOk(o.setup, o.branch) && o.setup.followup
    requires c in o.branch.calls && c.completed
    ensures c.tool == Logs
  {
    hide ToolInputs, AttemptsOk, ObservationsOk, PointOk, CountsOk, ShownOk, Completions, CompletionsOf;
    var k :| 0 <= k < |o.branch.calls| && o.branch.calls[k] == c;
    assert c.tool in UsedTools(o.branch.decisions);
  }

  lemma CallInputs(o: Outcome, c: Call)
    requires LogOk(o.setup, o.branch) && c in o.branch.calls && c.completed
    ensures c.inputs == ToolInputs(c.tool, o.setup.service, o.setup.followup)
  {
    hide ToolInputs, UsedTools, ShownOk, Completions, CompletionsOf;
    var k :| 0 <= k < |o.branch.calls| && o.branch.calls[k] == c;
  }

  /** Completed calls of different tasks have different keys. */
  lemma KeysApart(o: Outcome, p: Outcome, c: Call, d: Call)
    requires LedgerOk(o.setup, o.branch, 0) && LogOk(o.setup, o.branch)
    requires LedgerOk(p.setup, p.branch, 0) && LogOk(p.setup, p.branch)
    requires Apart(o.setup, p.setup) && c in o.branch.calls && d in p.branch.calls && c.completed && d.completed
    ensures c.tool != d.tool || c.inputs != d.inputs
  {
    hide ToolInputs, LedgerOk, LogOk;
    CallInputs(o, c);
    CallInputs(p, d);
    if o.setup.followup { FollowupCallsLogs(o, c); }
    if p.setup.followup { FollowupCallsLogs(p, d); }
    if c.tool == d.tool { InputsApart(c.tool, o.setup, p.setup); }
  }

  /** Rows of these tasks, the later ones perhaps missing. */
  ghost predicate Partly(outcomes: seq<Outcome>, log: seq<Logged>) {
    && (forall i :: 0 <= i < |log| ==> log[i].owner < |outcomes|)
    && (forall k :: 0 <= k < |outcomes| ==> CallsOf(log, k) <= outcomes[k].branch.calls)
  }

  lemma {:induction false} CompletedHasOwner(outcomes: seq<Outcome>, log: seq<Logged>, c: Call) returns (k: nat)
    requires c in CompletedCalls(log) && forall i :: 0 <= i < |log| ==> log[i].owner < |outcomes|
    ensures k < |outcomes| && c.completed && c in CallsOf(log, k)
  {
    var last := log[|log| - 1];
    if last.call.completed && c == last.call {
      k := last.owner;
    } else {
      k := CompletedHasOwner(outcomes, log[..|log| - 1], c);
    }
  }

  lemma {:induction false} OwnedIsCompleted(log: seq<Logged>, k: nat, c: Call)
    requires c in CallsOf(log, k) && c.completed
    ensures c in CompletedCalls(log)
  {
    var last := log[|log| - 1];
    if last.owner == k && c == last.call {
    } else {
      OwnedIsCompleted(log[..|log| - 1], k, c);
    }
  }

  lemma {:induction false} LoggedKeysDistinct(outcomes: seq<Outcome>, log: seq<Logged>)
    requires Distinguished(outcomes) && Partly(outcomes, log)
    ensures KeysDistinct(CompletedCalls(log))
  {
    hide LedgerOk, LogOk, Apart;
    if log != [] {
      var some, last := log[..|log| - 1], log[|log| - 1];
      forall k | 0 <= k < |outcomes| ensures CallsOf(some, k) <= outcomes[k].branch.calls {
        assert CallsOf(some, k) <= CallsOf(log, k);
      }
      LoggedKeysDistinct(outcomes, some);
      if last.call.completed {
        forall i | 0 <= i < |CompletedCalls(some)|
          ensures CompletedCalls(some)[i].tool != last.call.tool || CompletedCalls(some)[i].inputs != last.call.inputs
        {
          NewKey(outcomes, some, last, CompletedCalls(some)[i]);
        }
      }
    }
  }

  lemma NewKey(outcomes: seq<Outcome>, some: seq<Logged>, last: Logged, c: Call)
    requires Distinguished(outcomes) && Partly(outcomes, some + [last]) && Partly(outcomes, some)
    requires last.call.completed && c in CompletedCalls(some)
    ensures c.tool != last.call.tool || c.inputs != last.call.inputs
  {
    hide LedgerOk, Apart, Separate, UsedTools, ToolInputs, ShownOk, Completions, CompletionsOf;
    assert (some + [last])[..|some|] == some;
    var k := CompletedHasOwner(outcomes, some, c);
    var own := CallsOf(some, last.owner);
    assert (some + [last])[|some|] == last;
    assert own + [last.call] <= outcomes[last.owner].branch.calls;
    assert outcomes[last.owner].branch.calls[|own|] == last.call;
    if k == last.owner {
      var i :| 0 <= i < |own| && own[i] == c;
      assert outcomes[k].branch.calls[i] == c;
      assert CallsOk(outcomes[k].setup, outcomes[k].branch.decisions, outcomes[k].branch.calls,
                     Current(outcomes[k].branch));
    } else {
      ApartEitherWay(outcomes, k, last.owner, c, last.call);
    }
  }

  lemma ApartEitherWay(outcomes: seq<Outcome>, k: nat, l: nat, c: Call, d: Call)
    requires Distinguished(outcomes) && k < |outcomes| && l < |outcomes| && k != l
    requires c in outcomes[k].branch.calls && d in outcomes[l].branch.calls && c.completed && d.completed
    ensures c.tool != d.tool || c.inputs != d.inputs
  {
    hide LedgerOk, LogOk, Apart, Task;
    if k < l {
      KeysApart(outcomes[k], outcomes[l], c, d);
    } else {
      KeysApart(outcomes[l], outcomes[k], d, c);
    }
  }

  lemma ObservationCalled(o: Outcome, shown: Observation)
    requires LogOk(o.setup, o.branch) && shown in o.branch.observations
    ensures CallFor(shown) in o.branch.calls
  {
    hide CallsOk, Completions, CompletionsOf;
    var i :| 0 <= i < |o.branch.observations| && o.branch.observations[i] == shown;
  }

  lemma OwnedIsCalled(outcomes: seq<Outcome>, o: Observation) returns (k: nat)
    requires Owned(o, outcomes) && forall i :: 0 <= i < |outcomes| ==> LogOk(outcomes[i].setup, outcomes[i].branch)
    ensures k < |outcomes| && o in outcomes[k].branch.observations && CallFor(o) in outcomes[k].branch.calls
  {
    hide LogOk, ObservationOk;
    k :| 0 <= k < |outcomes| && ObservationOk(outcomes[k].setup, outcomes[k].branch.decisions, o)
         && o in outcomes[k].branch.observations;
    ObservationCalled(outcomes[k], o);
  }

  lemma {:induction false} EvidenceKeysApart(outcomes: seq<Outcome>)
    requires Distinguished(outcomes)
    ensures EvidenceKeysDistinct(AllObservations(outcomes))
  {
    hide LedgerOk, LogOk, Apart, Task, Owned;
    if outcomes != [] {
      var some, last := outcomes[..|outcomes| - 1], outcomes[|outcomes| - 1];
      EvidenceKeysApart(some);
      AllAreOwnedAndDistinct(some);
      var before, shown := AllObservations(some), last.branch.observations;
      forall i, j | 0 <= i < |before| && 0 <= j < |shown|
        ensures before[i].tool != shown[j].tool || before[i].inputs != shown[j].inputs
      {
        var k := OwnedIsCalled(some, before[i]);
        ObservationCalled(last, shown[j]);
        assert outcomes[k] == some[k];
        ApartEitherWay(outcomes, k, |some|, CallFor(before[i]), CallFor(shown[j]));
      }
      ToolsApart(last);
    }
  }

  lemma ToolsApart(o: Outcome)
    requires LogOk(o.setup, o.branch)
    ensures EvidenceKeysDistinct(o.branch.observations)
  {
    hide CallsOk, Completions, CompletionsOf;
  }

  // ------------------------------------------------------- the event of an id

  lemma {:induction false} EventsByIdFinds(trace: seq<Traced>, id: EvidenceId)
    ensures id in EventsById(trace) <==>
              exists i :: 0 <= i < |trace| && trace[i].event.ToolCompleted? && trace[i].event.id == id
    ensures id in EventsById(trace) ==>
              exists i :: 0 <= i < |trace| && trace[i].event == EventsById(trace)[id] && trace[i].event.id == id
  {
    if trace != [] {
      var some := trace[..|trace| - 1];
      EventsByIdFinds(some, id);
      assert forall i :: 0 <= i < |some| ==> some[i] == trace[i];
      var last := trace[|trace| - 1];
      assert trace[|trace| - 1] == last;
    }
  }

  lemma {:induction false} TracedIsOwned(trace: seq<Traced>, i: nat)
    requires i < |trace|
    ensures trace[i].event in EventsOf(trace, trace[i].owner)
  {
    if i < |trace| - 1 { TracedIsOwned(trace[..|trace| - 1], i); }
  }

  lemma {:induction false} OwnedIsTraced(trace: seq<Traced>, k: nat, e: Event) returns (i: nat)
    requires e in EventsOf(trace, k)
    ensures i < |trace| && trace[i].event == e
  {
    var last := |trace| - 1;
    if trace[last].owner == k && trace[last].event == e {
      i := last;
    } else {
      i := OwnedIsTraced(trace[..last], k, e);
    }
  }

  lemma {:induction false} CompletionsIn(events: seq<Event>, e: Event)
    ensures e in Completions(events) <==> e in events && e.ToolCompleted?
  {
    if events != [] {
      CompletionsIn(events[..|events| - 1], e);
      assert events == events[..|events| - 1] + [events[|events| - 1]];
    }
  }

  /** A completion event in the trace is the completion of an observation. */
  lemma EventHasObservation(outcomes: seq<Outcome>, trace: seq<Traced>, i: nat) returns (k: nat, o: Observation)
    requires forall k :: 0 <= k < |outcomes| ==> LogOk(outcomes[k].setup, outcomes[k].branch)
    requires forall k :: 0 <= k < |outcomes| ==> EventsOf(trace, k) == outcomes[k].branch.events
    requires i < |trace| && trace[i].owner < |outcomes| && trace[i].event.ToolCompleted?
    ensures k < |outcomes| && o in outcomes[k].branch.observations && trace[i].event == CompletionOf(o)
  {
    hide CallsOk, ShownOk, Completions, CompletionOf, EventsOf;
    k := trace[i].owner;
    TracedIsOwned(trace, i);
    var b := outcomes[k].branch;
    CompletionsIn(b.events, trace[i].event);
    assert LogOk(outcomes[k].setup, b);
    var j :| 0 <= j < |CompletionsOf(b.observations)| && CompletionsOf(b.observations)[j] == trace[i].event;
    o := b.observations[j];
  }

  lemma ObservationHasEvent(outcomes: seq<Outcome>, trace: seq<Traced>, k: nat, o: Observation) returns (i: nat)
    requires k < |outcomes| && LogOk(outcomes[k].setup, outcomes[k].branch)
    requires EventsOf(trace, k) == outcomes[k].branch.events && o in outcomes[k].branch.observations
    ensures i < |trace| && trace[i].event == CompletionOf(o)
  {
    hide CallsOk, ShownOk, Completions, CompletionOf, EventsOf;
    var b := outcomes[k].branch;
    var j :| 0 <= j < |b.observations| && b.observations[j] == o;
    assert CompletionsOf(b.observations)[j] == CompletionOf(o);
    CompletionsIn(b.events, CompletionOf(o));
    i := OwnedIsTraced(trace, k, CompletionOf(o));
  }

  lemma {:induction false} ObservationIsListed(outcomes: seq<Outcome>, k: nat, o: Observation)
    requires k < |outcomes| && o in outcomes[k].branch.observations
    ensures o in AllObservations(outcomes)
  {
    if k < |outcomes| - 1 { ObservationIsListed(outcomes[..|outcomes| - 1], k, o); }
  }

  /** The index by identity holds for each observation exactly its own completion event. */
  lemma EventOfObservation(outcomes: seq<Outcome>, log: seq<Logged>, trace: seq<Traced>, o: Observation)
    requires Distinguished(outcomes) && Audit(outcomes, log, trace) && o in AllObservations(outcomes)
    ensures o.id in EventsById(trace) && EventsById(trace)[o.id] == CompletionOf(o)
  {
    hide LedgerOk, LogOk, Apart, Task, Owned, CallsOf, EventsOf, EventsById;
    var all := AllObservations(outcomes);
    AllAreOwnedAndDistinct(outcomes);
    var n :| 0 <= n < |all| && all[n] == o;
    var k := OwnedIsCalled(outcomes, all[n]);
    var i := ObservationHasEvent(outcomes, trace, k, o);
    EventsByIdFinds(trace, o.id);
    assert o.id in EventsById(trace);
    var j :| 0 <= j < |trace| && trace[j].event == EventsById(trace)[o.id] && trace[j].event.id == o.id;
    var l, p := EventHasObservation(outcomes, trace, j);
    ObservationIsListed(outcomes, l, p);
    var m :| 0 <= m < |all| && all[m] == p;
    assert all[m].id == all[n].id;
  }

  // --------------------------------------------------------- main statements

  lemma MergedFacts(outcomes: seq<Outcome>, log: seq<Logged>, trace: seq<Traced>)
    requires Distinguished(outcomes) && Audit(outcomes, log, trace)
    ensures var evidence := MergeAll(outcomes).evidence;
      && EvidenceKeysDistinct(evidence) && Announced(EventsById(trace), evidence) && Sourced(evidence)
      && AllCalled(CompletedCalls(log), evidence, 0)
      && forall i :: 0 <= i < |evidence| ==> evidence[i].step == i + 1
  {
    hide LedgerOk, LogOk, Apart, Task, Owned, CallsOf, EventsOf, EventsById, CompletedCalls;
    var all, evidence := AllObservations(outcomes), MergeAll(outcomes).evidence;
    MergedEvidence(outcomes);
    AllAreOwnedAndDistinct(outcomes);
    EvidenceKeysApart(outcomes);
    forall l | 0 <= l < |evidence|
      ensures CallFor(evidence[l]) in CompletedCalls(log)
      ensures evidence[l].id in EventsById(trace) && EventsById(trace)[evidence[l].id] == CompletionOf(evidence[l])
      ensures evidence[l].sources == SourceIds(evidence[l].output)
    {
      OwnedIsSourced(all[l], outcomes);
      var k := OwnedIsCalled(outcomes, all[l]);
      assert CallFor(evidence[l]) == CallFor(all[l]);
      OwnedIsCompleted(log, k, CallFor(all[l]));
      EventOfObservation(outcomes, log, trace, all[l]);
      assert CompletionOf(evidence[l]) == CompletionOf(all[l]);
    }
  }

  /** From the interleaved tool call rows and trace events of a run, the run detail rebuilds the merged evidence:
      the same identities, order, steps, tools, statuses, record numbers and outputs. Only the service is lost for a
      knowledge search, whose inputs do not name one. */
  lemma HistoryRoundTrip(outcomes: seq<Outcome>, log: seq<Logged>, trace: seq<Traced>)
    requires Distinguished(outcomes) && Audit(outcomes, log, trace)
    ensures var evidence := MergeAll(outcomes).evidence;
      Rebuild(log, trace, Ids(evidence)) == ExpectedAll(evidence)
  {
    hide LedgerOk, LogOk, Apart, Separate, EventsById, CompletedCalls, RebuildAll, ExpectedAll, KeysDistinct,
      EvidenceKeysDistinct, Announced, Sourced, AllCalled, MergeAll, EventsOf;
    var evidence := MergeAll(outcomes).evidence;
    var ids := Ids(evidence);
    MergedFacts(outcomes, log, trace);
    LoggedKeysDistinct(outcomes, log);
    RebuildPrefix(CompletedCalls(log), EventsById(trace), evidence, ids, |evidence|);
    assert ids[..|evidence|] == ids && ExpectedAll(evidence)[..|evidence|] == ExpectedAll(evidence);
  }

  /** A delivered call whose records were rejected as out of scope stays in the log as completed, but its key is
      the key of no evidence, so no evidence is ever rebuilt from it. */
  lemma RejectedCallsAreNotEvidence(outcomes: seq<Outcome>, k: nat, call: Call, i: nat)
    requires Distinguished(outcomes) && k < |outcomes| && call in outcomes[k].branch.calls
    requires Rejected(outcomes[k].setup, call) && i < |MergeAll(outcomes).evidence|
    ensures var o := MergeAll(outcomes).evidence[i]; o.tool != call.tool || o.inputs != call.inputs
  {
    hide LedgerOk, LogOk, Apart, Task, Owned, RecordsMatchScope;
    MergedEvidence(outcomes);
    AllAreOwnedAndDistinct(outcomes);
    var o := AllObservations(outcomes)[i];
    var l := OwnedIsCalled(outcomes, o);
    if k == l {
      RejectedAreNotShown(outcomes[k].setup, outcomes[k].branch, 0);
    } else {
      ApartEitherWay(outcomes, l, k, CallFor(o), call);
    }
  }

  lemma RebuiltService(s: Setup, decisions: seq<Decision>, o: Observation)
    requires ObservationOk(s, decisions, o)
    ensures Expected(o).service == Some(o.service) <==> o.tool != Knowledge && o.service != ""
    ensures Expected(o).service in {None, Some(o.service)}
  {
    hide RecordsMatchScope, Task;
  }

  /** Every run over distinct services, in every interleaving and with or without a follow-up, has tasks to which
      the round trip applies. */
  lemma RunIsDistinguished(c: Settings, services: seq<string>, moves: seq<Move>, extra: Extra)
    requires |services| <= 3 && forall i, j :: 0 <= i < j < |services| ==> services[i] != services[j]
    requires extra.Extra? ==>
      extra.k < |services| && PlayAll(Dispatch(c, services), moves).branches[extra.k].point == Done
    ensures var t := PlayAll(Dispatch(c, services), moves);
      && (extra.Extra? ==> t.branches[extra.k].attemptsUsed <= MAX_AGENT_ATTEMPTS)
      && Distinguished(RunOutcomes(t, extra))
  {
    hide LedgerOk, LogOk, Advance, Start, Dispatch, Alone, Separate, InputsOf, PlayAll;
    DispatchSize(c, services);
    RunIsSeparate(c, services, moves, extra);
    var t := PlayAll(Dispatch(c, services), moves);
    forall i | 0 <= i < |services|
      ensures t.setups[i] == SetupOf(c, services, i) && LogOk(t.setups[i], t.branches[i])
    {
      DispatchTasks(c, services, i);
      BranchesDoNotInterfere(c, services, moves, i);
      AloneKeepsLog(SetupOf(c, services, i), InputsOf(moves, i));
    }
    if extra.Extra? {
      FollowUpStaysInBudget(c, services, moves, extra.k, extra.prior, extra.inputs);
      AloneKeepsLog(FollowupSetup(Outcome(t.setups[extra.k], t.branches[extra.k]), extra.prior), extra.inputs);
    }
  }
}
