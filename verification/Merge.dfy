/** The merge of finished branches into one report, whatever the order in which they finished. */
module Merge {
  import opened Options
  import opened Investigation
  import opened InvestigationLedger
  import opened InvestigationLog
  import opened Supervisor
  import opened SupervisorTheorems

  datatype Merged = Merged(
    tasks: seq<Outcome>, evidence: seq<Observation>, steps: seq<Decision>, events: seq<Event>)

  const NOTHING := Merged([], [], [], [])

  /** Observations with the steps that follow `after`. */
  function Numbered(observations: seq<Observation>, after: nat): (r: seq<Observation>)
    ensures |r| == |observations|
    ensures forall i :: 0 <= i < |r| ==> r[i] == observations[i].(step := after + i + 1)
  {
    seq(|observations|, i requires 0 <= i < |observations| => observations[i].(step := after + i + 1))
  }

  function MergeOne(m: Merged, o: Outcome): Merged {
    Merged(m.tasks + [o], m.evidence + Numbered(o.branch.observations, |m.evidence|),
           m.steps + o.branch.decisions, m.events + o.branch.events)
  }

  /** All outcomes in order. */
  function MergeAll(outcomes: seq<Outcome>): Merged {
    if outcomes == [] then NOTHING
    else MergeOne(MergeAll(outcomes[..|outcomes| - 1]), outcomes[|outcomes| - 1])
  }

  /** The lists the supervisor appends to. */
  class Report {
    var tasks: seq<Outcome>
    var evidence: seq<Observation>
    var steps: seq<Decision>
    var events: seq<Event>

    constructor ()
      ensures View() == NOTHING
    {
      tasks, evidence, steps, events := [], [], [], [];
    }

    ghost function View(): Merged
      reads this
    {
      Merged(tasks, evidence, steps, events)
    }

    method MergeOutcome(o: Outcome)
      modifies this
      ensures View() == MergeOne(old(View()), o)
    {
      tasks := tasks + [o];
      ghost var before := evidence;
      for i := 0 to |o.branch.observations|
        invariant evidence == before + Numbered(o.branch.observations, |before|)[..i]
        invariant View() == old(View()).(tasks := old(tasks) + [o], evidence := evidence)
      {
        var observation := o.branch.observations[i];
        evidence := evidence + [observation.(step := |evidence| + 1)];
      }
      steps := steps + o.branch.decisions;
      events := events + o.branch.events;
    }

    /** Results arrive by service number in the order `finish`; they are merged by number. */
    method MergeResults(finish: seq<nat>, outcomes: seq<Outcome>)
      requires forall i :: 0 <= i < |finish| ==> 1 <= finish[i] <= |outcomes|
      requires forall k :: 1 <= k <= |outcomes| ==> k in finish
      requires View() == NOTHING
      modifies this
      ensures View() == MergeAll(outcomes)
    {
      var results: map<nat, Outcome> := map[];
      for i := 0 to |finish|
        invariant forall k :: k in results <==> k in finish[..i]
        invariant forall k :: k in results ==> 1 <= k <= |outcomes| && results[k] == outcomes[k - 1]
      {
        results := results[finish[i] := outcomes[finish[i] - 1]];
      }
      assert finish[..|finish|] == finish;
      for index := 1 to |outcomes| + 1
        invariant View() == MergeAll(outcomes[..index - 1])
      {
        MergeOutcome(results[index]);
        assert outcomes[..index][..index - 1] == outcomes[..index - 1];
      }
      assert outcomes[..|outcomes|] == outcomes;
    }
  }

  // -------------------------------------------------------------- properties

  /** The observations of all outcomes, one after the other. */
  function AllObservations(outcomes: seq<Outcome>): seq<Observation> {
    if outcomes == [] then []
    else AllObservations(outcomes[..|outcomes| - 1]) + outcomes[|outcomes| - 1].branch.observations
  }

  /** The merged evidence is the observations in service order with steps from one on. */
  lemma {:induction false} MergedEvidence(outcomes: seq<Outcome>)
    ensures MergeAll(outcomes).tasks == outcomes
    ensures MergeAll(outcomes).evidence == Numbered(AllObservations(outcomes), 0)
  {
    hide Numbered, MergeOne;
    if outcomes == [] {
      NothingNumbered();
    } else {
      var some, last := outcomes[..|outcomes| - 1], outcomes[|outcomes| - 1];
      MergedEvidence(some);
      MergedOne(MergeAll(some), AllObservations(some), last);
      Rejoined(outcomes);
    }
  }

  lemma Rejoined(outcomes: seq<Outcome>)
    requires outcomes != []
    ensures outcomes[..|outcomes| - 1] + [outcomes[|outcomes| - 1]] == outcomes
  {
  }

  lemma MergedOne(m: Merged, all: seq<Observation>, o: Outcome)
    requires m.evidence == Numbered(all, 0)
    ensures MergeOne(m, o).evidence == Numbered(all + o.branch.observations, 0)
    ensures MergeOne(m, o).tasks == m.tasks + [o]
  {
    hide Numbered;
    NumberedConcat(all, o.branch.observations);
  }

  lemma NothingNumbered()
    ensures Numbered([], 0) == []
  {
  }

  lemma NumberedConcat(xs: seq<Observation>, ys: seq<Observation>)
    ensures Numbered(xs + ys, 0) == Numbered(xs, 0) + Numbered(ys, |xs|)
  {
  }

  /** Finished tasks of one run, no two with the same task identity. */
  ghost predicate Separate(outcomes: seq<Outcome>) {
    && (forall i :: 0 <= i < |outcomes| ==> LedgerOk(outcomes[i].setup, outcomes[i].branch, 0))
    && (forall i, j :: 0 <= i < j < |outcomes| ==> Task(outcomes[i].setup) != Task(outcomes[j].setup))
  }

  /** An observation of one of these outcomes, in its scope. */
  ghost predicate Owned(o: Observation, outcomes: seq<Outcome>) {
    exists k :: 0 <= k < |outcomes| && ObservationOk(outcomes[k].setup, outcomes[k].branch.decisions, o)
                && o in outcomes[k].branch.observations
  }

  lemma OwnedByMore(o: Observation, outcomes: seq<Outcome>, last: Outcome)
    requires Owned(o, outcomes)
    ensures Owned(o, outcomes + [last])
  {
    hide ObservationOk;
    var k :| 0 <= k < |outcomes| && ObservationOk(outcomes[k].setup, outcomes[k].branch.decisions, o)
             && o in outcomes[k].branch.observations;
    assert (outcomes + [last])[k] == outcomes[k];
  }

  lemma OwnedByLast(o: Observation, outcomes: seq<Outcome>, last: Outcome)
    requires LedgerOk(last.setup, last.branch, 0) && o in last.branch.observations
    ensures Owned(o, outcomes + [last]) && o.id.task == Task(last.setup)
  {
    hide DecisionsOk, AttemptsOk, PointOk, CountsOk, RecordsMatchScope;
    assert (outcomes + [last])[|outcomes|] == last;
  }

  lemma OwnerTask(o: Observation, outcomes: seq<Outcome>)
    requires Owned(o, outcomes)
    ensures exists k :: 0 <= k < |outcomes| && o.id.task == Task(outcomes[k].setup)
  {
  }

  lemma {:induction false} AllAreOwnedAndDistinct(outcomes: seq<Outcome>)
    requires Separate(outcomes)
    ensures forall i :: 0 <= i < |AllObservations(outcomes)| ==> Owned(AllObservations(outcomes)[i], outcomes)
    ensures forall i, j :: 0 <= i < j < |AllObservations(outcomes)| ==>
              AllObservations(outcomes)[i].id != AllObservations(outcomes)[j].id
  {
    hide LedgerOk, Owned, Task;
    if outcomes != [] {
      var some, last := outcomes[..|outcomes| - 1], outcomes[|outcomes| - 1];
      assert outcomes == some + [last];
      AllAreOwnedAndDistinct(some);
      var all, before, shown := AllObservations(outcomes), AllObservations(some), last.branch.observations;
      assert all == before + shown;
      LedgerSays(last.setup, last.branch, 0);
      forall i | 0 <= i < |all|
        ensures Owned(all[i], outcomes)
        ensures i >= |before| ==> all[i].id.task == Task(last.setup)
        ensures i < |before| ==> all[i].id.task != Task(last.setup)
      {
        if i < |before| {
          assert all[i] == before[i];
          OwnedByMore(before[i], some, last);
          OwnerTask(before[i], some);
        } else {
          assert all[i] == shown[i - |before|];
          OwnedByLast(all[i], some, last);
        }
      }
      forall i, j | 0 <= i < j < |all| ensures all[i].id != all[j].id {
        if j < |before| {
          assert all[i] == before[i] && all[j] == before[j];
        } else if i >= |before| {
          assert all[i] == shown[i - |before|] && all[j] == shown[j - |before|];
        }
      }
    }
  }

  /** For tasks of a run, finished in any order: the merged evidence has steps 1 to n in service order, holds every
      observation once with an identity of its own, and everything in it is in the scope of its own task. */
  lemma MergedLedger(outcomes: seq<Outcome>)
    requires Separate(outcomes)
    ensures var evidence := MergeAll(outcomes).evidence;
      && |evidence| == |AllObservations(outcomes)|
      && (forall i :: 0 <= i < |evidence| ==> evidence[i] == AllObservations(outcomes)[i].(step := i + 1))
      && (forall i :: 0 <= i < |evidence| ==> Owned(AllObservations(outcomes)[i], outcomes))
      && (forall i, j :: 0 <= i < j < |evidence| ==> evidence[i].id != evidence[j].id)
  {
    hide LedgerOk, Owned, Task;
    MergedEvidence(outcomes);
    AllAreOwnedAndDistinct(outcomes);
  }

  // ------------------------------------------------------------ a whole run

  /** Whether a follow-up ran, for which service and with which inputs. */
  datatype Extra = NoExtra | Extra(k: nat, prior: set<EvidenceId>, inputs: seq<Input>)

  function Outcomes(t: Team): (r: seq<Outcome>)
    requires Sized(t)
    ensures |r| == |t.branches|
    ensures forall i :: 0 <= i < |r| ==> r[i] == Outcome(t.setups[i], t.branches[i])
  {
    seq(|t.branches|, i requires 0 <= i < |t.branches| => Outcome(t.setups[i], t.branches[i]))
  }

  /** The follow-up of a run comes last. */
  function RunOutcomes(t: Team, extra: Extra): seq<Outcome>
    requires Sized(t)
    requires extra.Extra? ==> extra.k < |t.branches| && t.branches[extra.k].attemptsUsed <= MAX_AGENT_ATTEMPTS
  {
    match extra
    case NoExtra => Outcomes(t)
    case Extra(k, prior, inputs) =>
      Outcomes(t) + [Outcome(FollowupSetup(Outcome(t.setups[k], t.branches[k]), prior),
                             RunFollowUp(t, k, prior, inputs).branch)]
  }

  lemma DispatchTasks(c: Settings, services: seq<string>, i: nat)
    requires i < |services|
    ensures Dispatch(c, services).setups[i] == SetupOf(c, services, i)
    ensures Task(SetupOf(c, services, i)) == Primary(i + 1)
  {
  }

  /** The tasks of every run are separate: every interleaving, with or without a follow-up. */
  lemma RunIsSeparate(c: Settings, services: seq<string>, moves: seq<Move>, extra: Extra)
    requires |services| <= 3
    requires extra.Extra? ==>
      extra.k < |services| && PlayAll(Dispatch(c, services), moves).branches[extra.k].point == Done
    ensures var t := PlayAll(Dispatch(c, services), moves);
      && (extra.Extra? ==> t.branches[extra.k].attemptsUsed <= MAX_AGENT_ATTEMPTS)
      && Separate(RunOutcomes(t, extra))
  {
    hide LedgerOk, Advance, Start, Dispatch;
    DispatchIsOk(c, services);
    PlayAllKeepsTeam(Dispatch(c, services), moves);
    var t := PlayAll(Dispatch(c, services), moves);
    assert t.setups == Dispatch(c, services).setups && |t.setups| == |services| by { DispatchSize(c, services); }
    forall i | 0 <= i < |services| ensures Task(t.setups[i]) == Primary(i + 1) { DispatchTasks(c, services, i); }
    if extra.Extra? {
      FollowUpStaysInBudget(c, services, moves, extra.k, extra.prior, extra.inputs);
      var s := FollowupSetup(Outcome(t.setups[extra.k], t.branches[extra.k]), extra.prior);
      TeamBudgets(t, extra.k);
      SeatClaims(t.setups[extra.k], t.branches[extra.k]);
      ContinueIsAlone(s, t.used, t.models, extra.inputs);
    }
  }

  lemma DispatchSize(c: Settings, services: seq<string>)
    ensures |Dispatch(c, services).setups| == |services| == |Dispatch(c, services).branches|
  {
  }

  // ------------------------------------------------------- service summaries

  /** What the result says of one service; `citations` are the steps of its evidence. */
  datatype Summary = Summary(
    service: string, status: TaskStatus, errors: seq<string>, evidence: seq<Observation>, citations: seq<nat>)

  function OfService(evidence: seq<Observation>, service: string): seq<Observation> {
    if evidence == [] then []
    else
      var last := evidence[|evidence| - 1];
      OfService(evidence[..|evidence| - 1], service) + if last.service == service then [last] else []
  }

  /** The errors of a service, task by task. */
  function ErrorsOf(outcomes: seq<Outcome>, service: string): seq<string> {
    if outcomes == [] then []
    else
      var last := outcomes[|outcomes| - 1];
      ErrorsOf(outcomes[..|outcomes| - 1], service) + if last.setup.service == service then last.branch.errors else []
  }

  predicate Incomplete(outcomes: seq<Outcome>, service: string) {
    exists k :: 0 <= k < |outcomes| && outcomes[k].setup.service == service && outcomes[k].branch.status != Complete
  }

  function Summarize(outcomes: seq<Outcome>, evidence: seq<Observation>, service: string): Summary {
    var own := OfService(evidence, service);
    Summary(service, if own == [] then Unusable else if Incomplete(outcomes, service) then Partial else Complete,
            ErrorsOf(outcomes, service), own,
            seq(|own|, i requires 0 <= i < |own| => own[i].step))
  }

  function Sizes(evidence: seq<Observation>, services: seq<string>): nat {
    if services == [] then 0
    else Sizes(evidence, services[..|services| - 1]) + |OfService(evidence, services[|services| - 1])|
  }

  lemma {:induction false} OfServiceMembers(evidence: seq<Observation>, service: string)
    ensures forall o :: o in OfService(evidence, service) <==> o in evidence && o.service == service
  {
    if evidence != [] {
      OfServiceMembers(evidence[..|evidence| - 1], service);
      assert evidence == evidence[..|evidence| - 1] + [evidence[|evidence| - 1]];
    }
  }

  lemma {:induction false} NoneOfService(evidence: seq<Observation>, services: seq<string>)
    requires evidence == []
    ensures Sizes(evidence, services) == 0
  {
    if services != [] { NoneOfService(evidence, services[..|services| - 1]); }
  }

  lemma {:induction false} SizesStep(evidence: seq<Observation>, o: Observation, services: seq<string>)
    requires forall i, j :: 0 <= i < j < |services| ==> services[i] != services[j]
    ensures Sizes(evidence + [o], services) == Sizes(evidence, services) + if o.service in services then 1 else 0
  {
    if services != [] {
      var some, last := services[..|services| - 1], services[|services| - 1];
      SizesStep(evidence, o, some);
      assert services == some + [last];
      assert (evidence + [o])[..|evidence|] == evidence;
    }
  }

  /** Over distinct services every observation is summarized once: the parts have as many as the whole. */
  lemma {:induction false} EvidenceIsPartitioned(evidence: seq<Observation>, services: seq<string>)
    requires forall i, j :: 0 <= i < j < |services| ==> services[i] != services[j]
    requires forall i :: 0 <= i < |evidence| ==> evidence[i].service in services
    ensures Sizes(evidence, services) == |evidence|
  {
    if evidence == [] {
      NoneOfService(evidence, services);
    } else {
      var some, last := evidence[..|evidence| - 1], evidence[|evidence| - 1];
      EvidenceIsPartitioned(some, services);
      SizesStep(some, last, services);
      assert evidence == some + [last];
    }
  }

  /** The summaries of the services of a run split its merged evidence: nothing is lost, repeated or given to another
      service, and a summary says failed exactly when its service has no evidence, and partial exactly when it has
      some and one of its tasks is not complete. */
  lemma SummariesSplitEvidence(outcomes: seq<Outcome>, services: seq<string>, k: nat)
    requires Separate(outcomes) && k < |services|
    requires forall i, j :: 0 <= i < j < |services| ==> services[i] != services[j]
    requires forall i :: 0 <= i < |outcomes| ==> outcomes[i].setup.service in services
    ensures var evidence := MergeAll(outcomes).evidence;
      var s := Summarize(outcomes, evidence, services[k]);
      && Sizes(evidence, services) == |evidence|
      && (forall o :: o in s.evidence <==> o in evidence && o.service == services[k])
      && (s.status == Unusable <==> forall o :: o in evidence ==> o.service != services[k])
      && (s.status == Partial <==> s.evidence != [] && Incomplete(outcomes, services[k]))
  {
    hide LedgerOk, Incomplete, Task, MergeAll, AllObservations;
    var evidence, all := MergeAll(outcomes).evidence, AllObservations(outcomes);
    MergedEvidence(outcomes);
    AllAreOwnedAndDistinct(outcomes);
    forall i | 0 <= i < |evidence| ensures evidence[i].service in services {
      assert Owned(all[i], outcomes);
      OwnerService(all[i], outcomes);
    }
    EvidenceIsPartitioned(evidence, services);
    OfServiceMembers(evidence, services[k]);
    var own := OfService(evidence, services[k]);
    assert own != [] ==> own[0] in own;
  }

  lemma OwnerService(o: Observation, outcomes: seq<Outcome>)
    requires Owned(o, outcomes)
    ensures exists k :: 0 <= k < |outcomes| && o.service == outcomes[k].setup.service
  {
  }
}
