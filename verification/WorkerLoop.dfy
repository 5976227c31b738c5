/** One pass of a worker, with anything the rest of the installation may do between its transactions. */
module WorkerLoop {
  import opened Options
  import opened Durable
  import opened QueueInvariant
  import opened Protocol
  import opened ProtocolInvariant
  import opened ProtocolTheorems
  import Workflow

  /** What others may do while a worker holds token `k`: everything but moving that worker or reusing its token. The
      worker's own heartbeat runs beside it. */
  predicate Foreign(step: Step, k: Token) {
    (!StepOf(step, k) || step.Heartbeat?) && (step.CasClaim? ==> step.token != k)
  }

  predicate AllForeign(steps: seq<Step>, k: Token) {
    forall i :: 0 <= i < |steps| ==> Foreign(steps[i], k)
  }

  /** What the executor does to its private run. */
  predicate Working(step: Step, k: Token) {
    StepOf(step, k) && (step.Route? || step.Investigate? || step.Think? || step.Commit?)
  }

  lemma ForeignKeepsWorker(s: Sys, registry: Workflow.Registry, step: Step, k: Token)
    requires k in s.workers && Foreign(step, k)
    ensures var t := Apply(s, registry, step); k in t.workers && t.workers[k] == s.workers[k]
  {
    hide Workflow.Step, ClaimCas, StartAttempt, PublishAttempt, FailUnstarted, ClaimApproval, Reconcile, SyncApproval, Renew,
      Submit, Close, FailPrivate, FinishInvestigation;
    if step.CasClaim? { ClaimReturnsItsToken(s.db, step.candidate, step.worker, step.lease, step.token); }
  }

  lemma ClaimReturnsItsToken(t: Tables, c: Candidate, worker: string, lease: int, token: Token)
    ensures var r := ClaimCas(t, c, worker, lease, token).1; r.Claimed? ==> r.claim.token == token
  {
  }

  /** Executing keeps the worker in its execution, or leaves it to be checked or failed, always on the same private run. */
  ghost predicate Engaged(phase: Phase, child: nat) {
    phase == Checking(child) || phase == Broken(child) || (phase.Executing? && phase.child == child)
  }

  lemma WorkingKeepsEngaged(s: Sys, registry: Workflow.Registry, step: Step, k: Token, child: nat)
    requires k in s.workers && Engaged(s.workers[k].phase, child) && Working(step, k)
    ensures var t := Apply(s, registry, step);
            k in t.workers && Engaged(t.workers[k].phase, child) && t.workers[k].claim == s.workers[k].claim
  {
    hide Workflow.Step, Close, FinishInvestigation, Logged;
  }

  class Installation {
    const registry: Workflow.Registry
    var s: Sys

    constructor (clock: int, registry: Workflow.Registry)
      ensures this.registry == registry && s == Empty(clock) && Inv(s, registry)
    {
      this.registry := registry;
      s := Empty(clock);
      EmptyIsInv(clock, registry);
    }

    method Take(step: Step)
      requires Inv(s, registry)
      modifies this
      ensures s == Apply(old(s), registry, step) && Inv(s, registry)
    {
      StepKeepsInv(s, registry, step);
      s := Apply(s, registry, step);
    }

    /** The others act for a while. */
    method Interleave(steps: seq<Step>, ghost k: Token)
      requires Inv(s, registry) && AllForeign(steps, k)
      modifies this
      ensures s == ApplyAll(old(s), registry, steps) && Inv(s, registry)
      ensures k in old(s).workers ==> k in s.workers && s.workers[k] == old(s).workers[k]
    {
      hide Inv, Apply, Foreign;
      ghost var before := s;
      for i := 0 to |steps|
        invariant Inv(s, registry) && s == ApplyAll(before, registry, steps[..i])
        invariant k in before.workers ==> k in s.workers && s.workers[k] == before.workers[k]
      {
        assert steps[..i + 1][..i] == steps[..i];
        if k in s.workers { ForeignKeepsWorker(s, registry, steps[i], k); }
        Take(steps[i]);
      }
      assert steps[..|steps|] == steps;
    }

    /** The executor's own writes, each preceded by whatever the others do. */
    method Execute(k: Token, work: seq<Step>, others: seq<seq<Step>>, raises: bool, ghost child: nat)
      requires Inv(s, registry) && k in s.workers && Engaged(s.workers[k].phase, child)
      requires |others| == |work| + 1
      requires forall i :: 0 <= i < |work| ==> Working(work[i], k)
      requires forall i :: 0 <= i < |others| ==> AllForeign(others[i], k)
      modifies this
      ensures Inv(s, registry) && k in s.workers
      ensures s.workers[k].claim == old(s).workers[k].claim
      ensures s.workers[k].phase in {Checking(child), Broken(child)}
    {
      hide Inv, Foreign, AllForeign, Working;
      ghost var claim := s.workers[k].claim;
      for i := 0 to |work|
        invariant Inv(s, registry) && k in s.workers && Engaged(s.workers[k].phase, child) && s.workers[k].claim == claim
      {
        Interleave(others[i], k);
        WorkingKeepsEngaged(s, registry, work[i], k, child);
        Take(work[i]);
      }
      Interleave(others[|work|], k);
      if s.workers[k].phase.Executing? {
        Take(if raises then Raise(k) else Return(k));
      }
    }

    /** Publication; an invalid result fails the private run first. The others act before each further transaction. */
    method PublishResult(k: Token, before: seq<Step>, between: seq<Step>)
      requires Inv(s, registry) && k in s.workers && s.workers[k].phase.Publishing?
      requires AllForeign(before, k) && AllForeign(between, k)
      modifies this
      ensures Inv(s, registry) && k in s.workers && s.workers[k].phase == Returned
    {
      hide Inv, Foreign, AllForeign, Apply;
      var published := PublishAttempt(s.db, s.workers[k].claim).1;
      Publishes(s, registry, k);
      Take(Publish(k));
      if published == Invalid {
        Interleave(before, k);
        Corrected(s, registry, k);
        Take(FailResult(k));
        Interleave(between, k);
        PublishesAgain(s, registry, k);
        Take(PublishAgain(k));
      }
    }

    /** `run_one`: claim, allocate, execute, settle the private run and publish, with the others acting in between. It
        worked exactly when its compare-and-swap obtained the claim; then it went through all its steps and leaves no
        live lease behind, on whichever path it returned. */
    method RunOne(worker: string, lease: int, token: Token, requestId: nat, work: seq<Step>, raises: bool,
                  others: seq<seq<Step>>, meanwhile: seq<seq<Step>>)
      returns (worked: bool)
      requires Inv(s, registry) && token !in s.workers
      requires |others| == |work| + 1 && |meanwhile| == 8
      requires forall i :: 0 <= i < |work| ==> Working(work[i], token)
      requires forall i :: 0 <= i < |others| ==> AllForeign(others[i], token)
      requires forall i :: 0 <= i < |meanwhile| ==> AllForeign(meanwhile[i], token)
      modifies this
      ensures Inv(s, registry)
      ensures worked == Obtains(old(s), registry, worker, lease, token, meanwhile[0])
      ensures worked ==> token in s.workers && s.workers[token].phase == Returned
      ensures worked ==> token in s.db.attempts && forall j: nat :: !Live(s.db, j, token)
    {
      hide Inv, Foreign, AllForeign, Working, Apply;
      var candidate := ReadCandidate(s.db);
      if candidate.None? {
        return false;
      }
      ReadJobOffers(s, registry);
      Take(ReadJob);
      CandidatesStay(s, registry, meanwhile[0]);
      Interleave(meanwhile[0], token);
      var outcome := ClaimCas(s.db, candidate.value, worker, lease, token).1;
      ClaimingTakesHold(s, registry, candidate.value, worker, lease, token);
      Take(CasClaim(candidate.value, worker, lease, token));
      if !outcome.Claimed? {
        return false;
      }
      worked := true;
      Interleave(meanwhile[1], token);
      var started := StartAttempt(s.db, s.workers[token].claim, requestId).1;
      Starting(s, registry, token, requestId);
      Take(Start(token, requestId));
      if started == ScopeChanged {
        Interleave(meanwhile[2], token);
        GivingUp(s, registry, token);
        Take(GiveUp(token));
        NothingHeld(s, registry, token);
        return;
      }
      if started == LeaseLost {
        NothingHeld(s, registry, token);
        return;
      }
      ghost var child := started.child;
      Execute(token, work, others, raises, child);
      Interleave(meanwhile[3], token);
      if s.workers[token].phase == Checking(s.workers[token].phase.child) {
        Checked(s, registry, token);
        Take(Check(token));
        Interleave(meanwhile[4], token);
      }
      if s.workers[token].phase.Broken? {
        Failing(s, registry, token);
        Take(FailExecution(token));
        Interleave(meanwhile[5], token);
      }
      PublishResult(token, meanwhile[6], meanwhile[7]);
      NothingHeld(s, registry, token);
    }
  }

  /** The candidate read now is still claimable after the others acted. */
  predicate Obtains(s: Sys, registry: Workflow.Registry, worker: string, lease: int, token: Token, others: seq<Step>) {
    var candidate := ReadCandidate(s.db);
    candidate.Some?
    && ClaimCas(ApplyAll(Apply(s, registry, ReadJob), registry, others).db, candidate.value, worker, lease, token).1.Claimed?
  }

  lemma ReadJobOffers(s: Sys, registry: Workflow.Registry)
    ensures var t := Apply(s, registry, ReadJob);
            t.db == s.db && t.workers == s.workers
            && (ReadCandidate(s.db).Some? ==> ReadCandidate(s.db).value in t.candidates)
  {
  }

  lemma CandidateStays(s: Sys, registry: Workflow.Registry, step: Step)
    ensures s.candidates <= Apply(s, registry, step).candidates
  {
    hide Workflow.Step, ClaimCas, StartAttempt, PublishAttempt, FailUnstarted, ClaimApproval, Reconcile, SyncApproval, Renew,
      Submit, Close, FailPrivate, FinishInvestigation, ReadCandidate, Logged;
  }

  lemma {:induction false} CandidatesStay(s: Sys, registry: Workflow.Registry, steps: seq<Step>)
    ensures s.candidates <= ApplyAll(s, registry, steps).candidates
  {
    hide Apply;
    if steps != [] {
      CandidatesStay(s, registry, steps[..|steps| - 1]);
      CandidateStays(ApplyAll(s, registry, steps[..|steps| - 1]), registry, steps[|steps| - 1]);
    }
  }

  lemma ClaimingTakesHold(s: Sys, registry: Workflow.Registry, c: Candidate, worker: string, lease: int, token: Token)
    ensures var t := Apply(s, registry, CasClaim(c, worker, lease, token));
            c in s.candidates && ClaimCas(s.db, c, worker, lease, token).1.Claimed? ==>
              token in t.workers && t.workers[token].phase == Holding
  {
    hide ClaimCas;
  }

  lemma Starting(s: Sys, registry: Workflow.Registry, k: Token, requestId: nat)
    requires Inv(s, registry) && k in s.workers && s.workers[k].phase == Holding
    ensures var t, r := Apply(s, registry, Start(k, requestId)), StartAttempt(s.db, s.workers[k].claim, requestId).1;
            && r != Corrupted && k in t.workers && t.workers[k].claim == s.workers[k].claim
            && (r == LeaseLost ==> t.workers[k].phase == Returned)
            && (r == ScopeChanged ==> t.workers[k].phase == Unstarted)
            && (r.Started? ==> t.workers[k].phase == Executing(r.child, None))
  {
    hide Ok, CandidatesOk, CheckpointsOk, ApprovalsOk, WorkerOk, StartAttempt;
    assert WorkerOk(s.db, registry, k, s.workers[k]);
    StartedWorkerOk(s.db, registry, k, s.workers[k], requestId);
  }

  lemma GivingUp(s: Sys, registry: Workflow.Registry, k: Token)
    requires Inv(s, registry) && k in s.workers && s.workers[k].phase == Unstarted
    ensures var t := Apply(s, registry, GiveUp(k)); k in t.workers && t.workers[k].phase == Returned
  {
    hide Ok, CandidatesOk, CheckpointsOk, ApprovalsOk, WorkerOk, FailUnstarted;
    assert WorkerOk(s.db, registry, k, s.workers[k]);
    GivenUpWorkerOk(s.db, registry, k, s.workers[k]);
  }

  lemma Checked(s: Sys, registry: Workflow.Registry, k: Token)
    requires k in s.workers && s.workers[k].phase.Checking?
    ensures var t := Apply(s, registry, Check(k));
            k in t.workers && (t.workers[k].phase.Broken? || t.workers[k].phase.Publishing?)
  {
  }

  lemma Failing(s: Sys, registry: Workflow.Registry, k: Token)
    requires k in s.workers && s.workers[k].phase.Broken?
    ensures var t := Apply(s, registry, FailExecution(k)); k in t.workers && t.workers[k].phase.Publishing?
  {
  }

  lemma Publishes(s: Sys, registry: Workflow.Registry, k: Token)
    requires k in s.workers && s.workers[k].phase.Publishing?
    ensures var t := Apply(s, registry, Publish(k));
            k in t.workers
            && (if PublishAttempt(s.db, s.workers[k].claim).1 == Invalid then t.workers[k].phase.Invalidated?
                else t.workers[k].phase == Returned)
  {
    hide PublishAttempt;
  }

  lemma Corrected(s: Sys, registry: Workflow.Registry, k: Token)
    requires k in s.workers && s.workers[k].phase.Invalidated?
    ensures var t := Apply(s, registry, FailResult(k)); k in t.workers && t.workers[k].phase.Republishing?
  {
  }

  lemma PublishesAgain(s: Sys, registry: Workflow.Registry, k: Token)
    requires Inv(s, registry) && k in s.workers && s.workers[k].phase.Republishing?
    ensures var t := Apply(s, registry, PublishAgain(k)); k in t.workers && t.workers[k].phase == Returned
  {
    hide Ok, CandidatesOk, CheckpointsOk, ApprovalsOk, WorkerOk, PublishAttempt;
    assert WorkerOk(s.db, registry, k, s.workers[k]);
    PublishedWorkerOk(s.db, registry, k, s.workers[k]);
  }

  lemma NothingHeld(s: Sys, registry: Workflow.Registry, k: Token)
    requires Inv(s, registry) && k in s.workers && s.workers[k].phase == Returned
    ensures k in s.db.attempts && forall j: nat :: !Live(s.db, j, k)
  {
    hide Ok, JobsOk, AttemptsOk, RunsOk, NumbersOk, CandidatesOk, CheckpointsOk, ApprovalsOk;
    WorkerClaim(s, registry, k);
    DbParts(s, registry);
    assert WorkerOk(s.db, registry, k, s.workers[k]);
    forall j: nat ensures !Live(s.db, j, k) {
      if Live(s.db, j, k) { LiveOnlyAtHome(s.db, j, k); }
    }
  }
}
