/** Who may take a job: a claim is safe for as long as its lease runs, and every job that is due can be taken. */
module LeaseTheorems {
  import opened Options
  import opened Durable
  import opened QueueInvariant
  import opened Protocol
  import opened ProtocolInvariant
  import opened ProtocolTheorems
  import Workflow

  // --------------------------------------------------------- a running lease

  /** Job `j` is held by token `k` until a time. */
  predicate Held(t: Tables, j: nat, k: Token, until: int) {
    j < |t.jobs| && t.jobs[j].status == Running && t.jobs[j].token == Some(k) && t.jobs[j].lease == Some(until)
  }

  /** While a lease runs no claim, from whatever candidate, touches its job or its attempt. */
  lemma HeldJobIsNotTaken(
    t: Tables, c: Candidate, worker: string, lease: int, token: Token, j: nat, k: Token, until: int)
    requires Ok(t) && Held(t, j, k, until) && t.clock < until && token !in t.attempts
    ensures var u := ClaimCas(t, c, worker, lease, token).0;
      && |u.jobs| == |t.jobs| && u.jobs[j] == t.jobs[j] && k in t.attempts && k in u.attempts
      && u.attempts[k] == t.attempts[k]
    ensures c.jobId == j && 1 <= lease <= 3600 && 0 < |worker| <= 128 && c.row.status in {Queued, Running} ==>
              ClaimCas(t, c, worker, lease, token) == (t, Nothing)
  {
    hide NumbersOk, RunsOk, KeysOk;
    assert JobOk(t, j);
    if c.jobId != j && c.row.token == Some(k) { assert t.attempts[k].jobId == j; }
  }

  /** Nor is it ever offered: a candidate is queued, or running with its lease over, and none with a lower id is. */
  lemma CandidateIsDue(t: Tables)
    ensures var c := ReadCandidate(t);
      && (c.Some? ==>
            && c.value.jobId < |t.jobs| && c.value.row == t.jobs[c.value.jobId] && c.value.now == t.clock
            && (c.value.row.status == Queued
                || (c.value.row.status == Running && c.value.row.lease.Some? && c.value.row.lease.value <= t.clock)))
      && (forall j :: 0 <= j < |t.jobs| && (c.Some? ==> j < c.value.jobId) ==>
            t.jobs[j].status != Queued
            && !(t.jobs[j].status == Running && t.jobs[j].lease.Some? && t.jobs[j].lease.value <= t.clock))
  {
  }

  // --------------------------------------------------------------- a due job

  predicate Allowed(job: Job) { job.status == Queued || (job.retrySafe && job.attempts < job.maxAttempts) }

  /** What a successful claim leaves. */
  ghost predicate Taken(t: Tables, u: Tables, j: nat, worker: string, token: Token, until: int)
    requires j < |t.jobs|
  {
    var job := t.jobs[j];
    && |u.jobs| == |t.jobs| && Held(u, j, token, until) && u.jobs[j].worker == Some(worker)
    && u.jobs[j].attempts == job.attempts + 1 && u.jobs[j].published == job.published
    && token in u.attempts && u.attempts[token].status == Running && u.attempts[token].jobId == j
    && u.attempts[token].number == job.attempts + 1 && u.attempts[token].execution.None?
    && (job.status == Running && job.token.Some? ==>
          job.token.value in u.attempts && u.attempts[job.token.value].status == Expired
          && u.attempts[job.token.value].error == Some("LEASE_EXPIRED"))
    && u.runs == t.runs && u.checkpoints == t.checkpoints
  }

  /** What giving up an expired job leaves. */
  ghost predicate GivenUp(t: Tables, u: Tables, j: nat)
    requires j < |t.jobs|
  {
    var job := t.jobs[j];
    && |u.jobs| == |t.jobs| && u.jobs[j].status == Failed && u.jobs[j].token.None? && u.jobs[j].lease.None?
    && u.jobs[j].attempts == job.attempts && u.jobs[j].published == job.published
    && job.token.Some? && job.token.value in u.attempts && u.attempts[job.token.value].status == Expired
    && u.attempts.Keys == t.attempts.Keys && |u.runs| == |t.runs| && job.runId < |t.runs|
    && u.runs[job.runId].status == Failed
    && u.runs[job.runId].answer == Some(if job.retrySafe then "RETRY_LIMIT_REACHED" else "EXECUTION_OUTCOME_UNKNOWN")
  }

  /** Job `j` is queued or its lease is over, and it is in the state the candidate saw. */
  predicate StillDue(t: Tables, c: Candidate) {
    c.jobId < |t.jobs| &&
    var job := t.jobs[c.jobId];
    if job.status == Queued then c.row.status == Queued
    else job.status == Running && c.row.status == Running && c.row.token == job.token
         && job.lease.Some? && job.lease.value <= t.clock
  }

  /** Every claim with a fresh token, from whatever candidate was read before: a job that is no longer due is left
      alone; a due one is taken when it may be tried, and failed for good when not. */
  lemma ClaimIsExact(
    s: Sys, registry: Workflow.Registry, c: Candidate, worker: string, lease: int, token: Token)
    requires Inv(s, registry) && c in s.candidates && token !in s.db.attempts
    requires 0 < |worker| <= 128 && 1 <= lease <= 3600
    ensures c.jobId < |s.db.jobs|
    ensures var t, j := s.db, c.jobId;
      var (u, r) := ClaimCas(t, c, worker, lease, token);
      && (!StillDue(t, c) <==> r == Nothing) && (r == Nothing ==> u == t)
      && (r == Exhausted <==> StillDue(t, c) && !Allowed(t.jobs[j]))
      && (r == Exhausted ==> GivenUp(t, u, j))
      && (r.Claimed? <==> StillDue(t, c) && Allowed(t.jobs[j]))
      && (r.Claimed? ==> r.claim == Claim(j, t.jobs[j].runId, t.jobs[j].attempts + 1, token)
                         && Taken(t, u, j, worker, token, c.now + lease * 1_000_000))
  {
    ReadParts(s, registry, c);
    ClaimShapes(s.db, c, worker, lease, token);
  }

  lemma ReadParts(s: Sys, registry: Workflow.Registry, c: Candidate)
    requires Inv(s, registry) && c in s.candidates
    ensures Ok(s.db) && ReadOk(s.db, c)
  {
    hide Ok, WorkersOk, CheckpointsOk, ApprovalsOk;
  }

  /** The update hits exactly a job that is still due. */
  lemma HitIsDue(t: Tables, c: Candidate)
    requires JobsOk(t) && ReadOk(t, c)
    ensures CasHits(t, c) <==> StillDue(t, c)
    ensures CasHits(t, c) ==> (MayRetry(c.row) <==> Allowed(t.jobs[c.jobId])) && c.row.attempts == t.jobs[c.jobId].attempts
    ensures CasHits(t, c) && c.row.status == Running ==> ActiveAttempt(t, c.jobId, c.row.token)
  {
    assert JobOk(t, c.jobId);
  }

  lemma ClosedIsGivenUp(t: Tables, u: Tables, c: Candidate)
    requires c.jobId < |t.jobs| && ClosedBy(t, u, c)
    ensures GivenUp(t, u, c.jobId)
  {
    hide CasHits;
  }

  lemma ClaimedIsTaken(t: Tables, u: Tables, c: Candidate, worker: string, lease: int, token: Token)
    requires c.jobId < |t.jobs| && ClaimedBy(t, u, c, worker, lease, token)
    ensures Taken(t, u, c.jobId, worker, token, c.now + lease * 1_000_000)
  {
    hide CasHits;
  }

  lemma ClaimEffects(t: Tables, c: Candidate, worker: string, lease: int, token: Token)
    requires Fits(t, c) && JobOk(t, c.jobId) && t.jobs[c.jobId].runId < |t.runs| && token !in t.attempts
    requires 0 < |worker| <= 128 && 1 <= lease <= 3600 && (c.jobId, t.jobs[c.jobId].attempts + 1) !in t.numbers
    ensures var (u, r) := ClaimCas(t, c, worker, lease, token);
      && (r == Nothing <==> !CasHits(t, c)) && (r == Nothing ==> u == t)
      && (r == Exhausted <==> CasHits(t, c) && !MayRetry(c.row)) && (r == Exhausted ==> ClosedBy(t, u, c))
      && (r.Claimed? <==> CasHits(t, c) && MayRetry(c.row)) && (r.Claimed? ==> ClaimedBy(t, u, c, worker, lease, token))
      && (r.Claimed? ==> r.claim == Claim(c.jobId, t.jobs[c.jobId].runId, t.jobs[c.jobId].attempts + 1, token))
  {
  }

  lemma CandidateInRange(t: Tables, c: Candidate)
    requires ReadOk(t, c)
    ensures c.jobId < |t.jobs|
  {
  }

  lemma RootInRange(t: Tables, j: nat)
    requires RunsOk(t) && JobsOk(t) && j < |t.jobs|
    ensures t.jobs[j].runId < |t.runs| && JobOk(t, j)
  {
  }

  lemma ClaimShapes(t: Tables, c: Candidate, worker: string, lease: int, token: Token)
    requires Ok(t) && ReadOk(t, c) && token !in t.attempts && 0 < |worker| <= 128 && 1 <= lease <= 3600
    ensures var j := c.jobId;
      var (u, r) := ClaimCas(t, c, worker, lease, token);
      && (!StillDue(t, c) <==> r == Nothing) && (r == Nothing ==> u == t)
      && (r == Exhausted <==> StillDue(t, c) && !Allowed(t.jobs[j]))
      && (r == Exhausted ==> GivenUp(t, u, j))
      && (r.Claimed? <==> StillDue(t, c) && Allowed(t.jobs[j]))
      && (r.Claimed? ==> r.claim == Claim(j, t.jobs[j].runId, t.jobs[j].attempts + 1, token)
                         && Taken(t, u, j, worker, token, c.now + lease * 1_000_000))
  {
    hide ClaimCas, CasHits, StillDue, MayRetry, Allowed, JobsOk, AttemptsOk, NumbersOk, KeysOk, ClosedBy, ClaimedBy, Taken,
      GivenUp, ActiveAttempt, JobOk, RunsOk, ReadOk, Fits;
    CandidateInRange(t, c);
    ReadFits(t, c);
    HitIsDue(t, c);
    NextNumberIsFree(t, c.jobId);
    RootInRange(t, c.jobId);
    ClaimEffects(t, c, worker, lease, token);
    var (u, r) := ClaimCas(t, c, worker, lease, token);
    if r == Exhausted { ClosedIsGivenUp(t, u, c); }
    if r.Claimed? { ClaimedIsTaken(t, u, c, worker, lease, token); }
  }

  // ---------------------------------------------------------- the whole time

  /** A step by which the holder of a claim itself renews it or ends it. */
  predicate OwnMove(step: Step, k: Token) {
    match step
    case Heartbeat(claim, _) => claim.token == k
    case GiveUp(l) => l == k
    case Publish(l) => l == k
    case PublishAgain(l) => l == k
    case _ => false
  }

  lemma ForeignFence(t: Tables, claim: Claim, j: nat, k: Token, until: int)
    requires Held(t, j, k, until) && claim.token != k
    ensures |FailUnstarted(t, claim, "SCOPE_CHANGED").0.jobs| == |t.jobs| == |PublishAttempt(t, claim).0.jobs|
    ensures FailUnstarted(t, claim, "SCOPE_CHANGED").0.jobs[j] == t.jobs[j] == PublishAttempt(t, claim).0.jobs[j]
  {
    hide SameTask, Publishable, OwnAttempt;
  }

  lemma StartLeavesJobs(t: Tables, claim: Claim, requestId: nat)
    ensures StartAttempt(t, claim, requestId).0.jobs == t.jobs
  {
    hide ResolveScope;
  }

  lemma FencedStepKeepsHeld(
    s: Sys, registry: Workflow.Registry, step: Step, l: Token, j: nat, k: Token, until: int)
    requires Inv(s, registry) && Held(s.db, j, k, until) && Fenced(step, l) && !OwnMove(step, k)
    ensures var u := Apply(s, registry, step).db; |u.jobs| == |s.db.jobs| && u.jobs[j] == s.db.jobs[j]
  {
    hide Inv, Apply, StartAttempt, FailUnstarted, PublishAttempt, Held;
    FencedStepShape(s, registry, step, l);
    if l in s.workers {
      WorkerClaim(s, registry, l);
      if step.Start? {
        StartLeavesJobs(s.db, s.workers[l].claim, step.requestId);
        StartIsNoEnd(s, registry, step, l);
      } else {
        ForeignFence(s.db, s.workers[l].claim, j, k, until);
      }
    }
  }

  /** A start writes what `start_attempt` writes, and no end of the job. */
  lemma StartIsNoEnd(s: Sys, registry: Workflow.Registry, step: Step, l: Token)
    requires step.Start? && step.k == l && l in s.workers
    ensures Apply(s, registry, step).db in {s.db, StartAttempt(s.db, s.workers[l].claim, step.requestId).0}
  {
    hide StartAttempt;
  }

  lemma ApprovalLeavesJobs(t: Tables, run: nat, action: Workflow.Action, c: Workflow.Config, latency: nat)
    ensures ClaimApproval(t, run, action).0.jobs == t.jobs && Reconcile(t, run).0.jobs == t.jobs
    ensures Close(t, run, c, latency).jobs == t.jobs
  {
  }

  lemma TablesLeaveHeld(t: Tables, x: Submission, claim: Claim, lease: int, i: nat, j: nat, k: Token, until: int)
    requires Held(t, j, k, until)
    ensures |t.jobs| <= |Submit(t, x).0.jobs| && Submit(t, x).0.jobs[j] == t.jobs[j]
    ensures claim.token != k ==> |Renew(t, claim, lease).0.jobs| == |t.jobs| && Renew(t, claim, lease).0.jobs[j] == t.jobs[j]
    ensures |SyncApproval(t, i).jobs| == |t.jobs| && SyncApproval(t, i).jobs[j] == t.jobs[j]
  {
    hide FindSubmission, Adopted;
  }

  lemma DecideLeavesJobs(s: Sys, j: nat, action: Workflow.Action)
    ensures DecideStep(s, j, action).db.jobs == s.db.jobs
  {
    hide ClaimApproval, Workflow.Restored;
    if j < |s.db.jobs| && s.db.jobs[j].published.Some? {
      ApprovalLeavesJobs(s.db, s.db.jobs[j].published.value, action, Workflow.Initial(1), 0);
    }
  }

  lemma ResumeCommitLeavesJobs(s: Sys, run: nat, latency: nat)
    ensures ResumeCommitStep(s, run, latency).db.jobs == s.db.jobs
  {
    hide Close, Stopped;
    if run in s.resumes { ApprovalLeavesJobs(s.db, run, Workflow.Approve, s.resumes[run].config, latency); }
  }

  lemma ApprovalStepsLeaveJobs(s: Sys, registry: Workflow.Registry, step: Step)
    requires step.Decide? || step.ResumeCommit? || step.Recover?
    ensures Apply(s, registry, step).db.jobs == s.db.jobs
  {
    hide DecideStep, ResumeCommitStep, Reconcile;
    match step
    case Decide(j, action) => DecideLeavesJobs(s, j, action);
    case ResumeCommit(run, latency) => ResumeCommitLeavesJobs(s, run, latency);
    case Recover(run) => ApprovalLeavesJobs(s.db, run, Workflow.Approve, Workflow.Initial(1), 0);
  }

  lemma OutsideKeepsHeld(s: Sys, registry: Workflow.Registry, step: Step, j: nat, k: Token, until: int)
    requires Held(s.db, j, k, until) && !OwnMove(step, k)
    requires step.Tick? || step.Permissions? || step.SubmitJob? || step.Heartbeat? || step.Sync?
    ensures var u := Apply(s, registry, step).db; |s.db.jobs| <= |u.jobs| && u.jobs[j] == s.db.jobs[j]
  {
    hide Submit, Renew, SyncApproval;
    var x := if step.SubmitJob? then step.submission else Submission(0, 0, 0, 0, 0, "", {}, true, 1);
    var claim := if step.Heartbeat? then step.claim else Claim(0, 0, 0, k + 1);
    TablesLeaveHeld(s.db, x, claim, if step.Heartbeat? then step.lease else 1, if step.Sync? then step.j else 0, j, k,
                    until);
  }

  lemma CasKeepsHeld(
    s: Sys, registry: Workflow.Registry, c: Candidate, worker: string, lease: int, token: Token, j: nat, k: Token,
    until: int)
    requires Inv(s, registry) && Held(s.db, j, k, until) && s.db.clock < until
    ensures var u := CasStep(s, c, worker, lease, token).db; |u.jobs| == |s.db.jobs| && u.jobs[j] == s.db.jobs[j]
  {
    hide ClaimCas, Ok;
    if c in s.candidates {
      ReadParts(s, registry, c);
      CasLeavesHeld(s.db, c, worker, lease, token, j, k, until);
    }
  }

  lemma CasLeavesHeld(
    t: Tables, c: Candidate, worker: string, lease: int, token: Token, j: nat, k: Token, until: int)
    requires Held(t, j, k, until) && t.clock < until && ReadOk(t, c)
    ensures var u := ClaimCas(t, c, worker, lease, token).0; |u.jobs| == |t.jobs| && u.jobs[j] == t.jobs[j]
  {
    hide MayRetry, ExpiredAttempts, ActiveAttempt;
  }

  lemma PrivateKeepsHeld(s: Sys, registry: Workflow.Registry, step: Step, l: Token)
    requires Inv(s, registry) && Inside(step, l)
    ensures Apply(s, registry, step).db.jobs == s.db.jobs
  {
    hide Inv, Evolves;
    if l in s.workers { PrivateStepEvolves(s, registry, step, l); }
  }

  /** Nothing but its own holder changes the row of a job whose lease runs. */
  lemma StepKeepsHeld(s: Sys, registry: Workflow.Registry, step: Step, j: nat, k: Token, until: int)
    requires Inv(s, registry) && Held(s.db, j, k, until) && s.db.clock < until && !OwnMove(step, k)
    ensures var u := Apply(s, registry, step).db; j < |u.jobs| && u.jobs[j] == s.db.jobs[j]
  {
    hide Inv, Apply, Held, OwnMove, Inside, Fenced;
    HeldInRange(s.db, j, k, until);
    match step
    case CasClaim(c, worker, lease, token) =>
      CasKeepsHeld(s, registry, c, worker, lease, token, j, k, until);
      CasIsCas(s, registry, c, worker, lease, token);
    case Start(l, _) =>
      FencedIs(step, l);
      FencedStepKeepsHeld(s, registry, step, l, j, k, until);
    case GiveUp(l) =>
      FencedIs(step, l);
      FencedStepKeepsHeld(s, registry, step, l, j, k, until);
    case Publish(l) =>
      FencedIs(step, l);
      FencedStepKeepsHeld(s, registry, step, l, j, k, until);
    case PublishAgain(l) =>
      FencedIs(step, l);
      FencedStepKeepsHeld(s, registry, step, l, j, k, until);
    case Route(l, _, _) =>
      InsideIs(step, l);
      PrivateKeepsHeld(s, registry, step, l);
    case Investigate(l, _, _, _) =>
      InsideIs(step, l);
      PrivateKeepsHeld(s, registry, step, l);
    case Think(l, _) =>
      InsideIs(step, l);
      PrivateKeepsHeld(s, registry, step, l);
    case Commit(l, _, _) =>
      InsideIs(step, l);
      PrivateKeepsHeld(s, registry, step, l);
    case Return(l) =>
      InsideIs(step, l);
      PrivateKeepsHeld(s, registry, step, l);
    case Raise(l) =>
      InsideIs(step, l);
      PrivateKeepsHeld(s, registry, step, l);
    case Check(l) =>
      InsideIs(step, l);
      PrivateKeepsHeld(s, registry, step, l);
    case FailExecution(l) =>
      InsideIs(step, l);
      PrivateKeepsHeld(s, registry, step, l);
    case FailResult(l) =>
      InsideIs(step, l);
      PrivateKeepsHeld(s, registry, step, l);
    case ReadJob => OtherStepsKeepTables(s, registry, step);
    case Crash(_) => OtherStepsKeepTables(s, registry, step);
    case ResumeThink(_, _) => OtherStepsKeepTables(s, registry, step);
    case ApiCrash(_) => OtherStepsKeepTables(s, registry, step);
    case LoseLock(_) => OtherStepsKeepTables(s, registry, step);
    case Decide(_, _) => ApprovalStepsLeaveJobs(s, registry, step);
    case ResumeCommit(_, _) => ApprovalStepsLeaveJobs(s, registry, step);
    case Recover(_) => ApprovalStepsLeaveJobs(s, registry, step);
    case _ => OutsideKeepsHeld(s, registry, step, j, k, until);
  }

  lemma HeldInRange(t: Tables, j: nat, k: Token, until: int)
    requires Held(t, j, k, until)
    ensures j < |t.jobs|
  {
  }

  lemma CasIsCas(s: Sys, registry: Workflow.Registry, c: Candidate, worker: string, lease: int, token: Token)
    ensures Apply(s, registry, CasClaim(c, worker, lease, token)) == CasStep(s, c, worker, lease, token)
  {
  }

  lemma FencedIs(step: Step, l: Token)
    requires step.Start? || step.GiveUp? || step.Publish? || step.PublishAgain?
    requires step.k == l
    ensures Fenced(step, l)
  {
  }

  lemma InsideIs(step: Step, l: Token)
    requires step.Route? || step.Investigate? || step.Think? || step.Commit? || step.Return? || step.Raise?
             || step.Check? || step.FailExecution? || step.FailResult?
    requires step.k == l
    ensures Inside(step, l)
  {
  }

  /** Over whole runs: a claim is held, and its job row untouched, until the clock reaches the end of its lease or its
      own holder renews or ends it, whatever all others do. */
  lemma {:induction false} LeaseHolds(
    s: Sys, registry: Workflow.Registry, steps: seq<Step>, j: nat, k: Token, until: int)
    requires Inv(s, registry) && Held(s.db, j, k, until)
    requires forall i :: 0 <= i < |steps| ==> !OwnMove(steps[i], k)
    requires ApplyAll(s, registry, steps).db.clock < until
    ensures var u := ApplyAll(s, registry, steps).db;
      j < |u.jobs| && u.jobs[j] == s.db.jobs[j] && Held(u, j, k, until) && Live(u, j, k)
  {
    hide Inv, Apply, OwnMove, Evolves;
    if steps != [] {
      var some, last := steps[..|steps| - 1], steps[|steps| - 1];
      var front := ApplyAll(s, registry, some);
      ReachableIsInv(s, registry, some);
      StepEvolves(front, registry, last);
      ClockRises(front.db, Apply(front, registry, last).db);
      LeaseHolds(s, registry, some, j, k, until);
      StepKeepsHeld(front, registry, last, j, k, until);
    }
  }

  /** A renewal succeeds exactly when the claim is held and its lease runs; it moves the end of the lease to the given
      number of seconds from now, and until then the claim is live, whatever all others do. */
  lemma RenewalHolds(
    s: Sys, registry: Workflow.Registry, claim: Claim, lease: int, steps: seq<Step>)
    requires Inv(s, registry) && 1 <= lease <= 3600
    requires forall i :: 0 <= i < |steps| ==> !OwnMove(steps[i], claim.token)
    ensures var (t, ok) := Renew(s.db, claim, lease);
      var until := s.db.clock + lease * 1_000_000;
      && (ok <==> exists over: int :: Held(s.db, claim.jobId, claim.token, over) && s.db.clock < over)
      && (ok ==> Held(t, claim.jobId, claim.token, until))
      && (ok && ApplyAll(Apply(s, registry, Heartbeat(claim, lease)), registry, steps).db.clock < until ==>
            Live(ApplyAll(Apply(s, registry, Heartbeat(claim, lease)), registry, steps).db, claim.jobId, claim.token))
  {
    hide Inv, OwnMove, ApplyAll;
    var (t, ok) := Renew(s.db, claim, lease);
    var until := s.db.clock + lease * 1_000_000;
    if ok {
      assert Held(s.db, claim.jobId, claim.token, s.db.jobs[claim.jobId].lease.value);
      var after := Apply(s, registry, Heartbeat(claim, lease));
      StepKeepsInv(s, registry, Heartbeat(claim, lease));
      if ApplyAll(after, registry, steps).db.clock < until {
        LeaseHolds(after, registry, steps, claim.jobId, claim.token, until);
      }
    }
  }
}
