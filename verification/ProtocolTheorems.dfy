/** What the protocol guarantees over every interleaving. */
module ProtocolTheorems {
  import opened Options
  import opened Durable
  import opened QueueInvariant
  import opened Protocol
  import opened ProtocolInvariant
  import Workflow

  // -------------------------------------------------------------- every run

  /** A fenced transaction of a worker. */
  predicate Fenced(step: Step, k: Token) {
    StepOf(step, k) && (step.Start? || step.GiveUp? || step.Publish? || step.PublishAgain?)
  }

  /** Which transaction a fenced step commits, if it commits one. */
  lemma FencedStepShape(s: Sys, registry: Workflow.Registry, step: Step, k: Token)
    requires Fenced(step, k)
    ensures var b := Apply(s, registry, step).db;
      || b == s.db
      || (k in s.workers && step.Start? && b == StartAttempt(s.db, s.workers[k].claim, step.requestId).0)
      || (k in s.workers && b == FailUnstarted(s.db, s.workers[k].claim, "SCOPE_CHANGED").0)
      || (k in s.workers && b == PublishAttempt(s.db, s.workers[k].claim).0)
  {
    hide StartAttempt, FailUnstarted, PublishAttempt;
  }

  lemma WorkerStepEvolves(s: Sys, registry: Workflow.Registry, step: Step, k: Token)
    requires Inv(s, registry) && Fenced(step, k)
    ensures Evolves(s.db, Apply(s, registry, step).db)
  {
    hide Inv, Ok, Evolves, Apply, StartAttempt, FailUnstarted, PublishAttempt;
    DbOk(s, registry);
    EvolvesRefl(s.db);
    FencedStepShape(s, registry, step, k);
    if k in s.workers {
      var claim := s.workers[k].claim;
      if step.Start? { StartKeepsOk(s.db, claim, step.requestId); }
      FailUnstartedKeepsOk(s.db, claim, "SCOPE_CHANGED");
      PublishKeepsOk(s.db, claim);
    }
  }

  /** A step inside an execution. */
  predicate Inside(step: Step, k: Token) {
    && StepOf(step, k)
    && (step.Route? || step.Investigate? || step.Think? || step.Commit? || step.Return? || step.Raise? || step.Check?
        || step.FailExecution? || step.FailResult?)
  }

  /** Which write a step inside an execution makes, if it makes one. */
  lemma PrivateStepShape(s: Sys, registry: Workflow.Registry, step: Step, k: Token)
    requires k in s.workers && Inside(step, k)
    ensures var b, phase := Apply(s, registry, step).db, s.workers[k].phase;
      || b == s.db
      || (phase.Broken? && b == FailPrivate(s.db, phase.child, "ATTEMPT_EXECUTION_FAILED"))
      || (phase.Invalidated? && b == FailPrivate(s.db, phase.child, "INVALID_ATTEMPT_RESULT"))
      || (phase.Executing? && step.Investigate?
          && b == FinishInvestigation(s.db, phase.child, step.usable, Some("incident_analysis"), Some(step.answer), step.latency))
      || (phase.Executing? && step.Commit? && phase.flow.Some? && b == Close(s.db, phase.child, phase.flow.value, step.latency))
  {
    hide FailPrivate, FinishInvestigation, Close, Workflow.Step, Logged, Stopped;
  }

  lemma PrivateStepEvolves(s: Sys, registry: Workflow.Registry, step: Step, k: Token)
    requires Inv(s, registry) && k in s.workers && Inside(step, k)
    ensures var b := Apply(s, registry, step).db;
            Evolves(s.db, b)
            && (b == s.db || (ChildOf(s.workers[k].phase).Some? && PrivateWrite(s.db, b, ChildOf(s.workers[k].phase).value)))
  {
    hide Inv, Evolves, PrivateWrite, Apply, FailPrivate, FinishInvestigation, Close;
    DbOk(s, registry);
    EvolvesRefl(s.db);
    PrivateStepShape(s, registry, step, k);
    var b, phase := Apply(s, registry, step).db, s.workers[k].phase;
    if b != s.db {
      ChildWritable(s, registry, k);
      var child := phase.child;
      var message := if phase.Broken? then "ATTEMPT_EXECUTION_FAILED" else "INVALID_ATTEMPT_RESULT";
      var c := if step.Commit? && phase.Executing? && phase.flow.Some? then phase.flow.value else Workflow.Initial(1);
      var latency := if step.Investigate? || step.Commit? then step.latency else 0;
      PrivateTransactions(s.db, child, message, step.Investigate? && step.usable, Some("incident_analysis"),
                          if step.Investigate? then Some(step.answer) else None, latency, c);
      PrivateKeepsOk(s.db, b, child);
    }
  }

  lemma DecideEvolves(s: Sys, registry: Workflow.Registry, j: nat, action: Workflow.Action)
    requires Inv(s, registry)
    ensures Evolves(s.db, DecideStep(s, j, action).db)
  {
    DbParts(s, registry);
    hide Inv, JobsOk, AttemptsOk, NumbersOk, RunsOk, KeysOk, Evolves, PrivateWrite, ClaimApproval;
    EvolvesRefl(s.db);
    if j < |s.db.jobs| && s.db.jobs[j].published.Some? {
      PublishedIsPrivate(s.db, j);
      var run := s.db.jobs[j].published.value;
      ClaimApprovalIsPrivate(s.db, run, action);
      PrivateKeepsOk(s.db, ClaimApproval(s.db, run, action).0, run);
    }
  }

  lemma ResumeCommitEvolves(s: Sys, registry: Workflow.Registry, run: nat, latency: nat)
    requires Inv(s, registry)
    ensures Evolves(s.db, ResumeCommitStep(s, run, latency).db)
  {
    hide JobsOk, AttemptsOk, NumbersOk, RunsOk, KeysOk, CandidatesOk, WorkersOk, CheckpointsOk, Evolves,
      PrivateWrite, Close, EffectOk, NoRepeats, Workflow.Resuming;
    DbParts(s, registry);
    EvolvesRefl(s.db);
    if run in s.resumes {
      assert ResumeOk(s, registry, run, s.resumes[run]);
      assert DecidedOk(s.db, run, s.decided[run]);
      PublishedIsPrivate(s.db, s.decided[run].jobId);
      PrivateTransactions(s.db, run, "", true, None, None, latency, s.resumes[run].config);
      PrivateKeepsOk(s.db, Close(s.db, run, s.resumes[run].config, latency), run);
    }
  }

  lemma RecoverEvolves(t: Tables, run: nat)
    requires Ok(t)
    ensures Evolves(t, Reconcile(t, run).0)
  {
    hide JobsOk, AttemptsOk, NumbersOk, RunsOk, KeysOk, Evolves, PrivateWrite;
    EvolvesRefl(t);
    if run in t.checkpoints {
      CheckpointIsPrivate(t, run);
      ReconcileIsPrivate(t, run);
      PrivateKeepsOk(t, Reconcile(t, run).0, run);
    }
  }

  lemma CasStepEvolves(s: Sys, registry: Workflow.Registry, c: Candidate, worker: string, lease: int, token: Token)
    requires Inv(s, registry)
    ensures Evolves(s.db, CasStep(s, c, worker, lease, token).db)
  {
    hide JobsOk, AttemptsOk, NumbersOk, RunsOk, KeysOk, Evolves, ReadOk, WorkersOk, ApprovalsOk, CheckpointsOk, Fits,
      ClaimCas;
    EvolvesRefl(s.db);
    if c in s.candidates {
      ReadFits(s.db, c);
      ClaimKeepsOk(s.db, c, worker, lease, token);
    }
  }

  /** No step rewrites the past of a job or of an attempt. */
  lemma StepEvolves(s: Sys, registry: Workflow.Registry, step: Step)
    requires Inv(s, registry)
    ensures Evolves(s.db, Apply(s, registry, step).db)
  {
    hide Inv, Ok, Evolves, StartStep, GiveUpStep, PublishStep, PublishAgainStep, RouteStep, InvestigateStep, ThinkStep;
    hide CommitStep, ReturnStep, RaiseStep, CheckStep, FailExecutionStep, FailResultStep, CasStep, DecideStep;
    hide ResumeCommitStep, Reconcile, Submit, Renew, SyncApproval;
    DbOk(s, registry);
    EvolvesRefl(s.db);
    match step
    case Tick(_) => AmbientEvolves(s.db, Apply(s, registry, step).db);
    case Permissions(_, _) => AmbientEvolves(s.db, Apply(s, registry, step).db);
    case SubmitJob(x) => SubmitKeepsOk(s.db, x);
    case Heartbeat(claim, lease) => RenewKeepsOk(s.db, claim, lease);
    case Sync(j) => SyncKeepsOk(s.db, j);
    case CasClaim(c, worker, lease, token) => CasStepEvolves(s, registry, c, worker, lease, token);
    case Decide(j, action) => DecideEvolves(s, registry, j, action);
    case ResumeCommit(run, latency) => ResumeCommitEvolves(s, registry, run, latency);
    case Recover(run) => RecoverEvolves(s.db, run);
    case Start(k, _) => WorkerStepEvolves(s, registry, step, k);
    case GiveUp(k) => WorkerStepEvolves(s, registry, step, k);
    case Publish(k) => WorkerStepEvolves(s, registry, step, k);
    case PublishAgain(k) => WorkerStepEvolves(s, registry, step, k);
    case Route(k, _, _) => PrivateOrIdle(s, registry, step, k);
    case Investigate(k, _, _, _) => PrivateOrIdle(s, registry, step, k);
    case Think(k, _) => PrivateOrIdle(s, registry, step, k);
    case Commit(k, _, _) => PrivateOrIdle(s, registry, step, k);
    case Return(k) => PrivateOrIdle(s, registry, step, k);
    case Raise(k) => PrivateOrIdle(s, registry, step, k);
    case Check(k) => PrivateOrIdle(s, registry, step, k);
    case FailExecution(k) => PrivateOrIdle(s, registry, step, k);
    case FailResult(k) => PrivateOrIdle(s, registry, step, k);
    case _ => OtherStepsKeepTables(s, registry, step);
  }

  /** Reading, thinking in a resume and losing a process or a lock leave the tables as they are. */
  lemma OtherStepsKeepTables(s: Sys, registry: Workflow.Registry, step: Step)
    requires step.ReadJob? || step.Crash? || step.ResumeThink? || step.ApiCrash? || step.LoseLock?
    ensures Apply(s, registry, step).db == s.db
  {
    hide Workflow.Step, Logged, ReadCandidate;
  }

  lemma PrivateOrIdle(s: Sys, registry: Workflow.Registry, step: Step, k: Token)
    requires Inv(s, registry) && Inside(step, k)
    ensures Evolves(s.db, Apply(s, registry, step).db)
  {
    hide Inv, Evolves, PrivateWrite;
    if k in s.workers {
      PrivateStepEvolves(s, registry, step, k);
    } else {
      EvolvesRefl(s.db);
    }
  }

  lemma {:induction false} RunEvolves(s: Sys, registry: Workflow.Registry, steps: seq<Step>)
    requires Inv(s, registry)
    ensures Evolves(s.db, ApplyAll(s, registry, steps).db)
  {
    hide Inv, Evolves, Apply;
    if steps == [] {
      EvolvesRefl(s.db);
    } else {
      var front := ApplyAll(s, registry, steps[..|steps| - 1]);
      RunEvolves(s, registry, steps[..|steps| - 1]);
      ReachableIsInv(s, registry, steps[..|steps| - 1]);
      StepEvolves(front, registry, steps[|steps| - 1]);
      EvolvesTrans(s.db, front.db, Apply(front, registry, steps[|steps| - 1]).db);
    }
  }

  lemma ClockRises(a: Tables, b: Tables)
    requires Evolves(a, b)
    ensures a.clock <= b.clock
  {
  }

  // ------------------------------------------------------- HIGH-risk execution

  /** Over any interleaving from an empty installation: every HIGH-risk step executed for a job belongs to the run
      that job published, after an `approve` decision for it, and no step of a job is executed twice. */
  lemma HighStepsRunOnceAfterApproval(clock: int, registry: Workflow.Registry, steps: seq<Step>)
    ensures var s := ApplyAll(Empty(clock), registry, steps);
            && (forall i :: 0 <= i < |s.effects| ==>
                  var e := s.effects[i];
                  && e.run in s.decided && s.decided[e.run] == Decision(e.jobId, Workflow.Approve)
                  && e.jobId < |s.db.jobs| && s.db.jobs[e.jobId].published == Some(e.run))
            && (forall i, j :: 0 <= i < j < |s.effects| ==>
                  s.effects[i].jobId != s.effects[j].jobId || s.effects[i].step != s.effects[j].step)
  {
    hide Ok, CandidatesOk, WorkersOk, CheckpointsOk, ResumeOk;
    EmptyIsInv(clock, registry);
    ReachableIsInv(Empty(clock), registry, steps);
    var s := ApplyAll(Empty(clock), registry, steps);
    forall i | 0 <= i < |s.effects|
      ensures var e := s.effects[i];
              && e.run in s.decided && s.decided[e.run] == Decision(e.jobId, Workflow.Approve)
              && e.jobId < |s.db.jobs| && s.db.jobs[e.jobId].published == Some(e.run)
    {
      assert EffectOk(s, s.effects[i]);
      assert DecidedOk(s.db, s.effects[i].run, s.decided[s.effects[i].run]);
    }
  }

  lemma OtherStepsKeepEffects(s: Sys, registry: Workflow.Registry, step: Step)
    requires !step.Think? && !step.ResumeThink?
    ensures Apply(s, registry, step).effects == s.effects
  {
    hide Submit, ReadCandidate, ClaimCas, Renew, StartAttempt, FailUnstarted, PublishAttempt, FinishInvestigation,
      Close;
    hide FailPrivate, ClaimApproval, Reconcile, SyncApproval, Stopped;
  }

  lemma ResumeThinkAdds(s: Sys, registry: Workflow.Registry, run: nat, reply: Workflow.Reply)
    requires Inv(s, registry) && run in s.resumes && ResumeThinkStep(s, registry, run, reply).effects != s.effects
    ensures run in s.decided && s.decided[run].action == Workflow.Approve
    ensures |ResumeThinkStep(s, registry, run, reply).effects| == |s.effects| + 1
  {
    hide Ok, CandidatesOk, WorkersOk, CheckpointsOk, EffectOk, NoRepeats, Workflow.Step, Workflow.Resuming;
    assert ResumeOk(s, registry, run, s.resumes[run]);
    ResumedPosition(s.resumes[run], registry, reply);
  }

  /** A step that executes something HIGH-risk finds the approval already committed, and adds exactly one entry. */
  lemma ExecutionFollowsCommittedApproval(s: Sys, registry: Workflow.Registry, step: Step)
    requires Inv(s, registry) && Apply(s, registry, step).effects != s.effects
    ensures step.ResumeThink? && step.run in s.decided && s.decided[step.run].action == Workflow.Approve
    ensures |Apply(s, registry, step).effects| == |s.effects| + 1
  {
    hide Inv, StartStep, GiveUpStep, PublishStep, PublishAgainStep, RouteStep, InvestigateStep, ThinkStep, CommitStep;
    hide ReturnStep, RaiseStep, CheckStep, FailExecutionStep, FailResultStep, CasStep, DecideStep, ResumeCommitStep;
    hide Reconcile, Submit, Renew, SyncApproval, ReadCandidate;
    if step.Think? {
      ThinkStepKeepsInv(s, registry, step.k, step.reply);
    } else if !step.ResumeThink? {
      OtherStepsKeepEffects(s, registry, step);
    } else if step.run in s.resumes {
      ResumeThinkAdds(s, registry, step.run, step.reply);
    }
  }

  lemma OtherStepsKeepDecisions(s: Sys, registry: Workflow.Registry, step: Step)
    requires !step.Decide?
    ensures Apply(s, registry, step).decided == s.decided
  {
    hide Submit, ReadCandidate, ClaimCas, Renew, StartAttempt, FailUnstarted, PublishAttempt, FinishInvestigation,
      Close;
    hide FailPrivate, ClaimApproval, Reconcile, SyncApproval, Stopped, Logged, Workflow.Step;
  }

  /** A run that was decided is not waiting, so it cannot be claimed again. */
  lemma DecidingKeepsDecisions(s: Sys, registry: Workflow.Registry, j: nat, action: Workflow.Action, run: nat)
    requires Inv(s, registry) && run in s.decided
    ensures var t := DecideStep(s, j, action); run in t.decided && t.decided[run] == s.decided[run]
  {
    hide Ok, CandidatesOk, WorkersOk, CheckpointsOk, EffectOk, NoRepeats, ResumeOk;
    assert DecidedOk(s.db, run, s.decided[run]);
  }

  /** A decision, once committed, is never changed or taken a second time. */
  lemma DecisionsAreFinal(s: Sys, registry: Workflow.Registry, step: Step, run: nat)
    requires Inv(s, registry) && run in s.decided
    ensures var t := Apply(s, registry, step); run in t.decided && t.decided[run] == s.decided[run]
  {
    hide Inv, StartStep, GiveUpStep, PublishStep, PublishAgainStep, RouteStep, InvestigateStep, ThinkStep, CommitStep;
    hide ReturnStep, RaiseStep, CheckStep, FailExecutionStep, FailResultStep, CasStep, DecideStep, ResumeCommitStep;
    hide ResumeThinkStep, Reconcile, Submit, Renew, SyncApproval, ReadCandidate;
    if step.Decide? {
      DecidingKeepsDecisions(s, registry, step.j, step.action, run);
    } else {
      OtherStepsKeepDecisions(s, registry, step);
    }
  }

  /** While a resume holds its lock, its run stays claimed: no recovery has failed it and its checkpoint is there. */
  lemma RecoverySparesActiveApprovals(clock: int, registry: Workflow.Registry, steps: seq<Step>, run: nat)
    ensures var s := ApplyAll(Empty(clock), registry, steps);
            run in s.locks ==>
              && run in s.resumes && run < |s.db.runs| && s.db.runs[run].status == Running
              && run in s.db.checkpoints && s.db.checkpoints[run].decision == Some(s.resumes[run].action)
  {
    hide Ok, CandidatesOk, WorkersOk, CheckpointsOk, EffectOk, NoRepeats, Workflow.Resuming;
    EmptyIsInv(clock, registry);
    ReachableIsInv(Empty(clock), registry, steps);
    var s := ApplyAll(Empty(clock), registry, steps);
    if run in s.locks {
      assert ResumeOk(s, registry, run, s.resumes[run]);
      assert DecidedOk(s.db, run, s.decided[run]);
    }
  }

  /** A run whose approval was claimed never waits for approval again, however often it is recovered. */
  lemma ClaimedApprovalIsNeverReopened(s: Sys, registry: Workflow.Registry, steps: seq<Step>, run: nat)
    requires Inv(s, registry) && run in s.decided
    ensures var t := ApplyAll(s, registry, steps);
            run in t.decided && t.decided[run] == s.decided[run]
            && run < |t.db.runs| && t.db.runs[run].status != WaitingApproval
  {
    hide Ok, CandidatesOk, WorkersOk, CheckpointsOk, EffectOk, NoRepeats, ResumeOk;
    DecidedStays(s, registry, steps, run);
    ReachableIsInv(s, registry, steps);
    var t := ApplyAll(s, registry, steps);
    assert DecidedOk(t.db, run, t.decided[run]);
  }

  lemma {:induction false} DecidedStays(s: Sys, registry: Workflow.Registry, steps: seq<Step>, run: nat)
    requires Inv(s, registry) && run in s.decided
    ensures var t := ApplyAll(s, registry, steps); run in t.decided && t.decided[run] == s.decided[run]
  {
    hide Inv, Apply;
    if steps != [] {
      var front := steps[..|steps| - 1];
      DecidedStays(s, registry, front, run);
      ReachableIsInv(s, registry, front);
      DecisionsAreFinal(ApplyAll(s, registry, front), registry, steps[|steps| - 1], run);
    }
  }

  // -------------------------------------------------------------- stale claims

  /** A claim decided on an old row does what a claim decided on the current row would do. */
  lemma StaleClaimIsAtomic(s: Sys, registry: Workflow.Registry, c: Candidate, worker: string, lease: int, token: Token)
    requires Inv(s, registry) && c in s.candidates && CasHits(s.db, c)
    ensures c.jobId < |s.db.jobs|
    ensures var current := Candidate(c.jobId, c.now, s.db.jobs[c.jobId]);
            && CasHits(s.db, current) && Claimable(current.row, s.db.clock)
            && MayRetry(c.row) == MayRetry(current.row)
            && ClaimCas(s.db, c, worker, lease, token) == ClaimCas(s.db, current, worker, lease, token)
  {
    hide AttemptsOk, NumbersOk, RunsOk, KeysOk, WorkersOk, CheckpointsOk, ApprovalsOk;
    assert ReadOk(s.db, c);
    ReadFits(s.db, c);
    assert JobOk(s.db, c.jobId);
  }

  /** The only way a claim aborts is a token collision: the active attempt is never missing, the number never taken. */
  lemma ClaimAbortsOnlyOnTokenCollision(
      s: Sys, registry: Workflow.Registry, c: Candidate, worker: string, lease: int, token: Token)
    requires Inv(s, registry) && c in s.candidates
    ensures ClaimCas(s.db, c, worker, lease, token).1 == Corrupt ==> token in s.db.attempts
  {
    hide RunsOk, KeysOk, WorkersOk, CheckpointsOk, ApprovalsOk;
    assert ReadOk(s.db, c);
    ReadFits(s.db, c);
    assert JobOk(s.db, c.jobId);
    NextNumberIsFree(s.db, c.jobId);
  }

  lemma NextNumberIsFree(t: Tables, j: nat)
    requires AttemptsOk(t) && NumbersOk(t) && j < |t.jobs|
    ensures (j, t.jobs[j].attempts + 1) !in t.numbers
  {
    var key := (j, t.jobs[j].attempts + 1);
    assert key in t.numbers ==> AttemptOk(t, t.numbers[key]);
  }

  // ---------------------------------------------------------------- the queue

  /** A job is running exactly when it has a token, a lease and one active attempt; its attempts are numbered
      1..attempts without gap or repetition, bounded by the retry limit, and by one for work that must not repeat. */
  ghost predicate ExactRow(t: Tables, j: nat)
    requires j < |t.jobs|
  {
    var job := t.jobs[j];
    && (job.status == Running <==> job.token.Some?) && (job.status == Running <==> job.lease.Some?)
    && (forall k :: k in t.attempts && t.attempts[k].jobId == j && t.attempts[k].status == Running <==>
          job.token == Some(k))
    && (job.token.Some? ==> job.token.value in t.attempts && t.attempts[job.token.value].number == job.attempts)
    && (forall n :: 1 <= n <= job.attempts <==> (j, n) in t.numbers)
    && (forall n :: 1 <= n <= job.attempts ==>
          t.numbers[(j, n)] in t.attempts && t.attempts[t.numbers[(j, n)]].jobId == j
          && t.attempts[t.numbers[(j, n)]].number == n)
    && (forall k :: k in t.attempts && t.attempts[k].jobId == j ==>
          (j, t.attempts[k].number) in t.numbers && t.numbers[(j, t.attempts[k].number)] == k)
    && job.attempts <= job.maxAttempts && (!job.retrySafe ==> job.attempts <= 1)
  }

  lemma RowIsExact(t: Tables, j: nat)
    requires JobsOk(t) && AttemptsOk(t) && NumbersOk(t) && j < |t.jobs|
    ensures ExactRow(t, j)
  {
    assert JobOk(t, j);
    forall k | k in t.attempts && t.attempts[k].jobId == j ensures AttemptOk(t, k) {}
    forall n | (j, n) in t.numbers ensures 1 <= n <= t.jobs[j].attempts {
      assert AttemptOk(t, t.numbers[(j, n)]);
    }
  }

  lemma QueueIsExact(clock: int, registry: Workflow.Registry, steps: seq<Step>, j: nat)
    requires j < |ApplyAll(Empty(clock), registry, steps).db.jobs|
    ensures ExactRow(ApplyAll(Empty(clock), registry, steps).db, j)
  {
    hide Inv, ExactRow;
    EmptyIsInv(clock, registry);
    ReachableIsInv(Empty(clock), registry, steps);
    DbParts(ApplyAll(Empty(clock), registry, steps), registry);
    RowIsExact(ApplyAll(Empty(clock), registry, steps).db, j);
  }

  // ------------------------------------------------------------------ fencing

  /** A claim that is not live can change nothing through any of the fenced transactions. */
  lemma DeadClaimsChangeNothing(t: Tables, claim: Claim, lease: int, requestId: nat, code: string)
    requires !Live(t, claim.jobId, claim.token)
    ensures Renew(t, claim, lease) == (t, false)
    ensures StartAttempt(t, claim, requestId) == (t, LeaseLost)
    ensures PublishAttempt(t, claim).0 == t && PublishAttempt(t, claim).1 != Published
    ensures FailUnstarted(t, claim, code) == (t, ClaimLost)
  {
  }

  /** The steps a worker holding token `k` can take. */
  predicate StepOf(step: Step, k: Token) {
    match step
    case Start(l, _) => l == k
    case GiveUp(l) => l == k
    case Route(l, _, _) => l == k
    case Investigate(l, _, _, _) => l == k
    case Think(l, _) => l == k
    case Commit(l, _, _) => l == k
    case Return(l) => l == k
    case Raise(l) => l == k
    case Check(l) => l == k
    case FailExecution(l) => l == k
    case Publish(l) => l == k
    case FailResult(l) => l == k
    case PublishAgain(l) => l == k
    case Crash(l) => l == k
    case Heartbeat(claim, _) => claim.token == k
    case _ => false
  }

  /** Everything but the private run of attempt `k` and its checkpoint is as before: jobs, attempts, the clock,
      permissions, and every other run and checkpoint. */
  ghost predicate OnlyPrivate(a: Tables, b: Tables, k: Token)
    requires k in a.attempts
  {
    && b == a.(runs := b.runs, checkpoints := b.checkpoints) && |b.runs| == |a.runs|
    && (forall r :: 0 <= r < |a.runs| && a.attempts[k].execution != Some(r) ==> b.runs[r] == a.runs[r])
    && (forall r: nat :: a.attempts[k].execution != Some(r) ==>
          (r in b.checkpoints <==> r in a.checkpoints)
          && (r in a.checkpoints ==> b.checkpoints[r] == a.checkpoints[r]))
  }

  /** Fencing over whole runs: once a token's lease is over or its claim replaced, it stays so, and whatever its
      worker still does reaches only its own private run. */
  lemma FencedForever(s: Sys, registry: Workflow.Registry, steps: seq<Step>, k: Token, step: Step)
    requires Inv(s, registry) && k in s.db.attempts && !Live(s.db, s.db.attempts[k].jobId, k)
    requires StepOf(step, k)
    ensures var t := ApplyAll(s, registry, steps);
            && k in t.db.attempts && !Live(t.db, s.db.attempts[k].jobId, k)
            && OnlyPrivate(t.db, Apply(t, registry, step).db, k)
  {
    RunEvolves(s, registry, steps);
    ReachableIsInv(s, registry, steps);
    var t, j := ApplyAll(s, registry, steps), s.db.attempts[k].jobId;
    DbParts(s, registry);
    DbParts(t, registry);
    DeadStaysDead(s.db, t.db, j, k);
    EvolvedAttempt(s.db, t.db, k);
    DeadStepIsPrivate(t, registry, k, step);
  }

  lemma DbParts(s: Sys, registry: Workflow.Registry)
    requires Inv(s, registry)
    ensures JobsOk(s.db) && AttemptsOk(s.db) && NumbersOk(s.db) && RunsOk(s.db)
  {
    hide JobsOk, AttemptsOk, NumbersOk, RunsOk, KeysOk;
  }

  lemma EvolvedAttempt(a: Tables, b: Tables, k: Token)
    requires Evolves(a, b) && k in a.attempts
    ensures k in b.attempts && b.attempts[k].jobId == a.attempts[k].jobId
  {
    assert AttemptEvolves(a.attempts[k], b.attempts[k]);
  }

  /** A token is live on no job but its own. */
  lemma LiveOnlyAtHome(t: Tables, j: nat, k: Token)
    requires JobsOk(t) && Live(t, j, k)
    ensures k in t.attempts && t.attempts[k].jobId == j
  {
    assert JobOk(t, j);
  }

  lemma NothingIsPrivate(t: Tables, k: Token)
    requires k in t.attempts
    ensures OnlyPrivate(t, t, k)
  {
  }

  lemma DeadStepIsPrivate(s: Sys, registry: Workflow.Registry, k: Token, step: Step)
    requires Inv(s, registry) && k in s.db.attempts && !Live(s.db, s.db.attempts[k].jobId, k) && StepOf(step, k)
    ensures OnlyPrivate(s.db, Apply(s, registry, step).db, k)
  {
    hide Inv, StartAttempt, FailUnstarted, PublishAttempt, Renew, PrivateWrite, Evolves, OnlyPrivate;
    hide RouteStep, InvestigateStep, ThinkStep, CommitStep, CheckStep, FailExecutionStep, FailResultStep;
    DbParts(s, registry);
    NothingIsPrivate(s.db, k);
    if step.Heartbeat? {
      if Live(s.db, step.claim.jobId, k) { LiveOnlyAtHome(s.db, step.claim.jobId, k); }
      DeadClaimsChangeNothing(s.db, step.claim, step.lease, 0, "");
    } else if k in s.workers && !step.Crash? {
      WorkerClaim(s, registry, k);
      if step.Start? || step.GiveUp? || step.Publish? || step.PublishAgain? {
        DeadFencedStep(s, registry, k, step);
      } else {
        PrivateStepEvolves(s, registry, step, k);
        PrivateIsOnlyPrivate(s, registry, k, Apply(s, registry, step).db);
      }
    } else {
      IdleStep(s, registry, k, step);
    }
  }

  lemma DeadFencedStep(s: Sys, registry: Workflow.Registry, k: Token, step: Step)
    requires k in s.workers && !Live(s.db, s.workers[k].claim.jobId, s.workers[k].claim.token)
    requires (step.Start? || step.GiveUp? || step.Publish? || step.PublishAgain?) && step.k == k
    ensures Apply(s, registry, step).db == s.db
  {
    hide StartAttempt, FailUnstarted, PublishAttempt;
    DeadClaimsChangeNothing(s.db, s.workers[k].claim, 0, if step.Start? then step.requestId else 0, "SCOPE_CHANGED");
  }

  lemma IdleStep(s: Sys, registry: Workflow.Registry, k: Token, step: Step)
    requires StepOf(step, k) && !step.Heartbeat? && (k !in s.workers || step.Crash?)
    ensures Apply(s, registry, step).db == s.db
  {
  }

  lemma WorkerClaim(s: Sys, registry: Workflow.Registry, k: Token)
    requires Inv(s, registry) && k in s.workers
    ensures k in s.db.attempts && s.workers[k].claim.token == k && s.workers[k].claim.jobId == s.db.attempts[k].jobId
    ensures ChildOf(s.workers[k].phase).Some? ==> s.db.attempts[k].execution == ChildOf(s.workers[k].phase)
  {
    hide Ok, CandidatesOk, CheckpointsOk, ApprovalsOk, Workflow.Unattended;
    assert WorkerOk(s.db, registry, k, s.workers[k]);
  }

  lemma PrivateIsOnlyPrivate(s: Sys, registry: Workflow.Registry, k: Token, b: Tables)
    requires Inv(s, registry) && k in s.workers
    requires b == s.db || (ChildOf(s.workers[k].phase).Some? && PrivateWrite(s.db, b, ChildOf(s.workers[k].phase).value))
    ensures k in s.db.attempts && OnlyPrivate(s.db, b, k)
  {
    hide Inv;
    WorkerClaim(s, registry, k);
  }

  // -------------------------------------------------------------- publication

  /** A result is published once: the public link never changes afterwards and names the last attempt's run. */
  lemma PublishedOnceByLastAttempt(s: Sys, registry: Workflow.Registry, steps: seq<Step>, j: nat)
    requires Inv(s, registry) && j < |s.db.jobs| && s.db.jobs[j].published.Some?
    ensures var t := ApplyAll(s, registry, steps).db;
            && j < |t.jobs| && t.jobs[j].published == s.db.jobs[j].published
            && t.jobs[j].attempts == s.db.jobs[j].attempts && PublishedByLast(t, j)
  {
    hide Inv, Ok, AttemptsOk, NumbersOk, RunsOk;
    RunEvolves(s, registry, steps);
    ReachableIsInv(s, registry, steps);
    DbParts(s, registry);
    DbParts(ApplyAll(s, registry, steps), registry);
    var t := ApplyAll(s, registry, steps).db;
    assert JobOk(s.db, j) && JobOk(t, j);
    assert JobEvolves(s.db.jobs[j], t.jobs[j], s.db.clock, t.clock);
  }

  /** The public run always shows its job: running while the job is open, the job's outcome afterwards. */
  lemma PublicRunAgreesWithJob(clock: int, registry: Workflow.Registry, steps: seq<Step>, j: nat)
    requires j < |ApplyAll(Empty(clock), registry, steps).db.jobs|
    ensures var t := ApplyAll(Empty(clock), registry, steps).db;
            var job := t.jobs[j];
            && job.runId < |t.runs|
            && (t.runs[job.runId].status == Running <==> job.status in {Queued, Running})
            && (job.status !in {Queued, Running} ==>
                  t.runs[job.runId].status == job.status && job.status in {Completed, Failed, WaitingApproval})
  {
    hide AttemptsOk, NumbersOk, RunsOk, CandidatesOk, WorkersOk, CheckpointsOk, ApprovalsOk;
    EmptyIsInv(clock, registry);
    ReachableIsInv(Empty(clock), registry, steps);
    assert JobOk(ApplyAll(Empty(clock), registry, steps).db, j);
  }

  /** Repairing a published approval twice is repairing it once, and it leaves job and public run with the child's end. */
  lemma SyncIsIdempotent(t: Tables, j: nat)
    requires JobsOk(t) && RunsOk(t)
    ensures var u := SyncApproval(t, j);
            && SyncApproval(u, j) == u
            && (u != t ==> j < |u.jobs| && u.jobs[j].published.Some? && u.jobs[j].published.value < |u.runs|
                           && u.jobs[j].runId < |u.runs|
                           && u.runs[u.jobs[j].runId].status == u.runs[u.jobs[j].published.value].status
                           && u.jobs[j].status == u.runs[u.jobs[j].published.value].status)
  {
    if j < |t.jobs| {
      assert JobOk(t, j);
      if t.jobs[j].published.Some? { PublishedIsPrivate(t, j); }
    }
  }

  /** Repairs of these jobs, one after the other. */
  function SyncAll(t: Tables, jobs: seq<nat>): Tables {
    if jobs == [] then t else SyncApproval(SyncAll(t, jobs[..|jobs| - 1]), jobs[|jobs| - 1])
  }

  /** The end that the published run of a waiting job has reached without the job. */
  predicate Due(t: Tables, j: nat) {
    && j < |t.jobs| && t.jobs[j].status == WaitingApproval && t.jobs[j].published.Some?
    && t.jobs[j].published.value < |t.runs| && t.runs[t.jobs[j].published.value].status in {Completed, Failed}
  }

  /** What repairing these jobs leaves of each row, whatever the order. */
  ghost predicate Synced(t: Tables, u: Tables, jobs: seq<nat>) {
    && u == t.(jobs := u.jobs, runs := u.runs) && |u.jobs| == |t.jobs| && |u.runs| == |t.runs|
    && (forall j: nat :: j < |t.jobs| ==>
          u.jobs[j] == if j in jobs && Due(t, j) then t.jobs[j].(status := t.runs[t.jobs[j].published.value].status)
                       else t.jobs[j])
    && (forall j: nat :: j < |t.jobs| && j in jobs && Due(t, j) && t.jobs[j].runId < |t.runs| ==>
          u.runs[t.jobs[j].runId] == Adopted(t.runs[t.jobs[j].runId], t.runs[t.jobs[j].published.value]))
    && (forall r: nat :: r < |t.runs| && (forall j: nat :: j < |t.jobs| && j in jobs && Due(t, j) ==> t.jobs[j].runId != r)
          ==> u.runs[r] == t.runs[r])
  }

  /** A published run is nobody's public run. */
  lemma PublishedIsNoRoot(t: Tables, j: nat, i: nat)
    requires JobsOk(t) && RunsOk(t) && j < |t.jobs| && i < |t.jobs| && t.jobs[j].published.Some?
    ensures t.jobs[j].published.value < |t.runs| && t.jobs[i].runId < |t.runs|
    ensures t.jobs[i].runId != t.jobs[j].published.value
    ensures i != j ==> t.jobs[i].runId != t.jobs[j].runId
  {
    PublishedIsPrivate(t, j);
  }

  lemma SyncedStep(t: Tables, u: Tables, jobs: seq<nat>, k: nat)
    requires JobsOk(t) && RunsOk(t) && Synced(t, u, jobs)
    ensures Synced(t, SyncApproval(u, k), jobs + [k])
  {
    hide JobsOk, RunsOk, Adopted;
    var v, more := SyncApproval(u, k), jobs + [k];
    forall i: nat, j: nat | i < |t.jobs| && j < |t.jobs| && t.jobs[j].published.Some?
      ensures t.jobs[j].published.value < |t.runs| && t.jobs[i].runId < |t.runs|
      ensures t.jobs[i].runId != t.jobs[j].published.value && (i != j ==> t.jobs[i].runId != t.jobs[j].runId)
    {
      PublishedIsNoRoot(t, j, i);
    }
    assert forall j: nat :: j in more <==> j in jobs || j == k;
    if k < |t.jobs| && t.jobs[k].published.Some? {
      var child := t.jobs[k].published.value;
      assert u.runs[child] == t.runs[child];
    }
  }

  lemma {:induction false} SyncAllIs(t: Tables, jobs: seq<nat>)
    requires JobsOk(t) && RunsOk(t)
    ensures Synced(t, SyncAll(t, jobs), jobs)
  {
    hide JobsOk, RunsOk, Synced, SyncApproval;
    if jobs == [] {
      NothingSynced(t);
    } else {
      SyncAllIs(t, jobs[..|jobs| - 1]);
      SyncedStep(t, SyncAll(t, jobs[..|jobs| - 1]), jobs[..|jobs| - 1], jobs[|jobs| - 1]);
      assert jobs == jobs[..|jobs| - 1] + [jobs[|jobs| - 1]];
    }
  }

  lemma NothingSynced(t: Tables)
    ensures Synced(t, t, [])
  {
  }

  lemma SyncedIsUnique(t: Tables, u: Tables, v: Tables, jobs: seq<nat>, others: seq<nat>)
    requires RunsOk(t) && Synced(t, u, jobs) && Synced(t, v, others) && forall j :: j in jobs <==> j in others
    ensures u == v
  {
    hide Adopted;
    forall r: nat | r < |t.runs| ensures u.runs[r] == v.runs[r] {
      if j: nat :| j < |t.jobs| && j in jobs && Due(t, j) && t.jobs[j].runId == r {
        assert j in others;
      }
    }
    assert u.jobs == v.jobs && u.runs == v.runs;
  }

  /** In every reachable state, repairs may come in any order and any number: what they leave depends only on which
      jobs were repaired, each as if it were repaired alone. */
  lemma RepairsCommute(clock: int, registry: Workflow.Registry, steps: seq<Step>, jobs: seq<nat>, others: seq<nat>)
    requires forall j :: j in jobs <==> j in others
    ensures var t := ApplyAll(Empty(clock), registry, steps).db;
            SyncAll(t, jobs) == SyncAll(t, others) && Synced(t, SyncAll(t, jobs), jobs)
  {
    hide Inv, Synced, SyncAll, JobsOk, RunsOk;
    EmptyIsInv(clock, registry);
    ReachableIsInv(Empty(clock), registry, steps);
    var t := ApplyAll(Empty(clock), registry, steps).db;
    DbParts(ApplyAll(Empty(clock), registry, steps), registry);
    SyncAllIs(t, jobs);
    SyncAllIs(t, others);
    SyncedIsUnique(t, SyncAll(t, jobs), SyncAll(t, others), jobs, others);
  }

  // ------------------------------------------------------------------ run_one

  /** A worker that returned from `run_one` holds no live lease: its claim is closed, replaced or expired. */
  lemma ReturnedWorkersHoldNothing(clock: int, registry: Workflow.Registry, steps: seq<Step>, k: Token)
    ensures var s := ApplyAll(Empty(clock), registry, steps);
            k in s.workers && s.workers[k].phase.Returned? ==> forall j: nat :: !Live(s.db, j, k)
  {
    hide Ok, JobsOk, AttemptsOk, RunsOk, NumbersOk, CandidatesOk, CheckpointsOk, ApprovalsOk;
    EmptyIsInv(clock, registry);
    ReachableIsInv(Empty(clock), registry, steps);
    var s := ApplyAll(Empty(clock), registry, steps);
    DbParts(s, registry);
    if k in s.workers && s.workers[k].phase.Returned? {
      assert WorkerOk(s.db, registry, k, s.workers[k]);
      forall j: nat ensures !Live(s.db, j, k) {
        if Live(s.db, j, k) { LiveOnlyAtHome(s.db, j, k); }
      }
    }
  }

  /** The exceptions `run_one` lets through never occur: the attempt is never missing or already allocated, and the
      second publication never finds an invalid result. */
  lemma RunOneNeverRaises(s: Sys, registry: Workflow.Registry, step: Step, k: Token)
    requires Inv(s, registry) && k in s.workers && StepOf(step, k) && !step.Crash?
    ensures k in Apply(s, registry, step).workers
  {
    hide Ok, CandidatesOk, CheckpointsOk, ApprovalsOk, WorkerOk, Workflow.Step, StartAttempt, FailUnstarted,
      PublishAttempt, Renew;
    var w := s.workers[k];
    assert WorkerOk(s.db, registry, k, w);
    match step
    case Start(_, requestId) => if w.phase.Holding? { StartedWorkerOk(s.db, registry, k, w, requestId); }
    case GiveUp(_) => if w.phase.Unstarted? { GivenUpWorkerOk(s.db, registry, k, w); }
    case PublishAgain(_) => if w.phase.Republishing? { PublishedWorkerOk(s.db, registry, k, w); }
    case _ =>
  }

  // -------------------------------------------------------------- termination

  /** Claims a job can still have, plus one for closing it. */
  function Allowance(job: Job): nat {
    if job.status in {Queued, Running} && job.attempts <= job.maxAttempts then job.maxAttempts - job.attempts + 1 else 0
  }

  function Total(jobs: seq<Job>): nat {
    if jobs == [] then 0 else Total(jobs[..|jobs| - 1]) + Allowance(jobs[|jobs| - 1])
  }

  predicate NoneRises(a: seq<Job>, b: seq<Job>) {
    |a| <= |b| && forall j :: 0 <= j < |a| ==> Allowance(b[j]) <= Allowance(a[j])
  }

  lemma {:induction false} TotalDrops(a: seq<Job>, b: seq<Job>, strict: bool)
    requires NoneRises(a, b) && |a| == |b|
    requires strict ==> exists j :: 0 <= j < |a| && Allowance(b[j]) < Allowance(a[j])
    ensures Total(b) <= Total(a) && (strict ==> Total(b) < Total(a))
  {
    if a != [] {
      var n := |a| - 1;
      var still := strict && Allowance(b[n]) == Allowance(a[n]);
      if still {
        var j :| 0 <= j < |a| && Allowance(b[j]) < Allowance(a[j]);
        assert Allowance(b[..n][j]) < Allowance(a[..n][j]);
      }
      TotalDrops(a[..n], b[..n], still);
    }
  }

  /** A successful claim or reclaim, an exhaustion, a publication, or a claim given up. */
  predicate Progresses(s: Sys, step: Step) {
    match step
    case CasClaim(c, worker, lease, token) =>
      c in s.candidates && ClaimCas(s.db, c, worker, lease, token).1 !in {BadArguments, Nothing, Corrupt}
    case GiveUp(k) =>
      k in s.workers && s.workers[k].phase.Unstarted?
      && FailUnstarted(s.db, s.workers[k].claim, "SCOPE_CHANGED").1 == ClaimFailed
    case Publish(k) =>
      k in s.workers && s.workers[k].phase.Publishing? && PublishAttempt(s.db, s.workers[k].claim).1 == Published
    case PublishAgain(k) =>
      k in s.workers && s.workers[k].phase.Republishing? && PublishAttempt(s.db, s.workers[k].claim).1 == Published
    case _ => false
  }

  lemma EvolutionNeverRaises(a: Tables, b: Tables)
    requires JobsOk(a) && Evolves(a, b)
    ensures NoneRises(a.jobs, b.jobs)
  {
    forall j | 0 <= j < |a.jobs| ensures Allowance(b.jobs[j]) <= Allowance(a.jobs[j]) {
      assert JobEvolves(a.jobs[j], b.jobs[j], a.clock, b.clock) && JobOk(a, j);
    }
  }

  lemma ClaimLowers(t: Tables, c: Candidate, worker: string, lease: int, token: Token)
    requires JobsOk(t) && Fits(t, c) && ClaimCas(t, c, worker, lease, token).1 !in {BadArguments, Nothing, Corrupt}
    ensures var u := ClaimCas(t, c, worker, lease, token).0;
            |u.jobs| == |t.jobs| && Allowance(u.jobs[c.jobId]) < Allowance(t.jobs[c.jobId])
  {
    assert JobOk(t, c.jobId);
    ClaimShape(t, c, worker, lease, token);
  }

  lemma ClosingLowers(t: Tables, claim: Claim)
    requires JobsOk(t)
    ensures PublishAttempt(t, claim).1 == Published ==>
              var u := PublishAttempt(t, claim).0;
              |u.jobs| == |t.jobs| && claim.jobId < |t.jobs| && Allowance(u.jobs[claim.jobId]) < Allowance(t.jobs[claim.jobId])
    ensures FailUnstarted(t, claim, "SCOPE_CHANGED").1 == ClaimFailed ==>
              var u := FailUnstarted(t, claim, "SCOPE_CHANGED").0;
              |u.jobs| == |t.jobs| && claim.jobId < |t.jobs| && Allowance(u.jobs[claim.jobId]) < Allowance(t.jobs[claim.jobId])
  {
    if claim.jobId < |t.jobs| { assert JobOk(t, claim.jobId); }
  }

  lemma ProgressLowersOne(s: Sys, registry: Workflow.Registry, step: Step)
    requires Inv(s, registry) && Progresses(s, step)
    ensures var a, b := s.db.jobs, Apply(s, registry, step).db.jobs;
            |a| == |b| && exists j :: 0 <= j < |a| && Allowance(b[j]) < Allowance(a[j])
  {
    hide AttemptsOk, RunsOk, NumbersOk, KeysOk, WorkersOk, CheckpointsOk, ApprovalsOk, JobsOk, Allowance, ReadOk, Fits;
    hide ClaimCas, FailUnstarted, PublishAttempt;
    match step {
      case CasClaim(c, worker, lease, token) =>
        ReadFits(s.db, c);
        ClaimLowers(s.db, c, worker, lease, token);
        assert c.jobId < |s.db.jobs|;
      case GiveUp(k) => ClosingLowers(s.db, s.workers[k].claim);
      case Publish(k) => ClosingLowers(s.db, s.workers[k].claim);
      case PublishAgain(k) => ClosingLowers(s.db, s.workers[k].claim);
    }
  }

  lemma ProgressLowersTotal(s: Sys, registry: Workflow.Registry, step: Step)
    requires Inv(s, registry) && Progresses(s, step)
    ensures Total(Apply(s, registry, step).db.jobs) < Total(s.db.jobs)
  {
    hide Inv, Apply, Evolves, Allowance;
    StepEvolves(s, registry, step);
    DbParts(s, registry);
    EvolutionNeverRaises(s.db, Apply(s, registry, step).db);
    ProgressLowersOne(s, registry, step);
    TotalDrops(s.db.jobs, Apply(s, registry, step).db.jobs, true);
  }

  lemma OtherStepsKeepTotal(s: Sys, registry: Workflow.Registry, step: Step)
    requires Inv(s, registry) && !step.SubmitJob?
    ensures Total(Apply(s, registry, step).db.jobs) <= Total(s.db.jobs)
  {
    hide Inv, Ok, Evolves, Apply, Allowance;
    StepEvolves(s, registry, step);
    DbParts(s, registry);
    EvolutionNeverRaises(s.db, Apply(s, registry, step).db);
    SameJobCount(s, registry, step);
    TotalDrops(s.db.jobs, Apply(s, registry, step).db.jobs, false);
  }

  lemma SameJobCount(s: Sys, registry: Workflow.Registry, step: Step)
    requires !step.SubmitJob?
    ensures |Apply(s, registry, step).db.jobs| == |s.db.jobs|
  {
    hide RouteStep, InvestigateStep, ThinkStep, CommitStep, ReturnStep, RaiseStep, CheckStep, FailExecutionStep,
      FailResultStep;
    hide StartStep, GiveUpStep, PublishStep, PublishAgainStep, CasStep, DecideStep, ResumeCommitStep, Reconcile;
    match step
    case Start(k, requestId) => StartKeepsCount(s, k, requestId);
    case GiveUp(k) => ClosingKeepsCount(s, k);
    case Publish(k) => ClosingKeepsCount(s, k);
    case PublishAgain(k) => ClosingKeepsCount(s, k);
    case CasClaim(c, worker, lease, token) => CasKeepsCount(s, c, worker, lease, token);
    case Decide(_, _) => OutsideKeepsCount(s, registry, step);
    case ResumeCommit(_, _) => OutsideKeepsCount(s, registry, step);
    case Recover(_) => OutsideKeepsCount(s, registry, step);
    case _ => PrivateKeepsCount(s, registry, step);
  }

  lemma StartKeepsCount(s: Sys, k: Token, requestId: nat)
    ensures |StartStep(s, k, requestId).db.jobs| == |s.db.jobs|
  {
    hide ResolveScope;
  }

  lemma ClosingKeepsCount(s: Sys, k: Token)
    ensures |GiveUpStep(s, k).db.jobs| == |s.db.jobs|
    ensures |PublishStep(s, k).db.jobs| == |s.db.jobs|
    ensures |PublishAgainStep(s, k).db.jobs| == |s.db.jobs|
  {
    hide SameTask, Publishable, OwnAttempt;
  }

  lemma CasKeepsCount(s: Sys, c: Candidate, worker: string, lease: int, token: Token)
    ensures |CasStep(s, c, worker, lease, token).db.jobs| == |s.db.jobs|
  {
    hide ExpiredAttempts, ActiveAttempt;
  }

  lemma OutsideKeepsCount(s: Sys, registry: Workflow.Registry, step: Step)
    requires step.Decide? || step.ResumeCommit? || step.Recover?
    ensures |Apply(s, registry, step).db.jobs| == |s.db.jobs|
  {
    hide ClaimApproval, Close, Reconcile;
    match step
    case Decide(j, action) =>
      if j < |s.db.jobs| && s.db.jobs[j].published.Some? { ApprovalKeepsCount(s.db, s.db.jobs[j].published.value, action); }
    case ResumeCommit(run, latency) => if run in s.resumes { CloseKeepsCount(s.db, run, s.resumes[run].config, latency); }
    case Recover(run) => RecoveryKeepsCount(s.db, run);
  }

  lemma ApprovalKeepsCount(t: Tables, run: nat, action: Workflow.Action)
    ensures |ClaimApproval(t, run, action).0.jobs| == |t.jobs|
  {
  }

  lemma CloseKeepsCount(t: Tables, run: nat, c: Workflow.Config, latency: nat)
    ensures |Close(t, run, c, latency).jobs| == |t.jobs|
  {
  }

  lemma RecoveryKeepsCount(t: Tables, run: nat)
    ensures |Reconcile(t, run).0.jobs| == |t.jobs|
  {
  }

  lemma PrivateKeepsCount(s: Sys, registry: Workflow.Registry, step: Step)
    requires !step.SubmitJob? && !step.Decide? && !step.ResumeCommit? && !step.Recover? && !step.CasClaim?
    requires !step.Start? && !step.GiveUp? && !step.Publish? && !step.PublishAgain?
    ensures |Apply(s, registry, step).db.jobs| == |s.db.jobs|
  {
    hide Workflow.Step, Logged;
  }

  lemma SubmitRaisesTotal(t: Tables, x: Submission)
    ensures Total(Submit(t, x).0.jobs) <= Total(t.jobs) + 11
  {
    hide FindSubmission;
    var u := Submit(t, x).0;
    if u != t { assert u.jobs[..|u.jobs| - 1] == t.jobs; }
  }

  function Submissions(steps: seq<Step>): nat {
    if steps == [] then 0
    else Submissions(steps[..|steps| - 1]) + if steps[|steps| - 1].SubmitJob? then 1 else 0
  }

  function ProgressCount(s: Sys, registry: Workflow.Registry, steps: seq<Step>): nat {
    if steps == [] then 0
    else
      var front := steps[..|steps| - 1];
      ProgressCount(s, registry, front)
      + if Progresses(ApplyAll(s, registry, front), steps[|steps| - 1]) then 1 else 0
  }

  /** Any finite set of jobs yields finitely many executions: claims, exhaustions and publications together are bounded by
      what the jobs allow, however long and however adversarial the run. */
  lemma {:induction false} ExecutionsAreBounded(s: Sys, registry: Workflow.Registry, steps: seq<Step>)
    requires Inv(s, registry)
    ensures ProgressCount(s, registry, steps) + Total(ApplyAll(s, registry, steps).db.jobs)
            <= Total(s.db.jobs) + 11 * Submissions(steps)
  {
    hide Inv, Total, Apply, Progresses, Submissions;
    if steps == [] {
      NoSubmissions();
    } else {
      var front, last := steps[..|steps| - 1], steps[|steps| - 1];
      ExecutionsAreBounded(s, registry, front);
      ReachableIsInv(s, registry, front);
      SubmissionsStep(steps);
      var t := ApplyAll(s, registry, front);
      if last.SubmitJob? {
        SubmitStepRaises(t, registry, last);
      } else if Progresses(t, last) {
        ProgressLowersTotal(t, registry, last);
      } else {
        OtherStepsKeepTotal(t, registry, last);
      }
    }
  }

  lemma NoSubmissions()
    ensures Submissions([]) == 0
  {
  }

  lemma SubmissionsStep(steps: seq<Step>)
    requires steps != []
    ensures Submissions(steps)
            == Submissions(steps[..|steps| - 1]) + if steps[|steps| - 1].SubmitJob? then 1 else 0
  {
  }

  lemma SubmitStepRaises(s: Sys, registry: Workflow.Registry, step: Step)
    requires step.SubmitJob?
    ensures Total(Apply(s, registry, step).db.jobs) <= Total(s.db.jobs) + 11
    ensures !Progresses(s, step)
  {
    hide Total, Submit;
    SubmitRaisesTotal(s.db, step.submission);
  }

  // --------------------------------------------------------------- submissions

  /** Resubmitting finds the job of the first submission, at any later time, and reports a conflict if and only if the
      request differs; no second job is ever made for a key. */
  lemma SubmissionIsIdempotent(s: Sys, registry: Workflow.Registry, steps: seq<Step>, x: Submission, y: Submission)
    requires Inv(s, registry) && 1 <= x.maxAttempts <= 10 && Submit(s.db, x).1.Created?
    requires y.team == x.team && y.user == x.user && y.key == x.key
    ensures var t := ApplyAll(Apply(s, registry, SubmitJob(x)), registry, steps);
            Submit(t.db, y) == (t.db, if y.request == x.request then Existing(Submit(s.db, x).1.jobId) else Conflict)
  {
    var u := Apply(s, registry, SubmitJob(x));
    var t := ApplyAll(u, registry, steps);
    var j := |s.db.jobs|;
    StepKeepsInv(s, registry, SubmitJob(x));
    RunEvolves(u, registry, steps);
    ReachableIsInv(u, registry, steps);
    Submitted(s.db, x);
    hide JobsOk, AttemptsOk, NumbersOk, RunsOk, CandidatesOk, WorkersOk, CheckpointsOk, ApprovalsOk, Submit;
    assert JobEvolves(u.db.jobs[j], t.db.jobs[j], u.db.clock, t.db.clock);
    hide Evolves;
    FoundAgain(t.db, y, j);
  }

  lemma Submitted(t: Tables, x: Submission)
    requires Submit(t, x).1.Created?
    ensures var (u, r) := Submit(t, x);
            r.jobId == |t.jobs| < |u.jobs| && SameKey(u.jobs[|t.jobs|], x) && u.jobs[|t.jobs|].request == x.request
  {
  }

  lemma FoundAgain(t: Tables, y: Submission, j: nat)
    requires KeysOk(t) && j < |t.jobs| && SameKey(t.jobs[j], y)
    ensures Submit(t, y) == (t, if t.jobs[j].request == y.request then Existing(j) else Conflict)
  {
    var i := FindSubmission(t.jobs, y);
    assert i <= j;
  }

  // ----------------------------------------------------------------- progress

  /** A progress stream never shows a superseded or expired attempt: what it shows is the leased last attempt, or the
      published run. */
  lemma StreamShowsOnlyCurrentWork(clock: int, registry: Workflow.Registry, steps: seq<Step>, j: nat, k: Token)
    requires var t := ApplyAll(Empty(clock), registry, steps).db;
             j < |t.jobs| && k in t.attempts && t.attempts[k].execution.Some?
             && VisibleRun(t, j) == t.attempts[k].execution
    ensures var t := ApplyAll(Empty(clock), registry, steps).db;
            && t.attempts[k].jobId == j && t.attempts[k].number == t.jobs[j].attempts
            && t.attempts[k].status != Expired
            && (t.attempts[k].status == Running ==> Live(t, j, k))
  {
    hide Inv, Ok, CandidatesOk, WorkersOk, CheckpointsOk, ApprovalsOk;
    EmptyIsInv(clock, registry);
    ReachableIsInv(Empty(clock), registry, steps);
    DbParts(ApplyAll(Empty(clock), registry, steps), registry);
    VisibleIsCurrent(ApplyAll(Empty(clock), registry, steps).db, j, k);
  }

  lemma VisibleIsCurrent(t: Tables, j: nat, k: Token)
    requires JobsOk(t) && AttemptsOk(t) && NumbersOk(t) && RunsOk(t)
    requires j < |t.jobs| && k in t.attempts && t.attempts[k].execution.Some?
    requires VisibleRun(t, j) == t.attempts[k].execution
    ensures t.attempts[k].jobId == j && t.attempts[k].number == t.jobs[j].attempts && t.attempts[k].status != Expired
    ensures t.attempts[k].status == Running ==> Live(t, j, k)
  {
    assert JobOk(t, j);
  }
}
