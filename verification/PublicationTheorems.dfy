/** From the end of an execution to the public run: the result that was reached is the result that is shown. */
module PublicationTheorems {
  import opened Options
  import opened Durable
  import opened QueueInvariant
  import opened Protocol
  import opened ProtocolInvariant
  import opened ProtocolTheorems
  import opened WorkerLoop
  import opened LeaseTheorems
  import opened ApprovalTheorems
  import opened AttemptTheorems
  import Workflow

  // ------------------------------------------------ an ended private run

  /** The private run of a worker has ended as this row. */
  ghost predicate EndedAs(s: Sys, k: Token, claim: Claim, child: nat, row: Run) {
    && k in s.workers && s.workers[k].claim == claim && ChildOf(s.workers[k].phase) == Some(child)
    && child < |s.db.runs| && s.db.runs[child] == row && row.status in {Completed, Failed}
  }

  lemma ChildIsUnpublished(s: Sys, registry: Workflow.Registry, k: Token, child: nat)
    requires Inv(s, registry) && k in s.workers && ChildOf(s.workers[k].phase) == Some(child)
    ensures forall j :: 0 <= j < |s.db.jobs| ==> s.db.jobs[j].published != Some(child)
  {
    hide Inv;
    forall j | 0 <= j < |s.db.jobs| ensures s.db.jobs[j].published != Some(child) {
      if s.db.jobs[j].published == Some(child) { DecidedIsNobodysChild(s, registry, child); }
    }
  }

  lemma ChildrenDiffer(s: Sys, registry: Workflow.Registry, k: Token, l: Token, child: nat)
    requires Inv(s, registry) && k in s.workers && l in s.workers && k != l && ChildOf(s.workers[k].phase) == Some(child)
    ensures ChildOf(s.workers[l].phase) != Some(child)
    ensures child < |s.db.runs| && Private(s.db, child)
  {
    hide Inv;
    WorkerClaim(s, registry, k);
    WorkerClaim(s, registry, l);
    InvParts(s, registry);
    ChildIsPrivate(s.db, k);
  }

  lemma ChildPrivate(s: Sys, registry: Workflow.Registry, k: Token, child: nat)
    requires Inv(s, registry) && k in s.workers && ChildOf(s.workers[k].phase) == Some(child)
    ensures child < |s.db.runs| && Private(s.db, child)
  {
    hide Inv;
    WorkerClaim(s, registry, k);
    InvParts(s, registry);
    ChildIsPrivate(s.db, k);
  }

  lemma RecoveryKeepsEnded(t: Tables, r: nat)
    requires HasEnded(t, r)
    ensures Reconcile(t, r).0.runs == t.runs
  {
  }

  /** What another's step may touch: not this private run. */
  lemma ForeignTouches(s: Sys, registry: Workflow.Registry, step: Step, k: Token, child: nat)
    returns (closed: set<Token>, touched: set<nat>)
    requires Inv(s, registry) && k in s.workers && ChildOf(s.workers[k].phase) == Some(child)
    requires Foreign(step, k) && step != Recover(child)
    ensures Quiet(s.db, Apply(s, registry, step).db, closed, touched) && child !in touched
  {
    hide Inv, Quiet, CasStep, DecideStep, ResumeCommitStep, Reconcile, StartStep, GiveUpStep, PublishStep, PublishAgainStep,
      RouteStep, InvestigateStep, ThinkStep, CommitStep, ReturnStep, RaiseStep, CheckStep, FailExecutionStep,
      FailResultStep, ResumeThinkStep, Submit, Renew, SyncApproval, ReadCandidate;
    closed, touched := {}, {};
    ChildIsUnpublished(s, registry, k, child);
    QuietMore(s.db, {}, {});
    match step
    case CasClaim(c, worker, lease, token) => CasIsQuiet(s, registry, c, worker, lease, token);
    case Start(l, _) => closed := FencedIsQuiet(s, registry, step, l);
    case GiveUp(l) => closed := FencedIsQuiet(s, registry, step, l);
    case Publish(l) => closed := FencedIsQuiet(s, registry, step, l);
    case PublishAgain(l) => closed := FencedIsQuiet(s, registry, step, l);
    case Route(l, _, _) => touched := OtherWorker(s, registry, step, l, k, child);
    case Investigate(l, _, _, _) => touched := OtherWorker(s, registry, step, l, k, child);
    case Think(l, _) => touched := OtherWorker(s, registry, step, l, k, child);
    case Commit(l, _, _) => touched := OtherWorker(s, registry, step, l, k, child);
    case Return(l) => touched := OtherWorker(s, registry, step, l, k, child);
    case Raise(l) => touched := OtherWorker(s, registry, step, l, k, child);
    case Check(l) => touched := OtherWorker(s, registry, step, l, k, child);
    case FailExecution(l) => touched := OtherWorker(s, registry, step, l, k, child);
    case FailResult(l) => touched := OtherWorker(s, registry, step, l, k, child);
    case Decide(j, action) => touched := DecideKeepsOthers(s, registry, j, action, child);
    case ResumeCommit(run, latency) =>
      if run in s.resumes { ResumedRunIsDecided(s, registry, run); }
      touched := CommitKeepsOthers(s, registry, run, latency, child);
    case Recover(run) =>
      RecoverKeepsOthers(s, registry, run);
      touched := {run};
      QuietMore(s.db, {}, {run});
    case ReadJob => OtherStepsKeepTables(s, registry, step);
    case Crash(_) => OtherStepsKeepTables(s, registry, step);
    case ResumeThink(_, _) => OtherStepsKeepTables(s, registry, step);
    case ApiCrash(_) => OtherStepsKeepTables(s, registry, step);
    case LoseLock(_) => OtherStepsKeepTables(s, registry, step);
    case _ => TableStepIsQuiet(s, registry, step);
  }

  lemma OtherWorker(s: Sys, registry: Workflow.Registry, step: Step, l: Token, k: Token, child: nat)
    returns (touched: set<nat>)
    requires Inv(s, registry) && Inside(step, l) && l != k && k in s.workers && ChildOf(s.workers[k].phase) == Some(child)
    ensures Quiet(s.db, Apply(s, registry, step).db, {}, touched) && child !in touched
  {
    hide Inv, Quiet, Apply;
    if l in s.workers { ChildrenDiffer(s, registry, k, l, child); }
    touched := InsideKeepsOthers(s, registry, step, l, child);
  }

  lemma StepKeepsEnded(s: Sys, registry: Workflow.Registry, step: Step, k: Token, claim: Claim, child: nat, row: Run)
    requires Inv(s, registry) && EndedAs(s, k, claim, child, row) && Foreign(step, k)
    ensures EndedAs(Apply(s, registry, step), k, claim, child, row)
    ensures Apply(s, registry, step).workers.Keys >= {k}
    ensures Apply(s, registry, step).workers[k] == s.workers[k]
  {
    hide Inv, Apply, Quiet, Reconcile;
    ForeignKeepsWorker(s, registry, step, k);
    if step == Recover(child) {
      RecoveryKeepsEnded(s.db, child);
      RecoverIs(s, registry, child);
    } else {
      var closed, touched := ForeignTouches(s, registry, step, k, child);
      ChildPrivate(s, registry, k, child);
      QuietKeepsRow(s.db, Apply(s, registry, step).db, closed, touched, child);
    }
  }

  lemma QuietKeepsRow(a: Tables, b: Tables, closed: set<Token>, touched: set<nat>, r: nat)
    requires Quiet(a, b, closed, touched) && r !in touched && r < |a.runs| && Private(a, r)
    ensures r < |b.runs| && b.runs[r] == a.runs[r]
  {
  }

  /** The result of an execution stays what it is, whatever all others do. */
  lemma {:induction false} ResultStays(
    s: Sys, registry: Workflow.Registry, steps: seq<Step>, k: Token, claim: Claim, child: nat, row: Run)
    requires Inv(s, registry) && EndedAs(s, k, claim, child, row) && AllForeign(steps, k)
    ensures var t := ApplyAll(s, registry, steps);
      EndedAs(t, k, claim, child, row) && k in s.workers && k in t.workers && t.workers[k] == s.workers[k]
  {
    hide Inv, Apply, Foreign;
    if steps != [] {
      var some, last := steps[..|steps| - 1], steps[|steps| - 1];
      forall i | 0 <= i < |some| ensures Foreign(some[i], k) { assert some[i] == steps[i]; }
      ResultStays(s, registry, some, k, claim, child, row);
      ReachableIsInv(s, registry, some);
      StepKeepsEnded(ApplyAll(s, registry, some), registry, last, k, claim, child, row);
    }
  }

  // -------------------------------------------------------- and is published

  /** The public run and its job show this result. */
  predicate ShowsResult(t: Tables, j: nat, child: nat, row: Run) {
    && j < |t.jobs| && t.jobs[j].status == row.status && t.jobs[j].published == Some(child)
    && t.jobs[j].token.None? && t.jobs[j].lease.None? && t.jobs[j].runId < |t.runs|
    && var root := t.runs[t.jobs[j].runId];
       root.status == row.status && root.intent == row.intent && root.answer == row.answer
       && root.finishedAt == row.finishedAt && root.latency == row.latency
  }

  lemma WorkerOwns(s: Sys, registry: Workflow.Registry, k: Token, child: nat)
    requires Inv(s, registry) && k in s.workers && ChildOf(s.workers[k].phase) == Some(child)
    requires Live(s.db, s.workers[k].claim.jobId, k)
    ensures var claim := s.workers[k].claim;
      && Ok(s.db) && claim.token == k && OwnAttempt(s.db, claim) && s.db.attempts[k].execution == Some(child)
      && claim.jobId < |s.db.jobs| && s.db.jobs[claim.jobId].runId == claim.runId
  {
    hide CandidatesOk, CheckpointsOk, ApprovalsOk, NumbersOk, RunsOk, KeysOk, AttemptsOk, Workflow.Unattended;
    var claim := s.workers[k].claim;
    assert WorkerOk(s.db, registry, k, s.workers[k]);
    assert JobOk(s.db, claim.jobId);
  }

  /** A result whose worker is about to publish it, and whose claim is still live after whatever the others did, becomes
      the result of the job and of the public run, exactly as it was reached. */
  lemma ResultIsPublished(
    s: Sys, registry: Workflow.Registry, steps: seq<Step>, k: Token, claim: Claim, child: nat, row: Run)
    requires Inv(s, registry) && EndedAs(s, k, claim, child, row) && s.workers[k].phase == Publishing(child)
    requires AllForeign(steps, k) && Live(ApplyAll(s, registry, steps).db, claim.jobId, k)
    ensures ShowsResult(Apply(ApplyAll(s, registry, steps), registry, Publish(k)).db, claim.jobId, child, row)
  {
    hide Inv, Apply, AllForeign, PublishAttempt;
    ResultStays(s, registry, steps, k, claim, child, row);
    ReachableIsInv(s, registry, steps);
    var t := ApplyAll(s, registry, steps);
    WorkerOwns(t, registry, k, child);
    assert Held(t.db, claim.jobId, k, t.db.jobs[claim.jobId].lease.value);
    PublishIsExact(t.db, claim, child);
    PublishIs(t, registry, k);
    RootStays(t.db, claim);
  }

  lemma PublishIs(t: Sys, registry: Workflow.Registry, k: Token)
    requires k in t.workers && t.workers[k].phase.Publishing?
    ensures Apply(t, registry, Publish(k)).db == PublishAttempt(t.db, t.workers[k].claim).0
  {
    hide PublishAttempt;
  }

  lemma RootStays(t: Tables, claim: Claim)
    requires claim.jobId < |t.jobs|
    ensures var u := PublishAttempt(t, claim).0; |u.jobs| == |t.jobs| && u.jobs[claim.jobId].runId == t.jobs[claim.jobId].runId
  {
    hide SameTask, Publishable, OwnAttempt, LiveClaim, Adopted;
  }

  /** An investigation from its end to the public run: finished, checked and published, with anything the others do in
      between. */
  lemma InvestigationIsPublished(
    s: Sys, registry: Workflow.Registry, k: Token, child: nat, usable: bool, answer: string, latency: nat,
    before: seq<Step>, after: seq<Step>)
    requires Inv(s, registry) && k in s.workers && s.workers[k].phase == Executing(child, None)
    requires AllForeign(before, k) && AllForeign(after, k)
    requires var checked := Apply(ApplyAll(Apply(s, registry, Investigate(k, usable, answer, latency)), registry, before),
                                  registry, Check(k));
             Live(ApplyAll(checked, registry, after).db, s.workers[k].claim.jobId, k)
    ensures child < |s.db.runs|
    ensures var checked := Apply(ApplyAll(Apply(s, registry, Investigate(k, usable, answer, latency)), registry, before),
                                 registry, Check(k));
      var row := s.db.runs[child].(
        status := if usable then Completed else Failed, intent := Some("incident_analysis"), answer := Some(answer),
        latency := Some(latency), finishedAt := Some(s.db.clock));
      ShowsResult(Apply(ApplyAll(checked, registry, after), registry, Publish(k)).db, s.workers[k].claim.jobId, child, row)
  {
    hide Inv, Apply, AllForeign;
    ChildPrivate(s, registry, k, child);
    var claim := s.workers[k].claim;
    var row := s.db.runs[child].(
      status := if usable then Completed else Failed, intent := Some("incident_analysis"), answer := Some(answer),
      latency := Some(latency), finishedAt := Some(s.db.clock));
    var s1 := Apply(s, registry, Investigate(k, usable, answer, latency));
    StepKeepsInv(s, registry, Investigate(k, usable, answer, latency));
    InvestigateEnds(s, registry, k, child, usable, answer, latency, row);
    ResultStays(s1, registry, before, k, claim, child, row);
    ReachableIsInv(s1, registry, before);
    var s2 := ApplyAll(s1, registry, before);
    StepKeepsInv(s2, registry, Check(k));
    CheckLetsThrough(s2, registry, k, claim, child, row);
    ResultIsPublished(Apply(s2, registry, Check(k)), registry, after, k, claim, child, row);
  }

  lemma InvestigateEnds(
    s: Sys, registry: Workflow.Registry, k: Token, child: nat, usable: bool, answer: string, latency: nat, row: Run)
    requires k in s.workers && s.workers[k].phase == Executing(child, None) && child < |s.db.runs|
    requires row == s.db.runs[child].(
      status := if usable then Completed else Failed, intent := Some("incident_analysis"), answer := Some(answer),
      latency := Some(latency), finishedAt := Some(s.db.clock))
    ensures var t := Apply(s, registry, Investigate(k, usable, answer, latency));
      EndedAs(t, k, s.workers[k].claim, child, row) && t.workers[k].phase == Checking(child)
  {
  }

  lemma CheckLetsThrough(s: Sys, registry: Workflow.Registry, k: Token, claim: Claim, child: nat, row: Run)
    requires EndedAs(s, k, claim, child, row) && s.workers[k].phase == Checking(child)
    ensures var t := Apply(s, registry, Check(k));
      EndedAs(t, k, claim, child, row) && t.workers[k].phase == Publishing(child)
  {
  }

  /** An execution that raised, or left its run unfinished, is published as failed. */
  lemma FailureIsPublished(s: Sys, registry: Workflow.Registry, k: Token, child: nat, after: seq<Step>)
    requires Inv(s, registry) && k in s.workers && s.workers[k].phase == Broken(child) && AllForeign(after, k)
    requires Live(ApplyAll(Apply(s, registry, FailExecution(k)), registry, after).db, s.workers[k].claim.jobId, k)
    ensures child < |s.db.runs|
    ensures ShowsResult(
              Apply(ApplyAll(Apply(s, registry, FailExecution(k)), registry, after), registry, Publish(k)).db,
              s.workers[k].claim.jobId, child,
              s.db.runs[child].(status := Failed, answer := Some("ATTEMPT_EXECUTION_FAILED"),
                                finishedAt := Some(s.db.clock)))
  {
    hide Inv, Apply, AllForeign;
    ChildPrivate(s, registry, k, child);
    var row := s.db.runs[child].(status := Failed, answer := Some("ATTEMPT_EXECUTION_FAILED"),
                                 finishedAt := Some(s.db.clock));
    StepKeepsInv(s, registry, FailExecution(k));
    BrokenFails(s, registry, k, child, row);
    ResultIsPublished(Apply(s, registry, FailExecution(k)), registry, after, k, s.workers[k].claim, child, row);
  }

  lemma BrokenFails(s: Sys, registry: Workflow.Registry, k: Token, child: nat, row: Run)
    requires k in s.workers && s.workers[k].phase == Broken(child) && child < |s.db.runs|
    requires row == s.db.runs[child].(status := Failed, answer := Some("ATTEMPT_EXECUTION_FAILED"),
                                      finishedAt := Some(s.db.clock))
    ensures var t := Apply(s, registry, FailExecution(k));
      EndedAs(t, k, s.workers[k].claim, child, row) && t.workers[k].phase == Publishing(child)
  {
  }

  // ------------------------------------------------ submissions and streams

  /** A submission under a key of its team and user that is taken changes nothing; under a new key it makes, within the
      limits, one queued job with the limits it asks for, and a running public run with its question and scope. */
  lemma SubmitIsExact(t: Tables, x: Submission)
    ensures var (u, r) := Submit(t, x);
      var taken := exists j :: 0 <= j < |t.jobs| && t.jobs[j].team == x.team && t.jobs[j].user == x.user
                               && t.jobs[j].key == x.key;
      && (r.Created? <==> !taken && 1 <= x.maxAttempts <= 10) && (!r.Created? ==> u == t)
      && (r == OutOfRange <==> !taken && !(1 <= x.maxAttempts <= 10))
      && (r.Existing? ==> r.jobId < |t.jobs| && t.jobs[r.jobId].key == x.key && t.jobs[r.jobId].request == x.request)
      && (r == Conflict ==> exists j :: 0 <= j < |t.jobs| && t.jobs[j].key == x.key && t.jobs[j].request != x.request)
      && (r.Created? ==>
            && r.jobId == |t.jobs| && |u.jobs| == |t.jobs| + 1 && u.jobs[..|t.jobs|] == t.jobs
            && |u.runs| == |t.runs| + 1 && u.runs[..|t.runs|] == t.runs
            && var job, root := u.jobs[|t.jobs|], u.runs[|t.runs|];
               && job.status == Queued && job.attempts == 0 && job.maxAttempts == x.maxAttempts
               && job.retrySafe == x.retrySafe && job.runId == |t.runs| && job.published.None?
               && job.team == x.team && job.user == x.user && job.key == x.key && job.request == x.request
               && root.status == Running && root.team == Some(x.team) && root.user == Some(x.user) && root.scoped
               && root.services == x.services && root.query == x.query && root.requestId == x.requestId)
  {
    var j := FindSubmission(t.jobs, x);
    if j < |t.jobs| { assert SameKey(t.jobs[j], x); }
    if i :| 0 <= i < |t.jobs| && t.jobs[i].team == x.team && t.jobs[i].user == x.user && t.jobs[i].key == x.key {
      assert SameKey(t.jobs[i], x);
    }
  }

  /** In every reachable state a progress stream shows the run of the attempt that holds the job, and when nobody holds it
      what the job has published. */
  lemma StreamIsExact(s: Sys, registry: Workflow.Registry, j: nat, k: Token, until: int)
    requires Inv(s, registry) && j < |s.db.jobs|
    ensures Held(s.db, j, k, until) && s.db.clock < until ==>
              k in s.db.attempts && VisibleRun(s.db, j) == s.db.attempts[k].execution
    ensures (forall l: Token, end: int :: !(Held(s.db, j, l, end) && s.db.clock < end)) ==>
              VisibleRun(s.db, j) == s.db.jobs[j].published
  {
    hide CandidatesOk, WorkersOk, CheckpointsOk, ApprovalsOk, RunsOk, KeysOk;
    assert JobOk(s.db, j);
    if Held(s.db, j, k, until) { assert AttemptOk(s.db, k); }
    var job := s.db.jobs[j];
    if job.status == Running && job.lease.Some? && job.token.Some? {
      assert Held(s.db, j, job.token.value, job.lease.value);
    }
  }
}
