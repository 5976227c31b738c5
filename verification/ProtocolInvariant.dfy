/** The invariant of the whole protocol and its preservation by every step. */
module ProtocolInvariant {
  import opened Options
  import opened Durable
  import opened QueueInvariant
  import opened Protocol
  import Workflow

  // ------------------------------------------------------------- invariant

  /** What a candidate read at any earlier time still tells. */
  ghost predicate ReadOk(t: Tables, c: Candidate) {
    c.jobId < |t.jobs| &&
    var job := t.jobs[c.jobId];
    && c.now <= t.clock
    && c.row.runId == job.runId && c.row.retrySafe == job.retrySafe && c.row.maxAttempts == job.maxAttempts
    && (c.row.status == Queued || c.row.status == Running)
    && (c.row.status == Queued ==> c.row.attempts == 0)
    && (c.row.status == Running ==>
          c.row.token.Some? && c.row.token.value in t.attempts
          && t.attempts[c.row.token.value].jobId == c.jobId
          && t.attempts[c.row.token.value].number == c.row.attempts)
  }

  predicate Open(a: Attempt) { a.status == Running || a.status == Expired }

  ghost predicate ClaimOk(t: Tables, k: Token, claim: Claim) {
    && k in t.attempts && claim.token == k
    && t.attempts[k].jobId == claim.jobId && t.attempts[k].number == claim.number
    && claim.jobId < |t.jobs| && t.jobs[claim.jobId].runId == claim.runId
  }

  function ChildOf(phase: Phase): Option<nat> {
    match phase
    case Executing(child, _) => Some(child)
    case Checking(child) => Some(child)
    case Broken(child) => Some(child)
    case Publishing(child) => Some(child)
    case Invalidated(child) => Some(child)
    case Republishing(child) => Some(child)
    case _ => None
  }

  ghost predicate WorkerOk(t: Tables, registry: Workflow.Registry, k: Token, w: Worker) {
    && ClaimOk(t, k, w.claim)
    && (w.phase.Returned? ==> !Live(t, w.claim.jobId, k))
    && (!w.phase.Returned? ==> Open(t.attempts[k]) && t.attempts[k].execution == ChildOf(w.phase))
    && (w.phase.Executing? && w.phase.flow.Some? ==>
          !t.jobs[w.claim.jobId].retrySafe && Workflow.Unattended(w.phase.flow.value, registry))
    && (w.phase.Republishing? ==> w.phase.child < |t.runs| && t.runs[w.phase.child].status == Failed)
  }

  ghost predicate DecidedOk(t: Tables, r: nat, d: Decision) {
    && d.jobId < |t.jobs| && t.jobs[d.jobId].published == Some(r)
    && r < |t.runs| && t.runs[r].status != WaitingApproval
    && (r in t.checkpoints ==> t.checkpoints[r].decision == Some(d.action))
  }

  /** A resumed run acts on a committed decision; while its lock is held its claim is intact. */
  ghost predicate ResumeOk(s: Sys, registry: Workflow.Registry, r: nat, p: Resume) {
    && r in s.decided && s.decided[r] == Decision(p.jobId, p.action)
    && Workflow.Resuming(p.config, p.saved, p.action, registry)
    && (r in s.locks ==> r < |s.db.runs| && s.db.runs[r].status == Running && r in s.db.checkpoints)
  }

  /** Steps the graph is past: those before its position, and one more when the step it made raised. */
  function Passed(c: Workflow.Config): nat { c.state.currentStep + if c.node == Workflow.Raised then 1 else 0 }

  /** A HIGH-risk step was executed for an approved run, and a resumed run is already past it. */
  ghost predicate EffectOk(s: Sys, e: Effect) {
    && e.run in s.decided && s.decided[e.run] == Decision(e.jobId, Workflow.Approve)
    && (e.run in s.resumes ==> e.step < Passed(s.resumes[e.run].config))
  }

  ghost predicate NoRepeats(effects: seq<Effect>) {
    forall i, j :: 0 <= i < j < |effects| ==> effects[i].run != effects[j].run || effects[i].step != effects[j].step
  }

  ghost predicate CandidatesOk(s: Sys) {
    forall c :: c in s.candidates ==> ReadOk(s.db, c)
  }

  ghost predicate WorkersOk(s: Sys, registry: Workflow.Registry) {
    forall k :: k in s.workers ==> WorkerOk(s.db, registry, k, s.workers[k])
  }

  ghost predicate CheckpointsOk(t: Tables, registry: Workflow.Registry) {
    forall r :: r in t.checkpoints ==> Workflow.AtGate(t.checkpoints[r].state, registry)
  }

  ghost predicate ApprovalsOk(s: Sys, registry: Workflow.Registry) {
    && (forall r :: r in s.decided ==> DecidedOk(s.db, r, s.decided[r]))
    && (forall r :: r in s.resumes ==> ResumeOk(s, registry, r, s.resumes[r]))
    && s.locks <= s.resumes.Keys
    && (forall i :: 0 <= i < |s.effects| ==> EffectOk(s, s.effects[i]))
    && NoRepeats(s.effects)
  }

  ghost predicate Inv(s: Sys, registry: Workflow.Registry) {
    Ok(s.db) && CandidatesOk(s) && WorkersOk(s, registry) && CheckpointsOk(s.db, registry) && ApprovalsOk(s, registry)
  }

  // ---------------------------------------------------------------- fencing

  /** Once a token is not the live token of its job it never is again. */
  lemma DeadStaysDead(a: Tables, b: Tables, j: nat, k: Token)
    requires JobsOk(a) && JobsOk(b) && AttemptsOk(a) && Evolves(a, b)
    requires k in a.attempts && a.attempts[k].jobId == j && !Live(a, j, k)
    ensures !Live(b, j, k)
  {
    assert AttemptOk(a, k);
    assert JobOk(a, j) && JobOk(b, j);
    assert JobEvolves(a.jobs[j], b.jobs[j], a.clock, b.clock);
    assert AttemptEvolves(a.attempts[k], b.attempts[k]);
  }

  // ----------------------------------------------------------------- frames

  /** Everything outside the named attempts and private runs is as before. */
  ghost predicate Quiet(a: Tables, b: Tables, closed: set<Token>, touched: set<nat>) {
    && (forall l :: l in a.attempts && l !in closed && Open(a.attempts[l]) ==>
          l in b.attempts && Open(b.attempts[l]) && b.attempts[l].execution == a.attempts[l].execution)
    && |a.runs| <= |b.runs|
    && (forall r :: 0 <= r < |a.runs| && r !in touched && Private(a, r) ==> b.runs[r] == a.runs[r])
    && (forall r :: r in b.checkpoints && r !in touched ==> r in a.checkpoints && b.checkpoints[r] == a.checkpoints[r])
    && (forall r :: r in a.checkpoints && r !in touched ==> r in b.checkpoints)
  }

  ghost predicate Private(t: Tables, r: nat) {
    forall j :: 0 <= j < |t.jobs| ==> t.jobs[j].runId != r
  }

  lemma CandidatesFrame(s: Sys, b: Tables)
    requires CandidatesOk(s) && Evolves(s.db, b)
    ensures CandidatesOk(s.(db := b))
  {
    forall c | c in s.candidates ensures ReadOk(b, c) {
      assert ReadOk(s.db, c);
      assert JobEvolves(s.db.jobs[c.jobId], b.jobs[c.jobId], s.db.clock, b.clock);
      if c.row.status == Running {
        assert AttemptEvolves(s.db.attempts[c.row.token.value], b.attempts[c.row.token.value]);
      }
    }
  }

  lemma ChildIsPrivate(t: Tables, k: Token)
    requires RunsOk(t) && k in t.attempts && t.attempts[k].execution.Some?
    ensures t.attempts[k].execution.value < |t.runs| && Private(t, t.attempts[k].execution.value)
  {
  }

  lemma WorkerFrame(a: Tables, b: Tables, registry: Workflow.Registry, k: Token, w: Worker,
                    closed: set<Token>, touched: set<nat>)
    requires JobsOk(a) && JobsOk(b) && AttemptsOk(a) && RunsOk(a) && Evolves(a, b) && Quiet(a, b, closed, touched)
    requires WorkerOk(a, registry, k, w) && (k in closed ==> w.phase.Returned?)
    requires w.phase.Republishing? && w.phase.child in touched ==>
               w.phase.child < |b.runs| && b.runs[w.phase.child].status == Failed
    ensures WorkerOk(b, registry, k, w)
  {
    var j := w.claim.jobId;
    assert JobEvolves(a.jobs[j], b.jobs[j], a.clock, b.clock);
    assert AttemptEvolves(a.attempts[k], b.attempts[k]);
    if w.phase.Returned? {
      hide Workflow.Unattended;
      DeadStaysDead(a, b, j, k);
    } else {
      hide JobOk, AttemptOk, JobsOk, AttemptsOk;
      if w.phase.Republishing? { ChildIsPrivate(a, k); }
    }
  }

  lemma ResumesFrame(s: Sys, b: Tables, registry: Workflow.Registry, closed: set<Token>, touched: set<nat>)
    requires RunsOk(s.db) && JobsOk(s.db) && Evolves(s.db, b) && Quiet(s.db, b, closed, touched) && ApprovalsOk(s, registry)
    requires forall r :: r in touched ==> r !in s.decided
    ensures ApprovalsOk(s.(db := b), registry)
  {
    var u := s.(db := b);
    forall r | r in s.decided ensures DecidedOk(b, r, s.decided[r]) && (r < |s.db.runs| && b.runs[r] == s.db.runs[r]) {
      assert DecidedOk(s.db, r, s.decided[r]);
      PublishedIsPrivate(s.db, s.decided[r].jobId);
      assert JobEvolves(s.db.jobs[s.decided[r].jobId], b.jobs[s.decided[r].jobId], s.db.clock, b.clock);
    }
    forall r | r in s.resumes ensures ResumeOk(u, registry, r, s.resumes[r]) {
      assert ResumeOk(s, registry, r, s.resumes[r]);
    }
    forall i | 0 <= i < |s.effects| ensures EffectOk(u, s.effects[i]) {
      assert EffectOk(s, s.effects[i]);
    }
  }

  lemma PublishedIsPrivate(t: Tables, j: nat)
    requires JobsOk(t) && RunsOk(t) && j < |t.jobs| && t.jobs[j].published.Some?
    ensures t.jobs[j].published.value < |t.runs| && Private(t, t.jobs[j].published.value)
  {
    assert JobOk(t, j);
    ChildIsPrivate(t, t.numbers[(j, t.jobs[j].attempts)]);
  }

  /** An unpublished attempt's run is nobody's published run. */
  lemma OpenChildIsUnpublished(t: Tables, k: Token, j: nat)
    requires JobsOk(t) && RunsOk(t) && k in t.attempts && Open(t.attempts[k]) && t.attempts[k].execution.Some?
    requires j < |t.jobs|
    ensures t.jobs[j].published != t.attempts[k].execution
  {
    assert JobOk(t, j);
  }

  // ---------------------------------------------- transactions and their reach

  lemma SubmitIsQuiet(t: Tables, x: Submission)
    requires RunsOk(t)
    ensures Quiet(t, Submit(t, x).0, {}, {})
  {
    hide FindSubmission;
  }

  lemma RenewIsQuiet(t: Tables, claim: Claim, lease: int)
    ensures Quiet(t, Renew(t, claim, lease).0, {}, {})
  {
  }

  lemma SyncIsQuiet(t: Tables, j: nat)
    ensures Quiet(t, SyncApproval(t, j), {}, {})
  {
  }

  lemma ClaimIsQuiet(t: Tables, c: Candidate, worker: string, lease: int, token: Token)
    requires Fits(t, c)
    ensures Quiet(t, ClaimCas(t, c, worker, lease, token).0, {}, {})
  {
  }

  lemma PublishIsQuiet(t: Tables, claim: Claim)
    ensures Quiet(t, PublishAttempt(t, claim).0, {claim.token}, {})
  {
  }

  lemma FailUnstartedIsQuiet(t: Tables, claim: Claim, code: string)
    ensures Quiet(t, FailUnstarted(t, claim, code).0, {claim.token}, {})
  {
  }

  lemma StartIsQuiet(t: Tables, claim: Claim, requestId: nat)
    ensures Quiet(t, StartAttempt(t, claim, requestId).0, {claim.token}, {})
  {
    hide ResolveScope;
  }

  lemma PrivateIsQuiet(t: Tables, u: Tables, run: nat)
    requires PrivateWrite(t, u, run)
    ensures Quiet(t, u, {}, {run})
  {
    assert forall r :: r in t.checkpoints ==> r in u.checkpoints.Keys + {run};
    assert forall r :: r in u.checkpoints ==> r in t.checkpoints.Keys + {run};
  }

  lemma PrivateTransactions(t: Tables, run: nat, message: string, usable: bool, intent: Option<string>,
                            answer: Option<string>, latency: nat, c: Workflow.Config)
    requires run < |t.runs| && Private(t, run)
    ensures PrivateWrite(t, FailPrivate(t, run, message), run)
    ensures PrivateWrite(t, FinishInvestigation(t, run, usable, intent, answer, latency), run)
    ensures PrivateWrite(t, Close(t, run, c, latency), run)
  {
  }

  lemma ClaimApprovalIsPrivate(t: Tables, run: nat, action: Workflow.Action)
    requires run < |t.runs| && Private(t, run)
    ensures PrivateWrite(t, ClaimApproval(t, run, action).0, run)
  {
  }

  /** A run row written anew, and its checkpoint kept or removed. */
  lemma RowIsPrivate(t: Tables, run: nat, row: Run, checkpoints: map<nat, Checkpoint>)
    requires run < |t.runs| && Private(t, run)
    requires row == t.runs[run].(status := row.status, answer := row.answer, finishedAt := row.finishedAt,
                                 latency := row.latency)
    requires checkpoints == t.checkpoints || checkpoints == t.checkpoints - {run}
    ensures PrivateWrite(t, t.(runs := t.runs[run := row], checkpoints := checkpoints), run)
  {
  }

  /** What a recovery writes. */
  lemma ReconcileWrites(t: Tables, run: nat) returns (row: Run, checkpoints: map<nat, Checkpoint>)
    requires run < |t.runs|
    ensures Reconcile(t, run).0 == t.(runs := t.runs[run := row], checkpoints := checkpoints)
    ensures row == t.runs[run].(status := row.status, answer := row.answer, finishedAt := row.finishedAt,
                                latency := row.latency)
    ensures checkpoints == t.checkpoints || checkpoints == t.checkpoints - {run}
  {
    row, checkpoints := t.runs[run], t.checkpoints;
    if run !in t.checkpoints || t.runs[run].status in {Completed, Failed} {
      assert t.runs[run := t.runs[run]] == t.runs;
      checkpoints := t.checkpoints - {run};
    } else if t.checkpoints[run].expiresAt <= t.clock {
      row, checkpoints := FailedRun(row, "APPROVAL_CHECKPOINT_EXPIRED", t.clock), t.checkpoints - {run};
    } else if t.checkpoints[run].decision.Some? {
      row, checkpoints := FailedRun(row, "APPROVAL_EXECUTION_OUTCOME_UNKNOWN", t.clock), t.checkpoints - {run};
    } else {
      row := row.(status := WaitingApproval, finishedAt := None);
    }
  }

  lemma ReconcileIsPrivate(t: Tables, run: nat)
    requires run < |t.runs| && Private(t, run)
    ensures PrivateWrite(t, Reconcile(t, run).0, run)
  {
    hide PrivateWrite, Private, Reconcile;
    var row, checkpoints := ReconcileWrites(t, run);
    RowIsPrivate(t, run, row, checkpoints);
  }

  // -------------------------------------------------------------- step schemes

  lemma QuietCheckpoints(a: Tables, b: Tables, registry: Workflow.Registry, closed: set<Token>, touched: set<nat>)
    requires CheckpointsOk(a, registry) && Quiet(a, b, closed, touched)
    requires forall r :: r in touched && r in b.checkpoints ==> Workflow.AtGate(b.checkpoints[r].state, registry)
    ensures CheckpointsOk(b, registry)
  {
    hide Workflow.AtGate;
  }

  /** A transaction that reaches no private run and closes no attempt. */
  lemma QuietStep(s: Sys, b: Tables, registry: Workflow.Registry)
    requires Inv(s, registry) && Ok(b) && Evolves(s.db, b) && Quiet(s.db, b, {}, {})
    ensures Inv(s.(db := b), registry)
  {
    hide JobsOk, AttemptsOk, NumbersOk, RunsOk, KeysOk, Evolves, Quiet, ReadOk, WorkerOk, ApprovalsOk, CheckpointsOk;
    hide CandidatesOk;
    CandidatesFrame(s, b);
    forall k | k in s.workers ensures WorkerOk(b, registry, k, s.workers[k]) {
      WorkerFrame(s.db, b, registry, k, s.workers[k], {}, {});
    }
    ResumesFrame(s, b, registry, {}, {});
    QuietCheckpoints(s.db, b, registry, {}, {});
  }

  /** What a worker's own transaction reaches: its attempt, and the private run of that attempt. */
  ghost predicate OwnReach(s: Sys, k: Token, closed: set<Token>, touched: set<nat>) {
    && k in s.workers && !s.workers[k].phase.Returned?
    && closed <= {k}
    && (forall r :: r in touched ==> ChildOf(s.workers[k].phase) == Some(r))
  }

  lemma OwnReachIsUndecided(s: Sys, registry: Workflow.Registry, k: Token, closed: set<Token>, touched: set<nat>)
    requires Inv(s, registry) && OwnReach(s, k, closed, touched)
    ensures forall r :: r in touched ==> r !in s.decided
    ensures forall l :: l in s.workers && l != k && s.workers[l].phase.Republishing? ==> s.workers[l].phase.child !in touched
  {
    hide JobsOk, AttemptsOk, NumbersOk, KeysOk, CandidatesOk, CheckpointsOk, Workflow.Unattended, ResumeOk, EffectOk,
      NoRepeats;
    assert WorkerOk(s.db, registry, k, s.workers[k]);
    forall r | r in touched ensures r !in s.decided {
      if r in s.decided {
        assert DecidedOk(s.db, r, s.decided[r]);
        OpenChildIsUnpublished(s.db, k, s.decided[r].jobId);
      }
    }
    forall l | l in s.workers && l != k && s.workers[l].phase.Republishing?
      ensures s.workers[l].phase.child !in touched
    {
      assert WorkerOk(s.db, registry, l, s.workers[l]);
    }
  }

  lemma OwnStep(s: Sys, b: Tables, registry: Workflow.Registry, k: Token, phase: Phase, closed: set<Token>, touched: set<nat>)
    requires Inv(s, registry) && OwnReach(s, k, closed, touched)
    requires Ok(b) && Evolves(s.db, b) && Quiet(s.db, b, closed, touched) && CheckpointsOk(b, registry)
    requires WorkerOk(b, registry, k, s.workers[k].(phase := phase))
    ensures Inv(Move(s, k, b, phase), registry)
  {
    hide JobsOk, AttemptsOk, NumbersOk, RunsOk, KeysOk, Evolves, Quiet, ReadOk, WorkerOk, ApprovalsOk, CheckpointsOk;
    OwnReachIsUndecided(s, registry, k, closed, touched);
    var u := Move(s, k, b, phase);
    CandidatesFrame(s, b);
    forall l | l in u.workers ensures WorkerOk(b, registry, l, u.workers[l]) {
      if l != k { WorkerFrame(s.db, b, registry, l, s.workers[l], closed, touched); }
    }
    ResumesFrame(s, b, registry, closed, touched);
    MoveKeepsApprovals(s.(db := b), registry, k, b, phase);
  }

  lemma MoveKeepsApprovals(s: Sys, registry: Workflow.Registry, k: Token, b: Tables, phase: Phase)
    requires k in s.workers && ApprovalsOk(s, registry) && b == s.db
    ensures ApprovalsOk(Move(s, k, b, phase), registry)
  {
    var u := Move(s, k, b, phase);
    forall r | r in u.resumes ensures ResumeOk(u, registry, r, u.resumes[r]) {
      assert ResumeOk(s, registry, r, s.resumes[r]);
    }
    forall i | 0 <= i < |u.effects| ensures EffectOk(u, u.effects[i]) {
      assert EffectOk(s, s.effects[i]);
    }
  }

  lemma LoseKeepsInv(s: Sys, registry: Workflow.Registry, k: Token)
    requires Inv(s, registry)
    ensures Inv(Lose(s, k), registry)
  {
    hide Ok, ReadOk, WorkerOk, CheckpointsOk, Workflow.Resuming;
    var u := Lose(s, k);
    assert forall r :: r in u.resumes ==> ResumeOk(s, registry, r, s.resumes[r]);
    assert forall i :: 0 <= i < |u.effects| ==> EffectOk(s, s.effects[i]);
  }

  // -------------------------------------------------------------- worker steps

  lemma ReadStepKeepsInv(s: Sys, registry: Workflow.Registry)
    requires Inv(s, registry)
    ensures Inv(Apply(s, registry, ReadJob), registry)
  {
    hide WorkerOk, CheckpointsOk, ApprovalsOk, AttemptsOk, NumbersOk, RunsOk, KeysOk;
    var c := ReadCandidate(s.db);
    if c.Some? {
      assert JobOk(s.db, c.value.jobId);
      assert ReadOk(s.db, c.value);
    }
    SameApprovals(s, Apply(s, registry, ReadJob), registry);
  }

  /** The approval part looks only at the database, the histories and the resumes. */
  lemma SameApprovals(s: Sys, u: Sys, registry: Workflow.Registry)
    requires ApprovalsOk(s, registry)
    requires u == s.(candidates := u.candidates, workers := u.workers)
    ensures ApprovalsOk(u, registry)
  {
    forall r | r in u.resumes ensures ResumeOk(u, registry, r, u.resumes[r]) {
      assert ResumeOk(s, registry, r, s.resumes[r]);
    }
    forall i | 0 <= i < |u.effects| ensures EffectOk(u, u.effects[i]) {
      assert EffectOk(s, s.effects[i]);
    }
  }

  lemma ReadFits(t: Tables, c: Candidate)
    requires JobsOk(t) && ReadOk(t, c)
    ensures Fits(t, c)
  {
    assert JobOk(t, c.jobId);
  }

  lemma CasStepKeepsInv(s: Sys, registry: Workflow.Registry, c: Candidate, worker: string, lease: int, token: Token)
    requires Inv(s, registry)
    ensures Inv(CasStep(s, c, worker, lease, token), registry)
  {
    hide JobsOk, AttemptsOk, NumbersOk, RunsOk, KeysOk, Evolves, Quiet, ReadOk, WorkerOk, ApprovalsOk, CheckpointsOk;
    hide Fits, ClaimCas;
    if c in s.candidates {
      var (b, r) := ClaimCas(s.db, c, worker, lease, token);
      ReadFits(s.db, c);
      ClaimKeepsOk(s.db, c, worker, lease, token);
      ClaimIsQuiet(s.db, c, worker, lease, token);
      QuietStep(s, b, registry);
      if r.Claimed? {
        ClaimedWorkerOk(s.db, registry, c, worker, lease, token);
        var v := s.(db := b);
        var u := v.(workers := v.workers[token := Worker(r.claim, Holding)]);
        SameApprovals(v, u, registry);
      }
    }
  }

  lemma ClaimedWorkerOk(t: Tables, registry: Workflow.Registry, c: Candidate, worker: string, lease: int, token: Token)
    requires Fits(t, c) && ClaimCas(t, c, worker, lease, token).1.Claimed?
    ensures var (b, r) := ClaimCas(t, c, worker, lease, token);
            WorkerOk(b, registry, token, Worker(r.claim, Holding))
  {
  }

  lemma StartStepKeepsInv(s: Sys, registry: Workflow.Registry, k: Token, requestId: nat)
    requires Inv(s, registry)
    ensures Inv(StartStep(s, k, requestId), registry)
  {
    hide JobsOk, AttemptsOk, NumbersOk, RunsOk, KeysOk, Evolves, Quiet, ReadOk, WorkerOk, ApprovalsOk, CheckpointsOk;
    hide StartAttempt, CandidatesOk;
    if k in s.workers && s.workers[k].phase.Holding? {
      var w := s.workers[k];
      var (b, r) := StartAttempt(s.db, w.claim, requestId);
      assert WorkerOk(s.db, registry, k, w);
      StartedWorkerOk(s.db, registry, k, w, requestId);
      if r.Corrupted? {
        LoseKeepsInv(s, registry, k);
      } else {
        StartKeepsOk(s.db, w.claim, requestId);
        StartIsQuiet(s.db, w.claim, requestId);
        var phase := match r case LeaseLost => Returned case ScopeChanged => Unstarted case Started(child) => Executing(child, None);
        QuietCheckpoints(s.db, b, registry, {k}, {});
        OwnStep(s, b, registry, k, phase, {k}, {});
      }
    }
  }

  lemma StartedWorkerOk(t: Tables, registry: Workflow.Registry, k: Token, w: Worker, requestId: nat)
    requires Ok(t) && WorkerOk(t, registry, k, w) && w.phase.Holding?
    ensures var (b, r) := StartAttempt(t, w.claim, requestId);
            && w.claim.token == k
            && (r == LeaseLost ==> WorkerOk(b, registry, k, w.(phase := Returned)))
            && (r == ScopeChanged ==> WorkerOk(b, registry, k, w.(phase := Unstarted)))
            && (r.Started? ==> WorkerOk(b, registry, k, w.(phase := Executing(r.child, None))))
            && !r.Corrupted?
  {
    hide ResolveScope, Workflow.Unattended, JobsOk, AttemptsOk, NumbersOk, RunsOk, KeysOk, JobOk, AttemptOk;
    if Live(t, w.claim.jobId, k) { LiveIsRunning(t, w.claim); }
  }

  lemma GiveUpStepKeepsInv(s: Sys, registry: Workflow.Registry, k: Token)
    requires Inv(s, registry)
    ensures Inv(GiveUpStep(s, k), registry)
  {
    hide JobsOk, AttemptsOk, NumbersOk, RunsOk, KeysOk, Evolves, Quiet, ReadOk, WorkerOk, ApprovalsOk, CheckpointsOk;
    hide FailUnstarted, CandidatesOk;
    if k in s.workers && s.workers[k].phase.Unstarted? {
      var w := s.workers[k];
      assert WorkerOk(s.db, registry, k, w);
      var (b, r) := FailUnstarted(s.db, w.claim, "SCOPE_CHANGED");
      GivenUpWorkerOk(s.db, registry, k, w);
      FailUnstartedKeepsOk(s.db, w.claim, "SCOPE_CHANGED");
      FailUnstartedIsQuiet(s.db, w.claim, "SCOPE_CHANGED");
      QuietCheckpoints(s.db, b, registry, {k}, {});
      OwnStep(s, b, registry, k, Returned, {k}, {});
    }
  }

  /** Giving up never meets an allocated run: it fails the claim, or the claim was already lost. */
  lemma GivenUpWorkerOk(t: Tables, registry: Workflow.Registry, k: Token, w: Worker)
    requires Ok(t) && WorkerOk(t, registry, k, w) && w.phase.Unstarted?
    ensures var (b, r) := FailUnstarted(t, w.claim, "SCOPE_CHANGED");
            w.claim.token == k && r != AlreadyStarted && WorkerOk(b, registry, k, w.(phase := Returned))
  {
    hide Workflow.Unattended;
    if Live(t, w.claim.jobId, k) { LiveIsRunning(t, w.claim); }
  }

  /** A worker that only moves on, or writes only its private run. */
  lemma PrivateStepKeepsInv(s: Sys, registry: Workflow.Registry, k: Token, b: Tables, phase: Phase)
    requires Inv(s, registry) && k in s.workers && !s.workers[k].phase.Returned? && !phase.Returned?
    requires ChildOf(phase).Some? && ChildOf(s.workers[k].phase) == ChildOf(phase)
    requires b == s.db || PrivateWrite(s.db, b, ChildOf(phase).value)
    requires phase.Executing? && phase.flow.Some? ==>
               s.workers[k].claim.jobId < |s.db.jobs| && !s.db.jobs[s.workers[k].claim.jobId].retrySafe
               && Workflow.Unattended(phase.flow.value, registry)
    requires phase.Republishing? ==> phase.child < |b.runs| && b.runs[phase.child].status == Failed
    requires ChildOf(phase).value in b.checkpoints && b != s.db ==>
               Workflow.AtGate(b.checkpoints[ChildOf(phase).value].state, registry)
    ensures Inv(Move(s, k, b, phase), registry)
  {
    hide JobsOk, AttemptsOk, NumbersOk, RunsOk, KeysOk, Evolves, Quiet, ReadOk, WorkerOk, ApprovalsOk, CheckpointsOk;
    hide CandidatesOk, PrivateWrite, Workflow.Unattended, Workflow.AtGate, Move;
    var w, child := s.workers[k], ChildOf(phase).value;
    assert WorkerOk(s.db, registry, k, w);
    if b == s.db {
      EvolvesRefl(s.db);
      QuietRefl(s.db);
    } else {
      PrivateKeepsOk(s.db, b, child);
      PrivateIsQuiet(s.db, b, child);
      QuietCheckpoints(s.db, b, registry, {}, {child});
    }
    PrivateWorkerOk(s.db, b, registry, k, w, phase);
    if b == s.db { OwnStep(s, b, registry, k, phase, {}, {}); } else { OwnStep(s, b, registry, k, phase, {}, {child}); }
  }

  lemma QuietRefl(t: Tables)
    ensures Quiet(t, t, {}, {})
  {
  }

  lemma PrivateWorkerOk(t: Tables, b: Tables, registry: Workflow.Registry, k: Token, w: Worker, phase: Phase)
    requires WorkerOk(t, registry, k, w) && !w.phase.Returned? && !phase.Returned? && ChildOf(w.phase) == ChildOf(phase)
    requires ChildOf(phase).Some? && (b == t || PrivateWrite(t, b, ChildOf(phase).value))
    requires phase.Executing? && phase.flow.Some? ==>
               !t.jobs[w.claim.jobId].retrySafe && Workflow.Unattended(phase.flow.value, registry)
    requires phase.Republishing? ==> phase.child < |b.runs| && b.runs[phase.child].status == Failed
    ensures WorkerOk(b, registry, k, w.(phase := phase))
  {
    hide Workflow.Unattended;
  }

  lemma ChildWritable(s: Sys, registry: Workflow.Registry, k: Token)
    requires Inv(s, registry) && k in s.workers && !s.workers[k].phase.Returned? && ChildOf(s.workers[k].phase).Some?
    ensures var child := ChildOf(s.workers[k].phase).value; child < |s.db.runs| && Private(s.db, child)
    ensures s.workers[k].claim.jobId < |s.db.jobs|
    ensures s.workers[k].phase.Executing? && s.workers[k].phase.flow.Some? ==>
              !s.db.jobs[s.workers[k].claim.jobId].retrySafe
              && Workflow.Unattended(s.workers[k].phase.flow.value, registry)
  {
    hide JobsOk, AttemptsOk, NumbersOk, KeysOk, CandidatesOk, CheckpointsOk, ApprovalsOk, Workflow.Unattended;
    assert WorkerOk(s.db, registry, k, s.workers[k]);
    ChildIsPrivate(s.db, k);
  }

  lemma ExecutionSteps(s: Sys, registry: Workflow.Registry, k: Token, specialist: bool, maxSteps: nat, usable: bool,
                       answer: string, latency: nat)
    requires Inv(s, registry)
    ensures Inv(RouteStep(s, k, specialist, maxSteps), registry)
    ensures Inv(InvestigateStep(s, k, usable, answer, latency), registry)
    ensures Inv(ReturnStep(s, k), registry)
    ensures Inv(RaiseStep(s, k), registry)
  {
    hide Inv, PrivateWrite, Move;
    if k in s.workers && s.workers[k].phase.Executing? {
      ChildWritable(s, registry, k);
      var child := s.workers[k].phase.child;
      PrivateTransactions(s.db, child, "", usable, Some("incident_analysis"), Some(answer), latency,
                          Workflow.Initial(maxSteps));
      PrivateStepKeepsInv(s, registry, k, s.db, Broken(child));
      PrivateStepKeepsInv(s, registry, k, s.db, Checking(child));
      if s.workers[k].phase.flow.None? {
        InvestigationKeepsCheckpoint(s, registry, k, usable, answer, latency);
        PrivateStepKeepsInv(
          s, registry, k,
          FinishInvestigation(s.db, child, usable, Some("incident_analysis"), Some(answer), latency), Checking(child));
        if !s.db.jobs[s.workers[k].claim.jobId].retrySafe && maxSteps > 0 {
          assert Workflow.Unattended(Workflow.Initial(maxSteps), registry);
          PrivateStepKeepsInv(s, registry, k, s.db, Executing(child, Some(Workflow.Initial(maxSteps))));
        }
      }
    }
  }

  /** Writes that leave checkpoints alone keep them all well formed. */
  lemma InvestigationKeepsCheckpoint(s: Sys, registry: Workflow.Registry, k: Token, usable: bool, answer: string, latency: nat)
    requires Inv(s, registry) && k in s.workers && s.workers[k].phase.Executing?
    ensures var child := s.workers[k].phase.child;
            var b := FinishInvestigation(s.db, child, usable, Some("incident_analysis"), Some(answer), latency);
            child in b.checkpoints ==> Workflow.AtGate(b.checkpoints[child].state, registry)
  {
    hide Ok, CandidatesOk, WorkersOk, ApprovalsOk;
  }

  lemma ThinkStepKeepsInv(s: Sys, registry: Workflow.Registry, k: Token, reply: Workflow.Reply)
    requires Inv(s, registry)
    ensures Inv(ThinkStep(s, registry, k, reply), registry)
    ensures ThinkStep(s, registry, k, reply).effects == s.effects
  {
    hide Inv, PrivateWrite, Workflow.Step, Workflow.Unattended, Workflow.HighPlan, Workflow.IsHigh;
    if k in s.workers && s.workers[k].phase.Executing? && s.workers[k].phase.flow.Some? {
      ChildWritable(s, registry, k);
      var c, child, asked := s.workers[k].phase.flow.value, s.workers[k].phase.child, reply.(decision := None);
      Workflow.StepKeepsUnattended(c, registry, asked);
      LowPlanCallsNothingHigh(c, registry);
      PrivateStepKeepsInv(s, registry, k, s.db, Executing(child, Some(Workflow.Step(c, registry, asked))));
      var next := Workflow.Step(c, registry, asked);
      assert ThinkStep(s, registry, k, reply) == Move(s, k, s.db, Executing(child, Some(next)));
    }
  }

  lemma LowPlanCallsNothingHigh(c: Workflow.Config, registry: Workflow.Registry)
    requires c.node == Workflow.ToolExecutor ==> !Workflow.HighPlan(c.state.plan, registry)
    ensures !CallsHigh(c, registry)
  {
  }

  lemma CommitStepKeepsInv(s: Sys, registry: Workflow.Registry, k: Token, latency: nat, handoffFails: bool)
    requires Inv(s, registry)
    ensures Inv(CommitStep(s, k, latency, handoffFails), registry)
  {
    hide Inv, PrivateWrite, Move, Workflow.Unattended;
    if k in s.workers && s.workers[k].phase.Executing? && s.workers[k].phase.flow.Some?
       && Stopped(s.workers[k].phase.flow.value)
    {
      ChildWritable(s, registry, k);
      var c, child := s.workers[k].phase.flow.value, s.workers[k].phase.child;
      PrivateTransactions(s.db, child, "", true, None, None, latency, c);
      var phase := if handoffFails || c.node == Workflow.Raised then Broken(child) else Checking(child);
      CloseKeepsCheckpoint(s.db, registry, child, c, latency);
      PrivateStepKeepsInv(s, registry, k, Close(s.db, child, c, latency), phase);
    }
  }

  lemma CloseKeepsCheckpoint(t: Tables, registry: Workflow.Registry, run: nat, c: Workflow.Config, latency: nat)
    requires run < |t.runs| && Stopped(c) && Workflow.Unattended(c, registry)
    ensures var b := Close(t, run, c, latency);
            run in b.checkpoints ==> Workflow.AtGate(b.checkpoints[run].state, registry)
  {
  }

  lemma SettlingSteps(s: Sys, registry: Workflow.Registry, k: Token)
    requires Inv(s, registry)
    ensures Inv(CheckStep(s, k), registry)
    ensures Inv(FailExecutionStep(s, k), registry)
    ensures Inv(FailResultStep(s, k), registry)
  {
    hide Inv, PrivateWrite, Move;
    if k in s.workers && ChildOf(s.workers[k].phase).Some? && !s.workers[k].phase.Returned? {
      ChildWritable(s, registry, k);
      var child := ChildOf(s.workers[k].phase).value;
      var noGraph := Workflow.Initial(1);
      PrivateTransactions(s.db, child, "ATTEMPT_EXECUTION_FAILED", true, None, None, 0, noGraph);
      PrivateTransactions(s.db, child, "INVALID_ATTEMPT_RESULT", true, None, None, 0, noGraph);
      CheckpointsHold(s, registry);
      match s.workers[k].phase
      case Checking(_) =>
        PrivateStepKeepsInv(s, registry, k, s.db, Broken(child));
        PrivateStepKeepsInv(s, registry, k, s.db, Publishing(child));
      case Broken(_) =>
        PrivateStepKeepsInv(s, registry, k, FailPrivate(s.db, child, "ATTEMPT_EXECUTION_FAILED"), Publishing(child));
      case Invalidated(_) =>
        PrivateStepKeepsInv(s, registry, k, FailPrivate(s.db, child, "INVALID_ATTEMPT_RESULT"), Republishing(child));
      case _ =>
    }
  }

  lemma CheckpointsHold(s: Sys, registry: Workflow.Registry)
    requires Inv(s, registry)
    ensures forall r :: r in s.db.checkpoints ==> Workflow.AtGate(s.db.checkpoints[r].state, registry)
  {
    hide Ok, CandidatesOk, WorkersOk, ApprovalsOk, Workflow.AtGate;
  }

  // ---------------------------------------------------------------- publishing

  /** For an attempt made by `start_attempt`, publishing fails only on the child's own state, and only while it is unfinished
      or waits without a valid checkpoint: the identity and scope re-checks never fire. */
  lemma ReChecksNeverFire(t: Tables, claim: Claim)
    requires Ok(t) && OwnAttempt(t, claim) && t.attempts[claim.token].execution.Some? && LiveClaim(t, claim)
    ensures t.attempts[claim.token].execution.value < |t.runs|
    ensures SameTask(t, claim, t.attempts[claim.token].execution.value)
    ensures PublishAttempt(t, claim).1 == Invalid <==> !Publishable(t, t.attempts[claim.token].execution.value)
  {
    assert AttemptOk(t, claim.token) && JobOk(t, claim.jobId);
  }

  lemma PublishedWorkerOk(t: Tables, registry: Workflow.Registry, k: Token, w: Worker)
    requires Ok(t) && WorkerOk(t, registry, k, w) && (w.phase.Publishing? || w.phase.Republishing?)
    ensures w.claim.token == k
    ensures var (b, r) := PublishAttempt(t, w.claim);
            && (r != Invalid ==> WorkerOk(b, registry, k, w.(phase := Returned)))
            && (r == Invalid ==> b == t)
            && (w.phase.Republishing? ==> r != Invalid)
  {
    hide Workflow.Unattended, JobsOk, AttemptsOk, NumbersOk, RunsOk, KeysOk, JobOk, AttemptOk, SameTask;
    if Live(t, w.claim.jobId, k) {
      LiveIsRunning(t, w.claim);
      ReChecksNeverFire(t, w.claim);
    }
  }

  lemma PublishStepsKeepInv(s: Sys, registry: Workflow.Registry, k: Token)
    requires Inv(s, registry)
    ensures Inv(PublishStep(s, k), registry)
    ensures Inv(PublishAgainStep(s, k), registry)
  {
    hide JobsOk, AttemptsOk, NumbersOk, RunsOk, KeysOk, Evolves, Quiet, ReadOk, WorkerOk, ApprovalsOk, CheckpointsOk;
    hide PublishAttempt, CandidatesOk, Move;
    if k in s.workers && (s.workers[k].phase.Publishing? || s.workers[k].phase.Republishing?) {
      var w := s.workers[k];
      assert WorkerOk(s.db, registry, k, w);
      PublishedWorkerOk(s.db, registry, k, w);
      var (b, r) := PublishAttempt(s.db, w.claim);
      if r == Invalid {
        PrivateStepKeepsInv(s, registry, k, s.db, Invalidated(w.phase.child));
      } else {
        PublishKeepsOk(s.db, w.claim);
        PublishIsQuiet(s.db, w.claim);
        QuietCheckpoints(s.db, b, registry, {k}, {});
        OwnStep(s, b, registry, k, Returned, {k}, {});
      }
    }
  }

  // ------------------------------------------------------------------ approvals

  /** A write to one private run by an approver or a recovery, when that run's approval lock is not needed. */
  lemma OutsideWrite(s: Sys, b: Tables, registry: Workflow.Registry, run: nat)
    requires Inv(s, registry) && PrivateWrite(s.db, b, run) && run !in s.locks
    requires run in s.decided ==> DecidedOk(b, run, s.decided[run])
    requires run in b.checkpoints ==> Workflow.AtGate(b.checkpoints[run].state, registry)
    requires (s.db.runs[run].status == Failed ==> b.runs[run].status == Failed)
             || (forall k :: k in s.workers ==> ChildOf(s.workers[k].phase) != Some(run))
    ensures Inv(s.(db := b), registry)
  {
    hide JobsOk, AttemptsOk, NumbersOk, RunsOk, KeysOk, Evolves, Quiet, ReadOk, WorkerOk, ApprovalsOk, CheckpointsOk;
    hide CandidatesOk, Workflow.AtGate, DecidedOk;
    PrivateKeepsOk(s.db, b, run);
    PrivateIsQuiet(s.db, b, run);
    CandidatesFrame(s, b);
    QuietCheckpoints(s.db, b, registry, {}, {run});
    forall k | k in s.workers ensures WorkerOk(b, registry, k, s.workers[k]) {
      assert WorkerOk(s.db, registry, k, s.workers[k]);
      if s.workers[k].phase.Republishing? { RepublishingIsFailed(s.db, registry, k, s.workers[k]); }
      WorkerFrame(s.db, b, registry, k, s.workers[k], {}, {run});
    }
    OutsideApprovals(s, b, registry, run);
  }

  lemma RepublishingIsFailed(t: Tables, registry: Workflow.Registry, k: Token, w: Worker)
    requires WorkerOk(t, registry, k, w) && w.phase.Republishing?
    ensures w.phase.child < |t.runs| && t.runs[w.phase.child].status == Failed
  {
  }

  lemma OutsideApprovals(s: Sys, b: Tables, registry: Workflow.Registry, run: nat)
    requires RunsOk(s.db) && JobsOk(s.db) && Evolves(s.db, b) && Quiet(s.db, b, {}, {run}) && ApprovalsOk(s, registry)
    requires run !in s.locks && (run in s.decided ==> DecidedOk(b, run, s.decided[run]))
    ensures ApprovalsOk(s.(db := b), registry)
  {
    hide JobsOk, RunsOk, Workflow.Resuming;
    var u := s.(db := b);
    forall r | r in s.decided
      ensures DecidedOk(b, r, s.decided[r]) && (r != run ==> r < |s.db.runs| && b.runs[r] == s.db.runs[r])
    {
      assert DecidedOk(s.db, r, s.decided[r]);
      PublishedIsPrivate(s.db, s.decided[r].jobId);
      assert JobEvolves(s.db.jobs[s.decided[r].jobId], b.jobs[s.decided[r].jobId], s.db.clock, b.clock);
    }
    forall r | r in s.resumes ensures ResumeOk(u, registry, r, s.resumes[r]) {
      assert ResumeOk(s, registry, r, s.resumes[r]);
    }
    forall i | 0 <= i < |s.effects| ensures EffectOk(u, s.effects[i]) {
      assert EffectOk(s, s.effects[i]);
    }
  }

  /** Ending a resume, or losing its process or its lock, leaves the rest in place. */
  lemma ForgettingKeepsInv(s: Sys, registry: Workflow.Registry, run: nat)
    requires Inv(s, registry)
    ensures Inv(s.(resumes := s.resumes - {run}, locks := s.locks - {run}), registry)
    ensures Inv(s.(locks := s.locks - {run}), registry)
  {
    hide Ok, ReadOk, WorkerOk, CheckpointsOk, Workflow.Resuming, DecidedOk;
    forall r | r in s.resumes ensures ResumeOk(s, registry, r, s.resumes[r]) {}
    forall i | 0 <= i < |s.effects| ensures EffectOk(s, s.effects[i]) {}
    var u, v := s.(resumes := s.resumes - {run}, locks := s.locks - {run}), s.(locks := s.locks - {run});
    forall r | r in u.resumes ensures ResumeOk(u, registry, r, u.resumes[r]) {}
    forall r | r in v.resumes ensures ResumeOk(v, registry, r, v.resumes[r]) {}
    forall i | 0 <= i < |s.effects| ensures EffectOk(u, s.effects[i]) && EffectOk(v, s.effects[i]) {}
    assert u.locks <= u.resumes.Keys;
  }

  lemma RecoverKeepsInv(s: Sys, registry: Workflow.Registry, run: nat)
    requires Inv(s, registry) && run !in s.locks
    ensures Inv(s.(db := Reconcile(s.db, run).0), registry)
  {
    hide JobsOk, AttemptsOk, NumbersOk, KeysOk, Evolves, ReadOk, WorkerOk, Workflow.AtGate, ResumeOk, EffectOk,
      PrivateWrite;
    if run in s.db.checkpoints {
      CheckpointIsPrivate(s.db, run);
      ReconcileIsPrivate(s.db, run);
      OutsideWrite(s, Reconcile(s.db, run).0, registry, run);
    } else {
      assert s.(db := s.db) == s;
    }
  }

  lemma CheckpointIsPrivate(t: Tables, run: nat)
    requires RunsOk(t) && run in t.checkpoints
    ensures run < |t.runs| && Private(t, run)
  {
  }

  lemma ResumeCommitKeepsInv(s: Sys, registry: Workflow.Registry, run: nat, latency: nat)
    requires Inv(s, registry)
    ensures Inv(ResumeCommitStep(s, run, latency), registry)
  {
    hide JobsOk, AttemptsOk, NumbersOk, KeysOk, Evolves, ReadOk, WorkerOk, RunsOk, EffectOk, PrivateWrite;
    hide Workflow.AtGate, Workflow.Sound, CandidatesOk, CheckpointsOk;
    if run in s.resumes && Stopped(s.resumes[run].config) {
      var c := s.resumes[run].config;
      assert ResumeOk(s, registry, run, s.resumes[run]);
      assert DecidedOk(s.db, run, s.decided[run]);
      PublishedIsPrivate(s.db, s.decided[run].jobId);
      PrivateTransactions(s.db, run, "", true, None, None, latency, c);
      ForgettingKeepsInv(s, registry, run);
      var u := s.(resumes := s.resumes - {run}, locks := s.locks - {run});
      assert c.node != Workflow.Interrupted;
      DecidedIsNobodysChild(s, registry, run);
      OutsideWrite(u, Close(s.db, run, c, latency), registry, run);
    }
  }

  lemma DecidedIsNobodysChild(s: Sys, registry: Workflow.Registry, run: nat)
    requires Inv(s, registry)
    requires exists j :: 0 <= j < |s.db.jobs| && s.db.jobs[j].published == Some(run)
    ensures forall k :: k in s.workers ==> ChildOf(s.workers[k].phase) != Some(run)
  {
    hide AttemptsOk, NumbersOk, KeysOk, CandidatesOk, CheckpointsOk, ApprovalsOk, Workflow.Unattended;
    var j :| 0 <= j < |s.db.jobs| && s.db.jobs[j].published == Some(run);
    forall k | k in s.workers ensures ChildOf(s.workers[k].phase) != Some(run) {
      assert WorkerOk(s.db, registry, k, s.workers[k]);
      if !s.workers[k].phase.Returned? && ChildOf(s.workers[k].phase).Some? {
        OpenChildIsUnpublished(s.db, k, j);
      }
    }
  }

  lemma ResumeThinkKeepsInv(s: Sys, registry: Workflow.Registry, run: nat, reply: Workflow.Reply)
    requires Inv(s, registry)
    ensures Inv(ResumeThinkStep(s, registry, run, reply), registry)
  {
    hide Ok, ReadOk, WorkerOk, CheckpointsOk, DecidedOk, Workflow.Resuming, Workflow.Step;
    if run in s.resumes {
      var p, u := s.resumes[run], ResumeThinkStep(s, registry, run, reply);
      assert ResumeOk(s, registry, run, p);
      Workflow.StepKeepsResuming(p.config, p.saved, p.action, registry, reply);
      ResumedPosition(p, registry, reply);
      forall r | r in u.resumes ensures ResumeOk(u, registry, r, u.resumes[r]) {
        assert ResumeOk(s, registry, r, s.resumes[r]);
      }
      forall i | 0 <= i < |u.effects| ensures EffectOk(u, u.effects[i]) {
        if i < |s.effects| { assert EffectOk(s, s.effects[i]); }
      }
      forall i, j | 0 <= i < j < |u.effects|
        ensures u.effects[i].run != u.effects[j].run || u.effects[i].step != u.effects[j].step
      {
        assert EffectOk(s, s.effects[i]);
      }
    }
  }

  /** A resumed graph only moves forward, and passes the step it has just executed, also when the call raises. */
  lemma ResumedPosition(p: Resume, registry: Workflow.Registry, reply: Workflow.Reply)
    requires Workflow.Resuming(p.config, p.saved, p.action, registry)
    ensures Passed(p.config) <= Passed(Workflow.Step(p.config, registry, reply))
    ensures CallsHigh(p.config, registry) ==>
              p.action == Workflow.Approve
              && p.config.state.currentStep < Passed(Workflow.Step(p.config, registry, reply))
  {
    hide Workflow.AtGate, Workflow.HighPlan, Workflow.AssessedRisk;
    Workflow.StepKeepsResuming(p.config, p.saved, p.action, registry, reply);
  }

  /** A run whose approval was decided is not changed by another claim. */
  lemma DecidedIsSettled(s: Sys, registry: Workflow.Registry, run: nat, action: Workflow.Action)
    requires Inv(s, registry) && run in s.decided
    ensures ClaimApproval(s.db, run, action).0 == s.db
  {
    hide Ok, CandidatesOk, WorkersOk, CheckpointsOk, ResumeOk, EffectOk, NoRepeats;
    assert DecidedOk(s.db, run, s.decided[run]);
  }

  lemma ClaimKeepsSaved(t: Tables, registry: Workflow.Registry, run: nat, action: Workflow.Action)
    requires CheckpointsOk(t, registry)
    ensures var (b, r) := ClaimApproval(t, run, action);
      && (run in b.checkpoints ==> Workflow.AtGate(b.checkpoints[run].state, registry))
      && (r.Granted? ==> Workflow.AtGate(r.saved, registry) && b != t)
  {
    hide Workflow.AtGate;
  }

  lemma InvParts(s: Sys, registry: Workflow.Registry)
    requires Inv(s, registry)
    ensures JobsOk(s.db) && RunsOk(s.db) && CheckpointsOk(s.db, registry)
  {
    hide JobsOk, RunsOk, CheckpointsOk;
  }

  lemma DecideKeepsInv(s: Sys, registry: Workflow.Registry, j: nat, action: Workflow.Action)
    requires Inv(s, registry)
    ensures Inv(DecideStep(s, j, action), registry)
  {
    hide Inv, PrivateWrite, ClaimApproval, DecidedOk, CheckpointsOk, JobsOk, RunsOk, Workflow.AtGate;
    if j < |s.db.jobs| && s.db.jobs[j].published.Some? && s.db.jobs[j].published.value !in s.locks {
      var run := s.db.jobs[j].published.value;
      var (b, r) := ClaimApproval(s.db, run, action);
      InvParts(s, registry);
      PublishedIsPrivate(s.db, j);
      ClaimApprovalIsPrivate(s.db, run, action);
      ClaimKeepsSaved(s.db, registry, run, action);
      DecidedIsNobodysChild(s, registry, run);
      if run in s.decided { DecidedIsSettled(s, registry, run, action); }
      if b == s.db {
        assert s.(db := b) == s;
      } else {
        OutsideWrite(s, b, registry, run);
        if r.Granted? {
          PublishedSurvives(s.db, b, j, run, action);
          GrantKeepsInv(s.(db := b), registry, j, run, action, r.saved);
        }
      }
    }
  }

  lemma PublishedSurvives(t: Tables, b: Tables, j: nat, run: nat, action: Workflow.Action)
    requires j < |t.jobs| && t.jobs[j].published == Some(run) && b == ClaimApproval(t, run, action).0
    requires ClaimApproval(t, run, action).1.Granted?
    ensures DecidedOk(b, run, Decision(j, action)) && run < |b.runs| && b.runs[run].status == Running && run in b.checkpoints
  {
  }

  lemma GrantKeepsInv(s: Sys, registry: Workflow.Registry, j: nat, run: nat, action: Workflow.Action, saved: Workflow.FlowState)
    requires Inv(s, registry) && run !in s.decided && Workflow.AtGate(saved, registry)
    requires DecidedOk(s.db, run, Decision(j, action)) && run in s.db.checkpoints
    requires run < |s.db.runs| && s.db.runs[run].status == Running
    ensures Inv(s.(locks := s.locks + {run}, decided := s.decided[run := Decision(j, action)],
                   resumes := s.resumes[run := Resume(j, saved, action, Workflow.Restored(saved, action))]), registry)
  {
    hide Ok, ReadOk, WorkerOk, CheckpointsOk, DecidedOk, Workflow.Resuming, Workflow.AtGate;
    var u := s.(locks := s.locks + {run}, decided := s.decided[run := Decision(j, action)],
                resumes := s.resumes[run := Resume(j, saved, action, Workflow.Restored(saved, action))]);
    Workflow.RestoredIsResuming(saved, action, registry);
    forall r | r in u.resumes ensures ResumeOk(u, registry, r, u.resumes[r]) {
      if r == run {
        assert u.resumes[r] == Resume(j, saved, action, Workflow.Restored(saved, action));
      } else {
        assert ResumeOk(s, registry, r, s.resumes[r]);
        assert u.resumes[r] == s.resumes[r] && u.decided[r] == s.decided[r];
      }
    }
    forall i | 0 <= i < |u.effects| ensures EffectOk(u, u.effects[i]) {
      assert EffectOk(s, s.effects[i]);
    }
    assert u.locks <= u.resumes.Keys;
  }

  // --------------------------------------------------------------- every step

  lemma DatabaseSteps(s: Sys, registry: Workflow.Registry, step: Step)
    requires Inv(s, registry)
    requires step.Tick? || step.Permissions? || step.SubmitJob? || step.Heartbeat? || step.Sync?
    ensures Inv(Apply(s, registry, step), registry)
  {
    hide Inv, Quiet, Evolves, Submit, Renew, SyncApproval;
    DbOk(s, registry);
    match step
    case SubmitJob(x) =>
      SubmitKeepsOk(s.db, x);
      SubmitIsQuiet(s.db, x);
      QuietStep(s, Submit(s.db, x).0, registry);
    case Heartbeat(claim, lease) =>
      RenewKeepsOk(s.db, claim, lease);
      RenewIsQuiet(s.db, claim, lease);
      QuietStep(s, Renew(s.db, claim, lease).0, registry);
    case Sync(j) =>
      SyncKeepsOk(s.db, j);
      SyncIsQuiet(s.db, j);
      QuietStep(s, SyncApproval(s.db, j), registry);
    case _ =>
      var b := Apply(s, registry, step).db;
      AmbientKeepsOk(s.db, b);
      AmbientIsQuiet(s.db, b);
      QuietStep(s, b, registry);
  }

  lemma DbOk(s: Sys, registry: Workflow.Registry)
    requires Inv(s, registry)
    ensures Ok(s.db) && RunsOk(s.db)
  {
  }

  lemma AmbientIsQuiet(t: Tables, u: Tables)
    requires Ambient(t, u)
    ensures Quiet(t, u, {}, {})
  {
  }

  lemma StepKeepsInv(s: Sys, registry: Workflow.Registry, step: Step)
    requires Inv(s, registry)
    ensures Inv(Apply(s, registry, step), registry)
  {
    hide Inv, StartStep, GiveUpStep, RouteStep, InvestigateStep, ThinkStep, CommitStep, ReturnStep, RaiseStep,
      CheckStep;
    hide FailExecutionStep, PublishStep, FailResultStep, PublishAgainStep, CasStep, DecideStep, ResumeThinkStep,
      ResumeCommitStep;
    hide Lose, Reconcile;
    match step
    case ReadJob => ReadStepKeepsInv(s, registry);
    case CasClaim(c, worker, lease, token) => CasStepKeepsInv(s, registry, c, worker, lease, token);
    case Start(k, requestId) => StartStepKeepsInv(s, registry, k, requestId);
    case GiveUp(k) => GiveUpStepKeepsInv(s, registry, k);
    case Route(k, specialist, maxSteps) => ExecutionSteps(s, registry, k, specialist, maxSteps, true, "", 0);
    case Investigate(k, usable, answer, latency) => ExecutionSteps(s, registry, k, false, 0, usable, answer, latency);
    case Think(k, reply) => ThinkStepKeepsInv(s, registry, k, reply);
    case Commit(k, latency, handoffFails) => CommitStepKeepsInv(s, registry, k, latency, handoffFails);
    case Return(k) => ExecutionSteps(s, registry, k, false, 0, true, "", 0);
    case Raise(k) => ExecutionSteps(s, registry, k, false, 0, true, "", 0);
    case Check(k) => SettlingSteps(s, registry, k);
    case FailExecution(k) => SettlingSteps(s, registry, k);
    case Publish(k) => PublishStepsKeepInv(s, registry, k);
    case FailResult(k) => SettlingSteps(s, registry, k);
    case PublishAgain(k) => PublishStepsKeepInv(s, registry, k);
    case Crash(k) => LoseKeepsInv(s, registry, k);
    case Decide(j, action) => DecideKeepsInv(s, registry, j, action);
    case ResumeThink(run, reply) => ResumeThinkKeepsInv(s, registry, run, reply);
    case ResumeCommit(run, latency) => ResumeCommitKeepsInv(s, registry, run, latency);
    case ApiCrash(run) => ForgettingKeepsInv(s, registry, run);
    case LoseLock(run) => ForgettingKeepsInv(s, registry, run);
    case Recover(run) => if run !in s.locks { RecoverKeepsInv(s, registry, run); }
    case _ => DatabaseSteps(s, registry, step);
  }

  lemma EmptyIsInv(clock: int, registry: Workflow.Registry)
    ensures Inv(Empty(clock), registry)
  {
  }

  /** Every state any interleaving can reach satisfies the invariant. */
  lemma {:induction false} ReachableIsInv(s: Sys, registry: Workflow.Registry, steps: seq<Step>)
    requires Inv(s, registry)
    ensures Inv(ApplyAll(s, registry, steps), registry)
  {
    hide Inv, Apply;
    if steps != [] {
      ReachableIsInv(s, registry, steps[..|steps| - 1]);
      StepKeepsInv(ApplyAll(s, registry, steps[..|steps| - 1]), registry, steps[|steps| - 1]);
    }
  }
}
