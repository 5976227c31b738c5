/** What every transaction keeps about jobs, attempts and public runs, and what none of them can undo. */
module QueueInvariant {
  import opened Options
  import opened Durable
  import Workflow

  // ------------------------------------------------------------- invariant

  /** A public run shows its job: running while the job is open, the job's own status afterwards. */
  ghost predicate Agrees(t: Tables, job: Job) {
    job.runId < |t.runs|
    && SameIdentity(t.runs[job.runId], job) && t.runs[job.runId].scoped
    && t.runs[job.runId].status == (if job.status in {Queued, Running} then Running else job.status)
  }

  ghost predicate JobOk(t: Tables, j: nat)
    requires j < |t.jobs|
  {
    var job := t.jobs[j];
    && Agrees(t, job)
    && 1 <= job.maxAttempts <= 10
    && job.attempts <= job.maxAttempts
    && (!job.retrySafe ==> job.attempts <= 1)
    && job.status != Expired
    && (job.status == Queued <==> job.attempts == 0)
    && (job.status == Running <==> job.token.Some?)
    && (job.status == Running <==> job.lease.Some?)
    && (job.status == Running <==> job.worker.Some?)
    && (job.token.Some? ==> ActiveAttempt(t, j, job.token) && t.attempts[job.token.value].number == job.attempts)
    && (job.status in {Completed, WaitingApproval} ==> job.published.Some?)
    && (job.published.Some? ==> job.status !in {Queued, Running} && PublishedByLast(t, j))
  }

  /** The published run is the execution run of the job's last attempt, and that attempt was closed by publishing. */
  ghost predicate PublishedByLast(t: Tables, j: nat)
    requires j < |t.jobs|
  {
    var job := t.jobs[j];
    (j, job.attempts) in t.numbers && t.numbers[(j, job.attempts)] in t.attempts &&
    var last := t.attempts[t.numbers[(j, job.attempts)]];
    last.execution == job.published && last.status in {Completed, Failed, WaitingApproval}
  }

  /** A private run was made for this attempt: same people, same question, same services as the public run. */
  ghost predicate ChildOk(t: Tables, attempt: Attempt)
    requires attempt.jobId < |t.jobs| && t.jobs[attempt.jobId].runId < |t.runs|
  {
    attempt.execution.Some? ==>
      attempt.execution.value < |t.runs| &&
      var root, child := t.runs[t.jobs[attempt.jobId].runId], t.runs[attempt.execution.value];
      child.team == root.team && child.user == root.user && child.query == root.query
      && child.scoped && child.services == root.services
  }

  ghost predicate AttemptOk(t: Tables, k: Token)
    requires k in t.attempts
  {
    var a := t.attempts[k];
    && a.jobId < |t.jobs|
    && 1 <= a.number <= t.jobs[a.jobId].attempts
    && (a.jobId, a.number) in t.numbers && t.numbers[(a.jobId, a.number)] == k
    && a.status != Queued
    && (a.status == Running <==> t.jobs[a.jobId].token == Some(k))
    && (a.number < t.jobs[a.jobId].attempts ==> a.status == Expired)
    && t.jobs[a.jobId].runId < |t.runs| && ChildOk(t, a)
  }

  ghost predicate NumbersOk(t: Tables) {
    && (forall key :: key in t.numbers ==>
          t.numbers[key] in t.attempts
          && t.attempts[t.numbers[key]].jobId == key.0 && t.attempts[t.numbers[key]].number == key.1)
    && (forall j: nat, n: nat :: j < |t.jobs| && 1 <= n <= t.jobs[j].attempts ==> (j, n) in t.numbers)
  }

  /** No run serves two purposes: public runs, private runs and their owners are all distinct. */
  ghost predicate RunsOk(t: Tables) {
    && (forall j :: 0 <= j < |t.jobs| ==> t.jobs[j].runId < |t.runs|)
    && (forall i, j :: 0 <= i < j < |t.jobs| ==> t.jobs[i].runId != t.jobs[j].runId)
    && (forall k :: k in t.attempts && t.attempts[k].execution.Some? ==> t.attempts[k].execution.value < |t.runs|)
    && (forall k, j :: k in t.attempts && 0 <= j < |t.jobs| ==> t.attempts[k].execution != Some(t.jobs[j].runId))
    && (forall k, l :: k in t.attempts && l in t.attempts && k != l && t.attempts[k].execution.Some? ==>
          t.attempts[k].execution != t.attempts[l].execution)
    && (forall r, j :: r in t.checkpoints && 0 <= j < |t.jobs| ==> r != t.jobs[j].runId)
    && (forall r :: r in t.checkpoints ==> r < |t.runs|)
  }

  /** One submission key names at most one job. */
  ghost predicate KeysOk(t: Tables) {
    forall i, j :: 0 <= i < j < |t.jobs| ==>
      !(t.jobs[i].team == t.jobs[j].team && t.jobs[i].user == t.jobs[j].user && t.jobs[i].key == t.jobs[j].key)
  }

  ghost predicate JobsOk(t: Tables) {
    forall j :: 0 <= j < |t.jobs| ==> JobOk(t, j)
  }

  ghost predicate AttemptsOk(t: Tables) {
    forall k :: k in t.attempts ==> AttemptOk(t, k)
  }

  ghost predicate Ok(t: Tables) {
    JobsOk(t) && AttemptsOk(t) && NumbersOk(t) && RunsOk(t) && KeysOk(t)
  }

  // -------------------------------------------------------------- evolution

  /** What one transaction, or any number of them, may do to the past. */
  ghost predicate Evolves(a: Tables, b: Tables) {
    && a.clock <= b.clock
    && |a.jobs| <= |b.jobs|
    && |a.runs| <= |b.runs|
    && (forall j :: 0 <= j < |a.jobs| ==> JobEvolves(a.jobs[j], b.jobs[j], a.clock, b.clock))
    && (forall k :: k in a.attempts ==> k in b.attempts && AttemptEvolves(a.attempts[k], b.attempts[k]))
    && (forall k :: k in b.attempts && k !in a.attempts ==> FreshAttempt(a, b.attempts[k]))
  }

  /** A token new to the table belongs to a claim later than all earlier ones of its job. */
  ghost predicate FreshAttempt(a: Tables, attempt: Attempt) {
    attempt.jobId < |a.jobs| ==> attempt.number > a.jobs[attempt.jobId].attempts
  }

  predicate LiveJob(job: Job, now: int) {
    job.token.Some? && job.lease.Some? && job.lease.value > now
  }

  ghost predicate JobEvolves(a: Job, b: Job, before: int, after: int) {
    && b.runId == a.runId && b.team == a.team && b.user == a.user && b.key == a.key && b.request == a.request
    && b.retrySafe == a.retrySafe && b.maxAttempts == a.maxAttempts
    && a.attempts <= b.attempts
    && (b.status == Queued ==> a.status == Queued)
    && (a.published.Some? ==> b.published == a.published)
    && (a.status !in {Queued, Running} ==> b.status !in {Queued, Running} && b.attempts == a.attempts)
    && (b.attempts == a.attempts && LiveJob(b, after) ==> b.token == a.token && LiveJob(a, before))
  }

  ghost predicate AttemptEvolves(a: Attempt, b: Attempt) {
    && b.jobId == a.jobId && b.number == a.number
    && (a.execution.Some? ==> b.execution == a.execution)
    && (a.status != Running ==> b.status == a.status && b.execution == a.execution)
  }

  lemma EvolvesTrans(a: Tables, b: Tables, c: Tables)
    requires Evolves(a, b) && Evolves(b, c)
    ensures Evolves(a, c)
  {
    forall j | 0 <= j < |a.jobs|
      ensures JobEvolves(a.jobs[j], c.jobs[j], a.clock, c.clock)
    {
      assert JobEvolves(a.jobs[j], b.jobs[j], a.clock, b.clock);
      assert JobEvolves(b.jobs[j], c.jobs[j], b.clock, c.clock);
    }
    forall k | k in c.attempts && k !in a.attempts
      ensures FreshAttempt(a, c.attempts[k])
    {
      if k in b.attempts {
        assert AttemptEvolves(b.attempts[k], c.attempts[k]);
        assert FreshAttempt(a, b.attempts[k]);
      } else {
        assert FreshAttempt(b, c.attempts[k]);
      }
    }
  }

  // ------------------------------------------------------- frame arguments

  lemma KeysFrame(t: Tables, u: Tables)
    requires KeysOk(t) && Evolves(t, u) && |u.jobs| == |t.jobs|
    ensures KeysOk(u)
  {
    forall i, j | 0 <= i < j < |u.jobs|
      ensures !(u.jobs[i].team == u.jobs[j].team && u.jobs[i].user == u.jobs[j].user && u.jobs[i].key == u.jobs[j].key)
    {
      assert JobEvolves(t.jobs[i], u.jobs[i], t.clock, u.clock) && JobEvolves(t.jobs[j], u.jobs[j], t.clock, u.clock);
    }
  }

  lemma RunsFrame(t: Tables, u: Tables)
    requires RunsOk(t) && Evolves(t, u) && |u.jobs| == |t.jobs|
    requires forall k :: k in u.attempts && u.attempts[k].execution.Some? ==>
               k in t.attempts && u.attempts[k].execution == t.attempts[k].execution
    requires u.checkpoints.Keys <= t.checkpoints.Keys
    ensures RunsOk(u)
  {
    assert forall j :: 0 <= j < |u.jobs| ==> JobEvolves(t.jobs[j], u.jobs[j], t.clock, u.clock);
  }

  // ------------------------------------------------------------ submission

  lemma SubmitJobs(t: Tables, s: Submission, j: nat)
    requires RunsOk(t) && j < |Submit(t, s).0.jobs| && (j < |t.jobs| ==> JobOk(t, j))
    ensures JobOk(Submit(t, s).0, j)
  {
    hide FindSubmission;
  }

  lemma SubmitAttempts(t: Tables, s: Submission, k: Token)
    requires k in t.attempts && AttemptOk(t, k)
    ensures AttemptOk(Submit(t, s).0, k)
  {
    hide FindSubmission;
  }

  lemma SubmitNumbers(t: Tables, s: Submission)
    requires NumbersOk(t)
    ensures NumbersOk(Submit(t, s).0)
  {
    hide FindSubmission;
  }

  lemma SubmitRuns(t: Tables, s: Submission)
    requires RunsOk(t)
    ensures RunsOk(Submit(t, s).0)
  {
    hide FindSubmission;
  }

  lemma SubmitKeys(t: Tables, s: Submission)
    requires KeysOk(t)
    ensures KeysOk(Submit(t, s).0)
  {
  }

  lemma SubmitEvolves(t: Tables, s: Submission)
    ensures Evolves(t, Submit(t, s).0)
  {
    hide FindSubmission;
  }

  lemma SubmitKeepsOk(t: Tables, s: Submission)
    requires Ok(t)
    ensures Ok(Submit(t, s).0) && Evolves(t, Submit(t, s).0)
  {
    hide JobOk, AttemptOk, FindSubmission, Evolves, NumbersOk, RunsOk, KeysOk;
    var u := Submit(t, s).0;
    forall j | 0 <= j < |u.jobs| ensures JobOk(u, j) { SubmitJobs(t, s, j); }
    forall k | k in u.attempts ensures AttemptOk(u, k) { SubmitAttempts(t, s, k); }
    SubmitNumbers(t, s);
    SubmitRuns(t, s);
    SubmitKeys(t, s);
    SubmitEvolves(t, s);
  }

  // -------------------------------------------------------------- claiming

  /** What a candidate read earlier still tells about the current row, if the update is going to hit it. */
  ghost predicate Fits(t: Tables, c: Candidate) {
    c.jobId < |t.jobs| &&
    var job := t.jobs[c.jobId];
    && c.now <= t.clock
    && c.row.runId == job.runId && c.row.retrySafe == job.retrySafe && c.row.maxAttempts == job.maxAttempts
    && c.row.status in {Queued, Running}
    && (CasHits(t, c) ==> c.row.attempts == job.attempts)
  }

  /** A claim either changes nothing or has one of two effects on its job; no other row of the table is touched. */
  lemma ClaimShape(t: Tables, c: Candidate, worker: string, lease: int, token: Token)
    requires Fits(t, c) && JobOk(t, c.jobId)
    ensures var u, r := ClaimCas(t, c, worker, lease, token).0, ClaimCas(t, c, worker, lease, token).1;
            || u == t
            || (r == Exhausted && ClosedBy(t, u, c))
            || (r.Claimed? && ClaimedBy(t, u, c, worker, lease, token))
  {
  }

  ghost predicate ClosedBy(t: Tables, u: Tables, c: Candidate)
    requires c.jobId < |t.jobs|
  {
    var job := t.jobs[c.jobId];
    && CasHits(t, c) && job.status == Running && job.token.Some? && job.token.value in t.attempts
    && (!job.retrySafe || job.attempts == job.maxAttempts)
    && job.runId < |t.runs|
    && u == t.(jobs := t.jobs[c.jobId := job.(status := Failed, token := None, worker := None, lease := None, updatedAt := c.now)],
               attempts := t.attempts[job.token.value := ExpiredAttempt(t.attempts[job.token.value], c.now)],
               runs := t.runs[job.runId := FailedRun(t.runs[job.runId],
                 if job.retrySafe then "RETRY_LIMIT_REACHED" else "EXECUTION_OUTCOME_UNKNOWN", t.clock)])
  }

  function ExpiredAttempt(a: Attempt, now: int): Attempt {
    a.(status := Expired, finishedAt := Some(now), error := Some("LEASE_EXPIRED"))
  }

  ghost predicate ClaimedBy(t: Tables, u: Tables, c: Candidate, worker: string, lease: int, token: Token)
    requires c.jobId < |t.jobs|
  {
    var job := t.jobs[c.jobId];
    && CasHits(t, c) && token !in t.attempts && (c.jobId, job.attempts + 1) !in t.numbers
    && ValidLease(lease)
    && (job.status == Queued
        || (job.status == Running && job.token.Some? && job.token.value in t.attempts
            && job.retrySafe && job.attempts < job.maxAttempts))
    && u == t.(jobs := t.jobs[c.jobId := job.(
                 status := Running, token := Some(token), worker := Some(worker),
                 lease := Some(c.now + lease * SECOND), updatedAt := c.now, attempts := job.attempts + 1)],
               numbers := t.numbers[(c.jobId, job.attempts + 1) := token],
               attempts := (if job.status == Queued then t.attempts
                            else t.attempts[job.token.value := ExpiredAttempt(t.attempts[job.token.value], c.now)])
                           [token := Attempt(c.jobId, job.attempts + 1, worker, None, Running, c.now, None, None)])
  }

  lemma ClosedJobs(t: Tables, u: Tables, c: Candidate, j: nat)
    requires c.jobId < |t.jobs| && ClosedBy(t, u, c) && RunsOk(t)
    requires j < |t.jobs| && JobOk(t, j) && JobOk(t, c.jobId)
    ensures JobOk(u, j)
  {
  }

  lemma ClosedAttempts(t: Tables, u: Tables, c: Candidate, k: Token)
    requires c.jobId < |t.jobs| && ClosedBy(t, u, c)
    requires k in t.attempts && AttemptOk(t, k) && JobOk(t, c.jobId)
    ensures AttemptOk(u, k)
  {
  }

  lemma ClaimedJobs(
      t: Tables, u: Tables, c: Candidate, worker: string, lease: int, token: Token, j: nat)
    requires c.jobId < |t.jobs| && ClaimedBy(t, u, c, worker, lease, token)
    requires j < |t.jobs| && JobOk(t, j) && JobOk(t, c.jobId) && NumbersOk(t)
    ensures JobOk(u, j)
  {
  }

  lemma ClaimedAttempts(
      t: Tables, u: Tables, c: Candidate, worker: string, lease: int, token: Token, k: Token)
    requires c.jobId < |t.jobs| && ClaimedBy(t, u, c, worker, lease, token)
    requires JobOk(t, c.jobId) && k in u.attempts && (k != token ==> k in t.attempts && AttemptOk(t, k))
    requires t.jobs[c.jobId].token.Some? ==>
               t.jobs[c.jobId].token.value in t.attempts && AttemptOk(t, t.jobs[c.jobId].token.value)
    ensures AttemptOk(u, k)
  {
  }

  lemma ClaimedNumbers(t: Tables, u: Tables, c: Candidate, worker: string, lease: int, token: Token)
    requires c.jobId < |t.jobs| && ClaimedBy(t, u, c, worker, lease, token) && NumbersOk(t)
    ensures NumbersOk(u)
  {
  }

  lemma ClosedEvolves(t: Tables, u: Tables, c: Candidate)
    requires c.jobId < |t.jobs| && ClosedBy(t, u, c) && JobOk(t, c.jobId)
    ensures Evolves(t, u)
  {
  }

  lemma ClaimedEvolves(t: Tables, u: Tables, c: Candidate, worker: string, lease: int, token: Token)
    requires c.jobId < |t.jobs| && ClaimedBy(t, u, c, worker, lease, token) && JobOk(t, c.jobId)
    ensures Evolves(t, u)
  {
  }

  /** A change of job and attempt rows that allocates no run and no checkpoint. */
  ghost predicate RowsOnly(t: Tables, u: Tables) {
    && |u.jobs| == |t.jobs| && u.checkpoints.Keys <= t.checkpoints.Keys
    && forall k :: k in u.attempts && u.attempts[k].execution.Some? ==>
         k in t.attempts && u.attempts[k].execution == t.attempts[k].execution
  }

  lemma ClosedRows(t: Tables, u: Tables, c: Candidate)
    requires c.jobId < |t.jobs| && ClosedBy(t, u, c) && NumbersOk(t)
    ensures RowsOnly(t, u) && NumbersOk(u) && u.attempts.Keys == t.attempts.Keys
  {
  }

  lemma ClaimedRows(t: Tables, u: Tables, c: Candidate, worker: string, lease: int, token: Token)
    requires c.jobId < |t.jobs| && ClaimedBy(t, u, c, worker, lease, token)
    ensures RowsOnly(t, u) && u.attempts.Keys == t.attempts.Keys + {token}
  {
  }

  /** The invariant from its parts, once the per-row parts are known. */
  lemma Assemble(t: Tables, u: Tables)
    requires Ok(t) && Evolves(t, u) && RowsOnly(t, u) && NumbersOk(u)
    requires forall j :: 0 <= j < |u.jobs| ==> JobOk(u, j)
    requires forall k :: k in u.attempts ==> AttemptOk(u, k)
    ensures Ok(u)
  {
    hide JobOk, AttemptOk, Evolves, NumbersOk, RunsOk, KeysOk;
    assert RowsOnly(t, u) ==> |u.jobs| == |t.jobs|;
    KeysFrame(t, u);
    RunsFrame(t, u);
  }

  lemma ClosedKeepsOk(t: Tables, u: Tables, c: Candidate)
    requires Ok(t) && c.jobId < |t.jobs| && ClosedBy(t, u, c)
    ensures Ok(u) && Evolves(t, u)
  {
    hide JobOk, AttemptOk, ClosedBy, Evolves, NumbersOk, RunsOk, KeysOk;
    ClosedRows(t, u, c);
    assert JobOk(t, c.jobId);
    ClosedEvolves(t, u, c);
    forall j | 0 <= j < |u.jobs| ensures JobOk(u, j) { ClosedJobs(t, u, c, j); }
    forall k | k in u.attempts ensures AttemptOk(u, k) { ClosedAttempts(t, u, c, k); }
    Assemble(t, u);
  }

  lemma ClaimedKeepsOk(t: Tables, u: Tables, c: Candidate, worker: string, lease: int, token: Token)
    requires Ok(t) && c.jobId < |t.jobs| && ClaimedBy(t, u, c, worker, lease, token)
    ensures Ok(u) && Evolves(t, u)
  {
    hide JobOk, AttemptOk, ClaimedBy, Evolves, NumbersOk, RunsOk, KeysOk;
    if t.jobs[c.jobId].token.Some? { TokenRowOk(t, c.jobId); }
    ClaimedRows(t, u, c, worker, lease, token);
    assert JobOk(t, c.jobId);
    ClaimedEvolves(t, u, c, worker, lease, token);
    ClaimedNumbers(t, u, c, worker, lease, token);
    forall j | 0 <= j < |u.jobs| ensures JobOk(u, j) { ClaimedJobs(t, u, c, worker, lease, token, j); }
    forall k | k in u.attempts ensures AttemptOk(u, k) { ClaimedAttempts(t, u, c, worker, lease, token, k); }
    Assemble(t, u);
  }

  lemma TokenRowOk(t: Tables, j: nat)
    requires JobsOk(t) && AttemptsOk(t) && j < |t.jobs| && t.jobs[j].token.Some?
    ensures t.jobs[j].token.value in t.attempts && AttemptOk(t, t.jobs[j].token.value)
  {
    assert JobOk(t, j);
  }

  lemma ClaimKeepsOk(t: Tables, c: Candidate, worker: string, lease: int, token: Token)
    requires Ok(t) && Fits(t, c)
    ensures Ok(ClaimCas(t, c, worker, lease, token).0)
    ensures Evolves(t, ClaimCas(t, c, worker, lease, token).0)
  {
    hide JobOk, AttemptOk, ClaimCas, ClosedBy, ClaimedBy, Evolves, NumbersOk, RunsOk, KeysOk;
    var (u, r) := ClaimCas(t, c, worker, lease, token);
    assert JobOk(t, c.jobId);
    ClaimShape(t, c, worker, lease, token);
    if u == t { EvolvesRefl(t); }
    else if r == Exhausted { ClosedKeepsOk(t, u, c); }
    else { ClaimedKeepsOk(t, u, c, worker, lease, token); }
  }

  lemma EvolvesRefl(t: Tables)
    ensures Evolves(t, t)
  {
  }

  // --------------------------------------------------- renewing and closing

  /** A live claim sits on a running job whose active attempt carries the token. */
  lemma LiveIsRunning(t: Tables, claim: Claim)
    requires JobsOk(t) && AttemptsOk(t) && Live(t, claim.jobId, claim.token)
    ensures claim.token in t.attempts && AttemptOk(t, claim.token) && JobOk(t, claim.jobId)
    ensures t.attempts[claim.token].jobId == claim.jobId && t.attempts[claim.token].status == Running
    ensures t.attempts[claim.token].number == t.jobs[claim.jobId].attempts
    ensures t.jobs[claim.jobId].published.None?
  {
    assert JobOk(t, claim.jobId);
  }

  lemma RenewJobs(t: Tables, claim: Claim, lease: int, j: nat)
    requires j < |t.jobs| && JobOk(t, j)
    ensures |Renew(t, claim, lease).0.jobs| == |t.jobs| && JobOk(Renew(t, claim, lease).0, j)
  {
  }

  lemma RenewRest(t: Tables, claim: Claim, lease: int)
    requires NumbersOk(t)
    ensures var u := Renew(t, claim, lease).0;
            RowsOnly(t, u) && NumbersOk(u) && Evolves(t, u) && u.attempts == t.attempts
  {
  }

  lemma RenewAttempts(t: Tables, claim: Claim, lease: int, k: Token)
    requires k in t.attempts && AttemptOk(t, k)
    ensures AttemptOk(Renew(t, claim, lease).0, k)
  {
  }

  lemma RenewKeepsOk(t: Tables, claim: Claim, lease: int)
    requires Ok(t)
    ensures Ok(Renew(t, claim, lease).0) && Evolves(t, Renew(t, claim, lease).0)
  {
    hide JobOk, AttemptOk, Renew, Evolves, NumbersOk, RunsOk, KeysOk;
    var u := Renew(t, claim, lease).0;
    RenewRest(t, claim, lease);
    forall j | 0 <= j < |u.jobs| ensures JobOk(u, j) { RenewJobs(t, claim, lease, j); }
    forall k | k in u.attempts ensures AttemptOk(u, k) { RenewAttempts(t, claim, lease, k); }
    Assemble(t, u);
  }

  /** Publishing and failing both close the running claim `k` of job `j` with one status for job, attempt and public run. */
  ghost predicate Closes(t: Tables, u: Tables, j: nat, k: Token, status: Status) {
    && j < |t.jobs| && t.jobs[j].token == Some(k) && t.jobs[j].runId < |t.runs| && k in t.attempts
    && status in {Completed, Failed, WaitingApproval}
    && |u.jobs| == |t.jobs| && |u.runs| == |t.runs|
    && var job, attempt, root := u.jobs[j], u.attempts.Keys, t.jobs[j].runId;
    && u.attempts.Keys == t.attempts.Keys
    && job == t.jobs[j].(status := status, published := job.published, token := None, worker := None, lease := None,
                         updatedAt := job.updatedAt)
    && u.attempts[k] == t.attempts[k].(status := status, finishedAt := u.attempts[k].finishedAt, error := u.attempts[k].error)
    && u.runs[root] == t.runs[root].(intent := u.runs[root].intent, status := status, answer := u.runs[root].answer,
                                     finishedAt := u.runs[root].finishedAt, latency := u.runs[root].latency)
    && u == t.(jobs := t.jobs[j := job], attempts := t.attempts[k := u.attempts[k]], runs := t.runs[root := u.runs[root]])
    && (if status == Failed && job.published.None? then true else job.published.Some? && job.published == t.attempts[k].execution)
  }

  lemma ClosesJobs(t: Tables, u: Tables, j: nat, k: Token, status: Status, i: nat)
    requires Closes(t, u, j, k, status) && RunsOk(t) && JobOk(t, j) && AttemptOk(t, k) && i < |t.jobs| && JobOk(t, i)
    ensures JobOk(u, i)
  {
  }

  lemma ClosesAttempts(t: Tables, u: Tables, j: nat, k: Token, status: Status, l: Token)
    requires Closes(t, u, j, k, status) && JobOk(t, j) && AttemptOk(t, k) && l in t.attempts && AttemptOk(t, l)
    ensures AttemptOk(u, l)
  {
  }

  lemma ClosesRest(t: Tables, u: Tables, j: nat, k: Token, status: Status)
    requires Closes(t, u, j, k, status) && NumbersOk(t) && JobOk(t, j)
    ensures RowsOnly(t, u) && NumbersOk(u) && u.attempts.Keys == t.attempts.Keys
  {
  }

  lemma ClosesEvolves(t: Tables, u: Tables, j: nat, k: Token, status: Status)
    requires Closes(t, u, j, k, status) && JobOk(t, j)
    ensures Evolves(t, u)
  {
  }

  lemma ClosesKeepsOk(t: Tables, u: Tables, j: nat, k: Token, status: Status)
    requires Ok(t) && Closes(t, u, j, k, status)
    ensures Ok(u) && Evolves(t, u)
  {
    assert Closes(t, u, j, k, status) ==> |u.jobs| == |t.jobs| && j < |t.jobs| && k in t.attempts;
    hide JobOk, AttemptOk, Closes, Evolves, NumbersOk, RunsOk, KeysOk;
    assert JobOk(t, j) && AttemptOk(t, k);
    ClosesRest(t, u, j, k, status);
    ClosesEvolves(t, u, j, k, status);
    forall i | 0 <= i < |u.jobs| ensures JobOk(u, i) { ClosesJobs(t, u, j, k, status, i); }
    forall l | l in u.attempts ensures AttemptOk(u, l) { ClosesAttempts(t, u, j, k, status, l); }
    Assemble(t, u);
  }

  lemma PublishCloses(t: Tables, claim: Claim)
    requires PublishAttempt(t, claim).1 == Published
    ensures claim.token in t.attempts && t.attempts[claim.token].execution.Some?
    ensures t.attempts[claim.token].execution.value < |t.runs|
    ensures Closes(t, PublishAttempt(t, claim).0, claim.jobId, claim.token,
                   t.runs[t.attempts[claim.token].execution.value].status)
  {
  }

  lemma PublishKeepsOk(t: Tables, claim: Claim)
    requires Ok(t)
    ensures Ok(PublishAttempt(t, claim).0) && Evolves(t, PublishAttempt(t, claim).0)
  {
    var (u, r) := PublishAttempt(t, claim);
    assert r != Published ==> u == t;
    hide Ok, Evolves, Closes, PublishAttempt;
    if r == Published {
      PublishCloses(t, claim);
      ClosesKeepsOk(t, u, claim.jobId, claim.token, t.runs[t.attempts[claim.token].execution.value].status);
    } else {
      EvolvesRefl(t);
    }
  }

  lemma FailUnstartedKeepsOk(t: Tables, claim: Claim, code: string)
    requires Ok(t)
    ensures Ok(FailUnstarted(t, claim, code).0) && Evolves(t, FailUnstarted(t, claim, code).0)
  {
    hide JobOk, AttemptOk, Evolves, NumbersOk, RunsOk, KeysOk;
    var (u, r) := FailUnstarted(t, claim, code);
    if r == ClaimFailed {
      LiveIsRunning(t, claim);
      assert Closes(t, u, claim.jobId, claim.token, Failed);
      ClosesKeepsOk(t, u, claim.jobId, claim.token, Failed);
    } else {
      EvolvesRefl(t);
    }
  }

  // ---------------------------------------------------------------- starting

  ghost predicate Starts(t: Tables, u: Tables, k: Token, child: Run) {
    && k in t.attempts && t.attempts[k].status == Running && t.attempts[k].execution.None?
    && t.attempts[k].jobId < |t.jobs| && t.jobs[t.attempts[k].jobId].runId < |t.runs|
    && (var root := t.runs[t.jobs[t.attempts[k].jobId].runId];
        child.team == root.team && child.user == root.user && child.query == root.query && child.scoped
        && child.services == root.services)
    && u == t.(runs := t.runs + [child], attempts := t.attempts[k := t.attempts[k].(execution := Some(|t.runs|))])
  }

  lemma StartIsStarts(t: Tables, claim: Claim, requestId: nat)
    requires Ok(t) && StartAttempt(t, claim, requestId).1.Started?
    ensures var u := StartAttempt(t, claim, requestId).0;
            |u.runs| == |t.runs| + 1 && Starts(t, u, claim.token, u.runs[|t.runs|])
            && StartAttempt(t, claim, requestId).1.child == |t.runs|
            && u.runs[|t.runs|].status == Running
  {
    LiveIsRunning(t, claim);
  }

  lemma StartsJobs(t: Tables, u: Tables, k: Token, child: Run, j: nat)
    requires Starts(t, u, k, child) && j < |t.jobs| && JobOk(t, j)
    ensures JobOk(u, j)
  {
  }

  lemma StartsAttempts(t: Tables, u: Tables, k: Token, child: Run, l: Token)
    requires Starts(t, u, k, child) && l in t.attempts && AttemptOk(t, l)
    ensures AttemptOk(u, l)
  {
  }

  lemma StartsRest(t: Tables, u: Tables, k: Token, child: Run)
    requires Starts(t, u, k, child) && NumbersOk(t)
    ensures u.jobs == t.jobs && NumbersOk(u) && Evolves(t, u) && u.attempts.Keys == t.attempts.Keys
  {
  }

  lemma StartsRuns(t: Tables, u: Tables, k: Token, child: Run)
    requires Starts(t, u, k, child) && RunsOk(t)
    ensures RunsOk(u)
  {
  }

  lemma StartKeepsOk(t: Tables, claim: Claim, requestId: nat)
    requires Ok(t)
    ensures Ok(StartAttempt(t, claim, requestId).0) && Evolves(t, StartAttempt(t, claim, requestId).0)
  {
    hide JobOk, AttemptOk, Evolves, NumbersOk, RunsOk, KeysOk, Starts, ResolveScope;
    var (u, r) := StartAttempt(t, claim, requestId);
    assert !r.Started? ==> u == t;
    hide StartAttempt;
    if r.Started? {
      StartIsStarts(t, claim, requestId);
      var k, child := claim.token, u.runs[|t.runs|];
      StartsRest(t, u, k, child);
      StartsRuns(t, u, k, child);
      KeysFrame(t, u);
      forall j | 0 <= j < |u.jobs| ensures JobOk(u, j) { StartsJobs(t, u, k, child, j); }
      forall l | l in u.attempts ensures AttemptOk(u, l) { StartsAttempts(t, u, k, child, l); }
    } else {
      EvolvesRefl(t);
    }
  }

  // ----------------------------------------------------------- private writes

  /** A write to one private run and to its checkpoint. */
  ghost predicate PrivateWrite(t: Tables, u: Tables, run: nat) {
    && run < |t.runs| && |u.runs| == |t.runs|
    && (forall j :: 0 <= j < |t.jobs| ==> t.jobs[j].runId != run)
    && u.runs[run] == t.runs[run].(intent := u.runs[run].intent, status := u.runs[run].status, answer := u.runs[run].answer,
                                   finishedAt := u.runs[run].finishedAt, latency := u.runs[run].latency)
    && u.checkpoints.Keys + {run} == t.checkpoints.Keys + {run}
    && (forall r :: r in u.checkpoints && r != run ==> u.checkpoints[r] == t.checkpoints[r])
    && u == t.(runs := t.runs[run := u.runs[run]], checkpoints := u.checkpoints)
  }

  lemma PrivateJobs(t: Tables, u: Tables, run: nat, j: nat)
    requires PrivateWrite(t, u, run) && j < |t.jobs| && JobOk(t, j)
    ensures JobOk(u, j)
  {
  }

  lemma PrivateAttempts(t: Tables, u: Tables, run: nat, k: Token)
    requires PrivateWrite(t, u, run) && k in t.attempts && AttemptOk(t, k)
    ensures AttemptOk(u, k)
  {
  }

  lemma PrivateRest(t: Tables, u: Tables, run: nat)
    requires PrivateWrite(t, u, run) && NumbersOk(t) && RunsOk(t)
    ensures u.jobs == t.jobs && u.attempts == t.attempts && NumbersOk(u) && RunsOk(u) && Evolves(t, u)
  {
    assert forall r :: r in u.checkpoints ==> r in u.checkpoints.Keys + {run};
    assert forall r :: r in t.checkpoints.Keys + {run} ==> r in t.checkpoints || r == run;
  }

  lemma PrivateKeepsOk(t: Tables, u: Tables, run: nat)
    requires Ok(t) && PrivateWrite(t, u, run)
    ensures Ok(u) && Evolves(t, u)
  {
    hide JobOk, AttemptOk, Evolves, NumbersOk, RunsOk, KeysOk, PrivateWrite;
    PrivateRest(t, u, run);
    KeysFrame(t, u);
    forall j | 0 <= j < |u.jobs| ensures JobOk(u, j) { PrivateJobs(t, u, run, j); }
    forall k | k in u.attempts ensures AttemptOk(u, k) { PrivateAttempts(t, u, run, k); }
  }

  // -------------------------------------------------- approval synchronisation

  lemma SyncJobs(t: Tables, j: nat, i: nat)
    requires RunsOk(t) && i < |t.jobs| && JobOk(t, i) && (j < |t.jobs| ==> JobOk(t, j))
    ensures |SyncApproval(t, j).jobs| == |t.jobs| && JobOk(SyncApproval(t, j), i)
  {
  }

  lemma SyncAttempts(t: Tables, j: nat, k: Token)
    requires k in t.attempts && AttemptOk(t, k) && (j < |t.jobs| ==> JobOk(t, j))
    ensures AttemptOk(SyncApproval(t, j), k)
  {
  }

  lemma SyncRest(t: Tables, j: nat)
    requires NumbersOk(t) && (j < |t.jobs| ==> JobOk(t, j))
    ensures var u := SyncApproval(t, j);
            RowsOnly(t, u) && NumbersOk(u) && Evolves(t, u) && u.attempts == t.attempts
  {
  }

  lemma SyncKeepsOk(t: Tables, j: nat)
    requires Ok(t)
    ensures Ok(SyncApproval(t, j)) && Evolves(t, SyncApproval(t, j))
  {
    hide JobOk, AttemptOk, SyncApproval, Evolves, NumbersOk, RunsOk, KeysOk;
    var u := SyncApproval(t, j);
    if j < |t.jobs| { assert JobOk(t, j); }
    SyncRest(t, j);
    forall i | 0 <= i < |u.jobs| ensures JobOk(u, i) { SyncJobs(t, j, i); }
    forall k | k in u.attempts ensures AttemptOk(u, k) { SyncAttempts(t, j, k); }
    Assemble(t, u);
  }

  // ------------------------------------------------------- time and permissions

  ghost predicate Ambient(t: Tables, u: Tables) {
    t.clock <= u.clock && u == t.(clock := u.clock, members := u.members, grants := u.grants)
  }

  lemma AmbientEvolves(t: Tables, u: Tables)
    requires Ambient(t, u)
    ensures Evolves(t, u)
  {
  }

  lemma AmbientRows(t: Tables, u: Tables)
    requires Ambient(t, u)
    ensures forall j :: 0 <= j < |t.jobs| && JobOk(t, j) ==> JobOk(u, j)
    ensures forall k :: k in t.attempts && AttemptOk(t, k) ==> AttemptOk(u, k)
  {
  }

  lemma AmbientKeepsOk(t: Tables, u: Tables)
    requires Ok(t) && Ambient(t, u)
    ensures Ok(u) && Evolves(t, u)
  {
    hide JobOk, AttemptOk;
    AmbientEvolves(t, u);
    AmbientRows(t, u);
  }
}
