/** The durable tables and every transaction on them, one function a transaction. */
module Durable {
  import opened Options
  import Workflow

  // ---------------------------------------------------------------- tables

  /** A claim token; the database keeps it unique among attempts. */
  type Token = nat

  /** Queue, attempt and run states share their stored names, so one type serves all three columns. */
  datatype Status = Queued | Running | Completed | Failed | WaitingApproval | Expired

  datatype Job = Job(
    runId: nat, team: nat, user: nat, key: nat, request: nat,
    status: Status, attempts: nat, maxAttempts: nat, retrySafe: bool,
    worker: Option<string>, token: Option<Token>, lease: Option<int>,
    published: Option<nat>, updatedAt: int)

  datatype Attempt = Attempt(
    jobId: nat, number: nat, worker: string, execution: Option<nat>,
    status: Status, startedAt: int, finishedAt: Option<int>, error: Option<string>)

  /** An agent run; `services` holds its rows of the service scope table. */
  datatype Run = Run(
    requestId: nat, team: Option<nat>, user: Option<nat>, scoped: bool, services: set<string>,
    query: string, intent: Option<string>, status: Status, answer: Option<string>,
    finishedAt: Option<int>, latency: Option<nat>)

  datatype Checkpoint = Checkpoint(
    requestId: nat, state: Workflow.FlowState, decision: Option<Workflow.Action>, expiresAt: int)

  /** Jobs and runs are numbered by their automatic keys and never deleted. Attempts are keyed by their unique
      token; `numbers` is the unique index on (job, attempt number). */
  datatype Tables = Tables(
    clock: int,
    jobs: seq<Job>,
    attempts: map<Token, Attempt>,
    numbers: map<(nat, nat), Token>,
    runs: seq<Run>,
    checkpoints: map<nat, Checkpoint>,
    members: set<(nat, nat)>,
    grants: set<(nat, string)>)

  datatype Claim = Claim(jobId: nat, runId: nat, number: nat, token: Token)

  /** The row a worker read, together with the time it read before selecting it. */
  datatype Candidate = Candidate(jobId: nat, now: int, row: Job)

  const SECOND := 1_000_000
  const APPROVAL_TTL := 24 * 3600 * SECOND

  // ------------------------------------------------------------ submission

  datatype Submission = Submission(
    team: nat, user: nat, key: nat, request: nat, requestId: nat, query: string, services: set<string>,
    retrySafe: bool, maxAttempts: int)

  datatype SubmitResult = Existing(jobId: nat) | Conflict | OutOfRange | Created(jobId: nat)

  predicate SameKey(job: Job, s: Submission) {
    job.team == s.team && job.user == s.user && job.key == s.key
  }

  /** The first job carrying the submission key of this user and team, or |jobs|. */
  function FindSubmission(jobs: seq<Job>, s: Submission): (j: nat)
    ensures j <= |jobs|
    ensures j < |jobs| ==> SameKey(jobs[j], s)
    ensures forall i :: 0 <= i < j ==> !SameKey(jobs[i], s)
  {
    if jobs == [] || SameKey(jobs[0], s) then 0 else 1 + FindSubmission(jobs[1..], s)
  }

  function Submit(t: Tables, s: Submission): (Tables, SubmitResult) {
    var j := FindSubmission(t.jobs, s);
    if j < |t.jobs| then
      (t, if t.jobs[j].request == s.request then Existing(j) else Conflict)
    else if !(1 <= s.maxAttempts <= 10) then (t, OutOfRange)
    else
      var root := Run(s.requestId, Some(s.team), Some(s.user), true, s.services, s.query,
                      None, Running, None, None, None);
      var job := Job(|t.runs|, s.team, s.user, s.key, s.request, Queued, 0, s.maxAttempts, s.retrySafe,
                     None, None, None, None, t.clock);
      (t.(runs := t.runs + [root], jobs := t.jobs + [job]), Created(|t.jobs|))
  }

  // -------------------------------------------------------------- claiming

  predicate LeaseOver(job: Job, now: int) {
    job.lease.Some? && job.lease.value <= now
  }

  predicate Claimable(job: Job, now: int) {
    job.status == Queued || (job.status == Running && LeaseOver(job, now))
  }

  /** The claimable job with the lowest id, or |jobs|. */
  function FirstClaimable(jobs: seq<Job>, now: int): (j: nat)
    ensures j <= |jobs|
    ensures j < |jobs| ==> Claimable(jobs[j], now)
    ensures forall i :: 0 <= i < j ==> !Claimable(jobs[i], now)
  {
    if jobs == [] || Claimable(jobs[0], now) then 0 else 1 + FirstClaimable(jobs[1..], now)
  }

  function ReadCandidate(t: Tables): Option<Candidate> {
    var j := FirstClaimable(t.jobs, t.clock);
    if j == |t.jobs| then None else Some(Candidate(j, t.clock, t.jobs[j]))
  }

  datatype ClaimResult = BadArguments | Nothing | Exhausted | Claimed(claim: Claim) | Corrupt

  predicate ValidLease(leaseSeconds: int) { 1 <= leaseSeconds <= 3600 }

  predicate MayRetry(row: Job) {
    row.status != Running || (row.retrySafe && row.attempts < row.maxAttempts)
  }

  /** The where clause of the claiming update, evaluated on the current row. */
  predicate CasHits(t: Tables, c: Candidate) {
    c.jobId < |t.jobs| &&
    var job := t.jobs[c.jobId];
    job.status == c.row.status
    && (c.row.status == Running ==> job.token == c.row.token && LeaseOver(job, t.clock))
  }

  predicate ActiveAttempt(t: Tables, jobId: nat, token: Option<Token>) {
    token.Some? && token.value in t.attempts
    && t.attempts[token.value].jobId == jobId && t.attempts[token.value].status == Running
  }

  function ExpiredAttempts(t: Tables, c: Candidate): map<Token, Attempt> {
    if c.row.status == Running && ActiveAttempt(t, c.jobId, c.row.token) then
      t.attempts[c.row.token.value :=
        t.attempts[c.row.token.value].(status := Expired, finishedAt := Some(c.now), error := Some("LEASE_EXPIRED"))]
    else t.attempts
  }

  function FailedRun(run: Run, answer: string, now: int): Run {
    run.(status := Failed, answer := Some(answer), finishedAt := Some(now))
  }

  /** The compare-and-swap half of `claim_next`: `c` may be stale; `token` is the generated token. */
  function ClaimCas(t: Tables, c: Candidate, worker: string, leaseSeconds: int, token: Token): (Tables, ClaimResult) {
    if worker == "" || |worker| > 128 || !ValidLease(leaseSeconds) then (t, BadArguments)
    else if !CasHits(t, c) then (t, Nothing)
    else if c.row.status == Running && !ActiveAttempt(t, c.jobId, c.row.token) then (t, Corrupt)
    else
      var job := t.jobs[c.jobId];
      var attempts := ExpiredAttempts(t, c);
      if !MayRetry(c.row) then
        if c.row.runId >= |t.runs| then (t, Corrupt)
        else
          var closed := job.(status := Failed, token := None, worker := None, lease := None, updatedAt := c.now);
          var answer := if c.row.retrySafe then "RETRY_LIMIT_REACHED" else "EXECUTION_OUTCOME_UNKNOWN";
          (t.(jobs := t.jobs[c.jobId := closed], attempts := attempts,
              runs := t.runs[c.row.runId := FailedRun(t.runs[c.row.runId], answer, t.clock)]),
           Exhausted)
      else
        var number := c.row.attempts + 1;
        if token in attempts || (c.jobId, number) in t.numbers then (t, Corrupt)
        else
          var claimed := job.(status := Running, token := Some(token), worker := Some(worker),
                              lease := Some(c.now + leaseSeconds * SECOND), updatedAt := c.now, attempts := number);
          (t.(jobs := t.jobs[c.jobId := claimed],
              attempts := attempts[token := Attempt(c.jobId, number, worker, None, Running, c.now, None, None)],
              numbers := t.numbers[(c.jobId, number) := token]),
           Claimed(Claim(c.jobId, c.row.runId, number, token)))
  }

  /** The where clause shared by every fenced update: right token, still leased. */
  predicate Live(t: Tables, jobId: nat, token: Token) {
    jobId < |t.jobs|
    && t.jobs[jobId].status == Running
    && t.jobs[jobId].token == Some(token)
    && t.jobs[jobId].lease.Some? && t.jobs[jobId].lease.value > t.clock
  }

  predicate LiveClaim(t: Tables, claim: Claim) {
    Live(t, claim.jobId, claim.token) && t.jobs[claim.jobId].runId == claim.runId
  }

  function Renew(t: Tables, claim: Claim, leaseSeconds: int): (Tables, bool) {
    if ValidLease(leaseSeconds) && Live(t, claim.jobId, claim.token) then
      (t.(jobs := t.jobs[claim.jobId := t.jobs[claim.jobId].(
           lease := Some(t.clock + leaseSeconds * SECOND), updatedAt := t.clock)]), true)
    else (t, false)
  }

  // -------------------------------------------------------------- attempts

  predicate OwnAttempt(t: Tables, claim: Claim) {
    claim.token in t.attempts
    && t.attempts[claim.token].jobId == claim.jobId
    && t.attempts[claim.token].number == claim.number
    && t.attempts[claim.token].status == Running
  }

  predicate SameIdentity(run: Run, job: Job) {
    run.team == Some(job.team) && run.user == Some(job.user)
  }

  /** The services of a run whose creator is still a member and whose services are all still granted. */
  function ResolveScope(t: Tables, runId: nat): Option<set<string>> {
    if runId >= |t.runs| then None
    else
      var run := t.runs[runId];
      if run.team.None? || run.user.None? || !run.scoped then None
      else if (run.team.value, run.user.value) !in t.members then None
      else if exists name :: name in run.services && (run.team.value, name) !in t.grants then None
      else Some(run.services)
  }

  datatype StartResult = LeaseLost | Corrupted | ScopeChanged | Started(child: nat)

  function StartAttempt(t: Tables, claim: Claim, requestId: nat): (Tables, StartResult) {
    if !LiveClaim(t, claim) then (t, LeaseLost)
    else if !OwnAttempt(t, claim) || t.attempts[claim.token].execution.Some? then (t, Corrupted)
    else if claim.runId >= |t.runs| || !SameIdentity(t.runs[claim.runId], t.jobs[claim.jobId])
            || ResolveScope(t, claim.runId).None? then (t, ScopeChanged)
    else
      var root := t.runs[claim.runId];
      var child := Run(requestId, root.team, root.user, true, ResolveScope(t, claim.runId).value, root.query,
                       None, Running, None, None, None);
      (t.(runs := t.runs + [child],
          attempts := t.attempts[claim.token := t.attempts[claim.token].(execution := Some(|t.runs|))]),
       Started(|t.runs|))
  }

  datatype PublishResult = Published | NotPublished | Invalid

  predicate PendingCheckpoint(t: Tables, runId: nat) {
    runId < |t.runs| && runId in t.checkpoints
    && t.checkpoints[runId].requestId == t.runs[runId].requestId
    && t.checkpoints[runId].decision.None?
    && t.checkpoints[runId].expiresAt > t.clock
  }

  /** The child can be shown: it ended, or it waits with its own valid undecided checkpoint. */
  predicate Publishable(t: Tables, child: nat) {
    child < |t.runs|
    && t.runs[child].status in {Completed, Failed, WaitingApproval}
    && (t.runs[child].status == WaitingApproval ==> PendingCheckpoint(t, child))
  }

  /** The re-checks `publish_attempt` makes after its update, on identity and on scope. */
  predicate SameTask(t: Tables, claim: Claim, child: nat) {
    claim.runId < |t.runs| && claim.jobId < |t.jobs| && child < |t.runs| &&
    var root, job, run := t.runs[claim.runId], t.jobs[claim.jobId], t.runs[child];
    run.team == root.team && run.user == root.user && SameIdentity(root, job)
    && run.query == root.query && run.scoped && root.services == run.services
  }

  function Adopted(root: Run, child: Run): Run {
    root.(intent := child.intent, status := child.status, answer := child.answer,
          finishedAt := child.finishedAt, latency := child.latency)
  }

  function PublishAttempt(t: Tables, claim: Claim): (Tables, PublishResult) {
    if !OwnAttempt(t, claim) || t.attempts[claim.token].execution.None? then (t, NotPublished)
    else
      var child := t.attempts[claim.token].execution.value;
      if !Publishable(t, child) then (t, Invalid)
      else if !LiveClaim(t, claim) then (t, NotPublished)
      else if !SameTask(t, claim, child) then (t, Invalid)
      else
        var status := t.runs[child].status;
        (t.(jobs := t.jobs[claim.jobId := t.jobs[claim.jobId].(
              status := status, published := Some(child), token := None, worker := None, lease := None,
              updatedAt := t.clock)],
            attempts := t.attempts[claim.token := t.attempts[claim.token].(
              status := status, finishedAt := Some(t.clock))],
            runs := t.runs[claim.runId := Adopted(t.runs[claim.runId], t.runs[child])]),
         Published)
  }

  datatype FailResult = ClaimFailed | ClaimLost | AlreadyStarted

  function FailUnstarted(t: Tables, claim: Claim, code: string): (Tables, FailResult) {
    if !LiveClaim(t, claim) then (t, ClaimLost)
    else if !OwnAttempt(t, claim) || t.attempts[claim.token].execution.Some? || claim.runId >= |t.runs| then (t, AlreadyStarted)
    else
      (t.(jobs := t.jobs[claim.jobId := t.jobs[claim.jobId].(
            status := Failed, token := None, worker := None, lease := None, updatedAt := t.clock)],
          attempts := t.attempts[claim.token := t.attempts[claim.token].(
            status := Failed, finishedAt := Some(t.clock), error := Some(code))],
          runs := t.runs[claim.runId := FailedRun(t.runs[claim.runId], code, t.clock)]),
       ClaimFailed)
  }

  // ------------------------------------------------------------- execution

  function FailPrivate(t: Tables, run: nat, message: string): Tables {
    if run >= |t.runs| then t
    else t.(runs := t.runs[run := FailedRun(t.runs[run], message, t.clock)])
  }

  function Ended(run: Run, status: Status, intent: Option<string>, answer: Option<string>, latency: nat, now: int): Run {
    run.(intent := intent, status := status, answer := answer, finishedAt := Some(now), latency := Some(latency))
  }

  /** A multi-agent investigation ends its run. */
  function FinishInvestigation(
      t: Tables, run: nat, usable: bool, intent: Option<string>, answer: Option<string>, latency: nat): Tables
  {
    if run >= |t.runs| then t
    else t.(runs := t.runs[run :=
              Ended(t.runs[run], if usable then Completed else Failed, intent, answer, latency, t.clock)])
  }

  /** A specialist run ends and its approval checkpoint, if any, is deleted. */
  function FinishRun(
      t: Tables, run: nat, failed: bool, intent: Option<string>, answer: Option<string>, latency: nat): Tables
  {
    if run >= |t.runs| then t
    else t.(runs := t.runs[run :=
              Ended(t.runs[run], if failed then Failed else Completed, intent, answer, latency, t.clock)],
            checkpoints := t.checkpoints - {run})
  }

  function MarkWaiting(t: Tables, run: nat, state: Workflow.FlowState, latency: nat): Tables {
    if run >= |t.runs| then t
    else
      var requestId := if run in t.checkpoints then t.checkpoints[run].requestId else t.runs[run].requestId;
      t.(runs := t.runs[run := t.runs[run].(
           intent := Some(state.intent), status := WaitingApproval, answer := Some("WAITING"),
           finishedAt := None, latency := Some(latency))],
         checkpoints := t.checkpoints[run := Checkpoint(requestId, state, None, t.clock + APPROVAL_TTL)])
  }

  // -------------------------------------------------------------- approval

  datatype ApprovalResult = NotWaiting | Unrecoverable | AlreadyClaimed | Granted(saved: Workflow.FlowState)

  /** The claiming transaction of a resume, up to its commit. */
  function ClaimApproval(t: Tables, run: nat, action: Workflow.Action): (Tables, ApprovalResult) {
    if run >= |t.runs| || t.runs[run].status != WaitingApproval then (t, NotWaiting)
    else if run !in t.checkpoints || t.checkpoints[run].requestId != t.runs[run].requestId then
      (t.(runs := t.runs[run := FailedRun(t.runs[run], "APPROVAL_CHECKPOINT_MISSING", t.clock)],
          checkpoints := t.checkpoints - {run}), Unrecoverable)
    else if t.checkpoints[run].expiresAt <= t.clock then
      (t.(runs := t.runs[run := FailedRun(t.runs[run], "APPROVAL_CHECKPOINT_EXPIRED", t.clock)],
          checkpoints := t.checkpoints - {run}), Unrecoverable)
    else if t.checkpoints[run].decision.Some? then (t, AlreadyClaimed)
    else
      (t.(runs := t.runs[run := t.runs[run].(status := Running, answer := None)],
          checkpoints := t.checkpoints[run := t.checkpoints[run].(decision := Some(action))]),
       Granted(t.checkpoints[run].state))
  }

  datatype Recovery = Dropped | FailedOver | StillWaiting | Absent

  function Reconcile(t: Tables, run: nat): (Tables, Recovery) {
    if run !in t.checkpoints then (t, Absent)
    else if run >= |t.runs| || t.runs[run].status in {Completed, Failed} then
      (t.(checkpoints := t.checkpoints - {run}), Dropped)
    else if t.checkpoints[run].expiresAt <= t.clock then
      (t.(runs := t.runs[run := FailedRun(t.runs[run], "APPROVAL_CHECKPOINT_EXPIRED", t.clock)],
          checkpoints := t.checkpoints - {run}), FailedOver)
    else if t.checkpoints[run].decision.Some? then
      (t.(runs := t.runs[run := FailedRun(t.runs[run], "APPROVAL_EXECUTION_OUTCOME_UNKNOWN", t.clock)],
          checkpoints := t.checkpoints - {run}), FailedOver)
    else
      (t.(runs := t.runs[run := t.runs[run].(status := WaitingApproval, finishedAt := None)]), StillWaiting)
  }

  function SyncApproval(t: Tables, j: nat): Tables {
    if j >= |t.jobs| || t.jobs[j].status != WaitingApproval || t.jobs[j].published.None? then t
    else
      var child, root := t.jobs[j].published.value, t.jobs[j].runId;
      if child >= |t.runs| || root >= |t.runs| || t.runs[child].status !in {Completed, Failed} then t
      else
        t.(runs := t.runs[root := Adopted(t.runs[root], t.runs[child])],
           jobs := t.jobs[j := t.jobs[j].(status := t.runs[child].status)])
  }

  // ---------------------------------------------------------------- progress

  /** The attempt a progress stream shows: the leased one with the job's own token. */
  function VisibleAttempt(t: Tables, j: nat): Option<Token>
    requires j < |t.jobs|
  {
    var job := t.jobs[j];
    if job.status == Running && job.lease.Some? && job.lease.value > t.clock
       && (j, job.attempts) in t.numbers && t.numbers[(j, job.attempts)] in t.attempts
       && t.attempts[t.numbers[(j, job.attempts)]].status == Running
       && job.token == Some(t.numbers[(j, job.attempts)])
    then Some(t.numbers[(j, job.attempts)])
    else None
  }

  /** The run whose events a progress stream sends. */
  function VisibleRun(t: Tables, j: nat): Option<nat>
    requires j < |t.jobs|
  {
    var shown := VisibleAttempt(t, j);
    if shown.Some? && shown.value in t.attempts then t.attempts[shown.value].execution else t.jobs[j].published
  }
}
