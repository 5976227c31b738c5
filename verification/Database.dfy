/** The transactions as they are written: each method reads and assigns rows, and commits or leaves everything as it was. */
module Database {
  import opened Options
  import opened Durable
  import Workflow

  // ---------------------------------------------------------------- recovery

  datatype Report = Report(tables: Tables, waiting: nat, failed: nat, active: nat)

  function Recovered(t: Tables, entries: seq<nat>, locked: set<nat>): Report {
    if entries == [] then Report(t, 0, 0, 0)
    else
      var run, done := entries[|entries| - 1], Recovered(t, entries[..|entries| - 1], locked);
      if run in locked then done.(active := done.active + 1)
      else
        var (u, r) := Reconcile(done.tables, run);
        Report(u, done.waiting + (if r == StillWaiting then 1 else 0),
               done.failed + (if r == FailedOver then 1 else 0), done.active)
  }

  /** The same rows for one run: its run and its checkpoint. */
  ghost predicate SameRows(a: Tables, b: Tables, r: nat) {
    && |a.runs| == |b.runs| && (r < |a.runs| ==> a.runs[r] == b.runs[r])
    && (r in a.checkpoints <==> r in b.checkpoints)
    && (r in a.checkpoints ==> a.checkpoints[r] == b.checkpoints[r])
  }

  /** Reconciling one run depends on, and touches, only its own rows. */
  lemma ReconcileIsLocal(t: Tables, u: Tables, run: nat, r: nat)
    requires t.clock == u.clock && SameRows(t, u, run)
    ensures Reconcile(u, run).1 == Reconcile(t, run).1
    ensures Reconcile(u, run).0.clock == u.clock
    ensures SameRows(Reconcile(t, run).0, Reconcile(u, run).0, run)
    ensures r != run ==> SameRows(u, Reconcile(u, run).0, r)
  {
  }

  function Tally(t: Tables, entries: seq<nat>, locked: set<nat>, kind: Recovery): nat {
    if entries == [] then 0
    else
      var run := entries[|entries| - 1];
      Tally(t, entries[..|entries| - 1], locked, kind)
      + if run !in locked && Reconcile(t, run).1 == kind then 1 else 0
  }

  /** Recovering many checkpoints is recovering each alone, in any order: a locked or unselected approval keeps its
      rows, every other one ends as `Reconcile` ends it, and the counts are those of the single outcomes. */
  lemma {:induction false} RecoveryIsPerRun(t: Tables, entries: seq<nat>, locked: set<nat>, r: nat)
    requires forall i, j :: 0 <= i < j < |entries| ==> entries[i] != entries[j]
    ensures var done := Recovered(t, entries, locked);
            && done.tables.clock == t.clock
            && SameRows(if r in entries && r !in locked then Reconcile(t, r).0 else t, done.tables, r)
            && done.waiting == Tally(t, entries, locked, StillWaiting)
            && done.failed == Tally(t, entries, locked, FailedOver)
  {
    hide Reconcile;
    if entries != [] {
      var front, run := entries[..|entries| - 1], entries[|entries| - 1];
      RecoveryIsPerRun(t, front, locked, r);
      RecoveryIsPerRun(t, front, locked, run);
      assert run !in front;
      assert r in entries <==> r in front || r == run;
      ReconcileIsLocal(t, Recovered(t, front, locked).tables, run, r);
    }
  }

  /** After a recovery no unlocked approval is left claimed or expired: it is pending and waiting, or it is gone. */
  lemma NothingAmbiguousSurvives(t: Tables, entries: seq<nat>, locked: set<nat>, r: nat)
    requires forall i, j :: 0 <= i < j < |entries| ==> entries[i] != entries[j]
    requires r in entries && r !in locked && r in Recovered(t, entries, locked).tables.checkpoints
    ensures var u := Recovered(t, entries, locked).tables;
            && u.checkpoints[r].decision.None? && u.checkpoints[r].expiresAt > u.clock
            && r < |u.runs| && u.runs[r].status == WaitingApproval
  {
    RecoveryIsPerRun(t, entries, locked, r);
  }

  class Database {
    var clock: int
    var jobs: seq<Job>
    var attempts: map<Token, Attempt>
    var numbers: map<(nat, nat), Token>
    var runs: seq<Run>
    var checkpoints: map<nat, Checkpoint>
    var members: set<(nat, nat)>
    var grants: set<(nat, string)>

    /** The rows a transaction starts from. */
    function Snapshot(): Tables
      reads this
    {
      Tables(clock, jobs, attempts, numbers, runs, checkpoints, members, grants)
    }

    constructor (now: int)
      ensures Snapshot() == Tables(now, [], map[], map[], [], map[], {}, {})
    {
      clock, jobs, attempts, numbers, runs, checkpoints, members, grants :=
        now, [], map[], map[], [], map[], {}, {};
    }

    /** Finds an earlier submission, or inserts the public run and its queued job in one transaction. */
    method SubmitJob(s: Submission) returns (r: SubmitResult)
      modifies this
      ensures (Snapshot(), r) == Submit(old(Snapshot()), s)
    {
      var existing := FindSubmission(jobs, s);
      if existing < |jobs| {
        return if jobs[existing].request == s.request then Existing(existing) else Conflict;
      }
      if s.maxAttempts < 1 || s.maxAttempts > 10 {
        return OutOfRange;
      }
      var runId, jobId := |runs|, |jobs|;
      runs := runs + [Run(s.requestId, Some(s.team), Some(s.user), true, s.services, s.query, None, Running, None, None, None)];
      jobs := jobs + [Job(runId, s.team, s.user, s.key, s.request, Queued, 0, s.maxAttempts, s.retrySafe,
                          None, None, None, None, clock)];
      r := Created(jobId);
    }

    /** The candidate query: the claimable job with the lowest id. */
    method SelectCandidate() returns (c: Option<Candidate>)
      ensures c == ReadCandidate(Snapshot())
    {
      var now := clock;
      var j := 0;
      while j < |jobs|
        invariant 0 <= j <= |jobs|
        invariant forall i :: 0 <= i < j ==> !Claimable(jobs[i], now)
      {
        if Claimable(jobs[j], now) {
          assert FirstClaimable(jobs, now) == j;
          return Some(Candidate(j, now, jobs[j]));
        }
        j := j + 1;
      }
      assert FirstClaimable(jobs, now) == |jobs|;
      c := None;
    }

    /** The compare-and-swap of `claim_next` on a candidate read earlier, with the bookkeeping of both attempts. */
    method ClaimCandidate(c: Candidate, worker: string, leaseSeconds: int, token: Token) returns (r: ClaimResult)
      modifies this
      ensures (Snapshot(), r) == ClaimCas(old(Snapshot()), c, worker, leaseSeconds, token)
    {
      if worker == "" || |worker| > 128 || !ValidLease(leaseSeconds) {
        return BadArguments;
      }
      var expired := c.row.status == Running;
      var canRetry := !expired || (c.row.retrySafe && c.row.attempts < c.row.maxAttempts);
      if c.jobId >= |jobs| || jobs[c.jobId].status != c.row.status
         || (expired && !(jobs[c.jobId].token == c.row.token && LeaseOver(jobs[c.jobId], clock)))
      {
        return Nothing;
      }
      var newAttempts := attempts;
      if expired {
        if c.row.token.None? || c.row.token.value !in attempts
           || attempts[c.row.token.value].jobId != c.jobId || attempts[c.row.token.value].status != Running
        {
          return Corrupt;
        }
        newAttempts := newAttempts[c.row.token.value := newAttempts[c.row.token.value].(
          status := Expired, finishedAt := Some(c.now), error := Some("LEASE_EXPIRED"))];
      }
      var job := jobs[c.jobId];
      if !canRetry {
        if c.row.runId >= |runs| {
          return Corrupt;
        }
        job := job.(status := Failed, token := None, worker := None, lease := None, updatedAt := c.now);
        var run := runs[c.row.runId];
        run := run.(status := Failed);
        run := run.(answer := Some(if c.row.retrySafe then "RETRY_LIMIT_REACHED" else "EXECUTION_OUTCOME_UNKNOWN"));
        run := run.(finishedAt := Some(clock));
        jobs, attempts, runs := jobs[c.jobId := job], newAttempts, runs[c.row.runId := run];
        return Exhausted;
      }
      var number := c.row.attempts + 1;
      if token in newAttempts || (c.jobId, number) in numbers {
        return Corrupt;
      }
      job := job.(status := Running, token := Some(token), worker := Some(worker));
      job := job.(lease := Some(c.now + leaseSeconds * SECOND), updatedAt := c.now, attempts := number);
      newAttempts := newAttempts[token := Attempt(c.jobId, number, worker, None, Running, c.now, None, None)];
      jobs, attempts, numbers := jobs[c.jobId := job], newAttempts, numbers[(c.jobId, number) := token];
      r := Claimed(Claim(c.jobId, c.row.runId, number, token));
    }

    method RenewLease(claim: Claim, leaseSeconds: int) returns (renewed: bool)
      modifies this`jobs
      ensures (Snapshot(), renewed) == Renew(old(Snapshot()), claim, leaseSeconds)
    {
      if !ValidLease(leaseSeconds) || !Live(Snapshot(), claim.jobId, claim.token) {
        return false;
      }
      var job := jobs[claim.jobId];
      job := job.(lease := Some(clock + leaseSeconds * SECOND), updatedAt := clock);
      jobs := jobs[claim.jobId := job];
      renewed := true;
    }

    /** Creates the private run of an attempt and links it, or says why it must not run. */
    method AllocateAttempt(claim: Claim, requestId: nat) returns (r: StartResult)
      modifies this`runs, this`attempts
      ensures (Snapshot(), r) == StartAttempt(old(Snapshot()), claim, requestId)
    {
      if !Live(Snapshot(), claim.jobId, claim.token) || jobs[claim.jobId].runId != claim.runId {
        return LeaseLost;
      }
      if !OwnAttempt(Snapshot(), claim) || attempts[claim.token].execution.Some? {
        return Corrupted;
      }
      if claim.runId >= |runs| || !SameIdentity(runs[claim.runId], jobs[claim.jobId]) {
        return ScopeChanged;
      }
      var scope := ResolveScope(Snapshot(), claim.runId);
      if scope.None? {
        return ScopeChanged;
      }
      var root, child := runs[claim.runId], |runs|;
      runs := runs + [Run(requestId, root.team, root.user, true, scope.value, root.query, None, Running, None, None, None)];
      attempts := attempts[claim.token := attempts[claim.token].(execution := Some(child))];
      r := Started(child);
    }

    /** Publishes a finished private run to the public one under the current claim; nothing is kept when a check fails. */
    method PublishClaim(claim: Claim) returns (r: PublishResult)
      modifies this`jobs, this`attempts, this`runs
      ensures (Snapshot(), r) == PublishAttempt(old(Snapshot()), claim)
    {
      if !OwnAttempt(Snapshot(), claim) || attempts[claim.token].execution.None? {
        return NotPublished;
      }
      var child := attempts[claim.token].execution.value;
      if child >= |runs| || runs[child].status !in {Completed, Failed, WaitingApproval} {
        return Invalid;
      }
      if runs[child].status == WaitingApproval {
        if child !in checkpoints || checkpoints[child].requestId != runs[child].requestId
           || checkpoints[child].decision.Some? || checkpoints[child].expiresAt <= clock
        {
          return Invalid;
        }
      }
      var status := runs[child].status;
      if !Live(Snapshot(), claim.jobId, claim.token) || jobs[claim.jobId].runId != claim.runId {
        return NotPublished;
      }
      var job := jobs[claim.jobId];
      if claim.runId >= |runs| {
        return Invalid;
      }
      var root, run := runs[claim.runId], runs[child];
      if run.team != root.team || run.user != root.user || root.team != Some(job.team) || root.user != Some(job.user)
         || run.query != root.query || !run.scoped
      {
        return Invalid;
      }
      if root.services != run.services {
        return Invalid;
      }
      job := job.(status := status, published := Some(child), token := None, worker := None, lease := None, updatedAt := clock);
      root := root.(intent := run.intent, status := run.status);
      root := root.(answer := run.answer, finishedAt := run.finishedAt, latency := run.latency);
      jobs, runs := jobs[claim.jobId := job], runs[claim.runId := root];
      attempts := attempts[claim.token := attempts[claim.token].(status := status, finishedAt := Some(clock))];
      r := Published;
    }

    /** Closes a claim that never allocated a run, together with its public run. */
    method FailUnstartedClaim(claim: Claim, code: string) returns (r: FailResult)
      modifies this`jobs, this`attempts, this`runs
      ensures (Snapshot(), r) == FailUnstarted(old(Snapshot()), claim, code)
    {
      if !Live(Snapshot(), claim.jobId, claim.token) || jobs[claim.jobId].runId != claim.runId {
        return ClaimLost;
      }
      if !OwnAttempt(Snapshot(), claim) || attempts[claim.token].execution.Some? || claim.runId >= |runs| {
        return AlreadyStarted;
      }
      var job, attempt, root := jobs[claim.jobId], attempts[claim.token], runs[claim.runId];
      job := job.(status := Failed, token := None, worker := None, lease := None, updatedAt := clock);
      attempt := attempt.(status := Failed, finishedAt := Some(clock), error := Some(code));
      root := root.(status := Failed, answer := Some(code), finishedAt := Some(clock));
      jobs, runs := jobs[claim.jobId := job], runs[claim.runId := root];
      attempts := attempts[claim.token := attempt];
      r := ClaimFailed;
    }

    method FailPrivateRun(run: nat, message: string)
      modifies this`runs
      ensures Snapshot() == FailPrivate(old(Snapshot()), run, message)
    {
      if run < |runs| {
        var row := runs[run];
        row := row.(status := Failed, answer := Some(message));
        row := row.(finishedAt := Some(clock));
        runs := runs[run := row];
      }
    }

    method MarkRunWaiting(run: nat, state: Workflow.FlowState, latency: nat)
      modifies this`runs, this`checkpoints
      ensures Snapshot() == MarkWaiting(old(Snapshot()), run, state, latency)
    {
      if run >= |runs| {
        return;
      }
      var row := runs[run];
      row := row.(intent := Some(state.intent), status := WaitingApproval, answer := Some("WAITING"));
      row := row.(finishedAt := None, latency := Some(latency));
      if run !in checkpoints {
        checkpoints := checkpoints[run := Checkpoint(row.requestId, state, None, clock + APPROVAL_TTL)];
      } else {
        var checkpoint := checkpoints[run].(state := state, decision := None);
        checkpoints := checkpoints[run := checkpoint.(expiresAt := clock + APPROVAL_TTL)];
      }
      runs := runs[run := row];
    }

    method FinishAgentRun(run: nat, failed: bool, intent: Option<string>, answer: Option<string>, latency: nat)
      modifies this`runs, this`checkpoints
      ensures Snapshot() == FinishRun(old(Snapshot()), run, failed, intent, answer, latency)
    {
      if run >= |runs| {
        return;
      }
      var row := runs[run];
      row := row.(intent := intent, status := if failed then Failed else Completed, answer := answer);
      row := row.(finishedAt := Some(clock), latency := Some(latency));
      runs := runs[run := row];
      checkpoints := checkpoints - {run};
    }

    /** The claiming half of a resume, up to its commit. */
    method ClaimWaitingRun(run: nat, action: Workflow.Action) returns (r: ApprovalResult)
      modifies this`runs, this`checkpoints
      ensures (Snapshot(), r) == ClaimApproval(old(Snapshot()), run, action)
    {
      if run >= |runs| || runs[run].status != WaitingApproval {
        return NotWaiting;
      }
      if run !in checkpoints || checkpoints[run].requestId != runs[run].requestId {
        FailUnrecoverable(run, "APPROVAL_CHECKPOINT_MISSING");
        return Unrecoverable;
      }
      if checkpoints[run].expiresAt <= clock {
        FailUnrecoverable(run, "APPROVAL_CHECKPOINT_EXPIRED");
        return Unrecoverable;
      }
      if checkpoints[run].decision.Some? {
        return AlreadyClaimed;
      }
      runs := runs[run := runs[run].(status := Running, answer := None)];
      checkpoints := checkpoints[run := checkpoints[run].(decision := Some(action))];
      r := Granted(checkpoints[run].state);
    }

    method FailUnrecoverable(run: nat, error: string)
      requires run < |runs|
      modifies this`runs, this`checkpoints
      ensures runs == old(runs)[run := FailedRun(old(runs)[run], error, clock)] && checkpoints == old(checkpoints) - {run}
    {
      var row := runs[run].(status := Failed, answer := Some(error));
      runs := runs[run := row.(finishedAt := Some(clock))];
      if run in checkpoints {
        checkpoints := checkpoints - {run};
      }
    }

    /** Restores one safe pending approval, or fails it when it is expired or ambiguous. */
    method ReconcileOne(run: nat) returns (r: Recovery)
      modifies this`runs, this`checkpoints
      ensures (Snapshot(), r) == Reconcile(old(Snapshot()), run)
    {
      if run !in checkpoints {
        return Absent;
      }
      var now := clock;
      if run >= |runs| || runs[run].status == Completed || runs[run].status == Failed {
        checkpoints := checkpoints - {run};
        return Dropped;
      }
      if checkpoints[run].expiresAt <= now {
        runs := runs[run := runs[run].(status := Failed, answer := Some("APPROVAL_CHECKPOINT_EXPIRED"), finishedAt := Some(now))];
        checkpoints := checkpoints - {run};
        return FailedOver;
      }
      if checkpoints[run].decision.Some? {
        runs := runs[run := runs[run].(status := Failed, answer := Some("APPROVAL_EXECUTION_OUTCOME_UNKNOWN"), finishedAt := Some(now))];
        checkpoints := checkpoints - {run};
        return FailedOver;
      }
      runs := runs[run := runs[run].(status := WaitingApproval, finishedAt := None)];
      r := StillWaiting;
    }

    /** Recovery at start-up over the selected checkpoints, skipping those whose approval is being handled. */
    method ReconcileAll(entries: seq<nat>, locked: set<nat>) returns (waiting: nat, failed: nat, active: nat)
      modifies this`runs, this`checkpoints
      ensures Report(Snapshot(), waiting, failed, active) == Recovered(old(Snapshot()), entries, locked)
    {
      waiting, failed, active := 0, 0, 0;
      ghost var before := Snapshot();
      for i := 0 to |entries|
        invariant Report(Snapshot(), waiting, failed, active) == Recovered(before, entries[..i], locked)
      {
        assert entries[..i + 1][..i] == entries[..i];
        if entries[i] in locked {
          active := active + 1;
        } else {
          var r := ReconcileOne(entries[i]);
          if r == StillWaiting {
            waiting := waiting + 1;
          } else if r == FailedOver {
            failed := failed + 1;
          }
        }
      }
      assert entries[..|entries|] == entries;
    }

    /** Copies the end of an approved private run to its job and its public run. */
    method SyncPublishedApproval(j: nat)
      modifies this`runs, this`jobs
      ensures Snapshot() == SyncApproval(old(Snapshot()), j)
    {
      if j >= |jobs| || jobs[j].status != WaitingApproval || jobs[j].published.None? {
        return;
      }
      var child, root := jobs[j].published.value, jobs[j].runId;
      if child >= |runs| || root >= |runs| || (runs[child].status != Completed && runs[child].status != Failed) {
        return;
      }
      var row := runs[root].(status := runs[child].status, intent := runs[child].intent, answer := runs[child].answer);
      row := row.(finishedAt := runs[child].finishedAt, latency := runs[child].latency);
      jobs := jobs[j := jobs[j].(status := runs[child].status)];
      runs := runs[root := row];
    }
  }
}
