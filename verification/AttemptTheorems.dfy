/** What the transactions of an attempt achieve: when a run starts, when its result is published, and what is shown then. */
module AttemptTheorems {
  import opened Options
  import opened Durable
  import opened QueueInvariant
  import opened Protocol
  import opened ProtocolInvariant
  import opened ProtocolTheorems
  import opened LeaseTheorems
  import opened ApprovalTheorems
  import Workflow

  /** The claim is held by a running attempt of its own that has no run yet. */
  predicate Unallocated(t: Tables, claim: Claim, until: int) {
    && Held(t, claim.jobId, claim.token, until) && t.clock < until && t.jobs[claim.jobId].runId == claim.runId
    && claim.token in t.attempts && t.attempts[claim.token].jobId == claim.jobId
    && t.attempts[claim.token].number == claim.number && t.attempts[claim.token].status == Running
    && t.attempts[claim.token].execution.None?
  }

  /** The creator of the job is still a member of its team, and the team still has every service of the run. */
  predicate Permitted(t: Tables, claim: Claim) {
    && claim.jobId < |t.jobs| && claim.runId < |t.runs|
    && var job := t.jobs[claim.jobId];
       (job.team, job.user) in t.members
       && forall name :: name in t.runs[claim.runId].services ==> (job.team, name) in t.grants
  }

  /** A claim that is held gets its private run exactly while the creator may still do the work; the run is a copy of
      the submitted one, running, and belongs to the attempt. Without the permission nothing changes and the claim can
      be given up, which fails job, attempt and public run together; a claim that is no longer held gets nothing. */
  lemma StartIsExact(t: Tables, claim: Claim, requestId: nat, until: int)
    requires Unallocated(t, claim, until) && Ok(t)
    ensures var (u, r) := StartAttempt(t, claim, requestId);
      && (r.Started? <==> Permitted(t, claim)) && (!r.Started? ==> r == ScopeChanged && u == t)
      && (r.Started? ==>
            && r.child == |t.runs| && |u.runs| == |t.runs| + 1 && u.runs[..|t.runs|] == t.runs
            && u.jobs == t.jobs && claim.token in u.attempts && u.attempts[claim.token].execution == Some(r.child)
            && var child, root := u.runs[r.child], t.runs[claim.runId];
               child.status == Running && child.team == root.team && child.user == root.user && child.scoped
               && child.services == root.services && child.query == root.query && child.requestId == requestId)
    ensures var (u, r) := FailUnstarted(t, claim, "SCOPE_CHANGED");
      && r == ClaimFailed && |u.jobs| == |t.jobs| && |u.runs| == |t.runs| && claim.token in u.attempts
      && u.jobs[claim.jobId].status == Failed && u.jobs[claim.jobId].token.None? && u.jobs[claim.jobId].lease.None?
      && u.attempts[claim.token].status == Failed && u.attempts[claim.token].error == Some("SCOPE_CHANGED")
      && claim.runId < |t.runs| && u.runs[claim.runId].status == Failed
      && u.runs[claim.runId].answer == Some("SCOPE_CHANGED")
  {
    hide AttemptsOk, NumbersOk, KeysOk;
    assert JobOk(t, claim.jobId);
  }

  /** The run an attempt would show: it ended, or it waits with its own undecided approval in time. */
  predicate Showable(t: Tables, child: nat) {
    child < |t.runs| && (t.runs[child].status in {Completed, Failed} || Grantable(t, child))
  }

  /** The public run shows what the private run ended with. */
  predicate Shows(t: Tables, root: nat, child: nat) {
    && root < |t.runs| && child < |t.runs|
    && t.runs[root].status == t.runs[child].status && t.runs[root].intent == t.runs[child].intent
    && t.runs[root].answer == t.runs[child].answer && t.runs[root].finishedAt == t.runs[child].finishedAt
    && t.runs[root].latency == t.runs[child].latency
  }

  /** An attempt publishes exactly while its claim is held and its run can be shown. Then the job and the attempt are
      closed with the status of that run, the job links to it, and the public run shows it. */
  lemma PublishIsExact(t: Tables, claim: Claim, child: nat)
    requires Ok(t) && claim.jobId < |t.jobs| && t.jobs[claim.jobId].runId == claim.runId
    requires OwnAttempt(t, claim) && t.attempts[claim.token].execution == Some(child)
    ensures var (u, r) := PublishAttempt(t, claim);
      && (r == Published <==>
            Showable(t, child) && exists until: int :: Held(t, claim.jobId, claim.token, until) && t.clock < until)
      && (r != Published ==> u == t) && (r == Invalid <==> !Showable(t, child))
      && (r == Published ==>
            && |u.jobs| == |t.jobs| && |u.runs| == |t.runs| && claim.token in u.attempts && child < |t.runs|
            && u.runs[child] == t.runs[child] && u.jobs[claim.jobId].status == t.runs[child].status
            && u.attempts[claim.token].status == t.runs[child].status && u.jobs[claim.jobId].published == Some(child)
            && u.jobs[claim.jobId].token.None? && u.jobs[claim.jobId].lease.None? && Shows(u, claim.runId, child)
            && u.runs[claim.runId].team == t.runs[claim.runId].team && u.runs[claim.runId].user == t.runs[claim.runId].user
            && u.runs[claim.runId].query == t.runs[claim.runId].query)
  {
    hide PublishAttempt, SameTask, Grantable, JobsOk, AttemptsOk, NumbersOk, KeysOk;
    RootIsNoChild(t, claim, child);
    PublishedAsHeld(t, claim, child);
    if Live(t, claim.jobId, claim.token) {
      assert Held(t, claim.jobId, claim.token, t.jobs[claim.jobId].lease.value);
      ReChecksNeverFire(t, claim);
    }
  }

  lemma RootIsNoChild(t: Tables, claim: Claim, child: nat)
    requires RunsOk(t) && claim.jobId < |t.jobs| && t.jobs[claim.jobId].runId == claim.runId
    requires claim.token in t.attempts && t.attempts[claim.token].execution == Some(child)
    ensures claim.runId != child && child < |t.runs| && claim.runId < |t.runs|
  {
  }

  lemma PublishedAsHeld(t: Tables, claim: Claim, child: nat)
    requires OwnAttempt(t, claim) && t.attempts[claim.token].execution == Some(child) && claim.runId != child
    requires claim.jobId < |t.jobs| && claim.runId < |t.runs| && child < |t.runs|
    ensures Publishable(t, child) <==> Showable(t, child)
    ensures var (u, r) := PublishAttempt(t, claim);
      && (r == Published <==> Showable(t, child) && LiveClaim(t, claim) && SameTask(t, claim, child))
      && (r == Invalid <==> !Showable(t, child) || (LiveClaim(t, claim) && !SameTask(t, claim, child)))
      && (r != Published ==> u == t)
      && (r == Published ==>
            && |u.jobs| == |t.jobs| && |u.runs| == |t.runs| && claim.token in u.attempts
            && u.runs[child] == t.runs[child] && u.jobs[claim.jobId].status == t.runs[child].status
            && u.attempts[claim.token].status == t.runs[child].status && u.jobs[claim.jobId].published == Some(child)
            && u.jobs[claim.jobId].token.None? && u.jobs[claim.jobId].lease.None? && Shows(u, claim.runId, child)
            && u.runs[claim.runId].team == t.runs[claim.runId].team && u.runs[claim.runId].user == t.runs[claim.runId].user
            && u.runs[claim.runId].query == t.runs[claim.runId].query)
  {
    hide SameTask;
  }

  /** In every reachable state a repair acts exactly on a waiting job whose published run has ended, and then the public
      run shows that run and the job has its status. */
  lemma RepairIsExact(s: Sys, registry: Workflow.Registry, j: nat)
    requires Inv(s, registry) && j < |s.db.jobs|
    ensures var t := s.db;
      var u := SyncApproval(t, j);
      && (!Due(t, j) ==> u == t)
      && (Due(t, j) ==>
            && |u.jobs| == |t.jobs| && u.jobs[j].published == t.jobs[j].published
            && Shows(u, u.jobs[j].runId, t.jobs[j].published.value)
            && u.jobs[j].status == t.runs[t.jobs[j].published.value].status)
  {
    hide Inv, JobsOk, RunsOk;
    InvParts(s, registry);
    if s.db.jobs[j].published.Some? { PublishedIsNoRoot(s.db, j, j); }
  }
}
