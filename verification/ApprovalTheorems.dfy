/** What becomes of an approval: it waits until it is decided or over, it is granted once, and a decision is carried out. */
module ApprovalTheorems {
  import opened Options
  import opened Durable
  import opened QueueInvariant
  import opened Protocol
  import opened ProtocolInvariant
  import opened ProtocolTheorems
  import Database
  import Workflow
  import WorkflowProgress

  // ---------------------------------------------------------------- recovery

  predicate HasEnded(t: Tables, r: nat) { r < |t.runs| && t.runs[r].status in {Completed, Failed} }

  /** An approval of an unended run that nobody took and whose time is not over. */
  predicate StillOpen(t: Tables, r: nat) {
    && r in t.checkpoints && r < |t.runs| && !HasEnded(t, r)
    && t.checkpoints[r].decision.None? && t.clock < t.checkpoints[r].expiresAt
  }

  /** An approval of an unended run that somebody took, or whose time is over. */
  predicate IsOver(t: Tables, r: nat) {
    && r in t.checkpoints && r < |t.runs| && !HasEnded(t, r)
    && (t.checkpoints[r].decision.Some? || t.checkpoints[r].expiresAt <= t.clock)
  }

  function CountOpen(t: Tables, entries: seq<nat>, locked: set<nat>): nat {
    if entries == [] then 0
    else
      var last := entries[|entries| - 1];
      CountOpen(t, entries[..|entries| - 1], locked) + if last !in locked && StillOpen(t, last) then 1 else 0
  }

  function CountOver(t: Tables, entries: seq<nat>, locked: set<nat>): nat {
    if entries == [] then 0
    else
      var last := entries[|entries| - 1];
      CountOver(t, entries[..|entries| - 1], locked) + if last !in locked && IsOver(t, last) then 1 else 0
  }

  function CountLocked(entries: seq<nat>, locked: set<nat>): nat {
    if entries == [] then 0
    else CountLocked(entries[..|entries| - 1], locked) + if entries[|entries| - 1] in locked then 1 else 0
  }

  lemma ReconcileIsExact(t: Tables, r: nat)
    ensures var (u, kind) := Reconcile(t, r);
      && (kind == StillWaiting <==> StillOpen(t, r)) && (kind == FailedOver <==> IsOver(t, r))
      && (StillOpen(t, r) ==>
            u.checkpoints == t.checkpoints && u.runs == t.runs[r := t.runs[r].(status := WaitingApproval, finishedAt := None)])
      && (IsOver(t, r) ==>
            r !in u.checkpoints && |u.runs| == |t.runs| && u.runs[r].status == Failed
            && u.runs[r].finishedAt == Some(t.clock)
            && u.runs[r].answer == Some(if t.checkpoints[r].expiresAt <= t.clock then "APPROVAL_CHECKPOINT_EXPIRED"
                                        else "APPROVAL_EXECUTION_OUTCOME_UNKNOWN"))
      && (HasEnded(t, r) ==> r !in u.checkpoints && u.runs == t.runs)
  {
  }

  lemma {:induction false} TalliesAre(t: Tables, entries: seq<nat>, locked: set<nat>)
    ensures Database.Tally(t, entries, locked, StillWaiting) == CountOpen(t, entries, locked)
    ensures Database.Tally(t, entries, locked, FailedOver) == CountOver(t, entries, locked)
    ensures Database.Recovered(t, entries, locked).active == CountLocked(entries, locked)
  {
    hide Reconcile, StillOpen, IsOver;
    if entries != [] {
      TalliesAre(t, entries[..|entries| - 1], locked);
      ReconcileIsExact(t, entries[|entries| - 1]);
    }
  }

  /** Recovery of approvals, told from their rows alone: an unlocked approval of an unended run stays, waiting, exactly
      while it is undecided and its time is not over; otherwise its run fails with the reason; the checkpoint of an ended
      run goes; and each is counted as what it was. */
  lemma RecoveryIsExact(t: Tables, entries: seq<nat>, locked: set<nat>, r: nat)
    requires forall i, j :: 0 <= i < j < |entries| ==> entries[i] != entries[j]
    requires r in entries && r !in locked && r in t.checkpoints && r < |t.runs|
    ensures var done := Database.Recovered(t, entries, locked);
      var u := done.tables;
      && |u.runs| == |t.runs|
      && (StillOpen(t, r) <==> r in u.checkpoints)
      && (StillOpen(t, r) ==>
            u.checkpoints[r] == t.checkpoints[r] && u.runs[r] == t.runs[r].(status := WaitingApproval, finishedAt := None)
            && StillOpen(u, r) && (PendingCheckpoint(t, r) ==> PendingCheckpoint(u, r)))
      && (IsOver(t, r) ==>
            u.runs[r].status == Failed
            && u.runs[r].answer == Some(if t.checkpoints[r].expiresAt <= t.clock then "APPROVAL_CHECKPOINT_EXPIRED"
                                        else "APPROVAL_EXECUTION_OUTCOME_UNKNOWN"))
      && (HasEnded(t, r) ==> u.runs[r] == t.runs[r])
      && done.waiting == CountOpen(t, entries, locked) && done.failed == CountOver(t, entries, locked)
      && done.active == CountLocked(entries, locked)
  {
    hide Reconcile, Database.Recovered, Database.Tally, CountOpen, CountOver, CountLocked;
    Database.RecoveryIsPerRun(t, entries, locked, r);
    ReconcileIsExact(t, r);
    TalliesAre(t, entries, locked);
  }

  /** An approval that was saved survives every recovery of the next 24 hours, as long as nobody decides it. */
  lemma SavedApprovalSurvives(
    t: Tables, run: nat, state: Workflow.FlowState, latency: nat, later: int, entries: seq<nat>, locked: set<nat>)
    requires run < |t.runs| && t.clock <= later < t.clock + 24 * 3600 * 1_000_000
    requires forall i, j :: 0 <= i < j < |entries| ==> entries[i] != entries[j]
    requires run in entries && run !in locked
    ensures var saved := MarkWaiting(t, run, state, latency).(clock := later);
      var u := Database.Recovered(saved, entries, locked).tables;
      && run in u.checkpoints && u.checkpoints[run].state == state && StillOpen(u, run)
      && u.checkpoints[run].expiresAt == t.clock + 24 * 3600 * 1_000_000
      && |u.runs| == |t.runs| && u.runs[run].status == WaitingApproval
  {
    hide Database.Recovered;
    RecoveryIsExact(MarkWaiting(t, run, state, latency).(clock := later), entries, locked, run);
  }

  // ------------------------------------------------------------------ a grant

  /** When a decision is taken: the run waits, with its own checkpoint, undecided and in time. */
  predicate Grantable(t: Tables, run: nat) {
    && run < |t.runs| && t.runs[run].status == WaitingApproval && run in t.checkpoints
    && t.checkpoints[run].requestId == t.runs[run].requestId
    && t.checkpoints[run].decision.None? && t.clock < t.checkpoints[run].expiresAt
  }

  /** A decision is granted exactly then, with the saved state; never when the approval is over; and only once, however
      much time passes. */
  lemma GrantIsExact(t: Tables, run: nat, action: Workflow.Action)
    ensures var (u, r) := ClaimApproval(t, run, action);
      && (r.Granted? <==> Grantable(t, run))
      && (r.Granted? ==>
            && r.saved == t.checkpoints[run].state && run in u.checkpoints && |u.runs| == |t.runs|
            && u.checkpoints[run] == t.checkpoints[run].(decision := Some(action)) && u.runs[run].status == Running
            && forall later: int, again: Workflow.Action ::
                 !ClaimApproval(u.(clock := later), run, again).1.Granted?)
      && (run < |t.runs| && t.runs[run].status == WaitingApproval && run in t.checkpoints
          && t.checkpoints[run].expiresAt <= t.clock ==>
            run !in u.checkpoints && |u.runs| == |t.runs| && u.runs[run].status == Failed && r == Unrecoverable)
  {
  }

  // ------------------------------------------------- an approval over time

  /** The published run of a job waits for a decision until a time. */
  ghost predicate WaitsUntil(t: Tables, r: nat, saved: Checkpoint, until: int) {
    && (exists j :: 0 <= j < |t.jobs| && t.jobs[j].published == Some(r))
    && r < |t.runs| && t.runs[r].status == WaitingApproval && r in t.checkpoints && t.checkpoints[r] == saved
    && saved.decision.None? && saved.expiresAt == until
  }

  /** A decision for the run. */
  predicate Decides(t: Tables, step: Step, r: nat) {
    step.Decide? && step.j < |t.jobs| && t.jobs[step.j].published == Some(r)
  }

  lemma QuietKeepsWaiting(
    a: Tables, b: Tables, closed: set<Token>, touched: set<nat>, r: nat, saved: Checkpoint, until: int)
    requires JobsOk(a) && RunsOk(a) && WaitsUntil(a, r, saved, until)
    requires Quiet(a, b, closed, touched) && r !in touched && Evolves(a, b)
    ensures WaitsUntil(b, r, saved, until)
  {
    var j :| 0 <= j < |a.jobs| && a.jobs[j].published == Some(r);
    PublishedIsPrivate(a, j);
    assert JobEvolves(a.jobs[j], b.jobs[j], a.clock, b.clock);
  }

  lemma RecoveryKeepsWaiting(t: Tables, r: nat, saved: Checkpoint, until: int)
    requires WaitsUntil(t, r, saved, until) && t.clock < until
    ensures WaitsUntil(Reconcile(t, r).0, r, saved, until)
  {
    var u := Reconcile(t, r).0;
    var j :| 0 <= j < |t.jobs| && t.jobs[j].published == Some(r);
    assert u.jobs[j].published == Some(r);
  }

  lemma FencedIsQuiet(s: Sys, registry: Workflow.Registry, step: Step, l: Token) returns (closed: set<Token>)
    requires Inv(s, registry) && Fenced(step, l)
    ensures Quiet(s.db, Apply(s, registry, step).db, closed, {})
  {
    hide Inv, Apply, StartAttempt, FailUnstarted, PublishAttempt, Quiet;
    FencedStepShape(s, registry, step, l);
    QuietRefl(s.db);
    closed := {};
    if l in s.workers && Apply(s, registry, step).db != s.db {
      var claim := s.workers[l].claim;
      closed := {claim.token};
      if step.Start? { StartIsQuiet(s.db, claim, step.requestId); }
      FailUnstartedIsQuiet(s.db, claim, "SCOPE_CHANGED");
      PublishIsQuiet(s.db, claim);
    }
  }

  lemma InsideKeepsOthers(s: Sys, registry: Workflow.Registry, step: Step, l: Token, r: nat) returns (touched: set<nat>)
    requires Inv(s, registry) && Inside(step, l)
    requires l in s.workers ==> ChildOf(s.workers[l].phase) != Some(r)
    ensures Quiet(s.db, Apply(s, registry, step).db, {}, touched) && r !in touched
  {
    hide Inv, Quiet, PrivateWrite, Evolves;
    QuietRefl(s.db);
    touched := {};
    if l in s.workers {
      PrivateStepEvolves(s, registry, step, l);
      if Apply(s, registry, step).db != s.db {
        touched := {ChildOf(s.workers[l].phase).value};
        PrivateIsQuiet(s.db, Apply(s, registry, step).db, ChildOf(s.workers[l].phase).value);
      }
    } else {
      NobodyInside(s, registry, step, l);
    }
  }

  lemma NobodyInside(s: Sys, registry: Workflow.Registry, step: Step, l: Token)
    requires Inside(step, l) && l !in s.workers
    ensures Apply(s, registry, step).db == s.db
  {
  }

  lemma DecideKeepsOthers(s: Sys, registry: Workflow.Registry, j: nat, action: Workflow.Action, r: nat)
    returns (touched: set<nat>)
    requires Inv(s, registry) && !Decides(s.db, Decide(j, action), r)
    ensures Quiet(s.db, DecideStep(s, j, action).db, {}, touched) && r !in touched
  {
    hide Inv, Quiet, PrivateWrite, ClaimApproval, Workflow.Restored;
    QuietRefl(s.db);
    InvParts(s, registry);
    touched := {};
    if j < |s.db.jobs| && s.db.jobs[j].published.Some? {
      var run := s.db.jobs[j].published.value;
      PublishedIsPrivate(s.db, j);
      ClaimApprovalIsPrivate(s.db, run, action);
      PrivateIsQuiet(s.db, ClaimApproval(s.db, run, action).0, run);
      if DecideStep(s, j, action).db != s.db { touched := {run}; }
    }
  }

  lemma ResumedRunIsDecided(s: Sys, registry: Workflow.Registry, run: nat)
    requires Inv(s, registry) && run in s.resumes
    ensures run in s.decided && s.decided[run].jobId < |s.db.jobs|
    ensures s.db.jobs[s.decided[run].jobId].published == Some(run)
    ensures run < |s.db.runs| && s.db.runs[run].status != WaitingApproval
  {
    hide Ok, CandidatesOk, WorkersOk, CheckpointsOk, EffectOk, NoRepeats, Workflow.Resuming;
    assert ResumeOk(s, registry, run, s.resumes[run]);
    assert DecidedOk(s.db, run, s.decided[run]);
  }

  lemma CommitKeepsOthers(s: Sys, registry: Workflow.Registry, run: nat, latency: nat, r: nat) returns (touched: set<nat>)
    requires Inv(s, registry) && (run in s.resumes ==> run != r)
    ensures Quiet(s.db, ResumeCommitStep(s, run, latency).db, {}, touched) && r !in touched
  {
    hide Inv, Quiet, PrivateWrite, Close;
    QuietRefl(s.db);
    InvParts(s, registry);
    touched := {};
    if run in s.resumes {
      ResumedRunIsDecided(s, registry, run);
      var c := s.resumes[run].config;
      PublishedIsPrivate(s.db, s.decided[run].jobId);
      PrivateTransactions(s.db, run, "", true, None, None, latency, c);
      PrivateIsQuiet(s.db, Close(s.db, run, c, latency), run);
      touched := {run};
      if !Stopped(c) { QuietMore(s.db, {}, touched); }
    }
  }

  lemma QuietMore(t: Tables, closed: set<Token>, touched: set<nat>)
    ensures Quiet(t, t, closed, touched)
  {
  }

  lemma RecoverKeepsOthers(s: Sys, registry: Workflow.Registry, run: nat)
    requires Inv(s, registry)
    ensures Quiet(s.db, Reconcile(s.db, run).0, {}, {run})
  {
    hide Inv, Quiet, PrivateWrite, RunsOk;
    InvParts(s, registry);
    if run in s.db.checkpoints {
      CheckpointIsPrivate(s.db, run);
      ReconcileIsPrivate(s.db, run);
      PrivateIsQuiet(s.db, Reconcile(s.db, run).0, run);
    } else {
      QuietMore(s.db, {}, {run});
    }
  }

  lemma TableStepIsQuiet(s: Sys, registry: Workflow.Registry, step: Step)
    requires Inv(s, registry)
    requires step.Tick? || step.Permissions? || step.SubmitJob? || step.Heartbeat? || step.Sync?
    ensures Quiet(s.db, Apply(s, registry, step).db, {}, {})
  {
    hide Inv, Quiet, Submit, Renew, SyncApproval;
    DbOk(s, registry);
    match step
    case SubmitJob(x) => SubmitIsQuiet(s.db, x);
    case Heartbeat(claim, lease) => RenewIsQuiet(s.db, claim, lease);
    case Sync(j) => SyncIsQuiet(s.db, j);
    case _ => AmbientIsQuiet(s.db, Apply(s, registry, step).db);
  }

  lemma CasIsQuiet(s: Sys, registry: Workflow.Registry, c: Candidate, worker: string, lease: int, token: Token)
    requires Inv(s, registry)
    ensures Quiet(s.db, CasStep(s, c, worker, lease, token).db, {}, {})
  {
    hide Quiet, ClaimCas, WorkersOk, CheckpointsOk, ApprovalsOk, AttemptsOk, NumbersOk, RunsOk, KeysOk;
    QuietRefl(s.db);
    if c in s.candidates {
      assert ReadOk(s.db, c);
      ReadFits(s.db, c);
      ClaimIsQuiet(s.db, c, worker, lease, token);
    }
  }

  /** What a step may touch, when it decides nothing about the run. */
  lemma StepKeepsOthers(s: Sys, registry: Workflow.Registry, step: Step, r: nat, saved: Checkpoint, until: int)
    returns (closed: set<Token>, touched: set<nat>)
    requires Inv(s, registry) && WaitsUntil(s.db, r, saved, until) && !Decides(s.db, step, r)
    requires step != Recover(r)
    ensures Quiet(s.db, Apply(s, registry, step).db, closed, touched) && r !in touched
  {
    hide Inv, Quiet, CasStep, DecideStep, ResumeCommitStep, Reconcile, StartStep, GiveUpStep, PublishStep, PublishAgainStep,
      RouteStep, InvestigateStep, ThinkStep, CommitStep, ReturnStep, RaiseStep, CheckStep, FailExecutionStep,
      FailResultStep, ResumeThinkStep, Submit, Renew, SyncApproval, ReadCandidate, Decides;
    closed, touched := {}, {};
    DecidedIsNobodysChild(s, registry, r);
    QuietMore(s.db, {}, {});
    match step
    case CasClaim(c, worker, lease, token) => CasIsQuiet(s, registry, c, worker, lease, token);
    case Start(l, _) => closed := FencedIsQuiet(s, registry, step, l);
    case GiveUp(l) => closed := FencedIsQuiet(s, registry, step, l);
    case Publish(l) => closed := FencedIsQuiet(s, registry, step, l);
    case PublishAgain(l) => closed := FencedIsQuiet(s, registry, step, l);
    case Route(l, _, _) => touched := InsideKeepsOthers(s, registry, step, l, r);
    case Investigate(l, _, _, _) => touched := InsideKeepsOthers(s, registry, step, l, r);
    case Think(l, _) => touched := InsideKeepsOthers(s, registry, step, l, r);
    case Commit(l, _, _) => touched := InsideKeepsOthers(s, registry, step, l, r);
    case Return(l) => touched := InsideKeepsOthers(s, registry, step, l, r);
    case Raise(l) => touched := InsideKeepsOthers(s, registry, step, l, r);
    case Check(l) => touched := InsideKeepsOthers(s, registry, step, l, r);
    case FailExecution(l) => touched := InsideKeepsOthers(s, registry, step, l, r);
    case FailResult(l) => touched := InsideKeepsOthers(s, registry, step, l, r);
    case Decide(j, action) => touched := DecideKeepsOthers(s, registry, j, action, r);
    case ResumeCommit(run, latency) =>
      if run in s.resumes { ResumedRunIsDecided(s, registry, run); }
      touched := CommitKeepsOthers(s, registry, run, latency, r);
    case Recover(run) =>
      RecoverKeepsOthers(s, registry, run);
      touched := {run};
      QuietMore(s.db, {}, {run});
    case ReadJob => OtherStepsKeepTables(s, registry, step);
    case Crash(_) => OtherStepsKeepTables(s, registry, step);
    case ResumeThink(_, _) => OtherStepsKeepTables(s, registry, step);
    case ApiCrash(_) => OtherStepsKeepTables(s, registry, step);
    case LoseLock(_) => OtherStepsKeepTables(s, registry, step);
    case _ => TableStepIsQuiet(s, registry, step);
  }

  lemma StepKeepsWaiting(s: Sys, registry: Workflow.Registry, step: Step, r: nat, saved: Checkpoint, until: int)
    requires Inv(s, registry) && WaitsUntil(s.db, r, saved, until) && s.db.clock < until && !Decides(s.db, step, r)
    ensures WaitsUntil(Apply(s, registry, step).db, r, saved, until)
  {
    hide Inv, Quiet, Evolves, WaitsUntil, Apply, Reconcile, Decides;
    if step == Recover(r) {
      RecoveryKeepsWaiting(s.db, r, saved, until);
      RecoverIs(s, registry, r);
    } else {
      var closed, touched := StepKeepsOthers(s, registry, step, r, saved, until);
      StepEvolves(s, registry, step);
      InvParts(s, registry);
      QuietKeepsWaiting(s.db, Apply(s, registry, step).db, closed, touched, r, saved, until);
    }
  }

  lemma RecoverIs(s: Sys, registry: Workflow.Registry, r: nat)
    ensures Apply(s, registry, Recover(r)).db in {s.db, Reconcile(s.db, r).0}
  {
    hide Reconcile;
  }

  /** No step before the last decides about the run. */
  ghost predicate Undecided(s: Sys, registry: Workflow.Registry, steps: seq<Step>, r: nat) {
    forall i :: 0 <= i < |steps| ==> !Decides(ApplyAll(s, registry, steps[..i]).db, steps[i], r)
  }

  /** Over whole runs: a published approval waits, with its checkpoint as it was saved, until it is decided or its time
      is over, whatever workers, recoveries, crashes and other approvals do. */
  lemma {:induction false} ApprovalWaits(
    s: Sys, registry: Workflow.Registry, steps: seq<Step>, r: nat, saved: Checkpoint, until: int)
    requires Inv(s, registry) && WaitsUntil(s.db, r, saved, until) && Undecided(s, registry, steps, r)
    requires ApplyAll(s, registry, steps).db.clock < until
    ensures WaitsUntil(ApplyAll(s, registry, steps).db, r, saved, until)
  {
    hide Inv, Apply, WaitsUntil, Evolves, Decides;
    if steps != [] {
      var some, last := steps[..|steps| - 1], steps[|steps| - 1];
      var front := ApplyAll(s, registry, some);
      ReachableIsInv(s, registry, some);
      StepEvolves(front, registry, last);
      ClockRises(front.db, Apply(front, registry, last).db);
      assert steps[..|some|] == some;
      forall i | 0 <= i < |some| ensures some[..i] == steps[..i] {}
      ApprovalWaits(s, registry, some, r, saved, until);
      StepKeepsWaiting(front, registry, last, r, saved, until);
    }
  }
}
