/** The durable job protocol: workers, approvers, recoveries and crashes interleaved over one database. */
module Protocol {
  import opened Options
  import opened Durable
  import opened QueueInvariant
  import Workflow

  // ----------------------------------------------------------------- state

  /** Where a worker is inside `run_one`. `flow` is the graph of a specialist run, absent for an investigation. */
  datatype Phase =
    | Holding
    | Unstarted
    | Executing(child: nat, flow: Option<Workflow.Config>)
    | Checking(child: nat)
    | Broken(child: nat)
    | Publishing(child: nat)
    | Invalidated(child: nat)
    | Republishing(child: nat)
    | Returned

  datatype Worker = Worker(claim: Claim, phase: Phase)

  /** An approved or refused run being resumed by an API process. */
  datatype Resume = Resume(jobId: nat, saved: Workflow.FlowState, action: Workflow.Action, config: Workflow.Config)

  datatype Decision = Decision(jobId: nat, action: Workflow.Action)

  /** A HIGH-risk plan step carried out for a job. */
  datatype Effect = Effect(jobId: nat, run: nat, step: nat)

  /** The database, the candidates workers have read, the live processes, the approval locks held, and two
      histories: the decisions committed and the HIGH-risk steps executed. */
  datatype Sys = Sys(
    db: Tables,
    candidates: set<Candidate>,
    workers: map<Token, Worker>,
    resumes: map<nat, Resume>,
    locks: set<nat>,
    decided: map<nat, Decision>,
    effects: seq<Effect>)

  datatype Step =
    | Tick(elapsed: nat)
    | Permissions(members: set<(nat, nat)>, grants: set<(nat, string)>)
    | SubmitJob(submission: Submission)
    | ReadJob
    | CasClaim(candidate: Candidate, worker: string, lease: int, token: Token)
    | Heartbeat(claim: Claim, lease: int)
    | Start(k: Token, requestId: nat)
    | GiveUp(k: Token)
    | Route(k: Token, specialist: bool, maxSteps: nat)
    | Investigate(k: Token, usable: bool, answer: string, latency: nat)
    | Think(k: Token, reply: Workflow.Reply)
    | Commit(k: Token, latency: nat, handoffFails: bool)
    | Return(k: Token)
    | Raise(k: Token)
    | Check(k: Token)
    | FailExecution(k: Token)
    | Publish(k: Token)
    | FailResult(k: Token)
    | PublishAgain(k: Token)
    | Crash(k: Token)
    | Decide(j: nat, action: Workflow.Action)
    | ResumeThink(run: nat, reply: Workflow.Reply)
    | ResumeCommit(run: nat, latency: nat)
    | ApiCrash(run: nat)
    | LoseLock(run: nat)
    | Recover(run: nat)
    | Sync(j: nat)

  // ----------------------------------------------------------------- steps

  function Move(s: Sys, k: Token, db: Tables, phase: Phase): Sys
    requires k in s.workers
  {
    s.(db := db, workers := s.workers[k := s.workers[k].(phase := phase)])
  }

  /** The exception leaves `run_one`: the process is gone. */
  function Lose(s: Sys, k: Token): Sys {
    s.(workers := s.workers - {k})
  }

  /** Whether the next node of a graph makes a HIGH-risk call. A call that raises may have acted, so it counts. */
  predicate CallsHigh(c: Workflow.Config, registry: Workflow.Registry) {
    c.node == Workflow.ToolExecutor
    && c.state.currentStep < |c.state.plan| && Workflow.IsHigh(c.state.plan[c.state.currentStep], registry)
  }

  function Logged(effects: seq<Effect>, jobId: nat, run: nat, c: Workflow.Config, registry: Workflow.Registry): seq<Effect> {
    if CallsHigh(c, registry) then effects + [Effect(jobId, run, c.state.currentStep)] else effects
  }

  predicate Stopped(c: Workflow.Config) {
    c.node in {Workflow.End, Workflow.Interrupted, Workflow.Raised}
  }

  /** What ends a graph run in the database: a checkpoint for an interruption, the final status otherwise. */
  function Close(t: Tables, run: nat, c: Workflow.Config, latency: nat): Tables {
    if c.node == Workflow.Interrupted then MarkWaiting(t, run, c.state, latency)
    else FinishRun(t, run, c.node == Workflow.Raised || c.state.error.Some?, Some(c.state.intent), None, latency)
  }

  function StartStep(s: Sys, k: Token, requestId: nat): Sys {
    if k !in s.workers || !s.workers[k].phase.Holding? then s
    else
      var (db, r) := StartAttempt(s.db, s.workers[k].claim, requestId);
      match r
      case LeaseLost => Move(s, k, db, Returned)
      case Corrupted => Lose(s, k)
      case ScopeChanged => Move(s, k, db, Unstarted)
      case Started(child) => Move(s, k, db, Executing(child, None))
  }

  function GiveUpStep(s: Sys, k: Token): Sys {
    if k !in s.workers || !s.workers[k].phase.Unstarted? then s
    else
      var (db, r) := FailUnstarted(s.db, s.workers[k].claim, "SCOPE_CHANGED");
      if r == AlreadyStarted then Lose(s, k) else Move(s, k, db, Returned)
  }

  /** The adapter chooses the executor; a retriable claim may never fall back to the specialist. */
  function RouteStep(s: Sys, k: Token, specialist: bool, maxSteps: nat): Sys {
    if k !in s.workers || !s.workers[k].phase.Executing? || s.workers[k].phase.flow.Some? || !specialist then s
    else if s.workers[k].claim.jobId >= |s.db.jobs| || maxSteps == 0 then s
    else if s.db.jobs[s.workers[k].claim.jobId].retrySafe then Move(s, k, s.db, Broken(s.workers[k].phase.child))
    else Move(s, k, s.db, Executing(s.workers[k].phase.child, Some(Workflow.Initial(maxSteps))))
  }

  function InvestigateStep(s: Sys, k: Token, usable: bool, answer: string, latency: nat): Sys {
    if k !in s.workers || !s.workers[k].phase.Executing? || s.workers[k].phase.flow.Some? then s
    else
      var child := s.workers[k].phase.child;
      Move(s, k, FinishInvestigation(s.db, child, usable, Some("incident_analysis"), Some(answer), latency), Checking(child))
  }

  /** One node of a worker's graph. Inside a worker nobody answers the gate, so an approval question interrupts. */
  function ThinkStep(s: Sys, registry: Workflow.Registry, k: Token, reply: Workflow.Reply): Sys {
    if k !in s.workers || !s.workers[k].phase.Executing? || s.workers[k].phase.flow.None? then s
    else
      var c, child, asked := s.workers[k].phase.flow.value, s.workers[k].phase.child, reply.(decision := None);
      Move(s, k, s.db, Executing(child, Some(Workflow.Step(c, registry, asked)))).(
        effects := Logged(s.effects, s.workers[k].claim.jobId, child, c, registry))
  }

  function CommitStep(s: Sys, k: Token, latency: nat, handoffFails: bool): Sys {
    if k !in s.workers || !s.workers[k].phase.Executing? || s.workers[k].phase.flow.None?
       || !Stopped(s.workers[k].phase.flow.value) then s
    else
      var c, child := s.workers[k].phase.flow.value, s.workers[k].phase.child;
      var failed := handoffFails || c.node == Workflow.Raised;
      Move(s, k, Close(s.db, child, c, latency), if failed then Broken(child) else Checking(child))
  }

  /** The executor returned, whether or not it finished the private run. */
  function ReturnStep(s: Sys, k: Token): Sys {
    if k in s.workers && s.workers[k].phase.Executing? then Move(s, k, s.db, Checking(s.workers[k].phase.child)) else s
  }

  function RaiseStep(s: Sys, k: Token): Sys {
    if k in s.workers && s.workers[k].phase.Executing? then Move(s, k, s.db, Broken(s.workers[k].phase.child)) else s
  }

  function CheckStep(s: Sys, k: Token): Sys {
    if k !in s.workers || !s.workers[k].phase.Checking? then s
    else
      var child := s.workers[k].phase.child;
      var unfinished := child >= |s.db.runs| || s.db.runs[child].status == Running;
      Move(s, k, s.db, if unfinished then Broken(child) else Publishing(child))
  }

  function FailExecutionStep(s: Sys, k: Token): Sys {
    if k !in s.workers || !s.workers[k].phase.Broken? then s
    else
      var child := s.workers[k].phase.child;
      Move(s, k, FailPrivate(s.db, child, "ATTEMPT_EXECUTION_FAILED"), Publishing(child))
  }

  function PublishStep(s: Sys, k: Token): Sys {
    if k !in s.workers || !s.workers[k].phase.Publishing? then s
    else
      var (db, r) := PublishAttempt(s.db, s.workers[k].claim);
      Move(s, k, db, if r == Invalid then Invalidated(s.workers[k].phase.child) else Returned)
  }

  function FailResultStep(s: Sys, k: Token): Sys {
    if k !in s.workers || !s.workers[k].phase.Invalidated? then s
    else
      var child := s.workers[k].phase.child;
      Move(s, k, FailPrivate(s.db, child, "INVALID_ATTEMPT_RESULT"), Republishing(child))
  }

  function PublishAgainStep(s: Sys, k: Token): Sys {
    if k !in s.workers || !s.workers[k].phase.Republishing? then s
    else
      var (db, r) := PublishAttempt(s.db, s.workers[k].claim);
      if r == Invalid then Lose(s, k) else Move(s, k, db, Returned)
  }

  function CasStep(s: Sys, c: Candidate, worker: string, lease: int, token: Token): Sys {
    if c !in s.candidates then s
    else
      var (db, r) := ClaimCas(s.db, c, worker, lease, token);
      if r.Claimed? then s.(db := db, workers := s.workers[token := Worker(r.claim, Holding)]) else s.(db := db)
  }

  function DecideStep(s: Sys, j: nat, action: Workflow.Action): Sys {
    if j >= |s.db.jobs| || s.db.jobs[j].published.None? || s.db.jobs[j].published.value in s.locks then s
    else
      var run := s.db.jobs[j].published.value;
      var (db, r) := ClaimApproval(s.db, run, action);
      if r.Granted? then
        s.(db := db, locks := s.locks + {run}, decided := s.decided[run := Decision(j, action)],
           resumes := s.resumes[run := Resume(j, r.saved, action, Workflow.Restored(r.saved, action))])
      else s.(db := db)
  }

  function ResumeThinkStep(s: Sys, registry: Workflow.Registry, run: nat, reply: Workflow.Reply): Sys {
    if run !in s.resumes then s
    else
      var p := s.resumes[run];
      s.(resumes := s.resumes[run := p.(config := Workflow.Step(p.config, registry, reply))],
         effects := Logged(s.effects, p.jobId, run, p.config, registry))
  }

  function ResumeCommitStep(s: Sys, run: nat, latency: nat): Sys {
    if run !in s.resumes || !Stopped(s.resumes[run].config) then s
    else s.(db := Close(s.db, run, s.resumes[run].config, latency), resumes := s.resumes - {run}, locks := s.locks - {run})
  }

  function Apply(s: Sys, registry: Workflow.Registry, step: Step): Sys {
    match step
    case Tick(elapsed) => s.(db := s.db.(clock := s.db.clock + elapsed))
    case Permissions(members, grants) => s.(db := s.db.(members := members, grants := grants))
    case SubmitJob(submission) => s.(db := Submit(s.db, submission).0)
    case ReadJob => var c := ReadCandidate(s.db); if c.Some? then s.(candidates := s.candidates + {c.value}) else s
    case CasClaim(c, worker, lease, token) => CasStep(s, c, worker, lease, token)
    case Heartbeat(claim, lease) => s.(db := Renew(s.db, claim, lease).0)
    case Start(k, requestId) => StartStep(s, k, requestId)
    case GiveUp(k) => GiveUpStep(s, k)
    case Route(k, specialist, maxSteps) => RouteStep(s, k, specialist, maxSteps)
    case Investigate(k, usable, answer, latency) => InvestigateStep(s, k, usable, answer, latency)
    case Think(k, reply) => ThinkStep(s, registry, k, reply)
    case Commit(k, latency, handoffFails) => CommitStep(s, k, latency, handoffFails)
    case Return(k) => ReturnStep(s, k)
    case Raise(k) => RaiseStep(s, k)
    case Check(k) => CheckStep(s, k)
    case FailExecution(k) => FailExecutionStep(s, k)
    case Publish(k) => PublishStep(s, k)
    case FailResult(k) => FailResultStep(s, k)
    case PublishAgain(k) => PublishAgainStep(s, k)
    case Crash(k) => Lose(s, k)
    case Decide(j, action) => DecideStep(s, j, action)
    case ResumeThink(run, reply) => ResumeThinkStep(s, registry, run, reply)
    case ResumeCommit(run, latency) => ResumeCommitStep(s, run, latency)
    case ApiCrash(run) => s.(resumes := s.resumes - {run}, locks := s.locks - {run})
    case LoseLock(run) => s.(locks := s.locks - {run})
    case Recover(run) => if run in s.locks then s else s.(db := Reconcile(s.db, run).0)
    case Sync(j) => s.(db := SyncApproval(s.db, j))
  }

  function ApplyAll(s: Sys, registry: Workflow.Registry, steps: seq<Step>): Sys {
    if steps == [] then s
    else Apply(ApplyAll(s, registry, steps[..|steps| - 1]), registry, steps[|steps| - 1])
  }

  /** An empty installation. */
  function Empty(clock: int): Sys {
    Sys(Tables(clock, [], map[], map[], [], map[], {}, {}), {}, map[], map[], {}, map[], [])
  }
}
