/** What a granted decision leads to: the resumed graph does it, step by step, and the run ends by it. */
module DecisionTheorems {
  import opened Options
  import opened Durable
  import opened QueueInvariant
  import opened Protocol
  import opened ProtocolInvariant
  import opened ProtocolTheorems
  import opened ApprovalTheorems
  import Workflow
  import WorkflowProgress

  /** What the world replied to the resumed graph of a run. */
  function RepliesTo(steps: seq<Step>, r: nat): seq<Workflow.Reply> {
    if steps == [] then []
    else
      var last := steps[|steps| - 1];
      RepliesTo(steps[..|steps| - 1], r) + if last.ResumeThink? && last.run == r then [last.reply] else []
  }

  /** A step that takes the resumed graph of a run away: its process ends, or commits what it has. */
  predicate Interrupts(step: Step, r: nat) {
    (step.ApiCrash? && step.run == r) || (step.ResumeCommit? && step.run == r)
  }

  predicate HighAt(plan: seq<Workflow.PlanStep>, i: nat, registry: Workflow.Registry) {
    i < |plan| && plan[i].tool in registry && registry[plan[i].tool].risk == Workflow.High
  }

  /** The HIGH calls of these positions are in the history. */
  ghost predicate HighCallsLogged(s: Sys, registry: Workflow.Registry, r: nat, p: Resume, from: nat, until: nat) {
    forall i :: from <= i < until && HighAt(p.saved.plan, i, registry) ==> Effect(p.jobId, r, i) in s.effects
  }

  // ------------------------------------------------------------- one step

  /** A resume is moved by its own graph and by nothing else. */
  lemma OtherStepsKeepResume(s: Sys, registry: Workflow.Registry, step: Step, r: nat)
    requires r in s.resumes && !step.ResumeThink? && !step.Decide? && !Interrupts(step, r)
    ensures var t := Apply(s, registry, step); r in t.resumes && t.resumes[r] == s.resumes[r]
  {
    hide Submit, ReadCandidate, ClaimCas, Renew, StartAttempt, FailUnstarted, PublishAttempt, FinishInvestigation,
      Close;
    hide FailPrivate, ClaimApproval, Reconcile, SyncApproval, Stopped, Logged, Workflow.Step;
  }

  lemma DecidingKeepsResume(s: Sys, registry: Workflow.Registry, j: nat, action: Workflow.Action, r: nat)
    requires Inv(s, registry) && r in s.resumes
    ensures var t := DecideStep(s, j, action); r in t.resumes && t.resumes[r] == s.resumes[r] && t.effects == s.effects
  {
    hide Inv;
    ResumedRunIsDecided(s, registry, r);
  }

  lemma ThinkingKeepsEffects(s: Sys, registry: Workflow.Registry, step: Step)
    requires Inv(s, registry) && step.Think?
    ensures Apply(s, registry, step).effects == s.effects
  {
    hide Inv, ThinkStep;
    ThinkStepKeepsInv(s, registry, step.k, step.reply);
  }

  lemma NothingForgotten(s: Sys, registry: Workflow.Registry, step: Step)
    requires Inv(s, registry)
    ensures s.effects <= Apply(s, registry, step).effects
  {
    hide Inv, Apply;
    if step.Think? {
      ThinkingKeepsEffects(s, registry, step);
    } else if step.ResumeThink? {
      ResumeThinkAppends(s, registry, step.run, step.reply);
    } else {
      OtherStepsKeepEffects(s, registry, step);
    }
  }

  lemma ResumeThinkAppends(s: Sys, registry: Workflow.Registry, run: nat, reply: Workflow.Reply)
    ensures s.effects <= Apply(s, registry, ResumeThink(run, reply)).effects
  {
    hide Workflow.Step, CallsHigh;
  }

  /** A node of the resumed graph: its call is logged before anything else can happen. */
  lemma ResumeThinkIs(s: Sys, registry: Workflow.Registry, r: nat, reply: Workflow.Reply)
    requires Inv(s, registry) && r in s.resumes
    ensures var p, t := s.resumes[r], ResumeThinkStep(s, registry, r, reply);
      && t == Apply(s, registry, ResumeThink(r, reply))
      && r in t.resumes && t.resumes[r] == p.(config := Workflow.Step(p.config, registry, reply))
      && |p.config.outcomes| <= |t.resumes[r].config.outcomes| <= |p.config.outcomes| + 1
      && HighCallsLogged(t, registry, r, p, |p.config.outcomes|, |t.resumes[r].config.outcomes|)
  {
    hide Apply, Inv, Workflow.Step, CallsHigh, HighCallsLogged, Workflow.Resuming;
    var p, t := s.resumes[r], ResumeThinkStep(s, registry, r, reply);
    ResumingIs(s, registry, r);
    CallIsLogged(p, registry, reply);
    ThinkIs(s, registry, r, reply);
    LoggedHigh(s, t, registry, r, p, |t.resumes[r].config.outcomes|);
  }

  lemma ThinkIs(s: Sys, registry: Workflow.Registry, r: nat, reply: Workflow.Reply)
    ensures Apply(s, registry, ResumeThink(r, reply)) == ResumeThinkStep(s, registry, r, reply)
  {
    hide ResumeThinkStep;
  }

  lemma ResumingIs(s: Sys, registry: Workflow.Registry, r: nat)
    requires Inv(s, registry) && r in s.resumes
    ensures Workflow.Resuming(s.resumes[r].config, s.resumes[r].saved, s.resumes[r].action, registry)
  {
    hide Ok, CandidatesOk, WorkersOk, CheckpointsOk, EffectOk, NoRepeats, Workflow.Resuming, DecidedOk;
    assert ResumeOk(s, registry, r, s.resumes[r]);
  }

  lemma LoggedHigh(s: Sys, t: Sys, registry: Workflow.Registry, r: nat, p: Resume, until: nat)
    requires t.effects == Logged(s.effects, p.jobId, r, p.config, registry)
    requires until <= |p.config.outcomes| + 1
    requires until > |p.config.outcomes| ==>
      && p.config.node == Workflow.ToolExecutor && p.config.state.currentStep == |p.config.outcomes|
      && p.config.state.plan == p.saved.plan
    ensures HighCallsLogged(t, registry, r, p, |p.config.outcomes|, until)
  {
    if CallsHigh(p.config, registry) {
      assert t.effects[|s.effects|] == Effect(p.jobId, r, p.config.state.currentStep);
    }
  }

  lemma CallIsLogged(p: Resume, registry: Workflow.Registry, reply: Workflow.Reply)
    requires Workflow.Resuming(p.config, p.saved, p.action, registry)
    ensures var next := Workflow.Step(p.config, registry, reply);
      && |p.config.outcomes| <= |next.outcomes| <= |p.config.outcomes| + 1
      && (|next.outcomes| > |p.config.outcomes| ==>
            && p.config.node == Workflow.ToolExecutor && p.config.state.currentStep == |p.config.outcomes|
            && p.config.state.plan == p.saved.plan)
  {
    hide Workflow.AtGate, Workflow.HighPlan, Workflow.AssessedRisk;
    Workflow.StepKeepsResuming(p.config, p.saved, p.action, registry, reply);
  }

  lemma StillLogged(s: Sys, t: Sys, registry: Workflow.Registry, r: nat, p: Resume, from: nat, middle: nat, until: nat)
    requires s.effects <= t.effects && HighCallsLogged(s, registry, r, p, from, middle)
    requires HighCallsLogged(t, registry, r, p, middle, until)
    ensures HighCallsLogged(t, registry, r, p, from, until)
  {
    forall i | from <= i < until && HighAt(p.saved.plan, i, registry)
      ensures Effect(p.jobId, r, i) in t.effects
    {
      if i < middle {
        var e := Effect(p.jobId, r, i);
        var k :| 0 <= k < |s.effects| && s.effects[k] == e;
        assert t.effects[k] == e;
      }
    }
  }

  // ------------------------------------------------------------ a whole resume

  /** The resume of a run after these steps. */
  ghost predicate WentOn(s: Sys, t: Sys, registry: Workflow.Registry, steps: seq<Step>, r: nat)
    requires r in s.resumes
  {
    var p := s.resumes[r];
    var d := Workflow.Run(p.config, registry, RepliesTo(steps, r));
    && r in t.resumes && t.resumes[r] == p.(config := d) && |p.config.outcomes| <= |d.outcomes|
    && HighCallsLogged(t, registry, r, p, |p.config.outcomes|, |d.outcomes|)
  }

  lemma NotYet(s: Sys, registry: Workflow.Registry, r: nat)
    requires r in s.resumes
    ensures WentOn(s, s, registry, [], r)
  {
  }

  lemma RepliesMore(some: seq<Step>, step: Step, r: nat)
    ensures RepliesTo(some + [step], r)
         == RepliesTo(some, r) + if step.ResumeThink? && step.run == r then [step.reply] else []
  {
    assert (some + [step])[..|some|] == some;
  }

  lemma RunMore(c: Workflow.Config, registry: Workflow.Registry, replies: seq<Workflow.Reply>, reply: Workflow.Reply)
    ensures Workflow.Run(c, registry, replies + [reply]) == Workflow.Step(Workflow.Run(c, registry, replies), registry, reply)
  {
    hide Workflow.Step;
    assert (replies + [reply])[..|replies|] == replies;
  }

  lemma OneThought(
    s: Sys, t: Sys, registry: Workflow.Registry, some: seq<Step>, r: nat, reply: Workflow.Reply)
    requires Inv(t, registry) && r in s.resumes && WentOn(s, t, registry, some, r)
    ensures WentOn(s, Apply(t, registry, ResumeThink(r, reply)), registry, some + [ResumeThink(r, reply)], r)
  {
    hide Inv, Apply, Workflow.Step, Workflow.Run, HighCallsLogged, ResumeThinkStep, RepliesTo;
    var p, u := s.resumes[r], Apply(t, registry, ResumeThink(r, reply));
    var d := t.resumes[r].config;
    RepliesMore(some, ResumeThink(r, reply), r);
    RunMore(p.config, registry, RepliesTo(some, r), reply);
    NothingForgotten(t, registry, ResumeThink(r, reply));
    ResumeThinkIs(t, registry, r, reply);
    SameLogged(u, registry, r, t.resumes[r], p, |d.outcomes|, |u.resumes[r].config.outcomes|);
    StillLogged(t, u, registry, r, p, |p.config.outcomes|, |d.outcomes|, |u.resumes[r].config.outcomes|);
  }

  lemma OneOn(s: Sys, t: Sys, registry: Workflow.Registry, some: seq<Step>, step: Step, r: nat)
    requires Inv(t, registry) && r in s.resumes && WentOn(s, t, registry, some, r) && !Interrupts(step, r)
    ensures WentOn(s, Apply(t, registry, step), registry, some + [step], r)
  {
    hide Inv, Apply, Workflow.Step, Workflow.Run, HighCallsLogged, RepliesTo;
    if step.ResumeThink? && step.run == r {
      OneThought(s, t, registry, some, r, step.reply);
    } else {
      var p, u, d := s.resumes[r], Apply(t, registry, step), t.resumes[r].config;
      NothingForgotten(t, registry, step);
      KeepsResume(t, registry, step, r);
      RepliesMore(some, step, r);
      assert RepliesTo(some, r) + [] == RepliesTo(some, r);
      NothingMore(u, registry, r, p, |d.outcomes|);
      StillLogged(t, u, registry, r, p, |p.config.outcomes|, |d.outcomes|, |d.outcomes|);
    }
  }

  lemma NothingMore(s: Sys, registry: Workflow.Registry, r: nat, p: Resume, at: nat)
    ensures HighCallsLogged(s, registry, r, p, at, at)
  {
  }

  lemma SameLogged(s: Sys, registry: Workflow.Registry, r: nat, q: Resume, p: Resume, from: nat, until: nat)
    requires HighCallsLogged(s, registry, r, q, from, until) && q.saved == p.saved && q.jobId == p.jobId
    ensures HighCallsLogged(s, registry, r, p, from, until)
  {
  }

  lemma KeepsResume(t: Sys, registry: Workflow.Registry, step: Step, r: nat)
    requires Inv(t, registry) && r in t.resumes && !Interrupts(step, r) && !(step.ResumeThink? && step.run == r)
    ensures r in Apply(t, registry, step).resumes && Apply(t, registry, step).resumes[r] == t.resumes[r]
  {
    hide Inv, DecideStep;
    if step.Decide? {
      DecidingKeepsResume(t, registry, step.j, step.action, r);
    } else if step.ResumeThink? {
      OtherThinkKeepsResume(t, registry, step, r);
    } else {
      OtherStepsKeepResume(t, registry, step, r);
    }
  }

  lemma OtherThinkKeepsResume(t: Sys, registry: Workflow.Registry, step: Step, r: nat)
    requires r in t.resumes && step.ResumeThink? && step.run != r
    ensures r in Apply(t, registry, step).resumes && Apply(t, registry, step).resumes[r] == t.resumes[r]
  {
    hide Workflow.Step, Logged;
  }

  /** Whatever else the installation does, a resume that is not interrupted runs its graph on the replies it gets, and
      every HIGH call it makes is in the history. */
  lemma {:induction false} ResumeRunsItsGraph(s: Sys, registry: Workflow.Registry, steps: seq<Step>, r: nat)
    requires Inv(s, registry) && r in s.resumes && forall i :: 0 <= i < |steps| ==> !Interrupts(steps[i], r)
    ensures WentOn(s, ApplyAll(s, registry, steps), registry, steps, r)
  {
    hide Inv, Apply, WentOn, Interrupts;
    if steps == [] {
      NotYet(s, registry, r);
    } else {
      var some, last := steps[..|steps| - 1], steps[|steps| - 1];
      ResumeRunsItsGraph(s, registry, some, r);
      ReachableIsInv(s, registry, some);
      assert steps == some + [last];
      OneOn(s, ApplyAll(s, registry, some), registry, some, last, r);
    }
  }

  // ---------------------------------------------------------- the whole way

  /** A decision on a waiting approval that no other process handles is taken, with the saved state. */
  lemma DecisionIsTaken(s: Sys, registry: Workflow.Registry, j: nat, r: nat, action: Workflow.Action)
    requires Inv(s, registry) && j < |s.db.jobs| && s.db.jobs[j].published == Some(r)
    requires Grantable(s.db, r) && r !in s.locks
    ensures r !in s.decided
    ensures var t := Apply(s, registry, Decide(j, action));
      && r in t.decided && t.decided[r] == Decision(j, action) && r in t.resumes
      && t.resumes[r] == Resume(j, s.db.checkpoints[r].state, action,
                                Workflow.Restored(s.db.checkpoints[r].state, action))
      && Workflow.AtGate(s.db.checkpoints[r].state, registry)
  {
    hide Ok, CandidatesOk, WorkersOk, ResumeOk, EffectOk, NoRepeats, ClaimApproval, Workflow.AtGate, Workflow.Restored;
    GrantIsExact(s.db, r, action);
    if r in s.decided { DecidedIsNotGrantable(s, registry, r); }
  }

  lemma DecidedIsNotGrantable(s: Sys, registry: Workflow.Registry, r: nat)
    requires Inv(s, registry) && r in s.decided
    ensures !Grantable(s.db, r)
  {
    hide Ok, CandidatesOk, WorkersOk, CheckpointsOk, ResumeOk, EffectOk, NoRepeats;
    assert DecidedOk(s.db, r, s.decided[r]);
  }

  /** The resumed graph has done what was decided. */
  ghost predicate CarriedOut(
    t: Sys, registry: Workflow.Registry, r: nat, saved: Workflow.FlowState, action: Workflow.Action,
    replies: seq<Workflow.Reply>)
  {
    && |replies| >= 2 && r in t.resumes
    && var d := t.resumes[r].config;
       && d.node == Workflow.End
       && if action == Workflow.Approve then
            WorkflowProgress.Proceeds(saved, d, replies[2..])
            && HighCallsLogged(t, registry, r, t.resumes[r], 0, |d.outcomes|)
          else WorkflowProgress.Refused(d, action)
  }

  /** A granted decision that is not interrupted is carried out, whatever else happens: an approval makes the calls of
      the saved plan in order, all of them within the limit when services are tracked and otherwise up to the first that
      fails, with every HIGH call in the history; another decision calls nothing and says so. */
  lemma DecisionIsCarriedOut(
    s: Sys, registry: Workflow.Registry, j: nat, r: nat, action: Workflow.Action, steps: seq<Step>)
    requires Inv(s, registry) && j < |s.db.jobs| && s.db.jobs[j].published == Some(r)
    requires Grantable(s.db, r) && r !in s.locks
    requires forall i :: 0 <= i < |steps| ==> !Interrupts(steps[i], r)
    requires WorkflowProgress.Calm(RepliesTo(steps, r))
    requires |RepliesTo(steps, r)| >= WorkflowProgress.Bound(s.db.checkpoints[r].state) + 4
    ensures CarriedOut(ApplyAll(Apply(s, registry, Decide(j, action)), registry, steps), registry, r,
                       s.db.checkpoints[r].state, action, RepliesTo(steps, r))
  {
    hide Inv, Apply, Interrupts, Workflow.Run, Workflow.AtGate, HighCallsLogged, WorkflowProgress.Proceeds;
    var saved, replies := s.db.checkpoints[r].state, RepliesTo(steps, r);
    var s1 := Apply(s, registry, Decide(j, action));
    StepKeepsInv(s, registry, Decide(j, action));
    DecisionIsTaken(s, registry, j, r, action);
    ResumeRunsItsGraph(s1, registry, steps, r);
    var t := ApplyAll(s1, registry, steps);
    WorkflowProgress.ResumedRunDoesWhatWasDecided(saved, action, registry, replies);
    RestoredFromNothing(saved, action);
    if action == Workflow.Approve {
      SameLogged(t, registry, r, s1.resumes[r], t.resumes[r], 0, |t.resumes[r].config.outcomes|);
    }
  }

  lemma RestoredFromNothing(saved: Workflow.FlowState, action: Workflow.Action)
    ensures Workflow.Restored(saved, action).outcomes == []
  {
  }

  /** And then the run ends: failed after a refusal or a call that broke it off, completed otherwise. */
  lemma CarriedOutEnds(
    t: Sys, registry: Workflow.Registry, r: nat, saved: Workflow.FlowState, action: Workflow.Action,
    replies: seq<Workflow.Reply>, latency: nat)
    requires Inv(t, registry) && CarriedOut(t, registry, r, saved, action, replies)
    ensures var u, outcomes := Apply(t, registry, ResumeCommit(r, latency)).db, t.resumes[r].config.outcomes;
      && r !in u.checkpoints && r < |u.runs|
      && u.runs[r].status ==
           (if action != Workflow.Approve || WorkflowProgress.BrokenOff(outcomes, saved.investigations != [])
            then Failed else Completed)
  {
    ResumedRunIsDecided(t, registry, r);
    EndIsCommitted(t, registry, r, latency);
    EndedByDecision(saved, action, t.resumes[r].config, replies[2..]);
  }

  lemma EndIsCommitted(t: Sys, registry: Workflow.Registry, r: nat, latency: nat)
    requires r in t.resumes && t.resumes[r].config.node == Workflow.End && r < |t.db.runs|
    ensures var u := Apply(t, registry, ResumeCommit(r, latency)).db;
      && r !in u.checkpoints && |u.runs| == |t.db.runs|
      && u.runs[r].status == (if t.resumes[r].config.state.error.Some? then Failed else Completed)
  {
  }

  lemma EndedByDecision(
    saved: Workflow.FlowState, action: Workflow.Action, d: Workflow.Config, replies: seq<Workflow.Reply>)
    requires if action == Workflow.Approve then WorkflowProgress.Proceeds(saved, d, replies)
             else WorkflowProgress.Refused(d, action)
    ensures d.state.error.Some? <==>
              action != Workflow.Approve || WorkflowProgress.BrokenOff(d.outcomes, saved.investigations != [])
  {
  }
}
