/** Interleaved branches do what each does alone, and the shared budgets never bind. */
module SupervisorTheorems {
  import opened Options
  import opened Investigation
  import opened InvestigationLedger
  import opened InvestigationLog
  import opened Supervisor

  // ------------------------------------------------------------------- sums

  lemma {:induction false} SumUpdate(branches: seq<Branch>, i: nat, b: Branch, f: Branch -> nat)
    requires i < |branches|
    ensures Sum(branches[i := b], f) == Sum(branches, f) - f(branches[i]) + f(b)
  {
    var last := |branches| - 1;
    var more := branches[i := b];
    if i == last {
      assert more[..last] == branches[..last];
    } else {
      assert more[..last] == branches[..last][i := b];
      SumUpdate(branches[..last], i, b, f);
    }
  }

  lemma {:induction false} SumBound(branches: seq<Branch>, f: Branch -> nat, bound: nat)
    requires forall i :: 0 <= i < |branches| ==> f(branches[i]) <= bound
    ensures Sum(branches, f) <= bound * |branches|
  {
    if branches != [] {
      SumBound(branches[..|branches| - 1], f, bound);
      assert bound * |branches| == bound * (|branches| - 1) + bound;
    }
  }

  lemma {:induction false} SumBoundBut(branches: seq<Branch>, f: Branch -> nat, bound: nat, i: nat)
    requires i < |branches|
    requires forall j :: 0 <= j < |branches| ==> f(branches[j]) <= bound
    ensures f(branches[i]) <= Sum(branches, f) <= bound * (|branches| - 1) + f(branches[i])
  {
    var last := |branches| - 1;
    if i == last {
      SumBound(branches[..last], f, bound);
    } else {
      SumBoundBut(branches[..last], f, bound, i);
      assert bound * last == bound * (last - 1) + bound;
    }
  }

  lemma {:induction false} SumMatches(xs: seq<Branch>, ys: seq<Branch>, f: Branch -> nat, g: Branch -> nat)
    requires |xs| == |ys| && forall i :: 0 <= i < |xs| ==> f(xs[i]) == g(ys[i])
    ensures Sum(xs, f) == Sum(ys, g)
  {
    if xs != [] { SumMatches(xs[..|xs| - 1], ys[..|ys| - 1], f, g); }
  }

  // --------------------------------------------------------- one team step

  /** A branch for one of `n` services, as the supervisor starts it. */
  ghost predicate SeatOk(s: Setup, b: Branch, n: nat) {
    && s.limit == MAX_AGENT_ATTEMPTS && !s.followup && s.modelLimit == MAX_AGENT_ATTEMPTS * n + 1
    && LedgerOk(s, b, 0)
  }

  ghost predicate TeamOk(t: Team) {
    && Sized(t) && |t.branches| <= 3
    && (forall i :: 0 <= i < |t.branches| ==> SeatOk(t.setups[i], t.branches[i], |t.branches|))
    && t.used == Sum(t.branches, Claimed)
    && t.models == Sum(t.branches, Decides)
  }

  /** Between zero and eight claimed attempts a ledger does not depend on their number. */
  lemma LedgerIgnoresOthers(s: Setup, b: Branch, used: nat, other: nat)
    requires LedgerOk(s, b, used) && used < MAX_TOOL_ATTEMPTS
    ensures LedgerOk(s, b, other)
  {
    hide DecisionsOk, AttemptsOk, ObservationsOk, PointOk;
  }

  lemma SeatClaims(s: Setup, b: Branch)
    requires s.limit <= MAX_AGENT_ATTEMPTS && LedgerOk(s, b, 0)
    ensures Claimed(b) <= s.limit && b.decides <= s.limit && (s.followup ==> b.decides <= 1)
    ensures b.point == Inner ==> Claimed(b) < s.limit
    ensures b.point == InFlight ==> b.attemptsUsed < s.limit && b.next.Some?
    ensures b.point == Deciding ==> Claimed(b) == b.attemptsUsed && b.decides < |b.decisions|
    ensures s.followup ==> |b.decisions| <= 1
  {
    hide AttemptsOk, ObservationsOk, Choosing;
  }

  lemma OffersAlike(s: Setup, b: Branch, used: nat)
    requires s.limit - b.attemptsUsed <= MAX_TOOL_ATTEMPTS - used && s.limit <= MAX_AGENT_ATTEMPTS
    ensures Offered(s, b, used) == Offered(s, b, 0)
  {
  }

  lemma DecideAlone(s: Setup, b: Branch, used: nat, models: nat, x: Input)
    requires s.limit - b.attemptsUsed <= MAX_TOOL_ATTEMPTS - used && s.limit <= MAX_AGENT_ATTEMPTS
    requires models < s.modelLimit
    ensures var (c, spent) := Decide(s, b, used, models, x);
      && c == Decide(s, b, 0, 0, x).0 && spent == models + c.decides - b.decides
      && c.attemptsUsed == b.attemptsUsed && c.point != InFlight && c.decides >= b.decides
  {
    hide FollowRule, Reserves, Known, UsedTools, Offered;
    OffersAlike(s, b, used);
    OffersAlike(s, b.(decides := b.decides + 1), used);
    RuleFrame(s, b.(errors := b.errors + ["INVESTIGATOR_LLM_FAILED"], events := b.events + [DecisionFailed]));
    RuleFrame(s, b);
  }

  lemma RuleFrame(s: Setup, b: Branch)
    ensures forall next, decides :: var c := FollowRule(s, b.(next := next, decides := decides));
      c.decides == decides && c.attemptsUsed == b.attemptsUsed && c.point == Outer
    ensures var c := FollowRule(s, b); c.decides == b.decides && c.attemptsUsed == b.attemptsUsed && c.point == Outer
  {
    hide NextTool;
  }

  lemma SelectAlone(s: Setup, b: Branch, x: Input)
    requires b.point == Outer
    ensures var c := Select(s, b, x); Claimed(c) == Claimed(b) && c.decides == b.decides
  {
    hide ToolInputs;
  }

  lemma ClaimAlone(s: Setup, b: Branch, used: nat, x: Input)
    requires b.point == Inner && used < MAX_TOOL_ATTEMPTS
    ensures var (c, spent) := TryClaim(s, b, used, x);
      && c == TryClaim(s, b, 0, x).0 && c.decides == b.decides && spent == used + Claimed(c) - Claimed(b)
  {
  }

  lemma CallAlone(s: Setup, b: Branch, x: Input)
    requires b.point == InFlight && b.next.Some?
    ensures var c := CallTool(s, b, x); Claimed(c) == Claimed(b) && c.decides == b.decides
  {
    hide RecordsMatchScope, Tries, ToolInputs, ObservationOf, CompletionOf;
  }

  /** A step of one branch in a team is the step it makes alone, and the budgets count it, as long as the claims
      of the others leave the branch its own limit. */
  lemma AdvanceAlone(s: Setup, b: Branch, used: nat, models: nat, x: Input)
    requires s.limit <= MAX_AGENT_ATTEMPTS && LedgerOk(s, b, 0)
    requires used + s.limit <= MAX_TOOL_ATTEMPTS + Claimed(b)
    requires b.point == Deciding ==> models < s.modelLimit
    ensures var c := Advance(s, Shared(b, used, models), x);
      && c.branch == Advance(s, Shared(b, 0, 0), x).branch && LedgerOk(s, c.branch, 0)
      && c.used == used + Claimed(c.branch) - Claimed(b)
      && c.models == models + c.branch.decides - b.decides
  {
    hide LedgerOk, Select, TryClaim, CallTool, Decide;
    SeatClaims(s, b);
    AdvanceKeepsLedger(s, Shared(b, 0, 0), x);
    var d := Advance(s, Shared(b, 0, 0), x);
    assert d.used <= 1 by { UsedByOne(s, b, x); }
    LedgerIgnoresOthers(s, d.branch, d.used, 0);
    match b.point
    case Outer => SelectAlone(s, b, x);
    case Inner => ClaimAlone(s, b, used, x);
    case InFlight => CallAlone(s, b, x);
    case Deciding => DecideAlone(s, b, used, models, x);
    case Done =>
    case Aborted =>
  }

  lemma UsedByOne(s: Setup, b: Branch, x: Input)
    ensures Advance(s, Shared(b, 0, 0), x).used <= 1
  {
    hide Select, CallTool, Decide;
  }

  // ------------------------------------------------------------- whole runs

  lemma PlayKeepsTeam(t: Team, m: Move)
    requires TeamOk(t)
    ensures TeamOk(Play(t, m))
    ensures m.index < |t.branches| ==>
              Play(t, m).branches == t.branches[m.index :=
                Advance(t.setups[m.index], Shared(t.branches[m.index], 0, 0), m.input).branch]
  {
    hide LedgerOk, Advance, Claimed, Decides;
    var i, n := m.index, |t.branches|;
    if i < n {
      var s, b := t.setups[i], t.branches[i];
      TeamBudgets(t, i);
      AdvanceAlone(s, b, t.used, t.models, m.input);
      var c := Advance(s, Shared(b, t.used, t.models), m.input).branch;
      SumUpdate(t.branches, i, c, Claimed);
      SumUpdate(t.branches, i, c, Decides);
      DecidesIs(b);
      DecidesIs(c);
    }
  }

  lemma DecidesIs(b: Branch)
    ensures Decides(b) == b.decides
  {
  }

  lemma TeamBudgets(t: Team, i: nat)
    requires TeamOk(t) && i < |t.branches|
    ensures t.used <= 3 * (|t.branches| - 1) + Claimed(t.branches[i]) && t.models <= 3 * |t.branches|
  {
    hide LedgerOk, Claimed;
    forall j | 0 <= j < |t.branches| ensures Claimed(t.branches[j]) <= 3 && Decides(t.branches[j]) <= 3 {
      SeatClaims(t.setups[j], t.branches[j]);
    }
    SumBoundBut(t.branches, Claimed, 3, i);
    SumBound(t.branches, Decides, 3);
  }

  lemma DispatchIsOk(c: Settings, services: seq<string>)
    requires |services| <= 3
    ensures TeamOk(Dispatch(c, services))
  {
    var t := Dispatch(c, services);
    forall i | 0 <= i < |services| ensures SeatOk(t.setups[i], t.branches[i], |services|) {
      StartIsOk(t.setups[i]);
    }
    SumBound(t.branches, Claimed, 0);
    SumBound(t.branches, Decides, 0);
  }

  lemma StartIsOk(s: Setup)
    ensures LedgerOk(s, Start(s), 0) && LogOk(s, Start(s))
  {
  }

  lemma {:induction false} PlayAllKeepsTeam(t: Team, moves: seq<Move>)
    requires TeamOk(t)
    ensures TeamOk(PlayAll(t, moves))
  {
    hide SeatOk, Play, Claimed, Decides;
    if moves != [] {
      PlayAllKeepsTeam(t, moves[..|moves| - 1]);
      PlayKeepsTeam(PlayAll(t, moves[..|moves| - 1]), moves[|moves| - 1]);
    }
  }

  lemma AloneOnce(s: Setup, inputs: seq<Input>, x: Input)
    ensures Alone(s, inputs + [x]) == Advance(s, Shared(Alone(s, inputs), 0, 0), x).branch
  {
    hide Advance, Start;
    assert (inputs + [x])[..|inputs|] == inputs;
  }

  lemma PlayElsewhere(t: Team, m: Move, i: nat)
    requires Sized(t) && i < |t.branches| && m.index != i
    ensures |Play(t, m).branches| == |t.branches| && Play(t, m).branches[i] == t.branches[i]
  {
    hide Advance;
  }

  lemma InputsOnce(moves: seq<Move>, i: nat)
    requires moves != []
    ensures var some, last := moves[..|moves| - 1], moves[|moves| - 1];
      InputsOf(moves, i) == if last.index == i then InputsOf(some, i) + [last.input] else InputsOf(some, i)
  {
  }

  lemma NothingPlayed(t: Team, i: nat)
    requires Sized(t) && i < |t.branches| && t.branches[i] == Start(t.setups[i])
    ensures PlayAll(t, []) == t && Alone(t.setups[i], InputsOf([], i)) == t.branches[i]
  {
    hide Advance, Start;
  }

  lemma {:induction false} PlayAllIsAlone(t: Team, moves: seq<Move>, i: nat)
    requires TeamOk(t) && i < |t.branches| && t.branches[i] == Start(t.setups[i])
    ensures PlayAll(t, moves).branches[i] == Alone(t.setups[i], InputsOf(moves, i))
    ensures |PlayAll(t, moves).branches| == |t.branches|
  {
    hide SeatOk, Play, Advance, Start, Alone, InputsOf, Claimed, Decides;
    if moves == [] {
      NothingPlayed(t, i);
    } else {
      var some, last := moves[..|moves| - 1], moves[|moves| - 1];
      var u := PlayAll(t, some);
      PlayAllIsAlone(t, some, i);
      PlayAllKeepsTeam(t, some);
      InputsOnce(moves, i);
      if last.index == i {
        PlayKeepsTeam(u, last);
        AloneOnce(t.setups[i], InputsOf(some, i), last.input);
      } else {
        PlayElsewhere(u, last, i);
      }
    }
  }

  /** For at most three services and every interleaving of their branches: each branch ends up exactly where it
      would if it ran alone with budgets of its own, so no branch starves another and no result depends on the
      order in which branches ran. */
  lemma BranchesDoNotInterfere(c: Settings, services: seq<string>, moves: seq<Move>, i: nat)
    requires |services| <= 3 && i < |services|
    ensures var t := PlayAll(Dispatch(c, services), moves);
      |t.branches| == |services| && t.branches[i] == Alone(SetupOf(c, services, i), InputsOf(moves, i))
  {
    DispatchIsOk(c, services);
    PlayAllIsAlone(Dispatch(c, services), moves, i);
  }

  /** At every moment of every interleaving the shared budget holds exactly the attempts made and in flight, and
      the model budget the decisions asked for; a service never passes three of either, and a branch that is
      about to claim is never refused. */
  lemma BudgetsAreConserved(c: Settings, services: seq<string>, moves: seq<Move>)
    requires |services| <= 3
    ensures var t := PlayAll(Dispatch(c, services), moves);
      && t.used == Sum(t.branches, Claimed) <= MAX_TOOL_ATTEMPTS
      && t.models == Sum(t.branches, Decides) <= 3 * |services|
      && (forall i :: 0 <= i < |t.branches| ==> Claimed(t.branches[i]) <= 3 && t.branches[i].decides <= 3)
      && (forall i :: 0 <= i < |t.branches| && t.branches[i].point == Inner ==> t.used < MAX_TOOL_ATTEMPTS)
      && (forall i :: 0 <= i < |t.branches| && t.branches[i].point == Deciding ==> t.models < ModelLimit(services))
  {
    hide LedgerOk, Claimed, Advance;
    DispatchIsOk(c, services);
    PlayAllKeepsTeam(Dispatch(c, services), moves);
    var t := PlayAll(Dispatch(c, services), moves);
    assert |t.branches| == |services|;
    forall i | 0 <= i < |t.branches|
      ensures Claimed(t.branches[i]) <= 3 && t.branches[i].decides <= 3
      ensures t.branches[i].point == Inner ==> t.used < MAX_TOOL_ATTEMPTS
      ensures t.models <= 3 * |services|
    {
      SeatClaims(t.setups[i], t.branches[i]);
      TeamBudgets(t, i);
    }
    SumBound(t.branches, Claimed, 3);
    SumBound(t.branches, Decides, 3);
  }

  lemma {:induction false} AloneKeepsLog(s: Setup, inputs: seq<Input>)
    requires s.limit <= MAX_AGENT_ATTEMPTS
    ensures LedgerOk(s, Alone(s, inputs), 0) && LogOk(s, Alone(s, inputs))
  {
    hide LedgerOk, LogOk, Advance, Start;
    StartIsOk(s);
    if inputs != [] {
      var b := Alone(s, inputs[..|inputs| - 1]);
      AloneKeepsLog(s, inputs[..|inputs| - 1]);
      AdvanceKeepsLog(s, Shared(b, 0, 0), inputs[|inputs| - 1]);
      AdvanceKeepsLedger(s, Shared(b, 0, 0), inputs[|inputs| - 1]);
      UsedByOne(s, b, inputs[|inputs| - 1]);
      LedgerIgnoresOthers(s, Alone(s, inputs), Advance(s, Shared(b, 0, 0), inputs[|inputs| - 1]).used, 0);
    }
  }

  // ------------------------------------------------------------- the follow-up

  /** The follow-up is the first service that still has an attempt, saw an empty window, and did not look at the
      wider one; there is none exactly when no service is like that or the budget is spent. */
  lemma FollowupIsFirstEligible(outcomes: seq<Outcome>, evidence: seq<Observation>, used: nat)
    ensures match FollowupCandidate(outcomes, evidence, used)
      case Some(k) => k < |outcomes| && used < MAX_TOOL_ATTEMPTS && Eligible(outcomes[k], evidence)
                      && forall j :: 0 <= j < k ==> !Eligible(outcomes[j], evidence)
      case None => used >= MAX_TOOL_ATTEMPTS || forall j :: 0 <= j < |outcomes| ==> !Eligible(outcomes[j], evidence)
  {
    if used < MAX_TOOL_ATTEMPTS { FirstFound(outcomes, evidence, 0); }
  }

  lemma {:induction false} FirstFound(outcomes: seq<Outcome>, evidence: seq<Observation>, from: nat)
    requires from <= |outcomes|
    ensures match FirstEligible(outcomes, evidence, from)
      case Some(k) => from <= k < |outcomes| && Eligible(outcomes[k], evidence)
                      && forall j :: from <= j < k ==> !Eligible(outcomes[j], evidence)
      case None => forall j :: from <= j < |outcomes| ==> !Eligible(outcomes[j], evidence)
    decreases |outcomes| - from
  {
    hide Eligible;
    if from < |outcomes| { FirstFound(outcomes, evidence, from + 1); }
  }

  lemma {:induction false} ContinueIsAlone(s: Setup, used: nat, models: nat, inputs: seq<Input>)
    requires s.limit <= MAX_AGENT_ATTEMPTS && s.followup
    requires used + s.limit <= MAX_TOOL_ATTEMPTS && models < s.modelLimit
    ensures var d := Continue(s, Shared(Start(s), used, models), inputs);
      && d.branch == Alone(s, inputs) && LedgerOk(s, d.branch, 0)
      && d.used == used + Claimed(d.branch) && d.models == models + d.branch.decides
  {
    hide LedgerOk, Advance, Start;
    if inputs == [] {
      StartIsOk(s);
      StartIsIdle(s);
    } else {
      var some := inputs[..|inputs| - 1];
      ContinueIsAlone(s, used, models, some);
      var c := Continue(s, Shared(Start(s), used, models), some);
      SeatClaims(s, c.branch);
      AdvanceAlone(s, c.branch, c.used, c.models, inputs[|inputs| - 1]);
    }
  }

  lemma StartIsIdle(s: Setup)
    ensures Claimed(Start(s)) == 0 && Start(s).decides == 0
  {
  }

  /** The follow-up of any service stays in the budgets: with it the service has at most three attempts and the
      run at most nine, it adds at most one decision, it is never refused, and it ends where it would alone. */
  lemma FollowUpStaysInBudget(
    c: Settings, services: seq<string>, moves: seq<Move>, k: nat, prior: set<EvidenceId>, inputs: seq<Input>)
    requires |services| <= 3 && k < |services|
    requires PlayAll(Dispatch(c, services), moves).branches[k].point == Done
    ensures var t := PlayAll(Dispatch(c, services), moves);
      && t.branches[k].attemptsUsed <= MAX_AGENT_ATTEMPTS
      && var d := RunFollowUp(t, k, prior, inputs);
         && d.branch == Alone(FollowupSetup(Outcome(t.setups[k], t.branches[k]), prior), inputs)
         && t.branches[k].attemptsUsed + Claimed(d.branch) <= MAX_AGENT_ATTEMPTS
         && d.used == t.used + Claimed(d.branch) <= MAX_TOOL_ATTEMPTS
         && d.models == t.models + d.branch.decides && d.branch.decides <= 1
  {
    hide LedgerOk, Advance, Start;
    DispatchIsOk(c, services);
    PlayAllKeepsTeam(Dispatch(c, services), moves);
    var t := PlayAll(Dispatch(c, services), moves);
    TeamBudgets(t, k);
    SeatClaims(t.setups[k], t.branches[k]);
    var s := FollowupSetup(Outcome(t.setups[k], t.branches[k]), prior);
    ContinueIsAlone(s, t.used, t.models, inputs);
    SeatClaims(s, Alone(s, inputs));
  }

  // ------------------------------------------------ the claim of the verifier

  lemma {:induction false} SumIsFull(branches: seq<Branch>)
    requires forall i :: 0 <= i < |branches| ==> branches[i].decides <= 3
    ensures Sum(branches, Decides) == 3 * |branches| <==> forall i :: 0 <= i < |branches| ==> branches[i].decides == 3
  {
    if branches != [] {
      var some, last := branches[..|branches| - 1], branches[|branches| - 1];
      SumIsFull(some);
      SumBound(some, Decides, 3);
      assert forall i :: 0 <= i < |some| ==> some[i] == branches[i];
      assert (forall i :: 0 <= i < |branches| ==> branches[i].decides == 3)
        <==> (forall i :: 0 <= i < |some| ==> some[i].decides == 3) && last.decides == 3;
    }
  }

  /** Without a follow-up one model decision is always left. After a follow-up none is left exactly when every
      service asked three times and the follow-up asked once more; that takes a first task of the followed service
      that was cut short by the stop flag or its deadline. */
  lemma DecisionsLeft(
    c: Settings, services: seq<string>, moves: seq<Move>, k: nat, prior: set<EvidenceId>, inputs: seq<Input>)
    requires |services| <= 3 && k < |services|
    requires PlayAll(Dispatch(c, services), moves).branches[k].point == Done
    ensures var t := PlayAll(Dispatch(c, services), moves);
      && t.models < ModelLimit(services)
      && t.branches[k].attemptsUsed <= MAX_AGENT_ATTEMPTS
      && var d := RunFollowUp(t, k, prior, inputs);
         && (d.models >= ModelLimit(services) <==>
               (forall i :: 0 <= i < |t.branches| ==> t.branches[i].decides == 3) && d.branch.decides == 1)
         && (!Halted(t.branches[k]) && t.branches[k].attemptsUsed < MAX_AGENT_ATTEMPTS ==>
               d.models < ModelLimit(services))
  {
    hide LedgerOk, Advance, Start, Eligible, Alone;
    FollowUpStaysInBudget(c, services, moves, k, prior, inputs);
    BudgetsAreConserved(c, services, moves);
    DispatchIsOk(c, services);
    PlayAllKeepsTeam(Dispatch(c, services), moves);
    var t := PlayAll(Dispatch(c, services), moves);
    SumIsFull(t.branches);
    SeatDecides(t.setups[k], t.branches[k]);
  }

  lemma SeatDecides(s: Setup, b: Branch)
    requires LedgerOk(s, b, 0)
    ensures !Halted(b) ==> b.decides <= b.attemptsUsed
  {
    hide DecisionsOk, AttemptsOk, ObservationsOk, PointOk;
  }
}
