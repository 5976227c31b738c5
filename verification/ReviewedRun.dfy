/** From the tasks of a run to the semantic review: what their claims cite, and when the review is refused. */
module ReviewedRun {
  import opened Options
  import opened Investigation
  import opened InvestigationLedger
  import opened Supervisor
  import opened SupervisorTheorems
  import opened Merge
  import SemanticReview

  const MAX_REVIEWS := 15

  // ----------------------------------------------------------- what is reviewed

  function FindingsOf(o: Outcome): SemanticReview.TaskFindings {
    SemanticReview.TaskFindings(o.setup.service, o.setup.index, Task(o.setup), o.branch.findings)
  }

  function AllFindingsOf(outcomes: seq<Outcome>): (r: seq<SemanticReview.TaskFindings>)
    ensures |r| == |outcomes|
    ensures forall i :: 0 <= i < |r| ==> r[i] == FindingsOf(outcomes[i])
  {
    seq(|outcomes|, i requires 0 <= i < |outcomes| => FindingsOf(outcomes[i]))
  }

  function IdsOf(observations: seq<Observation>): set<EvidenceId> {
    set i | 0 <= i < |observations| :: observations[i].id
  }

  /** The evidence a follow-up is told: what the run has of its service. */
  function PriorOf(t: Team, k: nat): set<EvidenceId>
    requires Sized(t) && k < |t.branches|
  {
    IdsOf(OfService(MergeAll(Outcomes(t)).evidence, t.setups[k].service))
  }

  /** The follow-up, if there is one, is of a service of this run and is told its evidence. */
  predicate Follows(t: Team, extra: Extra)
    requires Sized(t)
  {
    extra.Extra? ==>
      && extra.k < |t.branches| && t.branches[extra.k].attemptsUsed <= MAX_AGENT_ATTEMPTS
      && extra.prior == PriorOf(t, extra.k)
  }

  /** Model decisions asked for before the review. */
  function Asked(t: Team, extra: Extra): nat
    requires Sized(t) && Follows(t, extra)
  {
    match extra
    case NoExtra => t.models
    case Extra(k, prior, inputs) => RunFollowUp(t, k, prior, inputs).models
  }

  /** The review of a run: its claims, its budget and its merged evidence. */
  function Review(
    t: Team, extra: Extra, limit: nat, verdicts: seq<SemanticReview.Verdict>, cited: seq<EvidenceId> -> string,
    bounds: SemanticReview.Bounds): SemanticReview.Report
    requires Sized(t) && Follows(t, extra)
  {
    var outcomes := RunOutcomes(t, extra);
    SemanticReview.Verify(AllFindingsOf(outcomes), Asked(t, extra) < limit, verdicts,
                          IdsOf(MergeAll(outcomes).evidence), cited, bounds)
  }

  // -------------------------------------------------------- findings of one task

  /** The findings of a task carry the identities `decide` gave them and cite only what the task knows. */
  ghost predicate FindingsOk(s: Setup, b: Branch) {
    && SemanticReview.Numbered(FindingsOf(Outcome(s, b)))
    && AllAdmissible(b.findings, Known(s, b))
  }

  lemma MoreKnown(claims: seq<Claim>, known: set<EvidenceId>, more: set<EvidenceId>)
    requires AllAdmissible(claims, known) && known <= more
    ensures AllAdmissible(claims, more)
  {
  }

  lemma CallKeepsFindings(s: Setup, b: Branch, x: Input)
    requires b.next.Some?
    ensures CallTool(s, b, x).findings == b.findings && Known(s, b) <= Known(s, CallTool(s, b, x))
  {
    CallFrame(s, b, x);
    CallToolShows(s, b, x);
    hide CallTool, RecordsMatchScope, Tries, ObservationOf;
    var c := CallTool(s, b, x);
    assert forall i :: 0 <= i < |b.observations| ==> c.observations[i] == b.observations[i];
  }

  lemma CallFrame(s: Setup, b: Branch, x: Input)
    requires b.next.Some?
    ensures CallTool(s, b, x).findings == b.findings
  {
    hide RecordsMatchScope, Tries, ToolInputs, ObservationOf, CompletionOf;
  }

  lemma NumberedAgain(s: Setup, b: Branch, claims: seq<Claim>, known: set<EvidenceId>)
    requires AllAdmissible(claims, known) && b.findings == NumberClaims(s.index, Task(s), claims)
    ensures SemanticReview.Numbered(FindingsOf(Outcome(s, b))) && AllAdmissible(b.findings, known)
  {
    forall i | 0 <= i < |b.findings| ensures Admissible(b.findings[i], known) {
      assert Admissible(claims[i], known);
    }
  }

  lemma DecideKeepsFindings(s: Setup, b: Branch, used: nat, models: nat, x: Input)
    requires FindingsOk(s, b)
    ensures FindingsOk(s, Decide(s, b, used, models, x).0)
  {
    DecideFrame(s, b, used, models, x);
    DecideFindings(s, b, used, models, x);
    hide Decide, AllAdmissible, SemanticReview.Numbered, NumberClaims;
    var c := Decide(s, b, used, models, x).0;
    if c.findings != b.findings {
      NumberedAgain(s, c, x.model.claims, Known(s, b));
    }
  }

  lemma RuleKeepsFindings(s: Setup, b: Branch, used: nat)
    ensures FollowRule(s, b).findings == b.findings && AfterModelFailure(s, b, used).findings == b.findings
  {
    hide Offered, Reserves, NextTool;
  }

  lemma DecideFindings(s: Setup, b: Branch, used: nat, models: nat, x: Input)
    ensures var c := Decide(s, b, used, models, x).0;
      c.findings == b.findings
      || (x.model.Proposal? && AllAdmissible(x.model.claims, Known(s, b))
          && c.findings == NumberClaims(s.index, Task(s), x.model.claims))
  {
    hide Offered, UsedTools, AllAdmissible, NumberClaims, FollowRule, AfterModelFailure;
    var asked := b.(decides := b.decides + 1);
    RuleKeepsFindings(s, b, used);
    RuleKeepsFindings(s, asked, used);
    SameKnown(s, b, asked);
  }

  lemma SameKnown(s: Setup, b: Branch, c: Branch)
    requires b.observations == c.observations
    ensures Known(s, b) == Known(s, c)
  {
  }

  lemma AdvanceKeepsFindings(s: Setup, c: Shared, x: Input)
    requires FindingsOk(s, c.branch)
    ensures FindingsOk(s, Advance(s, c, x).branch)
  {
    hide Select, TryClaim, CallTool, Decide, AllAdmissible, SemanticReview.Numbered;
    var b := c.branch;
    match b.point
    case Outer => OthersFrame(s, b, c.used, x);
    case Inner => OthersFrame(s, b, c.used, x);
    case InFlight =>
      if b.next.Some? {
        CallKeepsFindings(s, b, x);
        MoreKnown(b.findings, Known(s, b), Known(s, CallTool(s, b, x)));
      }
    case Deciding => DecideKeepsFindings(s, b, c.used, c.models, x);
    case Done =>
    case Aborted =>
  }

  lemma OthersFrame(s: Setup, b: Branch, used: nat, x: Input)
    ensures Select(s, b, x).findings == b.findings && Select(s, b, x).observations == b.observations
    ensures TryClaim(s, b, used, x).0.findings == b.findings && TryClaim(s, b, used, x).0.observations == b.observations
  {
    hide ToolInputs;
  }

  /** Whatever tools and model reply: the findings of a task are numbered, at most four, and each cites one to six
      known observations and nothing else. */
  lemma {:induction false} AloneKeepsFindings(s: Setup, inputs: seq<Input>)
    ensures FindingsOk(s, Alone(s, inputs))
  {
    hide Advance, FindingsOk;
    if inputs == [] {
      NoFindings(s);
    } else {
      AloneKeepsFindings(s, inputs[..|inputs| - 1]);
      AdvanceKeepsFindings(s, Shared(Alone(s, inputs[..|inputs| - 1]), 0, 0), inputs[|inputs| - 1]);
    }
  }

  lemma NoFindings(s: Setup)
    ensures FindingsOk(s, Start(s))
  {
  }

  // ------------------------------------------------------------ a whole run

  function Played(c: Settings, services: seq<string>, moves: seq<Move>): (t: Team)
    ensures Sized(t) && |t.branches| == |services|
  {
    PlayAll(Dispatch(c, services), moves)
  }

  /** A run of these services up to the review, with or without a follow-up of a finished task. */
  ghost predicate Happens(c: Settings, services: seq<string>, moves: seq<Move>, extra: Extra) {
    && |services| <= 3
    && var t := Played(c, services, moves);
       && Follows(t, extra)
       && (extra.Extra? ==> extra.k < |services| && t.branches[extra.k].point == Done)
  }

  /** A task of the run: that of a service, or the follow-up. */
  ghost predicate TaskOf(services: seq<string>, t: Team, extra: Extra, i: nat, o: Outcome)
    requires Sized(t) && Follows(t, extra) && |t.branches| == |services|
  {
    && FindingsOk(o.setup, o.branch)
    && if i < |services|
       then o.branch == t.branches[i] && o.setup.prior == {} && o.setup.service == services[i]
       else i == |services| && extra.Extra? && o.setup.prior == extra.prior && o.setup.service == services[extra.k]
            && o.branch == RunFollowUp(t, extra.k, extra.prior, extra.inputs).branch
  }

  lemma RunTask(c: Settings, services: seq<string>, moves: seq<Move>, extra: Extra, i: nat)
    requires Happens(c, services, moves, extra)
    ensures var t := Played(c, services, moves);
      && |t.branches| == |services| <= |RunOutcomes(t, extra)|
      && (i < |RunOutcomes(t, extra)| ==> TaskOf(services, t, extra, i, RunOutcomes(t, extra)[i]))
  {
    hide FindingsOk, Advance, Start, Alone, InputsOf, PlayAll, PriorOf, Continue;
    DispatchSize(c, services);
    var t := Played(c, services, moves);
    if i < |services| {
      DispatchTasks(c, services, i);
      BranchesDoNotInterfere(c, services, moves, i);
      AloneKeepsFindings(SetupOf(c, services, i), InputsOf(moves, i));
    } else if extra.Extra? {
      DispatchTasks(c, services, extra.k);
      FollowUpStaysInBudget(c, services, moves, extra.k, extra.prior, extra.inputs);
      AloneKeepsFindings(FollowupSetup(Outcome(t.setups[extra.k], t.branches[extra.k]), extra.prior), extra.inputs);
    }
  }

  // ------------------------------------------------------- claims and evidence

  lemma MoreIds(xs: seq<Observation>, ys: seq<Observation>)
    ensures IdsOf(xs + ys) == IdsOf(xs) + IdsOf(ys)
  {
    forall i | 0 <= i < |xs| ensures (xs + ys)[i] == xs[i] {}
    forall i | 0 <= i < |ys| ensures (xs + ys)[|xs| + i] == ys[i] {}
    forall id | id in IdsOf(xs + ys) ensures id in IdsOf(xs) + IdsOf(ys) {
      var i :| 0 <= i < |xs + ys| && (xs + ys)[i].id == id;
      assert if i < |xs| then xs[i].id == id else ys[i - |xs|].id == id;
    }
  }

  lemma SameIds(xs: seq<Observation>, ys: seq<Observation>)
    requires |xs| == |ys| && forall i :: 0 <= i < |xs| ==> xs[i].id == ys[i].id
    ensures IdsOf(xs) == IdsOf(ys)
  {
  }

  /** Merging adds the identities of each task. */
  lemma MergedIds(outcomes: seq<Outcome>, o: Outcome)
    ensures IdsOf(MergeAll(outcomes + [o]).evidence) == IdsOf(MergeAll(outcomes).evidence) + IdsOf(o.branch.observations)
  {
    hide IdsOf;
    assert (outcomes + [o])[..|outcomes|] == outcomes;
    var before := MergeAll(outcomes).evidence;
    MoreIds(before, Merge.Numbered(o.branch.observations, |before|));
    SameIds(Merge.Numbered(o.branch.observations, |before|), o.branch.observations);
  }

  lemma {:induction false} OwnIds(outcomes: seq<Outcome>, i: nat)
    requires i < |outcomes|
    ensures IdsOf(outcomes[i].branch.observations) <= IdsOf(MergeAll(outcomes).evidence)
  {
    hide IdsOf, MergeAll;
    var some, last := outcomes[..|outcomes| - 1], outcomes[|outcomes| - 1];
    assert outcomes == some + [last];
    MergedIds(some, last);
    if i < |some| { OwnIds(some, i); }
  }

  lemma ServiceIds(evidence: seq<Observation>, service: string)
    ensures IdsOf(OfService(evidence, service)) <= IdsOf(evidence)
  {
    hide OfService;
    OfServiceMembers(evidence, service);
    var own := OfService(evidence, service);
    forall id | id in IdsOf(own) ensures id in IdsOf(evidence) {
      var i :| 0 <= i < |own| && own[i].id == id;
      assert own[i] in own;
    }
  }

  /** What a task of a run knows is in the merged evidence. */
  lemma KnownIsMerged(c: Settings, services: seq<string>, moves: seq<Move>, extra: Extra, i: nat)
    requires Happens(c, services, moves, extra)
    ensures var t := Played(c, services, moves);
      && var outcomes := RunOutcomes(t, extra);
         i < |outcomes| ==> AllAdmissible(outcomes[i].branch.findings, IdsOf(MergeAll(outcomes).evidence))
  {
    hide MergeAll, Played, AllAdmissible, IdsOf, Continue, Start, SemanticReview.Numbered;
    RunTask(c, services, moves, extra, i);
    var t := Played(c, services, moves);
    var outcomes := RunOutcomes(t, extra);
    if i < |outcomes| {
      var o, ledger := outcomes[i], IdsOf(MergeAll(outcomes).evidence);
      OwnIds(outcomes, i);
      if i == |services| {
        var evidence := MergeAll(Outcomes(t)).evidence;
        ServiceIds(evidence, t.setups[extra.k].service);
        MergedIds(Outcomes(t), o);
      }
      KnownIs(o.setup, o.branch);
      MoreKnown(o.branch.findings, Known(o.setup, o.branch), ledger);
    }
  }

  lemma KnownIs(s: Setup, b: Branch)
    ensures Known(s, b) == s.prior + IdsOf(b.observations)
  {
  }

  // ------------------------------------------------------------- all proposals

  lemma RunTasksAreDistinct(c: Settings, services: seq<string>, moves: seq<Move>, extra: Extra)
    requires Happens(c, services, moves, extra)
    ensures SemanticReview.DistinctTasks(AllFindingsOf(RunOutcomes(Played(c, services, moves), extra)))
  {
    hide PlayAll, Dispatch, LedgerOk, Task, SemanticReview.Numbered, AllAdmissible, RunOutcomes, Known;
    RunIsSeparate(c, services, moves, extra);
    var outcomes := RunOutcomes(Played(c, services, moves), extra);
    forall i | 0 <= i < |outcomes| ensures SemanticReview.Numbered(FindingsOf(outcomes[i])) {
      RunTask(c, services, moves, extra, i);
    }
  }

  lemma {:induction false} ClaimIsOfTask(tasks: seq<SemanticReview.TaskFindings>, claim: Claim)
    requires claim in SemanticReview.AllFindings(tasks)
    ensures exists i :: 0 <= i < |tasks| && claim in tasks[i].findings
  {
    if claim !in tasks[0].findings {
      ClaimIsOfTask(tasks[1..], claim);
      var i :| 0 <= i < |tasks[1..]| && claim in tasks[1..][i].findings;
      assert claim in tasks[i + 1].findings;
    }
  }

  lemma {:induction false} FewClaims(tasks: seq<SemanticReview.TaskFindings>)
    requires forall x :: x in tasks ==> |x.findings| <= MAX_CLAIMS
    ensures |SemanticReview.AllFindings(tasks)| <= MAX_CLAIMS * |tasks|
  {
    if tasks != [] {
      assert forall x :: x in tasks[1..] ==> x in tasks;
      FewClaims(tasks[1..]);
    }
  }

  /** Distinct names among `names` are no more than these. */
  lemma {:induction false} FewServices(tasks: seq<SemanticReview.TaskFindings>, names: set<string>)
    requires SemanticReview.OneEach(tasks) && forall x :: x in tasks ==> x.service in names
    ensures |tasks| <= |names|
  {
    if tasks != [] {
      var some, last := tasks[..|tasks| - 1], tasks[|tasks| - 1];
      forall x | x in some ensures x.service in names - {last.service} {
        var i :| 0 <= i < |some| && some[i] == x;
        assert tasks[i] == x;
      }
      FewServices(some, names - {last.service});
      assert last in tasks;
    }
  }

  lemma {:induction false} FewNames(services: seq<string>)
    ensures |set i | 0 <= i < |services| :: services[i]| <= |services|
  {
    var names := set i | 0 <= i < |services| :: services[i];
    if services == [] {
      assert names == {};
    } else {
      var some, last := services[..|services| - 1], services[|services| - 1];
      FewNames(some);
      var fewer := set i | 0 <= i < |some| :: some[i];
      assert names == fewer + {last} by {
        assert services[|some|] == last;
        forall n | n in fewer ensures n in names {
          var i :| 0 <= i < |some| && some[i] == n;
          assert services[i] == n;
        }
      }
    }
  }

  /** What can be proposed in a run: at most twelve claims, each citing one to six merged observations. */
  lemma ProposedAreKnown(c: Settings, services: seq<string>, moves: seq<Move>, extra: Extra)
    requires Happens(c, services, moves, extra)
    ensures var outcomes := RunOutcomes(Played(c, services, moves), extra);
      && var proposed := SemanticReview.Proposed(AllFindingsOf(outcomes));
         && |proposed| <= MAX_CLAIMS * |services|
         && forall i :: 0 <= i < |proposed| ==> Admissible(proposed[i], IdsOf(MergeAll(outcomes).evidence))
  {
    hide Played, MergeAll, Admissible, IdsOf, SemanticReview.Latest, SemanticReview.AllFindings, RunOutcomes,
      RunFollowUp, FindingsOk;
    var t := Played(c, services, moves);
    var outcomes := RunOutcomes(t, extra);
    var tasks, ledger := AllFindingsOf(outcomes), IdsOf(MergeAll(outcomes).evidence);
    var latest := SemanticReview.Latest(tasks);
    RunTasksAreDistinct(c, services, moves, extra);
    SemanticReview.LatestIsLast(tasks);
    SemanticReview.LatestDistinct(tasks);
    var names := set i | 0 <= i < |services| :: services[i];
    forall x | x in latest ensures AllAdmissible(x.findings, ledger) && x.service in names {
      var i :| 0 <= i < |tasks| && tasks[i] == x;
      RunTask(c, services, moves, extra, i);
      KnownIsMerged(c, services, moves, extra, i);
    }
    FewNames(services);
    FewServices(latest, names);
    FewClaims(latest);
    var proposed := SemanticReview.Proposed(tasks);
    forall i | 0 <= i < |proposed| ensures Admissible(proposed[i], ledger) {
      ClaimIsOfTask(latest, proposed[i]);
      var k :| 0 <= k < |latest| && proposed[i] in latest[k].findings;
      assert latest[k] in latest;
    }
  }

  lemma {:induction false} SomeSpeak(tasks: seq<SemanticReview.TaskFindings>)
    ensures SemanticReview.Latest(tasks) == [] <==> forall i :: 0 <= i < |tasks| ==> tasks[i].findings == []
    ensures forall x :: x in SemanticReview.Latest(tasks) ==> x.findings != []
  {
    SemanticReview.LatestIsLast(tasks);
    if tasks != [] {
      SomeSpeak(tasks[..|tasks| - 1]);
      assert forall i :: 0 <= i < |tasks| - 1 ==> tasks[..|tasks| - 1][i] == tasks[i];
    }
  }

  /** Nothing is proposed exactly when no task has findings. */
  lemma NothingProposed(tasks: seq<SemanticReview.TaskFindings>)
    ensures SemanticReview.Proposed(tasks) == [] <==> forall i :: 0 <= i < |tasks| ==> tasks[i].findings == []
  {
    hide SemanticReview.Latest;
    SomeSpeak(tasks);
    var latest := SemanticReview.Latest(tasks);
    assert latest != [] ==> latest[0] in latest;
  }

  // --------------------------------------------------------- main statements

  /** When no decision is left for the review. */
  lemma NoneLeft(c: Settings, services: seq<string>, moves: seq<Move>, extra: Extra)
    requires Happens(c, services, moves, extra)
    ensures var t := Played(c, services, moves);
      && (Asked(t, extra) >= ModelLimit(services) <==>
            && (forall i :: 0 <= i < |t.branches| ==> t.branches[i].decides == 3)
            && extra.Extra? && RunFollowUp(t, extra.k, extra.prior, extra.inputs).branch.decides == 1)
      && (Asked(t, extra) >= ModelLimit(services) && t.branches[extra.k].attemptsUsed < MAX_AGENT_ATTEMPTS ==>
            Halted(t.branches[extra.k]))
  {
    hide PlayAll, Dispatch, RunFollowUp, Sum, PriorOf;
    BudgetsAreConserved(c, services, moves);
    if extra.Extra? { DecisionsLeft(c, services, moves, extra.k, extra.prior, extra.inputs); }
  }

  /** The review has no claims exactly when no task has findings. It is refused its model decision exactly when some
      task has findings, a follow-up ran and asked the model, and every service had asked three times before; that
      takes a first task of the followed service that was cut short by the stop flag or its deadline. */
  lemma VerifierGetsItsDecision(
    c: Settings, services: seq<string>, moves: seq<Move>, extra: Extra, verdicts: seq<SemanticReview.Verdict>,
    cited: seq<EvidenceId> -> string, bounds: SemanticReview.Bounds)
    requires Happens(c, services, moves, extra)
    ensures var t := Played(c, services, moves);
      var outcomes := RunOutcomes(t, extra);
      var report := Review(t, extra, ModelLimit(services), verdicts, cited, bounds);
      && (report.NoClaims? <==> forall i :: 0 <= i < |outcomes| ==> outcomes[i].branch.findings == [])
      && (report.NoBudget? <==>
            && (exists i :: 0 <= i < |outcomes| && outcomes[i].branch.findings != [])
            && (forall i :: 0 <= i < |t.branches| ==> t.branches[i].decides == 3)
            && extra.Extra? && RunFollowUp(t, extra.k, extra.prior, extra.inputs).branch.decides == 1)
      && (report.NoBudget? && t.branches[extra.k].attemptsUsed < MAX_AGENT_ATTEMPTS ==> Halted(t.branches[extra.k]))
  {
    hide Played, MergeAll, SemanticReview.Proposed, RunOutcomes, RunFollowUp, IdsOf, SemanticReview.Reviews, PriorOf,
      Asked;
    var t := Played(c, services, moves);
    var outcomes := RunOutcomes(t, extra);
    var tasks := AllFindingsOf(outcomes);
    NothingProposed(tasks);
    assert forall i :: 0 <= i < |tasks| ==> tasks[i].findings == outcomes[i].branch.findings;
    NoneLeft(c, services, moves, extra);
  }

  /** What a task's verdict becomes: the numeric bounds alone can take its support away. */
  function Settled(
    claim: Claim, verdict: SemanticReview.Support, cited: seq<EvidenceId> -> string, bounds: SemanticReview.Bounds):
    SemanticReview.Support
  {
    if verdict == SemanticReview.Supported && SemanticReview.Unbacked(bounds, claim.text, cited(claim.evidence))
    then SemanticReview.Unsupported else verdict
  }

  /** For every run: a review completes exactly when a task has findings, a decision is left, and the verdicts are one
      for each proposed claim, which the reply always has room for. Every reviewed claim cites evidence of the run,
      so only its verdict and its numeric bounds decide: no claim falls for a citation that does not exist. */
  lemma RunIsReviewed(
    c: Settings, services: seq<string>, moves: seq<Move>, extra: Extra, verdicts: seq<SemanticReview.Verdict>,
    cited: seq<EvidenceId> -> string, bounds: SemanticReview.Bounds)
    requires Happens(c, services, moves, extra)
    ensures var t := Played(c, services, moves);
      var outcomes := RunOutcomes(t, extra);
      var proposed := SemanticReview.Proposed(AllFindingsOf(outcomes));
      var report := Review(t, extra, ModelLimit(services), verdicts, cited, bounds);
      && |proposed| <= MAX_REVIEWS
      && (report.Completed? <==>
            && (exists i :: 0 <= i < |outcomes| && outcomes[i].branch.findings != [])
            && Asked(t, extra) < ModelLimit(services)
            && |verdicts| == |proposed| && SemanticReview.VerdictIds(verdicts) == SemanticReview.ClaimIds(proposed))
      && (report.Completed? ==>
            && |report.claims| == |proposed|
            && forall i :: 0 <= i < |proposed| ==>
                 && report.claims[i].claim == proposed[i]
                 && Admissible(proposed[i], IdsOf(MergeAll(outcomes).evidence))
                 && exists v :: v in verdicts && v.id == proposed[i].id
                      && report.claims[i].support == Settled(proposed[i], v.support, cited, bounds))
  {
    hide Played, MergeAll, SemanticReview.Latest, SemanticReview.AllFindings, SemanticReview.Proposed,
      RunOutcomes, RunFollowUp, IdsOf, SemanticReview.Reviews, SemanticReview.Verify, SemanticReview.VerdictIds,
      SemanticReview.ClaimIds, SemanticReview.DistinctTasks, SemanticReview.DistinctIds, Admissible, Settled;
    var t := Played(c, services, moves);
    var outcomes := RunOutcomes(t, extra);
    var tasks, ledger := AllFindingsOf(outcomes), IdsOf(MergeAll(outcomes).evidence);
    var proposed := SemanticReview.Proposed(tasks);
    NothingProposed(tasks);
    assert forall i :: 0 <= i < |tasks| ==> tasks[i].findings == outcomes[i].branch.findings;
    ProposedAreKnown(c, services, moves, extra);
    RunTasksAreDistinct(c, services, moves, extra);
    SemanticReview.ReviewIsExact(tasks, Asked(t, extra) < ModelLimit(services), verdicts, ledger, cited, bounds);
    forall i, support | 0 <= i < |proposed|
      ensures SemanticReview.Reviews(proposed[i], support, ledger, cited, bounds)
           == Settled(proposed[i], support, cited, bounds)
    {
      CitedIsSettled(proposed[i], support, ledger, cited, bounds);
    }
  }

  lemma CitedIsSettled(
    claim: Claim, verdict: SemanticReview.Support, ledger: set<EvidenceId>, cited: seq<EvidenceId> -> string,
    bounds: SemanticReview.Bounds)
    requires Admissible(claim, ledger)
    ensures SemanticReview.Reviews(claim, verdict, ledger, cited, bounds) == Settled(claim, verdict, cited, bounds)
  {
  }
}
