/** The model's review of the claims that the investigators proposed. */
module SemanticReview {
  import opened Options
  import opened Investigation

  /** The findings of a task, as its last accepted decision left them. */
  datatype TaskFindings = TaskFindings(service: string, agent: nat, task: TaskId, findings: seq<Claim>)

  datatype Support = Supported | Unsupported | Unverified

  datatype Verdict = Verdict(id: ClaimId, support: Support)

  datatype Reviewed = Reviewed(claim: Claim, support: Support)

  datatype Report = Completed(claims: seq<Reviewed>) | NoClaims | NoBudget | BadReview

  /** The bounds each numeric pattern finds in a text. */
  type Bounds = (nat, string) -> set<string>

  const PATTERNS := 4

  // ---------------------------------------------------------- numbered claims

  ghost predicate Numbered(t: TaskFindings) {
    forall i :: 0 <= i < |t.findings| ==> t.findings[i].id == ClaimId(t.agent, t.task, i + 1)
  }

  // --------------------------------------------------------- which claims count

  /** The last task with findings for each service, services in order of first appearance. */
  function Latest(tasks: seq<TaskFindings>): seq<TaskFindings> {
    if tasks == [] then []
    else
      var before, t := Latest(tasks[..|tasks| - 1]), tasks[|tasks| - 1];
      if t.findings == [] then before else Replace(before, t)
  }

  function Replace(latest: seq<TaskFindings>, t: TaskFindings): seq<TaskFindings> {
    if latest == [] then [t]
    else if latest[0].service == t.service then [t] + latest[1..]
    else [latest[0]] + Replace(latest[1..], t)
  }

  function AllFindings(tasks: seq<TaskFindings>): seq<Claim> {
    if tasks == [] then [] else tasks[0].findings + AllFindings(tasks[1..])
  }

  function Proposed(tasks: seq<TaskFindings>): seq<Claim> { AllFindings(Latest(tasks)) }

  function ClaimIds(claims: seq<Claim>): set<ClaimId> { set i | 0 <= i < |claims| :: claims[i].id }

  function VerdictIds(verdicts: seq<Verdict>): set<ClaimId> { set i | 0 <= i < |verdicts| :: verdicts[i].id }

  /** The last verdict for an identity. */
  function VerdictFor(verdicts: seq<Verdict>, id: ClaimId): (v: Verdict)
    requires id in VerdictIds(verdicts)
    ensures v in verdicts && v.id == id
  {
    var last := verdicts[|verdicts| - 1];
    if last.id == id then last
    else
      assert id in VerdictIds(verdicts[..|verdicts| - 1]) by {
        var i :| 0 <= i < |verdicts| && verdicts[i].id == id;
        assert verdicts[..|verdicts| - 1][i].id == id;
      }
      VerdictFor(verdicts[..|verdicts| - 1], id)
  }

  // -------------------------------------------------------------- one claim

  /** Some bound that the claim states is missing in what it cites. */
  predicate Unbacked(bounds: Bounds, text: string, cited: string) {
    exists p: nat :: p < PATTERNS && !(bounds(p, text) <= bounds(p, cited))
  }

  /** The support a claim keeps of its verdict; `cited` prints the outputs of the evidence it names. */
  method ReviewClaim(
    claim: Claim, verdict: Support, ledger: set<EvidenceId>, cited: seq<EvidenceId> -> string, bounds: Bounds)
    returns (support: Support)
    ensures support == Reviews(claim, verdict, ledger, cited, bounds)
  {
    support := verdict;
    if !((set i | 0 <= i < |claim.evidence| :: claim.evidence[i]) <= ledger) {
      support := Unsupported;
    } else if support == Supported {
      var text := cited(claim.evidence);
      var p: nat := 0;
      while p < PATTERNS
        invariant p <= PATTERNS && support == Supported
        invariant forall q: nat :: q < p ==> bounds(q, claim.text) <= bounds(q, text)
      {
        var stated, known := bounds(p, claim.text), bounds(p, text);
        if stated - known != {} {
          assert !(stated <= known);
          support := Unsupported;
          break;
        }
        assert forall x :: x in stated && x !in known ==> x in stated - known;
        p := p + 1;
      }
    }
  }

  function Reviews(
    claim: Claim, verdict: Support, ledger: set<EvidenceId>, cited: seq<EvidenceId> -> string, bounds: Bounds): Support
  {
    if exists i :: 0 <= i < |claim.evidence| && claim.evidence[i] !in ledger then Unsupported
    else if verdict == Supported && Unbacked(bounds, claim.text, cited(claim.evidence)) then Unsupported
    else verdict
  }

  // -------------------------------------------------------------- all claims

  function Verify(
    tasks: seq<TaskFindings>, granted: bool, verdicts: seq<Verdict>, ledger: set<EvidenceId>,
    cited: seq<EvidenceId> -> string, bounds: Bounds): Report
  {
    var proposed := Proposed(tasks);
    if proposed == [] then NoClaims
    else if !granted then NoBudget
    else if |VerdictIds(verdicts)| != |verdicts| || VerdictIds(verdicts) != ClaimIds(proposed) then BadReview
    else
      Completed(seq(|proposed|, i requires 0 <= i < |proposed| =>
        assert proposed[i].id in ClaimIds(proposed);
        Reviewed(proposed[i],
                 Reviews(proposed[i], VerdictFor(verdicts, proposed[i].id).support, ledger, cited, bounds))))
  }

  // ----------------------------------------------------------------- properties

  /** A review never makes a verdict better: a supported claim was judged supported, cites only known evidence, and
      states no numeric bound that its evidence does not state; and nothing else is taken away. */
  lemma ReviewsOnlyTakeAway(
    claim: Claim, verdict: Support, ledger: set<EvidenceId>, cited: seq<EvidenceId> -> string, bounds: Bounds)
    ensures Reviews(claim, verdict, ledger, cited, bounds) == Supported <==>
            && verdict == Supported && (forall i :: 0 <= i < |claim.evidence| ==> claim.evidence[i] in ledger)
            && forall p: nat :: p < PATTERNS ==> bounds(p, claim.text) <= bounds(p, cited(claim.evidence))
    ensures Reviews(claim, verdict, ledger, cited, bounds) in {verdict, Unsupported}
  {
  }

  ghost predicate OneEach(tasks: seq<TaskFindings>) {
    forall i, j :: 0 <= i < j < |tasks| ==> tasks[i].service != tasks[j].service
  }

  /** Some task with findings is `x`, and no later task of its service has findings. */
  ghost predicate Speaks(tasks: seq<TaskFindings>, x: TaskFindings) {
    exists i :: 0 <= i < |tasks| && tasks[i] == x && IsLast(tasks, i)
  }

  lemma {:induction false} ReplaceKeeps(latest: seq<TaskFindings>, t: TaskFindings)
    requires OneEach(latest)
    ensures OneEach(Replace(latest, t))
    ensures forall x :: x in Replace(latest, t) <==> x == t || (x in latest && x.service != t.service)
  {
    if latest != [] && latest[0].service != t.service {
      var rest := latest[1..];
      assert OneEach(rest) && latest == [latest[0]] + rest;
      ReplaceKeeps(rest, t);
      var r := Replace(rest, t);
      forall x | x in r ensures x.service != latest[0].service {
        if x in rest {
          var i :| 0 <= i < |rest| && rest[i] == x;
          assert latest[i + 1] == x;
        }
      }
    } else if latest != [] {
      var rest := latest[1..];
      assert latest == [latest[0]] + rest;
      forall x | x in rest ensures x.service != t.service {
        var i :| 0 <= i < |rest| && rest[i] == x;
        assert latest[i + 1] == x;
      }
    }
  }

  /** Each service speaks through its last task with findings, and through no other. */
  lemma {:induction false} LatestIsLast(tasks: seq<TaskFindings>)
    ensures OneEach(Latest(tasks))
    ensures forall x :: x in Latest(tasks) <==> Speaks(tasks, x)
  {
    if tasks != [] {
      var some, t := tasks[..|tasks| - 1], tasks[|tasks| - 1];
      assert tasks == some + [t];
      LatestIsLast(some);
      if t.findings != [] { ReplaceKeeps(Latest(some), t); }
      forall x ensures Speaks(tasks, x) <==>
          if t.findings == [] then Speaks(some, x) else x == t || (Speaks(some, x) && x.service != t.service)
      {
        SpeaksStep(some, t, x);
      }
    }
  }

  lemma SpeaksStep(some: seq<TaskFindings>, t: TaskFindings, x: TaskFindings)
    ensures Speaks(some + [t], x) <==>
            if t.findings == [] then Speaks(some, x) else x == t || (Speaks(some, x) && x.service != t.service)
  {
    hide IsLast;
    var tasks := some + [t];
    assert tasks[|some|] == t;
    LastIsLast(some, t);
    forall i | 0 <= i < |some|
      ensures tasks[i] == some[i]
      ensures IsLast(tasks, i) <==> IsLast(some, i) && (t.findings == [] || t.service != some[i].service)
    {
      LastStep(some, t, i);
    }
    if Speaks(some, x) && (t.findings == [] || x.service != t.service) {
      var i :| 0 <= i < |some| && some[i] == x && IsLast(some, i);
      assert tasks[i] == x;
    }
    if Speaks(tasks, x) {
      var i :| 0 <= i < |tasks| && tasks[i] == x && IsLast(tasks, i);
    }
  }

  lemma LastIsLast(some: seq<TaskFindings>, t: TaskFindings)
    ensures IsLast(some + [t], |some|) <==> t.findings != []
  {
  }

  ghost predicate IsLast(tasks: seq<TaskFindings>, i: nat)
    requires i < |tasks|
  {
    tasks[i].findings != []
    && forall j :: i < j < |tasks| && tasks[j].service == tasks[i].service ==> tasks[j].findings == []
  }

  lemma LastStep(some: seq<TaskFindings>, t: TaskFindings, i: nat)
    requires i < |some|
    ensures IsLast(some + [t], i) <==> IsLast(some, i) && (t.findings == [] || t.service != some[i].service)
  {
    var tasks := some + [t];
    assert tasks[|some|] == t && forall j :: 0 <= j < |some| ==> tasks[j] == some[j];
  }

  // ------------------------------------------------- each claim exactly once

  ghost predicate DistinctIds(claims: seq<Claim>) {
    forall i, j :: 0 <= i < j < |claims| ==> claims[i].id != claims[j].id
  }

  /** The tasks of a run: numbered findings, and no two tasks with one identity. */
  ghost predicate DistinctTasks(tasks: seq<TaskFindings>) {
    && (forall i :: 0 <= i < |tasks| ==> Numbered(tasks[i]))
    && (forall i, j :: 0 <= i < j < |tasks| ==> tasks[i].task != tasks[j].task)
  }

  lemma {:induction false} FindingsOwner(tasks: seq<TaskFindings>, c: Claim)
    requires DistinctTasks(tasks) && c in AllFindings(tasks)
    ensures exists i :: 0 <= i < |tasks| && c.id.task == tasks[i].task
  {
    if c in tasks[0].findings {
      var k :| 0 <= k < |tasks[0].findings| && tasks[0].findings[k] == c;
      assert Numbered(tasks[0]);
    } else {
      RestDistinct(tasks);
      FindingsOwner(tasks[1..], c);
      var i :| 0 <= i < |tasks[1..]| && c.id.task == tasks[1..][i].task;
      assert tasks[i + 1].task == c.id.task;
    }
  }

  lemma RestDistinct(tasks: seq<TaskFindings>)
    requires DistinctTasks(tasks) && tasks != []
    ensures DistinctTasks(tasks[1..])
  {
    assert forall i :: 0 <= i < |tasks[1..]| ==> tasks[1..][i] == tasks[i + 1];
  }

  lemma {:induction false} FindingsAreDistinct(tasks: seq<TaskFindings>)
    requires DistinctTasks(tasks)
    ensures DistinctIds(AllFindings(tasks))
  {
    hide Numbered;
    if tasks != [] {
      RestDistinct(tasks);
      FindingsAreDistinct(tasks[1..]);
      var first, rest := tasks[0].findings, AllFindings(tasks[1..]);
      forall i, j | 0 <= i < |first| && 0 <= j < |rest| ensures first[i].id != rest[j].id {
        FindingsOwner(tasks[1..], rest[j]);
        var k :| 0 <= k < |tasks[1..]| && rest[j].id.task == tasks[1..][k].task;
        assert tasks[k + 1].task != tasks[0].task;
        NumberedTask(tasks[0], i);
      }
      NumberedDistinct(tasks[0]);
    }
  }

  lemma NumberedTask(t: TaskFindings, i: nat)
    requires Numbered(t) && i < |t.findings|
    ensures t.findings[i].id.task == t.task
  {
  }

  lemma NumberedDistinct(t: TaskFindings)
    requires Numbered(t)
    ensures DistinctIds(t.findings)
  {
  }

  /** Tasks that speak keep their identities. */
  lemma {:induction false} LatestDistinct(tasks: seq<TaskFindings>)
    requires DistinctTasks(tasks)
    ensures DistinctTasks(Latest(tasks)) && forall x :: x in Latest(tasks) ==> x in tasks
  {
    LatestIsLast(tasks);
    var latest := Latest(tasks);
    forall x | x in latest ensures x in tasks { assert Speaks(tasks, x); }
    forall i | 0 <= i < |latest| ensures Numbered(latest[i]) {
      assert latest[i] in latest;
      var k :| 0 <= k < |tasks| && tasks[k] == latest[i];
    }
    forall i, j | 0 <= i < j < |latest| ensures latest[i].task != latest[j].task {
      assert latest[i] in latest && latest[j] in latest;
      var k :| 0 <= k < |tasks| && tasks[k] == latest[i];
      var l :| 0 <= l < |tasks| && tasks[l] == latest[j];
      assert k != l;
    }
  }

  lemma {:induction false} IdsCount(claims: seq<Claim>)
    requires DistinctIds(claims)
    ensures |ClaimIds(claims)| == |claims|
  {
    hide ClaimIds;
    if claims == [] {
      NoIds();
    } else {
      var some, last := claims[..|claims| - 1], claims[|claims| - 1];
      assert claims == some + [last] && forall i :: 0 <= i < |some| ==> claims[i] == some[i];
      IdsCount(some);
      IdsStep(some, last);
      NewId(some, last);
    }
  }

  lemma NoIds()
    ensures ClaimIds([]) == {}
  {
  }

  lemma IdsStep(some: seq<Claim>, last: Claim)
    ensures ClaimIds(some + [last]) == ClaimIds(some) + {last.id}
  {
    var claims := some + [last];
    forall id | id in ClaimIds(claims) ensures id in ClaimIds(some) + {last.id} {
      var i :| 0 <= i < |claims| && claims[i].id == id;
      assert i < |some| ==> some[i].id == id;
    }
    forall id | id in ClaimIds(some) + {last.id} ensures id in ClaimIds(claims) {
      if id == last.id {
        assert claims[|some|].id == id;
      } else {
        var i :| 0 <= i < |some| && some[i].id == id;
        assert claims[i].id == id;
      }
    }
  }

  lemma NewId(some: seq<Claim>, last: Claim)
    requires DistinctIds(some + [last])
    ensures last.id !in ClaimIds(some)
  {
    var claims := some + [last];
    forall i | 0 <= i < |some| ensures some[i].id != last.id {
      assert claims[i] == some[i] && claims[|some|] == last;
    }
  }

  /** A completed review judges every proposed claim by a verdict of its own: as many verdicts as claims, and the
      report keeps the claims in their order. Any missing, repeated or foreign verdict fails the whole review. */
  lemma ReviewIsExact(
    tasks: seq<TaskFindings>, granted: bool, verdicts: seq<Verdict>, ledger: set<EvidenceId>,
    cited: seq<EvidenceId> -> string, bounds: Bounds)
    requires DistinctTasks(tasks)
    ensures var report, proposed := Verify(tasks, granted, verdicts, ledger, cited, bounds), Proposed(tasks);
      && DistinctIds(proposed)
      && (report.Completed? <==>
            && proposed != [] && granted && |verdicts| == |proposed| && VerdictIds(verdicts) == ClaimIds(proposed))
      && (report.Completed? ==>
            && |report.claims| == |proposed|
            && forall i :: 0 <= i < |proposed| ==>
                 && report.claims[i].claim == proposed[i]
                 && (exists v :: v in verdicts && v.id == proposed[i].id
                       && report.claims[i].support == Reviews(proposed[i], v.support, ledger, cited, bounds)))
  {
    hide Reviews, AllFindings, Latest;
    LatestDistinct(tasks);
    FindingsAreDistinct(Latest(tasks));
    IdsCount(Proposed(tasks));
    var report, proposed := Verify(tasks, granted, verdicts, ledger, cited, bounds), Proposed(tasks);
    if report.Completed? {
      forall i | 0 <= i < |proposed|
        ensures (exists v :: v in verdicts && v.id == proposed[i].id
                   && report.claims[i].support == Reviews(proposed[i], v.support, ledger, cited, bounds))
      {
        assert proposed[i].id in ClaimIds(proposed);
        var v := VerdictFor(verdicts, proposed[i].id);
      }
    }
  }
}
