/** The parent records what its branches send, one batch after each wait. */
module ProgressDrain {
  import opened Investigation

  /** An event of a branch with the time it was sent. */
  datatype Sent = Sent(branch: nat, event: Event, ns: nat)

  /** What happens around one wait: events sent before it returns, the branches known to be finished when it
      returns, and events sent until the queue is found empty. */
  datatype Round = Round(before: seq<Sent>, done: set<nat>, after: seq<Sent>)

  /** Everything sent up to round `n`. */
  function Emitted(world: nat -> Round, n: nat): seq<Sent> {
    if n == 0 then [] else Emitted(world, n - 1) + (world(n - 1).before + world(n - 1).after)
  }

  function By(sent: seq<Sent>, b: nat): (r: seq<Sent>) {
    if sent == [] then []
    else By(sent[..|sent| - 1], b) + if sent[|sent| - 1].branch == b then [sent[|sent| - 1]] else []
  }

  ghost predicate InTime(sent: seq<Sent>) {
    forall i, j :: 0 <= i < j < |sent| ==> sent[i].ns <= sent[j].ns
  }

  /** A branch sends in the order of its clock, and sends nothing once it is finished. */
  ghost predicate WorldOk(world: nat -> Round) {
    && (forall n: nat, b: nat :: InTime(By(Emitted(world, n), b)))
    && (forall n: nat, b: nat :: b in world(n).done ==>
          By(world(n).after, b) == [] && forall m: nat :: m > n ==> By(world(m).before + world(m).after, b) == [])
  }

  // ------------------------------------------------------------ stable order

  /** `e` after everything not later than it. */
  function Insert(sorted: seq<Sent>, e: Sent): (r: seq<Sent>) {
    if sorted == [] || sorted[|sorted| - 1].ns <= e.ns then sorted + [e]
    else Insert(sorted[..|sorted| - 1], e) + [sorted[|sorted| - 1]]
  }

  function StableSort(batch: seq<Sent>): (r: seq<Sent>) {
    if batch == [] then [] else Insert(StableSort(batch[..|batch| - 1]), batch[|batch| - 1])
  }

  lemma {:induction false} ByConcat(x: seq<Sent>, y: seq<Sent>, b: nat)
    ensures By(x + y, b) == By(x, b) + By(y, b)
  {
    if y == [] {
      assert x + y == x;
    } else {
      var last := y[|y| - 1];
      assert (x + y)[..|x + y| - 1] == x + y[..|y| - 1];
      ByConcat(x, y[..|y| - 1], b);
    }
  }

  lemma {:induction false} InsertAtMost(sorted: seq<Sent>, e: Sent, t: nat)
    requires e.ns <= t && forall i :: 0 <= i < |sorted| ==> sorted[i].ns <= t
    ensures forall i :: 0 <= i < |Insert(sorted, e)| ==> Insert(sorted, e)[i].ns <= t
  {
    if sorted == [] || sorted[|sorted| - 1].ns <= e.ns {
    } else {
      InsertAtMost(sorted[..|sorted| - 1], e, t);
    }
  }

  lemma {:induction false} InsertSorts(sorted: seq<Sent>, e: Sent)
    requires InTime(sorted)
    ensures InTime(Insert(sorted, e))
  {
    if sorted == [] || sorted[|sorted| - 1].ns <= e.ns {
    } else {
      InsertSorts(sorted[..|sorted| - 1], e);
      InsertAtMost(sorted[..|sorted| - 1], e, sorted[|sorted| - 1].ns);
    }
  }

  lemma {:induction false} InsertKeepsAll(sorted: seq<Sent>, e: Sent)
    ensures multiset(Insert(sorted, e)) == multiset(sorted) + multiset{e}
  {
    if sorted == [] || sorted[|sorted| - 1].ns <= e.ns {
    } else {
      assert sorted == sorted[..|sorted| - 1] + [sorted[|sorted| - 1]];
      InsertKeepsAll(sorted[..|sorted| - 1], e);
    }
  }

  lemma {:induction false} InsertKeepsOthers(sorted: seq<Sent>, e: Sent, b: nat)
    requires e.branch != b
    ensures By(Insert(sorted, e), b) == By(sorted, b)
  {
    if sorted == [] || sorted[|sorted| - 1].ns <= e.ns {
      assert (sorted + [e])[..|sorted|] == sorted;
    } else {
      var some, last := sorted[..|sorted| - 1], sorted[|sorted| - 1];
      InsertKeepsOthers(some, e, b);
      assert (Insert(some, e) + [last])[..|Insert(some, e)|] == Insert(some, e);
    }
  }

  lemma LastIsOwn(sent: seq<Sent>)
    requires sent != []
    ensures var last := sent[|sent| - 1]; last in By(sent, last.branch)
  {
  }

  lemma {:induction false} InsertAppendsOwn(sorted: seq<Sent>, e: Sent)
    requires forall i :: 0 <= i < |By(sorted, e.branch)| ==> By(sorted, e.branch)[i].ns <= e.ns
    ensures By(Insert(sorted, e), e.branch) == By(sorted, e.branch) + [e]
  {
    var b := e.branch;
    if sorted == [] || sorted[|sorted| - 1].ns <= e.ns {
      assert (sorted + [e])[..|sorted|] == sorted;
    } else {
      var some, last := sorted[..|sorted| - 1], sorted[|sorted| - 1];
      LastIsOwn(sorted);
      assert By(sorted, b) == By(some, b);
      InsertAppendsOwn(some, e);
      assert (Insert(some, e) + [last])[..|Insert(some, e)|] == Insert(some, e);
    }
  }

  /** Sorting a batch by time loses nothing and keeps the order of every branch. */
  lemma {:induction false} SortKeepsBranchOrder(batch: seq<Sent>, b: nat)
    requires InTime(By(batch, b))
    ensures By(StableSort(batch), b) == By(batch, b)
  {
    if batch != [] {
      var some, last := batch[..|batch| - 1], batch[|batch| - 1];
      var own, before := By(batch, b), By(some, b);
      assert forall i :: 0 <= i < |before| ==> before[i] == own[i];
      SortKeepsBranchOrder(some, b);
      if last.branch == b {
        assert own[|before|] == last;
        InsertAppendsOwn(StableSort(some), last);
      } else {
        InsertKeepsOthers(StableSort(some), last, b);
      }
    }
  }

  lemma {:induction false} SortSorts(batch: seq<Sent>)
    ensures InTime(StableSort(batch)) && multiset(StableSort(batch)) == multiset(batch)
  {
    if batch != [] {
      var some, last := batch[..|batch| - 1], batch[|batch| - 1];
      assert batch == some + [last];
      SortSorts(some);
      InsertSorts(StableSort(some), last);
      InsertKeepsAll(StableSort(some), last);
    }
  }

  // ---------------------------------------------------------------- the loop

  /** A part of a branch's events is in the order of its clock. */
  lemma PartInTime(all: seq<Sent>, before: seq<Sent>, part: seq<Sent>, b: nat)
    requires InTime(By(all, b)) && all == before + part
    ensures InTime(By(part, b))
  {
    ByConcat(before, part, b);
    var x, y, z := By(before, b), By(part, b), By(all, b);
    assert forall i :: 0 <= i < |y| ==> y[i] == z[|x| + i];
  }

  ghost predicate FinishedBy(world: nat -> Round, n: nat, b: nat) {
    exists k: nat :: k < n && b in world(k).done
  }

  /** Nothing is sent in later rounds by a branch that is finished. */
  lemma {:induction false} SilentAfter(world: nat -> Round, n: nat, m: nat, b: nat)
    requires WorldOk(world) && n <= m && FinishedBy(world, n, b)
    ensures By(Emitted(world, m), b) == By(Emitted(world, n), b)
  {
    hide By;
    if m > n {
      SilentAfter(world, n, m - 1, b);
      var k: nat :| k < n && b in world(k).done;
      var batch := world(m - 1).before + world(m - 1).after;
      ByConcat(Emitted(world, m - 1), batch, b);
      assert By(batch, b) == [];
    }
  }

  /** What a round adds to the trace. */
  lemma RoundKeepsTrace(world: nat -> Round, n: nat, trace: seq<Sent>, batch: seq<Sent>, b: nat)
    requires WorldOk(world) && batch == world(n).before + world(n).after
    requires By(trace, b) == By(Emitted(world, n), b)
    ensures By(trace + StableSort(batch), b) == By(Emitted(world, n + 1), b)
  {
    hide By, StableSort;
    assert InTime(By(Emitted(world, n + 1), b));
    PartInTime(Emitted(world, n + 1), Emitted(world, n), batch, b);
    SortKeepsBranchOrder(batch, b);
    ByConcat(trace, StableSort(batch), b);
    ByConcat(Emitted(world, n), batch, b);
  }

  lemma FinishedStep(world: nat -> Round, n: nat)
    ensures forall b: nat :: FinishedBy(world, n + 1, b) <==> FinishedBy(world, n, b) || b in world(n).done
    ensures n == 0 ==> forall b: nat :: !FinishedBy(world, n, b)
  {
    forall b: nat
      ensures FinishedBy(world, n + 1, b) <==> FinishedBy(world, n, b) || b in world(n).done {}
  }

  lemma FinishedStays(world: nat -> Round, m: nat, n: nat, b: nat)
    requires FinishedBy(world, m, b) && !FinishedBy(world, n, b)
    ensures n < m
  {
    var k: nat :| k < m && b in world(k).done;
    assert k >= n;
  }

  /** The trace holds everything sent in the first `n` rounds, in the order of each branch. */
  ghost predicate Recorded(world: nat -> Round, n: nat, trace: seq<Sent>) {
    && multiset(trace) == multiset(Emitted(world, n))
    && forall b: nat :: By(trace, b) == By(Emitted(world, n), b)
  }

  lemma NothingRecorded(world: nat -> Round)
    ensures Recorded(world, 0, [])
  {
  }

  lemma RoundKeepsAll(world: nat -> Round, n: nat, trace: seq<Sent>, batch: seq<Sent>)
    requires WorldOk(world) && batch == world(n).before + world(n).after && Recorded(world, n, trace)
    ensures Recorded(world, n + 1, trace + StableSort(batch))
  {
    hide By, StableSort, WorldOk;
    SortSorts(batch);
    forall b: nat ensures By(trace + StableSort(batch), b) == By(Emitted(world, n + 1), b) {
      RoundKeepsTrace(world, n, trace, batch, b);
    }
  }

  /** The trace after `n` rounds: each round's batch in the order of its times. */
  function Recording(world: nat -> Round, n: nat): seq<Sent> {
    if n == 0 then []
    else Recording(world, n - 1) + StableSort(world(n - 1).before + world(n - 1).after)
  }

  lemma {:induction false} RecordingHolds(world: nat -> Round, n: nat)
    requires WorldOk(world)
    ensures Recorded(world, n, Recording(world, n))
  {
    hide Recorded, WorldOk, StableSort;
    if n == 0 {
      NothingRecorded(world);
    } else {
      RecordingHolds(world, n - 1);
      RoundKeepsAll(world, n - 1, Recording(world, n - 1), world(n - 1).before + world(n - 1).after);
    }
  }

  ghost predicate AllFinished(world: nat -> Round, branches: nat, n: nat) {
    forall b: nat :: b < branches ==> FinishedBy(world, n, b)
  }

  /** Once the last wait has seen all branches finished, the trace holds every event any of them ever sends, exactly
      once and in the order its branch sent it, and nothing else; and each batch is in the order of its times. */
  lemma EveryEventIsRecordedOnce(world: nat -> Round, branches: nat, rounds: nat)
    requires WorldOk(world) && AllFinished(world, branches, rounds)
    ensures forall b: nat, m: nat :: b < branches && m >= rounds ==>
              By(Recording(world, rounds), b) == By(Emitted(world, m), b)
    ensures multiset(Recording(world, rounds)) == multiset(Emitted(world, rounds))
    ensures forall r: nat :: r < rounds ==> InTime(StableSort(world(r).before + world(r).after))
  {
    hide By, Emitted, WorldOk, FinishedBy, StableSort, Recording;
    RecordingHolds(world, rounds);
    forall b: nat, m: nat | b < branches && m >= rounds
      ensures By(Recording(world, rounds), b) == By(Emitted(world, m), b)
    {
      SilentAfter(world, rounds, m, b);
    }
    forall r: nat | r < rounds ensures InTime(StableSort(world(r).before + world(r).after)) {
      SortSorts(world(r).before + world(r).after);
    }
  }

  function Branches(n: nat): (r: set<nat>)
    ensures forall b: nat :: b in r <==> b < n
  {
    if n == 0 then {} else Branches(n - 1) + {n - 1}
  }

  /** The wait loop over branches that are all finished by round `horizon`: it drains the queue after each wait and
      stops after the first wait that saw them all finished. */
  method Drain(branches: nat, world: nat -> Round, ghost horizon: nat) returns (trace: seq<Sent>, rounds: nat)
    requires AllFinished(world, branches, horizon)
    ensures trace == Recording(world, rounds)
    ensures AllFinished(world, branches, rounds) && (rounds > 0 ==> !AllFinished(world, branches, rounds - 1))
  {
    hide StableSort, FinishedBy, Branches;
    FinishedStep(world, 0);
    var pending := Branches(branches);
    var queue: seq<Sent> := [];
    trace, rounds := [], 0;
    while pending != {}
      invariant queue == [] && trace == Recording(world, rounds)
      invariant forall b: nat :: b in pending <==> b < branches && !FinishedBy(world, rounds, b)
      invariant rounds > 0 ==> !AllFinished(world, branches, rounds - 1)
      decreases horizon - rounds
    {
      ghost var b0 :| b0 in pending;
      FinishedStays(world, horizon, rounds, b0);
      queue := queue + world(rounds).before;
      pending := pending - world(rounds).done;
      queue := queue + world(rounds).after;
      var batch := queue;
      assert batch == world(rounds).before + world(rounds).after;
      queue := [];
      FinishedStep(world, rounds);
      trace := trace + StableSort(batch);
      rounds := rounds + 1;
    }
  }
}
