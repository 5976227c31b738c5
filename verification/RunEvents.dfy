/** Bounded progress events of runs, and streams that can be resumed. */
module RunEvents {

  datatype Event = Event(sequence: nat, body: string)

  datatype Publication = Publication(body: string, terminal: bool)

  /** Everything ever published for a run, and whether it was declared finished. */
  datatype Channel = Channel(history: seq<string>, terminal: bool)

  const SILENT := Channel([], false)

  function Numbered(history: seq<string>): (r: seq<Event>)
    ensures |r| == |history|
    ensures forall i :: 0 <= i < |r| ==> r[i] == Event(i + 1, history[i])
  {
    seq(|history|, i requires 0 <= i < |history| => Event(i + 1, history[i]))
  }

  function Trim(list: seq<Event>, max: nat): seq<Event> { if |list| > max then list[|list| - max..] else list }

  /** The last `max` events. */
  function Retained(c: Channel, max: nat): seq<Event> {
    Trim(Numbered(c.history), max)
  }

  function Published(c: Channel, p: Publication): Channel {
    Channel(c.history + [p.body], c.terminal || p.terminal)
  }

  function PublishedAll(c: Channel, ps: seq<Publication>): Channel {
    if ps == [] then c else Published(PublishedAll(c, ps[..|ps| - 1]), ps[|ps| - 1])
  }

  /** The events above a cursor. */
  function Above(events: seq<Event>, cursor: int): seq<Event> {
    if events == [] then []
    else Above(events[..|events| - 1], cursor)
         + if events[|events| - 1].sequence > cursor then [events[|events| - 1]] else []
  }

  /** Appending and trimming keeps exactly the last events. */
  lemma TrimRetains(c: Channel, p: Publication, max: nat)
    ensures Retained(Published(c, p), max) == Trim(Retained(c, max) + [Event(|c.history| + 1, p.body)], max)
    ensures |Published(c, p).history| == |c.history| + 1
  {
    NumberedOnce(c.history, p.body);
    TrimTwice(Numbered(c.history), Event(|c.history| + 1, p.body), max);
  }

  lemma NumberedOnce(history: seq<string>, body: string)
    ensures Numbered(history + [body]) == Numbered(history) + [Event(|history| + 1, body)]
  {
  }

  lemma TrimTwice(all: seq<Event>, e: Event, max: nat)
    ensures Trim(all + [e], max) == Trim(Trim(all, max) + [e], max)
  {
  }

  lemma PublishedTerminal(c: Channel, p: Publication)
    ensures Published(c, p).terminal == (c.terminal || p.terminal)
  {
  }

  lemma NothingRetained(max: nat)
    ensures Retained(SILENT, max) == []
  {
  }

  // ------------------------------------------------------------- the consumer

  /** A stream after some locked reads. */
  datatype Consumer = Consumer(channel: Channel, cursor: int, delivered: seq<Event>, ended: bool)

  /** One locked read, after the publications that came before it, and the delivery of what it found. */
  function Round(max: nat, s: Consumer, before: seq<Publication>): Consumer {
    var channel := PublishedAll(s.channel, before);
    if s.ended then s.(channel := channel)
    else
      var pending := Above(Retained(channel, max), s.cursor);
      Consumer(channel, if pending == [] then s.cursor else pending[|pending| - 1].sequence,
               s.delivered + pending, channel.terminal)
  }

  /** The stream from `after` after `n` reads; `world(r)` is what is published before read `r`. */
  function Consume(max: nat, c: Channel, after: int, world: nat -> seq<Publication>, n: nat): Consumer {
    if n == 0 then Consumer(c, after, [], false)
    else Round(max, Consume(max, c, after, world, n - 1), world(n - 1))
  }

  // --------------------------------------------------------------- the broker

  class RunEventBroker {
    const max: nat
    var events: map<nat, seq<Event>>
    var next: map<nat, nat>
    var finished: set<nat>
    ghost var channels: map<nat, Channel>

    constructor (max: nat)
      ensures Valid() && this.max == max && channels == map[]
    {
      NothingRetained(max);
      this.max := max;
      events, next, finished := map[], map[], {};
      channels := map[];
    }

    ghost function Of(run: nat): Channel
      reads this
    {
      if run in channels then channels[run] else SILENT
    }

    /** What is held for a run: the last events, the next number, and the end. */
    ghost predicate Holds(run: nat, c: Channel)
      reads this
    {
      && (if run in events then events[run] else []) == Retained(c, max)
      && (if run in next then next[run] else 1) == |c.history| + 1
      && (run in finished <==> c.terminal)
    }

    ghost predicate Valid()
      reads this
    {
      forall run :: Holds(run, Of(run))
    }

    method Publish(run: nat, body: string, terminal: bool)
      requires Valid()
      modifies this
      ensures Valid()
      ensures channels == old(channels)[run := Published(old(Of(run)), Publication(body, terminal))]
    {
      hide Retained, Published;
      NothingRetained(max);
      TrimRetains(Of(run), Publication(body, terminal), max);
      assert Published(Of(run), Publication(body, terminal)).terminal == (Of(run).terminal || terminal) by {
        PublishedTerminal(Of(run), Publication(body, terminal));
      }
      assert Holds(run, Of(run));
      var sequence := if run in next then next[run] else 1;
      next := next[run := sequence + 1];
      var list := (if run in events then events[run] else []) + [Event(sequence, body)];
      if |list| > max { list := list[|list| - max..]; }
      events := events[run := list];
      if terminal { finished := finished + {run}; }
      channels := channels[run := Published(Of(run), Publication(body, terminal))];
      forall other | other != run ensures Holds(other, Of(other)) { assert old(Holds(other, Of(other))); }
      assert Holds(run, Of(run));
    }

    method HasEvents(run: nat) returns (r: bool)
      requires Valid()
      ensures r <==> Retained(Of(run), max) != []
    {
      assert Holds(run, Of(run));
      r := run in events && events[run] != [];
    }

    /** A locked read. */
    method Read(run: nat, cursor: int) returns (pending: seq<Event>, terminal: bool)
      requires Valid()
      ensures pending == Above(Retained(Of(run), max), cursor) && terminal == Of(run).terminal
    {
      assert Holds(run, Of(run));
      pending := [];
      if run in events {
        for i := 0 to |events[run]|
          invariant pending == Above(events[run][..i], cursor)
        {
          assert events[run][..i + 1][..i] == events[run][..i];
          if events[run][i].sequence > cursor { pending := pending + [events[run][i]]; }
        }
        assert events[run][..|events[run]|] == events[run];
      }
      terminal := run in finished;
    }

    /** The stream loop, cut off by the client after `reads` locked reads if the run has not ended by then. */
    method Stream(run: nat, after: int, world: nat -> seq<Publication>, reads_: nat)
      returns (delivered: seq<Event>, ended: bool)
      requires Valid()
      modifies this
      ensures Valid()
      ensures exists n: nat :: n <= reads_ && (ended || n == reads_)
                && var s := Consume(max, old(Of(run)), after, world, n);
                   s.delivered == delivered && s.ended == ended && s.channel == Of(run)
    {
      hide Retained, Above, PublishedAll, Consume;
      var cursor := after;
      delivered, ended := [], false;
      ghost var first := Of(run);
      NoReads(max, first, after, world);
      for n := 0 to reads_
        invariant Valid() && !ended
        invariant Consume(max, first, after, world, n) == Consumer(Of(run), cursor, delivered, ended)
      {
        OneRead(max, first, after, world, n);
        PublishBatch(run, world(n));
        var pending, terminal := Read(run, cursor);
        ghost var before := delivered;
        for i := 0 to |pending|
          invariant delivered == before + pending[..i]
          invariant i > 0 ==> cursor == pending[i - 1].sequence
          invariant i == 0 ==> cursor == Consume(max, first, after, world, n).cursor
        {
          cursor := pending[i].sequence;
          delivered := delivered + [pending[i]];
        }
        assert pending[..|pending|] == pending;
        assert Consume(max, first, after, world, n + 1) == Consumer(Of(run), cursor, delivered, terminal);
        if terminal { return delivered, true; }
      }
    }

    method PublishBatch(run: nat, batch: seq<Publication>)
      requires Valid()
      modifies this
      ensures Valid() && Of(run) == PublishedAll(old(Of(run)), batch)
    {
      for i := 0 to |batch|
        invariant Valid() && Of(run) == PublishedAll(old(Of(run)), batch[..i])
      {
        assert batch[..i + 1][..i] == batch[..i];
        Publish(run, batch[i].body, batch[i].terminal);
      }
      assert batch[..|batch|] == batch;
    }
  }

  lemma NoReads(max: nat, c: Channel, after: int, world: nat -> seq<Publication>)
    ensures Consume(max, c, after, world, 0) == Consumer(c, after, [], false)
  {
  }

  lemma OneRead(max: nat, c: Channel, after: int, world: nat -> seq<Publication>, n: nat)
    ensures Consume(max, c, after, world, n + 1) == Round(max, Consume(max, c, after, world, n), world(n))
  {
  }

  // --------------------------------------------------------- what a stream sees

  /** The first index not before `k` of an event above the cursor. */
  function Cut(k: nat, cursor: int, n: nat): (r: nat)
    requires k <= n
    ensures k <= r <= n
  {
    if cursor <= k then k else if cursor >= n then n else cursor
  }

  lemma SliceStep(all: seq<Event>, k: nat, m: nat)
    requires k < m <= |all|
    ensures all[k..m] == all[k..m - 1] + [all[m - 1]] && all[k..m][..m - k - 1] == all[k..m - 1]
    ensures all[m..m] == []
  {
  }

  lemma {:induction false} AboveIsTail(history: seq<string>, k: nat, m: nat, cursor: int)
    requires k <= m <= |history|
    ensures Above(Numbered(history)[k..m], cursor) == Numbered(history)[Cut(k, cursor, m)..m]
  {
    if k < m {
      var all := Numbered(history);
      AboveIsTail(history, k, m - 1, cursor);
      SliceStep(all, k, m);
      var cut := Cut(k, cursor, m - 1);
      assert Above(all[k..m], cursor) == all[cut..m - 1] + if m > cursor then [all[m - 1]] else [];
      if m > cursor { SliceStep(all, cut, m); }
    }
  }

  /** How many events were dropped. */
  function Dropped(c: Channel, max: nat): nat { if |c.history| <= max then 0 else |c.history| - max }

  lemma RetainedIsTail(c: Channel, max: nat)
    ensures Retained(c, max) == Numbered(c.history)[Dropped(c, max)..]
  {
  }

  lemma PendingIsTail(c: Channel, max: nat, cursor: int)
    ensures Above(Retained(c, max), cursor) ==
            Numbered(c.history)[Cut(Dropped(c, max), cursor, |c.history|)..]
  {
    var n := |c.history|;
    RetainedIsTail(c, max);
    AboveIsTail(c.history, Dropped(c, max), n, cursor);
    assert Numbered(c.history)[Dropped(c, max)..n] == Numbered(c.history)[Dropped(c, max)..];
  }

  lemma {:induction false} HistoryGrows(c: Channel, ps: seq<Publication>)
    ensures c.history <= PublishedAll(c, ps).history
  {
    if ps != [] { HistoryGrows(c, ps[..|ps| - 1]); }
  }

  ghost predicate Ascending(events: seq<Event>, above: int) {
    && (forall i :: 0 <= i < |events| ==> events[i].sequence > above)
    && (forall i, j :: 0 <= i < j < |events| ==> events[i].sequence < events[j].sequence)
  }

  ghost predicate Genuine(events: seq<Event>, history: seq<string>) {
    forall i :: 0 <= i < |events| ==>
      1 <= events[i].sequence <= |history| && events[i].body == history[events[i].sequence - 1]
  }

  /** Retained events between the start and the cursor were delivered. */
  ghost predicate CaughtUp(s: Consumer, after: int, max: nat) {
    var all := Numbered(s.channel.history);
    forall i :: Dropped(s.channel, max) <= i < |all| && after < all[i].sequence <= s.cursor ==> all[i] in s.delivered
  }

  /** Where nothing was dropped, the stream has everything from its start to its cursor. */
  ghost predicate Gapless(s: Consumer, after: int, max: nat) {
    0 <= after <= |s.channel.history| <= max ==>
      && after <= s.cursor <= |s.channel.history|
      && s.delivered == Numbered(s.channel.history)[after..s.cursor]
  }

  ghost predicate InOrder(s: Consumer, after: int) {
    && Ascending(s.delivered, after) && Genuine(s.delivered, s.channel.history)
    && s.cursor == (if s.delivered == [] then after else s.delivered[|s.delivered| - 1].sequence)
  }

  ghost predicate StreamOk(s: Consumer, after: int, max: nat) {
    InOrder(s, after) && CaughtUp(s, after, max) && Gapless(s, after, max)
  }

  /** Publications alone keep what a stream knows. */
  lemma PublishingKeepsStream(s: Consumer, after: int, max: nat, c: Channel)
    requires StreamOk(s, after, max) && s.channel.history <= c.history
    ensures StreamOk(s.(channel := c), after, max)
  {
    hide Numbered, Ascending, Genuine, CaughtUp, Gapless;
    GenuineStays(s.delivered, s.channel.history, c.history);
    PublishingKeepsUp(s, after, max, c);
    PublishingLeavesNoGap(s, after, max, c);
  }

  lemma PublishingKeepsUp(s: Consumer, after: int, max: nat, c: Channel)
    requires InOrder(s, after) && CaughtUp(s, after, max) && s.channel.history <= c.history
    ensures CaughtUp(s.(channel := c), after, max)
  {
    hide Numbered, Ascending, Genuine;
    var was, now := Numbered(s.channel.history), Numbered(c.history);
    GenuineStays(s.delivered, s.channel.history, c.history);
    assert forall i :: 0 <= i < |was| ==> now[i] == was[i];
  }

  lemma PublishingLeavesNoGap(s: Consumer, after: int, max: nat, c: Channel)
    requires InOrder(s, after) && Gapless(s, after, max) && s.channel.history <= c.history
    ensures Gapless(s.(channel := c), after, max)
  {
    hide Numbered, Ascending, Genuine;
    NothingAbove(s, after);
    if 0 <= after <= |s.channel.history| && |c.history| <= max {
      SameSlice(s.channel.history, c.history, after, s.cursor);
    }
  }

  lemma SameSlice(x: seq<string>, y: seq<string>, a: nat, b: nat)
    requires x <= y && a <= b <= |x|
    ensures Numbered(x)[a..b] == Numbered(y)[a..b]
  {
    hide Numbered;
  }

  lemma GenuineStays(events: seq<Event>, before: seq<string>, after: seq<string>)
    requires Genuine(events, before) && before <= after
    ensures Genuine(events, after)
    ensures events != [] ==> events[|events| - 1].sequence <= |before|
  {
  }

  lemma NothingAbove(s: Consumer, after: int)
    requires InOrder(s, after)
    ensures after > |s.channel.history| ==> s.delivered == []
  {
    if s.delivered != [] { FirstIs(s.delivered, after, s.channel.history); }
  }

  lemma FirstIs(events: seq<Event>, after: int, history: seq<string>)
    requires events != [] && Ascending(events, after) && Genuine(events, history)
    ensures after < events[0].sequence <= |history|
  {
  }

  /** The delivery of everything pending. */
  function Delivered(s: Consumer, max: nat): Consumer {
    var pending := Above(Retained(s.channel, max), s.cursor);
    s.(cursor := if pending == [] then s.cursor else pending[|pending| - 1].sequence,
       delivered := s.delivered + pending)
  }

  /** Delivery adds the tail of the history after the cursor, without what was dropped. */
  lemma DeliveryIsTail(s: Consumer, max: nat) returns (cut: nat)
    ensures cut == Cut(Dropped(s.channel, max), s.cursor, |s.channel.history|)
    ensures Delivered(s, max).delivered == s.delivered + Numbered(s.channel.history)[cut..]
    ensures Delivered(s, max).cursor == if cut < |s.channel.history| then |s.channel.history| else s.cursor
    ensures cut < |s.channel.history| ==> cut >= s.cursor
    ensures Delivered(s, max).channel == s.channel && Delivered(s, max).ended == s.ended
  {
    cut := Cut(Dropped(s.channel, max), s.cursor, |s.channel.history|);
    PendingIsTail(s.channel, max, s.cursor);
  }

  lemma DeliveryKeepsOrder(s: Consumer, after: int, max: nat)
    requires InOrder(s, after)
    ensures InOrder(Delivered(s, max), after)
  {
    hide Delivered, Cut, Dropped, Numbered, Ascending, Genuine;
    var cut := DeliveryIsTail(s, max);
    TailKeepsOrder(s.delivered, after, s.cursor, s.channel.history, cut);
  }

  lemma TailKeepsOrder(events: seq<Event>, after: int, cursor: int, history: seq<string>, cut: nat)
    requires Ascending(events, after) && Genuine(events, history) && cut <= |history|
    requires cursor == if events == [] then after else events[|events| - 1].sequence
    requires cut < |history| ==> cut >= cursor
    ensures Ascending(events + Numbered(history)[cut..], after) && Genuine(events + Numbered(history)[cut..], history)
    ensures var more := events + Numbered(history)[cut..];
      (if cut < |history| then |history| else cursor) == if more == [] then after else more[|more| - 1].sequence
  {
    hide Numbered, Genuine;
    var pending := Numbered(history)[cut..];
    TailFacts(history, cut);
    GenuineConcat(events, pending, history);
    AscendingConcat(events, pending, after, cursor);
  }

  lemma TailFacts(history: seq<string>, cut: nat)
    requires cut <= |history|
    ensures var pending := Numbered(history)[cut..];
      && Ascending(pending, cut) && Genuine(pending, history)
      && (pending != [] ==> pending[|pending| - 1].sequence == |history|)
  {
    hide Numbered;
    var pending := Numbered(history)[cut..];
    assert forall i :: 0 <= i < |pending| ==> pending[i] == Event(cut + i + 1, history[cut + i]);
  }

  lemma GenuineConcat(x: seq<Event>, y: seq<Event>, history: seq<string>)
    requires Genuine(x, history) && Genuine(y, history)
    ensures Genuine(x + y, history)
  {
  }

  lemma AscendingConcat(x: seq<Event>, y: seq<Event>, after: int, cursor: int)
    requires Ascending(x, after) && cursor == if x == [] then after else x[|x| - 1].sequence
    requires Ascending(y, cursor)
    ensures Ascending(x + y, after)
  {
    assert forall i :: 0 <= i < |x| ==> x[i].sequence <= cursor;
    assert x != [] ==> cursor > after;
  }

  lemma DeliveryCatchesUp(s: Consumer, after: int, max: nat)
    requires CaughtUp(s, after, max)
    ensures CaughtUp(Delivered(s, max), after, max)
    ensures forall e :: e in Retained(s.channel, max) && e.sequence > after ==> e in Delivered(s, max).delivered
  {
    hide Delivered, Retained;
    var cut := DeliveryIsTail(s, max);
    RetainedIsTail(s.channel, max);
    var all, k := Numbered(s.channel.history), Dropped(s.channel, max);
    var tail := all[cut..];
    forall i | k <= i < |all| && all[i].sequence > after ensures all[i] in s.delivered + tail {
      if i >= cut { assert tail[i - cut] == all[i]; }
    }
  }

  lemma DeliveryLeavesNoGap(s: Consumer, after: int, max: nat)
    requires Gapless(s, after, max)
    ensures Gapless(Delivered(s, max), after, max)
    ensures 0 <= after <= |s.channel.history| <= max ==> Delivered(s, max).cursor == |s.channel.history|
  {
    hide Delivered;
    var cut := DeliveryIsTail(s, max);
    var all := Numbered(s.channel.history);
    if 0 <= after <= |all| <= max {
      assert cut == s.cursor;
      assert all[after..s.cursor] + all[s.cursor..] == all[after..];
    }
  }

  /** For every interleaving of publications and reads: the delivered numbers strictly increase above the start,
      every delivered event was published under its number, and retained events up to the cursor were delivered. */
  lemma {:induction false} StreamsKeepOrder(
    max: nat, c: Channel, after: int, world: nat -> seq<Publication>, n: nat)
    ensures StreamOk(Consume(max, c, after, world, n), after, max)
  {
    hide StreamOk, Delivered, PublishedAll;
    if n == 0 {
      assert StreamOk(Consumer(c, after, [], false), after, max) by { FreshStream(c, after, max); }
    } else {
      var s := Consume(max, c, after, world, n - 1);
      StreamsKeepOrder(max, c, after, world, n - 1);
      RoundKeepsStream(s, after, max, world(n - 1));
    }
  }

  lemma FreshStream(c: Channel, after: int, max: nat)
    ensures StreamOk(Consumer(c, after, [], false), after, max)
  {
  }

  lemma RoundKeepsStream(s: Consumer, after: int, max: nat, before: seq<Publication>)
    requires StreamOk(s, after, max)
    ensures StreamOk(Round(max, s, before), after, max)
    ensures var t := Round(max, s, before);
      !s.ended ==>
        && (forall e :: e in Retained(t.channel, max) && e.sequence > after ==> e in t.delivered)
        && (0 <= after <= |t.channel.history| <= max ==> t.cursor == |t.channel.history|)
        && t.ended == t.channel.terminal
  {
    hide PublishedAll, Retained, CaughtUp, Gapless, InOrder;
    var c := PublishedAll(s.channel, before);
    HistoryGrows(s.channel, before);
    PublishingKeepsStream(s, after, max, c);
    var u := s.(channel := c);
    EndIsIgnored(u, after, max, c.terminal);
    if !s.ended {
      DeliveryKeepsOrder(u, after, max);
      DeliveryCatchesUp(u, after, max);
      DeliveryLeavesNoGap(u, after, max);
      EndIsIgnored(Delivered(u, max), after, max, c.terminal);
    }
  }

  lemma EndIsIgnored(s: Consumer, after: int, max: nat, ended: bool)
    requires StreamOk(s, after, max)
    ensures StreamOk(s.(ended := ended), after, max)
  {
  }

  /** The read that ends a stream leaves nothing retained undelivered. */
  lemma EndedStreamIsComplete(max: nat, c: Channel, after: int, world: nat -> seq<Publication>, n: nat)
    requires !Consume(max, c, after, world, n).ended && Consume(max, c, after, world, n + 1).ended
    ensures var t := Consume(max, c, after, world, n + 1);
      && t.channel.terminal
      && forall e :: e in Retained(t.channel, max) && e.sequence > after ==> e in t.delivered
  {
    hide StreamOk, Round;
    StreamsKeepOrder(max, c, after, world, n);
    OneRead(max, c, after, world, n);
    RoundKeepsStream(Consume(max, c, after, world, n), after, max, world(n));
  }

  /** A client reads from the start, breaks off after `m` events, and later resumes from the last number it saw. If
      nothing was dropped by then it has the history without gap or repeat up to its cursor, and all of it once
      the resumed stream ends. */
  lemma ResumingIsSeamless(
    max: nat, c: Channel, world: nat -> seq<Publication>, n: nat, m: nat,
    later: Channel, world2: nat -> seq<Publication>, n2: nat)
    requires m <= |Consume(max, c, 0, world, n).delivered|
    requires Consume(max, c, 0, world, n).channel.history <= later.history
    requires |Consume(max, later, m, world2, n2).channel.history| <= max
    ensures var s, t := Consume(max, c, 0, world, n), Consume(max, later, m, world2, n2);
      && (m > 0 ==> s.delivered[m - 1].sequence == m)
      && m <= t.cursor <= |t.channel.history|
      && s.delivered[..m] + t.delivered == Numbered(t.channel.history)[..t.cursor]
      && (n2 > 0 && !Consume(max, later, m, world2, n2 - 1).ended ==>
            s.delivered[..m] + t.delivered == Numbered(t.channel.history))
  {
    hide Consume, InOrder, CaughtUp, Round;
    var s, t := Consume(max, c, 0, world, n), Consume(max, later, m, world2, n2);
    StreamsKeepOrder(max, c, 0, world, n);
    StreamsKeepOrder(max, later, m, world2, n2);
    ChannelGrows(max, later, m, world2, n2);
    var now, was := Numbered(t.channel.history), Numbered(s.channel.history);
    assert s.delivered == was[0..s.cursor];
    assert s.delivered[..m] == now[..m];
    assert now[..m] + now[m..t.cursor] == now[..t.cursor];
    if n2 > 0 {
      var u := Consume(max, later, m, world2, n2 - 1);
      StreamsKeepOrder(max, later, m, world2, n2 - 1);
      OneRead(max, later, m, world2, n2 - 1);
      RoundKeepsStream(u, m, max, world2(n2 - 1));
    }
  }

  lemma {:induction false} ChannelGrows(max: nat, c: Channel, after: int, world: nat -> seq<Publication>, n: nat)
    ensures c.history <= Consume(max, c, after, world, n).channel.history
  {
    hide PublishedAll, Consume, Above, Retained;
    if n == 0 {
      NoReads(max, c, after, world);
    } else {
      ChannelGrows(max, c, after, world, n - 1);
      var s := Consume(max, c, after, world, n - 1);
      HistoryGrows(s.channel, world(n - 1));
      OneRead(max, c, after, world, n - 1);
      PrefixChain(c.history, s.channel.history, PublishedAll(s.channel, world(n - 1)).history);
    }
  }

  lemma PrefixChain(x: seq<string>, y: seq<string>, z: seq<string>)
    requires x <= y <= z
    ensures x <= z
  {
  }

  // ------------------------------------------------------------------- the end

  predicate SaysEnd(ps: seq<Publication>) { exists i :: 0 <= i < |ps| && ps[i].terminal }

  lemma {:induction false} PublishedEnds(c: Channel, ps: seq<Publication>)
    ensures PublishedAll(c, ps).terminal <==> c.terminal || SaysEnd(ps)
    ensures |PublishedAll(c, ps).history| == |c.history| + |ps|
  {
    if ps != [] {
      var some, last := ps[..|ps| - 1], ps[|ps| - 1];
      PublishedEnds(c, some);
      assert SaysEnd(ps) <==> SaysEnd(some) || last.terminal by {
        if SaysEnd(some) {
          var i :| 0 <= i < |some| && some[i].terminal;
          assert ps[i].terminal;
        }
        if last.terminal { assert ps[|ps| - 1].terminal; }
        if SaysEnd(ps) && !last.terminal {
          var i :| 0 <= i < |ps| && ps[i].terminal;
          assert some[i].terminal;
        }
      }
    }
  }

  /** A stream ends with the first read after the run was declared finished, and not before. */
  lemma {:induction false} StreamEndsWithTheRun(
    max: nat, c: Channel, after: int, world: nat -> seq<Publication>, n: nat)
    ensures var s := Consume(max, c, after, world, n);
      && (s.channel.terminal <==> c.terminal || exists r: nat :: r < n && SaysEnd(world(r)))
      && (s.ended <==> n > 0 && (c.terminal || exists r: nat :: r < n && SaysEnd(world(r))))
  {
    hide PublishedAll, SaysEnd, Retained, Above;
    if n > 0 {
      StreamEndsWithTheRun(max, c, after, world, n - 1);
      var s := Consume(max, c, after, world, n - 1);
      PublishedEnds(s.channel, world(n - 1));
      assert (exists r: nat :: r < n && SaysEnd(world(r)))
        <==> (exists r: nat :: r < n - 1 && SaysEnd(world(r))) || SaysEnd(world(n - 1));
    }
  }

  /** What is retained of a run: all its events in order while they fit, and the last `max` of them afterwards. */
  lemma RetainedAreTheLast(c: Channel, max: nat)
    ensures var kept, n := Retained(c, max), |c.history|;
      var dropped := if n <= max then 0 else n - max;
      && |kept| == n - dropped
      && forall i :: 0 <= i < |kept| ==> kept[i] == Event(dropped + i + 1, c.history[dropped + i])
  {
  }
}
