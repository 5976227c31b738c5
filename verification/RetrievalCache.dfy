/** The cache of retrieval indexes, keyed by category and guarded by a version of the content. */
module RetrievalCache {
  import opened Options

  datatype Doc = Doc(id: nat, text: string, category: Option<string>, updatedAt: int)

  /** What an index is built from: a document without its stamp. */
  datatype Passage = Passage(id: nat, text: string, category: Option<string>)

  /** An index is a function of its passages. */
  datatype Retriever = Retriever(passages: seq<Passage>)

  datatype Version = Version(count: nat, latest: Option<int>, highestId: Option<nat>)

  predicate Selected(d: Doc, category: Option<string>) { category.None? || d.category == category }

  /** The rows of a category, in id order; all rows without one. */
  function Corpus(rows: seq<Doc>, category: Option<string>): seq<Doc> {
    if rows == [] then []
    else Corpus(rows[..|rows| - 1], category)
         + if Selected(rows[|rows| - 1], category) then [rows[|rows| - 1]] else []
  }

  function Later(x: Option<int>, y: int): Option<int> { if x.None? || x.value < y then Some(y) else x }

  function VersionOf(docs: seq<Doc>): Version {
    if docs == [] then Version(0, None, None)
    else
      var v, d := VersionOf(docs[..|docs| - 1]), docs[|docs| - 1];
      Version(v.count + 1, Later(v.latest, d.updatedAt),
              if v.highestId.None? || v.highestId.value < d.id then Some(d.id) else v.highestId)
  }

  function Build(docs: seq<Doc>): Retriever {
    Retriever(seq(|docs|, i requires 0 <= i < |docs| => Passage(docs[i].id, docs[i].text, docs[i].category)))
  }

  ghost predicate Ascending(docs: seq<Doc>) { forall i, j :: 0 <= i < j < |docs| ==> docs[i].id < docs[j].id }

  // ------------------------------------------------------- content and version

  lemma {:induction false} CorpusIs(rows: seq<Doc>, category: Option<string>)
    ensures forall d :: d in Corpus(rows, category) <==> d in rows && Selected(d, category)
  {
    if rows != [] {
      CorpusIs(rows[..|rows| - 1], category);
      assert rows == rows[..|rows| - 1] + [rows[|rows| - 1]];
    }
  }

  lemma AscendingMore(docs: seq<Doc>, d: Doc)
    requires Ascending(docs) && forall e :: e in docs ==> e.id < d.id
    ensures Ascending(docs + [d])
  {
  }

  lemma AscendingLast(docs: seq<Doc>, d: Doc)
    requires Ascending(docs + [d])
    ensures Ascending(docs) && forall e :: e in docs ==> e.id < d.id
  {
    PrefixAscending(docs, d);
    forall e | e in docs ensures e.id < d.id {
      var i :| 0 <= i < |docs| && docs[i] == e;
      assert (docs + [d])[i] == e && (docs + [d])[|docs|] == d;
    }
  }

  lemma {:induction false} CorpusAscends(rows: seq<Doc>, category: Option<string>)
    requires Ascending(rows)
    ensures Ascending(Corpus(rows, category))
  {
    hide Ascending;
    if rows == [] {
      NothingAscends();
    } else {
      var some, last := rows[..|rows| - 1], rows[|rows| - 1];
      assert rows == some + [last];
      AscendingLast(some, last);
      CorpusAscends(some, category);
      CorpusIs(some, category);
      if Selected(last, category) {
        AscendingMore(Corpus(some, category), last);
      } else {
        assert Corpus(rows, category) == Corpus(some, category);
      }
    }
  }

  lemma NothingAscends()
    ensures Ascending([])
  {
  }

  /** The content of a category: its rows, in id order. */
  lemma CorpusMembers(rows: seq<Doc>, category: Option<string>)
    ensures forall d :: d in Corpus(rows, category) <==> d in rows && Selected(d, category)
    ensures Ascending(rows) ==> Ascending(Corpus(rows, category))
  {
    hide Ascending, Corpus;
    CorpusIs(rows, category);
    if Ascending(rows) { CorpusAscends(rows, category); }
  }

  lemma {:induction false} VersionMeans(docs: seq<Doc>)
    ensures VersionOf(docs).count == |docs|
    ensures VersionOf(docs).latest.None? <==> docs == []
    ensures VersionOf(docs).highestId.None? <==> docs == []
    ensures forall d :: d in docs ==> d.updatedAt <= VersionOf(docs).latest.value
    ensures forall d :: d in docs ==> d.id <= VersionOf(docs).highestId.value
    ensures docs != [] ==> exists d :: d in docs && VersionOf(docs).latest == Some(d.updatedAt)
    ensures docs != [] ==> exists d :: d in docs && VersionOf(docs).highestId == Some(d.id)
  {
    if docs != [] {
      VersionMeans(docs[..|docs| - 1]);
      assert docs == docs[..|docs| - 1] + [docs[|docs| - 1]];
      assert docs[|docs| - 1] in docs;
    }
  }

  lemma IdsGrow(docs: seq<Doc>, i: nat, j: nat)
    requires Ascending(docs) && i <= j < |docs|
    ensures docs[i].id <= docs[j].id && (docs[i].id == docs[j].id ==> i == j)
  {
  }

  /** The last of a part that holds the last of the whole is the last of the whole. */
  lemma LastIsLast(xs: seq<Doc>, x: Doc, ys: seq<Doc>, y: Doc)
    requires Ascending(xs + [x]) && Ascending(ys + [y]) && forall d :: d in xs + [x] ==> d in ys + [y]
    requires y in xs + [x]
    ensures x == y && Ascending(xs) && Ascending(ys) && forall d :: d in xs ==> d in ys
  {
    var all, whole := xs + [x], ys + [y];
    assert all[|xs|] == x && whole[|ys|] == y && x in all;
    var i :| 0 <= i < |all| && all[i] == y;
    var j :| 0 <= j < |whole| && whole[j] == x;
    IdsGrow(all, i, |xs|);
    IdsGrow(whole, j, |ys|);
    PrefixAscending(xs, x);
    PrefixAscending(ys, y);
    forall d | d in xs ensures d in ys {
      var a :| 0 <= a < |xs| && xs[a] == d;
      assert all[a] == d;
      IdsGrow(all, a, |xs|);
      assert d in whole;
    }
  }

  lemma PrefixAscending(docs: seq<Doc>, d: Doc)
    requires Ascending(docs + [d])
    ensures Ascending(docs)
  {
    assert forall i :: 0 <= i < |docs| ==> docs[i] == (docs + [d])[i];
  }

  /** Ascending documents that are all among as many others are those others. */
  lemma {:induction false} SameSizeIsSame(xs: seq<Doc>, ys: seq<Doc>)
    requires Ascending(xs) && Ascending(ys) && forall d :: d in xs ==> d in ys
    ensures |xs| <= |ys| && (|xs| == |ys| ==> xs == ys)
  {
    if ys == [] {
      FirstIsIn(xs);
    } else if xs != [] {
      var some, last := ys[..|ys| - 1], ys[|ys| - 1];
      assert ys == some + [last];
      if last in xs {
        assert xs == xs[..|xs| - 1] + [xs[|xs| - 1]];
        LastIsLast(xs[..|xs| - 1], xs[|xs| - 1], some, last);
        SameSizeIsSame(xs[..|xs| - 1], some);
      } else {
        PrefixAscending(some, last);
        SameSizeIsSame(xs, some);
      }
    }
  }

  lemma FirstIsIn(xs: seq<Doc>)
    ensures xs != [] ==> xs[0] in xs
  {
  }

  /** A row that content of this version cannot hold: it came later, or was written later. */
  predicate Outdates(d: Doc, v: Version) {
    v.latest.None? || v.highestId.None? || d.updatedAt > v.latest.value || d.id > v.highestId.value
  }

  /** Whatever is in the content now was in `docs`, or could not have been there. */
  ghost predicate Descends(docs: seq<Doc>, now: seq<Doc>) {
    && Ascending(docs) && Ascending(now)
    && forall d :: d in now ==> d in docs || Outdates(d, VersionOf(docs))
  }

  /** When no row was rewritten under an old stamp, an unchanged version means unchanged content. */
  lemma UnchangedVersionIsUnchangedContent(docs: seq<Doc>, now: seq<Doc>)
    requires Descends(docs, now) && VersionOf(docs) == VersionOf(now)
    ensures docs == now
  {
    hide Ascending;
    VersionMeans(docs);
    VersionMeans(now);
    if docs != [] {
      assert forall d :: d in now ==> !Outdates(d, VersionOf(docs));
    }
    SameSizeIsSame(now, docs);
  }

  // ------------------------------------------------------- which writes are missed

  datatype Write =
    | Insert(text: string, category: Option<string>, stamp: int)
    | Edit(i: nat, text: string, category: Option<string>, stamp: int)
    | Delete(i: nat)

  predicate Applies(rows: seq<Doc>, w: Write) { w.Insert? || w.i < |rows| }

  /** The table after a write; a new document gets the next id. */
  function Written(rows: seq<Doc>, nextId: nat, w: Write): seq<Doc>
    requires Applies(rows, w)
  {
    match w
    case Insert(text, category, stamp) => rows + [Doc(nextId, text, category, stamp)]
    case Edit(i, text, category, stamp) => rows[i := Doc(rows[i].id, text, category, stamp)]
    case Delete(i) => rows[..i] + rows[i + 1..]
  }

  /** The version of a category stays, but the index built before is not the index of the content. */
  predicate Missed(rows: seq<Doc>, after: seq<Doc>, key: Option<string>) {
    && VersionOf(Corpus(rows, key)) == VersionOf(Corpus(after, key))
    && Build(Corpus(rows, key)) != Build(Corpus(after, key))
  }

  /** An edit of a document that stays in the category and becomes another passage, under a stamp that is not later
      than all of the category and leaves its greatest stamp in place. */
  ghost predicate Hides(rows: seq<Doc>, w: Write, key: Option<string>)
    requires Applies(rows, w)
  {
    && w.Edit? && Selected(rows[w.i], key) && (key.None? || w.category == key)
    && (w.text != rows[w.i].text || w.category != rows[w.i].category)
    && var latest := VersionOf(Corpus(rows, key)).latest;
       && latest.Some? && w.stamp <= latest.value
       && (w.stamp == latest.value
           || exists d :: d in Corpus(rows[..w.i] + rows[w.i + 1..], key) && d.updatedAt == latest.value)
  }

  lemma {:induction false} CorpusConcat(xs: seq<Doc>, ys: seq<Doc>, key: Option<string>)
    ensures Corpus(xs + ys, key) == Corpus(xs, key) + Corpus(ys, key)
  {
    if ys == [] {
      assert xs + ys == xs;
    } else {
      var some, last := ys[..|ys| - 1], ys[|ys| - 1];
      CorpusConcat(xs, some, key);
      assert (xs + ys)[..|xs + ys| - 1] == xs + some;
    }
  }

  function Kept(d: Doc, key: Option<string>): seq<Doc> { if Selected(d, key) then [d] else [] }

  lemma CorpusOne(d: Doc, key: Option<string>)
    ensures Corpus([d], key) == Kept(d, key)
  {
    assert [d][..0] == [];
    assert Corpus([], key) == [];
  }

  /** The content around one row. */
  lemma CorpusAround(xs: seq<Doc>, d: Doc, ys: seq<Doc>, key: Option<string>)
    ensures Corpus(xs + [d] + ys, key) == Corpus(xs, key) + Kept(d, key) + Corpus(ys, key)
  {
    hide Corpus, Kept;
    CorpusConcat(xs + [d], ys, key);
    CorpusConcat(xs, [d], key);
    CorpusOne(d, key);
  }

  /** The greatest stamp of a content that is known in another way. */
  lemma LatestIs(docs: seq<Doc>, stamp: int)
    requires forall d :: d in docs ==> d.updatedAt <= stamp
    requires exists d :: d in docs && d.updatedAt == stamp
    ensures VersionOf(docs).latest == Some(stamp)
  {
    VersionMeans(docs);
  }

  lemma HighestIs(docs: seq<Doc>, d: Doc)
    requires d in docs && forall e :: e in docs ==> e.id <= d.id
    ensures VersionOf(docs).highestId == Some(d.id)
  {
    VersionMeans(docs);
  }

  /** Replacing a row by one of the same id leaves the greatest id. */
  lemma SameHighest(xs: seq<Doc>, o: Doc, d: Doc, ys: seq<Doc>)
    requires o.id == d.id
    ensures VersionOf(xs + [o] + ys).highestId == VersionOf(xs + [d] + ys).highestId
  {
    hide VersionOf;
    var before, after := xs + [o] + ys, xs + [d] + ys;
    VersionMeans(before);
    assert o in before && d in after;
    var top :| top in before && VersionOf(before).highestId == Some(top.id);
    HighestIs(after, if top == o then d else top);
  }

  /** Replacing a row leaves the greatest stamp exactly when the new stamp is not above it and something still has it. */
  lemma SameLatest(xs: seq<Doc>, o: Doc, d: Doc, ys: seq<Doc>)
    ensures var latest := VersionOf(xs + [o] + ys).latest;
      && latest.Some?
      && (VersionOf(xs + [d] + ys).latest == latest <==>
            && d.updatedAt <= latest.value
            && (d.updatedAt == latest.value || exists e :: e in xs + ys && e.updatedAt == latest.value))
  {
    hide VersionOf;
    var before, after := xs + [o] + ys, xs + [d] + ys;
    VersionMeans(before);
    VersionMeans(after);
    assert o in before && d in after;
    var latest := VersionOf(before).latest.value;
    if d.updatedAt <= latest && (d.updatedAt == latest || exists e :: e in xs + ys && e.updatedAt == latest) {
      LatestIs(after, latest);
    }
  }

  lemma BuildDiffers(xs: seq<Doc>, o: Doc, d: Doc, ys: seq<Doc>)
    requires o.id == d.id
    ensures Build(xs + [o] + ys) == Build(xs + [d] + ys) <==> o.text == d.text && o.category == d.category
  {
    var before, after := Build(xs + [o] + ys).passages, Build(xs + [d] + ys).passages;
    assert before[|xs|] == Passage(o.id, o.text, o.category) && after[|xs|] == Passage(d.id, d.text, d.category);
  }

  lemma CountsDiffer(xs: seq<Doc>, ys: seq<Doc>)
    requires |xs| != |ys|
    ensures VersionOf(xs) != VersionOf(ys)
  {
    VersionMeans(xs);
    VersionMeans(ys);
  }

  /** Exactly which single writes a current cache entry misses: the edits that hide behind the stamps of the category.
      Inserts, deletions and moves into or out of a category are never missed, under whatever stamp. */
  lemma MissedExactly(rows: seq<Doc>, nextId: nat, w: Write, key: Option<string>)
    requires Applies(rows, w)
    ensures Missed(rows, Written(rows, nextId, w), key) <==> Hides(rows, w, key)
  {
    hide Corpus, VersionOf, Build;
    var after := Written(rows, nextId, w);
    match w
    case Insert(text, category, stamp) =>
      var d := Doc(nextId, text, category, stamp);
      CorpusConcat(rows, [d], key);
      CorpusOne(d, key);
      OneMoreIsSeen(Corpus(rows, key), [], d, key);
      assert Corpus(rows, key) + Kept(d, key) + [] == Corpus(after, key) && Corpus(rows, key) + [] == Corpus(rows, key);
    case Delete(i) =>
      var xs, o, ys := rows[..i], rows[i], rows[i + 1..];
      assert rows == xs + [o] + ys;
      CorpusAround(xs, o, ys, key);
      CorpusConcat(xs, ys, key);
      OneMoreIsSeen(Corpus(xs, key), Corpus(ys, key), o, key);
    case Edit(i, text, category, stamp) =>
      var xs, o, d, ys := rows[..i], rows[i], Doc(rows[i].id, text, category, stamp), rows[i + 1..];
      assert rows == xs + [o] + ys && after == xs + [d] + ys;
      CorpusAround(xs, o, ys, key);
      CorpusAround(xs, d, ys, key);
      CorpusConcat(xs, ys, key);
      EditIsSeen(Corpus(xs, key), o, d, Corpus(ys, key), key);
  }

  /** One row more or less is seen by the count, or is of another category. */
  lemma OneMoreIsSeen(xs: seq<Doc>, ys: seq<Doc>, d: Doc, key: Option<string>)
    ensures var more, less := xs + Kept(d, key) + ys, xs + ys;
      more == less || VersionOf(more) != VersionOf(less)
  {
    hide VersionOf;
    if Selected(d, key) { CountsDiffer(xs + Kept(d, key) + ys, xs + ys); }
  }

  lemma EditIsSeen(xs: seq<Doc>, o: Doc, d: Doc, ys: seq<Doc>, key: Option<string>)
    requires o.id == d.id
    ensures var before, after := xs + Kept(o, key) + ys, xs + Kept(d, key) + ys;
      VersionOf(before) == VersionOf(after) && Build(before) != Build(after) <==>
        && Selected(o, key) && Selected(d, key) && (o.text != d.text || o.category != d.category)
        && var latest := VersionOf(before).latest;
           && latest.Some? && d.updatedAt <= latest.value
           && (d.updatedAt == latest.value || exists e :: e in xs + ys && e.updatedAt == latest.value)
  {
    hide VersionOf, Build;
    var before, after := xs + Kept(o, key) + ys, xs + Kept(d, key) + ys;
    if Selected(o, key) && Selected(d, key) {
      SameLatest(xs, o, d, ys);
      SameHighest(xs, o, d, ys);
      BuildDiffers(xs, o, d, ys);
      VersionMeans(before);
      VersionMeans(after);
    } else if Selected(o, key) || Selected(d, key) {
      CountsDiffer(before, after);
    }
  }

  lemma OneDocument(d: Doc)
    ensures Corpus([d], None) == [d] && VersionOf([d]) == Version(1, Some(d.updatedAt), Some(d.id))
    ensures Build([d]) == Retriever([Passage(d.id, d.text, d.category)])
  {
    assert [d][..0] == [];
    assert VersionOf([]) == Version(0, None, None) && Corpus([], None) == [];
  }

  /** An example: an edit that repeats the stamp of the only row leaves the version as it was, and the index built
      before it is not the index of the content after it. */
  lemma RepeatedStampHidesAnEdit(d: Doc, text: string)
    requires text != d.text
    ensures var before, after := Corpus([d], None), Corpus([d.(text := text)], None);
      VersionOf(before) == VersionOf(after) && Build(before) != Build(after)
  {
    hide Corpus, VersionOf, Build;
    OneDocument(d);
    OneDocument(d.(text := text));
    assert Build([d]).passages[0].text != Build([d.(text := text)]).passages[0].text;
  }

  // ------------------------------------------------------------ the live cache

  datatype Entry = Entry(version: Version, retriever: Retriever)

  ghost predicate Bounded(rows: seq<Doc>, nextId: nat) { forall d :: d in rows ==> d.id < nextId }

  class KnowledgeBase {
    var rows: seq<Doc>
    var nextId: nat
    var cache: map<Option<string>, Entry>
    /** For each cached index the content it was built from. */
    ghost var origin: map<Option<string>, seq<Doc>>

    constructor ()
      ensures Valid() && rows == [] && cache == map[]
    {
      rows, nextId, cache := [], 1, map[];
      origin := map[];
    }

    ghost predicate Valid()
      reads this
    {
      && Ascending(rows) && Bounded(rows, nextId)
      && (forall key :: key in cache ==> key in origin && Cached(key))
    }

    ghost predicate Cached(key: Option<string>)
      requires key in cache && key in origin
      reads this
    {
      var docs := origin[key];
      && cache[key] == Entry(VersionOf(docs), Build(docs))
      && Bounded(docs, nextId) && Descends(docs, Corpus(rows, key))
    }

    /** Some category's cached version could have held the edited row as it is now. */
    ghost predicate Conceals(d: Doc)
      reads this
    {
      exists key :: key in cache && Selected(d, key) && !Outdates(d, cache[key].version)
    }

    /** A new document under the next id, with any stamp. */
    method Insert(text: string, category: Option<string>, stamp: int)
      requires Valid()
      modifies this
      ensures Valid() && rows == Written(old(rows), old(nextId), Write.Insert(text, category, stamp))
      ensures nextId == old(nextId) + 1 && cache == old(cache)
    {
      hide Corpus, Descends, VersionOf, Build, Ascending, Bounded;
      var d := Doc(nextId, text, category, stamp);
      InsertRows(rows, nextId, d);
      forall key | key in cache
        ensures Bounded(origin[key], nextId + 1) && Descends(origin[key], Corpus(rows + [d], key))
      {
        assert Cached(key);
        InsertDescends(origin[key], rows, nextId, d, key);
      }
      rows, nextId := rows + [d], nextId + 1;
    }

    /** A new text or category for a document. Its stamp has to be later only than what is cached for the categories
        it is in afterwards, and not even that if it is newer than everything cached there. */
    method Update(i: nat, text: string, category: Option<string>, stamp: int)
      requires Valid() && i < |rows| && !Conceals(Doc(rows[i].id, text, category, stamp))
      modifies this
      ensures Valid() && rows == Written(old(rows), old(nextId), Edit(i, text, category, stamp))
      ensures nextId == old(nextId) && cache == old(cache)
    {
      hide Corpus, Descends, VersionOf, Build, Ascending, Bounded, Outdates;
      var d := Doc(rows[i].id, text, category, stamp);
      UpdateRows(rows, nextId, i, d);
      forall key | key in cache
        ensures Descends(origin[key], Corpus(rows[i := d], key))
      {
        assert Cached(key);
        UpdateDescends(origin[key], rows, i, d, key);
      }
      rows := rows[i := d];
    }

    method Delete(i: nat)
      requires Valid() && i < |rows|
      modifies this
      ensures Valid() && rows == Written(old(rows), old(nextId), Write.Delete(i))
      ensures nextId == old(nextId) && cache == old(cache)
    {
      hide Corpus, Descends, VersionOf, Build, Ascending, Bounded;
      DeleteRows(rows, nextId, i);
      forall key | key in cache
        ensures Descends(origin[key], Corpus(rows[..i] + rows[i + 1..], key))
      {
        assert Cached(key);
        DeleteDescends(origin[key], rows, i, key);
      }
      rows := rows[..i] + rows[i + 1..];
    }

    /** The cached index while its version is current, a new one otherwise: always the index of the content. */
    method GetRetriever(category: Option<string>) returns (retriever: Retriever)
      requires Valid()
      modifies this`cache, this`origin
      ensures Valid() && retriever == Build(Corpus(rows, category))
      ensures cache == old(cache)[category := Entry(VersionOf(Corpus(rows, category)), retriever)]
    {
      hide Corpus, Descends, VersionOf, Build, Ascending, Bounded;
      FreshDescends(rows, category, nextId);
      var docs := Corpus(rows, category);
      var version := VersionOf(docs);
      if category in cache && cache[category].version == version {
        assert Cached(category);
        UnchangedVersionIsUnchangedContent(origin[category], docs);
        return cache[category].retriever;
      }
      retriever := Build(docs);
      cache := cache[category := Entry(version, retriever)];
      origin := origin[category := docs];
      forall key | key in cache ensures Cached(key) { assert key != category ==> old(Cached(key)); }
    }
  }

  lemma FreshDescends(rows: seq<Doc>, key: Option<string>, nextId: nat)
    requires Ascending(rows) && Bounded(rows, nextId)
    ensures Descends(Corpus(rows, key), Corpus(rows, key)) && Bounded(Corpus(rows, key), nextId)
  {
    hide Ascending, Corpus;
    CorpusMembers(rows, key);
  }

  lemma InsertRows(rows: seq<Doc>, nextId: nat, d: Doc)
    requires Ascending(rows) && Bounded(rows, nextId) && d.id == nextId
    ensures Ascending(rows + [d]) && Bounded(rows + [d], nextId + 1)
  {
  }

  lemma UpdateRows(rows: seq<Doc>, nextId: nat, i: nat, d: Doc)
    requires Ascending(rows) && Bounded(rows, nextId) && i < |rows| && d.id == rows[i].id
    ensures Ascending(rows[i := d]) && Bounded(rows[i := d], nextId)
  {
    assert rows[i] in rows;
  }

  lemma RestMembers(rows: seq<Doc>, i: nat)
    requires i < |rows|
    ensures forall e :: e in rows[..i] + rows[i + 1..] ==> e in rows
    ensures Ascending(rows) ==> Ascending(rows[..i] + rows[i + 1..])
  {
    var rest := rows[..i] + rows[i + 1..];
    forall j | 0 <= j < |rest| ensures rest[j] == rows[if j < i then j else j + 1] {}
  }

  lemma DeleteRows(rows: seq<Doc>, nextId: nat, i: nat)
    requires Ascending(rows) && Bounded(rows, nextId) && i < |rows|
    ensures Ascending(rows[..i] + rows[i + 1..]) && Bounded(rows[..i] + rows[i + 1..], nextId)
  {
    hide Ascending;
    RestMembers(rows, i);
  }

  lemma InsertDescends(docs: seq<Doc>, rows: seq<Doc>, nextId: nat, d: Doc, key: Option<string>)
    requires Descends(docs, Corpus(rows, key)) && Ascending(rows + [d]) && Bounded(docs, nextId) && d.id == nextId
    ensures Descends(docs, Corpus(rows + [d], key)) && Bounded(docs, nextId + 1)
  {
    hide Ascending, Corpus, VersionOf;
    CorpusMembers(rows, key);
    CorpusMembers(rows + [d], key);
    VersionMeans(docs);
    assert Outdates(d, VersionOf(docs));
  }

  lemma UpdateDescends(docs: seq<Doc>, rows: seq<Doc>, i: nat, d: Doc, key: Option<string>)
    requires i < |rows| && (Selected(d, key) ==> Outdates(d, VersionOf(docs)))
    requires Descends(docs, Corpus(rows, key)) && Ascending(rows[i := d])
    ensures Descends(docs, Corpus(rows[i := d], key))
  {
    hide Ascending, Corpus, VersionOf, Outdates;
    CorpusMembers(rows, key);
    CorpusMembers(rows[i := d], key);
    forall e | e in Corpus(rows[i := d], key) ensures e in docs || Outdates(e, VersionOf(docs)) {
      assert e in rows[i := d];
      var j :| 0 <= j < |rows| && rows[i := d][j] == e;
      assert j != i ==> rows[j] == e;
    }
  }

  lemma DeleteDescends(docs: seq<Doc>, rows: seq<Doc>, i: nat, key: Option<string>)
    requires Descends(docs, Corpus(rows, key)) && Ascending(rows) && i < |rows|
    ensures Descends(docs, Corpus(rows[..i] + rows[i + 1..], key))
  {
    hide Ascending, Corpus, VersionOf, Outdates;
    RestMembers(rows, i);
    CorpusMembers(rows, key);
    CorpusMembers(rows[..i] + rows[i + 1..], key);
  }
}
