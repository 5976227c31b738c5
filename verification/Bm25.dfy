/** The BM25 index: precomputed statistics against the direct formula, in real arithmetic. */
module Bm25 {
  import opened Options

  type Document = seq<string>

  // ------------------------------------------------------------ the formula

  /** What ranking needs of a logarithm. */
  ghost predicate LogLike(ln: real -> real) { forall x: real :: x > 1.0 ==> ln(x) > 0.0 }

  function Count(document: Document, term: string): nat {
    if document == [] then 0
    else Count(document[..|document| - 1], term) + if document[|document| - 1] == term then 1 else 0
  }

  function DocumentFrequency(documents: seq<Document>, term: string): (n: nat)
    ensures n <= |documents|
  {
    if documents == [] then 0
    else DocumentFrequency(documents[..|documents| - 1], term) + if term in documents[|documents| - 1] then 1 else 0
  }

  function TotalLength(documents: seq<Document>): nat {
    if documents == [] then 0 else TotalLength(documents[..|documents| - 1]) + |documents[|documents| - 1]|
  }

  function Average(documents: seq<Document>): (r: real)
    ensures r >= 0.0
  {
    if documents == [] then 0.0 else (TotalLength(documents) as real) / (|documents| as real)
  }

  function Rarity(count: nat, frequency: nat, ln: real -> real): real
    requires frequency <= count
  {
    ln(1.0 + ((count as real) - (frequency as real) + 0.5) / ((frequency as real) + 0.5))
  }

  function Normalization(length: nat, average: real, k1: real, b: real): real
    requires average > 0.0
  {
    k1 * (1.0 - b + b * ((length as real) / average))
  }

  lemma NormalizationIsNatural(length: nat, average: real, k1: real, b: real)
    requires average > 0.0 && k1 > 0.0 && 0.0 <= b <= 1.0
    ensures Normalization(length, average, k1, b) >= 0.0
  {
    var ratio := (length as real) / average;
    assert ratio >= 0.0;
    assert b * ratio >= 0.0;
    var sum := 1.0 - b + b * ratio;
    assert sum >= 0.0;
    assert k1 * sum >= 0.0;
  }

  function Saturation(frequency: nat, normalization: real, k1: real): real
    requires frequency > 0 && normalization >= 0.0
  {
    (frequency as real) * (k1 + 1.0) / ((frequency as real) + normalization)
  }

  datatype Corpus = Corpus(documents: seq<Document>, k1: real, b: real, ln: real -> real)

  predicate Sound(c: Corpus) { c.k1 > 0.0 && 0.0 <= c.b <= 1.0 }

  /** The share of one term in the score of one document. */
  function TermScore(c: Corpus, i: nat, term: string): real
    requires Sound(c) && i < |c.documents| && Average(c.documents) > 0.0
  {
    var document := c.documents[i];
    var frequency := Count(document, term);
    if frequency == 0 then 0.0
    else
      NormalizationIsNatural(|document|, Average(c.documents), c.k1, c.b);
      Rarity(|c.documents|, DocumentFrequency(c.documents, term), c.ln)
      * Saturation(frequency, Normalization(|document|, Average(c.documents), c.k1, c.b), c.k1)
  }

  /** The terms of a query, each at its first place. */
  function Unique(query: seq<string>): seq<string> {
    if query == [] then []
    else
      var before := Unique(query[..|query| - 1]);
      if query[|query| - 1] in before then before else before + [query[|query| - 1]]
  }

  function TermsScore(c: Corpus, i: nat, terms: seq<string>): real
    requires Sound(c) && i < |c.documents| && Average(c.documents) > 0.0
  {
    if terms == [] then 0.0 else TermsScore(c, i, terms[..|terms| - 1]) + TermScore(c, i, terms[|terms| - 1])
  }

  /** The score of a document: zero for all when every document is empty. */
  function Score(c: Corpus, i: nat, query: seq<string>): real
    requires Sound(c) && i < |c.documents|
  {
    if Average(c.documents) == 0.0 then 0.0 else TermsScore(c, i, Unique(query))
  }

  function AllScores(c: Corpus, query: seq<string>): (r: seq<real>)
    requires Sound(c)
    ensures |r| == |c.documents|
  {
    seq(|c.documents|, i requires 0 <= i < |c.documents| => Score(c, i, query))
  }

  // -------------------------------------------------------------- the ranking

  datatype Hit = Hit(index: nat, score: real)

  /** Better score first, then the earlier document. */
  predicate Ahead(x: Hit, y: Hit) { x.score > y.score || (x.score == y.score && x.index < y.index) }

  ghost predicate Ordered(hits: seq<Hit>) {
    forall i, j :: 0 <= i < j < |hits| ==> Ahead(hits[i], hits[j])
  }

  /** `hit` among ordered hits. */
  function Place(hits: seq<Hit>, hit: Hit): seq<Hit> {
    if hits == [] || Ahead(hits[|hits| - 1], hit) then hits + [hit]
    else Place(hits[..|hits| - 1], hit) + [hits[|hits| - 1]]
  }

  /** The documents with a positive score, best first. */
  function Ranking(scores: seq<real>): seq<Hit> {
    if scores == [] then []
    else
      var before := Ranking(scores[..|scores| - 1]);
      if scores[|scores| - 1] > 0.0 then Place(before, Hit(|scores| - 1, scores[|scores| - 1])) else before
  }

  function Best(scores: seq<real>, limit: nat): seq<Hit> {
    var all := Ranking(scores);
    if limit <= |all| then all[..limit] else all
  }

  // ----------------------------------------------------------------- the index

  datatype IndexError = BadK1 | BadB | BadLimit

  class Index {
    const k1: real
    const b: real
    const ln: real -> real
    ghost const documents: seq<Document>
    var frequencies: seq<map<string, nat>>
    var lengths: seq<nat>
    var average: real
    var rarity: map<string, real>

    ghost function View(): Corpus { Corpus(documents, k1, b, ln) }

    /** The statistics are those of the documents. */
    ghost predicate Valid()
      reads this
    {
      && Sound(View()) && Tabulates(frequencies, lengths, documents) && average == Average(documents)
      && Weighs(rarity, documents, ln)
    }

    /** Both parameters are positive and in range; see `Create` for the errors. */
    constructor (documents: seq<Document>, k1: real, b: real, ln: real -> real)
      requires k1 > 0.0 && 0.0 <= b <= 1.0
      ensures Valid() && View() == Corpus(documents, k1, b, ln)
    {
      this.documents, this.k1, this.b, this.ln := documents, k1, b, ln;
      var counters, sizes, total, spread := Statistics(documents);
      frequencies, lengths := counters, sizes;
      average := if |documents| == 0 then 0.0 else (total as real) / (|documents| as real);
      var weights := Weights(documents, |documents|, spread, ln);
      rarity := weights;
    }

    /** One score for each document. */
    method Scores(query: seq<string>) returns (scores: seq<real>)
      requires Valid()
      ensures scores == AllScores(View(), query)
    {
      hide Count, Tabulates, Weighs, Unique, TermsScore, Saturation, Rarity, TermScore;
      var c := View();
      assert |frequencies| == |lengths| == |documents| by { TableSize(frequencies, lengths, documents); }
      if |lengths| == 0 { return []; }
      scores := seq(|lengths|, i => 0.0);
      if average == 0.0 { return; }
      var terms := UniqueTerms(query);
      for i := 0 to |lengths|
        invariant |scores| == |lengths|
        invariant forall j :: 0 <= j < i ==> scores[j] == TermsScore(c, j, terms)
        invariant forall j :: i <= j < |scores| ==> scores[j] == 0.0
      {
        var normalization := Normalization(lengths[i], average, k1, b);
        NormalizationIsNatural(lengths[i], average, k1, b);
        NoTerms(c, i, terms);
        for k := 0 to |terms|
          invariant |scores| == |lengths|
          invariant forall j :: 0 <= j < i ==> scores[j] == TermsScore(c, j, terms)
          invariant scores[i] == TermsScore(c, i, terms[..k])
          invariant forall j :: i < j < |scores| ==> scores[j] == 0.0
        {
          OneTerm(c, i, terms, k);
          TermFromTables(c, frequencies, lengths, rarity, i, terms[k]);
          var frequency := if terms[k] in frequencies[i] then frequencies[i][terms[k]] else 0;
          if frequency != 0 {
            var weight := if terms[k] in rarity then rarity[terms[k]] else 0.0;
            scores := scores[i := scores[i] + weight * Saturation(frequency, normalization, k1)];
          }
        }
        assert terms[..|terms|] == terms;
      }
    }

    /** The best documents for a query. */
    method TopK(query: seq<string>, limit: int) returns (hits: Option<seq<Hit>>)
      requires Valid()
      ensures hits == if limit < 1 then None else Some(Best(AllScores(View(), query), limit))
    {
      if limit < 1 { return None; }
      var scores := Scores(query);
      var ranked := PositiveHits(scores);
      SortedIsRanking(scores);
      ranked := SortHits(ranked);
      return Some(if limit <= |ranked| then ranked[..limit] else ranked);
    }
  }

  /** The two argument checks of the source, then the index. */
  method Create(documents: seq<Document>, k1: real, b: real, ln: real -> real)
    returns (index: Index?, error: Option<IndexError>)
    ensures k1 <= 0.0 ==> index == null && error == Some(BadK1)
    ensures k1 > 0.0 && !(0.0 <= b <= 1.0) ==> index == null && error == Some(BadB)
    ensures k1 > 0.0 && 0.0 <= b <= 1.0 ==>
              index != null && error == None && index.Valid() && index.View() == Corpus(documents, k1, b, ln)
  {
    if k1 <= 0.0 { return null, Some(BadK1); }
    if !(0.0 <= b <= 1.0) { return null, Some(BadB); }
    index := new Index(documents, k1, b, ln);
    error := None;
  }

  lemma TableSize(frequencies: seq<map<string, nat>>, lengths: seq<nat>, documents: seq<Document>)
    requires Tabulates(frequencies, lengths, documents)
    ensures |frequencies| == |lengths| == |documents|
  {
  }

  lemma NoTerms(c: Corpus, i: nat, terms: seq<string>)
    requires Sound(c) && i < |c.documents| && Average(c.documents) > 0.0
    ensures TermsScore(c, i, terms[..0]) == 0.0
  {
  }

  lemma OneTerm(c: Corpus, i: nat, terms: seq<string>, k: nat)
    requires Sound(c) && i < |c.documents| && Average(c.documents) > 0.0 && k < |terms|
    ensures TermsScore(c, i, terms[..k + 1]) == TermsScore(c, i, terms[..k]) + TermScore(c, i, terms[k])
  {
    assert terms[..k + 1][..k] == terms[..k];
  }

  /** What the tables give for a term is its share by the formula. */
  lemma TermFromTables(c: Corpus, frequencies: seq<map<string, nat>>, lengths: seq<nat>, rarity: map<string, real>,
                       i: nat, term: string)
    requires Sound(c) && i < |c.documents| && Average(c.documents) > 0.0
    requires Tabulates(frequencies, lengths, c.documents) && Weighs(rarity, c.documents, c.ln)
    ensures lengths[i] == |c.documents[i]|
    ensures Normalization(lengths[i], Average(c.documents), c.k1, c.b) >= 0.0
    ensures var frequency := if term in frequencies[i] then frequencies[i][term] else 0;
      TermScore(c, i, term) ==
        if frequency == 0 then 0.0
        else (if term in rarity then rarity[term] else 0.0)
             * Saturation(frequency, Normalization(lengths[i], Average(c.documents), c.k1, c.b), c.k1)
  {
    hide Saturation, Rarity, Normalization;
    NormalizationIsNatural(lengths[i], Average(c.documents), c.k1, c.b);
    CountAbsent(c.documents[i], term);
  }

  method UniqueTerms(query: seq<string>) returns (terms: seq<string>)
    ensures terms == Unique(query)
  {
    terms := [];
    for i := 0 to |query|
      invariant terms == Unique(query[..i])
    {
      assert query[..i + 1][..i] == query[..i];
      if query[i] !in terms { terms := terms + [query[i]]; }
    }
    assert query[..|query|] == query;
  }

  /** Positive scores in document order. */
  function Positive(scores: seq<real>): seq<Hit> {
    if scores == [] then []
    else Positive(scores[..|scores| - 1])
         + if scores[|scores| - 1] > 0.0 then [Hit(|scores| - 1, scores[|scores| - 1])] else []
  }

  method PositiveHits(scores: seq<real>) returns (hits: seq<Hit>)
    ensures hits == Positive(scores)
  {
    hits := [];
    for i := 0 to |scores|
      invariant hits == Positive(scores[..i])
    {
      assert scores[..i + 1][..i] == scores[..i];
      if scores[i] > 0.0 { hits := hits + [Hit(i, scores[i])]; }
    }
    assert scores[..|scores|] == scores;
  }

  function Sorted(hits: seq<Hit>): seq<Hit> {
    if hits == [] then [] else Place(Sorted(hits[..|hits| - 1]), hits[|hits| - 1])
  }

  /** The library sort, as insertion. */
  method SortHits(hits: seq<Hit>) returns (sorted: seq<Hit>)
    ensures sorted == Sorted(hits)
  {
    sorted := [];
    for i := 0 to |hits|
      invariant sorted == Sorted(hits[..i])
    {
      assert hits[..i + 1][..i] == hits[..i];
      sorted := Place(sorted, hits[i]);
    }
    assert hits[..|hits|] == hits;
  }

  lemma {:induction false} SortedIsRanking(scores: seq<real>)
    ensures Sorted(Positive(scores)) == Ranking(scores)
  {
    if scores != [] {
      var some, last := scores[..|scores| - 1], scores[|scores| - 1];
      SortedIsRanking(some);
      if last > 0.0 {
        assert Positive(scores)[..|Positive(some)|] == Positive(some);
      } else {
        assert Positive(scores) == Positive(some);
      }
    }
  }

  /** `counter` counts the terms of `document` and nothing else. */
  ghost predicate Counts(counter: map<string, nat>, document: Document) {
    && (forall term :: term in counter <==> term in document)
    && (forall term :: term in counter ==> counter[term] == Count(document, term) > 0)
  }

  /** `spread` holds the document frequency of every term that occurs. */
  ghost predicate Spreads(spread: map<string, nat>, documents: seq<Document>) {
    && (forall term :: term in spread ==> spread[term] == DocumentFrequency(documents, term) > 0)
    && (forall term :: term !in spread ==> DocumentFrequency(documents, term) == 0)
  }

  method Counter(document: Document) returns (counter: map<string, nat>)
    ensures Counts(counter, document)
  {
    counter := map[];
    for i := 0 to |document|
      invariant Counts(counter, document[..i])
    {
      assert document[..i + 1][..i] == document[..i];
      var term := document[i];
      CountAbsent(document[..i], term);
      counter := counter[term := (if term in counter then counter[term] else 0) + 1];
      assert document[..i + 1] == document[..i] + [term];
    }
    assert document[..|document|] == document;
  }

  lemma {:induction false} CountAbsent(document: Document, term: string)
    ensures Count(document, term) > 0 <==> term in document
  {
    if document != [] {
      CountAbsent(document[..|document| - 1], term);
      assert document == document[..|document| - 1] + [document[|document| - 1]];
    }
  }

  /** One more document: each of its terms is in one more document. */
  method AddDocument(spread: map<string, nat>, counter: map<string, nat>, ghost before: seq<Document>,
                     ghost document: Document)
    returns (r: map<string, nat>)
    requires Spreads(spread, before) && Counts(counter, document)
    ensures Spreads(r, before + [document])
  {
    r := map term | term in spread.Keys + counter.Keys ::
      (if term in spread then spread[term] else 0) + (if term in counter then 1 else 0);
    assert (before + [document])[..|before|] == before;
  }

  lemma {:induction false} FrequencyOfPresent(documents: seq<Document>, i: nat, term: string)
    requires i < |documents| && term in documents[i]
    ensures DocumentFrequency(documents, term) > 0
  {
    if i < |documents| - 1 { FrequencyOfPresent(documents[..|documents| - 1], i, term); }
  }

  lemma SpreadCovers(spread: map<string, nat>, documents: seq<Document>)
    requires Spreads(spread, documents)
    ensures forall i, term :: 0 <= i < |documents| && term in documents[i] ==> term in spread
  {
    forall i, term | 0 <= i < |documents| && term in documents[i] ensures term in spread {
      FrequencyOfPresent(documents, i, term);
    }
  }

  ghost predicate Tabulates(frequencies: seq<map<string, nat>>, lengths: seq<nat>, documents: seq<Document>) {
    && |frequencies| == |lengths| == |documents|
    && (forall i :: 0 <= i < |documents| ==> Counts(frequencies[i], documents[i]) && lengths[i] == |documents[i]|)
  }

  /** `rarity` holds the weight of every term that occurs. */
  ghost predicate Weighs(rarity: map<string, real>, documents: seq<Document>, ln: real -> real) {
    && (forall term :: term in rarity ==>
          rarity[term] == Rarity(|documents|, DocumentFrequency(documents, term), ln))
    && (forall i, term :: 0 <= i < |documents| && term in documents[i] ==> term in rarity)
  }

  /** One pass over the documents. */
  method Statistics(documents: seq<Document>)
    returns (frequencies: seq<map<string, nat>>, lengths: seq<nat>, total: nat, spread: map<string, nat>)
    ensures Tabulates(frequencies, lengths, documents) && total == TotalLength(documents)
    ensures Spreads(spread, documents)
  {
    hide Counts, Spreads;
    frequencies, lengths, total, spread := [], [], 0, map[];
    NothingSpreads();
    for i := 0 to |documents|
      invariant Tabulates(frequencies, lengths, documents[..i]) && total == TotalLength(documents[..i])
      invariant Spreads(spread, documents[..i])
    {
      assert documents[..i + 1][..i] == documents[..i] && documents[..i] + [documents[i]] == documents[..i + 1];
      var counter := Counter(documents[i]);
      frequencies := frequencies + [counter];
      lengths := lengths + [|documents[i]|];
      total := total + |documents[i]|;
      spread := AddDocument(spread, counter, documents[..i], documents[i]);
    }
    assert documents[..|documents|] == documents;
  }

  lemma NothingSpreads()
    ensures Spreads(map[], [])
  {
  }

  method Weights(ghost documents: seq<Document>, count: nat, spread: map<string, nat>, ln: real -> real)
    returns (rarity: map<string, real>)
    requires Spreads(spread, documents) && count == |documents|
    ensures Weighs(rarity, documents, ln)
  {
    SpreadCovers(spread, documents);
    rarity := map term | term in spread ::
      ln(1.0 + ((count as real) - (spread[term] as real) + 0.5) / ((spread[term] as real) + 0.5));
  }

  // ------------------------------------------------------- scores, properties

  lemma {:induction false} UniqueTermsOf(query: seq<string>)
    ensures forall t :: t in Unique(query) <==> t in query
    ensures forall i, j :: 0 <= i < j < |Unique(query)| ==> Unique(query)[i] != Unique(query)[j]
  {
    if query != [] {
      UniqueTermsOf(query[..|query| - 1]);
      assert query == query[..|query| - 1] + [query[|query| - 1]];
    }
  }

  lemma FirstIsIn<T>(xs: seq<T>)
    ensures xs != [] ==> xs[0] in xs
  {
  }

  lemma KeptIn<T>(xs: seq<T>, n: nat, i: nat)
    requires i < |xs|
    ensures i < n <= |xs| ==> xs[i] in xs[..n]
    ensures n > |xs| ==> xs[i] in xs
  {
    assert i < n <= |xs| ==> xs[..n][i] == xs[i];
  }

  /** The score of a sequence of terms without one of them. */
  lemma {:induction false} TakeOut(c: Corpus, i: nat, terms: seq<string>, k: nat)
    requires Sound(c) && i < |c.documents| && Average(c.documents) > 0.0 && k < |terms|
    ensures TermsScore(c, i, terms) == TermsScore(c, i, terms[..k] + terms[k + 1..]) + TermScore(c, i, terms[k])
  {
    hide TermScore;
    var last := |terms| - 1;
    if k == last {
      assert terms[..k] + terms[k + 1..] == terms[..last];
    } else {
      var some := terms[..last];
      TakeOut(c, i, some, k);
      var rest := terms[..k] + terms[k + 1..];
      assert rest[..|rest| - 1] == some[..k] + some[k + 1..] && rest[|rest| - 1] == terms[last];
    }
  }

  ghost predicate Distinct(terms: seq<string>) { forall i, j :: 0 <= i < j < |terms| ==> terms[i] != terms[j] }

  lemma {:induction false} OrderIsIgnored(c: Corpus, i: nat, xs: seq<string>, ys: seq<string>)
    requires Sound(c) && i < |c.documents| && Average(c.documents) > 0.0
    requires Distinct(xs) && Distinct(ys) && forall t :: t in xs <==> t in ys
    ensures TermsScore(c, i, xs) == TermsScore(c, i, ys)
  {
    hide TermScore;
    if xs == [] {
      FirstIsIn(ys);
    } else {
      var last := xs[|xs| - 1];
      assert last in ys;
      var k :| 0 <= k < |ys| && ys[k] == last;
      var rest := ys[..k] + ys[k + 1..];
      TakeOut(c, i, ys, k);
      var some := xs[..|xs| - 1];
      assert xs == some + [last];
      SameOthers(some, ys, k, last);
      OrderIsIgnored(c, i, some, rest);
    }
  }

  lemma SameOthers(some: seq<string>, ys: seq<string>, k: nat, last: string)
    requires Distinct(some + [last]) && Distinct(ys) && k < |ys| && ys[k] == last
    requires forall t :: t in some + [last] <==> t in ys
    ensures Distinct(some) && Distinct(ys[..k] + ys[k + 1..])
    ensures forall t :: t in some <==> t in ys[..k] + ys[k + 1..]
  {
    var xs, rest := some + [last], ys[..k] + ys[k + 1..];
    forall t | t in some ensures t in rest {
      var i :| 0 <= i < |some| && some[i] == t;
      assert xs[i] == t && xs[|some|] == last && t in xs;
      var j :| 0 <= j < |ys| && ys[j] == t;
      assert rest[if j < k then j else j - 1] == t;
    }
    forall t | t in rest ensures t in some {
      var j :| 0 <= j < |rest| && rest[j] == t;
      assert ys[if j < k then j else j + 1] == t && t in xs;
    }
    forall i, j | 0 <= i < j < |some| ensures some[i] != some[j] { assert xs[i] == some[i] && xs[j] == some[j]; }
    forall i, j | 0 <= i < j < |rest| ensures rest[i] != rest[j] {
      assert rest[i] == ys[if i < k then i else i + 1] && rest[j] == ys[if j < k then j else j + 1];
    }
  }

  /** A score depends on the set of the query terms alone: repeating or reordering them changes nothing. */
  lemma RepeatedTermsAreIgnored(c: Corpus, i: nat, query: seq<string>, other: seq<string>)
    requires Sound(c) && i < |c.documents| && forall t :: t in query <==> t in other
    ensures Score(c, i, query) == Score(c, i, other)
  {
    if Average(c.documents) > 0.0 {
      UniqueTermsOf(query);
      UniqueTermsOf(other);
      OrderIsIgnored(c, i, Unique(query), Unique(other));
    }
  }

  lemma RarityIsPositive(count: nat, frequency: nat, ln: real -> real)
    requires frequency <= count && LogLike(ln)
    ensures Rarity(count, frequency, ln) > 0.0
  {
    var numerator, denominator := (count as real) - (frequency as real) + 0.5, (frequency as real) + 0.5;
    assert numerator > 0.0 && denominator > 0.0;
    assert numerator / denominator > 0.0;
    assert 1.0 + numerator / denominator > 1.0;
  }

  lemma SaturationIsPositive(frequency: nat, normalization: real, k1: real)
    requires frequency > 0 && normalization >= 0.0 && k1 > 0.0
    ensures Saturation(frequency, normalization, k1) > 0.0
  {
    var x, y := (frequency as real) * (k1 + 1.0), (frequency as real) + normalization;
    assert x > 0.0 && y > 0.0;
    assert x / y > 0.0;
  }

  lemma ProductIsPositive(x: real, y: real)
    requires x > 0.0 && y > 0.0
    ensures x * y > 0.0
  {
  }

  lemma TermScoreSign(c: Corpus, i: nat, term: string)
    requires Sound(c) && i < |c.documents| && Average(c.documents) > 0.0 && LogLike(c.ln)
    ensures if term in c.documents[i] then TermScore(c, i, term) > 0.0 else TermScore(c, i, term) == 0.0
  {
    hide Rarity, Saturation, Normalization, LogLike;
    var document := c.documents[i];
    CountAbsent(document, term);
    if term in document {
      NormalizationIsNatural(|document|, Average(c.documents), c.k1, c.b);
      var normalization := Normalization(|document|, Average(c.documents), c.k1, c.b);
      var frequency := DocumentFrequency(c.documents, term);
      RarityIsPositive(|c.documents|, frequency, c.ln);
      SaturationIsPositive(Count(document, term), normalization, c.k1);
      ProductIsPositive(Rarity(|c.documents|, frequency, c.ln), Saturation(Count(document, term), normalization, c.k1));
    }
  }

  lemma {:induction false} TermsScoreSign(c: Corpus, i: nat, terms: seq<string>)
    requires Sound(c) && i < |c.documents| && Average(c.documents) > 0.0 && LogLike(c.ln)
    ensures TermsScore(c, i, terms) >= 0.0
    ensures TermsScore(c, i, terms) > 0.0 <==> exists t :: t in terms && t in c.documents[i]
  {
    hide TermScore, LogLike;
    if terms != [] {
      var some, last := terms[..|terms| - 1], terms[|terms| - 1];
      TermsScoreSign(c, i, some);
      TermScoreSign(c, i, last);
      assert terms == some + [last];
    }
  }

  lemma {:induction false} LongerThanNothing(documents: seq<Document>, i: nat)
    requires i < |documents| && documents[i] != []
    ensures TotalLength(documents) > 0
  {
    if i < |documents| - 1 { LongerThanNothing(documents[..|documents| - 1], i); }
  }

  /** A score is never negative, and it is positive exactly when the document shares a term with the query. */
  lemma PositiveIffSharesATerm(c: Corpus, i: nat, query: seq<string>)
    requires Sound(c) && i < |c.documents| && LogLike(c.ln)
    ensures Score(c, i, query) >= 0.0
    ensures Score(c, i, query) > 0.0 <==> exists t :: t in query && t in c.documents[i]
  {
    hide TermsScore, Unique, LogLike;
    UniqueTermsOf(query);
    if Average(c.documents) > 0.0 {
      TermsScoreSign(c, i, Unique(query));
    } else if c.documents[i] != [] {
      LongerThanNothing(c.documents, i);
      AverageIsPositive(c.documents);
    }
  }

  lemma AverageIsPositive(documents: seq<Document>)
    requires documents != [] && TotalLength(documents) > 0
    ensures Average(documents) > 0.0
  {
    var x, y := TotalLength(documents) as real, |documents| as real;
    assert x > 0.0 && y > 0.0;
    assert x / y > 0.0;
  }

  // ------------------------------------------------------ ranking, properties

  lemma {:induction false} PlaceMembers(hits: seq<Hit>, hit: Hit)
    ensures forall x :: x in Place(hits, hit) <==> x in hits || x == hit
  {
    if hits == [] || Ahead(hits[|hits| - 1], hit) {
    } else {
      assert hits == hits[..|hits| - 1] + [hits[|hits| - 1]];
      PlaceMembers(hits[..|hits| - 1], hit);
    }
  }

  lemma OrderedMore(hits: seq<Hit>, last: Hit)
    requires Ordered(hits) && forall x :: x in hits ==> Ahead(x, last)
    ensures Ordered(hits + [last])
  {
  }

  lemma OrderedLast(hits: seq<Hit>, last: Hit)
    requires Ordered(hits + [last])
    ensures Ordered(hits) && forall x :: x in hits ==> Ahead(x, last)
  {
    var all := hits + [last];
    assert forall i :: 0 <= i < |hits| ==> all[i] == hits[i];
    forall x | x in hits ensures Ahead(x, last) {
      var i :| 0 <= i < |hits| && hits[i] == x;
      assert all[i] == x && all[|hits|] == last;
    }
  }

  lemma {:induction false} PlaceKeeps(hits: seq<Hit>, hit: Hit)
    requires Ordered(hits) && forall x :: x in hits ==> x.index != hit.index
    ensures Ordered(Place(hits, hit)) && forall x :: x in Place(hits, hit) <==> x in hits || x == hit
  {
    hide Ordered;
    PlaceMembers(hits, hit);
    if hits == [] {
      NothingOrdered();
      OrderedMore([], hit);
    } else {
      var some, last := hits[..|hits| - 1], hits[|hits| - 1];
      assert hits == some + [last];
      OrderedLast(some, last);
      if Ahead(last, hit) {
        OrderedMore(hits, hit);
      } else {
        PlaceKeeps(some, hit);
        OrderedMore(Place(some, hit), last);
      }
    }
  }

  lemma NothingOrdered()
    ensures Ordered([])
  {
  }

  /** The ranking holds every document with a positive score and no other, in strict order. */
  lemma {:induction false} RankingIsComplete(scores: seq<real>)
    ensures Ordered(Ranking(scores))
    ensures forall x :: x in Ranking(scores) <==> x.index < |scores| && x.score == scores[x.index] && x.score > 0.0
  {
    if scores != [] {
      var some, last := scores[..|scores| - 1], scores[|scores| - 1];
      RankingIsComplete(some);
      if last > 0.0 { PlaceKeeps(Ranking(some), Hit(|some|, last)); }
    }
  }

  /** Strict order leaves one arrangement of a set of hits. */
  lemma {:induction false} OrderedIsUnique(xs: seq<Hit>, ys: seq<Hit>)
    requires Ordered(xs) && Ordered(ys) && forall x :: x in xs <==> x in ys
    ensures xs == ys
  {
    if xs == [] {
      FirstIsIn(ys);
    } else if ys == [] {
      FirstIsIn(xs);
    } else {
      FirstIsSame(xs, ys);
      RestIsSame(xs, ys);
      OrderedIsUnique(xs[1..], ys[1..]);
    }
  }

  lemma FirstIsSame(xs: seq<Hit>, ys: seq<Hit>)
    requires xs != [] && ys != [] && Ordered(xs) && Ordered(ys) && forall x :: x in xs <==> x in ys
    ensures xs[0] == ys[0]
  {
    assert xs[0] in ys && ys[0] in xs;
    var i :| 0 <= i < |ys| && ys[i] == xs[0];
    var j :| 0 <= j < |xs| && xs[j] == ys[0];
  }

  lemma RestIsSame(xs: seq<Hit>, ys: seq<Hit>)
    requires xs != [] && ys != [] && Ordered(xs) && Ordered(ys) && (forall x :: x in xs <==> x in ys) && xs[0] == ys[0]
    ensures Ordered(xs[1..]) && Ordered(ys[1..]) && forall x :: x in xs[1..] <==> x in ys[1..]
  {
    RestWithoutFirst(xs);
    RestWithoutFirst(ys);
  }

  lemma RestWithoutFirst(xs: seq<Hit>)
    requires xs != [] && Ordered(xs)
    ensures forall x :: x in xs[1..] <==> x in xs && x != xs[0]
  {
    forall x | x in xs[1..] ensures x in xs && x != xs[0] {
      var i :| 0 <= i < |xs[1..]| && xs[1..][i] == x;
      assert Ahead(xs[0], xs[i + 1]);
    }
    forall x | x in xs && x != xs[0] ensures x in xs[1..] {
      var i :| 0 <= i < |xs| && xs[i] == x;
      assert xs[1..][i - 1] == x;
    }
  }

  /** The best `limit` documents: strictly ordered, all with positive scores, as many as there are up to the limit,
      every positive document left out ranks behind all of them, and a larger limit only extends the list. */
  lemma BestAreFirst(scores: seq<real>, limit: nat)
    ensures var best := Best(scores, limit);
      && Ordered(best) && |best| <= limit
      && (forall x :: x in best ==> x.index < |scores| && x.score == scores[x.index] > 0.0)
      && (forall i :: 0 <= i < |scores| && scores[i] > 0.0 && Hit(i, scores[i]) !in best ==>
            |best| == limit && forall x :: x in best ==> Ahead(x, Hit(i, scores[i])))
      && best <= Best(scores, limit + 1)
  {
    hide Ranking;
    RankingIsComplete(scores);
    var all, best := Ranking(scores), Best(scores, limit);
    forall i | 0 <= i < |scores| && scores[i] > 0.0 && Hit(i, scores[i]) !in best
      ensures |best| == limit && forall x :: x in best ==> Ahead(x, Hit(i, scores[i]))
    {
      var h := Hit(i, scores[i]);
      assert h in all;
      var j :| 0 <= j < |all| && all[j] == h;
      KeptIn(all, limit, j);
    }
  }
}
