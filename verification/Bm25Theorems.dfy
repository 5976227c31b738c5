/** What the score means: the Okapi formula over plain counts, and what makes a document rank higher. */
module Bm25Theorems {
  import opened Options
  import opened Bm25

  // -------------------------------------------------------------- plain counts

  /** The places of a term in a document. */
  function Places(document: Document, term: string): set<nat> {
    set k: nat | k < |document| && document[k] == term
  }

  /** The documents with a term. */
  function Holders(documents: seq<Document>, term: string): set<nat> {
    set i: nat | i < |documents| && term in documents[i]
  }

  /** All places of all documents. */
  function Everything(documents: seq<Document>): set<(nat, nat)> {
    set i: nat, k: nat | i < |documents| && k < |documents[i]| :: (i, k)
  }

  lemma {:induction false} CountIsPlaces(document: Document, term: string)
    ensures Count(document, term) == |Places(document, term)|
  {
    if document == [] {
      assert Places(document, term) == {};
    } else {
      var front, n := document[..|document| - 1], |document| - 1;
      CountIsPlaces(front, term);
      assert Places(document, term) == Places(front, term) + if document[n] == term then {n} else {};
    }
  }

  lemma {:induction false} FrequencyIsHolders(documents: seq<Document>, term: string)
    ensures DocumentFrequency(documents, term) == |Holders(documents, term)|
  {
    if documents == [] {
      assert Holders(documents, term) == {};
    } else {
      var front, n := documents[..|documents| - 1], |documents| - 1;
      FrequencyIsHolders(front, term);
      assert Holders(documents, term) == Holders(front, term) + if term in documents[n] then {n} else {};
    }
  }

  /** The places of one document, as places of all. */
  function Row(n: nat, length: nat): set<(nat, nat)> { set k: nat | k < length :: (n, k) }

  lemma {:induction false} RowSize(n: nat, length: nat)
    ensures |Row(n, length)| == length
  {
    if length == 0 {
      assert Row(n, length) == {};
    } else {
      RowSize(n, length - 1);
      assert Row(n, length) == Row(n, length - 1) + {(n, length - 1)};
    }
  }

  lemma {:induction false} TotalIsEverything(documents: seq<Document>)
    ensures TotalLength(documents) == |Everything(documents)|
  {
    if documents == [] {
      assert Everything(documents) == {};
    } else {
      var front, n := documents[..|documents| - 1], |documents| - 1;
      TotalIsEverything(front);
      RowSize(n, |documents[n]|);
      assert Everything(documents) == Everything(front) + Row(n, |documents[n]|);
      assert Everything(front) !! Row(n, |documents[n]|);
    }
  }

  // ---------------------------------------------------------------- the formula

  /** The share of a term in a document, written out over plain counts. */
  function Okapi(c: Corpus, i: nat, term: string): real
    requires Sound(c) && i < |c.documents| && |Everything(c.documents)| > 0
  {
    var count, held := |c.documents| as real, |Holders(c.documents, term)| as real;
    var found, length := |Places(c.documents[i], term)| as real, |c.documents[i]| as real;
    var average := (|Everything(c.documents)| as real) / count;
    if found == 0.0 then 0.0
    else
      var damping := c.k1 * (1.0 - c.b + c.b * (length / average));
      if found + damping == 0.0 then 0.0
      else c.ln(1.0 + (count - held + 0.5) / (held + 0.5)) * (found * (c.k1 + 1.0) / (found + damping))
  }

  /** Every share is the Okapi share. */
  lemma TermScoreIsOkapi(c: Corpus, i: nat, term: string)
    requires Sound(c) && i < |c.documents| && |Everything(c.documents)| > 0
    ensures Average(c.documents) > 0.0 && TermScore(c, i, term) == Okapi(c, i, term)
  {
    hide Places, Holders, Everything, Count, DocumentFrequency, TotalLength;
    CountIsPlaces(c.documents[i], term);
    FrequencyIsHolders(c.documents, term);
    TotalIsEverything(c.documents);
    AverageIsPositive(c.documents);
    if Count(c.documents[i], term) > 0 { NormalizationIsNatural(|c.documents[i]|, Average(c.documents), c.k1, c.b); }
  }

  /** A score is the sum of the shares of the different terms of the query: a term adds its share the first time. */
  lemma ScoreAddsShares(c: Corpus, i: nat, query: seq<string>, term: string)
    requires Sound(c) && i < |c.documents| && Average(c.documents) > 0.0
    ensures Score(c, i, []) == 0.0
    ensures Score(c, i, query + [term])
         == Score(c, i, query) + if term in query then 0.0 else TermScore(c, i, term)
  {
    hide TermScore, Average;
    UniqueTermsOf(query);
    assert (query + [term])[..|query|] == query;
    var before := Unique(query);
    if term !in before { assert (before + [term])[..|before|] == before; }
  }

  // ------------------------------------------------------------- what ranks higher

  ghost predicate Increasing(ln: real -> real) { forall x: real, y: real :: 1.0 < x < y ==> ln(x) < ln(y) }

  lemma PositiveFactor(d: real, x: real)
    requires d * x > 0.0 && x > 0.0
    ensures d > 0.0
  {
  }

  lemma DivideByMore(a: real, x: real, y: real)
    requires a > 0.0 && 0.0 < x < y
    ensures a / x > a / y > 0.0
  {
    var p, q := a / x, a / y;
    assert p * x == a && q * y == a;
    ProductIsPositive(q, y - x);
    assert (p - q) * x == q * (y - x);
    PositiveFactor(p - q, x);
  }

  lemma AddQuotients(a: real, b: real, d: real)
    requires d > 0.0
    ensures a / d + b / d == (a + b) / d
  {
  }

  lemma TimesMore(a: real, x: real, y: real)
    requires a > 0.0 && x > y
    ensures a * x > a * y
  {
  }

  lemma RarityArgument(count: nat, frequency: nat)
    requires frequency <= count
    ensures 1.0 + ((count as real) - (frequency as real) + 0.5) / ((frequency as real) + 0.5)
         == ((count as real) + 1.0) / ((frequency as real) + 0.5)
  {
    var d := (frequency as real) + 0.5;
    AddQuotients(d, (count as real) - (frequency as real) + 0.5, d);
    assert d / d == 1.0;
  }

  lemma RarityFalls(count: nat, few: nat, many: nat, ln: real -> real)
    requires few < many <= count && Increasing(ln)
    ensures Rarity(count, few, ln) > Rarity(count, many, ln)
  {
    RarityArgument(count, few);
    RarityArgument(count, many);
    var n := (count as real) + 1.0;
    DivideByMore(n, (few as real) + 0.5, (many as real) + 0.5);
    DivideByMore(n, (many as real) + 0.5, n);
  }

  /** Of two terms as frequent in documents of one length, the one in fewer documents has the greater share. */
  lemma RarerTermsWeighMore(c: Corpus, i: nat, x: string, j: nat, y: string)
    requires Sound(c) && LogLike(c.ln) && Increasing(c.ln) && i < |c.documents| && j < |c.documents|
    requires Average(c.documents) > 0.0 && |c.documents[i]| == |c.documents[j]|
    requires |Places(c.documents[i], x)| == |Places(c.documents[j], y)| > 0
    requires |Holders(c.documents, x)| < |Holders(c.documents, y)|
    ensures TermScore(c, i, x) > TermScore(c, j, y)
  {
    hide Rarity, Saturation, Normalization, Average, Count, DocumentFrequency;
    CountIsPlaces(c.documents[i], x);
    CountIsPlaces(c.documents[j], y);
    FrequencyIsHolders(c.documents, x);
    FrequencyIsHolders(c.documents, y);
    var f, n := Count(c.documents[i], x), |c.documents|;
    NormalizationIsNatural(|c.documents[i]|, Average(c.documents), c.k1, c.b);
    var s := Saturation(f, Normalization(|c.documents[i]|, Average(c.documents), c.k1, c.b), c.k1);
    SaturationIsPositive(f, Normalization(|c.documents[i]|, Average(c.documents), c.k1, c.b), c.k1);
    RarityFalls(n, DocumentFrequency(c.documents, x), DocumentFrequency(c.documents, y), c.ln);
    TimesMore(s, Rarity(n, DocumentFrequency(c.documents, x), c.ln), Rarity(n, DocumentFrequency(c.documents, y), c.ln));
  }

  lemma NormalizationIsPositive(length: nat, average: real, k1: real, b: real)
    requires average > 0.0 && k1 > 0.0 && 0.0 <= b <= 1.0 && length > 0
    ensures Normalization(length, average, k1, b) > 0.0
  {
    var ratio := (length as real) / average;
    assert ratio > 0.0;
    if b > 0.0 { ProductIsPositive(b, ratio); }
    ProductIsPositive(k1, 1.0 - b + b * ratio);
  }

  lemma NormalizationGrows(short: nat, long: nat, average: real, k1: real, b: real)
    requires average > 0.0 && k1 > 0.0 && 0.0 <= b <= 1.0 && short < long
    ensures Normalization(short, average, k1, b) <= Normalization(long, average, k1, b)
    ensures b > 0.0 ==> Normalization(short, average, k1, b) < Normalization(long, average, k1, b)
  {
    var x, y := (short as real) / average, (long as real) / average;
    assert x * average == short as real && y * average == long as real;
    assert x < y;
    if b > 0.0 {
      TimesMore(b, y, x);
      TimesMore(k1, 1.0 - b + b * y, 1.0 - b + b * x);
    }
  }

  lemma SaturationGrows(few: nat, many: nat, normalization: real, k1: real)
    requires 0 < few < many && normalization > 0.0 && k1 > 0.0
    ensures Saturation(few, normalization, k1) < Saturation(many, normalization, k1)
  {
    var x, y, n, k := few as real, many as real, normalization, k1 + 1.0;
    assert x * k / (x + n) == k - k * n / (x + n);
    assert y * k / (y + n) == k - k * n / (y + n);
    DivideByMore(k * n, x + n, y + n);
  }

  lemma SaturationFalls(frequency: nat, light: real, heavy: real, k1: real)
    requires frequency > 0 && 0.0 <= light < heavy && k1 > 0.0
    ensures Saturation(frequency, light, k1) > Saturation(frequency, heavy, k1)
  {
    var f := frequency as real;
    DivideByMore(f * (k1 + 1.0), f + light, f + heavy);
  }

  /** Of two documents of one length, the one with more occurrences of a term has the greater share of it. */
  lemma MoreOccurrencesScoreMore(c: Corpus, i: nat, j: nat, term: string)
    requires Sound(c) && LogLike(c.ln) && i < |c.documents| && j < |c.documents| && Average(c.documents) > 0.0
    requires |c.documents[i]| == |c.documents[j]|
    requires |Places(c.documents[i], term)| < |Places(c.documents[j], term)|
    ensures TermScore(c, i, term) < TermScore(c, j, term)
  {
    CountIsPlaces(c.documents[i], term);
    CountIsPlaces(c.documents[j], term);
    CountAbsent(c.documents[j], term);
    TermScoreSign(c, j, term);
    if Count(c.documents[i], term) > 0 {
      SharesGrow(c, i, j, term);
    }
  }

  lemma SharesGrow(c: Corpus, i: nat, j: nat, term: string)
    requires Sound(c) && LogLike(c.ln) && i < |c.documents| && j < |c.documents| && Average(c.documents) > 0.0
    requires |c.documents[i]| == |c.documents[j]|
    requires 0 < Count(c.documents[i], term) < Count(c.documents[j], term)
    ensures TermScore(c, i, term) < TermScore(c, j, term)
  {
    hide Average, Count, DocumentFrequency, Rarity, Saturation, Normalization;
    var x, y := Count(c.documents[i], term), Count(c.documents[j], term);
    SomeLength(c.documents[i], term);
    var n := Normalization(|c.documents[i]|, Average(c.documents), c.k1, c.b);
    NormalizationIsPositive(|c.documents[i]|, Average(c.documents), c.k1, c.b);
    SaturationGrows(x, y, n, c.k1);
    RarityIsPositive(|c.documents|, DocumentFrequency(c.documents, term), c.ln);
    TimesMore(Rarity(|c.documents|, DocumentFrequency(c.documents, term), c.ln), Saturation(y, n, c.k1),
              Saturation(x, n, c.k1));
  }

  lemma SomeLength(document: Document, term: string)
    requires Count(document, term) > 0
    ensures |document| > 0
  {
  }

  /** Of two documents with as many occurrences of a term, the shorter one has no smaller share of it, and a greater
      one when length counts at all. */
  lemma ShorterDocumentsScoreMore(c: Corpus, i: nat, j: nat, term: string)
    requires Sound(c) && LogLike(c.ln) && i < |c.documents| && j < |c.documents| && Average(c.documents) > 0.0
    requires |c.documents[i]| < |c.documents[j]|
    requires |Places(c.documents[i], term)| == |Places(c.documents[j], term)| > 0
    ensures TermScore(c, i, term) >= TermScore(c, j, term)
    ensures c.b > 0.0 ==> TermScore(c, i, term) > TermScore(c, j, term)
  {
    CountIsPlaces(c.documents[i], term);
    CountIsPlaces(c.documents[j], term);
    SharesFall(c, i, j, term);
  }

  lemma SharesFall(c: Corpus, i: nat, j: nat, term: string)
    requires Sound(c) && LogLike(c.ln) && i < |c.documents| && j < |c.documents| && Average(c.documents) > 0.0
    requires |c.documents[i]| < |c.documents[j]| && 0 < Count(c.documents[i], term) == Count(c.documents[j], term)
    ensures TermScore(c, i, term) >= TermScore(c, j, term)
    ensures c.b > 0.0 ==> TermScore(c, i, term) > TermScore(c, j, term)
  {
    hide Average, Count, DocumentFrequency, Rarity, Saturation, Normalization;
    var f, a := Count(c.documents[i], term), Average(c.documents);
    NormalizationGrows(|c.documents[i]|, |c.documents[j]|, a, c.k1, c.b);
    NormalizationIsNatural(|c.documents[i]|, a, c.k1, c.b);
    var light, heavy := Normalization(|c.documents[i]|, a, c.k1, c.b), Normalization(|c.documents[j]|, a, c.k1, c.b);
    if light < heavy {
      SaturationFalls(f, light, heavy, c.k1);
      RarityIsPositive(|c.documents|, DocumentFrequency(c.documents, term), c.ln);
      TimesMore(Rarity(|c.documents|, DocumentFrequency(c.documents, term), c.ln), Saturation(f, light, c.k1),
                Saturation(f, heavy, c.k1));
    }
  }

  // ------------------------------------------------------------------ the list

  /** The list for a query by its scores alone: higher scores first, equal scores in the order of the documents, every
      listed document with its own positive score and listed once; and a positive document is left out only when the
      list is full of documents that score more, or as much and come earlier. */
  lemma ListIsByScore(scores: seq<real>, limit: nat)
    ensures var best := Best(scores, limit);
      && |best| <= limit
      && (forall i :: 0 <= i < |best| ==>
            best[i].index < |scores| && best[i].score == scores[best[i].index] && best[i].score > 0.0)
      && (forall i, j :: 0 <= i < j < |best| ==>
            best[i].score > best[j].score || (best[i].score == best[j].score && best[i].index < best[j].index))
      && (forall d: nat :: d < |scores| && scores[d] > 0.0 && (forall i :: 0 <= i < |best| ==> best[i].index != d) ==>
            |best| == limit
            && forall i :: 0 <= i < |best| ==>
                 best[i].score > scores[d] || (best[i].score == scores[d] && best[i].index < d))
  {
    hide Best;
    BestAreFirst(scores, limit);
    var best := Best(scores, limit);
    forall i | 0 <= i < |best|
      ensures best[i].index < |scores| && best[i].score == scores[best[i].index] && best[i].score > 0.0
    {
      assert best[i] in best;
    }
    forall d: nat | d < |scores| && scores[d] > 0.0 && (forall i :: 0 <= i < |best| ==> best[i].index != d)
      ensures |best| == limit
      ensures forall i :: 0 <= i < |best| ==>
                best[i].score > scores[d] || (best[i].score == scores[d] && best[i].index < d)
    {
      assert Hit(d, scores[d]) !in best;
      forall i | 0 <= i < |best|
        ensures best[i].score > scores[d] || (best[i].score == scores[d] && best[i].index < d)
      {
        assert Ahead(best[i], Hit(d, scores[d]));
      }
    }
  }
}
