/** The two retrieval strategies: keyword_overlap.py and bm25.py under crewos/retrieval/strategies. */
module Retrievers {
  import opened Wrappers
  import opened Chunking
  import opened Evidence
  import opened Ranking

  // ------------------------------------------------------------------ common

  function TermSet(words: Tokenizer, text: string): set<string> {
    set w | w in words(text)
  }

  function ToPassage(c: Candidate): Passage {
    Passage(c.document.documentId, c.document.version, c.document.document.title, c.document.document.sourceRef, c.chunk)
  }

  function ToPassages(cs: seq<Candidate>): seq<Passage> {
    seq(|cs|, i requires 0 <= i < |cs| => ToPassage(cs[i]))
  }

  function Locations(cs: seq<Candidate>): seq<Located> {
    seq(|cs|, i requires 0 <= i < |cs| => Located(cs[i].document, cs[i].chunk))
  }

  function OutputSize(cs: seq<Candidate>): nat {
    if cs == [] then 0 else OutputSize(cs[..|cs| - 1]) + |cs[|cs| - 1].chunk.text|
  }

  predicate OwnDocuments(documents: seq<StoredVersion>, tenant: TenantId) {
    forall i :: 0 <= i < |documents| ==> documents[i].tenant == tenant
  }

  /** What a strategy returns for a scoring rule: the best k passages, or the first refusal that applies. */
  predicate Answers(
    r: Result<seq<Passage>, RetrievalError>, score: Located -> real, documents: seq<StoredVersion>,
    tenant: TenantId, k: nat, maxOutput: nat)
  {
    var selected := TopK(score, documents, k);
    if !OwnDocuments(documents, tenant) then r == Failure(ForeignTenant)
    else if OutputSize(selected) > maxOutput then r == Failure(OutputCapacity)
    else if !DistinctSources(ToPassages(selected)) then r == Failure(DuplicateSource)
    else r == Success(ToPassages(selected))
  }

  /** On a reader's corpus the result shape rule never fires. */
  lemma CorpusHasNoDuplicateSource(score: Located -> real, documents: seq<StoredVersion>, k: nat)
    requires Corpus(documents)
    ensures DistinctSources(ToPassages(TopK(score, documents, k)))
  {
    CorpusLocations(documents);
    CandidatesDistinct(score, Passages(documents));
    SortDistinct(Candidates(score, Passages(documents)));
    var top := TopK(score, documents, k);
    forall i, j | 0 <= i < j < |top|
      ensures SourceKey(ToPassages(top)[i]) != SourceKey(ToPassages(top)[j])
    {
      assert Identity(top[i]) != Identity(top[j]);
    }
  }

  /** The passages ps of these documents, returned as r: only matches, best scores first, and no better match left out. */
  predicate BestFirst(score: Located -> real, documents: seq<StoredVersion>, k: nat, ps: seq<Located>, r: seq<Passage>) {
    && |r| == |ps| <= k
    && (forall i :: 0 <= i < |ps| ==>
      && ps[i] in Passages(documents) && score(ps[i]) > 0.0
      && r[i].documentId == ps[i].document.documentId && r[i].version == ps[i].document.version && r[i].chunk == ps[i].chunk
      && r[i].title == ps[i].document.document.title && r[i].sourceRef == ps[i].document.document.sourceRef)
    && (forall i, j :: 0 <= i < j < |ps| ==> score(ps[i]) >= score(ps[j]))
    && (forall i, j :: 0 <= i < j < |ps| && score(ps[i]) == score(ps[j]) ==>
      || r[i].documentId < r[j].documentId
      || (r[i].documentId == r[j].documentId && r[i].version < r[j].version)
      || (r[i].documentId == r[j].documentId && r[i].version == r[j].version && r[i].chunk.index < r[j].chunk.index))
    && (forall q :: q in Passages(documents) && score(q) > 0.0 && q !in ps ==>
      |ps| == k && forall i :: 0 <= i < |ps| ==> score(q) <= score(ps[i]))
  }

  /** An answer over a reader's corpus is the best of all its passages by score. */
  lemma AnswersAreBest(r: Result<seq<Passage>, RetrievalError>, score: Located -> real, documents: seq<StoredVersion>,
    tenant: TenantId, k: nat, maxOutput: nat)
    requires Corpus(documents) && Answers(r, score, documents, tenant, k, maxOutput) && r.Success?
    ensures exists ps: seq<Located> :: BestFirst(score, documents, k, ps, r.value)
  {
    var top := TopK(score, documents, k);
    var ps := Locations(top);
    var all := Candidates(score, Passages(documents));
    TopKByScore(score, documents, k);
    forall i | 0 <= i < |top|
      ensures ps[i] in Passages(documents) && top[i].score == score(ps[i]) > 0.0
    {
      SelectedIsCandidate(score, documents, k, i);
      CandidateOrigin(score, Passages(documents), top[i]);
    }
    forall q | q in Passages(documents) && score(q) > 0.0 && q !in ps
      ensures |ps| == k && forall i :: 0 <= i < |ps| ==> score(q) <= score(ps[i])
    {
      var c := Candidate(score(q), q.document, q.chunk);
      CandidateOrigin(score, Passages(documents), c);
    }
    assert BestFirst(score, documents, k, ps, r.value);
  }

  /** Over a reader's corpus of the tenant's own documents, the only refusal is for more text than was asked for. */
  lemma RefusedForSizeOnly(r: Result<seq<Passage>, RetrievalError>, score: Located -> real, documents: seq<StoredVersion>,
    tenant: TenantId, k: nat, maxOutput: nat)
    requires Corpus(documents) && (forall d :: d in documents ==> d.tenant == tenant)
    requires Answers(r, score, documents, tenant, k, maxOutput)
    ensures r.Failure? <==> maxOutput < TextSize(ToPassages(TopK(score, documents, k)))
    ensures r.Failure? ==> r.error == OutputCapacity
    ensures r.Success? ==> TextSize(r.value) <= maxOutput
  {
    CorpusHasNoDuplicateSource(score, documents, k);
    SizeOfPassages(TopK(score, documents, k));
  }

  /** The characters of text in an answer. */
  function TextSize(passages: seq<Passage>): nat {
    if passages == [] then 0 else |passages[0].chunk.text| + TextSize(passages[1..])
  }

  lemma {:induction false} TextSizeSnoc(passages: seq<Passage>, p: Passage)
    ensures TextSize(passages + [p]) == TextSize(passages) + |p.chunk.text|
  {
    if passages == [] {
      assert (passages + [p])[1..] == [];
    } else {
      TextSizeSnoc(passages[1..], p);
      assert (passages + [p])[1..] == passages[1..] + [p];
    }
  }

  lemma {:induction false} SizeOfPassages(cs: seq<Candidate>)
    ensures OutputSize(cs) == TextSize(ToPassages(cs))
  {
    if cs == [] {
    } else {
      var n := |cs| - 1;
      SizeOfPassages(cs[..n]);
      TextSizeSnoc(ToPassages(cs[..n]), ToPassage(cs[n]));
      assert ToPassages(cs) == ToPassages(cs[..n]) + [ToPassage(cs[n])];
    }
  }

  lemma SelectedIsCandidate(score: Located -> real, documents: seq<StoredVersion>, k: nat, i: nat)
    requires i < |TopK(score, documents, k)|
    ensures TopK(score, documents, k)[i] in Candidates(score, Passages(documents))
  {
    var all := Candidates(score, Passages(documents));
    SortOrdered(all);
    SameMembers(Sort(all), all, Sort(all)[i]);
  }

  /** Reading the same documents in any order gives the same answer. */
  lemma AnswersCanonical(
    r: Result<seq<Passage>, RetrievalError>, q: Result<seq<Passage>, RetrievalError>, score: Located -> real,
    a: seq<StoredVersion>, b: seq<StoredVersion>, tenant: TenantId, k: nat, maxOutput: nat)
    requires multiset(a) == multiset(b) && Corpus(a) && Corpus(b)
    requires Answers(r, score, a, tenant, k, maxOutput) && Answers(q, score, b, tenant, k, maxOutput)
    ensures r == q
  {
    TopKCanonical(score, a, b, k);
    OwnPermuted(a, b, tenant);
  }

  lemma OwnPermuted(a: seq<StoredVersion>, b: seq<StoredVersion>, tenant: TenantId)
    requires multiset(a) == multiset(b)
    ensures OwnDocuments(a, tenant) == OwnDocuments(b, tenant)
  {
    assert forall d :: d in a <==> d in multiset(a);
    assert forall d :: d in b <==> d in multiset(b);
    assert OwnDocuments(a, tenant) <==> forall d :: d in a ==> d.tenant == tenant;
    assert OwnDocuments(b, tenant) <==> forall d :: d in b ==> d.tenant == tenant;
  }

  // --------------------------------------------------------- keyword overlap

  function KeywordScore(words: Tokenizer, terms: set<string>): Located -> real {
    (p: Located) => |terms * TermSet(words, p.chunk.text)| as real
  }

  /** One more document read: its passages join, and it has to be the tenant's. */
  lemma ReadNext(documents: seq<StoredVersion>, i: nat, tenant: TenantId)
    requires i < |documents|
    ensures Passages(documents[..i + 1]) ==
      Passages(documents[..i]) + DocumentPassages(documents[i], |documents[i].chunks|)
    ensures OwnDocuments(documents[..i + 1], tenant) <==>
      OwnDocuments(documents[..i], tenant) && documents[i].tenant == tenant
    ensures documents[i].tenant != tenant ==> !OwnDocuments(documents, tenant)
  {
    var longer := documents[..i + 1];
    assert longer[..|longer| - 1] == documents[..i] && longer[|longer| - 1] == documents[i];
    if OwnDocuments(longer, tenant) {
      forall n | 0 <= n < i
        ensures documents[..i][n].tenant == tenant
      {
        assert longer[n] == documents[..i][n];
      }
    }
  }

  method KeywordSearch(
    words: Tokenizer, documents: seq<StoredVersion>, query: string, tenant: TenantId, k: nat, maxOutput: nat)
    returns (r: Result<seq<Passage>, RetrievalError>)
    ensures TermSet(words, query) == {} ==> r == Success([])
    ensures TermSet(words, query) != {} ==>
      Answers(r, KeywordScore(words, TermSet(words, query)), documents, tenant, k, maxOutput)
    ensures TermSet(words, query) != {} && Corpus(documents) && r.Success? ==>
      exists ps: seq<Located> :: BestFirst(KeywordScore(words, TermSet(words, query)), documents, k, ps, r.value)
  {
    var terms := TermSet(words, query);
    if terms == {} {
      return Success([]);
    }
    ghost var score := KeywordScore(words, terms);
    var candidates: seq<Candidate> := [];
    for i := 0 to |documents|
      invariant candidates == Candidates(score, Passages(documents[..i]))
      invariant OwnDocuments(documents[..i], tenant)
    {
      ReadNext(documents, i, tenant);
      if documents[i].tenant != tenant {
        return Failure(ForeignTenant);
      }
      candidates := ScanChunks(words, terms, documents[i], Passages(documents[..i]), candidates);
    }
    assert documents[..|documents|] == documents;
    r := Select(score, documents, tenant, candidates, k, maxOutput);
    if Corpus(documents) && r.Success? {
      AnswersAreBest(r, score, documents, tenant, k, maxOutput);
    }
  }

  /** The inner loop: one document's chunks. */
  method ScanChunks(
    words: Tokenizer, terms: set<string>, document: StoredVersion, ghost before: seq<Located>, candidates: seq<Candidate>)
    returns (extended: seq<Candidate>)
    requires candidates == Candidates(KeywordScore(words, terms), before)
    ensures extended ==
      Candidates(KeywordScore(words, terms), before + DocumentPassages(document, |document.chunks|))
  {
    ghost var score := KeywordScore(words, terms);
    extended := candidates;
    assert before + DocumentPassages(document, 0) == before;
    for n := 0 to |document.chunks|
      invariant extended == Candidates(score, before + DocumentPassages(document, n))
    {
      var chunk := document.chunks[n];
      var overlap := |terms * TermSet(words, chunk.text)|;
      SeenNext(score, before, document, n);
      assert score(Located(document, chunk)) == overlap as real;
      if overlap > 0 {
        extended := extended + [Candidate(overlap as real, document, chunk)];
      }
    }
  }

  /** Reading one more chunk adds its passage, and a candidate if it scores. */
  lemma SeenNext(score: Located -> real, before: seq<Located>, d: StoredVersion, n: nat)
    requires n < |d.chunks|
    ensures var p := Located(d, d.chunks[n]);
      Candidates(score, before + DocumentPassages(d, n + 1)) ==
      Candidates(score, before + DocumentPassages(d, n))
        + (if score(p) > 0.0 then [Candidate(score(p), p.document, p.chunk)] else [])
  {
    var seen := before + DocumentPassages(d, n);
    var next := before + DocumentPassages(d, n + 1);
    assert next == seen + [Located(d, d.chunks[n])];
    assert next[..|next| - 1] == seen;
  }

  /** The common ending: sort, cut, check the output size, build the passages. */
  method Select(
    ghost score: Located -> real, ghost documents: seq<StoredVersion>, ghost tenant: TenantId,
    candidates: seq<Candidate>, k: nat, maxOutput: nat)
    returns (r: Result<seq<Passage>, RetrievalError>)
    requires OwnDocuments(documents, tenant)
    requires candidates == Candidates(score, Passages(documents))
    ensures Answers(r, score, documents, tenant, k, maxOutput)
  {
    var ranked := Sort(candidates);
    var selected := ranked[..Min(k, |ranked|)];
    if OutputSize(selected) > maxOutput {
      return Failure(OutputCapacity);
    }
    var passages := ToPassages(selected);
    if !DistinctSources(passages) {
      return Failure(DuplicateSource);
    }
    return Success(passages);
  }

  // -------------------------------------------------------------------- BM25

  datatype Bm25 = Bm25(words: Tokenizer, idf: InverseFrequency, k1: real, b: real)

  ghost predicate ValidBm25(m: Bm25) {
    && 0.0 < m.k1 <= 100.0
    && 0.0 <= m.b <= 1.0
    && forall total: nat, frequency: nat :: frequency <= total ==> m.idf(total, frequency) > 0.0
  }

  /** What one pass over the passages yields. */
  datatype Statistics = Statistics(total: nat, words: nat, frequency: map<string, nat>)

  function Length(words: Tokenizer): Located -> nat {
    (p: Located) => |words(p.chunk.text)|
  }

  function Mentions(words: Tokenizer, term: string): Located -> nat {
    (p: Located) => if term in words(p.chunk.text) then 1 else 0
  }

  function StatisticsOf(words: Tokenizer, terms: seq<string>, ps: seq<Located>): Statistics {
    Statistics(|ps|, Sum(Length(words), ps), map t | t in terms :: Sum(Mentions(words, t), ps))
  }

  /** The passages among the first n that mention a term. */
  function Mentioning(words: Tokenizer, term: string, ps: seq<Located>, n: nat): set<nat>
    requires n <= |ps|
  {
    set i | 0 <= i < n && term in words(ps[i].chunk.text)
  }

  /** The frequency of a term is the number of passages that mention it, however often each does. */
  lemma {:induction false} FrequencyCounts(words: Tokenizer, term: string, ps: seq<Located>)
    ensures Sum(Mentions(words, term), ps) == |Mentioning(words, term, ps, |ps|)|
  {
    if ps == [] {
    } else {
      var n := |ps| - 1;
      FrequencyCounts(words, term, ps[..n]);
      assert Mentioning(words, term, ps, n) == Mentioning(words, term, ps[..n], n);
      assert Mentioning(words, term, ps, n + 1) ==
        Mentioning(words, term, ps, n) + if term in words(ps[n].chunk.text) then {n} else {};
    }
  }

  /** What the first pass hands to the scores: passages, words, and passages per term. */
  lemma StatisticsCount(words: Tokenizer, terms: seq<string>, ps: seq<Located>)
    ensures var s := StatisticsOf(words, terms, ps);
      && s.total == |ps|
      && (forall t :: t in s.frequency <==> t in terms)
      && (forall t :: t in terms ==> s.frequency[t] == |Mentioning(words, t, ps, |ps|)|)
      && (forall i :: 0 <= i < |ps| ==> |words(ps[i].chunk.text)| <= s.words)
  {
    forall t | t in terms
      ensures Sum(Mentions(words, t), ps) == |Mentioning(words, t, ps, |ps|)|
    {
      FrequencyCounts(words, t, ps);
    }
    forall i | 0 <= i < |ps|
      ensures |words(ps[i].chunk.text)| <= Sum(Length(words), ps)
    {
      SumCovers(Length(words), ps, i);
    }
  }

  lemma {:induction false} SumCovers(f: Located -> nat, ps: seq<Located>, i: nat)
    requires i < |ps|
    ensures f(ps[i]) <= Sum(f, ps)
  {
    if i == |ps| - 1 {
    } else {
      SumCovers(f, ps[..|ps| - 1], i);
    }
  }

  function Occurrences(words: seq<string>, term: string): nat {
    multiset(words)[term]
  }

  function AverageLength(s: Statistics): real
    requires s.words > 0 && s.total > 0
  {
    (s.words as real) / (s.total as real)
  }

  function Normalization(m: Bm25, s: Statistics, length: nat): real
    requires s.words > 0 && s.total > 0
  {
    m.k1 * (1.0 - m.b + m.b * (length as real) / AverageLength(s))
  }

  /** One term's share of the score; a zero divisor cannot arise when the term occurs. */
  function Share(idf: real, tf: nat, k1: real, normalization: real): real {
    if tf as real + normalization == 0.0 then 0.0
    else idf * (tf as real) * (k1 + 1.0) / (tf as real + normalization)
  }

  function TermShare(m: Bm25, s: Statistics, p: Located, term: string): real {
    var tf := Occurrences(m.words(p.chunk.text), term);
    if tf == 0 || s.words == 0 || s.total == 0 || term !in s.frequency then 0.0
    else Share(m.idf(s.total, s.frequency[term]), tf, m.k1, Normalization(m, s, |m.words(p.chunk.text)|))
  }

  function TermsShare(m: Bm25, s: Statistics, p: Located, terms: seq<string>): real {
    if terms == [] then 0.0
    else TermsShare(m, s, p, terms[..|terms| - 1]) + TermShare(m, s, p, terms[|terms| - 1])
  }

  function Bm25Score(m: Bm25, s: Statistics, terms: seq<string>): Located -> real {
    (p: Located) => TermsShare(m, s, p, terms)
  }

  lemma ProductPositive(a: real, b: real)
    requires a > 0.0 && b > 0.0
    ensures a * b > 0.0 && a / b > 0.0
  {
  }

  lemma ProductNonNegative(a: real, b: real)
    requires a >= 0.0 && b >= 0.0
    ensures a * b >= 0.0
    ensures b > 0.0 ==> a / b >= 0.0
  {
  }

  lemma RelativeLengthSign(m: Bm25, s: Statistics, length: nat)
    requires ValidBm25(m) && s.words > 0 && s.total > 0
    ensures var relative := m.b * (length as real) / AverageLength(s);
      relative >= 0.0 && (length > 0 && m.b > 0.0 ==> relative > 0.0)
  {
    var average := AverageLength(s);
    ProductPositive(s.words as real, s.total as real);
    ProductNonNegative(m.b, length as real);
    ProductNonNegative(m.b * (length as real), average);
    if length > 0 && m.b > 0.0 {
      ProductPositive(m.b, length as real);
      ProductPositive(m.b * (length as real), average);
    }
  }

  lemma NormalizationNonNegative(m: Bm25, s: Statistics, length: nat)
    requires ValidBm25(m) && s.words > 0 && s.total > 0
    ensures Normalization(m, s, length) >= 0.0
    ensures length > 0 ==> Normalization(m, s, length) > 0.0
  {
    RelativeLengthSign(m, s, length);
    var relative := m.b * (length as real) / AverageLength(s);
    var weight := 1.0 - m.b + relative;
    assert Normalization(m, s, length) == m.k1 * weight;
    hide Normalization;
    assert weight >= 0.0;
    ProductNonNegative(m.k1, weight);
    if length > 0 {
      assert weight > 0.0;
      ProductPositive(m.k1, weight);
    }
  }

  /**
   The length normalization: without b it is k1 for every passage; at the average
   length it is k1 whatever b is; and with b it grows with the length.
   */
  lemma NormalizationShape(m: Bm25, s: Statistics, length: nat, longer: nat)
    requires ValidBm25(m) && s.words > 0 && s.total > 0 && length < longer
    ensures m.b == 0.0 ==> Normalization(m, s, length) == m.k1
    ensures length * s.total == s.words ==> Normalization(m, s, length) == m.k1
    ensures m.b == 1.0 ==> Normalization(m, s, length) == m.k1 * ((length as real) / AverageLength(s))
    ensures m.b > 0.0 ==> Normalization(m, s, length) < Normalization(m, s, longer)
  {
    hide Normalization, AverageLength, Weight;
    NormalizationIs(m, s, length);
    NormalizationIs(m, s, longer);
    AveragePositive(s);
    QuotientGrows(length as real, longer as real, AverageLength(s));
    WeightShape(m.k1, m.b, (length as real) / AverageLength(s));
    if m.b > 0.0 {
      WeightGrows(m.k1, m.b, (length as real) / AverageLength(s), (longer as real) / AverageLength(s));
    }
    if length * s.total == s.words {
      AtAverage(s, length);
      CancelDivision(1.0, AverageLength(s));
    }
  }

  /** What a passage of x times the average length is normalized by. */
  function Weight(k1: real, b: real, x: real): real {
    k1 * (1.0 - b + b * x)
  }

  lemma WeightShape(k1: real, b: real, x: real)
    ensures b == 0.0 || x == 1.0 ==> Weight(k1, b, x) == k1
    ensures b == 1.0 ==> Weight(k1, b, x) == k1 * x
  {
  }

  lemma WeightGrows(k1: real, b: real, x: real, y: real)
    requires k1 > 0.0 && b > 0.0 && x < y
    ensures Weight(k1, b, x) < Weight(k1, b, y)
  {
    hide Weight;
    WeightIsLinear(k1, b, x);
    WeightIsLinear(k1, b, y);
    ProductPositive(k1, b);
    Grow(k1 * b, x, y);
  }

  lemma WeightIsLinear(k1: real, b: real, x: real)
    ensures Weight(k1, b, x) == k1 * (1.0 - b) + (k1 * b) * x
  {
    var flat := 1.0 - b;
    assert k1 * (flat + b * x) == k1 * flat + k1 * (b * x);
  }

  lemma NormalizationIs(m: Bm25, s: Statistics, length: nat)
    requires ValidBm25(m) && s.words > 0 && s.total > 0
    ensures Normalization(m, s, length) == Weight(m.k1, m.b, (length as real) / AverageLength(s))
  {
    hide AverageLength;
    AveragePositive(s);
    RegroupDivision(m.b, length as real, AverageLength(s));
  }

  lemma AveragePositive(s: Statistics)
    requires s.words > 0 && s.total > 0
    ensures AverageLength(s) > 0.0
  {
    ProductPositive(s.words as real, s.total as real);
  }

  lemma AtAverage(s: Statistics, length: nat)
    requires s.words > 0 && s.total > 0 && length * s.total == s.words
    ensures AverageLength(s) == length as real
  {
    assert s.words as real == (length as real) * (s.total as real);
    CancelDivision(length as real, s.total as real);
  }

  lemma Grow(c: real, x: real, y: real)
    requires c > 0.0 && x < y
    ensures c * x < c * y
  {
    ProductPositive(c, y - x);
  }

  lemma QuotientGrows(x: real, y: real, c: real)
    requires x < y && c > 0.0
    ensures x / c < y / c
  {
    ProductPositive(y - x, c);
    Undivide(x, c);
    Undivide(y, c);
  }

  /** A term's share is a fraction tf/(tf+n) of its ceiling idf*(k1+1). */
  lemma ShareOfCeiling(idf: real, tf: nat, k1: real, n: real)
    requires tf as real + n > 0.0
    ensures Share(idf, tf, k1, n) == (idf * (k1 + 1.0)) * ((tf as real) / (tf as real + n))
  {
    assert idf * (tf as real) * (k1 + 1.0) == (idf * (k1 + 1.0)) * (tf as real);
    RegroupDivision(idf * (k1 + 1.0), tf as real, tf as real + n);
  }

  lemma RegroupDivision(a: real, b: real, c: real)
    requires c != 0.0
    ensures a * b / c == a * (b / c)
  {
    var q := b / c;
    assert b == q * c;
    assert a * b == (a * q) * c;
    assert (a * q) * c / c == a * q by {
      CancelDivision(a * q, c);
    }
  }

  lemma CancelDivision(x: real, c: real)
    requires c != 0.0
    ensures x * c / c == x
  {
  }

  lemma FractionComplement(a: real, n: real)
    requires 0.0 <= a && n > 0.0
    ensures a / (a + n) == 1.0 - n / (a + n)
  {
    Undivide(a, a + n);
    Undivide(n, a + n);
    SumToOne(a / (a + n), n / (a + n), a, n, a + n);
  }

  lemma Undivide(x: real, c: real)
    requires c != 0.0
    ensures (x / c) * c == x
  {
  }

  lemma SumToOne(x: real, z: real, a: real, n: real, c: real)
    requires c > 0.0 && x * c == a && z * c == n && a + n == c
    ensures x + z == 1.0
  {
    assert (x + z) * c == c;
    CancelDivision(x + z, c);
    CancelDivision(1.0, c);
  }

  lemma DivisionAntitone(n: real, c: real, d: real)
    requires n > 0.0 && 0.0 < c < d
    ensures n / d < n / c
  {
    var u, v := n / d, n / c;
    ProductPositive(n, d);
    ProductPositive(u, d - c);
    assert (v - u) * c == v * c - u * c == u * (d - c);
    ProductPositive((v - u) * c, c);
    CancelDivision(v - u, c);
  }

  lemma FractionGrows(a: real, b: real, n: real)
    requires 0.0 <= a < b && n > 0.0
    ensures a / (a + n) < b / (b + n) < 1.0
  {
    FractionComplement(a, n);
    FractionComplement(b, n);
    DivisionAntitone(n, a + n, b + n);
    ProductPositive(n, b + n);
  }

  lemma Scale(c: real, x: real, y: real)
    requires c > 0.0 && x < y < 1.0
    ensures c * x < c * y < c
  {
    ProductPositive(c, y - x);
    ProductPositive(c, 1.0 - y);
  }

  lemma ShareOrder(idf: real, k1: real, n: real, tf: nat, more: nat)
    requires idf > 0.0 && k1 > 0.0 && n > 0.0 && tf < more
    ensures Share(idf, tf, k1, n) < Share(idf, more, k1, n) < idf * (k1 + 1.0)
  {
    var ceiling := idf * (k1 + 1.0);
    ProductPositive(idf, k1 + 1.0);
    ShareOfCeiling(idf, tf, k1, n);
    ShareOfCeiling(idf, more, k1, n);
    FractionGrows(tf as real, more as real, n);
    Scale(ceiling, (tf as real) / (tf as real + n), (more as real) / (more as real + n));
  }

  /** More occurrences at the same passage length always score more, and never reach the ceiling. */
  lemma ShareSaturates(m: Bm25, s: Statistics, length: nat, idf: real, tf: nat, more: nat)
    requires ValidBm25(m) && s.words > 0 && s.total > 0 && length > 0
    requires idf > 0.0 && tf < more
    ensures var n := Normalization(m, s, length);
      Share(idf, tf, m.k1, n) < Share(idf, more, m.k1, n) < idf * (m.k1 + 1.0)
  {
    NormalizationNonNegative(m, s, length);
    ShareOrder(idf, m.k1, Normalization(m, s, length), tf, more);
  }

  lemma TermShareSign(m: Bm25, s: Statistics, p: Located, term: string)
    requires ValidBm25(m) && s.words > 0 && s.total > 0
    requires term in s.frequency && s.frequency[term] <= s.total
    ensures TermShare(m, s, p, term) >= 0.0
    ensures TermShare(m, s, p, term) > 0.0 <==> term in m.words(p.chunk.text)
  {
    var words := m.words(p.chunk.text);
    var tf := Occurrences(words, term);
    if tf > 0 {
      var idf := m.idf(s.total, s.frequency[term]);
      var n := Normalization(m, s, |words|);
      NormalizationNonNegative(m, s, |words|);
      ProductPositive(idf, tf as real);
      ProductPositive(idf * (tf as real), m.k1 + 1.0);
      ProductPositive(idf * (tf as real) * (m.k1 + 1.0), tf as real + n);
      assert Share(idf, tf, m.k1, n) > 0.0;
    }
  }

  /** Of two terms a passage mentions equally often, the one with the larger inverse frequency adds more. */
  lemma RarerCountsMore(m: Bm25, s: Statistics, p: Located, rare: string, common: string)
    requires ValidBm25(m) && s.words > 0 && s.total > 0
    requires rare in s.frequency && common in s.frequency
    requires m.idf(s.total, s.frequency[common]) < m.idf(s.total, s.frequency[rare])
    requires multiset(m.words(p.chunk.text))[rare] == multiset(m.words(p.chunk.text))[common] > 0
    ensures TermShare(m, s, p, common) < TermShare(m, s, p, rare)
  {
    var words := m.words(p.chunk.text);
    var tf, n := Occurrences(words, rare), Normalization(m, s, |words|);
    NormalizationNonNegative(m, s, |words|);
    hide Normalization, Share;
    ShareGrows(m.idf(s.total, s.frequency[common]), m.idf(s.total, s.frequency[rare]), tf, m.k1, n);
  }

  lemma ShareGrows(idf: real, more: real, tf: nat, k1: real, n: real)
    requires idf < more && tf > 0 && k1 > 0.0 && n >= 0.0
    ensures Share(idf, tf, k1, n) < Share(more, tf, k1, n)
  {
    ShareOfCeiling(idf, tf, k1, n);
    ShareOfCeiling(more, tf, k1, n);
    hide Share;
    var fraction := (tf as real) / (tf as real + n);
    ProductPositive(tf as real, tf as real + n);
    Grow(k1 + 1.0, idf, more);
    Grow(fraction, idf * (k1 + 1.0), more * (k1 + 1.0));
  }

  lemma {:induction false} TermsShareSign(m: Bm25, s: Statistics, p: Located, terms: seq<string>)
    requires ValidBm25(m) && s.words > 0 && s.total > 0
    requires forall t :: t in terms ==> t in s.frequency && s.frequency[t] <= s.total
    ensures TermsShare(m, s, p, terms) >= 0.0
    ensures TermsShare(m, s, p, terms) > 0.0 <==> exists t :: t in terms && t in m.words(p.chunk.text)
  {
    if terms == [] {
    } else {
      var init, last := terms[..|terms| - 1], terms[|terms| - 1];
      assert terms == init + [last];
      TermsShareSign(m, s, p, init);
      TermShareSign(m, s, p, last);
    }
  }

  lemma {:induction false} TermsShareRemoved(m: Bm25, s: Statistics, p: Located, terms: seq<string>, j: nat)
    requires j < |terms|
    ensures TermsShare(m, s, p, terms) == TermsShare(m, s, p, Without(terms, j)) + TermShare(m, s, p, terms[j])
    decreases |terms| - j
  {
    var n := |terms| - 1;
    if j < n {
      TermsShareRemoved(m, s, p, terms[..n], j);
      assert Without(terms, j)[..n - 1] == Without(terms[..n], j);
      assert Without(terms, j)[n - 1] == terms[n];
    } else {
      assert Without(terms, j) == terms[..n];
    }
  }

  /** In exact arithmetic the score does not depend on the order in which the terms are added up. */
  lemma {:induction false} TermOrderIrrelevant(m: Bm25, s: Statistics, p: Located, terms: seq<string>, other: seq<string>)
    requires multiset(terms) == multiset(other)
    ensures TermsShare(m, s, p, terms) == TermsShare(m, s, p, other)
  {
    SameLength(terms, other);
    if terms == [] {
    } else {
      var j := FindLast(terms, other);
      TermOrderIrrelevant(m, s, p, terms[..|terms| - 1], Without(other, j));
      TermsShareRemoved(m, s, p, other, j);
    }
  }

  lemma FrequencyBounded(words: Tokenizer, terms: seq<string>, ps: seq<Located>)
    ensures var s := StatisticsOf(words, terms, ps);
      forall t :: t in terms ==> t in s.frequency && s.frequency[t] <= s.total
  {
    forall t | t in terms
      ensures Sum(Mentions(words, t), ps) <= |ps|
    {
      SumOfZeroOne(Mentions(words, t), ps);
    }
  }

  /** A passage scores under BM25 exactly when keyword overlap finds a term in it. */
  lemma SameMatches(m: Bm25, terms: seq<string>, ps: seq<Located>, p: Located)
    requires ValidBm25(m) && p in ps
    ensures Bm25Score(m, StatisticsOf(m.words, terms, ps), terms)(p) > 0.0
      <==> KeywordScore(m.words, set t | t in terms)(p) > 0.0
  {
    var s := StatisticsOf(m.words, terms, ps);
    var found := (set t | t in terms) * TermSet(m.words, p.chunk.text);
    if found != {} {
      var t :| t in found;
      assert Length(m.words)(p) > 0;
      SumPositive(Length(m.words), ps, p);
      FrequencyBounded(m.words, terms, ps);
      TermsShareSign(m, s, p, terms);
      assert t in terms && t in m.words(p.chunk.text);
      assert |found| > 0;
    } else {
      forall t | t in terms
        ensures t !in m.words(p.chunk.text)
      {
        assert t in TermSet(m.words, p.chunk.text) ==> t in found;
      }
      NoTermNoShare(m, s, p, terms);
    }
  }

  lemma {:induction false} NoTermNoShare(m: Bm25, s: Statistics, p: Located, terms: seq<string>)
    requires forall t :: t in terms ==> t !in m.words(p.chunk.text)
    ensures TermsShare(m, s, p, terms) == 0.0
  {
    if terms == [] {
    } else {
      NoTermNoShare(m, s, p, terms[..|terms| - 1]);
      assert terms[|terms| - 1] in terms;
    }
  }

  lemma {:induction false} SamePositives(f: Located -> real, g: Located -> real, ps: seq<Located>)
    requires forall p :: p in ps ==> (f(p) > 0.0 <==> g(p) > 0.0)
    ensures Locations(Candidates(f, ps)) == Locations(Candidates(g, ps))
  {
    if ps == [] {
    } else {
      SamePositives(f, g, ps[..|ps| - 1]);
      assert ps[|ps| - 1] in ps;
      assert |Candidates(f, ps[..|ps| - 1])| == |Locations(Candidates(f, ps[..|ps| - 1]))|;
      assert |Candidates(g, ps[..|ps| - 1])| == |Locations(Candidates(g, ps[..|ps| - 1]))|;
      LocationsSnoc(f, ps);
      LocationsSnoc(g, ps);
    }
  }

  lemma LocationsSnoc(f: Located -> real, ps: seq<Located>)
    requires ps != []
    ensures var p := ps[|ps| - 1];
      Locations(Candidates(f, ps)) == Locations(Candidates(f, ps[..|ps| - 1])) + if f(p) > 0.0 then [p] else []
  {
    var p := ps[|ps| - 1];
    var before := Candidates(f, ps[..|ps| - 1]);
    if f(p) > 0.0 {
      assert Candidates(f, ps) == before + [Candidate(f(p), p.document, p.chunk)];
      LocationsAppended(before, Candidate(f(p), p.document, p.chunk));
    } else {
      assert Candidates(f, ps) == before;
    }
  }

  lemma LocationsAppended(cs: seq<Candidate>, c: Candidate)
    ensures Locations(cs + [c]) == Locations(cs) + [Located(c.document, c.chunk)]
  {
  }

  /** Before the cut to k, both strategies consider exactly the same passages. */
  lemma SameCandidates(m: Bm25, terms: seq<string>, documents: seq<StoredVersion>)
    requires ValidBm25(m)
    ensures var ps := Passages(documents);
      Locations(Candidates(Bm25Score(m, StatisticsOf(m.words, terms, ps), terms), ps))
        == Locations(Candidates(KeywordScore(m.words, set t | t in terms), ps))
  {
    var ps := Passages(documents);
    forall p | p in ps
      ensures Bm25Score(m, StatisticsOf(m.words, terms, ps), terms)(p) > 0.0
        <==> KeywordScore(m.words, set t | t in terms)(p) > 0.0
    {
      SameMatches(m, terms, ps, p);
    }
    SamePositives(Bm25Score(m, StatisticsOf(m.words, terms, ps), terms), KeywordScore(m.words, set t | t in terms), ps);
  }

  /** The statistics, and with them every score, are those of the document set. */
  lemma StatisticsPermuted(words: Tokenizer, terms: seq<string>, a: seq<StoredVersion>, b: seq<StoredVersion>)
    requires multiset(a) == multiset(b)
    ensures StatisticsOf(words, terms, Passages(a)) == StatisticsOf(words, terms, Passages(b))
  {
    PassagesPermuted(a, b);
    SameLength(Passages(a), Passages(b));
    SumPermuted(Length(words), Passages(a), Passages(b));
    forall t | t in terms
      ensures Sum(Mentions(words, t), Passages(a)) == Sum(Mentions(words, t), Passages(b))
    {
      SumPermuted(Mentions(words, t), Passages(a), Passages(b));
    }
  }

  lemma Bm25Canonical(
    r: Result<seq<Passage>, RetrievalError>, q: Result<seq<Passage>, RetrievalError>, m: Bm25, terms: seq<string>,
    a: seq<StoredVersion>, b: seq<StoredVersion>, tenant: TenantId, k: nat, maxOutput: nat)
    requires multiset(a) == multiset(b) && Corpus(a) && Corpus(b)
    requires Answers(r, Bm25Score(m, StatisticsOf(m.words, terms, Passages(a)), terms), a, tenant, k, maxOutput)
    requires Answers(q, Bm25Score(m, StatisticsOf(m.words, terms, Passages(b)), terms), b, tenant, k, maxOutput)
    ensures StatisticsOf(m.words, terms, Passages(a)) == StatisticsOf(m.words, terms, Passages(b))
    ensures forall p: Located ::
      Bm25Score(m, StatisticsOf(m.words, terms, Passages(a)), terms)(p) == Bm25Score(m, StatisticsOf(m.words, terms, Passages(b)), terms)(p)
    ensures r == q
  {
    StatisticsPermuted(m.words, terms, a, b);
    AnswersCanonical(r, q, Bm25Score(m, StatisticsOf(m.words, terms, Passages(a)), terms), a, b, tenant, k, maxOutput);
  }

  /** Query terms without repetition. */
  function Distinct(words: seq<string>): (r: seq<string>)
    ensures forall w :: w in r <==> w in words
    ensures forall i, j :: 0 <= i < j < |r| ==> r[i] != r[j]
  {
    if words == [] then []
    else
      var init := Distinct(words[..|words| - 1]);
      if words[|words| - 1] in init then init else init + [words[|words| - 1]]
  }

  method Bm25Search(
    m: Bm25, documents: seq<StoredVersion>, query: string, tenant: TenantId, k: nat, maxOutput: nat)
    returns (r: Result<seq<Passage>, RetrievalError>)
    requires ValidBm25(m)
    ensures var terms := Distinct(m.words(query));
      && (terms == [] ==> r == Success([]))
      && (terms != [] && !OwnDocuments(documents, tenant) ==> r == Failure(ForeignTenant))
      && (terms != [] ==>
        Answers(r, Bm25Score(m, StatisticsOf(m.words, terms, Passages(documents)), terms), documents, tenant, k, maxOutput))
      && (terms != [] && Corpus(documents) && r.Success? ==>
        exists ps: seq<Located> ::
          BestFirst(Bm25Score(m, StatisticsOf(m.words, terms, Passages(documents)), terms), documents, k, ps, r.value))
  {
    var terms := Distinct(m.words(query));
    if terms == [] {
      return Success([]);
    }
    var passages: seq<Located> := [];
    var wordTotal := 0;
    for i := 0 to |documents|
      invariant passages == Passages(documents[..i])
      invariant wordTotal == Sum(Length(m.words), passages)
      invariant OwnDocuments(documents[..i], tenant)
    {
      if documents[i].tenant != tenant {
        return Failure(ForeignTenant);
      }
      passages, wordTotal := CollectChunks(m.words, documents[i], passages, wordTotal);
      assert documents[..i + 1][..i] == documents[..i];
    }
    assert documents[..|documents|] == documents;
    var statistics := StatisticsOf(m.words, terms, passages);
    var score := Bm25Score(m, statistics, terms);
    if wordTotal == 0 {
      NoWordsNoCandidates(m, statistics, terms, passages);
      r := Select(score, documents, tenant, [], k, maxOutput);
    } else {
      FrequencyBounded(m.words, terms, passages);
      var candidates := ScorePassages(m, statistics, terms, passages);
      r := Select(score, documents, tenant, candidates, k, maxOutput);
    }
    if Corpus(documents) && r.Success? {
      AnswersAreBest(r, score, documents, tenant, k, maxOutput);
    }
  }

  lemma {:induction false} NoWordsNoCandidates(m: Bm25, s: Statistics, terms: seq<string>, ps: seq<Located>)
    requires s.words == 0
    ensures Candidates(Bm25Score(m, s, terms), ps) == []
  {
    if ps == [] {
    } else {
      NoWordsNoCandidates(m, s, terms, ps[..|ps| - 1]);
      NoStatisticsNoShare(m, s, ps[|ps| - 1], terms);
    }
  }

  lemma {:induction false} NoStatisticsNoShare(m: Bm25, s: Statistics, p: Located, terms: seq<string>)
    requires s.words == 0
    ensures TermsShare(m, s, p, terms) == 0.0
  {
    if terms == [] {
    } else {
      NoStatisticsNoShare(m, s, p, terms[..|terms| - 1]);
    }
  }

  /** First pass: one document's chunks with their word counts. */
  method CollectChunks(words: Tokenizer, document: StoredVersion, before: seq<Located>, wordsBefore: nat)
    returns (passages: seq<Located>, wordTotal: nat)
    requires wordsBefore == Sum(Length(words), before)
    ensures passages == before + DocumentPassages(document, |document.chunks|)
    ensures wordTotal == Sum(Length(words), passages)
  {
    passages, wordTotal := before, wordsBefore;
    assert before + DocumentPassages(document, 0) == before;
    for n := 0 to |document.chunks|
      invariant passages == before + DocumentPassages(document, n)
      invariant wordTotal == Sum(Length(words), passages)
    {
      var p := Located(document, document.chunks[n]);
      assert (passages + [p])[..|passages|] == passages;
      assert before + DocumentPassages(document, n + 1) == passages + [p];
      passages, wordTotal := passages + [p], wordTotal + |words(p.chunk.text)|;
    }
  }

  /** Second pass: the score of every passage, term by term. */
  method ScorePassages(m: Bm25, s: Statistics, terms: seq<string>, passages: seq<Located>)
    returns (candidates: seq<Candidate>)
    requires ValidBm25(m) && s.words > 0 && s.total > 0
    requires forall t :: t in terms ==> t in s.frequency && s.frequency[t] <= s.total
    ensures candidates == Candidates(Bm25Score(m, s, terms), passages)
  {
    candidates := [];
    for i := 0 to |passages|
      invariant candidates == Candidates(Bm25Score(m, s, terms), passages[..i])
    {
      var p := passages[i];
      var score := ScoreOne(m, s, terms, p);
      assert passages[..i + 1][..i] == passages[..i];
      if score > 0.0 {
        candidates := candidates + [Candidate(score, p.document, p.chunk)];
      }
    }
    assert passages[..|passages|] == passages;
  }

  lemma SharesNext(m: Bm25, s: Statistics, p: Located, terms: seq<string>, i: nat)
    requires i < |terms|
    ensures TermsShare(m, s, p, terms[..i + 1]) == TermsShare(m, s, p, terms[..i]) + TermShare(m, s, p, terms[i])
  {
    assert terms[..i + 1][..i] == terms[..i];
  }

  /** What one matching term adds. */
  method Contribution(idf: real, tf: nat, k1: real, normalization: real) returns (share: real)
    requires tf > 0 && normalization >= 0.0
    ensures share == Share(idf, tf, k1, normalization)
  {
    share := idf * (tf as real) * (k1 + 1.0) / (tf as real + normalization);
  }

  method ScoreOne(m: Bm25, s: Statistics, terms: seq<string>, p: Located) returns (score: real)
    requires ValidBm25(m) && s.words > 0 && s.total > 0
    requires forall t :: t in terms ==> t in s.frequency && s.frequency[t] <= s.total
    ensures score == TermsShare(m, s, p, terms)
  {
    var counts := m.words(p.chunk.text);
    var normalization := Normalization(m, s, |counts|);
    NormalizationNonNegative(m, s, |counts|);
    score := 0.0;
    for i := 0 to |terms|
      invariant score == TermsShare(m, s, p, terms[..i])
    {
      SharesNext(m, s, p, terms, i);
      var tf := Occurrences(counts, terms[i]);
      if tf > 0 {
        var idf := m.idf(s.total, s.frequency[terms[i]]);
        var share := Contribution(idf, tf, m.k1, normalization);
        score := score + share;
      }
    }
    assert terms[..|terms|] == terms;
  }
}
