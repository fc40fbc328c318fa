/**
 Passage retrieval (crewos/retrieval/strategies): keyword overlap and BM25 over
 a tenant's latest documents. Tokenizing with case folding is the parameter
 `words`; BM25's inverse document frequency is the parameter `idf`, of which
 only its sign matters. Scores are exact.
 */
module Ranking {
  import opened Wrappers
  import opened Chunking
  import opened Evidence

  type Tokenizer = string -> seq<string>

  type InverseFrequency = (nat, nat) -> real

  datatype Candidate = Candidate(score: real, document: StoredVersion, chunk: TextChunk)

  datatype RetrievalError = ForeignTenant | OutputCapacity | DuplicateSource

  // ---------------------------------------------------------------- ordering

  /** The sort key: best score first, then document, version and chunk number. */
  predicate Before(a: Candidate, b: Candidate) {
    || a.score > b.score
    || (a.score == b.score && IdentityBefore(Identity(a), Identity(b)))
  }

  predicate IdentityBefore(a: SourceReference, b: SourceReference) {
    || a.documentId < b.documentId
    || (a.documentId == b.documentId
      && (a.version < b.version || (a.version == b.version && a.chunkIndex < b.chunkIndex)))
  }

  function Identity(c: Candidate): SourceReference {
    SourceReference(c.document.documentId, c.document.version, c.chunk.index)
  }

  /** No candidate ranks before an earlier one. */
  predicate Ordered(s: seq<Candidate>) {
    forall i, j :: 0 <= i < j < |s| ==> !Before(s[j], s[i])
  }

  predicate DistinctIdentities(s: seq<Candidate>) {
    forall i, j :: 0 <= i < j < |s| ==> Identity(s[i]) != Identity(s[j])
  }

  /** Puts c after everything that does not rank behind it, so equal keys keep their order. */
  function Insert(c: Candidate, s: seq<Candidate>): seq<Candidate> {
    if s == [] then [c]
    else if Before(c, s[|s| - 1]) then Insert(c, s[..|s| - 1]) + [s[|s| - 1]]
    else s + [c]
  }

  function Sort(s: seq<Candidate>): seq<Candidate> {
    if s == [] then [] else Insert(s[|s| - 1], Sort(s[..|s| - 1]))
  }

  lemma {:induction false} InsertAdds(c: Candidate, s: seq<Candidate>)
    ensures multiset(Insert(c, s)) == multiset(s) + multiset{c}
  {
    if s == [] {
    } else {
      var init, last := s[..|s| - 1], s[|s| - 1];
      assert s == init + [last];
      if Before(c, last) {
        InsertAdds(c, init);
      }
    }
  }

  /** Nothing goes behind the last one that ranks before it. */
  lemma InsertBeforeLast(c: Candidate, init: seq<Candidate>, last: Candidate, i: nat)
    requires Ordered(init + [last]) && Before(c, last) && i < |Insert(c, init)|
    ensures !Before(last, Insert(c, init)[i])
  {
    var r := Insert(c, init);
    InsertAdds(c, init);
    assert r[i] in multiset(r);
    if r[i] in init {
      var n :| 0 <= n < |init| && init[n] == r[i];
      assert (init + [last])[n] == r[i] && (init + [last])[|init|] == last;
    }
  }

  lemma {:induction false} InsertOrdered(c: Candidate, s: seq<Candidate>)
    requires Ordered(s)
    ensures multiset(Insert(c, s)) == multiset(s) + multiset{c}
    ensures Ordered(Insert(c, s))
  {
    InsertAdds(c, s);
    if s == [] {
    } else {
      var init, last := s[..|s| - 1], s[|s| - 1];
      assert s == init + [last];
      if Before(c, last) {
        InsertOrdered(c, init);
        forall i | 0 <= i < |Insert(c, init)|
          ensures !Before(last, Insert(c, init)[i])
        {
          InsertBeforeLast(c, init, last, i);
        }
      }
    }
  }

  lemma {:induction false} SortOrdered(s: seq<Candidate>)
    ensures multiset(Sort(s)) == multiset(s)
    ensures |Sort(s)| == |s|
    ensures Ordered(Sort(s))
  {
    if s == [] {
    } else {
      var init := s[..|s| - 1];
      SortOrdered(init);
      InsertOrdered(s[|s| - 1], Sort(init));
      assert s == init + [s[|s| - 1]];
    }
    assert |multiset(Sort(s))| == |multiset(s)|;
  }

  /** Everything behind the first of an ordered list with distinct identities ranks strictly behind it. */
  lemma FirstIsBest(s: seq<Candidate>, x: Candidate)
    requires Ordered(s) && DistinctIdentities(s) && x in s
    ensures x == s[0] || Before(s[0], x)
  {
    var i :| 0 <= i < |s| && s[i] == x;
    assert i > 0 ==> !Before(s[i], s[0]) && Identity(s[0]) != Identity(s[i]);
  }

  lemma SameFirst(s: seq<Candidate>, t: seq<Candidate>)
    requires Ordered(s) && Ordered(t) && DistinctIdentities(s) && DistinctIdentities(t)
    requires multiset(s) == multiset(t) && s != []
    ensures t != [] && s[0] == t[0]
  {
    SameLength(s, t);
    assert s[0] in multiset(t) && t[0] in multiset(s);
    FirstIsBest(s, t[0]);
    FirstIsBest(t, s[0]);
  }

  lemma SameRest(s: seq<Candidate>, t: seq<Candidate>)
    requires multiset(s) == multiset(t) && s != [] && t != [] && s[0] == t[0]
    ensures multiset(s[1..]) == multiset(t[1..])
  {
    Removed(s, 0);
    Removed(t, 0);
  }

  lemma RestInOrder(s: seq<Candidate>)
    requires Ordered(s) && DistinctIdentities(s) && s != []
    ensures Ordered(s[1..]) && DistinctIdentities(s[1..])
  {
  }

  /** One set of candidates with distinct identities has one order. */
  lemma {:induction false} OrderIsUnique(s: seq<Candidate>, t: seq<Candidate>)
    requires Ordered(s) && Ordered(t)
    requires DistinctIdentities(s) && DistinctIdentities(t)
    requires multiset(s) == multiset(t)
    ensures s == t
  {
    SameLength(s, t);
    if s == [] {
    } else {
      SameFirst(s, t);
      SameRest(s, t);
      RestInOrder(s);
      RestInOrder(t);
      OrderIsUnique(s[1..], t[1..]);
      assert s == [s[0]] + s[1..] && t == [t[0]] + t[1..];
    }
  }

  // ----------------------------------------------------------- permutations

  function Without<T>(s: seq<T>, j: nat): seq<T>
    requires j < |s|
  {
    s[..j] + s[j + 1..]
  }

  lemma SameLength<T>(s: seq<T>, t: seq<T>)
    requires multiset(s) == multiset(t)
    ensures |s| == |t|
  {
    assert |multiset(s)| == |s| && |multiset(t)| == |t|;
  }

  /** Taking one element out of a sequence takes one occurrence out of its multiset. */
  lemma Removed<T>(s: seq<T>, j: nat)
    requires j < |s|
    ensures multiset(Without(s, j)) == multiset(s) - multiset{s[j]}
    ensures j == 0 ==> Without(s, j) == s[1..]
    ensures j == |s| - 1 ==> Without(s, j) == s[..|s| - 1]
  {
    assert s == s[..j] + ([s[j]] + s[j + 1..]);
  }

  /** Where the last element of one sequence sits in a permutation of it. */
  lemma FindLast<T>(s: seq<T>, t: seq<T>) returns (j: nat)
    requires s != [] && multiset(s) == multiset(t)
    ensures j < |t| && t[j] == s[|s| - 1]
    ensures multiset(s[..|s| - 1]) == multiset(Without(t, j))
  {
    var last := s[|s| - 1];
    assert last in multiset(t);
    j :| 0 <= j < |t| && t[j] == last;
    Removed(s, |s| - 1);
    Removed(t, j);
  }

  lemma {:induction false} PermutedDistinct(s: seq<Candidate>, t: seq<Candidate>)
    requires DistinctIdentities(s) && multiset(s) == multiset(t)
    ensures DistinctIdentities(t)
  {
    SameLength(s, t);
    if s == [] {
    } else {
      var n := |s| - 1;
      var j := FindLast(s, t);
      var u := Without(t, j);
      PermutedDistinct(s[..n], u);
      forall i | 0 <= i < |u|
        ensures Identity(u[i]) != Identity(t[j])
      {
        assert u[i] in multiset(s[..n]);
      }
      forall a, b | 0 <= a < b < |t|
        ensures Identity(t[a]) != Identity(t[b])
      {
        assert a < j ==> t[a] == u[a];
        assert a > j ==> t[a] == u[a - 1];
        assert b < j ==> t[b] == u[b];
        assert b > j ==> t[b] == u[b - 1];
      }
    }
  }

  /** The union of what every element contributes. */
  function Bag<T, U>(f: T -> multiset<U>, s: seq<T>): multiset<U> {
    if s == [] then multiset{} else Bag(f, s[..|s| - 1]) + f(s[|s| - 1])
  }

  lemma {:induction false} BagConcat<T, U>(f: T -> multiset<U>, a: seq<T>, b: seq<T>)
    ensures Bag(f, a + b) == Bag(f, a) + Bag(f, b)
  {
    if b == [] {
      assert a + b == a;
    } else {
      BagConcat(f, a, b[..|b| - 1]);
      assert (a + b)[..|a + b| - 1] == a + b[..|b| - 1];
    }
  }

  lemma BagSnoc<T, U>(f: T -> multiset<U>, s: seq<T>, j: nat)
    requires j < |s|
    ensures Bag(f, s[..j + 1]) == Bag(f, s[..j]) + f(s[j])
  {
    assert s[..j + 1][..j] == s[..j];
  }

  lemma BagCut<T, U>(f: T -> multiset<U>, s: seq<T>, j: nat)
    requires j <= |s|
    ensures Bag(f, s) == Bag(f, s[..j]) + Bag(f, s[j..])
  {
    BagConcat(f, s[..j], s[j..]);
    assert s == s[..j] + s[j..];
  }

  lemma BagRemoved<T, U>(f: T -> multiset<U>, s: seq<T>, j: nat)
    requires j < |s|
    ensures Bag(f, s) == Bag(f, Without(s, j)) + f(s[j])
  {
    BagCut(f, s, j + 1);
    BagSnoc(f, s, j);
    BagConcat(f, s[..j], s[j + 1..]);
    Regroup(Bag(f, s[..j]), f(s[j]), Bag(f, s[j + 1..]));
  }

  lemma Regroup<U>(a: multiset<U>, b: multiset<U>, c: multiset<U>)
    ensures a + b + c == a + c + b
  {
  }

  lemma {:induction false} BagPermuted<T, U>(f: T -> multiset<U>, a: seq<T>, b: seq<T>)
    requires multiset(a) == multiset(b)
    ensures Bag(f, a) == Bag(f, b)
  {
    SameLength(a, b);
    if a == [] {
    } else {
      var j := FindLast(a, b);
      BagPermuted(f, a[..|a| - 1], Without(b, j));
      BagRemoved(f, b, j);
    }
  }

  // ----------------------------------------------------------------- passages

  datatype Located = Located(document: StoredVersion, chunk: TextChunk)

  function DocumentPassages(d: StoredVersion, n: nat): seq<Located>
    requires n <= |d.chunks|
  {
    if n == 0 then [] else DocumentPassages(d, n - 1) + [Located(d, d.chunks[n - 1])]
  }

  function Passages(documents: seq<StoredVersion>): seq<Located> {
    if documents == [] then []
    else
      var last := documents[|documents| - 1];
      Passages(documents[..|documents| - 1]) + DocumentPassages(last, |last.chunks|)
  }

  /** What a corpus reader hands over: each document once, its chunks numbered in order. */
  predicate Corpus(documents: seq<StoredVersion>) {
    && (forall i, j :: 0 <= i < j < |documents| ==> documents[i].documentId != documents[j].documentId)
    && (forall i, n :: 0 <= i < |documents| && 0 <= n < |documents[i].chunks| ==> documents[i].chunks[n].index == n)
  }

  function LocatedKey(p: Located): SourceReference {
    SourceReference(p.document.documentId, p.document.version, p.chunk.index)
  }

  predicate DistinctLocations(ps: seq<Located>) {
    forall i, j :: 0 <= i < j < |ps| ==> LocatedKey(ps[i]) != LocatedKey(ps[j])
  }

  lemma {:induction false} DocumentPassagesAt(d: StoredVersion, n: nat, i: nat)
    requires i < n <= |d.chunks|
    ensures |DocumentPassages(d, n)| == n && DocumentPassages(d, n)[i] == Located(d, d.chunks[i])
  {
    if i < n - 1 {
      DocumentPassagesAt(d, n - 1, i);
    } else if n > 1 {
      DocumentPassagesAt(d, n - 1, 0);
    }
  }

  lemma {:induction false} PassageOrigin(documents: seq<StoredVersion>, p: Located)
    requires p in Passages(documents)
    ensures p.document in documents && p.chunk in p.document.chunks
  {
    var init, last := documents[..|documents| - 1], documents[|documents| - 1];
    if p in Passages(init) {
      PassageOrigin(init, p);
    } else {
      var own := DocumentPassages(last, |last.chunks|);
      var i :| 0 <= i < |own| && own[i] == p;
      DocumentPassagesLength(last, |last.chunks|);
      DocumentPassagesAt(last, |last.chunks|, i);
    }
  }

  lemma {:induction false} DocumentPassagesLength(d: StoredVersion, n: nat)
    requires n <= |d.chunks|
    ensures |DocumentPassages(d, n)| == n
  {
    if n == 0 {
    } else {
      DocumentPassagesAt(d, n, 0);
    }
  }

  lemma {:induction false} CorpusLocations(documents: seq<StoredVersion>)
    requires Corpus(documents)
    ensures DistinctLocations(Passages(documents))
  {
    if documents == [] {
    } else {
      var init, last := documents[..|documents| - 1], documents[|documents| - 1];
      CorpusLocations(init);
      var before, own := Passages(init), DocumentPassages(last, |last.chunks|);
      DocumentPassagesLength(last, |last.chunks|);
      forall i, j | 0 <= i < j < |before + own|
        ensures LocatedKey((before + own)[i]) != LocatedKey((before + own)[j])
      {
        if j >= |before| {
          DocumentPassagesAt(last, |last.chunks|, j - |before|);
          if i >= |before| {
            DocumentPassagesAt(last, |last.chunks|, i - |before|);
          } else {
            PassageOrigin(init, before[i]);
            var d :| 0 <= d < |init| && init[d] == before[i].document;
            assert documents[d].documentId != documents[|documents| - 1].documentId;
          }
        }
      }
    }
  }

  function OwnPassages(d: StoredVersion): multiset<Located> {
    multiset(DocumentPassages(d, |d.chunks|))
  }

  lemma {:induction false} PassagesBag(documents: seq<StoredVersion>)
    ensures multiset(Passages(documents)) == Bag(OwnPassages, documents)
  {
    if documents == [] {
    } else {
      PassagesBag(documents[..|documents| - 1]);
    }
  }

  /** Reordering the documents reorders the passages. */
  lemma PassagesPermuted(a: seq<StoredVersion>, b: seq<StoredVersion>)
    requires multiset(a) == multiset(b)
    ensures multiset(Passages(a)) == multiset(Passages(b))
  {
    PassagesBag(a);
    PassagesBag(b);
    BagPermuted(OwnPassages, a, b);
  }

  // ------------------------------------------------------- sums over passages

  function Sum(f: Located -> nat, ps: seq<Located>): nat {
    if ps == [] then 0 else Sum(f, ps[..|ps| - 1]) + f(ps[|ps| - 1])
  }

  lemma {:induction false} SumBag(f: Located -> nat, ps: seq<Located>)
    ensures Bag((p: Located) => multiset{}[0 := f(p)], ps)[0] == Sum(f, ps)
  {
    if ps == [] {
    } else {
      SumBag(f, ps[..|ps| - 1]);
    }
  }

  lemma SumPermuted(f: Located -> nat, a: seq<Located>, b: seq<Located>)
    requires multiset(a) == multiset(b)
    ensures Sum(f, a) == Sum(f, b)
  {
    SumBag(f, a);
    SumBag(f, b);
    BagPermuted((p: Located) => multiset{}[0 := f(p)], a, b);
  }

  lemma {:induction false} SumPositive(f: Located -> nat, ps: seq<Located>, p: Located)
    requires p in ps && f(p) > 0
    ensures Sum(f, ps) > 0
  {
    var n := |ps| - 1;
    if ps[n] == p {
    } else {
      var i :| 0 <= i < |ps| && ps[i] == p;
      assert ps[..n][i] == p;
      SumPositive(f, ps[..n], p);
    }
  }

  lemma {:induction false} SumOfZeroOne(f: Located -> nat, ps: seq<Located>)
    requires forall p :: f(p) <= 1
    ensures Sum(f, ps) <= |ps|
  {
    if ps == [] {
    } else {
      SumOfZeroOne(f, ps[..|ps| - 1]);
    }
  }

  // --------------------------------------------------------------- candidates

  /** The passages with a positive score, in reading order. */
  function Candidates(score: Located -> real, ps: seq<Located>): seq<Candidate> {
    if ps == [] then []
    else
      var p := ps[|ps| - 1];
      Candidates(score, ps[..|ps| - 1]) + (if score(p) > 0.0 then [Candidate(score(p), p.document, p.chunk)] else [])
  }

  function Scored(score: Located -> real, p: Located): multiset<Candidate> {
    if score(p) > 0.0 then multiset{Candidate(score(p), p.document, p.chunk)} else multiset{}
  }

  lemma {:induction false} CandidatesBag(score: Located -> real, ps: seq<Located>)
    ensures multiset(Candidates(score, ps)) == Bag((p: Located) => Scored(score, p), ps)
  {
    if ps == [] {
    } else {
      CandidatesBag(score, ps[..|ps| - 1]);
    }
  }

  lemma CandidatesPermuted(score: Located -> real, a: seq<Located>, b: seq<Located>)
    requires multiset(a) == multiset(b)
    ensures multiset(Candidates(score, a)) == multiset(Candidates(score, b))
  {
    CandidatesBag(score, a);
    CandidatesBag(score, b);
    BagPermuted((p: Located) => Scored(score, p), a, b);
  }

  lemma {:induction false} CandidateOrigin(score: Located -> real, ps: seq<Located>, c: Candidate)
    ensures c in Candidates(score, ps) <==>
      Located(c.document, c.chunk) in ps && c.score == score(Located(c.document, c.chunk)) > 0.0
  {
    if ps == [] {
    } else {
      var n := |ps| - 1;
      CandidateOrigin(score, ps[..n], c);
      assert ps == ps[..n] + [ps[n]];
    }
  }

  lemma {:induction false} CandidatesDistinct(score: Located -> real, ps: seq<Located>)
    requires DistinctLocations(ps)
    ensures DistinctIdentities(Candidates(score, ps))
  {
    if ps == [] {
    } else {
      var n := |ps| - 1;
      var init := Candidates(score, ps[..n]);
      CandidatesDistinct(score, ps[..n]);
      forall i | 0 <= i < |init|
        ensures Identity(init[i]) != LocatedKey(ps[n])
      {
        CandidateOrigin(score, ps[..n], init[i]);
        var j :| 0 <= j < n && ps[j] == Located(init[i].document, init[i].chunk);
        assert LocatedKey(ps[j]) != LocatedKey(ps[n]);
      }
    }
  }

  // ---------------------------------------------------------------- selection

  function TopK(score: Located -> real, documents: seq<StoredVersion>, k: nat): seq<Candidate> {
    var ranked := Sort(Candidates(score, Passages(documents)));
    ranked[..Min(k, |ranked|)]
  }

  lemma SortDistinct(s: seq<Candidate>)
    requires DistinctIdentities(s)
    ensures DistinctIdentities(Sort(s))
    ensures Ordered(Sort(s)) && multiset(Sort(s)) == multiset(s)
  {
    SortOrdered(s);
    PermutedDistinct(s, Sort(s));
  }

  /** Any permutation of the reader's documents gives the same selection. */
  lemma TopKCanonical(score: Located -> real, a: seq<StoredVersion>, b: seq<StoredVersion>, k: nat)
    requires multiset(a) == multiset(b) && Corpus(a) && Corpus(b)
    ensures TopK(score, a, k) == TopK(score, b, k)
  {
    CorpusLocations(a);
    CorpusLocations(b);
    PassagesPermuted(a, b);
    CandidatesPermuted(score, Passages(a), Passages(b));
    CandidatesDistinct(score, Passages(a));
    CandidatesDistinct(score, Passages(b));
    SortDistinct(Candidates(score, Passages(a)));
    SortDistinct(Candidates(score, Passages(b)));
    OrderIsUnique(Sort(Candidates(score, Passages(a))), Sort(Candidates(score, Passages(b))));
  }

  /** Whatever a prefix of an ordered list leaves out ranks behind everything in it. */
  lemma PrefixIsBest(ranked: seq<Candidate>, n: nat, c: Candidate, i: nat)
    requires Ordered(ranked) && DistinctIdentities(ranked) && n <= |ranked| && i < n && c in ranked
    ensures c in ranked[..n] || Before(ranked[i], c)
  {
    var j :| 0 <= j < |ranked| && ranked[j] == c;
    if j < n {
      assert ranked[..n][j] == c;
    } else {
      assert !Before(ranked[j], ranked[i]) && Identity(ranked[i]) != Identity(ranked[j]);
    }
  }

  lemma SortedPrefixIsBest(all: seq<Candidate>, n: nat, c: Candidate, i: nat)
    requires DistinctIdentities(all) && c in all && i < n <= |Sort(all)|
    ensures |Sort(all)| == |all|
    ensures Sort(all)[i] in all
    ensures Ordered(Sort(all)[..n]) && DistinctIdentities(Sort(all)[..n])
    ensures c in Sort(all)[..n] || Before(Sort(all)[i], c)
  {
    SortOrdered(all);
    SortDistinct(all);
    SameMembers(all, Sort(all), c);
    SameMembers(Sort(all), all, Sort(all)[i]);
    PrefixIsBest(Sort(all), n, c, i);
  }

  lemma SameMembers<T>(s: seq<T>, t: seq<T>, x: T)
    requires multiset(s) == multiset(t) && x in s
    ensures x in t
  {
    assert x in multiset(s);
  }

  /** The selection is in rank order, and nothing left out would have ranked before anything in it. */
  lemma TopKIsBest(score: Located -> real, documents: seq<StoredVersion>, k: nat, c: Candidate, i: nat)
    requires Corpus(documents)
    requires c in Candidates(score, Passages(documents))
    requires i < |TopK(score, documents, k)|
    ensures |TopK(score, documents, k)| == Min(k, |Candidates(score, Passages(documents))|)
    ensures TopK(score, documents, k)[i] in Candidates(score, Passages(documents))
    ensures Ordered(TopK(score, documents, k)) && DistinctIdentities(TopK(score, documents, k))
    ensures c in TopK(score, documents, k) || Before(TopK(score, documents, k)[i], c)
  {
    CorpusLocations(documents);
    CandidatesDistinct(score, Passages(documents));
    SortedPrefixIsBest(Candidates(score, Passages(documents)), |TopK(score, documents, k)|, c, i);
  }

  /** Best scores first; equal scores stand by document, then version, then chunk. */
  predicate ByScore(a: Candidate, b: Candidate) {
    || a.score > b.score
    || (a.score == b.score
      && (a.document.documentId < b.document.documentId
        || (a.document.documentId == b.document.documentId
          && (a.document.version < b.document.version
            || (a.document.version == b.document.version && a.chunk.index < b.chunk.index)))))
  }

  /** The selection is sorted by score, and whatever was left out scores no more than anything in a selection that is full. */
  lemma TopKByScore(score: Located -> real, documents: seq<StoredVersion>, k: nat)
    requires Corpus(documents)
    ensures var top := TopK(score, documents, k);
      && |top| <= k
      && (forall i, j :: 0 <= i < j < |top| ==> ByScore(top[i], top[j]))
      && (forall c, i :: c in Candidates(score, Passages(documents)) && c !in top && 0 <= i < |top| ==> ByScore(top[i], c))
      && (forall c :: c in Candidates(score, Passages(documents)) && c !in top ==> |top| == k)
  {
    var top := TopK(score, documents, k);
    var all := Candidates(score, Passages(documents));
    CorpusLocations(documents);
    CandidatesDistinct(score, Passages(documents));
    SortDistinct(all);
    SortOrdered(all);
    forall i, j | 0 <= i < j < |top|
      ensures ByScore(top[i], top[j])
    {
      assert !Before(Sort(all)[j], Sort(all)[i]) && Identity(Sort(all)[i]) != Identity(Sort(all)[j]);
    }
    forall c | c in all && c !in top
      ensures |top| == k && forall i :: 0 <= i < |top| ==> ByScore(top[i], c)
    {
      SameMembers(all, Sort(all), c);
      forall i | 0 <= i < |top|
        ensures ByScore(top[i], c)
      {
        PrefixIsBest(Sort(all), |top|, c, i);
      }
    }
  }

  /** The best-ranked sequence is the only one of its kind: any list with these properties is TopK. */
  lemma TopKUnique(score: Located -> real, documents: seq<StoredVersion>, k: nat, r: seq<Candidate>, rest: seq<Candidate>)
    requires Corpus(documents)
    requires multiset(r + rest) == multiset(Candidates(score, Passages(documents)))
    requires |r| == Min(k, |Candidates(score, Passages(documents))|)
    requires Ordered(r) && (forall a, b :: a in r && b in rest ==> Before(a, b))
    ensures r == TopK(score, documents, k)
  {
    var all := Candidates(score, Passages(documents));
    CorpusLocations(documents);
    CandidatesDistinct(score, Passages(documents));
    SortDistinct(all);
    SortOrdered(rest);
    var full := r + Sort(rest);
    assert multiset(full) == multiset(r + rest);
    assert Ordered(full) by {
      forall i, j | 0 <= i < j < |full|
        ensures !Before(full[j], full[i])
      {
        if i < |r| <= j {
          assert full[j] in multiset(rest);
          assert Before(full[i], full[j]);
        }
      }
    }
    PermutedDistinct(all, full);
    OrderIsUnique(full, Sort(all));
  }
}
