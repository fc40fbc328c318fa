/**
 The deterministic gate around a model's evidence review
 (crewos/application/services/document_review_validation.py).
 Whether a character is alphanumeric is a parameter: the gate never looks
 further into Unicode than that.
 */
module ReviewGate {
  import opened Wrappers
  import opened Evidence

  datatype DocumentResult =
    | Answered(answer: string, citations: seq<SourceReference>)
    | Insufficient(explanation: string)

  datatype Excerpt = Excerpt(source: SourceReference, quote: string)

  datatype ClaimVerdict = ClaimSupported | ClaimUnsupported | ClaimContradicted | ClaimUncertain

  datatype ClaimReview = ClaimReview(claim: string, verdict: ClaimVerdict, excerpts: seq<Excerpt>)

  datatype Verdict = Supported | Unsupported | Conflicting | Uncertain | AppropriateAbstention | UnnecessaryAbstention

  datatype Answerability = Answerable | InsufficientEvidence | ConflictingEvidence | UncertainEvidence

  datatype Review = Review(
    verdict: Verdict,
    answerability: Answerability,
    coversAllClaims: bool,
    addressesQuestion: bool,
    evidenceConflict: bool,
    claims: seq<ClaimReview>)

  datatype ReviewRequest = ReviewRequest(question: string, answer: DocumentResult, passages: seq<Passage>)

  /** The digest is injective, so a receipt holds the request itself in its place. */
  datatype Receipt = Receipt(policy: string, request: ReviewRequest, review: Review)

  const POLICY_VERSION := "document_support_gate_v3"

  // -------------------------------------------------------------- occurrences

  predicate Occurs(text: string, sub: string, at: nat) {
    at + |sub| <= |text| && text[at..at + |sub|] == sub
  }

  predicate Contains(text: string, sub: string) {
    exists at: nat :: at <= |text| && Occurs(text, sub, at)
  }

  /** The first occurrence at or after a position, or -1. */
  function Find(text: string, sub: string, from: nat): (r: int)
    ensures r == -1 || from <= r
    ensures r >= 0 ==> Occurs(text, sub, r)
    ensures forall p: nat :: from <= p && Occurs(text, sub, p) ==> 0 <= r <= p
    decreases |text| - from
  {
    if from + |sub| > |text| then -1
    else if text[from..from + |sub|] == sub then from
    else Find(text, sub, from + 1)
  }

  function Range(from: nat, size: nat): (r: set<nat>)
    ensures forall i: nat :: i in r <==> from <= i < from + size
  {
    if size == 0 then {} else Range(from, size - 1) + {from + size - 1}
  }

  /** Position i lies inside some occurrence of the claim. */
  ghost predicate Marks(text: string, claim: string, i: nat) {
    exists at: nat :: at <= i < at + |claim| && Occurs(text, claim, at)
  }

  /** The overlapping find-from-start-plus-one scan marks exactly the occurrences' positions. */
  method MarkOccurrences(text: string, claim: string, first: int) returns (positions: set<nat>)
    requires first == Find(text, claim, 0)
    ensures forall i: nat :: i in positions <==> Marks(text, claim, i)
  {
    positions := {};
    var start := first;
    while start >= 0
      invariant -1 <= start && (start >= 0 ==> Occurs(text, claim, start))
      invariant forall i: nat :: i in positions ==> Marks(text, claim, i)
      invariant forall p: nat, i: nat ::
        Occurs(text, claim, p) && (start == -1 || p < start) && p <= i < p + |claim| ==> i in positions
      decreases if start < 0 then 0 else |text| + 1 - start
    {
      positions := positions + Range(start, |claim|);
      start := Find(text, claim, start + 1);
    }
  }

  // ------------------------------------------------------------ acceptance

  /** The supplied passage with this identity; a later one replaces an earlier one. */
  function Lookup(passages: seq<Passage>, source: SourceReference): Option<Passage> {
    if passages == [] then None
    else
      var last := passages[|passages| - 1];
      if SourceKey(last) == source then Some(last) else Lookup(passages[..|passages| - 1], source)
  }

  predicate ExactCitedQuote(citations: seq<SourceReference>, passages: seq<Passage>, e: Excerpt) {
    && e.source in citations
    && Lookup(passages, e.source).Some?
    && Contains(Lookup(passages, e.source).value.chunk.text, e.quote)
  }

  predicate ClaimHolds(answer: DocumentResult, passages: seq<Passage>, c: ClaimReview)
    requires answer.Answered?
  {
    && Contains(answer.answer, c.claim)
    && c.verdict == ClaimSupported
    && c.excerpts != []
    && forall i :: 0 <= i < |c.excerpts| ==> ExactCitedQuote(answer.citations, passages, c.excerpts[i])
  }

  ghost predicate Covered(text: string, claims: seq<ClaimReview>, i: nat) {
    exists c :: 0 <= c < |claims| && Marks(text, claims[c].claim, i)
  }

  predicate EnvelopePasses(review: Review) {
    && review.verdict == Supported
    && review.answerability == Answerable
    && review.coversAllClaims
    && review.addressesQuestion
    && !review.evidenceConflict
    && review.claims != []
  }

  /** What an accepted review means. */
  ghost predicate Accepts(alnum: char -> bool, request: ReviewRequest, review: Review) {
    match request.answer
    case Answered(answer, _) =>
      && EnvelopePasses(review)
      && (forall c :: 0 <= c < |review.claims| ==> ClaimHolds(request.answer, request.passages, review.claims[c]))
      && (forall i :: 0 <= i < |answer| && alnum(answer[i]) ==> Covered(answer, review.claims, i))
    case Insufficient(_) =>
      && review.verdict == AppropriateAbstention
      && (review.answerability == InsufficientEvidence || review.answerability == ConflictingEvidence)
      && review.claims == []
      && review.addressesQuestion
  }

  lemma LookupSound(passages: seq<Passage>, source: SourceReference)
    ensures var r := Lookup(passages, source);
      && (r.Some? ==> r.value in passages && SourceKey(r.value) == source)
      && (r.None? ==> source !in Keys(passages))
  {
  }

  /** With distinct identities the order of the passages does not matter. */
  lemma {:induction false} LookupUnique(passages: seq<Passage>, p: Passage)
    requires DistinctSources(passages) && p in passages
    ensures Lookup(passages, SourceKey(p)) == Some(p)
  {
    var n := |passages| - 1;
    if passages[n] == p {
    } else {
      var i :| 0 <= i < |passages| && passages[i] == p;
      assert SourceKey(passages[i]) != SourceKey(passages[n]);
      assert passages[..n][i] == p;
      LookupUnique(passages[..n], p);
    }
  }

  method ValidateDocumentReview(alnum: char -> bool, request: ReviewRequest, review: Review) returns (accepted: bool)
    ensures accepted <==> Accepts(alnum, request, review)
  {
    if request.answer.Insufficient? {
      return !(review.verdict != AppropriateAbstention
        || review.answerability !in {InsufficientEvidence, ConflictingEvidence}
        || review.claims != []
        || !review.addressesQuestion);
    }
    if review.verdict != Supported
      || review.answerability != Answerable
      || !review.coversAllClaims
      || !review.addressesQuestion
      || review.evidenceConflict
      || review.claims == []
    {
      return false;
    }
    var answer := request.answer.answer;
    var covered: set<nat> := {};
    for n := 0 to |review.claims|
      invariant forall c :: 0 <= c < n ==> ClaimHolds(request.answer, request.passages, review.claims[c])
      invariant forall i: nat :: i in covered <==> Covered(answer, review.claims[..n], i)
    {
      var marked := CheckClaim(request.answer, request.passages, review.claims[n]);
      if marked.None? {
        return false;
      }
      CoveredExtend(answer, review.claims, n);
      covered := covered + marked.value;
    }
    assert review.claims[..|review.claims|] == review.claims;
    for index := 0 to |answer|
      invariant forall i :: 0 <= i < index && alnum(answer[i]) ==> Covered(answer, review.claims, i)
    {
      if alnum(answer[index]) && index !in covered {
        return false;
      }
    }
    return true;
  }

  /** One turn of the claim loop: the positions it adds, or nothing if the claim is rejected. */
  method CheckClaim(answer: DocumentResult, passages: seq<Passage>, claim: ClaimReview)
    returns (marked: Option<set<nat>>)
    requires answer.Answered?
    ensures marked.Some? <==> ClaimHolds(answer, passages, claim)
    ensures marked.Some? ==> forall i: nat :: i in marked.value <==> Marks(answer.answer, claim.claim, i)
  {
    var start := Find(answer.answer, claim.claim, 0);
    if start < 0 {
      return None;
    }
    var positions := MarkOccurrences(answer.answer, claim.claim, start);
    if claim.verdict != ClaimSupported || claim.excerpts == [] {
      return None;
    }
    for e := 0 to |claim.excerpts|
      invariant forall i :: 0 <= i < e ==> ExactCitedQuote(answer.citations, passages, claim.excerpts[i])
    {
      var excerpt := claim.excerpts[e];
      var passage := Lookup(passages, excerpt.source);
      if excerpt.source !in answer.citations
        || passage.None?
        || Find(passage.value.chunk.text, excerpt.quote, 0) < 0
      {
        assert !ExactCitedQuote(answer.citations, passages, excerpt);
        return None;
      }
      assert Contains(passage.value.chunk.text, excerpt.quote);
    }
    return Some(positions);
  }

  lemma CoveredExtend(text: string, claims: seq<ClaimReview>, n: nat)
    requires n < |claims|
    ensures forall i: nat ::
      Covered(text, claims[..n + 1], i) <==> Covered(text, claims[..n], i) || Marks(text, claims[n].claim, i)
  {
    forall i: nat
      ensures Covered(text, claims[..n + 1], i) <==> Covered(text, claims[..n], i) || Marks(text, claims[n].claim, i)
    {
      if Covered(text, claims[..n], i) {
        var c :| 0 <= c < n && Marks(text, claims[..n][c].claim, i);
        assert claims[..n + 1][c] == claims[..n][c];
      }
      if Covered(text, claims[..n + 1], i) {
        var c :| 0 <= c < n + 1 && Marks(text, claims[..n + 1][c].claim, i);
        assert c < n ==> claims[..n][c] == claims[..n + 1][c];
      }
      if Marks(text, claims[n].claim, i) {
        assert claims[..n + 1][n] == claims[n];
      }
    }
  }

  // ----------------------------------------------------------------- receipts

  /** The receipt certifies exactly this request. */
  ghost predicate Certifies(alnum: char -> bool, request: ReviewRequest, receipt: Receipt) {
    && receipt.policy == POLICY_VERSION
    && receipt.request == request
    && Accepts(alnum, request, receipt.review)
  }

  method ReviewReceipt(alnum: char -> bool, request: ReviewRequest, review: Review) returns (r: Option<Receipt>)
    ensures r.Some? <==> Accepts(alnum, request, review)
    ensures r.Some? ==> Certifies(alnum, request, r.value) && r.value.review == review
  {
    var accepted := ValidateDocumentReview(alnum, request, review);
    if !accepted {
      return None;
    }
    return Some(Receipt(POLICY_VERSION, request, review));
  }

  method ValidateReviewReceipt(alnum: char -> bool, request: ReviewRequest, receipt: Receipt) returns (ok: bool)
    ensures ok <==> Certifies(alnum, request, receipt)
  {
    if receipt.policy != POLICY_VERSION || receipt.request != request {
      return false;
    }
    ok := ValidateDocumentReview(alnum, request, receipt.review);
  }

  /** In an accepted answer every alphanumeric character sits inside a quoted-evidence claim. */
  lemma AcceptedAnswerIsGrounded(alnum: char -> bool, request: ReviewRequest, review: Review, i: nat)
    requires request.answer.Answered? && Accepts(alnum, request, review)
    requires i < |request.answer.answer| && alnum(request.answer.answer[i])
    ensures exists c: ClaimReview, e: Excerpt, p: Passage ::
      && c in review.claims && Marks(request.answer.answer, c.claim, i)
      && e in c.excerpts && e.source in request.answer.citations
      && p in request.passages && SourceKey(p) == e.source && Contains(p.chunk.text, e.quote)
  {
    var n :| 0 <= n < |review.claims| && Marks(request.answer.answer, review.claims[n].claim, i);
    var c := review.claims[n];
    assert ClaimHolds(request.answer, request.passages, c);
    var e := c.excerpts[0];
    assert ExactCitedQuote(request.answer.citations, request.passages, e);
    LookupSound(request.passages, e.source);
    var p := Lookup(request.passages, e.source).value;
    assert c in review.claims && e in c.excerpts && p in request.passages;
  }
}
