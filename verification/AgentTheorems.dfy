/** What holds of every reachable state of a run, over all attempts together. */
module AgentTheorems {
  import opened Wrappers
  import opened Evidence
  import opened ReviewGate
  import opened AgentData
  import opened Budget
  import opened RunRecords
  import opened AgentMachine
  import opened AgentInvariant
  import opened AgentSteps

  /**
   A decision whose tool is not replay safe is run at most once in the whole
   life of the run. A decision is identified by its number: each number belongs
   to one model call, and every run of a tool is of what that call decided.
   */
  lemma UnsafeToolRunsAtMostOnce(c: Config, s: System, i: nat, j: nat)
    requires ValidConfig(c) && Reachable(c, s)
    requires i < j < |s.log.dispatches|
    requires Unsafe(c, s.log.dispatches[i].decision) || Unsafe(c, s.log.dispatches[j].decision)
    ensures s.log.dispatches[i].step != s.log.dispatches[j].step
  {
    ReachableInv(c, s);
    assert HoldsTool(c, s.log.learned, s.log.dispatches[i].step, s.log.dispatches[i].decision);
    assert HoldsTool(c, s.log.learned, s.log.dispatches[j].step, s.log.dispatches[j].decision);
  }

  /** Every tool run is of the decision one model call made, and each model call had its own number. */
  lemma DispatchesFollowCalls(c: Config, s: System, i: nat)
    requires ValidConfig(c) && Reachable(c, s) && i < |s.log.dispatches|
    ensures var d := s.log.dispatches[i];
      && d.step in s.log.learned && s.log.learned[d.step] == d.decision
      && (exists n :: 0 <= n < |s.log.calls| && s.log.calls[n] == d.step)
      && (forall n, m :: 0 <= n < m < |s.log.calls| ==> s.log.calls[n] != s.log.calls[m])
  {
    ReachableInv(c, s);
    assert HoldsTool(c, s.log.learned, s.log.dispatches[i].step, s.log.dispatches[i].decision);
  }

  lemma {:induction false} DistinctBounded(s: seq<nat>, bound: nat)
    requires forall i :: 0 <= i < |s| ==> 1 <= s[i] <= bound
    requires forall i, j :: 0 <= i < j < |s| ==> s[i] != s[j]
    ensures |s| <= bound
  {
    if s == [] {
    } else {
      assert 1 <= s[0] <= bound;
      if bound !in s {
        DistinctBounded(s, bound - 1);
      } else {
        var i :| 0 <= i < |s| && s[i] == bound;
        DistinctBounded(s[..i] + s[i + 1..], bound - 1);
      }
    }
  }

  /** The model is called at most `max_decisions` times, counting every crash and every resume. */
  lemma DecisionBudget(c: Config, s: System)
    requires ValidConfig(c) && Reachable(c, s)
    ensures |s.log.calls| <= c.job.maxDecisions
    ensures s.run.checkpoint.decisions <= c.job.maxDecisions
    ensures forall n :: n in s.log.calls ==> n <= s.run.checkpoint.decisions
  {
    ReachableInv(c, s);
    DistinctBounded(s.log.calls, c.job.maxDecisions);
  }

  /** All deliveries that return hand out the same answer: the stored result of a succeeded run. */
  lemma AnswerAgreement(c: Config, s: System, i: nat)
    requires ValidConfig(c) && Reachable(c, s) && i < |s.log.answers|
    ensures s.run.state == Succeeded && s.run.result == Some(s.log.answers[i])
    ensures s.run.checkpoint.finalResult == s.run.result
  {
    ReachableInv(c, s);
  }

  /** Every checkpoint's observed evidence is exactly what the loop's own search results put into the stored history. */
  lemma CheckpointAgreesWithTranscript(c: Config, s: System)
    requires ValidConfig(c) && Reachable(c, s)
    ensures var cp := s.run.checkpoint;
      && cp.observedSources == SearchSources(HistoryOf(cp))
      && (cp.searchCompleted <==> Searched(HistoryOf(cp)))
      && |cp.observedPassages| <= 100
      && (DocumentRun(c) ==>
        && Keys(cp.observedPassages) == cp.observedSources
        && DistinctSources(cp.observedPassages)
        && AllShown(HistoryOf(cp), cp.observedPassages))
  {
    ReachableInv(c, s);
  }

  /** Writing the loop's variables to a checkpoint and reading them back gives the same variables, and leaves the budget alone. */
  lemma CheckpointRoundTrip(c: Config, cp: Checkpoint, l: Locals, pending: Option<Decision>, safe: bool)
    requires l.question == c.job.message
    ensures var saved := Snapshot(c, cp, l, pending, safe);
      && LoadLocals(c, saved) == l.(replay := pending)
      && (UnsafePending(saved) <==> pending.Some? && !safe)
      && !ModeConflict(c, saved)
      && TotalsOf(saved) == TotalsOf(cp) && saved.limits == cp.limits && saved.recoveries == cp.recoveries
      && saved.documentReview == cp.documentReview && saved.finalResult == cp.finalResult
  {
  }

  /** A later attempt goes on where the stored checkpoint stands: a pending call keeps its number and is replayed, and nothing seen is lost. */
  lemma ResumesWhereStored(c: Config, s: System)
    requires ValidConfig(c) && Reachable(c, s)
    ensures var cp := s.run.checkpoint;
      var l := LoadLocals(c, cp);
      && l.replay == cp.pending
      && FirstStep(l) == (if cp.pending.Some? then cp.decisions else cp.decisions + 1)
      && l.history == (if cp.history.Some? then cp.history.value else [CallerMessage(c.job.message)])
      && l.question == c.job.message
      && l.toolCalls == cp.toolCalls && l.toolsCompleted == cp.toolsCompleted
      && Transcript(c, l.history, l.searchCompleted, l.sources, l.passages)
  {
    ReachableInv(c, s);
    NoEvidenceEntry(CallerMessage(c.job.message));
  }

  /** No later attempt is ever refused over the answer mode of what an earlier one stored. */
  lemma ModeNeverConflicts(c: Config, s: System)
    requires ValidConfig(c) && Reachable(c, s)
    ensures !ModeConflict(c, s.run.checkpoint)
  {
    ReachableInv(c, s);
  }

  /**
   Merging search results into the evidence is refused exactly when two passages
   with one identity differ; otherwise nothing is lost and what was there stays first.
   */
  lemma {:induction false} MergeExactly(passages: seq<Passage>, found: seq<Passage>)
    requires DistinctSources(passages)
    ensures Merge(passages, found).Some? <==> Consistent(passages, found)
    ensures Merge(passages, found).Some? ==>
      && passages <= Merge(passages, found).value
      && forall p :: p in found ==> p in Merge(passages, found).value
    decreases |found|
  {
    if found == [] {
    } else {
      var p, rest := found[0], found[1..];
      LookupIffKey(passages, SourceKey(p));
      LookupSound(passages, SourceKey(p));
      if Lookup(passages, SourceKey(p)).None? {
        DistinctSnoc(passages, p);
        MergeExactly(passages + [p], rest);
        ConsistentMove(passages, p, rest);
        assert p in passages + [p];
      } else {
        MergeExactly(passages, rest);
        ConsistentKnown(passages, p, rest, Lookup(passages, SourceKey(p)).value);
      }
      assert found == [p] + rest;
    }
  }

  /** New passages agree with the known ones and with each other wherever they share an identity. */
  predicate Consistent(passages: seq<Passage>, found: seq<Passage>) {
    forall p, q :: p in found && q in passages + found && SourceKey(p) == SourceKey(q) ==> p == q
  }

  lemma ConsistentMove(passages: seq<Passage>, p: Passage, rest: seq<Passage>)
    requires SourceKey(p) !in Keys(passages)
    ensures Consistent(passages, [p] + rest) <==> Consistent(passages + [p], rest)
  {
    forall q | q in passages
      ensures SourceKey(q) != SourceKey(p)
    {
      var i :| 0 <= i < |passages| && passages[i] == q;
    }
    assert forall q :: q in [p] + rest <==> q == p || q in rest;
    assert forall q :: q in passages + [p] <==> q in passages || q == p;
  }

  lemma ConsistentKnown(passages: seq<Passage>, p: Passage, rest: seq<Passage>, known: Passage)
    requires DistinctSources(passages) && known in passages && SourceKey(known) == SourceKey(p)
    ensures Consistent(passages, [p] + rest) <==> known == p && Consistent(passages, rest)
  {
    assert forall q :: q in [p] + rest <==> q == p || q in rest;
    forall q | q in passages && SourceKey(q) == SourceKey(p)
      ensures q == known
    {
      var i :| 0 <= i < |passages| && passages[i] == q;
      var j :| 0 <= j < |passages| && passages[j] == known;
    }
  }

  /** Exactly which tool results are refused as evidence: a document run's search that contradicts what is known, or has too much of it. */
  lemma ObserveRefusesExactly(c: Config, l: Locals, d: Decision, r: ToolResult)
    requires d.ToolCall? && DistinctSources(l.passages) && |l.passages| <= 100
    ensures Observe(c, l, d, r).None? <==>
      && d.name == "search_documents" && r.SearchResult? && c.job.answerMode == DocumentMode
      && (!Consistent(l.passages, r.passages) || |Keys(l.passages) + Keys(r.passages)| > 100)
  {
    if r.SearchResult? {
      MergeExactly(l.passages, r.passages);
      if Merge(l.passages, r.passages).Some? {
        MergeKeys(l.passages, r.passages);
        DistinctKeys(Merge(l.passages, r.passages).value);
      }
    }
  }

  lemma {:induction false} DistinctKeys(passages: seq<Passage>)
    requires DistinctSources(passages)
    ensures |Keys(passages)| == |passages|
  {
    if passages == [] {
    } else {
      var n := |passages| - 1;
      DistinctKeys(passages[..n]);
      KeysSnoc(passages[..n], passages[n]);
      assert passages[..n] + [passages[n]] == passages;
      assert SourceKey(passages[n]) !in Keys(passages[..n]);
    }
  }

  /** An answer passes its checks exactly when it is of the run's mode and cites only what the transcript's searches show. */
  lemma AnswerPassesExactly(c: Config, a: Decision, history: seq<Message>, searched: bool, sources: set<SourceReference>,
    passages: seq<Passage>)
    requires Transcript(c, history, searched, sources, passages)
    ensures CitationsHold(c, a, sources, searched) <==>
      match a
      case ToolCall(_, _) => false
      case FinalAnswer(_, citations) =>
        c.job.answerMode == General && forall s :: s in citations ==> s in SearchSources(history)
      case DocumentAnswer(Answered(_, citations)) =>
        c.job.answerMode == DocumentMode && Searched(history) && forall s :: s in citations ==> s in SearchSources(history)
      case DocumentAnswer(Insufficient(_)) => c.job.answerMode == DocumentMode && Searched(history)
  {
    match a
    case ToolCall(_, _) =>
    case FinalAnswer(_, citations) => AllObservedIs(citations, sources);
    case DocumentAnswer(result) => AllObservedIs(Cited(result), sources);
  }

  lemma AllObservedIs(citations: seq<SourceReference>, sources: set<SourceReference>)
    ensures AllObserved(citations, sources) <==> forall s :: s in citations ==> s in sources
  {
  }

  /** A final result that reached a checkpoint passes every check recovery makes of it: mode, citations, receipt. */
  lemma FinalResultRecovers(c: Config, s: System)
    requires ValidConfig(c) && Reachable(c, s) && s.run.checkpoint.finalResult.Some?
    ensures Backed(c, s.run.checkpoint, s.run.checkpoint.finalResult.value)
    ensures s.run.checkpoint.finalResult.value.DocumentAnswer? <==> DocumentRun(c)
  {
    ReachableInv(c, s);
  }

  /** A succeeded document run carries a receipt, for this answer and this evidence, that the gate accepts. */
  lemma SucceededDocumentIsCertified(c: Config, s: System)
    requires ValidConfig(c) && Reachable(c, s) && DocumentRun(c) && s.run.state == Succeeded
    ensures s.run.result.Some? && s.run.result.value.DocumentAnswer?
    ensures var cp := s.run.checkpoint;
      && cp.searchCompleted
      && cp.documentReview.Some?
      && cp.documentReview.value.request ==
        ReviewRequest(c.job.message, s.run.result.value.result, cp.observedPassages)
      && Accepts(c.alnum, cp.documentReview.value.request, cp.documentReview.value.review)
  {
    ReachableInv(c, s);
    assert Backed(c, s.run.checkpoint, s.run.result.value);
  }

  /** What the review behind a stored document answer says, for an answer and for an abstention. */
  lemma StoredReviewSays(c: Config, s: System)
    requires ValidConfig(c) && Reachable(c, s) && DocumentRun(c) && s.run.state == Succeeded
    ensures s.run.result.Some? && s.run.result.value.DocumentAnswer? && s.run.checkpoint.documentReview.Some?
    ensures Searched(HistoryOf(s.run.checkpoint))
    ensures var review := s.run.checkpoint.documentReview.value.review;
      match s.run.result.value.result
      case Answered(_, _) =>
        && review.verdict == Supported && review.answerability == Answerable
        && review.coversAllClaims && review.addressesQuestion && !review.evidenceConflict && review.claims != []
        && forall i :: 0 <= i < |review.claims| ==> review.claims[i].verdict == ClaimSupported && review.claims[i].excerpts != []
      case Insufficient(_) =>
        && review.verdict == AppropriateAbstention && review.addressesQuestion && review.claims == []
        && review.answerability in {InsufficientEvidence, ConflictingEvidence}
  {
    SucceededDocumentIsCertified(c, s);
    CheckpointAgreesWithTranscript(c, s);
    var receipt := s.run.checkpoint.documentReview.value;
    if receipt.request.answer.Answered? {
      forall i | 0 <= i < |receipt.review.claims|
        ensures receipt.review.claims[i].verdict == ClaimSupported && receipt.review.claims[i].excerpts != []
      {
        assert ClaimHolds(receipt.request.answer, receipt.request.passages, receipt.review.claims[i]);
      }
    }
  }

  /** Every citation of a stored answer names a passage that was part of the review request and shown in the transcript. */
  lemma CitationsResolve(c: Config, s: System, citation: SourceReference) returns (p: Passage)
    requires ValidConfig(c) && Reachable(c, s) && DocumentRun(c) && s.run.state == Succeeded
    requires s.run.result.Some? && s.run.result.value.DocumentAnswer? && citation in Cited(s.run.result.value.result)
    ensures SourceKey(p) == citation
    ensures p in s.run.checkpoint.observedPassages
    ensures s.run.checkpoint.documentReview.Some? && p in s.run.checkpoint.documentReview.value.request.passages
    ensures Shown(HistoryOf(s.run.checkpoint), p)
  {
    ReachableInv(c, s);
    SucceededDocumentIsCertified(c, s);
    var cp := s.run.checkpoint;
    var cited := Cited(s.run.result.value.result);
    var n :| 0 <= n < |cited| && cited[n] == citation;
    assert citation in Keys(cp.observedPassages);
    var i :| 0 <= i < |cp.observedPassages| && SourceKey(cp.observedPassages[i]) == citation;
    p := cp.observedPassages[i];
  }

  /**
   End to end: every alphanumeric character of a stored document answer lies in
   a claim the review supported with an exact quote from a passage that one of
   this run's own searches returned.
   */
  lemma StoredAnswerIsGrounded(c: Config, s: System, i: nat)
    requires ValidConfig(c) && Reachable(c, s) && DocumentRun(c) && s.run.state == Succeeded
    requires s.run.result.Some? && s.run.result.value.DocumentAnswer? && s.run.result.value.result.Answered?
    requires i < |s.run.result.value.result.answer| && c.alnum(s.run.result.value.result.answer[i])
    ensures exists claim: ClaimReview, e: Excerpt, p: Passage ::
      && Marks(s.run.result.value.result.answer, claim.claim, i)
      && e in claim.excerpts && e.source in s.run.result.value.result.citations
      && SourceKey(p) == e.source && Contains(p.chunk.text, e.quote)
      && Shown(HistoryOf(s.run.checkpoint), p)
  {
    SucceededDocumentIsCertified(c, s);
    CheckpointAgreesWithTranscript(c, s);
    var receipt := s.run.checkpoint.documentReview.value;
    AcceptedAnswerIsGrounded(c.alnum, receipt.request, receipt.review, i);
    var claim: ClaimReview, e: Excerpt, p: Passage :|
      && claim in receipt.review.claims && Marks(receipt.request.answer.answer, claim.claim, i)
      && e in claim.excerpts && e.source in receipt.request.answer.citations
      && p in receipt.request.passages && SourceKey(p) == e.source && Contains(p.chunk.text, e.quote);
    assert Shown(HistoryOf(s.run.checkpoint), p);
  }

  /** A general answer cites only passages the run's searches returned. */
  lemma GeneralCitationsObserved(c: Config, s: System, citation: SourceReference)
    requires ValidConfig(c) && Reachable(c, s) && !DocumentRun(c) && s.run.state == Succeeded
    requires s.run.result.Some? && s.run.result.value.FinalAnswer? && citation in s.run.result.value.citations
    ensures citation in SearchSources(HistoryOf(s.run.checkpoint))
  {
    ReachableInv(c, s);
    assert Backed(c, s.run.checkpoint, s.run.result.value);
    var citations := s.run.result.value.citations;
    var n :| 0 <= n < |citations| && citations[n] == citation;
  }
}
