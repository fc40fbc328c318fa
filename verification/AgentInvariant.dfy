/** The inductive invariant of a run and all its attempts, and its preservation by every event. */
module AgentInvariant {
  import opened Wrappers
  import opened Evidence
  import opened ReviewGate
  import opened AgentData
  import opened Budget
  import opened RunRecords
  import opened AgentMachine

  // ------------------------------------------------------------- transcripts

  predicate IsSearch(m: Message) {
    m.Observation? && m.name == SEARCH && m.result.SearchResult?
  }

  /** One of the loop's own searches came back. */
  predicate Searched(history: seq<Message>) {
    exists i :: 0 <= i < |history| && IsSearch(history[i])
  }

  lemma SearchedConcat(a: seq<Message>, b: seq<Message>)
    ensures Searched(a + b) <==> Searched(a) || Searched(b)
  {
    if Searched(a) {
      var i :| 0 <= i < |a| && IsSearch(a[i]);
      assert (a + b)[i] == a[i];
    }
    if Searched(b) {
      var i :| 0 <= i < |b| && IsSearch(b[i]);
      assert (a + b)[|a| + i] == b[i];
    }
  }

  function EntrySources(m: Message): set<SourceReference> {
    if IsSearch(m) then Keys(m.result.passages) else {}
  }

  /** The identities of every passage the loop's own search results put into the conversation. */
  function SearchSources(history: seq<Message>): set<SourceReference> {
    if history == [] then {} else SearchSources(history[..|history| - 1]) + EntrySources(history[|history| - 1])
  }

  /** A passage with this payload came back from one of the loop's own searches. */
  predicate Shown(history: seq<Message>, p: Passage) {
    exists i :: 0 <= i < |history| && p in EntryPassages(history[i])
  }

  function EntryPassages(m: Message): seq<Passage> {
    if IsSearch(m) then m.result.passages else []
  }

  lemma {:induction false} SearchSourcesConcat(a: seq<Message>, b: seq<Message>)
    ensures SearchSources(a + b) == SearchSources(a) + SearchSources(b)
  {
    if b == [] {
      assert a + b == a;
    } else {
      SearchSourcesConcat(a, b[..|b| - 1]);
      assert (a + b)[..|a + b| - 1] == a + b[..|b| - 1];
    }
  }

  lemma ShownConcat(a: seq<Message>, b: seq<Message>)
    ensures forall p :: Shown(a, p) ==> Shown(a + b, p)
    ensures forall p :: Shown(b, p) ==> Shown(a + b, p)
  {
    forall p | Shown(a, p)
      ensures Shown(a + b, p)
    {
      var i :| 0 <= i < |a| && p in EntryPassages(a[i]);
      assert (a + b)[i] == a[i];
    }
    forall p | Shown(b, p)
      ensures Shown(a + b, p)
    {
      var i :| 0 <= i < |b| && p in EntryPassages(b[i]);
      assert (a + b)[|a| + i] == b[i];
    }
  }

  /** Observed evidence is exactly what the transcript shows, and bounded. */
  predicate Transcript(c: Config, history: seq<Message>, searched: bool, sources: set<SourceReference>, passages: seq<Passage>) {
    && (searched <==> Searched(history))
    && sources == SearchSources(history)
    && |passages| <= MAX_PASSAGES
    && (DocumentRun(c) ==> Keys(passages) == sources && DistinctSources(passages) && AllShown(history, passages))
  }

  predicate AllShown(history: seq<Message>, passages: seq<Passage>) {
    forall i :: 0 <= i < |passages| ==> Shown(history, passages[i])
  }

  lemma {:induction false} LookupIffKey(passages: seq<Passage>, key: SourceReference)
    ensures Lookup(passages, key).Some? <==> key in Keys(passages)
  {
    if passages == [] {
    } else {
      var n := |passages| - 1;
      LookupIffKey(passages[..n], key);
      KeysSnoc(passages[..n], passages[n]);
      assert passages[..n] + [passages[n]] == passages;
    }
  }

  lemma KeysSnoc(passages: seq<Passage>, p: Passage)
    ensures Keys(passages + [p]) == Keys(passages) + {SourceKey(p)}
  {
    var all := passages + [p];
    forall key | key in Keys(passages) + {SourceKey(p)}
      ensures key in Keys(all)
    {
      if key in Keys(passages) {
        var i :| 0 <= i < |passages| && SourceKey(passages[i]) == key;
        assert SourceKey(all[i]) == key;
      } else {
        assert SourceKey(all[|passages|]) == key;
      }
    }
  }

  lemma KeysCons(passages: seq<Passage>)
    requires passages != []
    ensures Keys(passages) == {SourceKey(passages[0])} + Keys(passages[1..])
  {
    forall key | key in {SourceKey(passages[0])} + Keys(passages[1..])
      ensures key in Keys(passages)
    {
      if key in Keys(passages[1..]) {
        var i :| 0 <= i < |passages[1..]| && SourceKey(passages[1..][i]) == key;
        assert SourceKey(passages[i + 1]) == key;
      }
    }
    forall key | key in Keys(passages)
      ensures key in {SourceKey(passages[0])} + Keys(passages[1..])
    {
      var i :| 0 <= i < |passages| && SourceKey(passages[i]) == key;
      assert i > 0 ==> SourceKey(passages[1..][i - 1]) == key;
    }
  }

  lemma {:induction false} MergeKeys(passages: seq<Passage>, found: seq<Passage>)
    requires DistinctSources(passages) && Merge(passages, found).Some?
    ensures Keys(Merge(passages, found).value) == Keys(passages) + Keys(found)
    ensures DistinctSources(Merge(passages, found).value)
    decreases |found|
  {
    if found == [] {
    } else {
      var p := found[0];
      LookupIffKey(passages, SourceKey(p));
      KeysCons(found);
      if Lookup(passages, SourceKey(p)).None? {
        KeysSnoc(passages, p);
        DistinctSnoc(passages, p);
        MergeKeys(passages + [p], found[1..]);
      } else {
        MergeKeys(passages, found[1..]);
      }
    }
  }

  lemma {:induction false} MergeAdds(passages: seq<Passage>, found: seq<Passage>)
    requires Merge(passages, found).Some?
    ensures forall p :: p in Merge(passages, found).value ==> p in passages || p in found
    decreases |found|
  {
    if found == [] {
    } else {
      var p := found[0];
      MergeAdds(if Lookup(passages, SourceKey(p)).None? then passages + [p] else passages, found[1..]);
    }
  }

  lemma DistinctSnoc(passages: seq<Passage>, p: Passage)
    requires DistinctSources(passages) && SourceKey(p) !in Keys(passages)
    ensures DistinctSources(passages + [p])
  {
    assert forall i :: 0 <= i < |passages| ==> SourceKey(passages[i]) in Keys(passages);
  }

  lemma NoEvidenceEntry(m: Message)
    requires !m.Observation?
    ensures SearchSources([m]) == {} && !Searched([m])
  {
    assert [m][..0] == [];
  }

  /** A tool result extends the transcript and the evidence together. */
  lemma ObserveKeepsTranscript(c: Config, l: Locals, d: Decision, r: ToolResult)
    requires d.ToolCall? && Transcript(c, l.history, l.searchCompleted, l.sources, l.passages)
    requires Observe(c, l, d, r).Some?
    ensures var next := Observe(c, l, d, r).value;
      && Transcript(c, next.history, next.searchCompleted, next.sources, next.passages)
      && next.step == l.step && next.question == l.question && next.replay == l.replay
  {
    var two := [Proposal(d), Observation(d.name, r)];
    SearchSourcesConcat(l.history, two);
    NoEvidenceEntry(Proposal(d));
    assert two[..1] == [Proposal(d)];
    assert SearchSources(two) == SearchSources(two[..1]) + EntrySources(two[1]);
    ShownConcat(l.history, two);
    SearchedConcat(l.history, two);
    assert IsSearch(two[1]) <==> d.name == SEARCH && r.SearchResult?;
    if d.name == SEARCH && r.SearchResult? && DocumentRun(c) {
      MergeKeys(l.passages, r.passages);
      MergeAdds(l.passages, r.passages);
      assert forall p :: p in r.passages ==> p in EntryPassages(two[1]);
    }
  }

  /** Entries other than search observations add no evidence. */
  predicate NoEvidence(notes: seq<Message>) {
    SearchSources(notes) == {} && !Searched(notes)
  }

  // -------------------------------------------------------------- checkpoints

  /** The tool call the model decided on at a step. */
  predicate HoldsTool(c: Config, learned: map<nat, Decision>, step: nat, d: Decision) {
    d.ToolCall? && d.name in c.tools && step >= 1 && step in learned && learned[step] == d
  }

  predicate PendingInv(c: Config, learned: map<nat, Decision>, cp: Checkpoint) {
    cp.pending.Some? ==>
      && HoldsTool(c, learned, cp.decisions, cp.pending.value)
      && cp.replaySafe == c.tools[cp.pending.value.name]
  }

  function HistoryOf(cp: Checkpoint): seq<Message> {
    if cp.history.Some? then cp.history.value else []
  }

  /** A checkpoint is of the job's answer mode, and one with a history says so. */
  predicate ModeInv(c: Config, cp: Checkpoint) {
    && (cp.answerMode.Some? ==> cp.answerMode.value == c.job.answerMode)
    && (cp.history.Some? ==> cp.answerMode.Some?)
  }

  ghost predicate CheckpointInv(c: Config, learned: map<nat, Decision>, cp: Checkpoint) {
    && cp.decisions <= c.job.maxDecisions
    && Transcript(c, HistoryOf(cp), cp.searchCompleted, cp.observedSources, cp.observedPassages)
    && (cp.question.Some? ==> cp.question.value == c.job.message)
    && ModeInv(c, cp)
    && PendingInv(c, learned, cp)
    && (cp.finalResult.Some? ==> Backed(c, cp, cp.finalResult.value))
  }

  // ----------------------------------------------------------------- workers

  predicate DispatchedAt(log: Log, step: nat) {
    exists i :: 0 <= i < |log.dispatches| && log.dispatches[i].step == step
  }

  predicate Unsafe(c: Config, d: Decision) {
    d.ToolCall? && d.name in c.tools && !c.tools[d.name]
  }

  predicate GrantedTo(log: Log, step: nat, token: Token) {
    step in log.granted && log.granted[step] == token
  }

  /** Only the attempt that asked for an unsafe decision holds it, and it has not been run. */
  predicate Sole(c: Config, log: Log, w: Worker, d: Decision) {
    Unsafe(c, d) ==> GrantedTo(log, w.at.step, w.token) && !DispatchedAt(log, w.at.step)
  }

  /** In the loop, before any final result. */
  predicate LoopInv(c: Config, w: Worker) {
    && w.cp.finalResult.None?
    && Transcript(c, w.at.history, w.at.searchCompleted, w.at.sources, w.at.passages)
    && w.at.question == c.job.message
    && w.at.step <= c.job.maxDecisions
  }

  /** Within one decision: its number is already checkpointed. */
  predicate StepInv(c: Config, w: Worker) {
    LoopInv(c, w) && w.at.replay.None? && w.at.step == w.cp.decisions
  }

  /** The checkpoint shows the same evidence as the loop's variables. */
  predicate Mirror(c: Config, w: Worker) {
    && w.cp.observedSources == w.at.sources
    && w.cp.observedPassages == w.at.passages
    && w.cp.searchCompleted == w.at.searchCompleted
    && w.cp.question == Some(w.at.question)
    && w.cp.answerMode == Some(c.job.answerMode)
  }

  predicate HeadInv(c: Config, log: Log, w: Worker) {
    && LoopInv(c, w)
    && w.at.step == w.cp.decisions
    && (w.at.replay.Some? ==>
      HoldsTool(c, log.learned, w.at.step, w.at.replay.value) && c.tools[w.at.replay.value.name])
  }

  predicate ReadyInv(c: Config, log: Log, w: Worker) {
    && StepInv(c, w) && Mirror(c, w)
    && GrantedTo(log, w.at.step, w.token)
    && w.at.step >= 1 && w.at.step !in log.calls && w.at.step !in log.learned
  }

  predicate CallInv(c: Config, log: Log, w: Worker) {
    && StepInv(c, w) && Mirror(c, w)
    && GrantedTo(log, w.at.step, w.token)
    && w.at.step >= 1 && w.at.step in log.calls && w.at.step !in log.learned
  }

  predicate ChosenInv(c: Config, log: Log, w: Worker, d: Decision) {
    && StepInv(c, w)
    && w.at.step in log.learned && log.learned[w.at.step] == d
    && w.at.step >= 1
    && Sole(c, log, w, d)
    && (!d.ToolCall? ==> Mirror(c, w))
  }

  predicate ToolInv(c: Config, log: Log, w: Worker, d: Decision) {
    StepInv(c, w) && HoldsTool(c, log.learned, w.at.step, d) && Sole(c, log, w, d)
  }

  predicate ReviewInv(c: Config, w: Worker, result: DocumentResult) {
    StepInv(c, w) && Mirror(c, w) && CitationsHold(c, DocumentAnswer(result), w.at.sources, w.at.searchCompleted)
  }

  /** The claim let no unsafe pending call through. */
  predicate ReplayAllowed(w: Worker) {
    w.cp.pending.Some? ==> w.cp.replaySafe
  }

  ghost predicate PcInv(c: Config, log: Log, w: Worker) {
    match w.pc
    case Launching => ReplayAllowed(w)
    case Opening => ReplayAllowed(w)
    case AtHead => HeadInv(c, log, w)
    case Asking => LoopInv(c, w) && w.at.replay.None? && w.at.step == w.cp.decisions + 1
    case Ready => ReadyInv(c, log, w)
    case InCall => CallInv(c, log, w)
    case Chosen(d) => ChosenInv(c, log, w, d)
    case Proposed(d) => ToolInv(c, log, w, d)
    case Dispatching(d) => ToolInv(c, log, w, d)
    case Recovering(notes) => StepInv(c, w) && NoEvidence(notes)
    case Recording => StepInv(c, w)
    case Reviewing(result) => ReviewInv(c, w, result)
    case Reviewed(result, receipt) =>
      ReviewInv(c, w, result) && Certifies(c.alnum, ReviewRequest(w.at.question, result, w.at.passages), receipt)
    case Closing(a) => w.cp.finalResult.None? && Backed(c, w.cp, a)
    case Finishing(a) => w.cp.finalResult == Some(a)
    case _ => true
  }

  // -------------------------------------------------------------- the system

  predicate GrantInv(c: Config, log: Log, decisions: nat) {
    forall n :: n in log.granted ==> 1 <= n <= c.job.maxDecisions && n <= decisions
  }

  predicate CallsInv(log: Log) {
    && (forall i :: 0 <= i < |log.calls| ==> log.calls[i] in log.granted)
    && (forall i, j :: 0 <= i < j < |log.calls| ==> log.calls[i] != log.calls[j])
    && (forall n :: n in log.learned ==> n in log.calls)
  }

  predicate DispatchInv(c: Config, log: Log) {
    && (forall i :: 0 <= i < |log.dispatches| ==>
      HoldsTool(c, log.learned, log.dispatches[i].step, log.dispatches[i].decision))
    && (forall i, j :: 0 <= i < j < |log.dispatches| && log.dispatches[i].step == log.dispatches[j].step ==>
      !Unsafe(c, log.dispatches[j].decision))
  }

  predicate LogInv(c: Config, log: Log, decisions: nat) {
    GrantInv(c, log, decisions) && CallsInv(log) && DispatchInv(c, log)
  }

  predicate AnswerInv(run: Run, log: Log) {
    && (run.state == Succeeded ==> run.result.Some? && run.checkpoint.finalResult == run.result)
    && (log.answers != [] ==> run.state == Succeeded)
    && (forall i :: 0 <= i < |log.answers| ==> run.result == Some(log.answers[i]))
  }

  ghost predicate WorkerInv(c: Config, run: Run, log: Log, k: Token, w: Worker) {
    && w.token == k
    && Issued(run, k)
    && (Active(w) ==>
      && CheckpointInv(c, log.learned, w.cp)
      && PcInv(c, log, w)
      && (run.state == Running && run.token == Some(k) ==> run.checkpoint == w.cp))
    && (w.pc.Confirming? ==> run.state == Cancelled || (run.state == Succeeded && run.result == Some(w.pc.answer)))
  }

  ghost predicate SystemInv(c: Config, s: System) {
    && RunInv(c.policy, s.run)
    && s.run.job == c.job
    && CheckpointInv(c, s.log.learned, s.run.checkpoint)
    && LogInv(c, s.log, s.run.checkpoint.decisions)
    && AnswerInv(s.run, s.log)
    && forall k :: k in s.workers ==> WorkerInv(c, s.run, s.log, k, s.workers[k])
  }

  lemma BeginInv(c: Config, duration: Time, key: Option<string>, clock: Time)
    requires ValidConfig(c)
    ensures SystemInv(c, Begin(c, duration, key, clock))
  {
    NewRunInv(c.policy, c.job, duration, key);
  }

  // ---------------------------------------------------- one step of an attempt

  /** What a step may write into the log. */
  predicate NoteOk(c: Config, log: Log, w: Worker, note: Note) {
    match note
    case Granted(n) =>
      n == w.cp.decisions + 1 && n <= c.job.maxDecisions && (forall m :: m in log.granted ==> m < n)
    case Called(n) => GrantedTo(log, n, w.token) && n !in log.calls && n !in log.learned
    case Learned(n, d) => GrantedTo(log, n, w.token) && n in log.calls && n !in log.learned
    case Ran(n, d) =>
      HoldsTool(c, log.learned, n, d) && (Unsafe(c, d) ==> GrantedTo(log, n, w.token) && !DispatchedAt(log, n))
    case _ => true
  }

  /** The worker a step leaves behind, judged with the log it leaves behind. */
  ghost predicate GoodNext(c: Config, log: Log, w: Worker, cp: Checkpoint, next: Worker, note: Note) {
    var after := Write(log, w.token, note);
    && next.token == w.token
    && NoteOk(c, log, w, note)
    && w.cp.decisions <= cp.decisions
    && (note.Granted? ==> cp.decisions == note.step)
    && !next.pc.Confirming?
    && (Active(next) ==> Active(w))
    && (Active(next) ==> CheckpointInv(c, after.learned, cp) && PcInv(c, after, next.(cp := cp)))
  }

  ghost predicate GoodAction(c: Config, log: Log, w: Worker, a: Action) {
    match a
    case Persist(cp, next, note) =>
      Active(w) && GoodNext(c, log, w, cp, next, note) && CheckpointInv(c, Write(log, w.token, note).learned, cp)
    case Move(next, note) => next.cp == w.cp && !note.Granted? && GoodNext(c, log, w, w.cp, next, note)
    case Conclude(outcome, result, _, next, refused) =>
      && !Active(refused) && !refused.pc.Confirming? && refused.token == w.token
      && next.token == w.token && !Active(next)
      && (outcome == Succeeded ==>
        Active(w) && result.Some? && w.cp.finalResult == result && next.pc == Confirming(result.value))
      && (outcome != Succeeded ==> !next.pc.Confirming?)
    case Confirm => w.pc.Confirming?
    case Skip => true
  }

  /** What an attempt about to step is known to satisfy. */
  ghost predicate Stepping(c: Config, log: Log, w: Worker) {
    && ValidConfig(c)
    && CallsInv(log) && DispatchInv(c, log)
    && (Active(w) ==> CheckpointInv(c, log.learned, w.cp) && PcInv(c, log, w))
  }

  /** No decision number beyond the attempt's own checkpoint has been granted. */
  predicate UpToDate(log: Log, w: Worker) {
    forall n :: n in log.granted ==> n <= w.cp.decisions
  }

  lemma FreshStep(log: Log, w: Worker)
    requires CallsInv(log) && w.pc.Asking? && w.at.step == w.cp.decisions + 1
    requires UpToDate(log, w)
    ensures w.at.step !in log.granted && w.at.step !in log.calls && w.at.step !in log.learned
  {
  }

  lemma PlanAsking(c: Config, log: Log, w: Worker, x: Choice)
    requires Stepping(c, log, w) && UpToDate(log, w) && w.pc.Asking? && !x.Broke?
    ensures GoodAction(c, log, w, Plan(c, w, x))
  {
    FreshStep(log, w);
  }

  lemma AskingPersists(c: Config, w: Worker, x: Choice)
    requires w.pc.Asking? && !x.Broke?
    ensures Plan(c, w, x).Persist?
  {
  }

  lemma PlanLaunches(c: Config, log: Log, w: Worker, x: Choice)
    requires Stepping(c, log, w) && w.pc.Launching? && !x.Broke?
    ensures GoodAction(c, log, w, Plan(c, w, x))
  {
  }

  lemma PlanOpens(c: Config, log: Log, w: Worker, x: Choice)
    requires Stepping(c, log, w) && w.pc.Opening? && !x.Broke?
    ensures GoodAction(c, log, w, Plan(c, w, x))
  {
    if w.cp.history.None? {
      NoEvidenceEntry(CallerMessage(c.job.message));
    }
  }

  lemma PlanTakesUp(c: Config, log: Log, w: Worker, x: Choice)
    requires Stepping(c, log, w) && w.pc.AtHead? && !x.Broke?
    ensures GoodAction(c, log, w, Plan(c, w, x))
  {
    hide CallsInv, DispatchInv, Transcript;
  }

  lemma PlanInvokes(c: Config, log: Log, w: Worker, x: Choice)
    requires Stepping(c, log, w) && w.pc.Ready? && !x.Broke?
    ensures GoodAction(c, log, w, Plan(c, w, x))
  {
  }

  /** Admission and booking touch only the budget, in the checkpoint as in the log. */
  lemma SpendingKeeps(c: Config, log: Log, after: Log, w: Worker, cp: Checkpoint, call: Option<Call>)
    requires CheckpointInv(c, log.learned, w.cp) && PcInv(c, log, w) && (w.pc.InCall? || w.pc.Reviewing?)
    requires after == log.(ledger := after.ledger)
    requires cp == w.cp.(reservedTokens := cp.reservedTokens, reservedCost := cp.reservedCost,
      reportedInput := cp.reportedInput, reportedOutput := cp.reportedOutput)
    ensures CheckpointInv(c, after.learned, cp) && PcInv(c, after, w.(call := call, cp := cp))
  {
    if w.pc.Reviewing? {
      assert StepInv(c, w) && Mirror(c, w);
    }
  }

  lemma PlanSpends(c: Config, log: Log, w: Worker, x: Choice)
    requires Stepping(c, log, w) && (w.pc.InCall? || w.pc.Reviewing?) && x.Reserve?
    ensures GoodAction(c, log, w, Plan(c, w, x))
  {
    hide PcInv, CheckpointInv, CallsInv, DispatchInv;
    var a := Plan(c, w, x);
    assert a == PlanSpending(w, x);
    if a.Persist? {
      SpendingKeeps(c, log, Write(log, w.token, a.note), w, a.cp, w.call);
    } else if a.Move? {
      assert !Active(a.next);
    }
  }

  lemma PlanBooks(c: Config, log: Log, w: Worker, x: Choice)
    requires Stepping(c, log, w) && (w.pc.InCall? || w.pc.Reviewing?) && x.Reconcile?
    ensures GoodAction(c, log, w, Plan(c, w, x))
  {
    hide PcInv, CheckpointInv, CallsInv, DispatchInv;
    var a := Plan(c, w, x);
    assert a == PlanSpending(w, x);
    if a.Persist? {
      SpendingKeeps(c, log, Write(log, w.token, a.note), w, a.cp, None);
    }
  }

  lemma PlanCalls(c: Config, log: Log, w: Worker, x: Choice)
    requires Stepping(c, log, w) && w.pc.InCall? && !x.Broke? && !x.Reserve? && !x.Reconcile?
    ensures GoodAction(c, log, w, Plan(c, w, x))
  {
    NoEvidenceEntry(RetryNote);
  }

  lemma NotesCarryNoEvidence(c: Config, d: Decision)
    requires d.ToolCall?
    ensures NoEvidence([Proposal(d), ToolFault(SafeName(c, d))])
  {
    var notes := [Proposal(d), ToolFault(SafeName(c, d))];
    NoEvidenceEntry(Proposal(d));
    assert notes[..1] == [Proposal(d)];
  }

  lemma PlanChoosesTool(c: Config, log: Log, w: Worker, x: Choice)
    requires Stepping(c, log, w) && w.pc.Chosen? && w.pc.decision.ToolCall? && !x.Broke?
    ensures GoodAction(c, log, w, Plan(c, w, x))
  {
    NotesCarryNoEvidence(c, w.pc.decision);
  }

  lemma PlanChoosesAnswer(c: Config, log: Log, w: Worker, x: Choice)
    requires Stepping(c, log, w) && w.pc.Chosen? && !w.pc.decision.ToolCall? && !x.Broke?
    ensures GoodAction(c, log, w, Plan(c, w, x))
  {
    hide CallsInv, DispatchInv, Transcript, Sole;
  }

  lemma PlanProposes(c: Config, log: Log, w: Worker, x: Choice)
    requires Stepping(c, log, w) && w.pc.Proposed? && !x.Broke?
    ensures GoodAction(c, log, w, Plan(c, w, x))
  {
  }

  lemma PlanObserves(c: Config, log: Log, w: Worker, x: Choice)
    requires Stepping(c, log, w) && w.pc.Dispatching? && x.ToolOk?
    ensures GoodAction(c, log, w, Plan(c, w, x))
  {
    hide Transcript, CallsInv, DispatchInv;
    var d := w.pc.decision;
    assert StepInv(c, w);
    if Observe(c, w.at, d, x.result).Some? {
      ObserveKeepsTranscript(c, w.at, d, x.result);
    }
  }

  lemma PlanDispatches(c: Config, log: Log, w: Worker, x: Choice)
    requires Stepping(c, log, w) && w.pc.Dispatching? && !x.ToolOk? && !x.Broke?
    ensures GoodAction(c, log, w, Plan(c, w, x))
  {
    hide Transcript, CallsInv, DispatchInv;
    NotesCarryNoEvidence(c, w.pc.decision);
  }

  /** Notes of failures join the history without adding evidence. */
  lemma NotesKeepTranscript(c: Config, history: seq<Message>, notes: seq<Message>, searched: bool, sources: set<SourceReference>,
    passages: seq<Passage>)
    requires Transcript(c, history, searched, sources, passages) && NoEvidence(notes)
    ensures Transcript(c, history + notes, searched, sources, passages)
  {
    SearchSourcesConcat(history, notes);
    ShownConcat(history, notes);
    SearchedConcat(history, notes);
  }

  lemma PlanRecovers(c: Config, log: Log, w: Worker, x: Choice)
    requires Stepping(c, log, w) && w.pc.Recovering? && !x.Broke?
    ensures GoodAction(c, log, w, Plan(c, w, x))
  {
    hide Transcript, NoEvidence, CallsInv, DispatchInv, Backed;
    NotesKeepTranscript(c, w.at.history, w.pc.notes, w.at.searchCompleted, w.at.sources, w.at.passages);
    assert StepInv(c, w);
  }

  lemma PlanRecords(c: Config, log: Log, w: Worker, x: Choice)
    requires Stepping(c, log, w) && w.pc.Recording? && !x.Broke?
    ensures GoodAction(c, log, w, Plan(c, w, x))
  {
  }

  lemma PlanReviews(c: Config, log: Log, w: Worker, x: Choice)
    requires Stepping(c, log, w) && w.pc.Reviewing? && !x.Broke? && !x.Reserve? && !x.Reconcile?
    ensures GoodAction(c, log, w, Plan(c, w, x))
  {
    hide CallsInv, DispatchInv, Transcript, Backed;
  }

  lemma PlanCertifies(c: Config, log: Log, w: Worker, x: Choice)
    requires Stepping(c, log, w) && w.pc.Reviewed? && !x.Broke?
    ensures GoodAction(c, log, w, Plan(c, w, x))
  {
    var cp := w.cp.(documentReview := Some(w.pc.receipt));
    assert Backed(c, cp, DocumentAnswer(w.pc.proposal));
  }

  lemma PlanCloses(c: Config, log: Log, w: Worker, x: Choice)
    requires Stepping(c, log, w) && (w.pc.Closing? || w.pc.Finishing?) && !x.Broke?
    ensures GoodAction(c, log, w, Plan(c, w, x))
  {
  }

  lemma PlanBreaks(c: Config, log: Log, w: Worker, x: Choice)
    requires Stepping(c, log, w) && Active(w) && x.Broke?
    ensures GoodAction(c, log, w, Plan(c, w, x))
  {
    hide PcInv, CheckpointInv, CallsInv, DispatchInv;
  }

  lemma PlanEnds(c: Config, log: Log, w: Worker, x: Choice)
    requires Stepping(c, log, w) && !Active(w)
    ensures GoodAction(c, log, w, Plan(c, w, x))
  {
    hide PcInv, CheckpointInv, CallsInv, DispatchInv;
  }

  predicate BeforeDecision(w: Worker) {
    w.pc.Launching? || w.pc.Opening? || w.pc.AtHead? || w.pc.Asking? || w.pc.Ready? || w.pc.InCall?
  }

  predicate InDecision(w: Worker) {
    w.pc.Chosen? || w.pc.Proposed? || w.pc.Dispatching? || w.pc.Recovering? || w.pc.Recording?
  }

  lemma PlanBeforeDecision(c: Config, log: Log, w: Worker, x: Choice)
    requires Stepping(c, log, w) && BeforeDecision(w) && !x.Broke?
    requires Plan(c, w, x).Persist? ==> UpToDate(log, w)
    ensures GoodAction(c, log, w, Plan(c, w, x))
  {
    hide Stepping, GoodAction, Plan, UpToDate;
    match w.pc
    case Launching => PlanLaunches(c, log, w, x);
    case Opening => PlanOpens(c, log, w, x);
    case AtHead => PlanTakesUp(c, log, w, x);
    case Asking =>
      AskingPersists(c, w, x);
      PlanAsking(c, log, w, x);
    case Ready => PlanInvokes(c, log, w, x);
    case InCall =>
      if x.Reserve? {
        PlanSpends(c, log, w, x);
      } else if x.Reconcile? {
        PlanBooks(c, log, w, x);
      } else {
        PlanCalls(c, log, w, x);
      }
  }

  lemma PlanInDecision(c: Config, log: Log, w: Worker, x: Choice)
    requires Stepping(c, log, w) && InDecision(w) && !x.Broke?
    ensures GoodAction(c, log, w, Plan(c, w, x))
  {
    hide Stepping, GoodAction, Plan;
    match w.pc
    case Chosen(d) =>
      if d.ToolCall? {
        PlanChoosesTool(c, log, w, x);
      } else {
        PlanChoosesAnswer(c, log, w, x);
      }
    case Proposed(_) => PlanProposes(c, log, w, x);
    case Dispatching(_) =>
      if x.ToolOk? {
        PlanObserves(c, log, w, x);
      } else {
        PlanDispatches(c, log, w, x);
      }
    case Recovering(_) => PlanRecovers(c, log, w, x);
    case Recording => PlanRecords(c, log, w, x);
  }

  lemma PlanAfterDecision(c: Config, log: Log, w: Worker, x: Choice)
    requires Stepping(c, log, w) && Active(w) && !BeforeDecision(w) && !InDecision(w) && !x.Broke?
    ensures GoodAction(c, log, w, Plan(c, w, x))
  {
    hide Stepping, GoodAction, Plan;
    match w.pc
    case Reviewing(_) =>
      if x.Reserve? {
        PlanSpends(c, log, w, x);
      } else if x.Reconcile? {
        PlanBooks(c, log, w, x);
      } else {
        PlanReviews(c, log, w, x);
      }
    case Reviewed(_, _) => PlanCertifies(c, log, w, x);
    case Closing(_) => PlanCloses(c, log, w, x);
    case Finishing(_) => PlanCloses(c, log, w, x);
  }

  /** Every step of an attempt is a good one. */
  lemma PlanIsGood(c: Config, log: Log, w: Worker, x: Choice)
    requires Stepping(c, log, w)
    requires Plan(c, w, x).Persist? ==> UpToDate(log, w)
    ensures GoodAction(c, log, w, Plan(c, w, x))
  {
    hide Stepping, GoodAction, Plan, UpToDate, BeforeDecision, InDecision;
    if !Active(w) {
      PlanEnds(c, log, w, x);
    } else if x.Broke? {
      PlanBreaks(c, log, w, x);
    } else if BeforeDecision(w) {
      PlanBeforeDecision(c, log, w, x);
    } else if InDecision(w) {
      PlanInDecision(c, log, w, x);
    } else {
      PlanAfterDecision(c, log, w, x);
    }
  }

  // --------------------------------------------------- the log and the others

  /** A step's note leaves every other attempt's standing as it was. */
  lemma OthersKeep(c: Config, log: Log, w: Worker, note: Note, other: Worker)
    requires NoteOk(c, log, w, note) && other.token != w.token
    requires CheckpointInv(c, log.learned, other.cp) && PcInv(c, log, other)
    requires CallsInv(log)
    ensures CheckpointInv(c, Write(log, w.token, note).learned, other.cp)
    ensures PcInv(c, Write(log, w.token, note), other)
  {
  }

  lemma CheckpointKeeps(c: Config, log: Log, w: Worker, note: Note, cp: Checkpoint)
    requires NoteOk(c, log, w, note) && CheckpointInv(c, log.learned, cp) && CallsInv(log)
    ensures CheckpointInv(c, Write(log, w.token, note).learned, cp)
  {
  }

  lemma LogKeeps(c: Config, log: Log, w: Worker, note: Note, before: nat, decisions: nat)
    requires NoteOk(c, log, w, note) && LogInv(c, log, before) && before <= decisions
    requires note.Granted? ==> decisions == note.step
    ensures LogInv(c, Write(log, w.token, note), decisions)
  {
    var after := Write(log, w.token, note);
    if note.Ran? {
      var n := |log.dispatches|;
      forall i | 0 <= i < n && log.dispatches[i].step == note.step
        ensures !Unsafe(c, note.decision)
      {
        assert DispatchedAt(log, note.step);
      }
    }
  }
}
