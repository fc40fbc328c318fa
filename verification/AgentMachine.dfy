/**
 One durable run executed by any number of attempts at once: the program of an
 attempt (crewos/core/agent_job_runner.py and crewos/application/use_cases/agent_loop.py)
 as a step function, and the shared run it acts on. An attempt that is never
 scheduled again has crashed; one scheduled after its lease lapsed is a zombie.

 Lease checks between the steps are not part of the program here: they are
 `Renew` events, and a failed one is a `Broke` choice. The machine therefore
 also allows attempts that skip them, and nothing proved of it depends on them.
 */
module AgentMachine {
  import opened Wrappers
  import opened Evidence
  import opened ReviewGate
  import opened AgentData
  import opened Budget
  import opened RunRecords

  /** What is fixed for a run: the store's policy, its job, the tools with their replay safety. */
  datatype Config = Config(policy: StorePolicy, job: AgentRunJob, tools: map<string, bool>, alnum: char -> bool)

  ghost predicate ValidConfig(c: Config) {
    ValidPolicy(c.policy) && c.job.message != "" && c.job.maxDecisions >= 1
  }

  predicate DocumentRun(c: Config) {
    c.job.answerMode == DocumentMode
  }

  /** How an exception is classified when an attempt ends. */
  datatype Fault = Cancellation | Exhaustion | Breakdown

  /** The variables of the loop. `replay` is the loop's own pending decision. */
  datatype Locals = Locals(
    step: nat,
    toolCalls: nat,
    toolsCompleted: nat,
    history: seq<Message>,
    replay: Option<Decision>,
    sources: set<SourceReference>,
    passages: seq<Passage>,
    searchCompleted: bool,
    question: string)

  const NO_LOCALS := Locals(0, 0, 0, [], None, {}, [], false, "")

  datatype Pc =
    | Launching // about to record the limits
    | Opening // about to replay a final result or enter the loop
    | AtHead
    | Asking // about to checkpoint before a model call
    | Ready // about to call the model
    | InCall
    | Chosen(decision: Decision)
    | Proposed(decision: Decision) // about to checkpoint the pending tool call
    | Dispatching(decision: Decision) // about to run the tool
    | Recovering(notes: seq<Message>)
    | Recording // about to checkpoint the extended history
    | Reviewing(proposal: DocumentResult)
    | Reviewed(proposal: DocumentResult, receipt: Receipt)
    | Closing(answer: Decision) // about to checkpoint the final result
    | Finishing(answer: Decision)
    | Confirming(answer: Decision)
    | Raising(fault: Fault) // in the exception handler
    | Raised
    | Returned(answer: Decision)

  /** The open model call of an attempt: its ledger entry. */
  datatype Call = Call(entry: nat, input: nat, output: nat)

  datatype Worker = Worker(
    token: Token,
    limits: Limits,
    allowance: Allowance,
    cp: Checkpoint, // control.state
    pc: Pc,
    at: Locals,
    call: Option<Call>)

  /** What the outside world contributes to one step. */
  datatype Choice =
    | Go
    | Reserve(input: nat, output: nat)
    | Reconcile(usedInput: nat, usedOutput: nat)
    | Decided(decision: Decision)
    | Unusable // a recoverable model error
    | ToolOk(result: ToolResult)
    | ToolRefused // the arguments did not validate
    | ToolTransient // Redis or a timeout
    | ToolBroke(fault: Fault)
    | Verdict(review: Review)
    | Broke(fault: Fault) // any other exception

  /** What a step adds to the history of the run. */
  datatype Note =
    | Nothing
    | Granted(step: nat)
    | Called(step: nat)
    | Learned(step: nat, decision: Decision)
    | Ran(step: nat, decision: Decision)
    | Charged(charge: Charge)
    | Settled(entry: nat, input: nat, output: nat)

  datatype Action =
    | Persist(cp: Checkpoint, next: Worker, note: Note)
    | Move(next: Worker, note: Note)
    | Conclude(outcome: RunState, result: Option<Decision>, error: Option<string>, next: Worker, refused: Worker)
    | Confirm
    | Skip

  // ------------------------------------------------------------ local helpers

  predicate Active(w: Worker) {
    !(w.pc.Raising? || w.pc.Raised? || w.pc.Returned? || w.pc.Confirming?)
  }

  /** The fields checkpoint(...) writes over the control's state. */
  function Snapshot(c: Config, cp: Checkpoint, l: Locals, pending: Option<Decision>, safe: bool): Checkpoint {
    cp.(
      history := Some(l.history),
      decisions := l.step,
      toolCalls := l.toolCalls,
      toolsCompleted := l.toolsCompleted,
      pending := pending,
      replaySafe := safe,
      answerMode := Some(c.job.answerMode),
      searchCompleted := l.searchCompleted,
      question := Some(l.question),
      observedPassages := l.passages,
      observedSources := l.sources)
  }

  /** The number of the next iteration: a pending decision keeps its own. */
  function FirstStep(l: Locals): nat {
    var first := if l.replay.Some? then l.step else l.step + 1;
    if first < 1 then 1 else first
  }

  function Entered(l: Locals, step: nat): Locals {
    l.(step := step, replay := None)
  }

  function LoadLocals(c: Config, cp: Checkpoint): Locals {
    Locals(
      cp.decisions, cp.toolCalls, cp.toolsCompleted,
      if cp.history.Some? then cp.history.value else [CallerMessage(c.job.message)],
      cp.pending, cp.observedSources, cp.observedPassages, cp.searchCompleted,
      if cp.question.Some? && cp.question.value != "" then cp.question.value else c.job.message)
  }

  predicate ModeConflict(c: Config, cp: Checkpoint) {
    (cp.answerMode.Some? || cp.history.Some?)
    && (if cp.answerMode.Some? then cp.answerMode.value else General) != c.job.answerMode
  }

  /** Adds passages under their identity; the same identity with another payload is refused. */
  function Merge(passages: seq<Passage>, found: seq<Passage>): Option<seq<Passage>>
    decreases |found|
  {
    if found == [] then Some(passages)
    else
      var p := found[0];
      var known := Lookup(passages, SourceKey(p));
      if known.None? then Merge(passages + [p], found[1..])
      else if known.value != p then None
      else Merge(passages, found[1..])
  }

  const SEARCH := "search_documents"
  const MAX_PASSAGES := 100

  /** The loop's variables after a successful tool result, unless the evidence is refused. */
  function Observe(c: Config, l: Locals, d: Decision, r: ToolResult): Option<Locals>
    requires d.ToolCall?
  {
    var done := l.(
      toolsCompleted := l.toolsCompleted + 1,
      history := l.history + [Proposal(d), Observation(d.name, r)]);
    if d.name != SEARCH || !r.SearchResult? then Some(done)
    else
      var merged := if DocumentRun(c) then Merge(l.passages, r.passages) else Some(l.passages);
      if merged.None? || |merged.value| > MAX_PASSAGES then None
      else Some(done.(
        searchCompleted := true,
        passages := merged.value,
        sources := l.sources + Keys(r.passages)))
  }

  function Cited(result: DocumentResult): seq<SourceReference> {
    if result.Answered? then result.citations else []
  }

  predicate AllObserved(citations: seq<SourceReference>, sources: set<SourceReference>) {
    forall i :: 0 <= i < |citations| ==> citations[i] in sources
  }

  /** Citation checks of the two answer modes; the decision must be of the run's mode. */
  predicate CitationsHold(c: Config, a: Decision, sources: set<SourceReference>, searchCompleted: bool) {
    match a
    case ToolCall(_, _) => false
    case FinalAnswer(_, citations) => !DocumentRun(c) && AllObserved(citations, sources)
    case DocumentAnswer(result) => DocumentRun(c) && searchCompleted && AllObserved(Cited(result), sources)
  }

  /** A stored final result together with everything stored to support it. */
  ghost predicate Backed(c: Config, cp: Checkpoint, a: Decision) {
    && CitationsHold(c, a, cp.observedSources, cp.searchCompleted)
    && (a.DocumentAnswer? ==>
      && cp.answerMode == Some(DocumentMode)
      && cp.documentReview.Some?
      && Certifies(c.alnum,
        ReviewRequest(if cp.question.Some? then cp.question.value else c.job.message, a.result, cp.observedPassages),
        cp.documentReview.value))
  }

  /** The decision schema of the run's mode. */
  predicate FitsMode(c: Config, d: Decision) {
    match d
    case ToolCall(_, _) => true
    case FinalAnswer(_, _) => !DocumentRun(c)
    case DocumentAnswer(_) => DocumentRun(c)
  }

  function OutcomeOf(f: Fault, cp: Checkpoint): RunState {
    match f
    case Cancellation => Cancelled
    case Exhaustion => Exhausted
    case Breakdown => if UnsafePending(cp) then NeedsReview else Failed
  }

  function SafeName(c: Config, d: Decision): string
    requires d.ToolCall?
  {
    if d.name in c.tools then d.name else "[unregistered]"
  }

  /** What the conversation says about a tool call that could not be completed. */
  function ToolNotes(c: Config, d: Decision): seq<Message>
    requires d.ToolCall?
  {
    [Proposal(d), ToolFault(SafeName(c, d))]
  }

  function Fail(w: Worker, f: Fault): Worker {
    w.(pc := Raising(f))
  }

  // -------------------------------------------------------------- the program

  /** Budget admission inside a model or review call. */
  function PlanSpending(w: Worker, x: Choice): Action
    requires x.Reserve? || x.Reconcile?
  {
    match x
    case Reserve(input, output) =>
      if w.call.Some? then Skip
      else
        var cp := Reserved(w.cp, w.allowance.rates, input, output);
        if Exceeds(w.allowance, cp.reservedTokens, cp.reservedCost) then Move(Fail(w, Exhaustion), Nothing)
        else Persist(cp, w, Charged(Charge(w.token, w.allowance.rates, input, output, None)))
    case Reconcile(input, output) =>
      if w.call.None? then Skip
      else
        var cp := Reconciled(w.cp, w.allowance.rates, input, output, w.call.value.input, w.call.value.output);
        var next := w.(call := None);
        Persist(cp,
          if Exceeds(w.allowance, cp.reservedTokens, cp.reservedCost) then Fail(next, Exhaustion) else next,
          Settled(w.call.value.entry, input, output))
  }

  ghost function PlanOpening(c: Config, w: Worker): Action {
    if w.cp.finalResult.Some? then
      var a := w.cp.finalResult.value;
      if Backed(c, w.cp, a) then Move(w.(pc := Finishing(a)), Nothing) else Move(Fail(w, Breakdown), Nothing)
    else if ModeConflict(c, w.cp) then Move(Fail(w, Breakdown), Nothing)
    else Move(w.(pc := AtHead, at := LoadLocals(c, w.cp)), Nothing)
  }

  function PlanHead(c: Config, w: Worker): Action {
    var step := FirstStep(w.at);
    if step > c.job.maxDecisions then Move(Fail(w, Exhaustion), Nothing)
    else
      var l := Entered(w.at, step);
      if w.at.replay.Some? then Move(w.(pc := Chosen(w.at.replay.value), at := l), Nothing)
      else Move(w.(pc := Asking, at := l), Nothing)
  }

  function PlanCall(c: Config, w: Worker, x: Choice): Action {
    match x
    case Decided(d) =>
      if FitsMode(c, d) then Move(w.(pc := Chosen(d), call := None), Learned(w.at.step, d)) else Skip
    case Unusable => Move(w.(pc := Recovering([RetryNote]), call := None), Nothing)
    case Reserve(_, _) => PlanSpending(w, x)
    case Reconcile(_, _) => PlanSpending(w, x)
    case _ => Skip
  }

  function PlanChosen(c: Config, w: Worker, d: Decision): Action {
    match d
    case ToolCall(name, _) =>
      var l := w.at.(toolCalls := w.at.toolCalls + 1);
      if name in c.tools then Move(w.(pc := Proposed(d), at := l), Nothing)
      else Move(w.(pc := Recovering(ToolNotes(c, d)), at := l), Nothing)
    case FinalAnswer(_, _) =>
      if CitationsHold(c, d, w.at.sources, w.at.searchCompleted) then Move(w.(pc := Closing(d)), Nothing)
      else Move(Fail(w, Breakdown), Nothing)
    case DocumentAnswer(result) =>
      if CitationsHold(c, d, w.at.sources, w.at.searchCompleted) then Move(w.(pc := Reviewing(result)), Nothing)
      else Move(Fail(w, Breakdown), Nothing)
  }

  function PlanTool(c: Config, w: Worker, d: Decision, x: Choice): Action {
    if !d.ToolCall? || d.name !in c.tools then Skip
    else
      var ran := Ran(w.at.step, d);
      var retry := w.(pc := Recovering(ToolNotes(c, d)));
      match x
      case ToolOk(r) =>
        var l := Observe(c, w.at, d, r);
        if l.None? then Move(Fail(w, Breakdown), ran) else Move(w.(pc := Recording, at := l.value), ran)
      case ToolRefused => Move(retry, ran)
      case ToolTransient => Move(if c.tools[d.name] then retry else Fail(w, Breakdown), ran)
      case ToolBroke(f) => Move(Fail(w, f), ran)
      case _ => Skip
  }

  ghost function PlanReview(c: Config, w: Worker, result: DocumentResult, x: Choice): Action {
    match x
    case Verdict(review) =>
      var request := ReviewRequest(w.at.question, result, w.at.passages);
      if Accepts(c.alnum, request, review)
      then Move(w.(pc := Reviewed(result, Receipt(POLICY_VERSION, request, review)), call := None), Nothing)
      else Move(Fail(w, Breakdown), Nothing)
    case Reserve(_, _) => PlanSpending(w, x)
    case Reconcile(_, _) => PlanSpending(w, x)
    case _ => Skip
  }

  function PlanRecovery(w: Worker, notes: seq<Message>): Action {
    if w.cp.recoveries >= w.allowance.maxRecoveries then Move(Fail(w, Breakdown), Nothing)
    else Persist(
      w.cp.(recoveries := w.cp.recoveries + 1),
      w.(pc := Recording, at := w.at.(history := w.at.history + notes)),
      Nothing)
  }

  /** The next step of an attempt. */
  ghost function Plan(c: Config, w: Worker, x: Choice): Action {
    if x.Broke? && (Active(w) || w.pc.Confirming?) then Move(Fail(w, x.fault), Nothing)
    else match w.pc
      case Launching => Persist(w.cp.(limits := Some(w.limits)), w.(pc := Opening), Nothing)
      case Opening => PlanOpening(c, w)
      case AtHead => PlanHead(c, w)
      case Asking => Persist(Snapshot(c, w.cp, w.at, None, false), w.(pc := Ready), Granted(w.at.step))
      case Ready => Move(w.(pc := InCall), Called(w.at.step))
      case InCall => PlanCall(c, w, x)
      case Chosen(d) => PlanChosen(c, w, d)
      case Proposed(d) =>
        if d.ToolCall? && d.name in c.tools
        then Persist(Snapshot(c, w.cp, w.at, Some(d), c.tools[d.name]), w.(pc := Dispatching(d)), Nothing) else Skip
      case Dispatching(d) => PlanTool(c, w, d, x)
      case Recovering(notes) => PlanRecovery(w, notes)
      case Recording => Persist(Snapshot(c, w.cp, w.at, None, false), w.(pc := AtHead, at := w.at.(replay := None)), Nothing)
      case Reviewing(result) => PlanReview(c, w, result, x)
      case Reviewed(result, receipt) =>
        Persist(w.cp.(documentReview := Some(receipt)), w.(pc := Closing(DocumentAnswer(result))), Nothing)
      case Closing(a) => Persist(w.cp.(finalResult := Some(a)), w.(pc := Finishing(a)), Nothing)
      case Finishing(a) => Conclude(Succeeded, Some(a), None, w.(pc := Confirming(a)), Fail(w, Breakdown))
      case Confirming(_) => Confirm
      case Raising(f) => Conclude(OutcomeOf(f, w.cp), None, Some("error"), w.(pc := Raised), w.(pc := Raised))
      case Raised => Skip
      case Returned(_) => Skip
  }

  // --------------------------------------------------------- the whole system

  datatype Dispatch = Dispatch(step: nat, decision: Decision)

  /** What happened so far, as an observer of all attempts would write it down. */
  datatype Log = Log(
    granted: map<nat, Token>, // the attempt that checkpointed each decision number
    calls: seq<nat>, // decision numbers in the order the model was called
    learned: map<nat, Decision>, // what the model decided
    dispatches: seq<Dispatch>, // tool runs
    ledger: seq<Charge>,
    answers: seq<Decision>) // answers handed to a delivery

  datatype System = System(run: Run, clock: Time, workers: map<Token, Worker>, log: Log)

  const EMPTY_LOG := Log(map[], [], map[], [], [], [])

  function Begin(c: Config, duration: Time, key: Option<string>, clock: Time): System {
    System(NewRun(c.job, duration, key), clock, map[], EMPTY_LOG)
  }

  function Write(log: Log, token: Token, note: Note): Log {
    match note
    case Nothing => log
    case Granted(n) => log.(granted := log.granted[n := token])
    case Called(n) => log.(calls := log.calls + [n])
    case Learned(n, d) => log.(learned := log.learned[n := d])
    case Ran(n, d) => log.(dispatches := log.dispatches + [Dispatch(n, d)])
    case Charged(charge) => log.(ledger := log.ledger + [charge])
    case Settled(i, input, output) =>
      if i < |log.ledger| then log.(ledger := log.ledger[i := log.ledger[i].(reported := Some((input, output)))]) else log
  }

  /** A charged worker remembers its ledger entry. */
  function Stamp(log: Log, w: Worker, note: Note): Worker {
    if note.Charged? then w.(call := Some(Call(|log.ledger|, note.charge.input, note.charge.output))) else w
  }

  function FaultOf(e: RunError): Fault {
    if e.CancelRequested? then Cancellation else Breakdown
  }

  /** The clock of a step holds its readings in order; a checkpoint makes the first two, reading back makes all four. */
  datatype Event =
    | Start(read: Time, token: Token, settings: Settings)
    | Act(token: Token, choice: Choice, clock: GetClock, storageFails: bool)
    | Renew(token: Token, checked: Time, renewed: Time)
    | Outside(op: Op)

  function NewWorker(run: Run, token: Token, s: Settings): Worker {
    var limits := RecordedLimits(run.checkpoint, s);
    var allowance := AllowanceFor(limits, s);
    Worker(token, limits, allowance, run.checkpoint,
      if ValidAllowance(allowance) then Launching else Raising(Breakdown), NO_LOCALS, None)
  }

  /** A delivery claims the run: it gets the stored answer, a new attempt, or nothing. */
  function DoStart(c: Config, s: System, read: Time, token: Token, settings: Settings): System {
    var r := ClaimRun(c.policy, s.run, c.job, read, token);
    if r.Failure? then s
    else if s.run.state == Succeeded then
      (if s.run.result.Some? then s.(log := s.log.(answers := s.log.answers + [s.run.result.value])) else s)
    else s.(run := r.value, workers := s.workers[token := NewWorker(r.value, token, settings)])
  }

  /** control.persist: the local state changes first, then the store is asked. */
  function DoSave(c: Config, s: System, w: Worker, cp: Checkpoint, next: Worker, note: Note, g: GetClock, fails: bool): System {
    var r := SaveRun(c.policy, s.run, w.token, cp, g.cancelRead, g.reviewRead);
    if fails then s.(workers := s.workers[w.token := w.(cp := cp, pc := Raising(Breakdown))])
    else if r.Failure? then s.(workers := s.workers[w.token := w.(cp := cp, pc := Raising(FaultOf(r.error)))])
    else s.(
      run := r.value,
      workers := s.workers[w.token := Stamp(s.log, next.(cp := cp), note)],
      log := Write(s.log, w.token, note))
  }

  function DoClose(s: System, w: Worker, outcome: RunState, result: Option<Decision>, error: Option<string>,
    next: Worker, refused: Worker, g: GetClock, fails: bool): System
  {
    var r := FinishRun(s.run, w.token, outcome, result, error, g.cancelRead);
    if fails || r.Failure? then s.(workers := s.workers[w.token := refused])
    else s.(run := r.value, workers := s.workers[w.token := next])
  }

  /** Reading the run back: a cancelled run hands out no answer. */
  function DoConfirm(s: System, w: Worker, g: GetClock, fails: bool): System
    requires w.pc.Confirming?
  {
    if fails then s.(workers := s.workers[w.token := Fail(w, Breakdown)])
    else
      var run := GetRun(s.run, g);
      if run.state == Cancelled then s.(run := run, workers := s.workers[w.token := Fail(w, Cancellation)])
      else s.(
        run := run,
        workers := s.workers[w.token := w.(pc := Returned(w.pc.answer))],
        log := s.log.(answers := s.log.answers + [w.pc.answer]))
  }

  ghost function DoAct(c: Config, s: System, w: Worker, x: Choice, g: GetClock, fails: bool): System {
    match Plan(c, w, x)
    case Persist(cp, next, note) => DoSave(c, s, w, cp, next, note, g, fails)
    case Move(next, note) => s.(workers := s.workers[w.token := next], log := Write(s.log, w.token, note))
    case Conclude(outcome, result, error, next, refused) => DoClose(s, w, outcome, result, error, next, refused, g, fails)
    case Confirm => if w.pc.Confirming? then DoConfirm(s, w, g, fails) else s
    case Skip => s
  }

  ghost function Next(c: Config, s: System, e: Event): System {
    match e
    case Start(read, token, settings) => DoStart(c, s, read, token, settings)
    case Act(k, x, g, fails) => if k in s.workers then DoAct(c, s, s.workers[k], x, g, fails) else s
    case Renew(k, t, u) => s.(run := Apply(c.policy, s.run, Op.Guard(k, t, u)))
    case Outside(op) => s.(run := Apply(c.policy, s.run, op))
  }

  /** Only the store's public requests come from outside; claims and checkpoints come from attempts. */
  predicate Possible(s: System, e: Event, after: Time) {
    && s.clock <= after
    && match e
      case Start(read, token, _) => read <= after && !Issued(s.run, token) && token !in s.workers
      case Act(_, _, g, _) => Timely(Op.Get(g), s.clock, after)
      case Renew(_, t, u) => s.clock <= t <= u <= after
      case Outside(op) => (op.Cancel? || op.Resume? || op.Get? || op.Publish?) && Timely(op, s.clock, after)
  }

  datatype Moment = Moment(event: Event, after: Time)

  /** The system after a sequence of events, each possible when it happens. */
  ghost predicate Leads(c: Config, s: System, moments: seq<Moment>, t: System)
    decreases |moments|
  {
    if moments == [] then s == t
    else
      var m := moments[|moments| - 1];
      exists before: System ::
        Leads(c, s, moments[..|moments| - 1], before)
        && Possible(before, m.event, m.after)
        && t == Next(c, before, m.event).(clock := m.after)
  }

  ghost predicate Reachable(c: Config, s: System) {
    exists duration: Time, key: Option<string>, clock: Time, moments: seq<Moment> ::
      Leads(c, Begin(c, duration, key, clock), moments, s)
  }
}
