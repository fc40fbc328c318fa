/**
 One durable agent run (crewos/infrastructure/run_store.py): its row, its
 attempt rows and the outcome of every store operation on them as a function.
 The class in RunStore.dfy updates the tables in place and is proved against
 these functions. Each operation receives the clock readings it makes.
 */
module RunRecords {
  import opened Wrappers
  import opened Evidence
  import opened AgentData

  datatype RunState = Queued | Running | Succeeded | Failed | Cancelled | Exhausted | NeedsReview

  datatype AttemptState = Open | Expired | Closed(outcome: RunState)

  datatype Attempt = Attempt(token: Token, number: nat, state: AttemptState, error: Option<string>)

  datatype Run = Run(
    job: AgentRunJob,
    state: RunState,
    attempts: nat,
    token: Option<Token>,
    leaseUntil: Option<Time>,
    deadline: Option<Time>,
    duration: Time,
    checkpoint: Checkpoint,
    result: Option<Decision>,
    error: Option<string>,
    cancelRequested: bool,
    idempotencyKey: Option<string>,
    published: bool,
    history: seq<Attempt>)

  datatype RunError = NotFound | Conflict | LeaseLost | CancelRequested | UnsafeReplay | InvalidState | DuplicateId

  datatype StorePolicy = StorePolicy(leaseSeconds: Time, maxAttempts: nat)

  predicate ValidPolicy(p: StorePolicy) {
    p.leaseSeconds > 0.0 && p.maxAttempts >= 1
  }

  /** `failed` is deliberately not terminal: it can be resumed or cancelled. */
  predicate Terminal(s: RunState) {
    s in {Succeeded, Cancelled, Exhausted, NeedsReview}
  }

  function NewRun(job: AgentRunJob, duration: Time, key: Option<string>): Run {
    Run(job, Queued, 0, None, None, None, duration, EMPTY_CHECKPOINT, None, None, false, key, false, [])
  }

  predicate LeaseActive(run: Run, now: Time) {
    run.leaseUntil.Some? && run.leaseUntil.value > now
  }

  predicate LeaseLapsed(run: Run, now: Time) {
    run.leaseUntil.Some? && run.leaseUntil.value <= now
  }

  predicate Owns(run: Run, token: Token, now: Time) {
    run.state == Running && run.token == Some(token) && LeaseActive(run, now)
  }

  /** UPDATE agent_attempts ... WHERE token=?; a null token matches no row. */
  function CloseAttempt(history: seq<Attempt>, token: Option<Token>, state: AttemptState, error: Option<string>)
    : seq<Attempt>
  {
    seq(|history|, i requires 0 <= i < |history| =>
      if token == Some(history[i].token) then history[i].(state := state, error := error) else history[i])
  }

  // ----------------------------------------------------------- operations

  /** `now` is read before the transaction begins, so it may lag behind earlier commits. */
  function ClaimRun(p: StorePolicy, run: Run, job: AgentRunJob, now: Time, token: Token): Result<Run, RunError> {
    if run.job != job then Failure(Conflict)
    else if run.state == Succeeded then Success(run)
    else if run.cancelRequested || run.state == Cancelled then Failure(CancelRequested)
    else if Terminal(run.state) then Failure(Conflict)
    else if run.state == Failed then Failure(Conflict)
    else if run.state == Running && LeaseActive(run, now) then Failure(Conflict)
    else if UnsafePending(run.checkpoint) then Failure(UnsafeReplay)
    else if run.attempts >= p.maxAttempts then Failure(Conflict)
    else Success(run.(
      state := Running,
      attempts := run.attempts + 1,
      token := Some(token),
      leaseUntil := Some(now + p.leaseSeconds),
      deadline := if run.deadline.Some? then run.deadline else Some(now + run.duration),
      history := CloseAttempt(run.history, run.token, Expired, None) + [Attempt(token, run.attempts + 1, Open, None)]))
  }

  /** Renews the lease; the value is the renewed run, from which the caller gets `deadline - renewed`. */
  function GuardRun(p: StorePolicy, run: Run, token: Token, checked: Time, renewed: Time): Result<Run, RunError> {
    if !Owns(run, token, checked) then Failure(LeaseLost)
    else if run.cancelRequested then Failure(CancelRequested)
    else Success(run.(leaseUntil := Some(renewed + p.leaseSeconds)))
  }

  function SaveRun(p: StorePolicy, run: Run, token: Token, cp: Checkpoint, checked: Time, renewed: Time)
    : Result<Run, RunError>
  {
    if !Owns(run, token, checked) then Failure(LeaseLost)
    else if run.cancelRequested then Failure(CancelRequested)
    else Success(run.(checkpoint := cp, leaseUntil := Some(renewed + p.leaseSeconds)))
  }

  function FinishRun(run: Run, token: Token, outcome: RunState, result: Option<Decision>, error: Option<string>, checked: Time)
    : Result<Run, RunError>
  {
    if outcome in {Queued, Running} then Failure(InvalidState)
    else if !Owns(run, token, checked) then Failure(LeaseLost)
    else
      var cancelled := run.cancelRequested;
      var state := if cancelled then Cancelled else outcome;
      var note := if cancelled then Some("cancelled") else error;
      Success(run.(
        state := state,
        result := if cancelled then None else result,
        error := note,
        token := None,
        leaseUntil := None,
        history := CloseAttempt(run.history, Some(token), Closed(state), note)))
  }

  function CancelRun(run: Run, now: Time): Run {
    if Terminal(run.state) then run
    else run.(
      cancelRequested := true,
      state := if run.state == Running && LeaseActive(run, now) then Running else Cancelled)
  }

  function ResumeRun(p: StorePolicy, run: Run, leaseRead: Time, deadlineRead: Time): Result<Run, RunError> {
    if run.cancelRequested || Terminal(run.state) then Failure(Conflict)
    else if run.state == Running && LeaseActive(run, leaseRead) then Failure(Conflict)
    else if run.attempts >= p.maxAttempts then Failure(Conflict)
    else if UnsafePending(run.checkpoint) then Failure(UnsafeReplay)
    else if run.deadline.Some? && run.deadline.value <= deadlineRead then Failure(Conflict)
    else Success(run.(state := Queued, token := None, leaseUntil := None, published := false))
  }

  function Settle(run: Run, state: RunState, error: Option<string>): Run {
    run.(
      state := state,
      error := if error.Some? then error else run.error,
      token := None,
      leaseUntil := None,
      history := SettleAttempt(run.history, run.token, state, error))
  }

  /** The cancellation branch of `get` leaves the attempt's error column alone. */
  function SettleAttempt(history: seq<Attempt>, token: Option<Token>, state: RunState, error: Option<string>): seq<Attempt> {
    seq(|history|, i requires 0 <= i < |history| =>
      if token == Some(history[i].token)
      then history[i].(state := Closed(state), error := if error.Some? then error else history[i].error)
      else history[i])
  }

  /** The four readings `get` decides on, in the order it makes them. */
  datatype GetClock = GetClock(cancelRead: Time, reviewRead: Time, leaseRead: Time, deadlineRead: Time)

  function SettleCancelled(run: Run, c: GetClock): Run {
    if run.state == Running && run.cancelRequested && LeaseLapsed(run, c.cancelRead)
    then Settle(run, Cancelled, None) else run
  }

  function SettleUnsafe(run: Run, c: GetClock): Run {
    if run.state == Running && !run.cancelRequested && LeaseLapsed(run, c.reviewRead) && UnsafePending(run.checkpoint)
    then Settle(run, NeedsReview, Some("UnsafeReplay")) else run
  }

  function SettleExpired(run: Run, c: GetClock): Run {
    if run.state == Running && LeaseLapsed(run, c.leaseRead)
      && run.deadline.Some? && run.deadline.value <= c.deadlineRead
    then Settle(run, Exhausted, Some("AgentDeadlineExceeded")) else run
  }

  /** Reading a run settles it first when its lease has lapsed. */
  function GetRun(run: Run, c: GetClock): Run {
    SettleExpired(SettleUnsafe(SettleCancelled(run, c), c), c)
  }

  // ------------------------------------------------------------- a run's life

  datatype Op =
    | Claim(job: AgentRunJob, claimRead: Time, token: Token)
    | Guard(token: Token, checked: Time, renewed: Time)
    | Save(token: Token, cp: Checkpoint, checked: Time, renewed: Time)
    | Finish(token: Token, outcome: RunState, result: Option<Decision>, note: Option<string>, checked: Time)
    | Cancel(cancelRead: Time)
    | Resume(leaseRead: Time, deadlineRead: Time)
    | Get(clock: GetClock)
    | Publish

  function Kept(run: Run, r: Result<Run, RunError>): Run {
    if r.Success? then r.value else run
  }

  /** A refused operation rolls back: it leaves the run as it was. */
  function Apply(p: StorePolicy, run: Run, op: Op): Run {
    match op
    case Claim(job, now, token) => Kept(run, ClaimRun(p, run, job, now, token))
    case Guard(token, t, u) => Kept(run, GuardRun(p, run, token, t, u))
    case Save(token, cp, t, u) => Kept(run, SaveRun(p, run, token, cp, t, u))
    case Finish(token, outcome, result, error, t) => Kept(run, FinishRun(run, token, outcome, result, error, t))
    case Cancel(t) => CancelRun(run, t)
    case Resume(t, u) => Kept(run, ResumeRun(p, run, t, u))
    case Get(c) => GetRun(run, c)
    case Publish => run.(published := true)
  }

  /** The readings of one operation lie between the clock before and the clock after it, except claim's early one. */
  predicate Timely(op: Op, before: Time, after: Time) {
    before <= after &&
    match op
    case Claim(_, t, _) => t <= after
    case Guard(_, t, u) => before <= t <= u <= after
    case Save(_, _, t, u) => before <= t <= u <= after
    case Finish(_, _, _, _, t) => before <= t <= after
    case Cancel(t) => before <= t <= after
    case Resume(t, u) => before <= t <= u <= after
    case Get(c) => before <= c.cancelRead <= c.reviewRead <= c.leaseRead <= c.deadlineRead <= after
    case Publish => true
  }

  /** Every claim brings a token never seen on this run. */
  predicate FreshToken(run: Run, op: Op) {
    op.Claim? ==> !Issued(run, op.token)
  }

  predicate Issued(run: Run, token: Token) {
    exists i :: 0 <= i < |run.history| && run.history[i].token == token
  }

  /** A life: the states of a run, the clock at each, and the operations between them. */
  datatype Life = Life(runs: seq<Run>, clocks: seq<Time>, ops: seq<Op>)

  predicate ValidLife(p: StorePolicy, l: Life) {
    && |l.runs| == |l.ops| + 1 == |l.clocks|
    && forall i :: 0 <= i < |l.ops| ==> Happens(p, l, i)
  }

  predicate Happens(p: StorePolicy, l: Life, i: nat)
    requires i < |l.ops| && |l.runs| == |l.ops| + 1 == |l.clocks|
  {
    && Timely(l.ops[i], l.clocks[i], l.clocks[i + 1])
    && FreshToken(l.runs[i], l.ops[i])
    && l.runs[i + 1] == Apply(p, l.runs[i], l.ops[i])
  }

  /** A life that starts where a submission starts. */
  ghost predicate WholeLife(p: StorePolicy, l: Life) {
    && ValidLife(p, l)
    && exists job, duration, key :: l.runs[0] == NewRun(job, duration, key)
  }

  // -------------------------------------------------------------- invariant

  /** Attempt rows are numbered 1, 2, 3, ... and carry distinct tokens. */
  predicate HistoryInv(history: seq<Attempt>) {
    && (forall i :: 0 <= i < |history| ==> history[i].number == i + 1)
    && (forall i, j :: 0 <= i < j < |history| ==> history[i].token != history[j].token)
  }

  predicate RunInv(p: StorePolicy, run: Run) {
    && (run.state == Running ==> run.token.Some? && run.leaseUntil.Some? && run.deadline.Some?)
    && run.attempts <= p.maxAttempts
    && |run.history| == run.attempts
    && HistoryInv(run.history)
    && (run.token.Some? ==> run.attempts > 0 && run.history[run.attempts - 1].token == run.token.value)
    && (run.state == Running ==> run.attempts > 0)
    && (run.token.Some? <==> run.leaseUntil.Some?)
    && (run.deadline.Some? <==> run.attempts > 0)
    && (run.token.Some? ==> run.state in {Running, Cancelled})
    && (run.state == Running ==> run.history[run.attempts - 1].state == Open)
  }

  lemma NewRunInv(p: StorePolicy, job: AgentRunJob, duration: Time, key: Option<string>)
    ensures RunInv(p, NewRun(job, duration, key))
  {
  }

  /** The later list has the same attempts first, whatever became of their states. */
  predicate Extends(later: seq<Attempt>, earlier: seq<Attempt>) {
    && |earlier| <= |later|
    && forall i :: 0 <= i < |earlier| ==> later[i].token == earlier[i].token && later[i].number == earlier[i].number
  }

  lemma ApplyExtendsHistory(p: StorePolicy, run: Run, op: Op)
    ensures Extends(Apply(p, run, op).history, run.history)
    ensures |Apply(p, run, op).history| > |run.history| ==>
      op.Claim? && |Apply(p, run, op).history| == |run.history| + 1
        && Apply(p, run, op).history[|run.history|] == Attempt(op.token, run.attempts + 1, Open, None)
  {
    match op
    case Claim(_, _, _) =>
    case Get(_) =>
    case _ =>
  }

  lemma HistoryInvExtends(later: seq<Attempt>, earlier: seq<Attempt>)
    requires HistoryInv(earlier) && Extends(later, earlier) && |later| <= |earlier| + 1
    requires |later| > |earlier| ==>
      later[|earlier|].number == |later| && forall i :: 0 <= i < |earlier| ==> earlier[i].token != later[|earlier|].token
    ensures HistoryInv(later)
  {
  }

  lemma ApplyKeepsInv(p: StorePolicy, run: Run, op: Op)
    requires RunInv(p, run) && FreshToken(run, op)
    ensures RunInv(p, Apply(p, run, op))
  {
    var next := Apply(p, run, op);
    ApplyExtendsHistory(p, run, op);
    assert op.Claim? ==> forall i :: 0 <= i < |run.history| ==> run.history[i].token != op.token;
    HistoryInvExtends(next.history, run.history);
  }

  lemma {:induction false} LifeInv(p: StorePolicy, l: Life, i: nat)
    requires WholeLife(p, l) && i < |l.runs|
    ensures RunInv(p, l.runs[i])
  {
    if i > 0 {
      LifeInv(p, l, i - 1);
      assert Happens(p, l, i - 1);
      ApplyKeepsInv(p, l.runs[i - 1], l.ops[i - 1]);
    }
  }

  /** Attempts are only ever added; the deadline is written once; the job and a cancellation request stay. */
  predicate Follows(next: Run, run: Run) {
    && next.job == run.job
    && next.duration == run.duration
    && next.idempotencyKey == run.idempotencyKey
    && run.attempts <= next.attempts
    && (run.deadline.Some? ==> next.deadline == run.deadline)
    && (run.cancelRequested ==> next.cancelRequested)
    && Extends(next.history, run.history)
  }

  lemma ApplyMovesForward(p: StorePolicy, run: Run, op: Op)
    ensures Follows(Apply(p, run, op), run)
  {
    ApplyExtendsHistory(p, run, op);
  }

  lemma FollowsTransitive(a: Run, b: Run, c: Run)
    requires Follows(b, a) && Follows(c, b)
    ensures Follows(c, a)
  {
  }

  lemma {:induction false} LifeMovesForward(p: StorePolicy, l: Life, i: nat, j: nat)
    requires ValidLife(p, l) && i <= j < |l.runs|
    ensures l.clocks[i] <= l.clocks[j]
    ensures Follows(l.runs[j], l.runs[i])
    decreases j - i
  {
    if i == j {
    } else {
      LifeMovesForward(p, l, i, j - 1);
      StepMovesForward(p, l, j - 1);
      FollowsTransitive(l.runs[i], l.runs[j - 1], l.runs[j]);
    }
  }

  lemma StepMovesForward(p: StorePolicy, l: Life, i: nat)
    requires ValidLife(p, l) && i < |l.ops|
    ensures l.clocks[i] <= l.clocks[i + 1]
    ensures Follows(l.runs[i + 1], l.runs[i])
  {
    assert Happens(p, l, i);
    ApplyMovesForward(p, l.runs[i], l.ops[i]);
  }

  // -------------------------------------------------------------- absorption

  /** A terminal run keeps everything but its publication mark. */
  lemma TerminalAbsorbs(p: StorePolicy, run: Run, op: Op)
    requires Terminal(run.state)
    ensures Apply(p, run, op).(published := run.published) == run
  {
  }

  lemma {:induction false} TerminalForever(p: StorePolicy, l: Life, i: nat, j: nat)
    requires ValidLife(p, l) && i <= j < |l.runs| && Terminal(l.runs[i].state)
    ensures l.runs[j].(published := l.runs[i].published) == l.runs[i]
    decreases j - i
  {
    if i == j {
    } else {
      TerminalForever(p, l, i, j - 1);
      assert Happens(p, l, j - 1);
      TerminalAbsorbs(p, l.runs[j - 1], l.ops[j - 1]);
    }
  }

  /** Once cancellation is requested and the run has not succeeded. */
  predicate CancelBinds(run: Run) {
    run.cancelRequested && run.state in {Running, Cancelled, Exhausted}
  }

  lemma CancelEstablishes(run: Run, now: Time)
    requires !Terminal(run.state)
    ensures CancelBinds(CancelRun(run, now))
    ensures CancelRun(run, now).checkpoint == run.checkpoint
  {
  }

  lemma CancelStep(p: StorePolicy, run: Run, op: Op)
    requires CancelBinds(run)
    ensures var next := Apply(p, run, op);
      && CancelBinds(next)
      && next.checkpoint == run.checkpoint
      && next.attempts == run.attempts
      && next.deadline == run.deadline
      && (op.Finish? && next != run ==> next.state == Cancelled && next.result.None?)
  {
  }

  /** After a cancellation request the run is never attempted again, its checkpoint is frozen and it never succeeds. */
  lemma {:induction false} CancelForever(p: StorePolicy, l: Life, i: nat, j: nat)
    requires ValidLife(p, l) && i <= j < |l.runs| && CancelBinds(l.runs[i])
    ensures CancelBinds(l.runs[j])
    ensures l.runs[j].checkpoint == l.runs[i].checkpoint
    ensures l.runs[j].attempts == l.runs[i].attempts
    ensures l.runs[j].deadline == l.runs[i].deadline
    decreases j - i
  {
    if i == j {
    } else {
      CancelForever(p, l, i, j - 1);
      assert Happens(p, l, j - 1);
      CancelStep(p, l.runs[j - 1], l.ops[j - 1]);
    }
  }

  // ------------------------------------------------------------- lease fencing

  /** An issued token that does not own the lease cannot come to own it. */
  lemma RefusedStep(p: StorePolicy, run: Run, op: Op, token: Token, now: Time, next: Time)
    requires RunInv(p, run) && FreshToken(run, op) && Timely(op, now, next)
    requires Issued(run, token) && !Owns(run, token, now)
    ensures !Owns(Apply(p, run, op), token, next)
  {
  }

  /** Once refused for not owning the lease, refused forever. */
  lemma {:induction false} RefusedForever(p: StorePolicy, l: Life, token: Token, i: nat, j: nat)
    requires WholeLife(p, l) && i <= j < |l.runs|
    requires Issued(l.runs[i], token) && !Owns(l.runs[i], token, l.clocks[i])
    ensures !Owns(l.runs[j], token, l.clocks[j])
    decreases j - i
  {
    if i == j {
    } else {
      RefusedForever(p, l, token, i, j - 1);
      assert Happens(p, l, j - 1);
      LifeInv(p, l, j - 1);
      LifeMovesForward(p, l, i, j - 1);
      var n :| 0 <= n < |l.runs[i].history| && l.runs[i].history[n].token == token;
      assert l.runs[j - 1].history[n].token == token;
      RefusedStep(p, l.runs[j - 1], l.ops[j - 1], token, l.clocks[j - 1], l.clocks[j]);
    }
  }

  /** Refusal by guard, checkpoint or finish for a lost lease means exactly not owning it. */
  lemma RefusalMeansNotOwner(p: StorePolicy, run: Run, token: Token, cp: Checkpoint, outcome: RunState,
    result: Option<Decision>, note: Option<string>, t: Time, u: Time)
    requires outcome !in {Queued, Running}
    ensures GuardRun(p, run, token, t, u) == Failure(LeaseLost) <==> !Owns(run, token, t)
    ensures SaveRun(p, run, token, cp, t, u) == Failure(LeaseLost) <==> !Owns(run, token, t)
    ensures FinishRun(run, token, outcome, result, note, t) == Failure(LeaseLost) <==> !Owns(run, token, t)
  {
  }

  /** The owner is always the run's last attempt. */
  lemma OwnerIsLast(p: StorePolicy, run: Run, token: Token, now: Time)
    requires RunInv(p, run) && Owns(run, token, now)
    ensures run.attempts > 0 && run.history[run.attempts - 1].token == token
    ensures Issued(run, token)
  {
  }

  /** Ownership is ordered by attempt number and never comes back: between two moments of one owner there is no other. */
  lemma OwnershipIntervals(p: StorePolicy, l: Life, first: Token, second: Token, i: nat, k: nat, j: nat)
    requires WholeLife(p, l) && i <= k <= j < |l.runs|
    requires Owns(l.runs[i], first, l.clocks[i]) && Owns(l.runs[j], second, l.clocks[j])
    ensures l.runs[i].attempts <= l.runs[j].attempts
    ensures first == second <==> l.runs[i].attempts == l.runs[j].attempts
    ensures first == second ==> Owns(l.runs[k], first, l.clocks[k])
  {
    LifeInv(p, l, i);
    LifeInv(p, l, k);
    LifeInv(p, l, j);
    LifeMovesForward(p, l, i, j);
    LifeMovesForward(p, l, i, k);
    OwnerIsLast(p, l.runs[i], first, l.clocks[i]);
    OwnerIsLast(p, l.runs[j], second, l.clocks[j]);
    assert l.runs[j].history[l.runs[i].attempts - 1].token == first;
    assert l.runs[k].history[l.runs[i].attempts - 1].token == first;
    if !Owns(l.runs[k], first, l.clocks[k]) {
      RefusedForever(p, l, first, k, j);
    }
  }

  // ---------------------------------------------------------- unsafe replay gate

  /** An unsafe pending call nobody owns any more. */
  ghost predicate Stranded(run: Run, now: Time) {
    UnsafePending(run.checkpoint) && forall token: Token :: Issued(run, token) ==> !Owns(run, token, now)
  }

  /** A stranded call is frozen: no claim, no resume, no success ever again. */
  lemma StrandedStep(p: StorePolicy, run: Run, op: Op, now: Time, next: Time)
    requires RunInv(p, run) && FreshToken(run, op) && Timely(op, now, next)
    requires Stranded(run, now)
    ensures var after := Apply(p, run, op);
      && Stranded(after, next)
      && after.checkpoint == run.checkpoint
      && after.attempts == run.attempts
      && (after.state == Succeeded ==> run.state == Succeeded)
  {
    assert run.state == Running && LeaseActive(run, now) ==> Issued(run, run.token.value) by {
      if run.token.Some? {
        assert run.history[run.attempts - 1].token == run.token.value;
      }
    }
    var after := Apply(p, run, op);
    assert after.attempts == run.attempts && |after.history| == |run.history|;
    forall token: Token | Issued(after, token)
      ensures !Owns(after, token, next)
    {
      var i :| 0 <= i < |after.history| && after.history[i].token == token;
      assert run.history[i].token == token;
      RefusedStep(p, run, op, token, now, next);
    }
  }

  lemma {:induction false} StrandedForever(p: StorePolicy, l: Life, i: nat, j: nat)
    requires WholeLife(p, l) && i <= j < |l.runs| && Stranded(l.runs[i], l.clocks[i])
    ensures Stranded(l.runs[j], l.clocks[j])
    ensures l.runs[j].checkpoint == l.runs[i].checkpoint && l.runs[j].attempts == l.runs[i].attempts
    ensures l.runs[j].state == Succeeded ==> l.runs[i].state == Succeeded
    ensures forall t: Time, u: Time :: ResumeRun(p, l.runs[j], t, u).Failure?
    ensures forall job: AgentRunJob, t: Time, k: Token ::
      ClaimRun(p, l.runs[j], job, t, k).Success? ==> l.runs[j].state == Succeeded && ClaimRun(p, l.runs[j], job, t, k).value == l.runs[j]
    decreases j - i
  {
    if i == j {
    } else {
      StrandedForever(p, l, i, j - 1);
      assert Happens(p, l, j - 1);
      LifeInv(p, l, j - 1);
      StrandedStep(p, l.runs[j - 1], l.ops[j - 1], l.clocks[j - 1], l.clocks[j]);
    }
  }

  // ---------------------------------------------------- what one might not expect

  const JOB := AgentRunJob(1, "tenant", "message", 5, General)
  const LEASE_OF_FIVE := StorePolicy(5.0, 3)

  /** A life built up one operation at a time. */
  lemma LifeGoesOn(p: StorePolicy, l: Life, op: Op, after: Time) returns (longer: Life)
    requires WholeLife(p, l)
    requires Timely(op, l.clocks[|l.ops|], after) && FreshToken(l.runs[|l.ops|], op)
    ensures WholeLife(p, longer) && longer.ops == l.ops + [op]
    ensures longer.runs[|longer.ops|] == Apply(p, l.runs[|l.ops|], op) && longer.clocks[|longer.ops|] == after
    ensures l.runs <= longer.runs && l.clocks <= longer.clocks && l.ops <= longer.ops
  {
    longer := Life(l.runs + [Apply(p, l.runs[|l.ops|], op)], l.clocks + [after], l.ops + [op]);
    forall i | 0 <= i < |longer.ops|
      ensures Happens(p, longer, i)
    {
      if i < |l.ops| {
        assert Happens(p, l, i);
      }
    }
    assert longer.runs[0] == l.runs[0];
  }

  /** Claimed at 0.0 for two seconds, under a lease of five. */
  lemma ClaimedLife() returns (l: Life)
    ensures WholeLife(LEASE_OF_FIVE, l) && |l.ops| == 1 && l.clocks[1] == 0.0
    ensures l.runs[1] == NewRun(JOB, 2.0, None).(
      state := Running, attempts := 1, token := Some(7), leaseUntil := Some(5.0), deadline := Some(2.0),
      history := [Attempt(7, 1, Open, None)])
  {
    var start := Life([NewRun(JOB, 2.0, None)], [0.0], []);
    assert WholeLife(LEASE_OF_FIVE, start);
    l := LifeGoesOn(LEASE_OF_FIVE, start, Op.Claim(JOB, 0.0, 7), 0.0);
  }

  /** With several clock readings inside one read, a run whose cancellation was requested ends as exhausted. */
  lemma CancelledRunCanReadExhausted() returns (l: Life)
    ensures WholeLife(LEASE_OF_FIVE, l) && |l.ops| == 3 && l.ops[2].Get?
    ensures l.runs[2].state == Running && l.runs[2].cancelRequested && l.runs[3].state == Exhausted
  {
    var claimed := ClaimedLife();
    var cancelled := LifeGoesOn(LEASE_OF_FIVE, claimed, Op.Cancel(1.0), 1.0);
    assert cancelled.runs[2] == claimed.runs[1].(cancelRequested := true);
    l := LifeGoesOn(LEASE_OF_FIVE, cancelled, Op.Get(GetClock(4.0, 6.0, 6.0, 6.0)), 6.0);
  }

  /** Exactly when: the lease must lapse between the first reading and the third, with the deadline past at the fourth. */
  lemma CancelledRunReadExactly(p: StorePolicy, run: Run, c: GetClock)
    requires RunInv(p, run) && run.state == Running && run.cancelRequested
    requires Timely(Get(c), c.cancelRead, c.deadlineRead)
    ensures var until, deadline := run.leaseUntil.value, run.deadline.value;
      && (GetRun(run, c).state == Exhausted <==> c.cancelRead < until <= c.leaseRead && deadline <= c.deadlineRead)
      && (GetRun(run, c).state == Cancelled <==> until <= c.cancelRead)
      && (GetRun(run, c) == run || GetRun(run, c).state in {Exhausted, Cancelled})
  {
  }

  /** A run that succeeded after its deadline: finished at 3.0 with a deadline of 2.0. */
  lemma SuccessAfterDeadline() returns (l: Life)
    ensures WholeLife(LEASE_OF_FIVE, l) && |l.ops| == 2
    ensures l.runs[2].state == Succeeded && l.runs[2].deadline == Some(2.0) && l.clocks[2] == 3.0
  {
    var claimed := ClaimedLife();
    l := LifeGoesOn(LEASE_OF_FIVE, claimed, Op.Finish(7, Succeeded, Some(FinalAnswer("done", [])), None, 3.0), 3.0);
  }

  /** Exactly when a success past the deadline is stored: the lease still holds and nobody asked to cancel. */
  lemma SuccessAfterDeadlineExactly(run: Run, token: Token, result: Option<Decision>, note: Option<string>, t: Time)
    requires run.deadline.Some? && run.deadline.value <= t && run.state != Succeeded
    ensures var r := FinishRun(run, token, Succeeded, result, note, t);
      (r.Success? && r.value.state == Succeeded <==> Owns(run, token, t) && !run.cancelRequested)
      && (r.Success? && r.value.state == Succeeded ==> r.value.deadline == run.deadline && r.value.result == result)
  {
  }

  /** A cancelled run still carrying the token of its lapsed attempt, whose row stays open. */
  lemma CancelLeavesToken() returns (l: Life)
    ensures WholeLife(LEASE_OF_FIVE, l) && |l.ops| == 2
    ensures l.runs[2].state == Cancelled && l.runs[2].token == Some(7) && Orphaned(l.runs[2])
  {
    var claimed := ClaimedLife();
    l := LifeGoesOn(LEASE_OF_FIVE, claimed, Op.Cancel(6.0), 6.0);
  }

  /** Exactly when cancelling leaves a token behind: it met a running row whose lease had lapsed. */
  lemma CancelLeavesTokenExactly(p: StorePolicy, run: Run, now: Time)
    requires RunInv(p, run) && !Terminal(run.state)
    ensures CancelRun(run, now).state == Cancelled && CancelRun(run, now).token.Some?
      <==> run.state == Running && LeaseLapsed(run, now)
  {
  }

  /** The last attempt's row is open though nobody runs it any more. */
  predicate Orphaned(run: Run) {
    run.state != Running && run.history != [] && run.history[|run.history| - 1].state == Open
  }

  /** A resumed run whose lapsed attempt stays open in the attempts table. */
  lemma ResumeLeavesAttemptOpen() returns (l: Life)
    ensures exists p: StorePolicy :: WholeLife(p, l)
    ensures |l.ops| == 2 && l.runs[2].state == Queued && Orphaned(l.runs[2])
  {
    var p := StorePolicy(1.0, 3);
    var start := Life([NewRun(JOB, 2.0, None)], [0.0], []);
    assert WholeLife(p, start);
    var claimed := LifeGoesOn(p, start, Op.Claim(JOB, 0.0, 7), 0.0);
    l := LifeGoesOn(p, claimed, Op.Resume(1.5, 1.5), 1.5);
  }

  /** The guards that let a running row be resumed, as the requester could read them beforehand. */
  predicate Resumable(p: StorePolicy, run: Run, leaseRead: Time, deadlineRead: Time)
    requires run.deadline.Some?
  {
    && LeaseLapsed(run, leaseRead) && !run.cancelRequested && run.attempts < p.maxAttempts
    && !UnsafePending(run.checkpoint) && deadlineRead < run.deadline.value
  }

  /**
   Exactly which operations orphan an attempt: cancelling a running row whose lease
   lapsed, or resuming one that also has attempts left, no unsafe call pending, no
   cancellation requested and its deadline ahead.
   */
  lemma OrphanedExactly(p: StorePolicy, run: Run, op: Op)
    requires RunInv(p, run) && !Orphaned(run)
    ensures Orphaned(Apply(p, run, op)) <==>
      run.state == Running
      && ((op.Cancel? && LeaseLapsed(run, op.cancelRead)) || (op.Resume? && Resumable(p, run, op.leaseRead, op.deadlineRead)))
  {
  }
}
