/**
 The shared run store as an attempt meets it: real store calls, with whatever
 other attempts, requests and clocks do in between, and a ghost account of the
 system they all act on. Each call is one event of the machine.
 */
module Deployment {
  import opened Wrappers
  import opened AgentData
  import opened Budget
  import opened RunRecords
  import opened RunStore
  import opened RunVerdicts
  import opened AgentMachine
  import opened AgentInvariant
  import opened AgentSteps
  import opened AgentHistory

  /** One time the model was really invoked. */
  datatype Invocation = Invocation(token: Token, step: nat)

  /** Every invocation of the model is of a call on record, made by the attempt it was granted to, and of no other. */
  predicate OnRecord(log: Log, invoked: seq<Invocation>) {
    && (forall i :: 0 <= i < |invoked| ==>
      invoked[i].step in log.calls && GrantedTo(log, invoked[i].step, invoked[i].token))
    && (forall i, j :: 0 <= i < j < |invoked| ==> invoked[i].step != invoked[j].step)
  }

  lemma RecordKept(log: Log, later: Log, invoked: seq<Invocation>)
    requires OnRecord(log, invoked) && Recalls(later, log)
    ensures OnRecord(later, invoked)
  {
    forall i | 0 <= i < |invoked|
      ensures invoked[i].step in later.calls && GrantedTo(later, invoked[i].step, invoked[i].token)
    {
      var n :| 0 <= n < |log.calls| && log.calls[n] == invoked[i].step;
      assert later.calls[n] == invoked[i].step;
    }
  }

  /** One more event of the history: the log only grows. */
  lemma HistoryGoesOn(c: Config, start: System, path: seq<Moment>, s: System, e: Event, after: Time)
    requires ValidConfig(c) && Submitted(c, start) && Leads(c, start, path, s) && Possible(s, e, after)
    ensures Leads(c, start, path + [Moment(e, after)], Next(c, s, e).(clock := after))
    ensures Recalls(Next(c, s, e).log, s.log)
  {
    SubmittedReaches(c, start, path, s);
    ReachableInv(c, s);
    EventRecalls(c, s, e);
    LeadsOn(c, start, path, s, Moment(e, after));
  }

  // What each kind of step does to the account, without the program behind it.

  predicate SaveRefused(c: Config, s: System, k: Token, cp: Checkpoint, g: GetClock, fails: bool) {
    fails || SaveRun(c.policy, s.run, k, cp, g.cancelRead, g.reviewRead).Failure?
  }

  function SaveFault(c: Config, s: System, k: Token, cp: Checkpoint, g: GetClock, fails: bool): Fault
    requires SaveRefused(c, s, k, cp, g, fails)
  {
    if fails then Breakdown else FaultOf(SaveRun(c.policy, s.run, k, cp, g.cancelRead, g.reviewRead).error)
  }

  lemma SaveAccount(c: Config, start: System, path: seq<Moment>, s: System, k: Token, x: Choice, g: GetClock, fails: bool,
    cp: Checkpoint, next: Worker, note: Note)
    returns (t: System, longer: seq<Moment>)
    requires ValidConfig(c) && Submitted(c, start) && Leads(c, start, path, s) && !note.Ran?
    requires Timely(Op.Get(g), s.clock, g.deadlineRead)
    requires k in s.workers && s.workers[k].token == k
    requires Plan(c, s.workers[k], x) == Persist(cp, next, note)
    ensures Leads(c, start, longer, t) && path <= longer && t.clock == g.deadlineRead && k in t.workers
    ensures Recalls(t.log, s.log) && t.log.dispatches == s.log.dispatches
    ensures t.run == if fails then s.run else Apply(c.policy, s.run, Op.Save(k, cp, g.cancelRead, g.reviewRead))
    ensures t.workers[k] ==
      if SaveRefused(c, s, k, cp, g, fails)
      then s.workers[k].(cp := cp, pc := Raising(SaveFault(c, s, k, cp, g, fails)))
      else Stamp(s.log, next.(cp := cp), note)
  {
    var e := Event.Act(k, x, g, fails);
    HistoryGoesOn(c, start, path, s, e, g.deadlineRead);
    t, longer := Next(c, s, e).(clock := g.deadlineRead), path + [Moment(e, g.deadlineRead)];
  }

  /** The store's next token belongs to no attempt yet. */
  lemma FreshForAttempts(c: Config, start: System, path: seq<Moment>, s: System, token: Token, row: Run)
    requires ValidConfig(c) && Submitted(c, start) && Leads(c, start, path, s) && row == s.run
    requires RowValid(c.policy, c.job.runId, row, token)
    ensures !Issued(s.run, token) && token !in s.workers
    ensures RunInv(c.policy, s.run) && s.run.job == c.job
  {
    SubmittedReaches(c, start, path, s);
    ReachableInv(c, s);
    assert token in s.workers ==> WorkerInv(c, s.run, s.log, token, s.workers[token]);
  }

  /** The model was never invoked for a token nobody holds. */
  lemma NothingInvokedYet(c: Config, start: System, path: seq<Moment>, s: System, token: Token, invoked: seq<Invocation>)
    requires ValidConfig(c) && Submitted(c, start) && Leads(c, start, path, s) && token !in s.workers
    requires OnRecord(s.log, invoked)
    ensures forall n: nat :: Invocation(token, n) !in invoked
  {
    HoldersExist(c, start, path, s);
  }

  lemma ClaimAccount(c: Config, start: System, path: seq<Moment>, s: System, read: Time, token: Token, settings: Settings, now: Time)
    returns (t: System, longer: seq<Moment>)
    requires ValidConfig(c) && Submitted(c, start) && Leads(c, start, path, s) && read <= now && s.clock <= now
    requires !Issued(s.run, token) && token !in s.workers
    ensures Leads(c, start, longer, t) && path <= longer && t.clock == now
    ensures Recalls(t.log, s.log) && t.log.dispatches == s.log.dispatches
    ensures t.run == Apply(c.policy, s.run, Op.Claim(c.job, read, token))
    ensures var r := ClaimRun(c.policy, s.run, c.job, read, token);
      && (r.Success? && r.value.state == Succeeded ==> r.value.result.Some? && r.value.result.value in t.log.answers)
      && (r.Success? && r.value.state != Succeeded ==>
        r.value.token == Some(token) && token in t.workers && t.workers[token] == NewWorker(r.value, token, settings))
  {
    var e := Start(read, token, settings);
    SubmittedReaches(c, start, path, s);
    ReachableInv(c, s);
    HistoryGoesOn(c, start, path, s, e, now);
    t, longer := Next(c, s, e).(clock := now), path + [Moment(e, now)];
  }

  lemma FinishAccount(c: Config, start: System, path: seq<Moment>, s: System, k: Token, x: Choice, g: GetClock, fails: bool,
    outcome: RunState, result: Option<Decision>, error: Option<string>, next: Worker, refused: Worker)
    returns (t: System, longer: seq<Moment>)
    requires ValidConfig(c) && Submitted(c, start) && Leads(c, start, path, s)
    requires Timely(Op.Get(g), s.clock, g.deadlineRead)
    requires k in s.workers && s.workers[k].token == k
    requires Plan(c, s.workers[k], x) == Conclude(outcome, result, error, next, refused)
    ensures Leads(c, start, longer, t) && path <= longer && t.clock == g.deadlineRead && k in t.workers
    ensures t.log == s.log
    ensures t.run == if fails then s.run else Apply(c.policy, s.run, Op.Finish(k, outcome, result, error, g.cancelRead))
    ensures t.workers[k] ==
      if fails || FinishRun(s.run, k, outcome, result, error, g.cancelRead).Failure? then refused else next
  {
    var e := Event.Act(k, x, g, fails);
    HistoryGoesOn(c, start, path, s, e, g.deadlineRead);
    t, longer := Next(c, s, e).(clock := g.deadlineRead), path + [Moment(e, g.deadlineRead)];
  }

  lemma ReadBackAccount(c: Config, start: System, path: seq<Moment>, s: System, k: Token, g: GetClock, fails: bool)
    returns (t: System, longer: seq<Moment>)
    requires ValidConfig(c) && Submitted(c, start) && Leads(c, start, path, s)
    requires Timely(Op.Get(g), s.clock, g.deadlineRead)
    requires k in s.workers && s.workers[k].token == k && s.workers[k].pc.Confirming?
    ensures Leads(c, start, longer, t) && path <= longer && t.clock == g.deadlineRead && k in t.workers
    ensures Recalls(t.log, s.log) && t.log.dispatches == s.log.dispatches
    ensures t.run == if fails then s.run else Apply(c.policy, s.run, Op.Get(g))
    ensures fails ==> t.workers[k] == Fail(s.workers[k], Breakdown)
    ensures !fails && t.run.state == Cancelled ==> t.workers[k] == Fail(s.workers[k], Cancellation)
    ensures !fails && t.run.state != Cancelled ==>
      && t.workers[k] == s.workers[k].(pc := Returned(s.workers[k].pc.answer))
      && t.log.answers == s.log.answers + [s.workers[k].pc.answer]
  {
    var e := Event.Act(k, Go, g, fails);
    HistoryGoesOn(c, start, path, s, e, g.deadlineRead);
    ConfirmEvent(c, s, k, g, fails);
    t, longer := DoConfirm(s, s.workers[k], g, fails).(clock := g.deadlineRead), path + [Moment(e, g.deadlineRead)];
  }

  lemma ConfirmEvent(c: Config, s: System, k: Token, g: GetClock, fails: bool)
    requires k in s.workers && s.workers[k].pc.Confirming?
    ensures Next(c, s, Event.Act(k, Go, g, fails)) == DoConfirm(s, s.workers[k], g, fails)
  {
    assert Plan(c, s.workers[k], Go) == Confirm;
  }

  lemma RenewAccount(c: Config, start: System, path: seq<Moment>, s: System, k: Token, t: Time, u: Time)
    returns (after: System, longer: seq<Moment>)
    requires ValidConfig(c) && Submitted(c, start) && Leads(c, start, path, s) && s.clock <= t <= u
    ensures Leads(c, start, longer, after) && path <= longer && after.clock == u
    ensures after.log == s.log && after.workers == s.workers
    ensures after.run == Apply(c.policy, s.run, Op.Guard(k, t, u))
  {
    var e := Event.Renew(k, t, u);
    HistoryGoesOn(c, start, path, s, e, u);
    after, longer := Next(c, s, e).(clock := u), path + [Moment(e, u)];
  }

  /** Attempt k holds the run, just renewed, with this much time left before the deadline. */
  predicate LeaseRenewed(p: StorePolicy, run: Run, k: Token, clock: Time, left: Time) {
    && run.state == Running && run.token == Some(k) && !run.cancelRequested
    && run.leaseUntil == Some(clock + p.leaseSeconds)
    && run.deadline == Some(clock + left)
  }

  /** A delivery's claim opened an attempt, met a succeeded run, or was refused; only the first changed the run. */
  predicate ClaimVerdict(c: Config, before: Run, after: Run, read: Time, r: Result<Run, RunError>) {
    && (before.state == Succeeded ==> r == Success(before) && after == before)
    && (before.state != Succeeded && !Claimable(c.policy, before, c.job, read) ==> r.Failure? && after == before)
    && (Claimable(c.policy, before, c.job, read) ==>
      r.Success? && after == r.value && after.state == Running && after.attempts == before.attempts + 1)
  }

  lemma JudgeClaim(c: Config, run: Run, read: Time, token: Token)
    requires RunInv(c.policy, run) && run.job == c.job
    ensures ClaimVerdict(c, run, Apply(c.policy, run, Op.Claim(c.job, read, token)), read,
      ClaimRun(c.policy, run, c.job, read, token))
  {
    ClaimOpensExactly(c.policy, run, c.job, read, token);
  }

  /** The store names attempt k as the one running, and nobody asked to cancel. */
  predicate HeldBy(run: Run, k: Token) {
    run.state == Running && run.token == Some(k) && !run.cancelRequested
  }

  /** What a renewal leaves behind, and why it is refused. */
  predicate RenewVerdict(p: StorePolicy, run: Run, k: Token, clock: Time, r: Result<Time, Fault>) {
    match r
    case Success(left) => LeaseRenewed(p, run, k, clock, left) && Owns(run, k, clock)
    case Failure(Cancellation) => run.cancelRequested && run.state == Running && run.token == Some(k)
    case Failure(Breakdown) => !Owns(run, k, clock)
    case Failure(Exhaustion) => false
  }

  /** The row as an attempt's terminal write leaves it; a requested cancellation decides, and drops the result. */
  predicate Concluded(run: Run, outcome: RunState, result: Option<Decision>) {
    && run.token.None? && run.leaseUntil.None?
    && run.state == (if run.cancelRequested then Cancelled else outcome)
    && run.result == (if run.cancelRequested then None else result)
  }

  /** The terminal write happened, or the storage broke, or the attempt had lost the run. */
  predicate FinishVerdict(runs: map<RunId, Run>, id: RunId, k: Token, clock: Time, outcome: RunState, result: Option<Decision>,
    written: bool, broke: bool)
  {
    && id in runs
    && (written ==> Concluded(runs[id], outcome, result))
    && (!written ==> broke || !Owns(runs[id], k, clock))
  }

  lemma JudgeFinish(p: StorePolicy, run: Run, k: Token, outcome: RunState, result: Option<Decision>, error: Option<string>,
    g: GetClock)
    requires outcome !in {Queued, Running} && Timely(Op.Get(g), g.cancelRead, g.deadlineRead)
    ensures var r := FinishRun(run, k, outcome, result, error, g.cancelRead);
      && Apply(p, run, Op.Finish(k, outcome, result, error, g.cancelRead)) == (if r.Success? then r.value else run)
      && (r.Success? ==> Concluded(r.value, outcome, result))
      && (r.Failure? ==> !Owns(run, k, g.deadlineRead))
  {
  }

  class Deployment {
    const c: Config
    const store: SQLiteRunStore
    var clock: Time
    ghost const start: System // the submission
    ghost var path: seq<Moment> // everything that happened since
    ghost var system: System // what it led to
    ghost var invoked: seq<Invocation> // the model, as it was really invoked
    ghost var dispatched: seq<Dispatch> // the tools, as they really ran
    ghost var thrown: Option<Fault> // the last exception that came from outside the attempt's own code

    ghost predicate Valid()
      reads this, store
    {
      Sound() && dispatched == system.log.dispatches
    }

    /** All but the tool run that has just ended and is about to be recorded. */
    ghost predicate Sound()
      reads this, store
    {
      && ValidConfig(c)
      && store.Valid() && store.policy == c.policy
      && store.Visible(c.job.runId, c.job.tenant)
      && Submitted(c, start) && Leads(c, start, path, system)
      && store.runs[c.job.runId] == system.run
      && clock == system.clock
      && OnRecord(system.log, invoked)
    }

    /** Time only goes on: what happened before has still happened. */
    twostate predicate Onward()
      reads this
    {
      old(path) <= path
    }

    /** Going on means that events lead from the one system to the other. */
    twostate lemma OnwardIsLater()
      requires old(Sound()) && Sound() && Onward()
      ensures Later(c, old(system), system)
    {
      MoreIsLater(c, start, old(path), old(system), path, system);
    }

    /** Nobody else invokes the model in attempt k's name. */
    twostate predicate KeepsOwn(k: Token)
      reads this
    {
      forall n: nat :: Invocation(k, n) in invoked <==> Invocation(k, n) in old(invoked)
    }

    /** The attempt as the account has it. */
    ghost function Attempt(k: Token): Worker
      requires k in system.workers
      reads this
    {
      system.workers[k]
    }

    ghost predicate Has(k: Token)
      reads this
    {
      k in system.workers && system.workers[k].token == k
    }

    /** Registers a submission nobody has claimed yet. */
    constructor (c: Config, store: SQLiteRunStore, ghost duration: Time, ghost key: Option<string>, clock: Time)
      requires ValidConfig(c) && store.Valid() && store.policy == c.policy
      requires store.Visible(c.job.runId, c.job.tenant)
      requires store.runs[c.job.runId] == NewRun(c.job, duration, key)
      ensures Valid() && this.c == c && this.store == store && system == Begin(c, duration, key, clock)
      ensures invoked == [] && dispatched == []
    {
      this.c, this.store, this.clock := c, store, clock;
      start, system := Begin(c, duration, key, clock), Begin(c, duration, key, clock);
      path, invoked, dispatched, thrown := [], [], [], None;
      new;
      assert Leads(c, Begin(c, duration, key, clock), [], system);
    }

    /**
     Time passes: the readings the next transaction makes are no earlier than
     anything committed so far. Meanwhile anybody but attempt k may have acted.
     The body does nothing; callers may rely on nothing but the contract.
     */
    method Interleave(ghost k: Token) returns (g: GetClock)
      requires Valid() && Has(k)
      modifies this, store
      ensures Valid() && Has(k) && Attempt(k) == old(Attempt(k))
      ensures Onward() && KeepsOwn(k) && thrown == old(thrown)
      ensures Timely(Op.Get(g), system.clock, g.deadlineRead)
    {
      g := GetClock(clock, clock, clock, clock);
    }

    /** Before an attempt exists: anybody may have acted. */
    method Wait() returns (now: Time)
      requires Valid()
      modifies this, store
      ensures Valid() && system.clock <= now && old(clock) <= now
      ensures Onward()
    {
      now := clock;
    }

    /** A delivery claims the run; the clock is read before the transaction and may be stale by then. */
    method Claim(settings: Settings) returns (r: Result<Run, RunError>, ghost met: System, ghost read: Time)
      requires Valid()
      modifies this, store
      ensures Valid() && Onward()
      ensures Later(c, old(system), met) && Later(c, met, system)
      ensures ClaimVerdict(c, met.run, system.run, read, r)
      ensures r.Success? && r.value.state == Succeeded ==>
        r.value.result.Some? && r.value.result.value in system.log.answers
      ensures r.Success? && r.value.state != Succeeded ==>
        && r.value.token.Some? && Has(r.value.token.value)
        && Attempt(r.value.token.value) == NewWorker(r.value, r.value.token.value, settings)
        && forall n: nat :: Invocation(r.value.token.value, n) !in invoked
    {
      hide Leads, Submitted, OnRecord, ClaimVerdict;
      var clockRead := clock;
      read := clockRead;
      ghost var first, earlier := system, path;
      var now := Wait();
      met := system;
      ghost var middle := path;
      r := ClaimNow(clockRead, now, settings);
      MoreIsLater(c, start, earlier, first, middle, met);
      MoreIsLater(c, start, middle, met, path, system);
    }

    /** The transaction itself. */
    method ClaimNow(read: Time, now: Time, settings: Settings) returns (r: Result<Run, RunError>)
      requires Valid() && read <= now && system.clock <= now
      modifies this, store
      ensures Valid() && Onward()
      ensures ClaimVerdict(c, old(system).run, system.run, read, r)
      ensures r.Success? && r.value.state == Succeeded ==>
        r.value.result.Some? && r.value.result.value in system.log.answers
      ensures r.Success? && r.value.state != Succeeded ==>
        && r.value.token.Some? && Has(r.value.token.value)
        && Attempt(r.value.token.value) == NewWorker(r.value, r.value.token.value, settings)
        && forall n: nat :: Invocation(r.value.token.value, n) !in invoked
    {
      hide Leads, Submitted, OnRecord, Recalls, Apply, ClaimRun, RunInv, ClaimVerdict;
      ghost var token := store.nextToken;
      FreshForAttempts(c, start, path, system, token, store.runs[c.job.runId]);
      JudgeClaim(c, system.run, read, token);
      NothingInvokedYet(c, start, path, system, token, invoked);
      ghost var t, longer := ClaimAccount(c, start, path, system, read, token, settings, now);
      RecordKept(system.log, t.log, invoked);
      r := ClaimRow(read);
      system, path := t, longer;
      clock := now;
    }

    /** The store call of a claim. */
    method ClaimRow(read: Time) returns (r: Result<Run, RunError>)
      requires store.Valid() && store.Visible(c.job.runId, c.job.tenant) && store.policy == c.policy
      requires store.runs[c.job.runId] == system.run
      modifies store
      ensures store.Valid() && store.Visible(c.job.runId, c.job.tenant)
      ensures store.runs[c.job.runId] == Apply(c.policy, system.run, Op.Claim(c.job, read, old(store.nextToken)))
      ensures r == ClaimRun(c.policy, system.run, c.job, read, old(store.nextToken))
    {
      ApplyMovesForward(c.policy, system.run, Op.Claim(c.job, read, store.nextToken));
      r := store.Claim(c.job, read);
    }

    /** Enters one event into the account. */
    ghost method Record(e: Event, after: Time)
      requires ValidConfig(c) && Submitted(c, start) && Leads(c, start, path, system)
      requires OnRecord(system.log, invoked) && Possible(system, e, after)
      modifies this`system, this`path
      ensures system == Next(c, old(system), e).(clock := after)
      ensures Leads(c, start, path, system) && Onward() && OnRecord(system.log, invoked)
    {
      HistoryGoesOn(c, start, path, system, e, after);
      RecordKept(system.log, Next(c, system, e).log, invoked);
      system, path := Next(c, system, e).(clock := after), path + [Moment(e, after)];
    }

    /** A local step of the attempt: no store call, no tool. */
    ghost method Step(k: Token, x: Choice, next: Worker, note: Note)
      requires Valid() && Has(k) && Plan(c, Attempt(k), x) == Move(next, note) && next.token == k && !note.Ran?
      requires !x.Broke?
      modifies this`system, this`path
      ensures Valid() && Has(k) && Attempt(k) == next
      ensures system.log == Write(old(system).log, k, note)
      ensures Onward()
    {
      hide Leads, Submitted, OnRecord, Recalls;
      Record(Event.Act(k, x, GetClock(clock, clock, clock, clock), false), clock);
    }

    /** An exception takes the attempt to its handler; it has to be one that came from outside. */
    ghost method Break(k: Token, f: Fault)
      requires Valid() && Has(k) && (Active(Attempt(k)) || Attempt(k).pc.Confirming?)
      requires thrown == Some(f)
      modifies this`system, this`path
      ensures Valid() && Has(k) && Attempt(k) == Fail(old(Attempt(k)), f)
      ensures system.log == old(system).log
      ensures Onward()
    {
      hide Leads, Submitted, OnRecord, Recalls;
      Record(Event.Act(k, Broke(f), GetClock(clock, clock, clock, clock), false), clock);
    }

    /** The step that puts a tool run on record; the tool has just run. */
    ghost method StepRan(k: Token, x: Choice, next: Worker, step: nat, d: Decision)
      requires Sound() && Has(k) && Plan(c, Attempt(k), x) == Move(next, Ran(step, d)) && next.token == k
      requires dispatched == system.log.dispatches + [Dispatch(step, d)] && !x.Broke?
      modifies this`system, this`path
      ensures Valid() && Has(k) && Attempt(k) == next
      ensures Onward()
    {
      hide Leads, Submitted, OnRecord, Recalls;
      Record(Event.Act(k, x, GetClock(clock, clock, clock, clock), false), clock);
    }

    /** ExecutionControl.guard's store call: the time left, or why the attempt must stop. */
    method Renew(k: Token) returns (r: Result<Time, Fault>)
      requires Valid() && Has(k)
      modifies this, store
      ensures Valid() && Has(k) && Attempt(k) == old(Attempt(k))
      ensures Onward() && KeepsOwn(k)
      ensures RenewVerdict(c.policy, system.run, k, system.clock, r)
      ensures thrown == if r.Failure? then Some(r.error) else None
    {
      hide Sound;
      var g := Interleave(k);
      r := RenewNow(k, g);
      Throw(if r.Failure? then Some(r.error) else None);
    }

    /** An exception comes from outside, or none does. */
    ghost method Throw(f: Option<Fault>)
      requires Valid()
      modifies this`thrown
      ensures Valid() && thrown == f
    {
      thrown := f;
    }

    /** The heartbeat thread may have met an exception of its own. */
    method Heartbeat() returns (alarm: Option<Fault>)
      requires Valid()
      modifies this`thrown
      ensures Valid() && thrown == alarm
    {
      alarm := *;
      Throw(alarm);
    }

    /** The transaction itself. */
    method RenewNow(k: Token, g: GetClock) returns (r: Result<Time, Fault>)
      requires Valid() && Has(k) && Timely(Op.Get(g), system.clock, g.deadlineRead)
      modifies this, store
      ensures Valid() && Has(k) && Attempt(k) == old(Attempt(k))
      ensures Onward() && invoked == old(invoked)
      ensures RenewVerdict(c.policy, system.run, k, system.clock, r)
    {
      hide Leads, Submitted, OnRecord, Recalls, Apply, RenewVerdict, RunInv;
      ghost var after, longer := RenewAccount(c, start, path, system, k, g.cancelRead, g.reviewRead);
      r := RenewRow(k, g);
      system, path := after, longer;
      clock := g.reviewRead;
    }

    /** The store call of a renewal. */
    method RenewRow(k: Token, g: GetClock) returns (r: Result<Time, Fault>)
      requires store.Valid() && store.Visible(c.job.runId, c.job.tenant) && store.policy == c.policy
      requires store.runs[c.job.runId] == system.run && g.cancelRead <= g.reviewRead
      modifies store
      ensures store.Valid() && store.Visible(c.job.runId, c.job.tenant)
      ensures store.runs[c.job.runId] == Apply(c.policy, system.run, Op.Guard(k, g.cancelRead, g.reviewRead))
      ensures RenewVerdict(c.policy, store.runs[c.job.runId], k, g.reviewRead, r)
    {
      ApplyMovesForward(c.policy, system.run, Op.Guard(k, g.cancelRead, g.reviewRead));
      var guarded := store.Guard(c.job.runId, c.job.tenant, k, g.cancelRead, g.reviewRead);
      return if guarded.Failure? then Failure(FaultOf(guarded.error)) else Success(guarded.value);
    }

    /** Checkpoints attempt k, after which it is where the plan says or in its exception handler. */
    method Checkpoint(k: Token, cp: Checkpoint, ghost x: Choice, ghost next: Worker, ghost note: Note) returns (r: Option<Fault>)
      requires Valid() && Has(k) && Plan(c, Attempt(k), x) == Persist(cp, next, note) && next.token == k && !note.Ran?
      modifies this, store
      ensures Valid() && Has(k)
      ensures Onward() && KeepsOwn(k) && thrown == old(thrown)
      ensures r.None? ==> HeldBy(system.run, k) && system.run.checkpoint == cp
      ensures r.None? ==> exists log: Log :: Attempt(k) == Stamp(log, next.(cp := cp), note)
      ensures r.Some? ==> Attempt(k) == old(Attempt(k)).(cp := cp, pc := Raising(r.value))
    {
      var g := Interleave(k);
      r := CheckpointNow(k, cp, g, x, next, note);
    }

    /** The transaction itself. */
    method CheckpointNow(k: Token, cp: Checkpoint, g: GetClock, ghost x: Choice, ghost next: Worker, ghost note: Note)
      returns (r: Option<Fault>)
      requires Valid() && Has(k) && Plan(c, Attempt(k), x) == Persist(cp, next, note) && next.token == k && !note.Ran?
      requires Timely(Op.Get(g), system.clock, g.deadlineRead)
      modifies this, store
      ensures Valid() && Has(k)
      ensures Onward() && invoked == old(invoked) && thrown == old(thrown)
      ensures r.None? ==> HeldBy(system.run, k) && system.run.checkpoint == cp
      ensures r.None? ==> exists log: Log :: Attempt(k) == Stamp(log, next.(cp := cp), note)
      ensures r.Some? ==> Attempt(k) == old(Attempt(k)).(cp := cp, pc := Raising(r.value))
    {
      hide Plan, SaveRun, Leads, Submitted, OnRecord, Recalls, Apply, RunInv;
      var storageFails: bool := *;
      ghost var before := system;
      ghost var t, longer := SaveAccount(c, start, path, system, k, x, g, storageFails, cp, next, note);
      RecordKept(system.log, t.log, invoked);
      r := SaveRow(k, cp, g, storageFails);
      system, path := t, longer;
      clock := g.deadlineRead;
      if r.None? {
        assert Attempt(k) == Stamp(before.log, next.(cp := cp), note);
      }
    }

    /** The store call of a checkpoint; the storage itself may fail. */
    method SaveRow(k: Token, cp: Checkpoint, g: GetClock, storageFails: bool) returns (r: Option<Fault>)
      requires store.Valid() && store.Visible(c.job.runId, c.job.tenant) && store.policy == c.policy
      requires store.runs[c.job.runId] == system.run
      modifies store
      ensures store.Valid() && store.Visible(c.job.runId, c.job.tenant)
      ensures store.runs[c.job.runId] ==
        if storageFails then system.run else Apply(c.policy, system.run, Op.Save(k, cp, g.cancelRead, g.reviewRead))
      ensures r ==
        if SaveRefused(c, system, k, cp, g, storageFails)
        then Some(SaveFault(c, system, k, cp, g, storageFails)) else None
      ensures r.None? ==> HeldBy(store.runs[c.job.runId], k) && store.runs[c.job.runId].checkpoint == cp
    {
      if storageFails {
        return Some(Breakdown);
      }
      ApplyMovesForward(c.policy, system.run, Op.Save(k, cp, g.cancelRead, g.reviewRead));
      var saved := store.Checkpoint(c.job.runId, c.job.tenant, k, cp, g.cancelRead, g.reviewRead);
      return if saved.Failure? then Some(FaultOf(saved.error)) else None;
    }

    /** Ends attempt k in the store. */
    method Finish(k: Token, outcome: RunState, result: Option<Decision>, error: Option<string>, ghost x: Choice,
      ghost next: Worker, ghost refused: Worker)
      returns (written: bool, ghost broke: bool)
      requires Valid() && Has(k) && Plan(c, Attempt(k), x) == Conclude(outcome, result, error, next, refused)
      requires next.token == k && refused.token == k && outcome !in {Queued, Running}
      modifies this, store
      ensures Valid() && Has(k)
      ensures Onward() && KeepsOwn(k)
      ensures Attempt(k) == if written then next else refused
      ensures FinishVerdict(store.runs, c.job.runId, k, clock, outcome, result, written, broke)
    {
      var g := Interleave(k);
      written, broke := FinishNow(k, outcome, result, error, g, x, next, refused);
    }

    /** The transaction itself. */
    method FinishNow(k: Token, outcome: RunState, result: Option<Decision>, error: Option<string>, g: GetClock, ghost x: Choice,
      ghost next: Worker, ghost refused: Worker)
      returns (written: bool, ghost broke: bool)
      requires Valid() && Has(k) && Plan(c, Attempt(k), x) == Conclude(outcome, result, error, next, refused)
      requires next.token == k && refused.token == k && outcome !in {Queued, Running}
      requires Timely(Op.Get(g), system.clock, g.deadlineRead)
      modifies this, store
      ensures Valid() && Has(k)
      ensures Onward() && invoked == old(invoked)
      ensures Attempt(k) == if written then next else refused
      ensures FinishVerdict(store.runs, c.job.runId, k, clock, outcome, result, written, broke)
    {
      hide Plan, Leads, Submitted, OnRecord, Recalls, Apply, FinishRun, Concluded, RunInv;
      var storageFails: bool := *;
      broke := storageFails;
      JudgeFinish(c.policy, system.run, k, outcome, result, error, g);
      ghost var t, longer := FinishAccount(c, start, path, system, k, x, g, storageFails, outcome, result, error, next, refused);
      written := FinishRow(k, outcome, result, error, g, storageFails);
      system, path := t, longer;
      clock := g.deadlineRead;
    }

    method FinishRow(k: Token, outcome: RunState, result: Option<Decision>, error: Option<string>, g: GetClock, storageFails: bool)
      returns (written: bool)
      requires store.Valid() && store.Visible(c.job.runId, c.job.tenant) && store.policy == c.policy
      requires store.runs[c.job.runId] == system.run && outcome !in {Queued, Running}
      modifies store
      ensures store.Valid() && store.Visible(c.job.runId, c.job.tenant)
      ensures store.runs[c.job.runId] ==
        if storageFails then system.run else Apply(c.policy, system.run, Op.Finish(k, outcome, result, error, g.cancelRead))
      ensures written <==> !storageFails && FinishRun(system.run, k, outcome, result, error, g.cancelRead).Success?
    {
      if storageFails {
        return false;
      }
      ApplyMovesForward(c.policy, system.run, Op.Finish(k, outcome, result, error, g.cancelRead));
      var finished := store.Finish(c.job.runId, c.job.tenant, k, outcome, result, error, g.cancelRead);
      return finished.Success?;
    }

    /** Reads the run back for attempt k after it finished; an answer leaves only from a run not cancelled. */
    method ReadBack(k: Token) returns (r: Result<RunState, Fault>)
      requires Valid() && Has(k) && Attempt(k).pc.Confirming?
      modifies this, store
      ensures Valid() && Has(k)
      ensures Onward() && KeepsOwn(k)
      ensures r.Success? && r.value != Cancelled ==>
        && Attempt(k).pc == Returned(old(Attempt(k)).pc.answer)
        && old(Attempt(k)).pc.answer in system.log.answers
      ensures r == Success(Cancelled) ==> Attempt(k) == Fail(old(Attempt(k)), Cancellation)
      ensures r.Failure? ==> r.error == Breakdown && Attempt(k) == Fail(old(Attempt(k)), Breakdown)
    {
      var g := Interleave(k);
      r := ReadBackNow(k, g);
    }

    /** The transaction itself. */
    method ReadBackNow(k: Token, g: GetClock) returns (r: Result<RunState, Fault>)
      requires Valid() && Has(k) && Attempt(k).pc.Confirming?
      requires Timely(Op.Get(g), system.clock, g.deadlineRead)
      modifies this, store
      ensures Valid() && Has(k)
      ensures Onward() && invoked == old(invoked)
      ensures r.Success? && r.value != Cancelled ==>
        && Attempt(k).pc == Returned(old(Attempt(k)).pc.answer)
        && old(Attempt(k)).pc.answer in system.log.answers
      ensures r == Success(Cancelled) ==> Attempt(k) == Fail(old(Attempt(k)), Cancellation)
      ensures r.Failure? ==> r.error == Breakdown && Attempt(k) == Fail(old(Attempt(k)), Breakdown)
    {
      hide Leads, Submitted, OnRecord, Recalls, Apply, RunInv;
      var storageFails: bool := *;
      ghost var t, longer := ReadBackAccount(c, start, path, system, k, g, storageFails);
      RecordKept(system.log, t.log, invoked);
      r := ReadRow(g, storageFails);
      system, path := t, longer;
      clock := g.deadlineRead;
    }

    method ReadRow(g: GetClock, storageFails: bool) returns (r: Result<RunState, Fault>)
      requires store.Valid() && store.Visible(c.job.runId, c.job.tenant) && store.policy == c.policy
      requires store.runs[c.job.runId] == system.run
      modifies store
      ensures store.Valid() && store.Visible(c.job.runId, c.job.tenant)
      ensures store.runs[c.job.runId] == if storageFails then system.run else Apply(c.policy, system.run, Op.Get(g))
      ensures r == if storageFails then Failure(Breakdown) else Success(store.runs[c.job.runId].state)
    {
      if storageFails {
        return Failure(Breakdown);
      }
      ApplyMovesForward(c.policy, system.run, Op.Get(g));
      var run := store.Get(c.job.runId, c.job.tenant, g);
      return Success(run.value.state);
    }
  }
}
