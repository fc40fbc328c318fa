/**
 The decision/tool loop as it runs (crewos/application/use_cases/agent_loop.py),
 under interference from everything else that touches the run. Every statement
 that matters is proved to be a step of the machine, so what is proved of the
 machine is true of this code. The attempt's trail records its checkpoints, model
 invocations and tool runs in the order in which they happened.
 */
module AgentLoop {
  import opened Wrappers
  import opened Evidence
  import opened ReviewGate
  import opened AgentData
  import opened Budget
  import opened RunRecords
  import opened AgentMachine
  import opened AgentInvariant
  import opened AgentSteps
  import opened AgentHistory
  import opened Deployment
  import opened ExecutionControl

  /** What a model or review call can come back with, and what it does to the budget on the way. */
  datatype ModelReply = Reply(decision: Decision) | Malformed | Broken(fault: Fault)

  datatype Usage = NoUsage | Used(input: nat, output: nat)

  datatype ToolReply = Output(result: ToolResult) | BadArguments | Unavailable | HandlerBroke(fault: Fault)

  /** How one part of an iteration ends. */
  datatype Flow = Continue(next: Locals) | Got(decision: Decision) | Stop(fault: Fault)

  /**
   How the loop has to take what a tool run came back with: wrong arguments and a
   transient fault of a replay-safe tool are recovered, anything else that went
   wrong ends the attempt, and a result joins the history or is refused as evidence.
   */
  predicate ToolEnding(c: Config, l: Locals, d: Decision, reply: ToolReply, r: Flow)
    requires d.ToolCall? && d.name in c.tools
  {
    match reply
    case BadArguments => r == Got(d)
    case Unavailable => r == if c.tools[d.name] then Got(d) else Stop(Breakdown)
    case HandlerBroke(fault) => r == Stop(fault)
    case Output(result) =>
      && !r.Got?
      && (Observe(c, l, d, result).None? ==> r == Stop(Breakdown))
      && (r.Continue? ==>
        && Observe(c, l, d, result) == Some(r.next)
        && r.next.history == l.history + [Proposal(d), Observation(d.name, result)]
        && r.next.toolsCompleted == l.toolsCompleted + 1)
  }

  /** An answer of the other mode's schema. */
  predicate WrongMode(mode: AnswerMode, d: Decision) {
    (d.FinalAnswer? && mode == DocumentMode) || (d.DocumentAnswer? && mode == General)
  }

  /** The failures of a tool run that a recovery may be spent on. */
  predicate Recoverable(c: Config, d: Decision, reply: ToolReply)
    requires d.ToolCall? && d.name in c.tools
  {
    reply.BadArguments? || (reply.Unavailable? && c.tools[d.name])
  }

  // ------------------------------------------------------ what a turn leaves behind

  /** The checkpoint before the call, the admitted reservation, the one invocation, and then only checkpoints. */
  predicate AskedOnce(earlier: seq<Deed>, trail: seq<Deed>, step: nat) {
    var n := |earlier|;
    && earlier <= trail && n + 3 <= |trail|
    && trail[n].Saved? && trail[n].cp.decisions == step && trail[n].cp.pending.None?
    && trail[n + 1].Saved?
    && trail[n + 2] == Asked(step)
    && forall i :: n + 3 <= i < |trail| ==> trail[i].Saved?
  }

  /** The pending checkpoint of this very call, the one run of the tool, and then only checkpoints. */
  predicate RanOnce(earlier: seq<Deed>, trail: seq<Deed>, step: nat, d: Decision) {
    var n := |earlier|;
    && earlier <= trail && n + 2 <= |trail|
    && trail[n].Saved? && trail[n].cp.decisions == step && trail[n].cp.pending == Some(d)
    && trail[n + 1] == Dispatched(step, d)
    && forall i :: n + 2 <= i < |trail| ==> trail[i].Saved?
  }

  /** The attempt's own state is the last checkpoint the store accepted, with nothing pending. */
  predicate InStep(trail: seq<Deed>, state: Checkpoint) {
    trail != [] && trail[|trail| - 1] == Saved(state) && state.pending.None?
  }

  /** The reservation, the one invocation, and then only checkpoints. */
  predicate CalledOnce(earlier: seq<Deed>, trail: seq<Deed>, step: nat) {
    var n := |earlier|;
    && earlier <= trail && n + 2 <= |trail|
    && trail[n].Saved?
    && trail[n + 1] == Asked(step)
    && forall i :: n + 2 <= i < |trail| ==> trail[i].Saved?
  }

  lemma NothingAdded(trail: seq<Deed>)
    ensures OnlySaved(trail, trail)
  {
  }

  lemma SavedTwice(trail: seq<Deed>, a: Checkpoint, b: Checkpoint)
    ensures OnlySaved(trail, trail) && OnlySaved(trail, trail + [Saved(a)])
    ensures OnlySaved(trail, trail + [Saved(a)] + [Saved(b)])
  {
  }

  lemma OnlySavedOn(a: seq<Deed>, b: seq<Deed>, c: seq<Deed>)
    requires OnlySaved(a, b) && OnlySaved(b, c)
    ensures OnlySaved(a, c)
  {
    forall i | |a| <= i < |c|
      ensures c[i].Saved?
    {
      assert i < |b| ==> c[i] == b[i];
    }
  }

  /** A number the state had not reached has not been asked, and a checkpoint does not ask. */
  lemma NotAskedYet(earlier: seq<Deed>, trail: seq<Deed>, cp: Checkpoint, step: nat)
    requires trail == earlier + [Saved(cp)] && !Did(earlier, Asked(step))
    ensures !Did(trail, Asked(step))
  {
  }

  lemma AskedAfter(earlier: seq<Deed>, announced: seq<Deed>, trail: seq<Deed>, step: nat)
    requires announced != [] && earlier == announced[..|announced| - 1]
    requires announced[|earlier|].Saved? && announced[|earlier|].cp.decisions == step && announced[|earlier|].cp.pending.None?
    ensures CalledOnce(announced, trail, step) ==> AskedOnce(earlier, trail, step)
    ensures OnlySaved(announced, trail) ==> OnlySaved(earlier, trail)
  {
    assert announced == earlier + [announced[|earlier|]];
    if announced <= trail {
      assert trail[|earlier|] == announced[|earlier|];
    }
  }

  lemma CalledThenSaved(earlier: seq<Deed>, called: seq<Deed>, trail: seq<Deed>, step: nat)
    requires CalledOnce(earlier, called, step) && OnlySaved(called, trail)
    ensures CalledOnce(earlier, trail, step)
  {
    var n := |earlier|;
    assert trail[n] == called[n] && trail[n + 1] == called[n + 1];
    forall i | n + 2 <= i < |trail|
      ensures trail[i].Saved?
    {
      assert i < |called| ==> trail[i] == called[i];
    }
  }

  lemma CalledNow(earlier: seq<Deed>, asked: seq<Deed>, trail: seq<Deed>, cp: Checkpoint, step: nat)
    requires asked == earlier + [Saved(cp)] + [Asked(step)] && OnlySaved(asked, trail)
    ensures CalledOnce(earlier, trail, step) && Did(trail, Asked(step))
  {
    var n := |earlier|;
    assert trail[n] == asked[n] && trail[n + 1] == asked[n + 1];
  }

  /** The one run of the tool, and then only checkpoints. */
  predicate ToolThenSaved(earlier: seq<Deed>, trail: seq<Deed>, step: nat, d: Decision) {
    && earlier + [Dispatched(step, d)] <= trail
    && forall i :: |earlier| + 1 <= i < |trail| ==> trail[i].Saved?
  }

  lemma RanAfter(earlier: seq<Deed>, announced: seq<Deed>, trail: seq<Deed>, step: nat, d: Decision)
    requires announced != [] && earlier == announced[..|announced| - 1]
    requires announced[|earlier|].Saved? && announced[|earlier|].cp.decisions == step && announced[|earlier|].cp.pending == Some(d)
    requires ToolThenSaved(announced, trail, step, d)
    ensures RanOnce(earlier, trail, step, d)
  {
    var n := |earlier|;
    var known := announced + [Dispatched(step, d)];
    assert trail[n] == known[n] && trail[n + 1] == known[n + 1];
    assert earlier == known[..n];
  }

  /** An attempt in a call holds that call's grant. */
  lemma CallerIsGranted(c: Config, start: System, path: seq<Moment>, s: System, token: Token)
    requires ValidConfig(c) && Submitted(c, start) && Leads(c, start, path, s)
    requires token in s.workers && s.workers[token].pc == InCall
    ensures var n := s.workers[token].at.step; n in s.log.calls && GrantedTo(s.log, n, token)
  {
    SubmittedReaches(c, start, path, s);
    ReachableInv(c, s);
    assert WorkerInv(c, s.run, s.log, token, s.workers[token]);
    assert CallInv(c, s.log, s.workers[token]);
  }

  /** A granted call that is on record but not yet invoked. */
  lemma InvocationIsNew(log: Log, token: Token, n: nat, invoked: seq<Invocation>, trail: seq<Deed>, decisions: nat)
    requires OnRecord(log, invoked) && n in log.calls && GrantedTo(log, n, token)
    requires Accounts(trail, token, invoked, decisions) && !Did(trail, Asked(n))
    ensures OnRecord(log, invoked + [Invocation(token, n)])
  {
    assert Invocation(token, n) !in invoked;
    forall i | 0 <= i < |invoked|
      ensures invoked[i].step != n
    {
      assert GrantedTo(log, invoked[i].step, invoked[i].token);
      assert invoked[i].token != token || invoked[i].step != n;
    }
  }

  lemma AskedAccounts(trail: seq<Deed>, token: Token, invoked: seq<Invocation>, cp: Checkpoint, n: nat)
    requires Accounts(trail, token, invoked, cp.decisions) && trail != []
    requires trail[|trail| - 1] == Saved(cp) && cp.decisions == n && cp.pending.None?
    ensures Accounts(trail + [Asked(n)], token, invoked + [Invocation(token, n)], cp.decisions)
  {
    var longer := trail + [Asked(n)];
    forall i | 0 <= i < |longer|
      ensures Announced(longer, i)
    {
      if i < |trail| {
        assert Announced(trail, i);
      }
    }
    forall m: nat | Invocation(token, m) in invoked + [Invocation(token, n)]
      ensures Did(longer, Asked(m))
    {
      if m == n {
        assert longer[|trail|] == Asked(m);
      } else {
        assert Invocation(token, m) in invoked;
      }
    }
  }

  lemma DispatchedAccounts(trail: seq<Deed>, token: Token, invoked: seq<Invocation>, cp: Checkpoint, n: nat, d: Decision)
    requires Accounts(trail, token, invoked, cp.decisions) && trail != []
    requires trail[|trail| - 1] == Saved(cp) && cp.decisions == n && cp.pending == Some(d)
    ensures Accounts(trail + [Dispatched(n, d)], token, invoked, cp.decisions)
  {
    var longer := trail + [Dispatched(n, d)];
    forall i | 0 <= i < |longer|
      ensures Announced(longer, i)
    {
      if i < |trail| {
        assert Announced(trail, i);
      }
    }
    forall m: nat
      ensures Did(longer, Asked(m)) <==> Did(trail, Asked(m))
    {
    }
  }

  /**
   The world outside: any reply is possible. The model is invoked only for a
   call that is on record and has not been invoked, the tool only right behind
   its own pending checkpoint; both are entered in the deployment's ghost record.
   */
  class Outside {
    constructor () {
    }

    /** The process-local duration limit. */
    method Elapsed(control: ExecutionControl) returns (expired: bool)
      requires control.Valid()
      modifies control.world`thrown
      ensures control.Valid() && control.Me() == old(control.Me())
      ensures control.world.thrown == if expired then Some(Exhaustion) else None
    {
      expired := *;
      control.world.Throw(if expired then Some(Exhaustion) else None);
    }

    method Estimate() returns (input: nat, output: nat) {
      input, output := *, *;
    }

    method Invoke(control: ExecutionControl, ghost n: nat) returns (reply: ModelReply, usage: Usage)
      requires control.Valid() && control.Me().pc == InCall && control.Me().at.step == n && control.Me().call.Some?
      requires InStep(control.trail, control.state) && control.state.decisions == n && !Did(control.trail, Asked(n))
      requires HeldBy(control.world.system.run, control.token)
      modifies control`trail, control.world`invoked, control.world`thrown
      ensures control.Valid() && control.Me() == old(control.Me())
      ensures reply.Broken? ==> control.world.thrown == Some(reply.fault)
      ensures control.trail == old(control.trail) + [Asked(n)]
      ensures control.world.invoked == old(control.world.invoked) + [Invocation(control.token, n)]
    {
      ghost var w := control.world;
      CallerIsGranted(w.c, w.start, w.path, w.system, control.token);
      InvocationIsNew(w.system.log, control.token, n, w.invoked, control.trail, control.state.decisions);
      AskedAccounts(control.trail, control.token, w.invoked, control.state, n);
      w.invoked := w.invoked + [Invocation(control.token, n)];
      control.trail := control.trail + [Asked(n)];
      reply, usage := *, *;
      w.Throw(if reply.Broken? then Some(reply.fault) else None);
    }

    method Review(control: ExecutionControl) returns (review: Result<Review, Fault>, usage: Usage)
      requires control.Valid() && control.Me().pc.Reviewing? && control.Me().call.Some?
      requires HeldBy(control.world.system.run, control.token)
      modifies control.world`thrown
      ensures control.Valid() && control.Me() == old(control.Me())
      ensures review.Failure? ==> control.world.thrown == Some(review.error)
    {
      review, usage := *, *;
      control.world.Throw(if review.Failure? then Some(review.error) else None);
    }

    method Dispatch(control: ExecutionControl, ghost n: nat, d: Decision) returns (reply: ToolReply)
      requires control.Valid() && control.Me().pc == Dispatching(d) && control.Me().at.step == n && control.Me().call.None?
      requires control.trail != [] && control.trail[|control.trail| - 1] == Saved(control.state)
      requires control.state.decisions == n && control.state.pending == Some(d) && control.InTime()
      modifies control`trail, control.world`dispatched
      ensures control.HasRun(n, d) && control.Me() == old(control.Me())
      ensures control.trail == old(control.trail) + [Dispatched(n, d)]
    {
      ghost var w := control.world;
      DispatchedAccounts(control.trail, control.token, w.invoked, control.state, n, d);
      w.dispatched := w.dispatched + [AgentMachine.Dispatch(n, d)];
      control.trail := control.trail + [Dispatched(n, d)];
      reply := *;
    }
  }

  class AgentLoop {
    const control: ExecutionControl
    const outside: Outside

    constructor (control: ExecutionControl, outside: Outside)
      ensures this.control == control && this.outside == outside
    {
      this.control, this.outside := control, outside;
    }

    // ------------------------------------------- the machine's steps, by name

    /** The loop takes up a decision number. */
    ghost method LeaveHead(l: Locals, step: nat)
      requires control.At(AtHead, l) && step == FirstStep(l) && step <= control.world.c.job.maxDecisions
      modifies control.world`system, control.world`path
      ensures control.world.Onward()
      ensures control.At(if l.replay.Some? then Chosen(l.replay.value) else Asking, Entered(l, step))
    {
      hide Deployment.Sound, Accounts;
      control.world.Step(control.token, Go,
        control.Me().(pc := if l.replay.Some? then Chosen(l.replay.value) else Asking, at := Entered(l, step)), Nothing);
    }

    /** The decision budget is used up. */
    ghost method OutOfSteps(l: Locals)
      requires control.At(AtHead, l) && FirstStep(l) > control.world.c.job.maxDecisions
      modifies control.world`system, control.world`path
      ensures control.world.Onward()
      ensures control.Handling(Exhaustion)
    {
      hide Deployment.Sound, Accounts;
      control.world.Step(control.token, Go, Fail(control.Me(), Exhaustion), Nothing);
    }

    /** The model is called. */
    ghost method Invoked(l: Locals)
      requires control.At(Ready, l)
      modifies control.world`system, control.world`path
      ensures control.world.Onward()
      ensures control.At(InCall, l)
    {
      hide Deployment.Sound, Accounts;
      control.world.Step(control.token, Go, control.Me().(pc := InCall), Called(l.step));
    }

    /** The reply to this call is a decision. */
    ghost method Replied(l: Locals, d: Decision)
      requires control.Valid() && control.Me().pc == InCall && control.Me().at == l && FitsMode(control.world.c, d)
      requires Did(control.trail, Asked(l.step)) && control.state.decisions == l.step
      modifies control.world`system, control.world`path
      ensures control.world.Onward()
      ensures control.At(Chosen(d), l)
    {
      hide Deployment.Sound, Accounts;
      control.world.Step(control.token, Decided(d), control.Me().(pc := Chosen(d), call := None), Learned(l.step, d));
    }

    ghost method Unreadable(l: Locals)
      requires control.Valid() && control.Me().pc == InCall && control.Me().at == l
      requires Did(control.trail, Asked(l.step)) && control.state.decisions == l.step
      modifies control.world`system, control.world`path
      ensures control.world.Onward()
      ensures control.At(Recovering([RetryNote]), l)
    {
      hide Deployment.Sound, Accounts;
      control.world.Step(control.token, Unusable, control.Me().(pc := Recovering([RetryNote]), call := None), Nothing);
    }

    /** A tool call is proposed; an unregistered tool goes to recovery instead. */
    ghost method Propose(before: Locals, d: Decision)
      requires control.At(Chosen(d), before) && d.ToolCall?
      modifies control.world`system, control.world`path
      ensures control.world.Onward()
      ensures var l := before.(toolCalls := before.toolCalls + 1);
        control.At(if d.name in control.world.c.tools then Proposed(d) else Recovering(ToolNotes(control.world.c, d)), l)
    {
      hide Deployment.Sound, Accounts;
      var c := control.world.c;
      control.world.Step(control.token, Go,
        control.Me().(
          pc := if d.name in c.tools then Proposed(d) else Recovering(ToolNotes(c, d)),
          at := before.(toolCalls := before.toolCalls + 1)), Nothing);
    }

    /** The tool ran and failed in a way the loop may recover from. */
    ghost method ToolFailed(l: Locals, d: Decision, x: Choice)
      requires control.HasRun(l.step, d) && control.Me().at == l && control.state.decisions <= l.step
      requires d.ToolCall? && d.name in control.world.c.tools
      requires x == ToolRefused || (x == ToolTransient && control.world.c.tools[d.name])
      modifies control.world`system, control.world`path
      ensures control.world.Onward()
      ensures control.At(Recovering(ToolNotes(control.world.c, d)), l)
    {
      hide Deployment.Sound, Accounts;
      control.world.StepRan(control.token, x, control.Me().(pc := Recovering(ToolNotes(control.world.c, d))), l.step, d);
    }

    /** The tool ran and the exception is final. */
    ghost method ToolStopped(l: Locals, d: Decision, x: Choice, fault: Fault)
      requires control.HasRun(l.step, d) && control.Me().at == l
      requires d.ToolCall? && d.name in control.world.c.tools
      requires x == ToolBroke(fault) || (x == ToolTransient && !control.world.c.tools[d.name] && fault == Breakdown)
      modifies control.world`system, control.world`path
      ensures control.world.Onward()
      ensures control.Handling(fault)
    {
      hide Deployment.Sound, Accounts;
      control.world.StepRan(control.token, x, Fail(control.Me(), fault), l.step, d);
    }

    /** The tool ran and returned. */
    ghost method ToolAnswered(l: Locals, d: Decision, result: ToolResult, observed: Option<Locals>)
      requires control.HasRun(l.step, d) && control.Me().at == l && control.state.decisions <= l.step
      requires d.ToolCall? && d.name in control.world.c.tools
      requires observed == Observe(control.world.c, l, d, result)
      modifies control.world`system, control.world`path
      ensures control.world.Onward()
      ensures observed.Some? ==> control.At(Recording, observed.value)
      ensures observed.None? ==> control.Handling(Breakdown)
    {
      hide Deployment.Sound, Accounts;
      control.world.StepRan(control.token, ToolOk(result),
        if observed.Some? then control.Me().(pc := Recording, at := observed.value) else Fail(control.Me(), Breakdown),
        l.step, d);
    }

    /** A final answer passes or fails its citation check. */
    ghost method CheckCitations(l: Locals, d: Decision)
      requires control.At(Chosen(d), l) && !d.ToolCall?
      modifies control.world`system, control.world`path
      ensures control.world.Onward()
      ensures !CitationsHold(control.world.c, d, l.sources, l.searchCompleted) ==> control.Handling(Breakdown)
      ensures CitationsHold(control.world.c, d, l.sources, l.searchCompleted) ==>
        control.At(if d.DocumentAnswer? then Reviewing(d.result) else Closing(d), l)
    {
      hide Deployment.Sound, Accounts;
      control.world.Step(control.token, Go,
        if !CitationsHold(control.world.c, d, l.sources, l.searchCompleted) then Fail(control.Me(), Breakdown)
        else control.Me().(pc := if d.DocumentAnswer? then Reviewing(d.result) else Closing(d)), Nothing);
    }

    /** The review is judged. */
    ghost method Judge(l: Locals, request: ReviewRequest, review: Review)
      requires control.Valid() && control.Me().pc == Reviewing(request.answer) && control.Me().at == l
      requires control.state.decisions <= l.step
      requires request == ReviewRequest(l.question, request.answer, l.passages)
      modifies control.world`system, control.world`path
      ensures control.world.Onward()
      ensures Accepts(control.world.c.alnum, request, review) ==>
        control.At(Reviewed(request.answer, Receipt(POLICY_VERSION, request, review)), l)
      ensures !Accepts(control.world.c.alnum, request, review) ==> control.Handling(Breakdown)
    {
      hide Deployment.Sound, Accounts;
      control.world.Step(control.token, Verdict(review),
        if Accepts(control.world.c.alnum, request, review)
        then control.Me().(pc := Reviewed(request.answer, Receipt(POLICY_VERSION, request, review)), call := None)
        else Fail(control.Me(), Breakdown), Nothing);
    }

    /** The loop is entered, or refused over the checkpoint's answer mode. */
    ghost method Enter()
      requires control.Valid() && control.Me().pc == Opening && control.Me().call.None? && control.state.finalResult.None?
      modifies control.world`system, control.world`path
      ensures control.world.Onward()
      ensures ModeConflict(control.world.c, control.state) ==> control.Handling(Breakdown)
      ensures !ModeConflict(control.world.c, control.state) ==> control.At(AtHead, LoadLocals(control.world.c, control.state))
    {
      hide Deployment.Sound, Accounts;
      control.world.Step(control.token, Go,
        if ModeConflict(control.world.c, control.state) then Fail(control.Me(), Breakdown)
        else control.Me().(pc := AtHead, at := LoadLocals(control.world.c, control.state)), Nothing);
    }

    // ------------------------------------------------------------- checkpoints

    /** The checkpoint before a model call. */
    method SaveBeforeCall(l: Locals) returns (f: Option<Fault>)
      requires control.At(Asking, l) && control.state.decisions < l.step
      modifies control, control.world, control.world.store
      ensures control.world.Onward()
      ensures f.None? ==>
        && control.At(Ready, l)
        && control.state == Snapshot(control.world.c, old(control.state), l, None, false)
        && control.state.decisions == l.step && control.state.pending.None?
        && control.state.recoveries == old(control.state).recoveries
        && control.trail == old(control.trail) + [Saved(control.state)]
        && !Did(control.trail, Asked(l.step))
      ensures f.Some? ==> control.Handling(f.value) && control.trail == old(control.trail)
      ensures OnlySaved(old(control.trail), control.trail)
    {
      ghost var earlier := control.trail;
      assert !Did(earlier, Asked(l.step));
      f := control.Persist(Snapshot(control.world.c, control.state, l, None, false), Go,
        control.Me().(pc := Ready), Granted(l.step));
      if f.None? {
        NotAskedYet(earlier, control.trail, control.state, l.step);
      }
    }

    /** The checkpoint before a tool runs: the call is pending until its observation is stored. */
    method SavePending(l: Locals, d: Decision) returns (f: Option<Fault>)
      requires control.At(Proposed(d), l) && d.ToolCall? && d.name in control.world.c.tools
      modifies control, control.world, control.world.store
      ensures control.world.Onward()
      ensures f.None? ==>
        && control.At(Dispatching(d), l)
        && control.state == Snapshot(control.world.c, old(control.state), l, Some(d), control.world.c.tools[d.name])
        && control.state.decisions == l.step && control.state.pending == Some(d)
        && control.state.replaySafe == control.world.c.tools[d.name]
        && control.trail == old(control.trail) + [Saved(control.state)]
      ensures f.Some? ==> control.Handling(f.value) && control.trail == old(control.trail)
      ensures OnlySaved(old(control.trail), control.trail)
    {
      hide Deployment.Sound, Accounts;
      var c := control.world.c;
      f := control.Persist(Snapshot(c, control.state, l, Some(d), c.tools[d.name]), Go,
        control.Me().(pc := Dispatching(d)), Nothing);
    }

    method SaveReceipt(l: Locals, result: DocumentResult, receipt: Receipt) returns (f: Option<Fault>)
      requires control.At(Reviewed(result, receipt), l)
      modifies control, control.world, control.world.store
      ensures control.world.Onward()
      ensures f.None? ==>
        && control.At(Closing(DocumentAnswer(result)), l)
        && control.state == old(control.state).(documentReview := Some(receipt))
      ensures f.Some? ==> control.Handling(f.value)
      ensures OnlySaved(old(control.trail), control.trail)
    {
      hide Deployment.Sound, Accounts;
      f := control.Persist(control.state.(documentReview := Some(receipt)), Go,
        control.Me().(pc := Closing(DocumentAnswer(result))), Nothing);
    }

    method SaveFinal(l: Locals, d: Decision) returns (f: Option<Fault>)
      requires control.At(Closing(d), l)
      modifies control, control.world, control.world.store
      ensures control.world.Onward()
      ensures f.None? ==>
        && control.At(Finishing(d), l)
        && control.state == old(control.state).(finalResult := Some(d))
        && control.trail == old(control.trail) + [Saved(control.state)]
      ensures f.Some? ==> control.Handling(f.value)
      ensures OnlySaved(old(control.trail), control.trail)
    {
      hide Deployment.Sound, Accounts;
      f := control.Persist(control.state.(finalResult := Some(d)), Go, control.Me().(pc := Finishing(d)), Nothing);
    }

    /** checkpoint(history) with nothing pending, at the two points that write it. */
    method SaveHistory(l: Locals) returns (f: Option<Fault>)
      requires control.At(Recording, l)
      modifies control, control.world, control.world.store
      ensures control.world.Onward()
      ensures f.None? ==>
        && control.At(AtHead, l.(replay := None))
        && control.state == Snapshot(control.world.c, old(control.state), l, None, false)
        && control.state.pending.None? && control.state.decisions == l.step
        && control.state.recoveries == old(control.state).recoveries
        && control.trail == old(control.trail) + [Saved(control.state)]
      ensures f.Some? ==> control.Handling(f.value) && control.trail == old(control.trail)
    {
      hide Deployment.Sound, Accounts;
      var c := control.world.c;
      f := control.Persist(Snapshot(c, control.state, l, None, false), Go,
        control.Me().(pc := AtHead, at := l.(replay := None)), Nothing);
    }

    // --------------------------------------------------------------- the code

    /** The process-local duration limit and the lease check together. */
    method CheckDeadline() returns (f: Option<Fault>)
      requires control.Valid() && Active(control.Me())
      modifies control.world, control.world.store
      ensures control.world.Onward()
      ensures f.None? ==> control.Valid() && control.Me() == old(control.Me())
      ensures f.None? ==> control.InTime() && control.world.thrown.None?
      ensures f.Some? ==> control.Handling(f.value)
    {
      hide Deployment.Sound, Accounts;
      var remaining, _ := control.Guard();
      if remaining.Failure? {
        control.Raise(remaining.error);
        return Some(remaining.error);
      }
      var expired := outside.Elapsed(control);
      if expired {
        control.Raise(Exhaustion);
        return Some(Exhaustion);
      }
      return None;
    }

    /** The adapter's budget handling around one model call. */
    method Admit() returns (f: Option<Fault>, estimate: (nat, nat))
      requires control.Valid() && (control.Me().pc.InCall? || control.Me().pc.Reviewing?) && control.Me().call.None?
      modifies control, control.world, control.world.store
      ensures control.world.Onward()
      ensures f.None? ==>
        && control.Valid() && control.Me().pc == old(control.Me()).pc && control.Me().at == old(control.Me()).at
        && control.Me().call.Some? && control.Me().call.value.input == estimate.0
        && control.Me().call.value.output == estimate.1
        && control.trail == old(control.trail) + [Saved(control.state)]
        && control.state.decisions == old(control.state).decisions && control.state.pending == old(control.state).pending
        && control.state.recoveries == old(control.state).recoveries
        && HeldBy(control.world.system.run, control.token) && control.world.thrown.None?
      ensures f.Some? ==> control.Handling(f.value) && control.trail == old(control.trail)
    {
      hide Deployment.Sound, Accounts;
      var input, output := outside.Estimate();
      estimate := (input, output);
      f := control.Reserve(input, output);
    }

    method Book(usage: Usage, estimate: (nat, nat)) returns (f: Option<Fault>)
      requires control.Valid() && (control.Me().pc.InCall? || control.Me().pc.Reviewing?)
      requires control.Me().call.Some? && control.Me().call.value.input == estimate.0
      requires control.Me().call.value.output == estimate.1
      modifies control, control.world, control.world.store
      ensures control.world.Onward()
      ensures f.None? ==>
        && control.Valid() && control.Me().pc == old(control.Me()).pc && control.Me().at == old(control.Me()).at
        && control.state.decisions == old(control.state).decisions && control.state.pending == old(control.state).pending
        && control.state.recoveries == old(control.state).recoveries
      ensures f.Some? ==> control.Handling(f.value)
      ensures OnlySaved(old(control.trail), control.trail)
    {
      hide Deployment.Sound, Accounts;
      f := None;
      if usage.Used? {
        f := control.Reconcile(usage.input, usage.output, estimate.0, estimate.1);
      }
    }

    /** One model call, from the checkpoint before it to a decision, a recovery or an exception. */
    method AskModel(l: Locals) returns (r: Flow)
      requires control.At(Asking, l) && l.replay.None? && control.state.decisions < l.step
      modifies control, control.world, control.world.store
      ensures control.world.Onward()
      ensures r.Got? ==> control.At(Chosen(r.decision), l)
      ensures r.Continue? ==>
        && control.At(AtHead, r.next) && r.next.step == l.step && r.next.replay.None?
        && control.state.decisions == l.step
        && InStep(control.trail, control.state)
        && control.state.recoveries == old(control.state).recoveries + 1
      ensures r.Stop? ==> control.Handling(r.fault)
      ensures !r.Stop? ==> AskedOnce(old(control.trail), control.trail, l.step)
      ensures AskedOnce(old(control.trail), control.trail, l.step) || OnlySaved(old(control.trail), control.trail)
    {
      hide Deployment.Sound, Accounts, Snapshot, AskedOnce, CalledOnce, OnlySaved, InStep, Did;
      ghost var earlier := control.trail;
      var f := SaveBeforeCall(l);
      if f.Some? {
        return Stop(f.value);
      }
      ghost var announced := control.trail;
      r := AskAnnounced(l);
      AskedAfter(earlier, announced, control.trail, l.step);
    }

    /** The call whose checkpoint is stored. */
    method AskAnnounced(l: Locals) returns (r: Flow)
      requires control.At(Ready, l) && l.replay.None?
      requires control.state.decisions == l.step && control.state.pending.None? && !Did(control.trail, Asked(l.step))
      modifies control, control.world, control.world.store
      ensures control.world.Onward()
      ensures r.Got? ==> control.At(Chosen(r.decision), l)
      ensures r.Continue? ==>
        && control.At(AtHead, r.next) && r.next.step == l.step && r.next.replay.None?
        && control.state.decisions == l.step
        && InStep(control.trail, control.state)
        && control.state.recoveries == old(control.state).recoveries + 1
      ensures r.Stop? ==> control.Handling(r.fault)
      ensures !r.Stop? ==> CalledOnce(old(control.trail), control.trail, l.step)
      ensures CalledOnce(old(control.trail), control.trail, l.step) || OnlySaved(old(control.trail), control.trail)
    {
      hide Deployment.Sound, Accounts, CalledOnce, InStep, Did, OnlySaved, ExecutionControl.Handling, ExecutionControl.InTime;
      NothingAdded(control.trail);
      var f := CheckDeadline();
      if f.Some? {
        return Stop(f.value);
      }
      Invoked(l);
      r := CallModel(l);
    }

    /** The call itself, and the recovery of a reply that could not be used. */
    method CallModel(l: Locals) returns (r: Flow)
      requires control.At(InCall, l) && l.replay.None?
      requires control.state.decisions == l.step && control.state.pending.None? && !Did(control.trail, Asked(l.step))
      modifies control, control.world, control.world.store
      ensures control.world.Onward()
      ensures r.Got? ==> control.At(Chosen(r.decision), l)
      ensures r.Continue? ==>
        && control.At(AtHead, r.next) && r.next.step == l.step && r.next.replay.None?
        && control.state.decisions == l.step
        && InStep(control.trail, control.state)
        && control.state.recoveries == old(control.state).recoveries + 1
      ensures r.Stop? ==> control.Handling(r.fault)
      ensures !r.Stop? ==> CalledOnce(old(control.trail), control.trail, l.step)
      ensures CalledOnce(old(control.trail), control.trail, l.step) || OnlySaved(old(control.trail), control.trail)
    {
      hide Deployment.Sound, Accounts, CalledOnce, InStep, Did;
      ghost var earlier := control.trail;
      var reply;
      r, reply := Converse(l);
      if r.Continue? {
        ghost var called := control.trail;
        r := RecoverWith(l, [RetryNote]);
        CalledThenSaved(earlier, called, control.trail, l.step);
      }
    }

    /** Spends a recovery, tells the model why in its history, and checkpoints that. */
    method RecoverWith(l: Locals, notes: seq<AgentData.Message>) returns (r: Flow)
      requires control.At(Recovering(notes), l) && l.replay.None?
      modifies control, control.world, control.world.store
      ensures control.world.Onward()
      ensures r.Continue? ==>
        && control.At(AtHead, r.next) && r.next.step == l.step && r.next.replay.None?
        && control.state.decisions == l.step
        && InStep(control.trail, control.state)
        && control.state.recoveries == old(control.state).recoveries + 1
        && r.next.history == l.history + notes
      ensures r.Stop? ==> control.Handling(r.fault)
      ensures old(control.state).recoveries >= control.allowance.maxRecoveries ==> r == Stop(Breakdown)
      ensures !r.Got?
      ensures OnlySaved(old(control.trail), control.trail)
    {
      hide Deployment.Sound, Accounts, OnlySaved, Snapshot, ExecutionControl.Handling;
      ghost var earlier := control.trail;
      SavedTwice(earlier, control.state, control.state);
      var f := control.Recover(l, notes);
      if f.Some? {
        return Stop(f.value);
      }
      ghost var spent := control.state;
      SavedTwice(earlier, spent, spent);
      var extended := l.(history := l.history + notes);
      f := SaveHistory(extended);
      SavedTwice(earlier, spent, control.state);
      if f.Some? {
        return Stop(f.value);
      }
      return Continue(extended);
    }

    /** Admission, the model, booking. */
    method Exchange(l: Locals) returns (f: Option<Fault>, reply: ModelReply)
      requires control.At(InCall, l)
      requires control.state.decisions == l.step && control.state.pending.None? && !Did(control.trail, Asked(l.step))
      modifies control, control.world, control.world.store
      ensures control.world.Onward()
      ensures f.None? ==>
        && control.Valid() && control.Me().pc == InCall && control.Me().at == l && !reply.Broken?
        && control.state.decisions == l.step && control.state.pending.None?
        && control.state.recoveries == old(control.state).recoveries
        && CalledOnce(old(control.trail), control.trail, l.step) && Did(control.trail, Asked(l.step))
      ensures reply.Broken? ==> f == Some(reply.fault)
      ensures f.Some? ==>
        && control.Handling(f.value)
        && (CalledOnce(old(control.trail), control.trail, l.step) || OnlySaved(old(control.trail), control.trail))
    {
      hide Deployment.Sound, Accounts, CalledOnce, OnlySaved, ExecutionControl.Handling;
      ghost var earlier := control.trail;
      NothingAdded(earlier);
      reply := Malformed;
      var estimate;
      f, estimate := Admit();
      if f.Some? {
        return;
      }
      ghost var admitted := control.state;
      var usage;
      reply, usage := outside.Invoke(control, l.step);
      ghost var asked := control.trail;
      NothingAdded(asked);
      CalledNow(earlier, asked, asked, admitted, l.step);
      if reply.Broken? {
        control.Raise(reply.fault);
        f := Some(reply.fault);
        return;
      }
      f := Book(usage, estimate);
      CalledNow(earlier, asked, control.trail, admitted, l.step);
    }

    /** Inside the call: whether the reply can be used. */
    method Converse(l: Locals) returns (r: Flow, reply: ModelReply)
      requires control.At(InCall, l)
      requires control.state.decisions == l.step && control.state.pending.None? && !Did(control.trail, Asked(l.step))
      modifies control, control.world, control.world.store
      ensures control.world.Onward()
      ensures r.Got? ==> control.At(Chosen(r.decision), l)
      ensures r.Continue? ==>
        && control.At(Recovering([RetryNote]), l) && control.state.pending.None?
        && control.state.recoveries == old(control.state).recoveries
      ensures r.Got? ==> reply == Reply(r.decision) && !WrongMode(control.world.c.job.answerMode, r.decision)
      ensures r.Continue? ==> reply.Malformed? || (reply.Reply? && WrongMode(control.world.c.job.answerMode, reply.decision))
      ensures reply.Broken? ==> r == Stop(reply.fault)
      ensures r.Stop? ==> control.Handling(r.fault)
      ensures !r.Stop? ==> CalledOnce(old(control.trail), control.trail, l.step)
      ensures CalledOnce(old(control.trail), control.trail, l.step) || OnlySaved(old(control.trail), control.trail)
    {
      hide Deployment.Sound, Accounts, CalledOnce, OnlySaved, Did;
      var f;
      f, reply := Exchange(l);
      if f.Some? {
        return Stop(f.value), reply;
      }
      if reply.Reply? && FitsMode(control.world.c, reply.decision) {
        Replied(l, reply.decision);
        return Got(reply.decision), reply;
      }
      Unreadable(l);
      return Continue(l), reply;
    }

    /** The deadline, the pending checkpoint, and the deadline again. */
    method MakePending(l: Locals, d: Decision) returns (f: Option<Fault>)
      requires control.At(Proposed(d), l) && d.ToolCall? && d.name in control.world.c.tools
      modifies control, control.world, control.world.store
      ensures control.world.Onward()
      ensures f.None? ==>
        && control.At(Dispatching(d), l)
        && control.state.decisions == l.step && control.state.pending == Some(d)
        && control.state.replaySafe == control.world.c.tools[d.name]
        && control.trail == old(control.trail) + [Saved(control.state)]
        && control.InTime()
      ensures f.Some? ==> control.Handling(f.value)
      ensures OnlySaved(old(control.trail), control.trail)
    {
      hide Deployment.Sound, Accounts, OnlySaved, Snapshot;
      NothingAdded(control.trail);
      f := CheckDeadline();
      if f.Some? {
        return;
      }
      f := SavePending(l, d);
      if f.Some? {
        return;
      }
      f := CheckDeadline();
    }

    /** One tool call, from the proposal to the checkpoint of its observation. */
    method UseTool(before: Locals, d: Decision) returns (r: Flow)
      requires control.At(Chosen(d), before) && d.ToolCall? && before.replay.None?
      modifies control, control.world, control.world.store
      ensures control.world.Onward()
      ensures r.Continue? ==>
        && control.At(AtHead, r.next) && r.next.step == before.step && r.next.replay.None?
        && control.state.decisions == before.step
        && InStep(control.trail, control.state)
        && (d.name in control.world.c.tools ==> RanOnce(old(control.trail), control.trail, before.step, d))
      ensures r.Stop? ==> control.Handling(r.fault)
      ensures d.name !in control.world.c.tools && r.Continue? ==>
        r.next.history == before.history + [Proposal(d), ToolFault("[unregistered]")]
      ensures !r.Got?
      ensures RanOnce(old(control.trail), control.trail, before.step, d) || OnlySaved(old(control.trail), control.trail)
      ensures old(control.trail) <= control.trail
    {
      hide Deployment.Sound, Accounts;
      var l := before.(toolCalls := before.toolCalls + 1);
      Propose(before, d);
      if d.name !in control.world.c.tools {
        r := RecoverWith(l, ToolNotes(control.world.c, d));
        return;
      }
      r := CallTool(l, d);
    }

    /** A registered tool: pending checkpoint, run, observation or recovery. */
    method CallTool(l: Locals, d: Decision) returns (r: Flow)
      requires control.At(Proposed(d), l) && d.ToolCall? && d.name in control.world.c.tools && l.replay.None?
      modifies control, control.world, control.world.store
      ensures control.world.Onward()
      ensures r.Continue? ==>
        && control.At(AtHead, r.next) && r.next.step == l.step && r.next.replay.None?
        && control.state.decisions == l.step
        && InStep(control.trail, control.state)
        && RanOnce(old(control.trail), control.trail, l.step, d)
      ensures r.Stop? ==> control.Handling(r.fault)
      ensures !r.Got?
      ensures RanOnce(old(control.trail), control.trail, l.step, d) || OnlySaved(old(control.trail), control.trail)
    {
      hide Deployment.Sound, Accounts, RanOnce, ToolThenSaved, InStep;
      ghost var earlier := control.trail;
      var f := MakePending(l, d);
      if f.Some? {
        return Stop(f.value);
      }
      ghost var announced := control.trail;
      var reply;
      r, reply := RunPending(l, d);
      RanAfter(earlier, announced, control.trail, l.step, d);
    }

    /** The tool behind its stored pending checkpoint, and the recovery of a failed run. */
    method RunPending(l: Locals, d: Decision) returns (r: Flow, reply: ToolReply)
      requires control.At(Dispatching(d), l) && d.ToolCall? && d.name in control.world.c.tools && l.replay.None?
      requires control.trail != [] && control.trail[|control.trail| - 1] == Saved(control.state)
      requires control.state.decisions == l.step && control.state.pending == Some(d)
      requires control.state.replaySafe == control.world.c.tools[d.name] && control.InTime()
      modifies control, control.world, control.world.store
      ensures control.world.Onward()
      ensures r.Continue? ==>
        && control.At(AtHead, r.next) && r.next.step == l.step && r.next.replay.None?
        && control.state.decisions == l.step
        && InStep(control.trail, control.state)
      ensures r.Stop? ==> control.Handling(r.fault)
      ensures !r.Got?
      ensures !Recoverable(control.world.c, d, reply) ==> ToolEnding(control.world.c, l, d, reply, r)
      ensures !Recoverable(control.world.c, d, reply) && !reply.Output? ==> control.state == old(control.state)
      ensures Recoverable(control.world.c, d, reply) && r.Continue? ==>
        && control.state.recoveries == old(control.state).recoveries + 1
        && r.next.history == l.history + [Proposal(d), ToolFault(d.name)]
      ensures ToolThenSaved(old(control.trail), control.trail, l.step, d)
    {
      hide Deployment.Sound, Accounts;
      r, reply := RunTool(l, d);
      if r.Got? {
        r := RecoverWith(l, ToolNotes(control.world.c, d));
      }
    }

    /** Runs the tool once. `Got` means a recoverable failure. */
    method RunTool(l: Locals, d: Decision) returns (r: Flow, reply: ToolReply)
      requires control.At(Dispatching(d), l) && d.ToolCall? && d.name in control.world.c.tools && l.replay.None?
      requires control.trail != [] && control.trail[|control.trail| - 1] == Saved(control.state)
      requires control.state.decisions == l.step && control.state.pending == Some(d)
      requires control.state.replaySafe == control.world.c.tools[d.name] && control.InTime()
      modifies control, control.world, control.world.store
      ensures control.world.Onward()
      ensures r.Got? ==>
        control.At(Recovering(ToolNotes(control.world.c, d)), l)
        && control.trail == old(control.trail) + [Dispatched(l.step, d)]
      ensures r.Continue? ==>
        && control.At(AtHead, r.next) && r.next.step == l.step && r.next.replay.None?
        && control.state.decisions == l.step
        && control.state.pending.None?
        && control.trail == old(control.trail) + [Dispatched(l.step, d)] + [Saved(control.state)]
      ensures r.Stop? ==> control.Handling(r.fault) && control.trail == old(control.trail) + [Dispatched(l.step, d)]
      ensures ToolEnding(control.world.c, l, d, reply, r)
      ensures !reply.Output? ==> control.state == old(control.state)
    {
      hide Deployment.Sound, Accounts, ExecutionControl.Handling, ToolNotes;
      reply := outside.Dispatch(control, l.step, d);
      r := TakeReply(l, d, reply);
    }

    /** The ways a tool run can end. */
    method TakeReply(l: Locals, d: Decision, reply: ToolReply) returns (r: Flow)
      requires control.HasRun(l.step, d) && control.Me().at == l && control.state.decisions <= l.step
      requires d.ToolCall? && d.name in control.world.c.tools && l.replay.None?
      modifies control, control.world, control.world.store
      ensures control.world.Onward()
      ensures r.Got? ==>
        control.At(Recovering(ToolNotes(control.world.c, d)), l) && control.trail == old(control.trail)
      ensures r.Continue? ==>
        && control.At(AtHead, r.next) && r.next.step == l.step && r.next.replay.None?
        && control.state.decisions == l.step
        && control.state.pending.None?
        && control.trail == old(control.trail) + [Saved(control.state)]
      ensures r.Stop? ==> control.Handling(r.fault) && control.trail == old(control.trail)
      ensures ToolEnding(control.world.c, l, d, reply, r)
      ensures !reply.Output? ==> control.state == old(control.state)
    {
      hide Deployment.Sound, Accounts, ExecutionControl.Handling, ToolNotes, Observe;
      match reply
      case HandlerBroke(fault) =>
        ToolStopped(l, d, ToolBroke(fault), fault);
        return Stop(fault);
      case BadArguments =>
        ToolFailed(l, d, ToolRefused);
        return Got(d);
      case Unavailable =>
        if control.world.c.tools[d.name] {
          ToolFailed(l, d, ToolTransient);
          return Got(d);
        }
        ToolStopped(l, d, ToolTransient, Breakdown);
        return Stop(Breakdown);
      case Output(result) =>
        r := TakeResult(l, d, result);
    }

    /** Takes a tool's result into the loop's variables and checkpoints it. */
    method TakeResult(l: Locals, d: Decision, result: ToolResult) returns (r: Flow)
      requires control.HasRun(l.step, d) && control.Me().at == l && control.state.decisions <= l.step
      requires d.ToolCall? && d.name in control.world.c.tools && l.replay.None?
      modifies control, control.world, control.world.store
      ensures control.world.Onward()
      ensures r.Continue? ==>
        && control.At(AtHead, r.next) && r.next.step == l.step && r.next.replay.None?
        && control.state.decisions == l.step
        && control.state.pending.None?
        && control.trail == old(control.trail) + [Saved(control.state)]
      ensures r.Stop? ==> control.Handling(r.fault) && control.trail == old(control.trail)
      ensures ToolEnding(control.world.c, l, d, Output(result), r)
    {
      hide Deployment.Sound, Accounts;
      var observed := TakeEvidence(control.world.c, l, d, result);
      ToolAnswered(l, d, result, observed);
      if observed.None? {
        return Stop(Breakdown);
      }
      r := StoreObservation(observed.value);
    }

    method StoreObservation(l: Locals) returns (r: Flow)
      requires control.At(Recording, l) && l.replay.None?
      modifies control, control.world, control.world.store
      ensures control.world.Onward()
      ensures r.Continue? ==>
        && control.At(AtHead, r.next) && r.next == l
        && control.state.decisions == l.step
        && control.state.pending.None?
        && control.trail == old(control.trail) + [Saved(control.state)]
      ensures r.Stop? ==> control.Handling(r.fault) && control.trail == old(control.trail)
      ensures !r.Got?
    {
      hide Deployment.Sound, Accounts;
      var f := CheckDeadline();
      if f.Some? {
        return Stop(f.value);
      }
      f := SaveHistory(l);
      if f.Some? {
        return Stop(f.value);
      }
      return Continue(l);
    }

    /** Validates a final answer, has it reviewed in document mode, and checkpoints it. */
    method Answer(l: Locals, d: Decision) returns (f: Option<Fault>)
      requires control.At(Chosen(d), l) && !d.ToolCall?
      modifies control, control.world, control.world.store
      ensures control.world.Onward()
      ensures f.None? ==>
        && control.Valid() && control.Me().pc == Finishing(d)
        && control.state.finalResult == Some(d) && control.trail != [] && control.trail[|control.trail| - 1] == Saved(control.state)
      ensures f.Some? ==> control.Handling(f.value)
      ensures OnlySaved(old(control.trail), control.trail)
    {
      hide Deployment.Sound, Accounts;
      CheckCitations(l, d);
      if !CitationsHold(control.world.c, d, l.sources, l.searchCompleted) {
        return Some(Breakdown);
      }
      if d.DocumentAnswer? {
        f := AnswerDocument(l, d.result);
      } else {
        f := SaveFinal(l, d);
      }
    }

    method AnswerDocument(l: Locals, result: DocumentResult) returns (f: Option<Fault>)
      requires control.At(Reviewing(result), l)
      modifies control, control.world, control.world.store
      ensures control.world.Onward()
      ensures f.None? ==>
        && control.Valid() && control.Me().pc == Finishing(DocumentAnswer(result))
        && control.state.finalResult == Some(DocumentAnswer(result))
        && control.trail != [] && control.trail[|control.trail| - 1] == Saved(control.state)
      ensures f.Some? ==> control.Handling(f.value)
      ensures OnlySaved(old(control.trail), control.trail)
    {
      hide Deployment.Sound, Accounts, OnlySaved;
      ghost var earlier := control.trail;
      var review;
      f, review := ReviewAnswer(l, result);
      if f.None? {
        ghost var reviewed := control.trail;
        f := SaveFinal(l, DocumentAnswer(result));
        OnlySavedOn(earlier, reviewed, control.trail);
      }
    }

    /** Admission, the review, booking. */
    method Consult(l: Locals, result: DocumentResult) returns (f: Option<Fault>, review: Option<Review>)
      requires control.At(Reviewing(result), l)
      modifies control, control.world, control.world.store
      ensures control.world.Onward()
      ensures f.None? ==>
        && control.Valid() && control.Me().pc == Reviewing(result) && control.Me().at == l && review.Some?
        && control.state.decisions <= l.step
      ensures f.Some? ==> control.Handling(f.value)
      ensures OnlySaved(old(control.trail), control.trail)
    {
      hide Deployment.Sound, Accounts;
      review := None;
      var estimate;
      f, estimate := Admit();
      if f.Some? {
        return;
      }
      var reply, usage := outside.Review(control);
      if reply.Failure? {
        control.Raise(reply.error);
        f := Some(reply.error);
        return;
      }
      review := Some(reply.value);
      f := Book(usage, estimate);
    }

    method ReviewAnswer(l: Locals, result: DocumentResult) returns (f: Option<Fault>, review: Option<Review>)
      requires control.At(Reviewing(result), l)
      modifies control, control.world, control.world.store
      ensures control.world.Onward()
      ensures f.None? ==>
        && control.At(Closing(DocumentAnswer(result)), l) && review.Some?
        && control.state.documentReview ==
          Some(Receipt(POLICY_VERSION, ReviewRequest(l.question, result, l.passages), review.value))
      ensures review.Some? && !Accepts(control.world.c.alnum, ReviewRequest(l.question, result, l.passages), review.value) ==> f.Some?
      ensures f.Some? ==> control.Handling(f.value)
      ensures OnlySaved(old(control.trail), control.trail)
    {
      hide Deployment.Sound, Accounts, Accepts, ExecutionControl.Handling, ExecutionControl.InTime;
      review := None;
      f := CheckDeadline();
      if f.Some? {
        return;
      }
      f, review := Consult(l, result);
      if f.Some? {
        return;
      }
      f := Certify(l, ReviewRequest(l.question, result, l.passages), review.value);
    }

    /** The deadline once more, then the verdict. */
    method Certify(l: Locals, request: ReviewRequest, review: Review) returns (f: Option<Fault>)
      requires control.Valid() && control.Me().pc == Reviewing(request.answer) && control.Me().at == l
      requires control.state.decisions <= l.step
      requires request == ReviewRequest(l.question, request.answer, l.passages)
      modifies control, control.world, control.world.store
      ensures control.world.Onward()
      ensures f.None? ==>
        && control.At(Closing(DocumentAnswer(request.answer)), l)
        && control.state.documentReview == Some(Receipt(POLICY_VERSION, request, review))
      ensures !Accepts(control.world.c.alnum, request, review) ==> f.Some?
      ensures f.Some? ==> control.Handling(f.value)
      ensures OnlySaved(old(control.trail), control.trail)
    {
      hide Deployment.Sound, Accounts, OnlySaved;
      NothingAdded(control.trail);
      f := CheckDeadline();
      if f.Some? {
        return;
      }
      f := StoreReceipt(l, request, review);
    }

    /** review_receipt, then its checkpoint. */
    method StoreReceipt(l: Locals, request: ReviewRequest, review: Review) returns (f: Option<Fault>)
      requires control.Valid() && control.Me().pc == Reviewing(request.answer) && control.Me().at == l
      requires control.state.decisions <= l.step
      requires request == ReviewRequest(l.question, request.answer, l.passages)
      modifies control, control.world, control.world.store
      ensures control.world.Onward()
      ensures f.None? ==>
        && control.At(Closing(DocumentAnswer(request.answer)), l)
        && control.state.documentReview == Some(Receipt(POLICY_VERSION, request, review))
      ensures !Accepts(control.world.c.alnum, request, review) ==> f.Some?
      ensures f.Some? ==> control.Handling(f.value)
      ensures OnlySaved(old(control.trail), control.trail)
    {
      hide Deployment.Sound, Accounts, OnlySaved, Accepts;
      NothingAdded(control.trail);
      var receipt := ReviewReceipt(control.world.c.alnum, request, review);
      Judge(l, request, review);
      if receipt.None? {
        return Some(Breakdown);
      }
      f := SaveReceipt(l, request.answer, receipt.value);
    }

    /** The loop: one iteration a decision number, from where the checkpoint left off. */
    method Run() returns (r: Result<Decision, Fault>)
      requires control.Valid() && control.Me().pc == Opening && control.Me().call.None? && control.state.finalResult.None?
      modifies control, control.world, control.world.store
      ensures control.world.Onward()
      ensures old(control.trail) <= control.trail
      ensures r.Success? ==>
        && control.Valid() && control.Me().pc == Finishing(r.value)
        && control.state.finalResult == Some(r.value) && control.trail != [] && control.trail[|control.trail| - 1] == Saved(control.state)
      ensures r.Failure? ==> control.Handling(r.error)
    {
      hide Deployment.Sound, Accounts, ExecutionControl.Handling;
      var c := control.world.c;
      Enter();
      if ModeConflict(c, control.state) {
        return Failure(Breakdown);
      }
      var l := LoadLocals(c, control.state);
      var nextStep := FirstStep(l);
      while nextStep <= c.job.maxDecisions
        invariant control.At(AtHead, l) && nextStep == FirstStep(l) && control.state.decisions == l.step
        invariant control.world.Onward() && old(control.trail) <= control.trail
        decreases c.job.maxDecisions + 1 - nextStep
      {
        var flow := Iterate(l, nextStep);
        if flow.Stop? {
          return Failure(flow.fault);
        }
        if flow.Got? {
          return Success(flow.decision);
        }
        l := flow.next;
        nextStep := nextStep + 1;
      }
      var f := CheckDeadline();
      if f.Some? {
        return Failure(f.value);
      }
      OutOfSteps(l);
      return Failure(Exhaustion);
    }

    /** One turn of the loop. `Got` is a checkpointed final answer. */
    method Iterate(l: Locals, step: nat) returns (r: Flow)
      requires control.At(AtHead, l) && step == FirstStep(l) && step <= control.world.c.job.maxDecisions
      requires control.state.decisions == l.step
      modifies control, control.world, control.world.store
      ensures control.world.Onward()
      ensures old(control.trail) <= control.trail
      ensures r.Got? ==>
        && control.Valid() && control.Me().pc == Finishing(r.decision)
        && control.state.finalResult == Some(r.decision)
        && control.trail != [] && control.trail[|control.trail| - 1] == Saved(control.state)
      ensures r.Continue? ==>
        && control.At(AtHead, r.next) && r.next.step == step && r.next.replay.None?
        && control.state.decisions == step
      ensures r.Stop? ==> control.Handling(r.fault)
    {
      hide Deployment.Sound, Accounts, ExecutionControl.Handling;
      r := Decide(l, step);
      if !r.Got? {
        return;
      }
      r := Carry(Entered(l, step), r.decision);
    }

    /** The deadline, then the decision. */
    method Decide(l: Locals, step: nat) returns (r: Flow)
      requires control.At(AtHead, l) && step == FirstStep(l) && step <= control.world.c.job.maxDecisions
      requires control.state.decisions == l.step
      modifies control, control.world, control.world.store
      ensures control.world.Onward()
      ensures old(control.trail) <= control.trail
      ensures r.Got? ==> control.At(Chosen(r.decision), Entered(l, step))
      ensures r.Continue? ==>
        && control.At(AtHead, r.next) && r.next.step == step && r.next.replay.None?
        && control.state.decisions == step
      ensures r.Stop? ==> control.Handling(r.fault)
    {
      hide Deployment.Sound, Accounts, AskedOnce, OnlySaved, ExecutionControl.Handling;
      var f := CheckDeadline();
      if f.Some? {
        return Stop(f.value);
      }
      r := Choose(l, step);
    }

    /** Carries out a decision. */
    method Carry(l: Locals, d: Decision) returns (r: Flow)
      requires control.At(Chosen(d), l) && l.replay.None?
      modifies control, control.world, control.world.store
      ensures control.world.Onward()
      ensures old(control.trail) <= control.trail
      ensures r.Got? ==>
        && control.Valid() && control.Me().pc == Finishing(r.decision)
        && control.state.finalResult == Some(r.decision)
        && control.trail != [] && control.trail[|control.trail| - 1] == Saved(control.state)
      ensures r.Continue? ==>
        && control.At(AtHead, r.next) && r.next.step == l.step && r.next.replay.None?
        && control.state.decisions == l.step
      ensures r.Stop? ==> control.Handling(r.fault)
    {
      hide Deployment.Sound, Accounts, RanOnce, InStep;
      var f := CheckDeadline();
      if f.Some? {
        return Stop(f.value);
      }
      if d.ToolCall? {
        r := UseTool(l, d);
        return;
      }
      f := Answer(l, d);
      return if f.Some? then Stop(f.value) else Got(d);
    }

    /** The decision of an iteration: the pending one if there is one, without a model call, else the model's. */
    method Choose(l: Locals, step: nat) returns (r: Flow)
      requires control.At(AtHead, l) && step == FirstStep(l) && step <= control.world.c.job.maxDecisions
      requires control.state.decisions == l.step
      modifies control, control.world, control.world.store
      ensures control.world.Onward()
      ensures r.Got? ==> control.At(Chosen(r.decision), Entered(l, step))
      ensures r.Continue? ==>
        && control.At(AtHead, r.next) && r.next.step == step && r.next.replay.None?
        && control.state.decisions == step
      ensures r.Stop? ==> control.Handling(r.fault)
      ensures l.replay.Some? ==> r == Got(l.replay.value) && control.trail == old(control.trail)
      ensures l.replay.None? ==>
        && (AskedOnce(old(control.trail), control.trail, step) || OnlySaved(old(control.trail), control.trail))
        && (!r.Stop? ==> AskedOnce(old(control.trail), control.trail, step))
      ensures old(control.trail) <= control.trail
    {
      hide Deployment.Sound, Accounts;
      LeaveHead(l, step);
      if l.replay.Some? {
        return Got(l.replay.value);
      }
      r := AskModel(Entered(l, step));
    }
  }

  /** The loop's own handling of a result: search evidence is merged passage by passage before anything is kept. */
  method TakeEvidence(c: Config, l: Locals, d: Decision, result: ToolResult) returns (r: Option<Locals>)
    requires d.ToolCall?
    ensures r == Observe(c, l, d, result)
    ensures r.Some? ==> r.value.step == l.step && r.value.replay == l.replay
  {
    var searchCompleted, passages, sources := l.searchCompleted, l.passages, l.sources;
    if d.name == SEARCH && result.SearchResult? {
      searchCompleted := true;
      if DocumentRun(c) {
        var i := 0;
        while i < |result.passages|
          invariant 0 <= i <= |result.passages|
          invariant Merge(l.passages, result.passages) == Merge(passages, result.passages[i..])
        {
          var passage := result.passages[i];
          var known := Lookup(passages, SourceKey(passage));
          assert result.passages[i..][0] == passage && result.passages[i..][1..] == result.passages[i + 1..];
          if known.Some? && known.value != passage {
            return None;
          }
          if known.None? {
            passages := passages + [passage];
          }
          i := i + 1;
        }
        assert result.passages[|result.passages|..] == [];
      }
      if |passages| > MAX_PASSAGES {
        return None;
      }
      sources := sources + Keys(result.passages);
    }
    return Some(l.(
      toolsCompleted := l.toolsCompleted + 1,
      history := l.history + [Proposal(d), Observation(d.name, result)],
      searchCompleted := searchCompleted,
      passages := passages,
      sources := sources));
  }
}
