/** An attempt's checkpoint, budget admission and lease checks (crewos/application/services/execution_control.py). */
module ExecutionControl {
  import opened Wrappers
  import opened AgentData
  import opened Budget
  import opened RunRecords
  import opened AgentMachine
  import opened Deployment

  lemma PlanReserves(c: Config, w: Worker, input: nat, output: nat)
    requires (w.pc.InCall? || w.pc.Reviewing?) && w.call.None?
    ensures var cp := Reserved(w.cp, w.allowance.rates, input, output);
      Plan(c, w, Choice.Reserve(input, output)) ==
        if Exceeds(w.allowance, cp.reservedTokens, cp.reservedCost) then Move(Fail(w, Exhaustion), Nothing)
        else Persist(cp, w, Charged(Charge(w.token, w.allowance.rates, input, output, None)))
  {
  }

  lemma PlanReconciles(c: Config, w: Worker, input: nat, output: nat)
    requires (w.pc.InCall? || w.pc.Reviewing?) && w.call.Some?
    ensures var cp := Reconciled(w.cp, w.allowance.rates, input, output, w.call.value.input, w.call.value.output);
      var next := w.(call := None);
      Plan(c, w, Choice.Reconcile(input, output)) ==
        Persist(cp, if Exceeds(w.allowance, cp.reservedTokens, cp.reservedCost) then Fail(next, Exhaustion) else next,
          Settled(w.call.value.entry, input, output))
  {
  }

  /** What an attempt did, in its own order: checkpoints the store accepted, model invocations, tool runs. */
  datatype Deed = Saved(cp: Checkpoint) | Asked(step: nat) | Dispatched(step: nat, decision: Decision)

  /** Right before a model invocation or a tool run comes the checkpoint that announces it. */
  predicate Announced(trail: seq<Deed>, i: nat)
    requires i < |trail|
  {
    match trail[i]
    case Saved(_) => true
    case Asked(n) => i > 0 && trail[i - 1].Saved? && trail[i - 1].cp.decisions == n && trail[i - 1].cp.pending.None?
    case Dispatched(n, d) =>
      i > 0 && trail[i - 1].Saved? && trail[i - 1].cp.decisions == n && trail[i - 1].cp.pending == Some(d)
  }

  predicate Orderly(trail: seq<Deed>) {
    forall i :: 0 <= i < |trail| ==> Announced(trail, i)
  }

  predicate Did(trail: seq<Deed>, deed: Deed) {
    deed in trail
  }

  /** The trail is in order and holds every invocation made in this attempt's name. */
  ghost predicate Accounts(trail: seq<Deed>, token: Token, invoked: seq<Invocation>, decisions: nat) {
    && Orderly(trail)
    && (forall n: nat :: Invocation(token, n) in invoked ==> Did(trail, Asked(n)))
    && (forall n: nat :: Did(trail, Asked(n)) ==> n <= decisions)
  }

  lemma AccountKept(trail: seq<Deed>, token: Token, invoked: seq<Invocation>, decisions: nat, after: seq<Invocation>, cp: Checkpoint)
    requires Accounts(trail, token, invoked, decisions) && decisions <= cp.decisions
    requires forall n: nat :: Invocation(token, n) in after <==> Invocation(token, n) in invoked
    ensures Accounts(trail, token, after, cp.decisions)
    ensures Accounts(trail + [Saved(cp)], token, after, cp.decisions)
  {
    var longer := trail + [Saved(cp)];
    forall i | 0 <= i < |longer|
      ensures Announced(longer, i)
    {
      if i < |trail| {
        assert Announced(trail, i);
      }
    }
    forall n: nat
      ensures Did(longer, Asked(n)) <==> Did(trail, Asked(n))
    {
    }
  }

  /** Only checkpoints came on top. */
  predicate OnlySaved(earlier: seq<Deed>, trail: seq<Deed>) {
    earlier <= trail && forall i :: |earlier| <= i < |trail| ==> trail[i].Saved?
  }

  /** What a lease check found: the run renewed with time left, renewed with none, cancelled, or lost. */
  ghost predicate GuardVerdict(p: StorePolicy, run: Run, k: Token, clock: Time, r: Result<Time, Fault>) {
    match r
    case Success(left) => left > 0.0 && LeaseRenewed(p, run, k, clock, left)
    case Failure(Exhaustion) => exists left: Time :: left <= 0.0 && LeaseRenewed(p, run, k, clock, left)
    case Failure(Cancellation) => run.cancelRequested && run.state == Running && run.token == Some(k)
    case Failure(Breakdown) => !Owns(run, k, clock)
  }

  class ExecutionControl {
    const world: Deployment
    const token: Token
    const limits: Limits
    const allowance: Allowance
    var state: Checkpoint
    ghost var trail: seq<Deed>

    /** This attempt's place in the machine; `state` is its checkpoint as the attempt knows it. */
    ghost function Me(): Worker
      requires world.Has(token)
      reads this, world
    {
      world.Attempt(token)
    }

    ghost predicate Valid()
      reads this, world, world.store
    {
      && world.Valid() && world.Has(token)
      && Me().cp == state && Me().limits == limits && Me().allowance == allowance
      && Accounts(trail, token, world.invoked, state.decisions)
    }

    /** At a point of the loop, with these variables and no model call open. */
    ghost predicate At(pc: Pc, l: Locals)
      reads this, world, world.store
    {
      Valid() && Me().pc == pc && Me().at == l && Me().call.None? && state.decisions <= l.step
    }

    /** The tool of this attempt's pending call has just run and is not yet on record. */
    ghost predicate HasRun(n: nat, d: Decision)
      reads this, world, world.store
    {
      && world.Sound() && world.dispatched == world.system.log.dispatches + [Dispatch(n, d)]
      && world.Has(token) && Me().pc == Dispatching(d) && Me().at.step == n && Me().call.None?
      && Me().cp == state && Me().limits == limits && Me().allowance == allowance
      && Accounts(trail, token, world.invoked, state.decisions)
    }

    /** In the exception handler. */
    ghost predicate Handling(f: Fault)
      reads this, world, world.store
    {
      Valid() && Me().pc == Raising(f)
    }

    /** At the last word from the store this attempt had the run, with its lease active and the deadline ahead. */
    ghost predicate InTime()
      reads this, world
    {
      var run := world.system.run;
      HeldBy(run, token) && Owns(run, token, world.system.clock) && run.deadline.Some? && run.deadline.value > world.system.clock
    }

    constructor (world: Deployment, token: Token, limits: Limits, allowance: Allowance, state: Checkpoint)
      requires world.Valid() && world.Has(token)
      requires var w := world.Attempt(token); w.cp == state && w.limits == limits && w.allowance == allowance
      requires forall n: nat :: Invocation(token, n) !in world.invoked
      ensures trail == []
      ensures Valid() && this.world == world && this.token == token && this.state == state
      ensures this.limits == limits && this.allowance == allowance
    {
      this.world, this.token, this.limits, this.allowance, this.state := world, token, limits, allowance, state;
      trail := [];
    }

    /**
     Raises what the heartbeat met, or else renews the lease and returns the positive
     time left, or says exactly why the attempt must stop.
     */
    method Guard() returns (r: Result<Time, Fault>, ghost alarm: Option<Fault>)
      requires Valid()
      modifies world, world.store
      ensures Valid() && Me() == old(Me()) && world.Onward()
      ensures world.thrown == if r.Failure? then Some(r.error) else None
      ensures alarm.Some? ==> r == Failure(alarm.value)
      ensures alarm.None? ==> GuardVerdict(world.c.policy, world.system.run, token, world.system.clock, r)
      ensures r.Success? ==> InTime()
    {
      hide Deployment.Sound;
      var failed := world.Heartbeat();
      alarm := failed;
      if failed.Some? {
        return Failure(failed.value), alarm;
      }
      var remaining := world.Renew(token);
      if remaining.Success? && remaining.value <= 0.0 {
        assert LeaseRenewed(world.c.policy, world.system.run, token, world.system.clock, remaining.value);
        world.Throw(Some(Exhaustion));
        return Failure(Exhaustion), alarm;
      }
      return remaining, alarm;
    }

    /** An exception from outside leaves the attempt's current step. */
    ghost method Raise(f: Fault)
      requires Valid() && (Active(Me()) || Me().pc.Confirming?)
      requires world.thrown == Some(f)
      modifies world`system, world`path
      ensures Handling(f) && world.Onward()
    {
      hide Deployment.Sound, Accounts;
      world.Break(token, f);
    }

    /** Updates the local state, then asks the store; the local state stays updated if the store refuses. */
    method Persist(cp: Checkpoint, ghost x: Choice, ghost next: Worker, ghost note: Note) returns (r: Option<Fault>)
      requires Valid() && Plan(world.c, Me(), x) == Action.Persist(cp, next, note)
      requires next.token == token && next.limits == limits && next.allowance == allowance
      requires state.decisions <= cp.decisions && !note.Ran?
      modifies this, world, world.store
      ensures Valid() && state == cp && world.Onward() && world.thrown == old(world.thrown)
      ensures trail == if r.None? then old(trail) + [Saved(cp)] else old(trail)
      ensures r.None? ==> exists log: Log :: Me() == Stamp(log, next.(cp := cp), note)
      ensures r.None? ==> HeldBy(world.system.run, token) && world.system.run.checkpoint == cp
      ensures r.Some? ==> Handling(r.value)
    {
      hide Deployment.Sound;
      ghost var decisions, invoked := state.decisions, world.invoked;
      state := cp;
      r := world.Checkpoint(token, cp, x, next, note);
      AccountKept(trail, token, invoked, decisions, world.invoked, cp);
      if r.None? {
        trail := trail + [Saved(cp)];
      }
    }

    /** Admits a call's estimate: the totals grow by exactly it and stay within the allowance. */
    method Reserve(input: nat, output: nat) returns (r: Option<Fault>)
      requires Valid() && (Me().pc.InCall? || Me().pc.Reviewing?) && Me().call.None?
      modifies this, world, world.store
      ensures r.None? ==>
        && Valid() && Me().pc == old(Me()).pc && Me().at == old(Me()).at
        && Me().call.Some? && Me().call.value.input == input && Me().call.value.output == output
        && state == Reserved(old(state), allowance.rates, input, output)
        && state.reservedTokens <= allowance.maxTokens
        && (allowance.maxCost.Some? ==> state.reservedCost <= allowance.maxCost.value)
        && HeldBy(world.system.run, token) && world.thrown.None?
      ensures trail == if r.None? then old(trail) + [Saved(state)] else old(trail)
      ensures r.Some? ==> Handling(r.value)
      ensures world.Onward()
    {
      hide Deployment.Sound;
      var guarded, _ := Guard();
      if guarded.Failure? {
        Raise(guarded.error);
        return Some(guarded.error);
      }
      PlanReserves(world.c, Me(), input, output);
      var used := state.reservedTokens + input + output;
      var cost := state.reservedCost + Cost(allowance.rates, input, output);
      if used > allowance.maxTokens || (allowance.maxCost.Some? && cost > allowance.maxCost.value) {
        world.Step(token, Choice.Reserve(input, output), Fail(Me(), Exhaustion), Nothing);
        return Some(Exhaustion);
      }
      r := Persist(state.(reservedTokens := used, reservedCost := cost), Choice.Reserve(input, output), Me(),
        Charged(Charge(token, allowance.rates, input, output, None)));
    }

    /** Books what a call reported beyond its estimate; usage over the allowance ends the attempt after it is booked. */
    method Reconcile(input: nat, output: nat, reservedInput: nat, reservedOutput: nat) returns (r: Option<Fault>)
      requires Valid() && (Me().pc.InCall? || Me().pc.Reviewing?)
      requires Me().call.Some? && Me().call.value.input == reservedInput && Me().call.value.output == reservedOutput
      modifies this, world, world.store
      ensures state == Reconciled(old(state), allowance.rates, input, output, reservedInput, reservedOutput)
      ensures r.None? ==>
        && Valid() && Me().pc == old(Me()).pc && Me().at == old(Me()).at && Me().call.None?
        && state.reservedTokens <= allowance.maxTokens
        && (allowance.maxCost.Some? ==> state.reservedCost <= allowance.maxCost.value)
        && trail == old(trail) + [Saved(state)]
      ensures OnlySaved(old(trail), trail)
      ensures r.Some? ==> Handling(r.value)
      ensures world.Onward()
    {
      hide Deployment.Sound;
      PlanReconciles(world.c, Me(), input, output);
      var extraInput, extraOutput := Excess(input, reservedInput), Excess(output, reservedOutput);
      var used := state.reservedTokens + extraInput + extraOutput;
      var cost := state.reservedCost + Cost(allowance.rates, extraInput, extraOutput);
      var over := used > allowance.maxTokens || (allowance.maxCost.Some? && cost > allowance.maxCost.value);
      ghost var settled := Me().(call := None);
      r := Persist(
        state.(reservedTokens := used, reservedCost := cost,
          reportedInput := state.reportedInput + input, reportedOutput := state.reportedOutput + output),
        Choice.Reconcile(input, output),
        if over then Fail(settled, Exhaustion) else settled,
        Settled(Me().call.value.entry, input, output));
      if r.None? && over {
        return Some(Exhaustion);
      }
    }

    /** Takes one recovery if any is left. */
    method Recover(ghost l: Locals, ghost notes: seq<AgentData.Message>) returns (r: Option<Fault>)
      requires At(Recovering(notes), l)
      modifies this, world, world.store
      ensures r.None? ==>
        && At(Recording, l.(history := l.history + notes))
        && old(state).recoveries < allowance.maxRecoveries
        && state == old(state).(recoveries := old(state).recoveries + 1)
        && trail == old(trail) + [Saved(state)]
      ensures r.Some? ==> Handling(r.value) && trail == old(trail)
      ensures old(state).recoveries >= allowance.maxRecoveries ==> r == Some(Breakdown) && state == old(state)
      ensures old(state).recoveries < allowance.maxRecoveries ==>
        state == old(state).(recoveries := old(state).recoveries + 1)
      ensures world.Onward()
    {
      hide Deployment.Sound;
      var used := state.recoveries;
      if used >= allowance.maxRecoveries {
        world.Step(token, Go, Fail(Me(), Breakdown), Nothing);
        return Some(Breakdown);
      }
      r := Persist(state.(recoveries := used + 1), Go,
        Me().(pc := Recording, at := l.(history := l.history + notes)), Nothing);
    }
  }
}
