/**
 One delivery of an agent job (crewos/core/agent_job_runner.py): claim, limits,
 recovery of a stored final result or the loop, then the terminal write.
 */
module AgentRunner {
  import opened Wrappers
  import opened Evidence
  import opened ReviewGate
  import opened AgentData
  import opened Budget
  import opened RunRecords
  import opened RunVerdicts
  import opened AgentMachine
  import opened AgentInvariant
  import opened AgentSteps
  import opened AgentTheorems
  import opened AgentHistory
  import opened Deployment
  import opened ExecutionControl
  import opened AgentLoop

  datatype JobError = OverPolicy | NotClaimed(error: RunError) | AttemptEnded(fault: Fault)

  /** Re-validates a stored final result against everything the checkpoint holds. */
  method Revalidate(c: Config, cp: Checkpoint, a: Decision) returns (ok: bool)
    ensures ok <==> Backed(c, cp, a)
  {
    if !CitationsHold(c, a, cp.observedSources, cp.searchCompleted) {
      return false;
    }
    if a.DocumentAnswer? {
      if cp.answerMode != Some(DocumentMode) || cp.documentReview.None? {
        return false;
      }
      var question := if cp.question.Some? then cp.question.value else c.job.message;
      ok := ValidateReviewReceipt(c.alnum, ReviewRequest(question, a.result, cp.observedPassages), cp.documentReview.value);
      return;
    }
    return true;
  }

  /**
   The row after the terminal write of an attempt that ended in an exception, with
   this checkpoint in its hands: a cancellation comes first, then a spent budget,
   and a tool call that may have run and must not run again asks for a review.
   */
  predicate EndedBy(run: Run, f: Fault, cp: Checkpoint) {
    && run.result.None? && run.token.None? && run.leaseUntil.None?
    && (run.cancelRequested || f == Cancellation ==> run.state == Cancelled)
    && (!run.cancelRequested && f == Exhaustion ==> run.state == Exhausted)
    && (!run.cancelRequested && f == Breakdown ==>
      run.state == if cp.pending.Some? && !cp.replaySafe then NeedsReview else Failed)
  }

  /** What became of an attempt that returned no answer. */
  datatype Ending =
    | NoAttempt
    | Recorded(token: Token)
    | Unrecorded(token: Token, storageBroke: bool)

  /** The run after a delivery that its claim let through, and that failed. */
  ghost predicate FailedAs(world: Deployment, f: Fault, end: Ending)
    reads world, world.store
  {
    && world.c.job.runId in world.store.runs
    && var run := world.store.runs[world.c.job.runId];
      match end
      case NoAttempt => false
      case Recorded(k) => world.Has(k) && EndedBy(run, f, world.Attempt(k).cp)
      case Unrecorded(k, broke) => world.Has(k) && (broke || !Owns(run, k, world.clock))
  }

  /**
   What a delivery whose claim met the run as `met` comes to: the stored answer of a
   succeeded run, a refusal that leaves the run alone, or an attempt with its answer or its end.
   */
  ghost predicate DeliveredAs(world: Deployment, met: Run, read: Time, r: Result<Decision, JobError>, end: Ending)
    reads world, world.store
  {
    && (met.state == Succeeded ==> met.result.Some? && r == Success(met.result.value))
    && (r.Failure? && r.error.NotClaimed? <==> met.state != Succeeded && !Claimable(world.c.policy, met, world.c.job, read))
    && (r.Failure? && r.error.NotClaimed? ==> world.system.run == met)
    && !(r.Failure? && r.error.OverPolicy?)
    && (r.Failure? && r.error.AttemptEnded? ==> FailedAs(world, r.error.fault, end))
  }

  class AgentRunner {
    const world: Deployment
    const outside: Outside

    constructor (world: Deployment, outside: Outside)
      ensures this.world == world && this.outside == outside
    {
      this.world, this.outside := world, outside;
    }

    /**
     A returned answer is the stored result of the succeeded run, whichever
     delivery returns it; whatever this one and all others did leads on from where
     the run stood.
     */
    method Execute(settings: Settings)
      returns (r: Result<Decision, JobError>, ghost met: System, ghost read: Time, ghost end: Ending)
      requires world.Valid()
      modifies world, world.store
      ensures world.Valid() && Later(world.c, old(world.system), met) && Later(world.c, met, world.system)
      ensures world.c.job.maxDecisions > settings.maxDecisions ==> r == Failure(OverPolicy) && world.system == old(world.system)
      ensures world.c.job.maxDecisions <= settings.maxDecisions ==> DeliveredAs(world, met.run, read, r, end)
      ensures r.Success? ==>
        && world.store.runs[world.c.job.runId].state == Succeeded
        && world.store.runs[world.c.job.runId].result == Some(r.value)
    {
      r, met, read, end := Deliver(settings);
    }

    /** Two deliveries of one run that both return an answer return the same one, whatever happened in between. */
    method DeliverTwice(first: Settings, second: Settings) returns (a: Result<Decision, JobError>, b: Result<Decision, JobError>)
      requires world.Valid()
      modifies world, world.store
      ensures world.Valid()
      ensures a.Success? && b.Success? ==> a.value == b.value
    {
      ghost var met, read, end;
      a, met, read, end := Execute(first);
      ghost var answered := world.system;
      ghost var start, path := world.start, world.path;
      var _ := world.Wait();
      b, met, read, end := Deliver(second);
      MoreIsLater(world.c, start, path, answered, world.path, world.system);
      SubmittedReaches(world.c, start, path, answered);
      LaterRemembers(world.c, answered, world.system);
    }

    /** The delivery itself. */
    method Deliver(settings: Settings)
      returns (r: Result<Decision, JobError>, ghost met: System, ghost read: Time, ghost end: Ending)
      requires world.Valid()
      modifies world, world.store
      ensures world.Onward()
      ensures world.Valid() && Later(world.c, old(world.system), met) && Later(world.c, met, world.system)
      ensures world.c.job.maxDecisions > settings.maxDecisions ==> r == Failure(OverPolicy) && world.system == old(world.system)
      ensures world.c.job.maxDecisions <= settings.maxDecisions ==> DeliveredAs(world, met.run, read, r, end)
      ensures r.Success? ==>
        && world.store.runs[world.c.job.runId].state == Succeeded
        && world.store.runs[world.c.job.runId].result == Some(r.value)
    {
      hide Deployment.Sound, Claimable, FailedAs;
      end := NoAttempt;
      if world.c.job.maxDecisions > settings.maxDecisions {
        r, met, read := Failure(OverPolicy), world.system, world.clock;
        LaterSelf(world.c, world.system);
        return;
      }
      var record;
      record, met, read := world.Claim(settings);
      if record.Failure? {
        r := Failure(NotClaimed(record.error));
        return;
      }
      if record.value.state == Succeeded {
        AnswerIsStored(record.value.result.value);
        r := Success(record.value.result.value);
        return;
      }
      ghost var claimed := world.system;
      r, end := Pursue(record.value, settings);
      LaterOn(world.c, met, claimed, world.system);
    }

    /** A new attempt, from its limits to its end. */
    method Pursue(run: Run, settings: Settings) returns (r: Result<Decision, JobError>, ghost end: Ending)
      requires world.Valid() && run.token.Some? && world.Has(run.token.value)
      requires world.Attempt(run.token.value) == NewWorker(run, run.token.value, settings)
      requires forall n: nat :: Invocation(run.token.value, n) !in world.invoked
      modifies world, world.store
      ensures world.Onward() && Later(world.c, old(world.system), world.system)
      ensures world.Valid()
      ensures r.Failure? ==> r.error.AttemptEnded? && FailedAs(world, r.error.fault, end)
      ensures r.Success? ==>
        && world.store.runs[world.c.job.runId].state == Succeeded
        && world.store.runs[world.c.job.runId].result == Some(r.value)
    {
      r, end := PursueOn(run, settings);
      world.OnwardIsLater();
    }

    method PursueOn(run: Run, settings: Settings) returns (r: Result<Decision, JobError>, ghost end: Ending)
      requires world.Valid() && run.token.Some? && world.Has(run.token.value)
      requires world.Attempt(run.token.value) == NewWorker(run, run.token.value, settings)
      requires forall n: nat :: Invocation(run.token.value, n) !in world.invoked
      modifies world, world.store
      ensures world.Onward()
      ensures world.Valid()
      ensures r.Failure? ==> r.error.AttemptEnded? && FailedAs(world, r.error.fault, end)
      ensures r.Success? ==>
        && world.store.runs[world.c.job.runId].state == Succeeded
        && world.store.runs[world.c.job.runId].result == Some(r.value)
    {
      hide Deployment.Sound, Accounts, FailedAs;
      end := NoAttempt;
      var limits := RecordedLimits(run.checkpoint, settings);
      var allowance := AllowanceFor(limits, settings);
      var control := new ExecutionControl(world, run.token.value, limits, allowance, run.checkpoint);
      if !ValidAllowance(allowance) {
        end := Handle(control, Breakdown);
        r := Failure(AttemptEnded(Breakdown));
        return;
      }
      var answer := Attempt(control);
      if answer.Failure? {
        end := Handle(control, answer.error);
        r := Failure(AttemptEnded(answer.error));
        return;
      }
      r, end := Close(control, answer.value);
    }

    /** The end of an attempt that has its answer. */
    method Close(control: ExecutionControl, answer: Decision) returns (r: Result<Decision, JobError>, ghost end: Ending)
      requires control.world == world && control.Valid() && control.Me().pc == Finishing(answer)
      modifies world, world.store
      ensures world.Onward()
      ensures world.Valid()
      ensures r.Failure? ==> r.error.AttemptEnded? && FailedAs(world, r.error.fault, end)
      ensures r.Success? ==>
        && r.value == answer
        && world.store.runs[world.c.job.runId].state == Succeeded
        && world.store.runs[world.c.job.runId].result == Some(r.value)
    {
      hide Deployment.Sound, Accounts, FailedAs;
      end := NoAttempt;
      var f := Conclude(control, answer);
      if f.Some? {
        end := Handle(control, f.value);
        r := Failure(AttemptEnded(f.value));
        return;
      }
      AnswerIsStored(answer);
      r := Success(answer);
    }

    /** Any answer on record is the stored result. */
    lemma AnswerIsStored(a: Decision)
      requires world.Valid() && a in world.system.log.answers
      ensures world.c.job.runId in world.store.runs
      ensures world.store.runs[world.c.job.runId].state == Succeeded
      ensures world.store.runs[world.c.job.runId].result == Some(a)
    {
      SubmittedReaches(world.c, world.start, world.path, world.system);
      var i :| 0 <= i < |world.system.log.answers| && world.system.log.answers[i] == a;
      AnswerAgreement(world.c, world.system, i);
    }

    /** Records the limits, then recovers a stored final result or runs the loop. */
    method Attempt(control: ExecutionControl) returns (r: Result<Decision, Fault>)
      requires control.world == world && control.Valid() && control.Me().pc == Launching && control.Me().call.None?
      modifies control, world, world.store
      ensures world.Onward()
      ensures r.Success? ==> control.Valid() && control.Me().pc == Finishing(r.value)
      ensures r.Failure? ==> control.Handling(r.error)
    {
      hide Deployment.Sound, Accounts;
      var f := RecordLimits(control);
      if f.Some? {
        return Failure(f.value);
      }
      r := Proceed(control);
    }

    /** Recovers a stored final result, or runs the loop. */
    method Proceed(control: ExecutionControl) returns (r: Result<Decision, Fault>)
      requires control.world == world && control.Valid() && control.Me().pc == Opening && control.Me().call.None?
      modifies control, world, world.store
      ensures world.Onward()
      ensures r.Success? ==> control.Valid() && control.Me().pc == Finishing(r.value)
      ensures r.Failure? ==> control.Handling(r.error)
    {
      hide Deployment.Sound, Accounts;
      if control.state.finalResult.Some? {
        var a := control.state.finalResult.value;
        var ok := Revalidate(world.c, control.state, a);
        Reopen(control, a);
        return if ok then Success(a) else Failure(Breakdown);
      }
      var remaining, _ := control.Guard();
      if remaining.Failure? {
        control.Raise(remaining.error);
        return Failure(remaining.error);
      }
      var loop := new AgentLoop(control, outside);
      r := loop.Run();
    }

    method RecordLimits(control: ExecutionControl) returns (f: Option<Fault>)
      requires control.world == world && control.Valid() && control.Me().pc == Launching && control.Me().call.None?
      modifies control, world, world.store
      ensures world.Onward()
      ensures f.None? ==> control.Valid() && control.Me().pc == Opening && control.Me().call.None?
      ensures f.Some? ==> control.Handling(f.value)
    {
      f := control.Persist(control.state.(limits := Some(control.limits)), Go, control.Me().(pc := Opening), Nothing);
    }

    /** The step that takes up a stored final result. */
    ghost method Reopen(control: ExecutionControl, a: Decision)
      requires control.world == world && control.Valid() && control.Me().pc == Opening
      requires control.state.finalResult == Some(a)
      modifies world`system, world`path
      ensures world.Onward()
      ensures Backed(world.c, control.state, a) ==> control.Valid() && control.Me().pc == Finishing(a)
      ensures !Backed(world.c, control.state, a) ==> control.Handling(Breakdown)
    {
      world.Step(control.token, Go,
        if Backed(world.c, control.state, a) then control.Me().(pc := Finishing(a)) else Fail(control.Me(), Breakdown),
        Nothing);
    }

    /** Writes success and reads the run back: a cancellation that got in first wins. */
    method Conclude(control: ExecutionControl, answer: Decision) returns (f: Option<Fault>)
      requires control.world == world && control.Valid() && control.Me().pc == Finishing(answer)
      modifies world, world.store
      ensures world.Onward()
      ensures f.None? ==> world.Valid() && answer in world.system.log.answers
      ensures f.Some? ==> control.Handling(f.value)
    {
      ghost var me := control.Me();
      var written, _ := world.Finish(control.token, Succeeded, Some(answer), None, Go,
        me.(pc := Confirming(answer)), Fail(me, Breakdown));
      if !written {
        return Some(Breakdown);
      }
      var state := world.ReadBack(control.token);
      if state.Failure? {
        return Some(state.error);
      }
      if state.value == Cancelled {
        return Some(Cancellation);
      }
      return None;
    }

    /** The exception handler: the outcome depends on the fault and on what may still be running. */
    method Handle(control: ExecutionControl, f: Fault) returns (ghost end: Ending)
      requires control.world == world && control.Handling(f)
      modifies world, world.store
      ensures world.Onward()
      ensures world.Valid()
      ensures FailedAs(world, f, end) && end.token == control.token && world.Attempt(control.token).cp == control.state
    {
      ghost var me := control.Me();
      var outcome := OutcomeOf(f, control.state);
      var written, broke := world.Finish(control.token, outcome, None, Some("error"), Go, me.(pc := Raised), me.(pc := Raised));
      end := if written then Recorded(control.token) else Unrecorded(control.token, broke);
    }
  }

  // ------------------------------------------- what the program really does

  /** Tools that are not replay safe really run at most once for one decision, over all deliveries. */
  lemma ToolsRunAtMostOnce(world: Deployment, i: nat, j: nat)
    requires world.Valid() && i < j < |world.dispatched|
    requires Unsafe(world.c, world.dispatched[i].decision) || Unsafe(world.c, world.dispatched[j].decision)
    ensures world.dispatched[i].step != world.dispatched[j].step
  {
    SubmittedReaches(world.c, world.start, world.path, world.system);
    UnsafeToolRunsAtMostOnce(world.c, world.system, i, j);
  }

  /** The model is really invoked at most max_decisions times, over all deliveries. */
  lemma ModelInvokedWithinBudget(world: Deployment)
    requires world.Valid()
    ensures |world.invoked| <= world.c.job.maxDecisions
  {
    SubmittedReaches(world.c, world.start, world.path, world.system);
    InvocationsBounded(world.c, world.system, world.invoked);
  }

  lemma InvocationsBounded(c: Config, s: System, invoked: seq<Invocation>)
    requires ValidConfig(c) && Reachable(c, s) && OnRecord(s.log, invoked)
    ensures |invoked| <= c.job.maxDecisions
  {
    ReachableInv(c, s);
    var steps := seq(|invoked|, i requires 0 <= i < |invoked| => invoked[i].step);
    forall i | 0 <= i < |steps|
      ensures 1 <= steps[i] <= c.job.maxDecisions
    {
      assert GrantedTo(s.log, invoked[i].step, invoked[i].token);
    }
    DistinctBounded(steps, c.job.maxDecisions);
  }
}
