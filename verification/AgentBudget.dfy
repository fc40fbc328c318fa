/** Budget conservation over all attempts of a run: the checkpoint's totals are the ledger's. */
module AgentBudget {
  import opened Wrappers
  import opened AgentData
  import opened Budget
  import opened RunRecords
  import opened AgentMachine
  import opened AgentInvariant
  import opened AgentSteps

  // ------------------------------------------------------------------ invariant

  predicate RecordedInv(cp: Checkpoint) {
    if cp.limits.None? then cp.recoveries == 0 else cp.recoveries <= cp.limits.value.maxRecoveries
  }

  predicate SpenderInv(w: Worker) {
    && ValidAllowance(w.allowance)
    && Within(w.allowance, w.limits)
    && (w.pc.Launching? ==> w.cp.limits.Some? ==> w.cp.limits.value == w.limits)
    && (!w.pc.Launching? ==> w.cp.limits == Some(w.limits))
    && RecordedInv(w.cp)
  }

  predicate CallOpen(ledger: seq<Charge>, w: Worker) {
    w.call.Some? ==>
      && w.call.value.entry < |ledger|
      && ledger[w.call.value.entry] == Charge(w.token, w.allowance.rates, w.call.value.input, w.call.value.output, None)
  }

  predicate BudgetInv(s: System) {
    && TotalsOf(s.run.checkpoint) == Total(s.log.ledger)
    && RecordedInv(s.run.checkpoint)
    && (s.run.checkpoint.limits.None? ==> s.log.ledger == [])
    && forall k :: k in s.workers ==> CallOpen(s.log.ledger, s.workers[k]) && (Active(s.workers[k]) ==> SpenderInv(s.workers[k]))
  }

  /** How a checkpoint written by a step relates to the one it replaces. */
  predicate SpendOk(w: Worker, cp: Checkpoint, note: Note) {
    match note
    case Charged(charge) =>
      && charge.payer == w.token && charge.reported.None? && w.cp.limits.Some?
      && TotalsOf(cp) == TotalsOf(Reserved(w.cp, charge.rates, charge.input, charge.output))
      && !Exceeds(w.allowance, cp.reservedTokens, cp.reservedCost)
    case Settled(i, input, output) =>
      && w.call.Some? && i == w.call.value.entry && w.cp.limits.Some?
      && TotalsOf(cp) == TotalsOf(Reconciled(w.cp, w.allowance.rates, input, output, w.call.value.input, w.call.value.output))
    case _ => TotalsOf(cp) == TotalsOf(w.cp)
  }

  predicate GoodSpending(w: Worker, a: Action) {
    match a
    case Persist(cp, next, note) =>
      && SpendOk(w, cp, note)
      && RecordedInv(cp)
      && next.token == w.token && next.limits == w.limits && next.allowance == w.allowance
      && (cp.limits == Some(w.limits))
      && (next.call == w.call || next.call.None?)
      && (note.Settled? ==> next.call.None?)
      && !next.pc.Launching?
      && (note.Charged? ==> note.charge.rates == w.allowance.rates)
    case Move(next, note) =>
      && !note.Charged? && !note.Settled?
      && next.token == w.token && next.limits == w.limits && next.allowance == w.allowance && next.cp == w.cp
      && (next.call == w.call || next.call.None?)
      && !next.pc.Launching?
      && (w.pc.Launching? ==> !Active(next))
      && (Active(next) ==> Active(w))
    case Conclude(_, _, _, next, refused) =>
      && !Active(next) && !Active(refused) && next.token == w.token && refused.token == w.token
      && next.call == w.call && refused.call == w.call && next.allowance == w.allowance && refused.allowance == w.allowance
    case Confirm => true
    case Skip => true
  }

  lemma PlanSpendingIsGood(w: Worker, x: Choice)
    requires x.Reserve? || x.Reconcile?
    requires SpenderInv(w) && (w.pc.InCall? || w.pc.Reviewing?)
    ensures GoodSpending(w, PlanSpending(w, x))
  {
  }

  lemma PlanRecoveryIsGood(w: Worker, notes: seq<Message>)
    requires SpenderInv(w) && w.pc.Recovering?
    ensures GoodSpending(w, PlanRecovery(w, notes))
  {
  }

  lemma OpeningSpendsNothing(c: Config, w: Worker, x: Choice)
    requires SpenderInv(w) && !x.Broke? && (w.pc.Launching? || w.pc.Opening? || w.pc.AtHead?)
    ensures GoodSpending(w, Plan(c, w, x))
  {
  }

  lemma AskingSpendsNothing(c: Config, w: Worker, x: Choice)
    requires SpenderInv(w) && !x.Broke? && (w.pc.Asking? || w.pc.Ready? || w.pc.Recording? || w.pc.Proposed?)
    ensures GoodSpending(w, Plan(c, w, x))
  {
  }

  lemma ChoosingSpendsNothing(c: Config, w: Worker, x: Choice)
    requires SpenderInv(w) && !x.Broke? && ((w.pc.InCall? && !x.Reserve? && !x.Reconcile?) || w.pc.Chosen?)
    ensures GoodSpending(w, Plan(c, w, x))
  {
  }

  lemma ToolSpendsNothing(c: Config, w: Worker, x: Choice)
    requires SpenderInv(w) && !x.Broke? && (w.pc.Dispatching?)
    ensures GoodSpending(w, Plan(c, w, x))
  {
  }

  lemma ReviewSpendsNothing(c: Config, w: Worker, x: Choice)
    requires SpenderInv(w) && !x.Broke? && ((w.pc.Reviewing? && !x.Reserve? && !x.Reconcile?) || w.pc.Reviewed?)
    ensures GoodSpending(w, Plan(c, w, x))
  {
  }

  lemma ClosingSpendsNothing(c: Config, w: Worker, x: Choice)
    requires SpenderInv(w) && !x.Broke? && (w.pc.Closing? || w.pc.Finishing?)
    ensures GoodSpending(w, Plan(c, w, x))
  {
  }

  lemma EndingSpendsNothing(c: Config, w: Worker, x: Choice)
    requires Active(w) ==> SpenderInv(w)
    requires x.Broke? || !Active(w)
    ensures GoodSpending(w, Plan(c, w, x))
  {
  }

  lemma PlanSpendsWell(c: Config, w: Worker, x: Choice)
    requires Active(w) ==> SpenderInv(w)
    ensures GoodSpending(w, Plan(c, w, x))
  {
    if x.Broke? || !Active(w) {
      EndingSpendsNothing(c, w, x);
    } else if (w.pc.InCall? || w.pc.Reviewing?) && (x.Reserve? || x.Reconcile?) {
      PlanSpendingIsGood(w, x);
    } else {
      match w.pc
      case Launching => OpeningSpendsNothing(c, w, x);
      case Opening => OpeningSpendsNothing(c, w, x);
      case AtHead => OpeningSpendsNothing(c, w, x);
      case Asking => AskingSpendsNothing(c, w, x);
      case Ready => AskingSpendsNothing(c, w, x);
      case Recording => AskingSpendsNothing(c, w, x);
      case Proposed(_) => AskingSpendsNothing(c, w, x);
      case InCall => ChoosingSpendsNothing(c, w, x);
      case Chosen(_) => ChoosingSpendsNothing(c, w, x);
      case Dispatching(_) => ToolSpendsNothing(c, w, x);
      case Recovering(notes) => PlanRecoveryIsGood(w, notes);
      case Reviewing(_) => ReviewSpendsNothing(c, w, x);
      case Reviewed(_, _) => ReviewSpendsNothing(c, w, x);
      case Closing(_) => ClosingSpendsNothing(c, w, x);
      case Finishing(_) => ClosingSpendsNothing(c, w, x);
      case _ => EndingSpendsNothing(c, w, x);
    }
  }

  // --------------------------------------------------------------- preservation

  lemma RowKeepsBudget(s: System, after: Run)
    requires BudgetInv(s) && after.checkpoint == s.run.checkpoint
    ensures BudgetInv(s.(run := after))
  {
  }

  lemma StartKeepsBudget(c: Config, s: System, read: Time, token: Token, settings: Settings)
    requires BudgetInv(s) && token !in s.workers
    ensures BudgetInv(DoStart(c, s, read, token, settings))
  {
    AllowanceIsTighter(RecordedLimits(s.run.checkpoint, settings), settings);
  }

  /** Replacing one attempt by another with the same open call, on an unchanged ledger. */
  lemma MoveKeepsBudget(s: System, w: Worker, next: Worker, note: Note)
    requires BudgetInv(s) && w.token in s.workers && s.workers[w.token] == w
    requires !note.Charged? && !note.Settled?
    requires next.token == w.token && next.allowance == w.allowance && (next.call == w.call || next.call.None?)
    requires Active(next) ==> SpenderInv(next)
    ensures BudgetInv(s.(workers := s.workers[w.token := next], log := Write(s.log, w.token, note)))
  {
    assert Write(s.log, w.token, note).ledger == s.log.ledger;
    assert CallOpen(s.log.ledger, w);
  }

  /** The ledger after a successful checkpoint matches it, and nobody else's open call moved. */
  lemma LedgerAfterSave(s: System, w: Worker, cp: Checkpoint, note: Note)
    requires BudgetInv(s) && w.token in s.workers && s.workers[w.token] == w
    requires s.run.checkpoint == w.cp && SpendOk(w, cp, note)
    ensures TotalsOf(cp) == Total(Write(s.log, w.token, note).ledger)
  {
    assert CallOpen(s.log.ledger, w);
    match note
    case Charged(charge) => ReserveConserves(w.cp, s.log.ledger, charge);
    case Settled(i, input, output) => ReconcileConserves(w.cp, s.log.ledger, i, input, output);
    case _ =>
  }

  lemma CallsAfterSave(s: System, w: Worker, note: Note, other: Token)
    requires BudgetInv(s) && w.token in s.workers && s.workers[w.token] == w
    requires other in s.workers && other != w.token && s.workers[other].token == other
    requires note.Settled? ==> w.call.Some? && note.entry == w.call.value.entry
    ensures CallOpen(Write(s.log, w.token, note).ledger, s.workers[other])
  {
    assert CallOpen(s.log.ledger, w) && CallOpen(s.log.ledger, s.workers[other]);
  }

  lemma SaveKeepsBudget(c: Config, s: System, w: Worker, cp: Checkpoint, next: Worker, note: Note, g: GetClock)
    requires SystemInv(c, s) && BudgetInv(s) && w.token in s.workers && s.workers[w.token] == w
    requires GoodSpending(w, Persist(cp, next, note)) && Active(w)
    requires SaveRun(c.policy, s.run, w.token, cp, g.cancelRead, g.reviewRead).Success?
    ensures BudgetInv(DoSave(c, s, w, cp, next, note, g, false))
  {
    var t := DoSave(c, s, w, cp, next, note, g, false);
    assert WorkerInv(c, s.run, s.log, w.token, w);
    LedgerAfterSave(s, w, cp, note);
    SavedCall(s.log, w, next.(cp := cp), note);
    forall other | other in t.workers && other != w.token
      ensures CallOpen(t.log.ledger, t.workers[other])
    {
      assert WorkerInv(c, s.run, s.log, other, s.workers[other]);
      CallsAfterSave(s, w, note, other);
    }
  }

  lemma SavedCall(log: Log, w: Worker, next: Worker, note: Note)
    requires CallOpen(log.ledger, w)
    requires next.token == w.token && next.allowance == w.allowance && (next.call == w.call || next.call.None?)
    requires note.Settled? ==> next.call.None?
    requires note.Charged? ==>
      note.charge == Charge(w.token, w.allowance.rates, note.charge.input, note.charge.output, None)
    ensures CallOpen(Write(log, w.token, note).ledger, Stamp(log, next, note))
  {
  }

  lemma ActKeepsBudget(c: Config, s: System, k: Token, x: Choice, g: GetClock, fails: bool)
    requires SystemInv(c, s) && BudgetInv(s) && k in s.workers
    ensures BudgetInv(DoAct(c, s, s.workers[k], x, g, fails))
  {
    hide Plan, PcInv, CheckpointInv, LogInv, AnswerInv, RunInv;
    var w := s.workers[k];
    assert WorkerInv(c, s.run, s.log, k, w);
    PlanSpendsWell(c, w, x);
    match Plan(c, w, x)
    case Persist(cp, next, note) =>
      var r := SaveRun(c.policy, s.run, w.token, cp, g.cancelRead, g.reviewRead);
      if fails {
        MoveKeepsBudget(s, w, w.(cp := cp, pc := Raising(Breakdown)), Nothing);
      } else if r.Failure? {
        MoveKeepsBudget(s, w, w.(cp := cp, pc := Raising(FaultOf(r.error))), Nothing);
      } else {
        PersistMeansActive(c, w, x);
        SaveKeepsBudget(c, s, w, cp, next, note, g);
      }
    case Move(next, note) => MoveKeepsBudget(s, w, next, note);
    case Conclude(outcome, result, error, next, refused) =>
      MoveKeepsBudget(s, w, next, Nothing);
      MoveKeepsBudget(s, w, refused, Nothing);
    case Confirm =>
      if w.pc.Confirming? {
        ConfirmKeepsBudget(s, w, g, fails);
      }
    case Skip =>
  }

  lemma ConfirmKeepsBudget(s: System, w: Worker, g: GetClock, fails: bool)
    requires BudgetInv(s) && w.token in s.workers && s.workers[w.token] == w && w.pc.Confirming?
    ensures BudgetInv(DoConfirm(s, w, g, fails))
  {
    hide GetRun, RecordedInv, SpenderInv;
    GetKeepsCheckpoint(s.run, g);
    assert CallOpen(s.log.ledger, w);
  }

  lemma GetKeepsCheckpoint(run: Run, g: GetClock)
    ensures GetRun(run, g).checkpoint == run.checkpoint
  {
  }

  lemma NextKeepsBudget(c: Config, s: System, e: Event, after: Time)
    requires SystemInv(c, s) && BudgetInv(s) && Possible(s, e, after)
    ensures BudgetInv(Next(c, s, e).(clock := after))
  {
    match e
    case Start(read, token, settings) => StartKeepsBudget(c, s, read, token, settings);
    case Act(k, x, g, fails) => if k in s.workers { ActKeepsBudget(c, s, k, x, g, fails); }
    case Renew(k, t, u) =>
      PublicOpKeepsRow(c.policy, s.run, Op.Guard(k, t, u));
      RowKeepsBudget(s, Apply(c.policy, s.run, Op.Guard(k, t, u)));
    case Outside(op) =>
      PublicOpKeepsRow(c.policy, s.run, op);
      RowKeepsBudget(s, Apply(c.policy, s.run, op));
  }

  lemma {:induction false} LeadsKeepsBudget(c: Config, s: System, moments: seq<Moment>, t: System)
    requires ValidConfig(c) && SystemInv(c, s) && BudgetInv(s) && Leads(c, s, moments, t)
    ensures SystemInv(c, t) && BudgetInv(t)
    decreases |moments|
  {
    if moments == [] {
    } else {
      var m := moments[|moments| - 1];
      var before: System :|
        Leads(c, s, moments[..|moments| - 1], before)
        && Possible(before, m.event, m.after)
        && t == Next(c, before, m.event).(clock := m.after);
      LeadsKeepsBudget(c, s, moments[..|moments| - 1], before);
      NextKeepsInv(c, before, m.event, m.after);
      NextKeepsBudget(c, before, m.event, m.after);
    }
  }

  lemma ReachableBudget(c: Config, s: System)
    requires ValidConfig(c) && Reachable(c, s)
    ensures SystemInv(c, s) && BudgetInv(s)
  {
    var duration: Time, key: Option<string>, clock: Time, moments: seq<Moment> :|
      Leads(c, Begin(c, duration, key, clock), moments, s);
    BeginInv(c, duration, key, clock);
    LeadsKeepsBudget(c, Begin(c, duration, key, clock), moments, s);
  }

  // ------------------------------------------------------------------- theorems

  /**
   The durable totals are the sum over all admitted calls of all attempts, each
   counted per component at the larger of reserved and reported, and they bound
   all usage reported.
   */
  lemma BudgetConservation(c: Config, s: System)
    requires ValidConfig(c) && Reachable(c, s)
    ensures TotalsOf(s.run.checkpoint) == Total(s.log.ledger)
    ensures s.run.checkpoint.reportedInput + s.run.checkpoint.reportedOutput <= s.run.checkpoint.reservedTokens
    ensures forall i :: 0 <= i < |s.log.ledger| ==>
      ChargedInput(s.log.ledger[i]) + ChargedOutput(s.log.ledger[i]) <= s.run.checkpoint.reservedTokens
  {
    ReachableBudget(c, s);
    ReservedBoundsReported(s.log.ledger);
    forall i | 0 <= i < |s.log.ledger|
      ensures ChargedInput(s.log.ledger[i]) + ChargedOutput(s.log.ledger[i]) <= s.run.checkpoint.reservedTokens
    {
      TotalCoversEntry(s.log.ledger, i);
    }
  }

  /** Recoveries over all attempts stay within the limit the first attempt recorded. */
  lemma RecoveriesBounded(c: Config, s: System)
    requires ValidConfig(c) && Reachable(c, s)
    ensures var cp := s.run.checkpoint;
      if cp.limits.None? then cp.recoveries == 0 && s.log.ledger == []
      else cp.recoveries <= cp.limits.value.maxRecoveries
  {
    ReachableBudget(c, s);
  }

  /** Recorded limits are never rewritten with other values, and the ledger only grows. */
  lemma LimitsWrittenOnce(c: Config, s: System, e: Event, after: Time)
    requires ValidConfig(c) && Reachable(c, s) && Possible(s, e, after)
    ensures var t := Next(c, s, e).(clock := after);
      && (s.run.checkpoint.limits.Some? ==> t.run.checkpoint.limits == s.run.checkpoint.limits)
      && |s.log.ledger| <= |t.log.ledger|
  {
    ReachableBudget(c, s);
    match e
    case Start(_, _, _) =>
    case Renew(k, t, u) => PublicOpKeepsRow(c.policy, s.run, Op.Guard(k, t, u));
    case Outside(op) => PublicOpKeepsRow(c.policy, s.run, op);
    case Act(k, x, g, fails) =>
      if k in s.workers {
        ActKeepsLimits(c, s, s.workers[k], x, g, fails);
      }
  }

  lemma ActKeepsLimits(c: Config, s: System, w: Worker, x: Choice, g: GetClock, fails: bool)
    requires SystemInv(c, s) && BudgetInv(s) && w.token in s.workers && s.workers[w.token] == w
    ensures var t := DoAct(c, s, w, x, g, fails);
      && (s.run.checkpoint.limits.Some? ==> t.run.checkpoint.limits == s.run.checkpoint.limits)
      && |s.log.ledger| <= |t.log.ledger|
      && (|s.log.ledger| < |t.log.ledger| ==> Admitted(t.run.checkpoint))
  {
    assert WorkerInv(c, s.run, s.log, w.token, w);
    PlanSpendsWell(c, w, x);
    var a := Plan(c, w, x);
    if a.Persist? {
      PersistMeansActive(c, w, x);
      SaveKeepsLimits(c, s, w, a.cp, a.next, a.note, g, fails);
    } else {
      OtherActionsKeepLimits(c, s, w, x, g, fails);
    }
  }

  /** A checkpoint right after an admitted reservation. */
  predicate Admitted(cp: Checkpoint) {
    && cp.limits.Some?
    && cp.reservedTokens <= cp.limits.value.maxTokens
    && (cp.limits.value.maxCost.Some? ==> cp.reservedCost <= cp.limits.value.maxCost.value)
  }

  lemma SaveKeepsLimits(c: Config, s: System, w: Worker, cp: Checkpoint, next: Worker, note: Note, g: GetClock, fails: bool)
    requires SystemInv(c, s) && BudgetInv(s) && w.token in s.workers && s.workers[w.token] == w
    requires Active(w) && GoodSpending(w, Persist(cp, next, note))
    ensures var t := DoSave(c, s, w, cp, next, note, g, fails);
      && (s.run.checkpoint.limits.Some? ==> t.run.checkpoint.limits == s.run.checkpoint.limits)
      && |s.log.ledger| <= |t.log.ledger|
      && (|s.log.ledger| < |t.log.ledger| ==> Admitted(t.run.checkpoint))
  {
    assert WorkerInv(c, s.run, s.log, w.token, w);
    assert SpenderInv(w);
  }

  lemma OtherActionsKeepLimits(c: Config, s: System, w: Worker, x: Choice, g: GetClock, fails: bool)
    requires GoodSpending(w, Plan(c, w, x)) && !Plan(c, w, x).Persist?
    ensures var t := DoAct(c, s, w, x, g, fails);
      t.run.checkpoint == s.run.checkpoint && t.log.ledger == s.log.ledger
  {
  }

  /** Right after any admitted reservation the totals are within the first attempt's recorded limits. */
  lemma ReservationsAdmitted(c: Config, s: System, e: Event, after: Time)
    requires ValidConfig(c) && Reachable(c, s) && Possible(s, e, after)
    requires |Next(c, s, e).log.ledger| > |s.log.ledger|
    ensures Admitted(Next(c, s, e).run.checkpoint)
    ensures Total(Next(c, s, e).log.ledger).tokens <= Next(c, s, e).run.checkpoint.limits.value.maxTokens
  {
    ReachableBudget(c, s);
    NextKeepsBudget(c, s, e, after);
    if e.Act? && e.token in s.workers {
      ActKeepsLimits(c, s, s.workers[e.token], e.choice, e.clock, e.storageFails);
    }
  }

  /** The recorded limits have been overrun by reported usage. */
  predicate Overrun(cp: Checkpoint) {
    cp.limits.Some? && !Admitted(cp)
  }

  lemma CostSign(rates: Rates, input: nat, output: nat)
    requires rates.Some? ==> rates.value.0 >= 0.0 && rates.value.1 >= 0.0
    ensures Cost(rates, input, output) >= 0.0
  {
    if rates.Some? {
      Sign(input as real, rates.value.0);
      Sign(output as real, rates.value.1);
    }
  }

  lemma Sign(a: real, b: real)
    requires a >= 0.0 && b >= 0.0
    ensures a * b >= 0.0
  {
  }

  /** Totals never go down. */
  lemma SpendingOnlyAdds(w: Worker, cp: Checkpoint, note: Note)
    requires SpenderInv(w) && SpendOk(w, cp, note)
    requires note.Charged? ==> note.charge.rates == w.allowance.rates
    ensures w.cp.reservedTokens <= cp.reservedTokens && w.cp.reservedCost <= cp.reservedCost
  {
    match note
    case Charged(charge) => CostSign(charge.rates, charge.input, charge.output);
    case Settled(_, input, output) =>
      CostSign(w.allowance.rates, Excess(input, w.call.value.input), Excess(output, w.call.value.output));
    case _ =>
  }

  lemma OverrunSave(c: Config, s: System, w: Worker, cp: Checkpoint, next: Worker, note: Note, g: GetClock, fails: bool)
    requires SystemInv(c, s) && BudgetInv(s) && w.token in s.workers && s.workers[w.token] == w
    requires Active(w) && GoodSpending(w, Persist(cp, next, note))
    requires Overrun(s.run.checkpoint)
    ensures Overrun(DoSave(c, s, w, cp, next, note, g, fails).run.checkpoint)
  {
    assert WorkerInv(c, s.run, s.log, w.token, w);
    SpendingOnlyAdds(w, cp, note);
    SaveKeepsLimits(c, s, w, cp, next, note, g, fails);
  }

  lemma OverrunAct(c: Config, s: System, w: Worker, x: Choice, g: GetClock, fails: bool)
    requires SystemInv(c, s) && BudgetInv(s) && w.token in s.workers && s.workers[w.token] == w
    requires Overrun(s.run.checkpoint)
    ensures Overrun(DoAct(c, s, w, x, g, fails).run.checkpoint)
    ensures |DoAct(c, s, w, x, g, fails).log.ledger| == |s.log.ledger|
  {
    PlanSpendsWell(c, w, x);
    ActKeepsLimits(c, s, w, x, g, fails);
    var a := Plan(c, w, x);
    if a.Persist? {
      PersistMeansActive(c, w, x);
      OverrunSave(c, s, w, a.cp, a.next, a.note, g, fails);
    } else {
      OtherActionsKeepLimits(c, s, w, x, g, fails);
    }
  }

  lemma OverrunStep(c: Config, s: System, e: Event)
    requires SystemInv(c, s) && BudgetInv(s) && Overrun(s.run.checkpoint)
    requires e.Outside? ==> e.op.Cancel? || e.op.Resume? || e.op.Get? || e.op.Publish?
    ensures Overrun(Next(c, s, e).run.checkpoint)
    ensures |Next(c, s, e).log.ledger| == |s.log.ledger|
  {
    match e
    case Start(_, _, _) =>
    case Renew(k, t, u) => PublicOpKeepsRow(c.policy, s.run, Op.Guard(k, t, u));
    case Outside(op) => PublicOpKeepsRow(c.policy, s.run, op);
    case Act(k, x, g, fails) =>
      if k in s.workers {
        assert WorkerInv(c, s.run, s.log, k, s.workers[k]);
        OverrunAct(c, s, s.workers[k], x, g, fails);
      }
  }

  lemma {:induction false} OverrunForever(c: Config, s: System, moments: seq<Moment>, t: System)
    requires ValidConfig(c) && SystemInv(c, s) && BudgetInv(s) && Leads(c, s, moments, t)
    requires Overrun(s.run.checkpoint)
    ensures SystemInv(c, t) && BudgetInv(t)
    ensures Overrun(t.run.checkpoint) && |t.log.ledger| == |s.log.ledger|
    decreases |moments|
  {
    if moments == [] {
    } else {
      var m := moments[|moments| - 1];
      var before: System :|
        Leads(c, s, moments[..|moments| - 1], before)
        && Possible(before, m.event, m.after)
        && t == Next(c, before, m.event).(clock := m.after);
      OverrunForever(c, s, moments[..|moments| - 1], before);
      NextKeepsInv(c, before, m.event, m.after);
      NextKeepsBudget(c, before, m.event, m.after);
      OverrunStep(c, before, m.event);
    }
  }

  /** Once reported usage has overrun the recorded limits, no attempt is ever admitted another reservation. */
  lemma OverrunAdmitsNothing(c: Config, s: System, moments: seq<Moment>, t: System)
    requires ValidConfig(c) && Reachable(c, s) && Leads(c, s, moments, t)
    requires Overrun(s.run.checkpoint)
    ensures Overrun(t.run.checkpoint) && |t.log.ledger| == |s.log.ledger|
  {
    ReachableBudget(c, s);
    OverrunForever(c, s, moments, t);
  }
}
