/**
 Every run of the whole system, seen from the store, is a life of one run row: each
 event is at most one store operation. So what holds of all lives holds of all
 attempts working, crashing and coming back together.
 */
module AgentLives {
  import opened Wrappers
  import opened AgentData
  import opened RunRecords
  import opened AgentMachine

  /** A refused guard changes nothing; it stands for time passing. */
  lemma Idle(p: StorePolicy, run: Run, before: Time, after: Time) returns (op: Op)
    requires before <= after
    ensures Apply(p, run, op) == run && Timely(op, before, after) && FreshToken(run, op)
  {
    var other: Token := if run.token == Some(0) then 1 else 0;
    op := Op.Guard(other, after, after);
  }

  lemma SaveIsOneOp(c: Config, s: System, w: Worker, cp: Checkpoint, next: Worker, note: Note, g: GetClock, fails: bool, after: Time)
    returns (op: Op)
    requires s.clock <= after && Timely(Op.Get(g), s.clock, after)
    ensures DoSave(c, s, w, cp, next, note, g, fails).run == Apply(c.policy, s.run, op)
    ensures Timely(op, s.clock, after) && FreshToken(s.run, op)
  {
    if fails {
      op := Idle(c.policy, s.run, s.clock, after);
    } else {
      op := Op.Save(w.token, cp, g.cancelRead, g.reviewRead);
    }
  }

  lemma CloseIsOneOp(c: Config, s: System, w: Worker, outcome: RunState, result: Option<Decision>, error: Option<string>,
    next: Worker, refused: Worker, g: GetClock, fails: bool, after: Time)
    returns (op: Op)
    requires s.clock <= after && Timely(Op.Get(g), s.clock, after)
    ensures DoClose(s, w, outcome, result, error, next, refused, g, fails).run == Apply(c.policy, s.run, op)
    ensures Timely(op, s.clock, after) && FreshToken(s.run, op)
  {
    if fails {
      op := Idle(c.policy, s.run, s.clock, after);
    } else {
      op := Op.Finish(w.token, outcome, result, error, g.cancelRead);
    }
  }

  lemma ConfirmIsOneOp(c: Config, s: System, w: Worker, g: GetClock, fails: bool, after: Time) returns (op: Op)
    requires s.clock <= after && Timely(Op.Get(g), s.clock, after) && w.pc.Confirming?
    ensures DoConfirm(s, w, g, fails).run == Apply(c.policy, s.run, op)
    ensures Timely(op, s.clock, after) && FreshToken(s.run, op)
  {
    if fails {
      op := Idle(c.policy, s.run, s.clock, after);
    } else {
      op := Op.Get(g);
    }
  }

  lemma ActIsOneOp(c: Config, s: System, w: Worker, x: Choice, g: GetClock, fails: bool, after: Time) returns (op: Op)
    requires s.clock <= after && Timely(Op.Get(g), s.clock, after)
    ensures DoAct(c, s, w, x, g, fails).run == Apply(c.policy, s.run, op)
    ensures Timely(op, s.clock, after) && FreshToken(s.run, op)
  {
    match Plan(c, w, x)
    case Persist(cp, next, note) => op := SaveIsOneOp(c, s, w, cp, next, note, g, fails, after);
    case Conclude(outcome, result, error, next, refused) =>
      op := CloseIsOneOp(c, s, w, outcome, result, error, next, refused, g, fails, after);
    case Move(_, _) => op := Idle(c.policy, s.run, s.clock, after);
    case Skip => op := Idle(c.policy, s.run, s.clock, after);
    case Confirm =>
      if w.pc.Confirming? {
        op := ConfirmIsOneOp(c, s, w, g, fails, after);
      } else {
        op := Idle(c.policy, s.run, s.clock, after);
      }
  }

  /** Whatever happens in the system, the store sees one operation. */
  lemma EventIsOneOp(c: Config, s: System, e: Event, after: Time) returns (op: Op)
    requires Possible(s, e, after)
    ensures Next(c, s, e).run == Apply(c.policy, s.run, op)
    ensures Timely(op, s.clock, after) && FreshToken(s.run, op)
  {
    match e
    case Start(read, token, settings) => op := Op.Claim(c.job, read, token);
    case Renew(k, t, u) => op := Op.Guard(k, t, u);
    case Outside(o) => op := o;
    case Act(k, x, g, fails) =>
      if k in s.workers {
        op := ActIsOneOp(c, s, s.workers[k], x, g, fails, after);
      } else {
        op := Idle(c.policy, s.run, s.clock, after);
      }
  }

  // ----------------------------------------------------------- lives of a system

  /** A life that ends where the system stands. */
  ghost predicate Tells(p: StorePolicy, l: Life, s: System) {
    && WholeLife(p, l)
    && l.runs[|l.ops|] == s.run
    && l.clocks[|l.ops|] == s.clock
  }

  predicate Continues(longer: Life, l: Life) {
    l.runs <= longer.runs && l.clocks <= longer.clocks && l.ops <= longer.ops
  }

  lemma {:induction false} LeadsTells(c: Config, l: Life, s: System, moments: seq<Moment>, t: System) returns (longer: Life)
    requires Tells(c.policy, l, s) && Leads(c, s, moments, t)
    ensures Tells(c.policy, longer, t) && Continues(longer, l)
    decreases |moments|
  {
    if moments == [] {
      longer := l;
    } else {
      var m := moments[|moments| - 1];
      var before: System :|
        Leads(c, s, moments[..|moments| - 1], before)
        && Possible(before, m.event, m.after)
        && t == Next(c, before, m.event).(clock := m.after);
      var told := LeadsTells(c, l, s, moments[..|moments| - 1], before);
      var op := EventIsOneOp(c, before, m.event, m.after);
      longer := LifeGoesOn(c.policy, told, op, m.after);
    }
  }

  lemma ReachableTells(c: Config, s: System) returns (l: Life)
    requires Reachable(c, s)
    ensures Tells(c.policy, l, s)
  {
    var duration: Time, key: Option<string>, clock: Time, moments: seq<Moment> :|
      Leads(c, Begin(c, duration, key, clock), moments, s);
    var start := Life([NewRun(c.job, duration, key)], [clock], []);
    assert WholeLife(c.policy, start);
    l := LeadsTells(c, start, Begin(c, duration, key, clock), moments, s);
  }

  // ------------------------------------------------- consequences for all attempts

  /**
   When the attempt that checkpointed an unsafe call is gone, its checkpoint is
   frozen whatever anybody does, no attempt ever starts again and the run does not
   succeed any more.
   */
  lemma StrandedRunIsOver(c: Config, s: System, moments: seq<Moment>, t: System)
    requires Reachable(c, s) && Leads(c, s, moments, t) && Stranded(s.run, s.clock)
    ensures Stranded(t.run, t.clock)
    ensures t.run.checkpoint == s.run.checkpoint && t.run.attempts == s.run.attempts
    ensures s.run.state != Succeeded ==> t.run.state != Succeeded
  {
    var l := ReachableTells(c, s);
    var longer := LeadsTells(c, l, s, moments, t);
    StrandedForever(c.policy, longer, |l.ops|, |longer.ops|);
  }

  /** Once cancellation is requested, no attempt starts, the checkpoint is frozen and the run never succeeds. */
  lemma CancelledRunIsOver(c: Config, s: System, moments: seq<Moment>, t: System)
    requires Reachable(c, s) && Leads(c, s, moments, t) && CancelBinds(s.run)
    ensures CancelBinds(t.run) && t.run.state != Succeeded
    ensures t.run.checkpoint == s.run.checkpoint && t.run.attempts == s.run.attempts && t.run.deadline == s.run.deadline
  {
    var l := ReachableTells(c, s);
    var longer := LeadsTells(c, l, s, moments, t);
    CancelForever(c.policy, longer, |l.ops|, |longer.ops|);
  }

  /** An attempt that lost its lease never gets it back: none of its later checkpoints or outcomes is stored. */
  lemma ZombieStaysZombie(c: Config, s: System, moments: seq<Moment>, t: System, token: Token, cp: Checkpoint,
    outcome: RunState, result: Option<Decision>, note: Option<string>, now: Time, later: Time)
    requires Reachable(c, s) && Leads(c, s, moments, t)
    requires Issued(s.run, token) && !Owns(s.run, token, s.clock)
    requires outcome !in {Queued, Running} && t.clock <= now <= later
    ensures !Owns(t.run, token, t.clock)
    ensures SaveRun(c.policy, t.run, token, cp, now, later) == Failure(LeaseLost)
    ensures FinishRun(t.run, token, outcome, result, note, now) == Failure(LeaseLost)
  {
    var l := ReachableTells(c, s);
    var longer := LeadsTells(c, l, s, moments, t);
    RefusedForever(c.policy, longer, token, |l.ops|, |longer.ops|);
    RefusalMeansNotOwner(c.policy, t.run, token, cp, outcome, result, note, now, later);
  }

  /** A settled run keeps its state, result, checkpoint, attempts and deadline. */
  lemma SettledRunStays(c: Config, s: System, moments: seq<Moment>, t: System)
    requires Reachable(c, s) && Leads(c, s, moments, t) && Terminal(s.run.state)
    ensures t.run.(published := s.run.published) == s.run
  {
    var l := ReachableTells(c, s);
    var longer := LeadsTells(c, l, s, moments, t);
    TerminalForever(c.policy, longer, |l.ops|, |longer.ops|);
  }
}
