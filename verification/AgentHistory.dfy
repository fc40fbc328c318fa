/**
 Systems in time: which system is later than which, and what a later one still
 holds. The log only ever grows, so what an attempt was granted, what the model
 was asked and which tools ran can be read off any later system.
 */
module AgentHistory {
  import opened Wrappers
  import opened AgentData
  import opened RunRecords
  import opened AgentMachine
  import opened AgentInvariant
  import opened AgentSteps
  import opened AgentLives

  /** Some events lead from one system to the other. */
  ghost predicate Later(c: Config, s: System, t: System) {
    exists moments: seq<Moment> :: Leads(c, s, moments, t)
  }

  /** A submission nobody has claimed yet. */
  ghost predicate Submitted(c: Config, s: System) {
    exists duration: Time, key: Option<string>, clock: Time :: s == Begin(c, duration, key, clock)
  }

  lemma LeadsOn(c: Config, start: System, moments: seq<Moment>, s: System, m: Moment)
    requires Leads(c, start, moments, s) && Possible(s, m.event, m.after)
    ensures Leads(c, start, moments + [m], Next(c, s, m.event).(clock := m.after))
  {
    hide Next, Possible;
    var longer := moments + [m];
    assert longer[..|longer| - 1] == moments && longer[|longer| - 1] == m;
  }

  /** The same events from the same system lead to the same system. */
  lemma {:induction false} LeadsUnique(c: Config, start: System, moments: seq<Moment>, s: System, t: System)
    requires Leads(c, start, moments, s) && Leads(c, start, moments, t)
    ensures s == t
    decreases |moments|
  {
    if moments == [] {
      assert s == start == t;
    } else {
      var m := moments[|moments| - 1];
      var a: System :|
        Leads(c, start, moments[..|moments| - 1], a)
        && Possible(a, m.event, m.after)
        && s == Next(c, a, m.event).(clock := m.after);
      var b: System :|
        Leads(c, start, moments[..|moments| - 1], b)
        && Possible(b, m.event, m.after)
        && t == Next(c, b, m.event).(clock := m.after);
      LeadsUnique(c, start, moments[..|moments| - 1], a, b);
    }
  }

  /** A system told by more events of one history is later than one told by fewer. */
  lemma {:induction false} MoreIsLater(c: Config, start: System, few: seq<Moment>, s: System, many: seq<Moment>, t: System)
    requires Leads(c, start, few, s) && Leads(c, start, many, t) && few <= many
    ensures Later(c, s, t)
    decreases |many|
  {
    if |few| == |many| {
      assert few == many;
      LeadsUnique(c, start, few, s, t);
      assert Leads(c, s, [], t);
    } else {
      var m := many[|many| - 1];
      var before: System :|
        Leads(c, start, many[..|many| - 1], before)
        && Possible(before, m.event, m.after)
        && t == Next(c, before, m.event).(clock := m.after);
      MoreIsLater(c, start, few, s, many[..|many| - 1], before);
      var moments: seq<Moment> :| Leads(c, s, moments, before);
      LeadsOn(c, s, moments, before, m);
    }
  }

  lemma {:induction false} LeadsJoin(c: Config, s: System, first: seq<Moment>, t: System, rest: seq<Moment>, u: System)
    requires Leads(c, s, first, t) && Leads(c, t, rest, u)
    ensures Leads(c, s, first + rest, u)
    decreases |rest|
  {
    hide Next, Possible;
    if rest == [] {
      assert first + rest == first;
    } else {
      var init, m := rest[..|rest| - 1], rest[|rest| - 1];
      var before: System :|
        Leads(c, t, init, before) && Possible(before, m.event, m.after) && u == Next(c, before, m.event).(clock := m.after);
      LeadsJoin(c, s, first, t, init, before);
      LeadsOn(c, s, first + init, before, m);
      assert first + init + [m] == first + rest;
    }
  }

  lemma LaterSelf(c: Config, s: System)
    ensures Later(c, s, s)
  {
    assert Leads(c, s, [], s);
  }

  lemma LaterOn(c: Config, s: System, t: System, u: System)
    requires Later(c, s, t) && Later(c, t, u)
    ensures Later(c, s, u)
  {
    var first: seq<Moment> :| Leads(c, s, first, t);
    var rest: seq<Moment> :| Leads(c, t, rest, u);
    LeadsJoin(c, s, first, t, rest, u);
  }

  lemma SubmittedReaches(c: Config, start: System, moments: seq<Moment>, s: System)
    requires Submitted(c, start) && Leads(c, start, moments, s)
    ensures Reachable(c, s)
  {
    var duration: Time, key: Option<string>, clock: Time :| start == Begin(c, duration, key, clock);
    assert Leads(c, Begin(c, duration, key, clock), moments, s);
  }

  // ------------------------------------------------------------ holders of numbers

  /** Only attempts that were started hold decision numbers. */
  predicate Held(s: System) {
    forall n :: n in s.log.granted ==> s.log.granted[n] in s.workers
  }

  lemma WriteHeld(log: Log, workers: map<Token, Worker>, token: Token, note: Note)
    requires token in workers && forall n :: n in log.granted ==> log.granted[n] in workers
    ensures forall n :: n in Write(log, token, note).granted ==> Write(log, token, note).granted[n] in workers
  {
  }

  lemma EventKeepsHeld(c: Config, s: System, e: Event)
    requires Held(s) && forall k :: k in s.workers ==> s.workers[k].token == k
    ensures Held(Next(c, s, e))
  {
    match e
    case Act(k, x, g, fails) =>
      if k in s.workers {
        match Plan(c, s.workers[k], x)
        case Persist(cp, next, note) => WriteHeld(s.log, s.workers, k, note);
        case Move(next, note) => WriteHeld(s.log, s.workers, k, note);
        case _ =>
      }
    case _ =>
  }

  lemma {:induction false} HoldersExist(c: Config, start: System, moments: seq<Moment>, t: System)
    requires ValidConfig(c) && Submitted(c, start) && Leads(c, start, moments, t)
    ensures Held(t)
    decreases |moments|
  {
    if moments == [] {
      assert t == start;
    } else {
      var m := moments[|moments| - 1];
      var before: System :|
        Leads(c, start, moments[..|moments| - 1], before)
        && Possible(before, m.event, m.after)
        && t == Next(c, before, m.event).(clock := m.after);
      HoldersExist(c, start, moments[..|moments| - 1], before);
      SubmittedReaches(c, start, moments[..|moments| - 1], before);
      ReachableInv(c, before);
      forall k | k in before.workers
        ensures before.workers[k].token == k
      {
        assert WorkerInv(c, before.run, before.log, k, before.workers[k]);
      }
      EventKeepsHeld(c, before, m.event);
    }
  }

  // --------------------------------------------------------------- the log grows

  predicate Recalls(later: Log, log: Log) {
    && log.calls <= later.calls
    && log.dispatches <= later.dispatches
    && log.answers <= later.answers
    && forall n :: n in log.granted ==> n in later.granted && later.granted[n] == log.granted[n]
  }

  lemma RecallsOn(a: Log, b: Log, d: Log)
    requires Recalls(b, a) && Recalls(d, b)
    ensures Recalls(d, a)
  {
  }

  lemma WriteRecalls(log: Log, token: Token, note: Note)
    requires note.Granted? ==> note.step !in log.granted
    ensures Recalls(Write(log, token, note), log)
  {
  }

  /** A granted number is new: only the owner's checkpoint grants, and it is the stored one. */
  lemma GrantsAreNew(c: Config, s: System, w: Worker, x: Choice, g: GetClock)
    requires ValidConfig(c) && SystemInv(c, s) && w.token in s.workers && s.workers[w.token] == w
    requires Plan(c, w, x).Persist? && Plan(c, w, x).note.Granted?
    requires SaveRun(c.policy, s.run, w.token, Plan(c, w, x).cp, g.cancelRead, g.reviewRead).Success?
    ensures Plan(c, w, x).note.step !in s.log.granted
  {
    assert WorkerInv(c, s.run, s.log, w.token, w);
    GrantingIsAsking(c, w, x);
    assert w.at.step == w.cp.decisions + 1 && s.run.checkpoint == w.cp;
  }

  lemma GrantingIsAsking(c: Config, w: Worker, x: Choice)
    requires Plan(c, w, x).Persist? && Plan(c, w, x).note.Granted?
    ensures w.pc.Asking? && Plan(c, w, x).note.step == w.at.step
  {
  }

  lemma MovesGrantNothing(c: Config, w: Worker, x: Choice)
    requires Plan(c, w, x).Move?
    ensures !Plan(c, w, x).note.Granted?
  {
  }

  lemma ActRecalls(c: Config, s: System, w: Worker, x: Choice, g: GetClock, fails: bool)
    requires ValidConfig(c) && SystemInv(c, s) && w.token in s.workers && s.workers[w.token] == w
    ensures Recalls(DoAct(c, s, w, x, g, fails).log, s.log)
  {
    var a := Plan(c, w, x);
    match a
    case Persist(cp, next, note) =>
      if !fails && SaveRun(c.policy, s.run, w.token, cp, g.cancelRead, g.reviewRead).Success? {
        if note.Granted? {
          GrantsAreNew(c, s, w, x, g);
        }
        WriteRecalls(s.log, w.token, note);
      }
    case Move(next, note) =>
      MovesGrantNothing(c, w, x);
      WriteRecalls(s.log, w.token, note);
    case _ =>
  }

  lemma EventRecalls(c: Config, s: System, e: Event)
    requires ValidConfig(c) && SystemInv(c, s)
    ensures Recalls(Next(c, s, e).log, s.log)
  {
    match e
    case Act(k, x, g, fails) =>
      if k in s.workers {
        assert WorkerInv(c, s.run, s.log, k, s.workers[k]);
        ActRecalls(c, s, s.workers[k], x, g, fails);
      }
    case Start(read, token, settings) =>
    case _ =>
  }

  /** Whatever was granted, asked, run or answered stays on record. */
  lemma {:induction false} LogOnlyGrows(c: Config, s: System, moments: seq<Moment>, t: System)
    requires ValidConfig(c) && SystemInv(c, s) && Leads(c, s, moments, t)
    ensures SystemInv(c, t) && Recalls(t.log, s.log)
    decreases |moments|
  {
    if moments == [] {
      assert s == t;
    } else {
      var m := moments[|moments| - 1];
      var before: System :|
        Leads(c, s, moments[..|moments| - 1], before)
        && Possible(before, m.event, m.after)
        && t == Next(c, before, m.event).(clock := m.after);
      LogOnlyGrows(c, s, moments[..|moments| - 1], before);
      EventRecalls(c, before, m.event);
      NextKeepsInv(c, before, m.event, m.after);
      RecallsOn(s.log, before.log, t.log);
    }
  }

  /** What every later system still holds: the record of this one, and its result once it succeeded. */
  lemma LaterRemembers(c: Config, s: System, t: System)
    requires ValidConfig(c) && Reachable(c, s) && Later(c, s, t)
    ensures Recalls(t.log, s.log)
    ensures Terminal(s.run.state) ==> t.run.(published := s.run.published) == s.run
  {
    ReachableInv(c, s);
    var moments: seq<Moment> :| Leads(c, s, moments, t);
    LogOnlyGrows(c, s, moments, t);
    if Terminal(s.run.state) {
      SettledRunStays(c, s, moments, t);
    }
  }
}
