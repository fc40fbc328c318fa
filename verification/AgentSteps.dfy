/** Every event keeps the system invariant, and with it every reachable system has it. */
module AgentSteps {
  import opened Wrappers
  import opened AgentData
  import opened Budget
  import opened RunRecords
  import opened AgentMachine
  import opened AgentInvariant

  /** What a row-level operation must leave alone for the attempts to stay in step with it. */
  predicate RowKeeps(before: Run, after: Run) {
    && after.job == before.job
    && after.checkpoint == before.checkpoint
    && Extends(after.history, before.history)
    && (after.state == Succeeded <==> before.state == Succeeded)
    && (before.state in {Succeeded, Cancelled} ==> after.state == before.state && after.result == before.result)
    && (after.state == Running ==> before.state == Running && after.token == before.token)
  }

  lemma IssuedKeeps(before: seq<Attempt>, after: seq<Attempt>, k: Token)
    requires Extends(after, before)
    requires exists i :: 0 <= i < |before| && before[i].token == k
    ensures exists i :: 0 <= i < |after| && after[i].token == k
  {
    var i :| 0 <= i < |before| && before[i].token == k;
    assert after[i].token == k;
  }

  lemma WorkerKeepsRow(c: Config, before: Run, after: Run, log: Log, k: Token, w: Worker)
    requires WorkerInv(c, before, log, k, w) && RowKeeps(before, after)
    ensures WorkerInv(c, after, log, k, w)
  {
    IssuedKeeps(before.history, after.history, k);
  }

  lemma RowKeepsInv(c: Config, s: System, after: Run)
    requires SystemInv(c, s) && RunInv(c.policy, after) && RowKeeps(s.run, after)
    ensures SystemInv(c, s.(run := after))
  {
    forall k | k in s.workers
      ensures WorkerInv(c, after, s.log, k, s.workers[k])
    {
      WorkerKeepsRow(c, s.run, after, s.log, k, s.workers[k]);
    }
    AnswersKeepRow(s.run, after, s.log);
  }

  lemma AnswersKeepRow(before: Run, after: Run, log: Log)
    requires AnswerInv(before, log) && RowKeeps(before, after)
    ensures AnswerInv(after, log)
  {
  }

  /** Requests from outside and lease renewals touch no checkpoint and hand the lease to nobody. */
  lemma PublicOpKeepsRow(p: StorePolicy, run: Run, op: Op)
    requires op.Cancel? || op.Resume? || op.Get? || op.Publish? || op.Guard?
    ensures RowKeeps(run, Apply(p, run, op))
  {
    ApplyExtendsHistory(p, run, op);
  }

  lemma PublicOpKeepsInv(c: Config, s: System, op: Op)
    requires SystemInv(c, s) && (op.Cancel? || op.Resume? || op.Get? || op.Publish? || op.Guard?)
    ensures SystemInv(c, s.(run := Apply(c.policy, s.run, op)))
  {
    ApplyKeepsInv(c.policy, s.run, op);
    PublicOpKeepsRow(c.policy, s.run, op);
    RowKeepsInv(c, s, Apply(c.policy, s.run, op));
  }

  // ----------------------------------------------------------------- claiming

  lemma NewWorkerInv(c: Config, run: Run, log: Log, token: Token, settings: Settings)
    requires CheckpointInv(c, log.learned, run.checkpoint) && !UnsafePending(run.checkpoint)
    requires Issued(run, token)
    ensures WorkerInv(c, run, log, token, NewWorker(run, token, settings))
  {
  }

  lemma ClaimKeepsWorker(c: Config, before: Run, after: Run, log: Log, k: Token, w: Worker, token: Token)
    requires WorkerInv(c, before, log, k, w) && k != token
    requires before.state !in {Succeeded, Cancelled} && after.state == Running && after.token == Some(token)
    requires Extends(after.history, before.history)
    ensures WorkerInv(c, after, log, k, w)
  {
    IssuedKeeps(before.history, after.history, k);
  }

  lemma StartKeepsInv(c: Config, s: System, read: Time, token: Token, settings: Settings)
    requires SystemInv(c, s) && !Issued(s.run, token) && token !in s.workers
    ensures SystemInv(c, DoStart(c, s, read, token, settings))
  {
    var op := Op.Claim(c.job, read, token);
    var r := ClaimRun(c.policy, s.run, c.job, read, token);
    var t := DoStart(c, s, read, token, settings);
    if r.Success? && s.run.state != Succeeded {
      assert Apply(c.policy, s.run, op) == r.value;
      ApplyKeepsInv(c.policy, s.run, op);
      ApplyExtendsHistory(c.policy, s.run, op);
      assert r.value.history[s.run.attempts].token == token;
      NewWorkerInv(c, r.value, s.log, token, settings);
      forall k | k in t.workers
        ensures WorkerInv(c, t.run, t.log, k, t.workers[k])
      {
        if k != token {
          ClaimKeepsWorker(c, s.run, t.run, s.log, k, s.workers[k], token);
        }
      }
    } else {
      AnsweredKeepsInv(c, s, t);
    }
  }

  lemma AnsweredKeepsInv(c: Config, s: System, t: System)
    requires SystemInv(c, s) && t.run == s.run && t.workers == s.workers
    requires t.log == s.log || (s.run.state == Succeeded && s.run.result.Some?
      && t.log == s.log.(answers := s.log.answers + [s.run.result.value]))
    ensures SystemInv(c, t)
  {
    forall k | k in t.workers
      ensures WorkerInv(c, t.run, t.log, k, t.workers[k])
    {
      assert WorkerInv(c, s.run, s.log, k, s.workers[k]);
      SameLogForWorker(c, s.log, t.log, s.workers[k]);
    }
  }

  /** Answers handed out are no concern of an attempt. */
  lemma SameLogForWorker(c: Config, log: Log, other: Log, w: Worker)
    requires other.(answers := log.answers) == log
    ensures PcInv(c, log, w) <==> PcInv(c, other, w)
  {
  }

  // ------------------------------------------------------------ attempt steps

  lemma StepIsStepping(c: Config, s: System, k: Token)
    requires ValidConfig(c) && SystemInv(c, s) && k in s.workers
    ensures Stepping(c, s.log, s.workers[k])
    ensures s.run.checkpoint == s.workers[k].cp ==> UpToDate(s.log, s.workers[k])
  {
    assert WorkerInv(c, s.run, s.log, k, s.workers[k]);
  }

  /** A note of one attempt, applied to the whole system with the row unchanged. */
  lemma MoveKeepsInv(c: Config, s: System, k: Token, next: Worker, note: Note)
    requires SystemInv(c, s) && k in s.workers
    requires GoodAction(c, s.log, s.workers[k], Move(next, note))
    ensures SystemInv(c, s.(workers := s.workers[k := next], log := Write(s.log, k, note)))
  {
    var w := s.workers[k];
    var log := Write(s.log, k, note);
    assert w.token == k && next.(cp := w.cp) == next;
    CheckpointKeeps(c, s.log, w, note, s.run.checkpoint);
    LogKeeps(c, s.log, w, note, s.run.checkpoint.decisions, s.run.checkpoint.decisions);
    forall other | other in s.workers && other != k
      ensures WorkerInv(c, s.run, log, other, s.workers[other])
    {
      OtherKeepsInv(c, s, w, note, other);
    }
    MovedWorkerInv(c, s, w, next, note);
  }

  lemma OtherKeepsInv(c: Config, s: System, w: Worker, note: Note, other: Token)
    requires SystemInv(c, s) && other in s.workers && other != w.token
    requires NoteOk(c, s.log, w, note)
    ensures WorkerInv(c, s.run, Write(s.log, w.token, note), other, s.workers[other])
  {
    var o := s.workers[other];
    assert WorkerInv(c, s.run, s.log, other, o);
    if Active(o) {
      OthersKeep(c, s.log, w, note, o);
    }
  }

  lemma MovedWorkerInv(c: Config, s: System, w: Worker, next: Worker, note: Note)
    requires SystemInv(c, s) && w.token in s.workers && s.workers[w.token] == w
    requires GoodAction(c, s.log, w, Move(next, note))
    ensures WorkerInv(c, s.run, Write(s.log, w.token, note), w.token, next)
  {
    assert next.(cp := w.cp) == next;
  }

  /** The local outcome of a refused checkpoint: the attempt is in its exception handler. */
  lemma HandlerKeepsInv(c: Config, s: System, k: Token, next: Worker)
    requires SystemInv(c, s) && k in s.workers
    requires next.token == k && !Active(next) && !next.pc.Confirming?
    ensures SystemInv(c, s.(workers := s.workers[k := next]))
  {
    assert WorkerInv(c, s.run, s.log, k, s.workers[k]);
  }

  lemma SaveKeepsOther(c: Config, s: System, w: Worker, after: Run, note: Note, other: Token)
    requires SystemInv(c, s) && other in s.workers && other != w.token
    requires NoteOk(c, s.log, w, note)
    requires after.state == Running && after.token == Some(w.token) && after.history == s.run.history
    requires s.run.state == Running
    ensures WorkerInv(c, after, Write(s.log, w.token, note), other, s.workers[other])
  {
    OtherKeepsInv(c, s, w, note, other);
  }

  /** Remembering a ledger entry changes nothing else about an attempt. */
  lemma StampKeeps(c: Config, log: Log, w: Worker, note: Note)
    ensures var stamped := Stamp(log, w, note);
      && Active(stamped) == Active(w) && stamped.cp == w.cp && stamped.token == w.token && stamped.pc == w.pc
      && forall other: Log :: PcInv(c, other, stamped) <==> PcInv(c, other, w)
  {
  }

  lemma SavedWorkerInv(c: Config, s: System, w: Worker, after: Run, cp: Checkpoint, next: Worker, note: Note)
    requires SystemInv(c, s) && w.token in s.workers && s.workers[w.token] == w
    requires GoodAction(c, s.log, w, Persist(cp, next, note))
    requires after.history == s.run.history && after.checkpoint == cp
    ensures WorkerInv(c, after, Write(s.log, w.token, note), w.token, Stamp(s.log, next.(cp := cp), note))
  {
    StampKeeps(c, s.log, next.(cp := cp), note);
    assert WorkerInv(c, s.run, s.log, w.token, w);
  }

  lemma SaveKeepsInv(c: Config, s: System, w: Worker, cp: Checkpoint, next: Worker, note: Note, g: GetClock)
    requires SystemInv(c, s) && w.token in s.workers && s.workers[w.token] == w
    requires GoodAction(c, s.log, w, Persist(cp, next, note))
    requires SaveRun(c.policy, s.run, w.token, cp, g.cancelRead, g.reviewRead).Success?
    ensures SystemInv(c, DoSave(c, s, w, cp, next, note, g, false))
  {
    hide PcInv, CheckpointInv, Plan;
    var op := Op.Save(w.token, cp, g.cancelRead, g.reviewRead);
    var after := SaveRun(c.policy, s.run, w.token, cp, g.cancelRead, g.reviewRead).value;
    var log := Write(s.log, w.token, note);
    var t := DoSave(c, s, w, cp, next, note, g, false);
    assert WorkerInv(c, s.run, s.log, w.token, w);
    assert s.run.checkpoint == w.cp;
    assert after == Apply(c.policy, s.run, op);
    ApplyKeepsInv(c.policy, s.run, op);
    LogKeeps(c, s.log, w, note, s.run.checkpoint.decisions, cp.decisions);
    forall other | other in t.workers
      ensures WorkerInv(c, after, log, other, t.workers[other])
    {
      if other == w.token {
        SavedWorkerInv(c, s, w, after, cp, next, note);
      } else {
        SaveKeepsOther(c, s, w, after, note, other);
      }
    }
    WriteKeepsAnswers(s.log, w.token, note);
  }

  lemma WriteKeepsAnswers(log: Log, token: Token, note: Note)
    ensures Write(log, token, note).answers == log.answers
  {
  }

  // ------------------------------------------------------------------- ending

  lemma CloseKeepsOther(c: Config, s: System, k: Token, after: Run, other: Token)
    requires SystemInv(c, s) && other in s.workers
    requires s.run.state == Running && after.state != Running && Extends(after.history, s.run.history)
    ensures WorkerInv(c, after, s.log, other, s.workers[other])
  {
    IssuedKeeps(s.run.history, after.history, other);
    assert WorkerInv(c, s.run, s.log, other, s.workers[other]);
  }

  lemma CloseKeepsInv(c: Config, s: System, w: Worker, outcome: RunState, result: Option<Decision>, error: Option<string>,
    next: Worker, refused: Worker, g: GetClock, fails: bool)
    requires SystemInv(c, s) && w.token in s.workers && s.workers[w.token] == w
    requires GoodAction(c, s.log, w, Conclude(outcome, result, error, next, refused))
    ensures SystemInv(c, DoClose(s, w, outcome, result, error, next, refused, g, fails))
  {
    var r := FinishRun(s.run, w.token, outcome, result, error, g.cancelRead);
    var t := DoClose(s, w, outcome, result, error, next, refused, g, fails);
    assert WorkerInv(c, s.run, s.log, w.token, w);
    if fails || r.Failure? {
      HandlerKeepsInv(c, s, w.token, refused);
    } else {
      var op := Op.Finish(w.token, outcome, result, error, g.cancelRead);
      assert r.value == Apply(c.policy, s.run, op);
      ApplyKeepsInv(c.policy, s.run, op);
      ApplyExtendsHistory(c.policy, s.run, op);
      forall other | other in t.workers && other != w.token
        ensures WorkerInv(c, t.run, t.log, other, t.workers[other])
      {
        CloseKeepsOther(c, s, w.token, r.value, other);
      }
      IssuedKeeps(s.run.history, r.value.history, w.token);
    }
  }

  lemma ConfirmKeepsInv(c: Config, s: System, w: Worker, g: GetClock, fails: bool)
    requires SystemInv(c, s) && w.token in s.workers && s.workers[w.token] == w && w.pc.Confirming?
    ensures SystemInv(c, DoConfirm(s, w, g, fails))
  {
    assert WorkerInv(c, s.run, s.log, w.token, w);
    if fails {
      HandlerKeepsInv(c, s, w.token, Fail(w, Breakdown));
    } else {
      PublicOpKeepsInv(c, s, Op.Get(g));
      var read := s.(run := GetRun(s.run, g));
      assert read.run.state == s.run.state && read.run.result == s.run.result;
      if read.run.state == Cancelled {
        HandlerKeepsInv(c, read, w.token, Fail(w, Cancellation));
      } else {
        HandlerKeepsInv(c, read, w.token, w.(pc := Returned(w.pc.answer)));
        var handled := read.(workers := read.workers[w.token := w.(pc := Returned(w.pc.answer))]);
        AnsweredKeepsInv(c, handled, DoConfirm(s, w, g, fails));
      }
    }
  }

  // ------------------------------------------------------------------- events

  lemma ActKeepsInv(c: Config, s: System, k: Token, x: Choice, g: GetClock, fails: bool)
    requires ValidConfig(c) && SystemInv(c, s) && k in s.workers
    ensures SystemInv(c, DoAct(c, s, s.workers[k], x, g, fails))
  {
    hide Plan, PcInv, CheckpointInv, GoodNext, LogInv, AnswerInv, RunInv;
    var w := s.workers[k];
    assert WorkerInv(c, s.run, s.log, k, w);
    var a := Plan(c, w, x);
    if a.Persist? {
      PersistKeepsInv(c, s, w, x, g, fails);
    } else {
      StepIsStepping(c, s, k);
      PlanIsGood(c, s.log, w, x);
      match a
      case Move(next, note) => MoveKeepsInv(c, s, k, next, note);
      case Conclude(outcome, result, error, next, refused) =>
        CloseKeepsInv(c, s, w, outcome, result, error, next, refused, g, fails);
      case Confirm => ConfirmKeepsInv(c, s, w, g, fails);
      case Skip =>
    }
  }

  lemma PersistMeansActive(c: Config, w: Worker, x: Choice)
    requires Plan(c, w, x).Persist?
    ensures Active(w)
  {
  }

  lemma PersistKeepsInv(c: Config, s: System, w: Worker, x: Choice, g: GetClock, fails: bool)
    requires ValidConfig(c) && SystemInv(c, s) && w.token in s.workers && s.workers[w.token] == w
    requires Plan(c, w, x).Persist?
    ensures SystemInv(c, DoAct(c, s, w, x, g, fails))
  {
    hide Plan, PcInv, CheckpointInv, GoodNext, AnswerInv, RunInv, CallsInv, DispatchInv;
    var a := Plan(c, w, x);
    PersistMeansActive(c, w, x);
    var r := SaveRun(c.policy, s.run, w.token, a.cp, g.cancelRead, g.reviewRead);
    assert WorkerInv(c, s.run, s.log, w.token, w);
    if fails {
      HandlerKeepsInv(c, s, w.token, w.(cp := a.cp, pc := Raising(Breakdown)));
    } else if r.Failure? {
      HandlerKeepsInv(c, s, w.token, w.(cp := a.cp, pc := Raising(FaultOf(r.error))));
    } else {
      assert Active(w);
      StepIsStepping(c, s, w.token);
      PlanIsGood(c, s.log, w, x);
      SaveKeepsInv(c, s, w, a.cp, a.next, a.note, g);
    }
  }

  lemma NextKeepsInv(c: Config, s: System, e: Event, after: Time)
    requires ValidConfig(c) && SystemInv(c, s) && Possible(s, e, after)
    ensures SystemInv(c, Next(c, s, e).(clock := after))
  {
    match e
    case Start(read, token, settings) => StartKeepsInv(c, s, read, token, settings);
    case Act(k, x, g, fails) => if k in s.workers { ActKeepsInv(c, s, k, x, g, fails); }
    case Renew(k, t, u) => PublicOpKeepsInv(c, s, Op.Guard(k, t, u));
    case Outside(op) => PublicOpKeepsInv(c, s, op);
  }

  lemma {:induction false} LeadsKeepsInv(c: Config, s: System, moments: seq<Moment>, t: System)
    requires ValidConfig(c) && SystemInv(c, s) && Leads(c, s, moments, t)
    ensures SystemInv(c, t)
    decreases |moments|
  {
    if moments == [] {
    } else {
      var m := moments[|moments| - 1];
      var before: System :|
        Leads(c, s, moments[..|moments| - 1], before)
        && Possible(before, m.event, m.after)
        && t == Next(c, before, m.event).(clock := m.after);
      LeadsKeepsInv(c, s, moments[..|moments| - 1], before);
      NextKeepsInv(c, before, m.event, m.after);
    }
  }

  /** Whatever the interleaving of attempts, crashes, zombies, requests and clock readings. */
  lemma ReachableInv(c: Config, s: System)
    requires ValidConfig(c) && Reachable(c, s)
    ensures SystemInv(c, s)
  {
    var duration: Time, key: Option<string>, clock: Time, moments: seq<Moment> :|
      Leads(c, Begin(c, duration, key, clock), moments, s);
    BeginInv(c, duration, key, clock);
    LeadsKeepsInv(c, Begin(c, duration, key, clock), moments, s);
  }
}
