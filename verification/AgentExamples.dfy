/** A whole run, event by event, that ends in a way one might not expect. */
module AgentExamples {
  import opened Wrappers
  import opened AgentData
  import opened Budget
  import opened RunRecords
  import opened AgentMachine
  import opened AgentInvariant
  import opened AgentSteps
  import opened AgentHistory
  import opened Deployment

  /** One tool that must not be run twice. */
  const WRITING := Config(
    StorePolicy(45.0, 3), AgentRunJob(1, "tenant", "message", 5, General), map["write" := false], (ch: char) => ch != ' ')

  const SETTINGS := Settings(5, 1000, None, 1, None)

  const CALL := ToolCall("write", "{}")

  const NOW := GetClock(0.0, 0.0, 0.0, 0.0)

  /** A local step of attempt k at time 0. */
  lemma Moves(c: Config, start: System, path: seq<Moment>, s: System, k: Token, x: Choice, next: Worker, note: Note)
    returns (t: System, longer: seq<Moment>)
    requires ValidConfig(c) && Submitted(c, start) && Leads(c, start, path, s) && s.clock == 0.0
    requires k in s.workers && s.workers[k].token == k && Plan(c, s.workers[k], x) == Move(next, note)
    ensures Leads(c, start, longer, t) && t.clock == 0.0 && t.run == s.run && k in t.workers && t.workers[k] == next
  {
    var e := Event.Act(k, x, NOW, false);
    HistoryGoesOn(c, start, path, s, e, 0.0);
    t, longer := Next(c, s, e).(clock := 0.0), path + [Moment(e, 0.0)];
  }

  /** Attempt 7 as this run's owner at time 0. */
  predicate Running7(s: System, w: Worker) {
    && s.clock == 0.0 && s.run.state == Running && s.run.token == Some(7) && s.run.leaseUntil == Some(45.0)
    && !s.run.cancelRequested && 7 in s.workers && s.workers[7] == w && w.token == 7
  }

  /** A checkpoint of attempt 7 at time 0, which the storage takes or not. */
  lemma Saves(c: Config, start: System, path: seq<Moment>, s: System, x: Choice, fails: bool, cp: Checkpoint, next: Worker, note: Note)
    returns (t: System, longer: seq<Moment>)
    requires ValidConfig(c) && Submitted(c, start) && Leads(c, start, path, s) && c.policy == StorePolicy(45.0, 3)
    requires 7 in s.workers && Running7(s, s.workers[7]) && Plan(c, s.workers[7], x) == Persist(cp, next, note)
    requires !note.Ran? && next.token == 7
    ensures Leads(c, start, longer, t)
    ensures Running7(t, if fails then s.workers[7].(cp := cp, pc := Raising(Breakdown)) else Stamp(s.log, next.(cp := cp), note))
    ensures t.run.checkpoint == if fails then s.run.checkpoint else cp
  {
    hide Plan, Leads, Submitted;
    t, longer := SaveAccount(c, start, path, s, 7, x, NOW, fails, cp, next, note);
  }

  /** A history of the run so far, told from attempt 7. */
  datatype Story = Story(start: System, path: seq<Moment>, s: System, w: Worker)

  ghost predicate Told(y: Story) {
    Submitted(WRITING, y.start) && Leads(WRITING, y.start, y.path, y.s) && Running7(y.s, y.w)
  }

  lemma ThenMoves(y: Story, x: Choice, next: Worker, note: Note) returns (z: Story)
    requires Told(y) && Plan(WRITING, y.w, x) == Move(next, note) && next.token == 7
    ensures Told(z) && z.w == next && z.s.run == y.s.run
  {
    hide Plan, Leads, Submitted;
    var s, path := Moves(WRITING, y.start, y.path, y.s, 7, x, next, note);
    z := Story(y.start, path, s, next);
  }

  lemma ThenSaves(y: Story, x: Choice, cp: Checkpoint, next: Worker, note: Note) returns (z: Story)
    requires Told(y) && Plan(WRITING, y.w, x) == Persist(cp, next, note)
    requires !note.Ran? && next.token == 7
    ensures Told(z) && z.w == Stamp(y.s.log, next.(cp := cp), note) && z.s.run.checkpoint == cp
  {
    hide Plan, Leads, Submitted;
    var s, path := Saves(WRITING, y.start, y.path, y.s, x, false, cp, next, note);
    z := Story(y.start, path, s, Stamp(y.s.log, next.(cp := cp), note));
  }

  /** An attempt with its budget untouched and no call open. */
  predicate Fresh(w: Worker) {
    w.cp.reservedTokens == 0 && w.call.None? && w.allowance == Allowance(1000, None, 1, None)
  }

  lemma Claims() returns (y: Story)
    ensures Told(y) && y.w.pc == Launching && y.w.cp == EMPTY_CHECKPOINT && Fresh(y.w)
  {
    var start := Begin(WRITING, 60.0, None, 0.0);
    assert Leads(WRITING, start, [], start);
    assert Submitted(WRITING, start);
    hide Leads, Submitted;
    var s, path := ClaimAccount(WRITING, start, [], start, 0.0, 7, SETTINGS, 0.0);
    y := Story(start, path, s, s.workers[7]);
  }

  lemma Opens(y: Story) returns (z: Story)
    requires Told(y) && y.w.pc == Launching && y.w.cp == EMPTY_CHECKPOINT && Fresh(y.w)
    ensures Told(z) && z.w.pc == AtHead && z.w.at == LoadLocals(WRITING, EMPTY_CHECKPOINT) && Fresh(z.w)
  {
    hide Leads, Submitted;
    z := ThenSaves(y, Go, y.w.cp.(limits := Some(y.w.limits)), y.w.(pc := Opening), Nothing);
    z := ThenMoves(z, Go, z.w.(pc := AtHead, at := LoadLocals(WRITING, z.w.cp)), Nothing);
  }

  lemma Asks(y: Story) returns (z: Story)
    requires Told(y) && y.w.pc == AtHead && y.w.at == LoadLocals(WRITING, EMPTY_CHECKPOINT) && Fresh(y.w)
    ensures Told(z) && z.w.pc == Ready && z.w.at.step == 1 && Fresh(z.w)
  {
    hide Leads, Submitted;
    z := ThenMoves(y, Go, y.w.(pc := Asking, at := Entered(y.w.at, 1)), Nothing);
    z := ThenSaves(z, Go, Snapshot(WRITING, z.w.cp, z.w.at, None, false), z.w.(pc := Ready), Granted(1));
  }

  /** The model is admitted, called, and decides to write. */
  lemma Decides(y: Story) returns (z: Story)
    requires Told(y) && y.w.pc == Ready && y.w.at.step == 1 && Fresh(y.w)
    ensures Told(z) && z.w.pc == Chosen(CALL)
  {
    hide Leads, Submitted;
    z := ThenMoves(y, Go, y.w.(pc := InCall), Called(1));
    z := ThenSaves(z, Choice.Reserve(1, 1), Reserved(z.w.cp, None, 1, 1), z.w, Charged(Charge(7, None, 1, 1, None)));
    z := ThenMoves(z, Decided(CALL), z.w.(pc := Chosen(CALL), call := None), Learned(1, CALL));
  }

  /** The call is stored as pending. */
  lemma Proposes(y: Story) returns (z: Story)
    requires Told(y) && y.w.pc == Chosen(CALL)
    ensures Told(z) && z.w.pc == Dispatching(CALL) && UnsafePending(z.s.run.checkpoint)
  {
    hide Leads, Submitted;
    z := ThenMoves(y, Go, y.w.(pc := Proposed(CALL), at := y.w.at.(toolCalls := y.w.at.toolCalls + 1)), Nothing);
    z := ThenSaves(z, Go, Snapshot(WRITING, z.w.cp, z.w.at, Some(CALL), false), z.w.(pc := Dispatching(CALL)), Nothing);
  }

  /** The tool succeeds, but the storage does not take the checkpoint of its result. */
  lemma LosesResult(y: Story) returns (z: Story)
    requires Told(y) && y.w.pc == Dispatching(CALL) && UnsafePending(y.s.run.checkpoint)
    ensures Told(z) && z.w.pc == Raising(Breakdown) && UnsafePending(z.s.run.checkpoint) && z.w.cp.pending.None?
  {
    hide Leads, Submitted;
    var done := OtherResult("written");
    var seen := Observe(WRITING, y.w.at, CALL, done);
    var m := ThenMoves(y, ToolOk(done), y.w.(pc := Recording, at := seen.value), Ran(y.w.at.step, CALL));
    var s, path := LosesSave(m);
    z := Story(m.start, path, s, s.workers[7]);
  }

  lemma LosesSave(m: Story) returns (s: System, path: seq<Moment>)
    requires Told(m) && m.w.pc == Recording
    ensures Leads(WRITING, m.start, path, s) && 7 in s.workers && Running7(s, s.workers[7])
    ensures s.workers[7].pc == Raising(Breakdown) && s.workers[7].cp.pending.None? && s.run.checkpoint == m.s.run.checkpoint
  {
    hide Leads, Submitted;
    s, path := Saves(WRITING, m.start, m.path, m.s, Go, true, Snapshot(WRITING, m.w.cp, m.w.at, None, false),
      m.w.(pc := AtHead, at := m.w.at.(replay := None)), Nothing);
  }

  /** The handler looks at the attempt's own copy, where nothing is pending, and records a plain failure. */
  lemma Ends(y: Story) returns (s: System)
    requires Told(y) && y.w.pc == Raising(Breakdown) && UnsafePending(y.s.run.checkpoint) && y.w.cp.pending.None?
    ensures Reachable(WRITING, s) && s.run.state == Failed && UnsafePending(s.run.checkpoint)
  {
    hide Leads, Submitted;
    var path;
    s, path := FinishAccount(WRITING, y.start, y.path, y.s, 7, Go, NOW, false, Failed, None, Some("error"),
      y.w.(pc := Raised), y.w.(pc := Raised));
    SubmittedReaches(WRITING, y.start, path, s);
  }

  /**
   A run recorded as failed whose stored checkpoint still holds a call that must not
   be run again: its tool succeeded and the storage refused the next checkpoint.
   Nobody is asked to review it, and it can be neither resumed nor claimed.
   */
  lemma FailedHidesCall() returns (s: System)
    ensures Reachable(WRITING, s) && s.run.state == Failed && UnsafePending(s.run.checkpoint)
    ensures forall t: Time, u: Time :: ResumeRun(WRITING.policy, s.run, t, u).Failure?
    ensures forall t: Time, k: Token :: ClaimRun(WRITING.policy, s.run, WRITING.job, t, k).Failure?
  {
    hide Told;
    var y := Claims();
    y := Opens(y);
    y := Asks(y);
    y := Decides(y);
    y := Proposes(y);
    y := LosesResult(y);
    s := Ends(y);
    ReachableInv(WRITING, s);
  }

  /** Exactly when: the store still holds the unsafe call and the attempt's own copy does not. */
  lemma FailedHidesCallExactly(c: Config, s: System, k: Token, g: GetClock)
    requires k in s.workers && s.workers[k].token == k && s.workers[k].pc == Raising(Breakdown)
    requires Owns(s.run, k, g.cancelRead) && !s.run.cancelRequested
    ensures var t := Next(c, s, Event.Act(k, Go, g, false));
      && t.run.state == (if UnsafePending(s.workers[k].cp) then NeedsReview else Failed)
      && (t.run.state == Failed && UnsafePending(t.run.checkpoint)
        <==> UnsafePending(s.run.checkpoint) && !UnsafePending(s.workers[k].cp))
  {
  }
}
