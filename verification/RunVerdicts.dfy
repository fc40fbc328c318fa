/**
 What each store operation on a run decides, by guards a requester could read
 beforehand, what it leaves behind, and how long an attempt keeps the run.
 */
module RunVerdicts {
  import opened Wrappers
  import opened AgentData
  import opened RunRecords

  // ------------------------------------------------------------------ claims

  /** A new attempt may begin. */
  predicate Claimable(p: StorePolicy, run: Run, job: AgentRunJob, now: Time) {
    && run.job == job && !run.cancelRequested
    && !(run.checkpoint.pending.Some? && !run.checkpoint.replaySafe)
    && run.attempts < p.maxAttempts
    && (run.state == Queued || (run.state == Running && run.leaseUntil.Some? && run.leaseUntil.value <= now))
  }

  /** The run under its new attempt: the owner from now on, until its lease ends. */
  ghost predicate Begun(p: StorePolicy, run: Run, next: Run, token: Token, now: Time)
    requires |run.history| == run.attempts
  {
    && next.job == run.job && next.checkpoint == run.checkpoint && !next.cancelRequested
    && next.attempts == run.attempts + 1
    && next.deadline == Some(if run.deadline.Some? then run.deadline.value else now + run.duration)
    && (forall t: Time :: Owns(next, token, t) <==> t < now + p.leaseSeconds)
    && |next.history| == next.attempts
    && next.history[run.attempts] == Attempt(token, next.attempts, Open, None)
    && forall i :: 0 <= i < run.attempts ==>
      if run.token == Some(run.history[i].token) then next.history[i].state == Expired else next.history[i] == run.history[i]
  }

  /** A claim opens a new attempt exactly when the run is claimable, and otherwise leaves it alone. */
  lemma ClaimOpensExactly(p: StorePolicy, run: Run, job: AgentRunJob, now: Time, token: Token)
    requires RunInv(p, run)
    ensures var r := ClaimRun(p, run, job, now, token);
      && (r.Success? && r.value != run <==> Claimable(p, run, job, now))
      && (r.Success? && r.value == run <==> run.job == job && run.state == Succeeded)
      && (Claimable(p, run, job, now) ==> Begun(p, run, r.value, token, now))
  {
    if Claimable(p, run, job, now) {
      var next := ClaimRun(p, run, job, now, token).value;
      assert next.attempts != run.attempts;
    }
  }

  /** Why a claim is refused. */
  lemma ClaimRefusedExactly(p: StorePolicy, run: Run, job: AgentRunJob, now: Time, token: Token)
    requires RunInv(p, run) && run.job == job && run.state != Succeeded
    ensures var r := ClaimRun(p, run, job, now, token);
      && (r == Failure(CancelRequested) <==> run.cancelRequested || run.state == Cancelled)
      && (r == Failure(UnsafeReplay) <==>
        && !run.cancelRequested && run.checkpoint.pending.Some? && !run.checkpoint.replaySafe
        && (run.state == Queued || (run.state == Running && run.leaseUntil.value <= now)))
      && (r.Failure? ==> r.error in {CancelRequested, UnsafeReplay, Conflict})
  {
  }

  // --------------------------------------------------------------- ownership

  /** No lease reaches further than one lease time from now. */
  predicate LeaseBounded(p: StorePolicy, run: Run, clock: Time) {
    run.leaseUntil.Some? ==> run.leaseUntil.value <= clock + p.leaseSeconds
  }

  lemma {:induction false} LeaseIsBounded(p: StorePolicy, l: Life, i: nat)
    requires WholeLife(p, l) && i < |l.runs|
    ensures LeaseBounded(p, l.runs[i], l.clocks[i])
  {
    if i == 0 {
    } else {
      LeaseIsBounded(p, l, i - 1);
      assert Happens(p, l, i - 1);
    }
  }

  /** The attempt itself ends. */
  predicate OwnFinish(op: Op, token: Token) {
    op.Finish? && op.token == token
  }

  /** While its lease lasts, nothing but its own finish takes the run from an attempt or writes its checkpoint. */
  lemma OwnerStep(p: StorePolicy, run: Run, op: Op, token: Token, now: Time, next: Time)
    requires LeaseBounded(p, run, now) && Timely(op, now, next)
    requires Owns(run, token, now) && run.leaseUntil.value > next && !OwnFinish(op, token)
    ensures var after := Apply(p, run, op);
      && Owns(after, token, next) && after.leaseUntil.value >= run.leaseUntil.value
      && after.attempts == run.attempts
      && (op.Claim? || op.Resume? || op.Get? ==> after == run)
      && (after.checkpoint != run.checkpoint ==> op.Save? && op.token == token && after.checkpoint == op.cp)
  {
  }

  /** No finish of this attempt between two moments. */
  predicate NotFinished(l: Life, token: Token, i: nat, j: nat)
    requires i <= j <= |l.ops|
  {
    forall n :: i <= n < j ==> !OwnFinish(l.ops[n], token)
  }

  /** Mutual exclusion: until its lease runs out, an attempt that does not finish still owns the run, whatever is asked of the store. */
  lemma {:induction false} OwnerUndisturbed(p: StorePolicy, l: Life, token: Token, i: nat, j: nat)
    requires WholeLife(p, l) && i <= j < |l.runs| && NotFinished(l, token, i, j)
    requires Owns(l.runs[i], token, l.clocks[i]) && l.clocks[j] < l.runs[i].leaseUntil.value
    ensures Owns(l.runs[j], token, l.clocks[j]) && l.runs[j].attempts == l.runs[i].attempts
    ensures l.runs[j].leaseUntil.value >= l.runs[i].leaseUntil.value
    decreases j - i
  {
    if i == j {
    } else {
      LifeMovesForward(p, l, j - 1, j);
      OwnerUndisturbed(p, l, token, i, j - 1);
      LeaseIsBounded(p, l, j - 1);
      assert Happens(p, l, j - 1) && !OwnFinish(l.ops[j - 1], token);
      OwnerStep(p, l.runs[j - 1], l.ops[j - 1], token, l.clocks[j - 1], l.clocks[j]);
    }
  }

  /** A claim whose reading lies within a lease finds the run taken and leaves it as it is, however late it gets through. */
  lemma ClaimSparesOwner(p: StorePolicy, l: Life, i: nat, token: Token)
    requires ValidLife(p, l) && i < |l.ops| && l.ops[i].Claim? && Owns(l.runs[i], token, l.ops[i].claimRead)
    ensures l.runs[i + 1] == l.runs[i]
    ensures ClaimRun(p, l.runs[i], l.ops[i].job, l.ops[i].claimRead, l.ops[i].token).Failure?
  {
    assert Happens(p, l, i);
  }

  /** Renewing or saving extends ownership to one lease time from the reading, and a save is what the next reader finds. */
  lemma RenewalOwns(p: StorePolicy, run: Run, token: Token, cp: Checkpoint, checked: Time, renewed: Time)
    ensures var g, s := GuardRun(p, run, token, checked, renewed), SaveRun(p, run, token, cp, checked, renewed);
      && (g.Success? <==> Owns(run, token, checked) && !run.cancelRequested)
      && (s.Success? <==> Owns(run, token, checked) && !run.cancelRequested)
      && (g.Success? ==>
        && g.value.(leaseUntil := run.leaseUntil) == run
        && forall t: Time :: Owns(g.value, token, t) <==> t < renewed + p.leaseSeconds)
      && (s.Success? ==>
        && s.value.(leaseUntil := run.leaseUntil, checkpoint := run.checkpoint) == run && s.value.checkpoint == cp
        && forall t: Time :: Owns(s.value, token, t) <==> t < renewed + p.leaseSeconds)
  {
  }

  // ------------------------------------------------------------------ endings

  /** The attempt rows after one of them was closed. */
  predicate ClosesOne(before: seq<Attempt>, after: seq<Attempt>, token: Token, state: AttemptState) {
    && |after| == |before|
    && forall i :: 0 <= i < |before| ==>
      if before[i].token == token then after[i].state == state && after[i].token == token && after[i].number == before[i].number
      else after[i] == before[i]
  }

  /** An attempt ends exactly while it owns the run; a requested cancellation decides how. */
  lemma FinishExactly(run: Run, token: Token, outcome: RunState, result: Option<Decision>, note: Option<string>, t: Time)
    ensures var r := FinishRun(run, token, outcome, result, note, t);
      && (r.Success? <==> outcome in {Succeeded, Failed, Cancelled, Exhausted, NeedsReview} && Owns(run, token, t))
      && (r.Success? ==>
        && r.value.state == (if run.cancelRequested then Cancelled else outcome)
        && r.value.result == (if run.cancelRequested then None else result)
        && r.value.checkpoint == run.checkpoint && r.value.attempts == run.attempts && r.value.deadline == run.deadline
        && ClosesOne(run.history, r.value.history, token, Closed(r.value.state))
        && forall k: Token, u: Time :: !Owns(r.value, k, u))
  {
  }

  /** Exactly which runs are requeued; a requeued run can be claimed at any time, with everything it had. */
  lemma ResumeExactly(p: StorePolicy, run: Run, leaseRead: Time, deadlineRead: Time)
    requires RunInv(p, run)
    ensures var r := ResumeRun(p, run, leaseRead, deadlineRead);
      && (r.Success? <==>
        && !run.cancelRequested && run.attempts < p.maxAttempts
        && !(run.checkpoint.pending.Some? && !run.checkpoint.replaySafe)
        && (run.deadline.Some? ==> deadlineRead < run.deadline.value)
        && (run.state in {Queued, Failed} || (run.state == Running && run.leaseUntil.value <= leaseRead)))
      && (r.Success? ==>
        && !r.value.published && r.value.checkpoint == run.checkpoint && r.value.attempts == run.attempts
        && r.value.deadline == run.deadline && r.value.history == run.history
        && forall t: Time :: Claimable(p, r.value, run.job, t))
      && (r == Failure(UnsafeReplay) ==> run.checkpoint.pending.Some? && !run.checkpoint.replaySafe)
  {
  }

  /** A row that reading has settled: nobody owns it, and its last attempt is closed the same way. */
  predicate SettledAs(run: Run, after: Run, state: RunState)
    requires run.attempts > 0 && |run.history| == run.attempts
  {
    && after.state == state && after.token.None? && after.leaseUntil.None?
    && after.checkpoint == run.checkpoint && after.result == run.result && after.attempts == run.attempts
    && ClosesOne(run.history, after.history, run.history[run.attempts - 1].token, Closed(state))
  }

  /**
   Exactly what reading does to a run nobody asked to cancel. An unsafe call that
   was pending when the lease lapsed needs review, even if the deadline is past too.
   */
  lemma ReadSettlesExactly(p: StorePolicy, run: Run, c: GetClock)
    requires RunInv(p, run) && !run.cancelRequested && Timely(Get(c), c.cancelRead, c.deadlineRead)
    ensures var after := GetRun(run, c);
      if run.state != Running then after == run
      else
        var until, deadline := run.leaseUntil.value, run.deadline.value;
        if until <= c.reviewRead && run.checkpoint.pending.Some? && !run.checkpoint.replaySafe then
          SettledAs(run, after, NeedsReview) && after.error == Some("UnsafeReplay")
        else if until <= c.leaseRead && deadline <= c.deadlineRead then
          SettledAs(run, after, Exhausted) && after.error == Some("AgentDeadlineExceeded")
        else after == run
  {
  }

  /** A settled run reads the same ever after. */
  lemma ReadingIsStable(p: StorePolicy, run: Run, c: GetClock, later: GetClock)
    requires RunInv(p, run) && GetRun(run, c) != run
    ensures GetRun(GetRun(run, c), later) == GetRun(run, c)
  {
  }
}
