/** The run store itself (crewos/infrastructure/run_store.py): both tables updated in place, one transaction a method. */
module RunStore {
  import opened Wrappers
  import opened Evidence
  import opened AgentData
  import opened RunRecords

  /** Attempt rows live with their run; random tokens are never issued twice, so no update by token crosses runs. */
  class SQLiteRunStore {
    const policy: StorePolicy
    var runs: map<RunId, Run>
    var keys: map<(TenantId, string), RunId> // UNIQUE(tenant, idem_key)
    var nextToken: Token

    ghost predicate Valid()
      reads this
    {
      && ValidPolicy(policy)
      && (forall id :: id in runs ==> RowValid(policy, id, runs[id], nextToken))
      && (forall key :: key in keys ==> keys[key] in runs && Keyed(runs[keys[key]], key))
      && (forall id, key :: id in runs && Keyed(runs[id], key) ==> key in keys && keys[key] == id)
    }

    constructor (policy: StorePolicy)
      requires ValidPolicy(policy)
      ensures Valid() && this.policy == policy && runs == map[] && keys == map[]
    {
      this.policy := policy;
      runs, keys, nextToken := map[], map[], 0;
    }

    /** The row a tenant may see. */
    predicate Visible(id: RunId, tenant: TenantId)
      reads this
    {
      id in runs && runs[id].job.tenant == tenant
    }

    method Create(job: AgentRunJob, duration: Time, idempotencyKey: Option<string>) returns (r: Result<Run, RunError>)
      requires Valid()
      modifies this
      ensures Valid() && nextToken == old(nextToken)
      ensures var key := if idempotencyKey == Some("") then None else idempotencyKey;
        if duration <= 0.0 then
          r == Failure(InvalidState) && runs == old(runs) && keys == old(keys)
        else if key.Some? && (job.tenant, key.value) in old(keys) then
          var existing := old(runs)[old(keys)[(job.tenant, key.value)]];
          && runs == old(runs) && keys == old(keys)
          && (r == Success(existing) <==>
            existing.job.message == job.message && existing.job.maxDecisions == job.maxDecisions
            && existing.job.answerMode == job.answerMode)
          && (r != Success(existing) ==> r == Failure(Conflict))
        else if job.runId in old(runs) then
          r == Failure(DuplicateId) && runs == old(runs) && keys == old(keys)
        else
          && r == Success(NewRun(job, duration, key))
          && runs == old(runs)[job.runId := NewRun(job, duration, key)]
          && keys == if key.Some? then old(keys)[(job.tenant, key.value) := job.runId] else old(keys)
    {
      if duration <= 0.0 {
        return Failure(InvalidState);
      }
      var key := KeyOf(idempotencyKey);
      if key.Some? && (job.tenant, key.value) in keys {
        var existing := runs[keys[(job.tenant, key.value)]];
        if !SameInput(existing.job, job) {
          return Failure(Conflict);
        }
        return Success(existing);
      }
      if job.runId in runs {
        return Failure(DuplicateId);
      }
      var run := NewRun(job, duration, key);
      runs := runs[job.runId := run];
      if key.Some? {
        keys := keys[(job.tenant, key.value) := job.runId];
      }
      return Success(run);
    }

    /** Replaces one row by what an operation makes of it; nothing else changes. */
    method Write(id: RunId, run: Run, ghost op: Op)
      requires Valid() && id in runs
      requires run == Apply(policy, runs[id], op)
      requires op.Claim? ==> op.token == nextToken
      modifies this`runs, this`nextToken
      ensures Valid()
      ensures runs == old(runs)[id := run]
      ensures nextToken == old(nextToken) + 1
    {
      WriteKeepsRow(policy, id, runs[id], op, nextToken);
      RowsMonotone(policy, runs, nextToken);
      ghost var before := runs;
      runs := runs[id := run];
      nextToken := nextToken + 1;
      assert forall other, key :: other in runs && Keyed(runs[other], key) ==> other in before && Keyed(before[other], key);
    }

    method Get(id: RunId, tenant: TenantId, clock: GetClock) returns (r: Result<Run, RunError>)
      requires Valid()
      modifies this
      ensures Valid() && keys == old(keys)
      ensures !(id in old(runs) && old(runs)[id].job.tenant == tenant) ==> r == Failure(NotFound) && runs == old(runs)
      ensures old(Visible(id, tenant)) ==>
        && runs == old(runs)[id := Apply(policy, old(runs)[id], Op.Get(clock))]
        && r == Success(runs[id])
    {
      if !Visible(id, tenant) {
        return Failure(NotFound);
      }
      var row := runs[id];
      var run := row;
      if row.state == Running && row.cancelRequested && LeaseLapsed(row, clock.cancelRead) {
        run := run.(state := Cancelled, token := None, leaseUntil := None,
          history := SettleAttempt(run.history, row.token, Cancelled, None));
      }
      if row.state == Running && !row.cancelRequested && LeaseLapsed(row, clock.reviewRead) {
        if UnsafePending(row.checkpoint) {
          run := run.(state := NeedsReview, error := Some("UnsafeReplay"), token := None, leaseUntil := None,
            history := SettleAttempt(run.history, row.token, NeedsReview, Some("UnsafeReplay")));
        }
      }
      if run.state == Running && LeaseLapsed(run, clock.leaseRead)
        && run.deadline.Some? && run.deadline.value <= clock.deadlineRead
      {
        run := run.(state := Exhausted, error := Some("AgentDeadlineExceeded"), token := None, leaseUntil := None,
          history := SettleAttempt(run.history, run.token, Exhausted, Some("AgentDeadlineExceeded")));
      }
      Write(id, run, Op.Get(clock));
      return Success(run);
    }

    method MarkPublished(id: RunId, tenant: TenantId) returns (r: Result<(), RunError>)
      requires Valid()
      modifies this
      ensures Valid() && keys == old(keys)
      ensures !(id in old(runs) && old(runs)[id].job.tenant == tenant) ==> r == Failure(NotFound) && runs == old(runs)
      ensures old(Visible(id, tenant)) ==> r == Success(()) && runs == old(runs)[id := Apply(policy, old(runs)[id], Publish)]
    {
      if !Visible(id, tenant) {
        return Failure(NotFound);
      }
      Write(id, runs[id].(published := true), Publish);
      return Success(());
    }

    method Claim(job: AgentRunJob, now: Time) returns (r: Result<Run, RunError>)
      requires Valid()
      modifies this
      ensures Valid() && keys == old(keys)
      ensures !(job.runId in old(runs) && old(runs)[job.runId].job.tenant == job.tenant) ==> r == Failure(NotFound) && runs == old(runs)
      ensures old(Visible(job.runId, job.tenant)) ==>
        && r == ClaimRun(policy, old(runs)[job.runId], job, now, old(nextToken))
        && runs == old(runs)[job.runId := Apply(policy, old(runs)[job.runId], Op.Claim(job, now, old(nextToken)))]
      ensures r.Success? ==> nextToken > old(nextToken) || r.value == old(runs)[job.runId]
    {
      if !Visible(job.runId, job.tenant) {
        return Failure(NotFound);
      }
      var row := runs[job.runId];
      if row.job != job {
        return Failure(Conflict);
      }
      if row.state == Succeeded {
        return Success(row);
      }
      if row.cancelRequested || row.state == Cancelled {
        return Failure(CancelRequested);
      }
      if Terminal(row.state) || row.state == Failed {
        return Failure(Conflict);
      }
      if row.state == Running && LeaseActive(row, now) {
        return Failure(Conflict);
      }
      if row.checkpoint.pending.Some? && !row.checkpoint.replaySafe {
        return Failure(UnsafeReplay);
      }
      if row.attempts >= policy.maxAttempts {
        return Failure(Conflict);
      }
      var history := row.history;
      if row.token.Some? {
        history := CloseAttempt(history, row.token, Expired, None);
      }
      NoTokenClosesNothing(row.history);
      var token := nextToken;
      history := history + [Attempt(token, row.attempts + 1, Open, None)];
      var run := row.(
        state := Running,
        attempts := row.attempts + 1,
        token := Some(token),
        leaseUntil := Some(now + policy.leaseSeconds),
        deadline := if row.deadline.Some? then row.deadline else Some(now + row.duration),
        history := history);
      Write(job.runId, run, Op.Claim(job, now, token));
      return Success(run);
    }

    /** The common check of guard, checkpoint and finish. */
    method OwnedAttempt(id: RunId, tenant: TenantId, token: Token, now: Time) returns (r: Result<Run, RunError>)
      ensures !(id in runs && runs[id].job.tenant == tenant) ==> r == Failure(NotFound)
      ensures Visible(id, tenant) ==> r == if Owns(runs[id], token, now) then Success(runs[id]) else Failure(LeaseLost)
    {
      if !Visible(id, tenant) {
        return Failure(NotFound);
      }
      var row := runs[id];
      if row.state != Running || row.token != Some(token) || !LeaseActive(row, now) {
        return Failure(LeaseLost);
      }
      return Success(row);
    }

    /** The value is the time left before the run's deadline, which may be negative. */
    method Guard(id: RunId, tenant: TenantId, token: Token, checked: Time, renewed: Time) returns (r: Result<Time, RunError>)
      requires Valid()
      modifies this
      ensures Valid() && keys == old(keys)
      ensures !(id in old(runs) && old(runs)[id].job.tenant == tenant) ==> r == Failure(NotFound) && runs == old(runs)
      ensures old(Visible(id, tenant)) ==>
        var row := old(runs)[id];
        var guarded := GuardRun(policy, row, token, checked, renewed);
        && runs == old(runs)[id := Apply(policy, row, Op.Guard(token, checked, renewed))]
        && (guarded.Failure? ==> r == Failure(guarded.error))
        && (guarded.Success? ==> row.deadline.Some? && r == Success(row.deadline.value - renewed))
    {
      var owned := OwnedAttempt(id, tenant, token, checked);
      if owned.Failure? {
        return Failure(owned.error);
      }
      var row := owned.value;
      if row.cancelRequested {
        return Failure(CancelRequested);
      }
      assert RowValid(policy, id, row, nextToken);
      Write(id, row.(leaseUntil := Some(renewed + policy.leaseSeconds)), Op.Guard(token, checked, renewed));
      return Success(row.deadline.value - renewed);
    }

    method Checkpoint(id: RunId, tenant: TenantId, token: Token, cp: Checkpoint, checked: Time, renewed: Time)
      returns (r: Result<(), RunError>)
      requires Valid()
      modifies this
      ensures Valid() && keys == old(keys)
      ensures !(id in old(runs) && old(runs)[id].job.tenant == tenant) ==> r == Failure(NotFound) && runs == old(runs)
      ensures old(Visible(id, tenant)) ==>
        var saved := SaveRun(policy, old(runs)[id], token, cp, checked, renewed);
        && runs == old(runs)[id := Apply(policy, old(runs)[id], Op.Save(token, cp, checked, renewed))]
        && r == if saved.Success? then Success(()) else Failure(saved.error)
    {
      var owned := OwnedAttempt(id, tenant, token, checked);
      if owned.Failure? {
        return Failure(owned.error);
      }
      if owned.value.cancelRequested {
        return Failure(CancelRequested);
      }
      var run := owned.value.(checkpoint := cp, leaseUntil := Some(renewed + policy.leaseSeconds));
      Write(id, run, Op.Save(token, cp, checked, renewed));
      return Success(());
    }

    method Finish(
      id: RunId, tenant: TenantId, token: Token, outcome: RunState, result: Option<Decision>, error: Option<string>, checked: Time)
      returns (r: Result<(), RunError>)
      requires Valid()
      modifies this
      ensures Valid() && keys == old(keys)
      ensures outcome in {Queued, Running} ==> r == Failure(InvalidState) && runs == old(runs)
      ensures outcome !in {Queued, Running} && !(id in old(runs) && old(runs)[id].job.tenant == tenant) ==> r == Failure(NotFound) && runs == old(runs)
      ensures outcome !in {Queued, Running} && old(Visible(id, tenant)) ==>
        var finished := FinishRun(old(runs)[id], token, outcome, result, error, checked);
        && runs == old(runs)[id := Apply(policy, old(runs)[id], Op.Finish(token, outcome, result, error, checked))]
        && r == if finished.Success? then Success(()) else Failure(finished.error)
    {
      if outcome !in {Succeeded, Failed, Cancelled, Exhausted, NeedsReview} {
        return Failure(InvalidState);
      }
      var owned := OwnedAttempt(id, tenant, token, checked);
      if owned.Failure? {
        return Failure(owned.error);
      }
      var row := owned.value;
      var state, saved, note := outcome, result, error;
      if row.cancelRequested {
        state, saved, note := Cancelled, None, Some("cancelled");
      }
      var run := row.(state := state, result := saved, error := note, token := None, leaseUntil := None,
        history := CloseAttempt(row.history, Some(token), Closed(state), note));
      Write(id, run, Op.Finish(token, outcome, result, error, checked));
      return Success(());
    }

    /** Leaves the lease token in place: the attempt row of a lapsed run stays open. */
    method Cancel(id: RunId, tenant: TenantId, now: Time) returns (r: Result<Run, RunError>)
      requires Valid()
      modifies this
      ensures Valid() && keys == old(keys)
      ensures !(id in old(runs) && old(runs)[id].job.tenant == tenant) ==> r == Failure(NotFound) && runs == old(runs)
      ensures old(Visible(id, tenant)) ==>
        runs == old(runs)[id := Apply(policy, old(runs)[id], Op.Cancel(now))] && r == Success(runs[id])
    {
      if !Visible(id, tenant) {
        return Failure(NotFound);
      }
      var run := runs[id];
      if !Terminal(run.state) {
        var state := if run.state == Running && LeaseActive(run, now) then Running else Cancelled;
        run := run.(cancelRequested := true, state := state);
      }
      Write(id, run, Op.Cancel(now));
      return Success(run);
    }

    method Resume(id: RunId, tenant: TenantId, leaseRead: Time, deadlineRead: Time) returns (r: Result<Run, RunError>)
      requires Valid()
      modifies this
      ensures Valid() && keys == old(keys)
      ensures !(id in old(runs) && old(runs)[id].job.tenant == tenant) ==> r == Failure(NotFound) && runs == old(runs)
      ensures old(Visible(id, tenant)) ==>
        && r == ResumeRun(policy, old(runs)[id], leaseRead, deadlineRead)
        && runs == old(runs)[id := Apply(policy, old(runs)[id], Op.Resume(leaseRead, deadlineRead))]
    {
      if !Visible(id, tenant) {
        return Failure(NotFound);
      }
      var row := runs[id];
      if row.cancelRequested || Terminal(row.state) {
        return Failure(Conflict);
      }
      if row.state == Running && LeaseActive(row, leaseRead) {
        return Failure(Conflict);
      }
      if row.attempts >= policy.maxAttempts {
        return Failure(Conflict);
      }
      if row.checkpoint.pending.Some? && !row.checkpoint.replaySafe {
        return Failure(UnsafeReplay);
      }
      if row.deadline.Some? && row.deadline.value <= deadlineRead {
        return Failure(Conflict);
      }
      var run := row.(state := Queued, token := None, leaseUntil := None, published := false);
      Write(id, run, Op.Resume(leaseRead, deadlineRead));
      return Success(run);
    }
  }

  /** An empty key counts as no key. */
  function KeyOf(idempotencyKey: Option<string>): Option<string> {
    if idempotencyKey == Some("") then None else idempotencyKey
  }

  /** Two submissions agree in everything but the run id. */
  predicate SameInput(a: AgentRunJob, b: AgentRunJob) {
    a.(runId := b.runId) == b
  }

  predicate Keyed(run: Run, key: (TenantId, string)) {
    run.job.tenant == key.0 && run.idempotencyKey == Some(key.1)
  }

  predicate RowValid(p: StorePolicy, id: RunId, run: Run, nextToken: Token) {
    && run.job.runId == id
    && RunInv(p, run)
    && forall i :: 0 <= i < |run.history| ==> run.history[i].token < nextToken
  }

  lemma WriteKeepsRow(p: StorePolicy, id: RunId, run: Run, op: Op, nextToken: Token)
    requires RowValid(p, id, run, nextToken)
    requires op.Claim? ==> op.token == nextToken
    ensures RowValid(p, id, Apply(p, run, op), nextToken + 1)
    ensures Apply(p, run, op).idempotencyKey == run.idempotencyKey && Apply(p, run, op).job == run.job
  {
    ApplyKeepsInv(p, run, op);
    ApplyMovesForward(p, run, op);
    ApplyExtendsHistory(p, run, op);
  }

  lemma RowsMonotone(p: StorePolicy, runs: map<RunId, Run>, nextToken: Token)
    requires forall id :: id in runs ==> RowValid(p, id, runs[id], nextToken)
    ensures forall id :: id in runs ==> RowValid(p, id, runs[id], nextToken + 1)
  {
  }

  lemma NoTokenClosesNothing(history: seq<Attempt>)
    ensures CloseAttempt(history, None, Expired, None) == history
  {
  }
}
