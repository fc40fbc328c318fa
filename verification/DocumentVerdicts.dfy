/**
 What each job transaction decides, by guards a caller could read beforehand, what it
 leaves behind, and which transactions can touch a job at all.
 */
module DocumentVerdicts {
  import opened Wrappers
  import opened Chunking
  import opened Evidence
  import opened DocumentTables
  import opened DocumentSystem
  import opened DocumentTheorems

  // ---------------------------------------------------------------- deletion

  /** A job whose document was deleted: a success stays on record, anything else is over for good. */
  predicate Fenced(before: JobRow, after: JobRow) {
    if before.state == Succeeded then after == before
    else
      && after.state == Failed && after.error == Some("DocumentDeleted")
      && after.payload.None? && after.token.None? && after.leaseUntil.None? && after.version.None?
      && after.submitted == before.submitted && after.key == before.key && after.attempts == before.attempts
      && after.published == before.published
  }

  /** Deleting takes every version of this document and fences this document's jobs, and nothing of any other document or tenant. */
  lemma DeleteFencesExactly(p: JobPolicy, t: Tables, tenant: TenantId, document: DocumentId)
    requires TablesInv(p, t)
    ensures var r := Delete(t, tenant, document);
      && (r.Success? <==> DocumentKey(tenant, document) in t.versions)
      && (r.Success? ==>
        var after := r.value;
        && (forall key :: key in after.versions <==> key in t.versions && key != DocumentKey(tenant, document))
        && (forall key :: key in after.versions ==> after.versions[key] == t.versions[key])
        && after.keys == t.keys && after.jobs.Keys == t.jobs.Keys
        && (forall id :: id in t.jobs && !(t.jobs[id].tenant == tenant && t.jobs[id].document == document) ==>
          after.jobs[id] == t.jobs[id])
        && (forall id :: id in t.jobs && t.jobs[id].tenant == tenant && t.jobs[id].document == document ==>
          Fenced(t.jobs[id], after.jobs[id])))
  {
    forall id | id in t.jobs
      ensures Fenced(t.jobs[id], Fence(t.jobs[id])) && t.jobs[id].tenant == Fence(t.jobs[id]).tenant
    {
      assert JobInv(p, t.jobs[id]);
    }
    assert forall key :: key in t.versions ==> HistoryInv(key, t.versions[key]);
  }

  // ------------------------------------------------------------- submissions

  /** A key used before names its job: the same request gets that job again and any other is a conflict. Otherwise one queued job joins. */
  lemma SubmitExactly(p: JobPolicy, t: Tables, tenant: TenantId, r: Request, o: ChunkingOptions, key: string,
    d: DocumentId, id: JobId)
    requires TablesInv(p, t) && id !in t.jobs && ValidKey(key) && ValidRequest(r) && ValidTenant(tenant)
    ensures var s := Submit(t, tenant, r, o, key, d, id);
      && (s.Failure? ==> s.error == JobConflict)
      && (forall k :: k in t.jobs && t.jobs[k].tenant == tenant && t.jobs[k].key == key ==>
        (if t.jobs[k].submitted == r then s == Success((t, Submission(k, true))) else s.Failure?))
      && ((forall k :: k in t.jobs ==> !(t.jobs[k].tenant == tenant && t.jobs[k].key == key)) ==>
        && s.Success? && s.value.1 == Submission(id, false)
        && s.value.0.versions == t.versions && s.value.0.jobs.Keys == t.jobs.Keys + {id}
        && (forall k :: k in t.jobs ==> s.value.0.jobs[k] == t.jobs[k])
        && var j := s.value.0.jobs[id];
          && j.tenant == tenant && j.key == key && j.submitted == r && j.payload == Some(r) && j.options == o
          && j.document == (if r.UpdateRequest? then r.documentId else d)
          && j.state == Queued && j.attempts == 0 && j.version.None? && j.error.None? && !j.published)
  {
    hide HistoryInv, JobInv, ValidKey, ValidRequest, ValidTenant;
  }

  lemma KeyStays(p: JobPolicy, s: System, e: Event, after: Time, id: JobId)
    requires SystemInv(p, s) && Possible(s, e, after) && id in s.tables.jobs
    ensures var j, u := s.tables.jobs[id], Next(p, s, e).tables;
      id in u.jobs && u.jobs[id].tenant == j.tenant && u.jobs[id].key == j.key && u.jobs[id].submitted == j.submitted
  {
    EventStep(p, s, e, after, id);
  }

  /** A job answers to its key for good: whatever happened since, a repeated submission gets it and a different one never does. */
  lemma RepeatedSubmission(p: JobPolicy, s: System, moments: seq<Moment>, t: System, id: JobId,
    r: Request, o: ChunkingOptions, d: DocumentId, freshJob: JobId)
    requires SystemInv(p, s) && Leads(p, s, moments, t) && id in s.tables.jobs
    requires freshJob !in t.tables.jobs && ValidRequest(r)
    ensures SystemInv(p, t) && id in t.tables.jobs
    ensures var j, k := s.tables.jobs[id], t.tables.jobs[id];
      k.tenant == j.tenant && k.key == j.key && k.submitted == j.submitted
    ensures var j := s.tables.jobs[id];
      ValidKey(j.key) ==>
        Submit(t.tables, j.tenant, r, o, j.key, d, freshJob) ==
          if r == j.submitted then Success((t.tables, Submission(id, true))) else Failure(JobConflict)
  {
    LeadsKeepsInv(p, s, moments, t);
    KeyForever(p, s, moments, t, id);
    assert JobInv(p, t.tables.jobs[id]);
    if ValidKey(s.tables.jobs[id].key) {
      SubmitExactly(p, t.tables, s.tables.jobs[id].tenant, r, o, s.tables.jobs[id].key, d, freshJob);
    }
  }

  lemma {:induction false} KeyForever(p: JobPolicy, s: System, moments: seq<Moment>, t: System, id: JobId)
    requires SystemInv(p, s) && Leads(p, s, moments, t) && id in s.tables.jobs
    ensures id in t.tables.jobs
    ensures var j, k := s.tables.jobs[id], t.tables.jobs[id];
      k.tenant == j.tenant && k.key == j.key && k.submitted == j.submitted
    decreases |moments|
  {
    if moments == [] {
    } else {
      var m := moments[|moments| - 1];
      var before: System :|
        Leads(p, s, moments[..|moments| - 1], before)
        && Possible(before, m.event, m.after)
        && t == Next(p, before, m.event).(clock := m.after);
      KeyForever(p, s, moments[..|moments| - 1], before, id);
      LeadsKeepsInv(p, s, moments[..|moments| - 1], before);
      KeyStays(p, before, m.event, m.after, id);
    }
  }

  // ------------------------------------------------------- claims and retries

  /** The job may be given to a worker. */
  predicate Available(p: JobPolicy, j: JobRow, now: Time) {
    && j.attempts < p.maxAttempts
    && (j.state == Queued || (j.state == Running && j.leaseUntil.Some? && j.leaseUntil.value <= now))
  }

  /** Exactly which jobs a claim hands out, spends or refuses. */
  lemma ClaimExactly(p: JobPolicy, t: Tables, id: JobId, tenant: TenantId, token: Token, leaseRead: Time, renewRead: Time)
    requires TablesInv(p, t) && id in t.jobs && t.jobs[id].tenant == tenant
    ensures var j := t.jobs[id];
      var r := ClaimJob(p, t, id, tenant, token, leaseRead, renewRead);
      && (r.Success? && r.value.1.Some? <==> Available(p, j, leaseRead))
      && (r.Success? && r.value.1.Some? ==>
        && r.value.1.value == JobClaim(id, tenant, j.document, j.submitted, j.options, token)
        && r.value.0 == t.(jobs := t.jobs[id := r.value.0.jobs[id]])
        && (forall now: Time :: Holds(r.value.0, r.value.1.value, now) <==> now < renewRead + p.leaseSeconds)
        && r.value.0.jobs[id].attempts == j.attempts + 1)
      && (r == Failure(JobConflict) <==> j.state == Running && j.leaseUntil.value > leaseRead)
      && (r.Success? && r.value.1.None? && r.value.0 == t <== j.state in {Succeeded, Failed})
      && (r.Success? && r.value.1.None? && r.value.0 != t ==>
        && j.attempts >= p.maxAttempts
        && r.value.0.jobs[id].state == Failed && r.value.0.jobs[id].error == Some("AttemptLimit")
        && r.value.0.jobs[id].payload.None?)
  {
    hide HistoryInv, KeysInv;
    assert JobInv(p, t.jobs[id]);
  }

  /** Exactly which jobs are requeued; a requeued job can be claimed at once. */
  lemma RetryExactly(p: JobPolicy, t: Tables, id: JobId, tenant: TenantId, now: Time)
    requires TablesInv(p, t) && id in t.jobs && t.jobs[id].tenant == tenant
    ensures var j := t.jobs[id];
      var r := RetryJob(p, t, id, tenant, now);
      && (r.Success? <==>
        || j.state == Queued
        || (j.attempts < p.maxAttempts && j.payload.Some?
          && (j.state == Failed || (j.state == Running && j.leaseUntil.value <= now))))
      && (r.Success? && j.state == Queued ==> r.value == t)
      && (r.Success? && j.state != Queued ==>
        && r.value == t.(jobs := t.jobs[id := r.value.jobs[id]])
        && Available(p, r.value.jobs[id], now) && r.value.jobs[id].state == Queued
        && r.value.jobs[id].error.None? && !r.value.jobs[id].published
        && r.value.jobs[id].attempts == j.attempts && r.value.jobs[id].payload == j.payload)
      && (r.Failure? ==> r.error == JobConflict)
  {
    hide HistoryInv, KeysInv;
    assert JobInv(p, t.jobs[id]);
  }

  /** What a failure report of the current claim leaves: retryable while attempts are left, final after the last. */
  lemma FailExactly(p: JobPolicy, t: Tables, claim: JobClaim, code: string, now: Time)
    requires TablesInv(p, t) && claim.job in t.jobs && t.jobs[claim.job].tenant == claim.tenant
    requires t.jobs[claim.job].state == Running && t.jobs[claim.job].token == Some(claim.token)
    ensures var after := FailJob(p, t, claim, code);
      && after == t.(jobs := t.jobs[claim.job := after.jobs[claim.job]])
      && after.jobs[claim.job].state == Failed && after.jobs[claim.job].error == Some(code)
      && (RetryJob(p, after, claim.job, claim.tenant, now).Success? <==> t.jobs[claim.job].attempts < p.maxAttempts)
      && (Settled(after.jobs[claim.job]) <==> t.jobs[claim.job].attempts >= p.maxAttempts)
  {
    hide HistoryInv, KeysInv;
    assert JobInv(p, t.jobs[claim.job]);
  }

  /** What the receipt of a job says. */
  lemma ReceiptSays(p: JobPolicy, t: Tables, id: JobId, now: Time)
    requires TablesInv(p, t) && id in t.jobs
    ensures var j, view := t.jobs[id], View(t, id, now);
      && view.job == id && view.tenant == j.tenant && view.document == j.document
      && view.state == j.state && view.attempts == j.attempts && view.error == j.error && view.published == j.published
      && (view.creates <==> !j.submitted.UpdateRequest?)
      && (view.version.Some? <==> j.state == Succeeded)
      && (view.leaseActive <==> j.leaseUntil.Some? && now < j.leaseUntil.value)
      && (view.resultAvailable <==>
        j.state == Succeeded && DocumentKey(j.tenant, j.document) in t.versions
        && 1 <= j.version.value <= |t.versions[DocumentKey(j.tenant, j.document)]|)
  {
    hide KeysInv;
    var j := t.jobs[id];
    assert JobInv(p, j);
    var key := DocumentKey(j.tenant, j.document);
    if j.version.Some? {
      assert key in t.versions ==> HistoryInv(key, t.versions[key]);
      FindInHistory(Rows(t, key), j.version.value);
    }
  }

  // ------------------------------------------------- who can touch a job at all

  /** The event is about this job, or about the document it is for. */
  predicate Concerns(e: Event, id: JobId, j: JobRow) {
    match e
    case DoClaim(job, tenant, _, _, _) => job == id && tenant == j.tenant && j.state in {Queued, Running}
    case DoCommit(claim, _, _) => claim.job == id && j.state == Running && j.token == Some(claim.token)
    case DoFail(claim, _) => claim.job == id && j.state == Running && j.token == Some(claim.token)
    case DoRetry(job, tenant, _) => job == id && tenant == j.tenant && j.state in {Running, Failed}
    case DoPublish(job, tenant) => job == id && tenant == j.tenant
    case DoDelete(tenant, document) => tenant == j.tenant && document == j.document
    case _ => false
  }

  /** Any other event leaves the job's row exactly as it is. */
  lemma UntouchedJob(p: JobPolicy, s: System, e: Event, after: Time, id: JobId)
    requires SystemInv(p, s) && Possible(s, e, after) && id in s.tables.jobs
    requires !Concerns(e, id, s.tables.jobs[id])
    ensures id in Next(p, s, e).tables.jobs && Next(p, s, e).tables.jobs[id] == s.tables.jobs[id]
  {
    hide HistoryInv, KeysInv, AppendedInv, SeenInv, TokenInv, ClaimInv;
    assert JobInv(p, s.tables.jobs[id]);
    match e
    case DoDelete(tenant, document) => DeleteFencesExactly(p, s.tables, tenant, document);
    case _ =>
  }

  /** The claimant reports, or the document is deleted. */
  predicate EndsClaim(e: Event, c: JobClaim) {
    || (e.DoCommit? && e.claim.token == c.token)
    || (e.DoFail? && e.claim.token == c.token)
    || (e.DoDelete? && e.tenant == c.tenant && e.document == c.document)
  }

  predicate NotEnded(moments: seq<Moment>, c: JobClaim) {
    forall i :: 0 <= i < |moments| ==> !EndsClaim(moments[i].event, c)
  }

  /** While its lease lasts, a claim holds its job against every other claim and retry. */
  lemma HolderStep(p: JobPolicy, s: System, e: Event, after: Time, c: JobClaim)
    requires SystemInv(p, s) && Possible(s, e, after) && c in s.claims && !EndsClaim(e, c)
    requires Holds(s.tables, c, s.clock) && s.tables.jobs[c.job].leaseUntil.value > after
    ensures var t := Next(p, s, e).(clock := after);
      && Holds(t.tables, c, t.clock) && c in t.claims
      && t.tables.jobs[c.job].(published := s.tables.jobs[c.job].published) == s.tables.jobs[c.job]
  {
    hide HistoryInv, KeysInv, AppendedInv, SeenInv;
    var j := s.tables.jobs[c.job];
    assert ClaimInv(s, c);
    if Concerns(e, c.job, j) {
      match e
      case DoClaim(id, tenant, token, read, renew) => ClaimExactly(p, s.tables, id, tenant, token, read, renew);
      case DoRetry(id, tenant, now) => RetryExactly(p, s.tables, id, tenant, now);
      case DoPublish(_, _) =>
    } else {
      UntouchedJob(p, s, e, after, c.job);
    }
  }

  /** Until its lease runs out, a worker that has not reported still holds its job, unless the document is deleted. */
  lemma {:induction false} HolderUndisturbed(p: JobPolicy, s: System, moments: seq<Moment>, t: System, c: JobClaim)
    requires SystemInv(p, s) && Leads(p, s, moments, t) && c in s.claims && NotEnded(moments, c)
    requires Holds(s.tables, c, s.clock) && s.tables.jobs[c.job].leaseUntil.value > t.clock
    ensures Holds(t.tables, c, t.clock) && c in t.claims && s.clock <= t.clock && SystemInv(p, t)
    ensures t.tables.jobs[c.job].(published := s.tables.jobs[c.job].published) == s.tables.jobs[c.job]
    decreases |moments|
  {
    if moments == [] {
    } else {
      var n := |moments| - 1;
      var m := moments[n];
      var before: System :|
        Leads(p, s, moments[..n], before)
        && Possible(before, m.event, m.after)
        && t == Next(p, before, m.event).(clock := m.after);
      HolderUndisturbed(p, s, moments[..n], before, c);
      HolderStep(p, before, m.event, m.after, c);
      NextKeepsInv(p, before, m.event, m.after);
    }
  }
}
