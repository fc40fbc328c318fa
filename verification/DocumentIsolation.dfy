/**
 Tenants do not see or disturb each other: what a tenant's transactions do and
 answer is decided by that tenant's own rows, and touches no others.
 */
module DocumentIsolation {
  import opened Wrappers
  import opened Chunking
  import opened Evidence
  import opened DocumentTables
  import opened DocumentSystem
  import opened DocumentCorpus

  /** The rows of one tenant. */
  function Slice(t: Tables, tenant: TenantId): Tables {
    Tables(
      map key | key in t.versions && key.tenant == tenant :: t.versions[key],
      map id | id in t.jobs && t.jobs[id].tenant == tenant :: t.jobs[id],
      map k | k in t.keys && k.0 == tenant :: t.keys[k])
  }

  function Actor(e: Event): TenantId {
    match e
    case DoSubmit(tenant, _, _, _, _, _) => tenant
    case DoClaim(_, tenant, _, _, _) => tenant
    case DoCommit(claim, _, _) => claim.tenant
    case DoFail(claim, _) => claim.tenant
    case DoRetry(_, tenant, _) => tenant
    case DoPublish(_, tenant) => tenant
    case DoDelete(tenant, _) => tenant
    case DoCreate(record) => record.tenant
    case DoUpdate(record) => record.tenant
  }

  /** The tables after one transaction; nothing but the tables decides them. */
  function After(p: JobPolicy, t: Tables, e: Event): Tables {
    Next(p, System(t, 0.0, {}, {}, []), e).tables
  }

  lemma SliceShows(t: Tables, tenant: TenantId)
    ensures forall document :: Rows(Slice(t, tenant), DocumentKey(tenant, document)) == Rows(t, DocumentKey(tenant, document))
    ensures forall id :: Visible(Slice(t, tenant), id, tenant) <==> Visible(t, id, tenant)
    ensures forall id :: Visible(t, id, tenant) ==> Slice(t, tenant).jobs[id] == t.jobs[id]
  {
  }

  lemma SlicePut(t: Tables, id: JobId, j: JobRow, tenant: TenantId)
    requires id in t.jobs && j.tenant == t.jobs[id].tenant
    ensures var after := t.(jobs := t.jobs[id := j]);
      Slice(after, tenant) ==
        if j.tenant == tenant then Slice(t, tenant).(jobs := Slice(t, tenant).jobs[id := j]) else Slice(t, tenant)
  {
    var after := t.(jobs := t.jobs[id := j]);
    if j.tenant == tenant {
      assert Slice(after, tenant).jobs == Slice(t, tenant).jobs[id := j];
    } else {
      assert Slice(after, tenant).jobs == Slice(t, tenant).jobs;
    }
  }

  lemma SliceNew(t: Tables, id: JobId, j: JobRow, tenant: TenantId)
    requires id !in t.jobs
    ensures var after := t.(jobs := t.jobs[id := j], keys := t.keys[(j.tenant, j.key) := id]);
      Slice(after, tenant) ==
        if j.tenant == tenant
        then Slice(t, tenant).(jobs := Slice(t, tenant).jobs[id := j], keys := Slice(t, tenant).keys[(tenant, j.key) := id])
        else Slice(t, tenant)
  {
    var joined := t.(jobs := t.jobs[id := j]);
    SliceJoined(t, id, j, tenant);
    SliceNamed(joined, (j.tenant, j.key), id, tenant);
  }

  lemma SliceJoined(t: Tables, id: JobId, j: JobRow, tenant: TenantId)
    requires id !in t.jobs
    ensures Slice(t.(jobs := t.jobs[id := j]), tenant) ==
      if j.tenant == tenant then Slice(t, tenant).(jobs := Slice(t, tenant).jobs[id := j]) else Slice(t, tenant)
  {
    var after := t.(jobs := t.jobs[id := j]);
    assert Slice(after, tenant).jobs == if j.tenant == tenant then Slice(t, tenant).jobs[id := j] else Slice(t, tenant).jobs;
  }

  lemma SliceNamed(t: Tables, key: (TenantId, string), id: JobId, tenant: TenantId)
    ensures Slice(t.(keys := t.keys[key := id]), tenant) ==
      if key.0 == tenant then Slice(t, tenant).(keys := Slice(t, tenant).keys[key := id]) else Slice(t, tenant)
  {
    var after := t.(keys := t.keys[key := id]);
    assert Slice(after, tenant).keys == if key.0 == tenant then Slice(t, tenant).keys[key := id] else Slice(t, tenant).keys;
  }

  lemma SliceWritten(t: Tables, key: DocumentKey, rows: seq<VersionRow>, tenant: TenantId)
    ensures var after := t.(versions := t.versions[key := rows]);
      Slice(after, tenant) ==
        if key.tenant == tenant then Slice(t, tenant).(versions := Slice(t, tenant).versions[key := rows]) else Slice(t, tenant)
  {
    var after := t.(versions := t.versions[key := rows]);
    if key.tenant == tenant {
      assert Slice(after, tenant).versions == Slice(t, tenant).versions[key := rows];
    } else {
      assert Slice(after, tenant).versions == Slice(t, tenant).versions;
    }
  }

  lemma SliceDeleted(t: Tables, key: DocumentKey, tenant: TenantId)
    ensures var after := t.(versions := t.versions - {key}, jobs := FenceAll(t.jobs, key));
      var slice := Slice(t, tenant);
      Slice(after, tenant) ==
        if key.tenant == tenant then slice.(versions := slice.versions - {key}, jobs := FenceAll(slice.jobs, key)) else slice
  {
    var after := t.(versions := t.versions - {key}, jobs := FenceAll(t.jobs, key));
    var slice := Slice(t, tenant);
    if key.tenant == tenant {
      assert Slice(after, tenant).versions == slice.versions - {key};
      assert Slice(after, tenant).jobs == FenceAll(slice.jobs, key);
    } else {
      assert Slice(after, tenant).versions == slice.versions;
      assert Slice(after, tenant).jobs == slice.jobs;
    }
  }

  /** What holds of one transaction for one tenant: a stranger's changes nothing, its own needs nothing else. */
  predicate Apart(p: JobPolicy, t: Tables, e: Event, tenant: TenantId) {
    Slice(After(p, t, e), tenant) == if Actor(e) == tenant then After(p, Slice(t, tenant), e) else Slice(t, tenant)
  }

  lemma ClaimApart(p: JobPolicy, t: Tables, e: Event, tenant: TenantId)
    requires e.DoClaim?
    ensures Apart(p, t, e, tenant)
  {
    hide Readable;
    SliceShows(t, tenant);
    if Visible(t, e.job, e.tenant) && After(p, t, e) != t {
      assert After(p, t, e) == t.(jobs := t.jobs[e.job := After(p, t, e).jobs[e.job]]);
      SlicePut(t, e.job, After(p, t, e).jobs[e.job], tenant);
    }
  }

  lemma RowApart(p: JobPolicy, t: Tables, e: Event, tenant: TenantId)
    requires e.DoFail? || e.DoRetry? || e.DoPublish?
    ensures Apart(p, t, e, tenant)
  {
    SliceShows(t, tenant);
    var id := if e.DoFail? then e.claim.job else e.job;
    if Visible(t, id, Actor(e)) {
      assert After(p, t, e) == t || After(p, t, e) == t.(jobs := t.jobs[id := After(p, t, e).jobs[id]]);
      SlicePut(t, id, After(p, t, e).jobs[id], tenant);
    }
  }

  lemma SubmitApart(p: JobPolicy, t: Tables, e: Event, tenant: TenantId)
    requires e.DoSubmit? && KeysInv(t) && e.freshJob !in t.jobs
    ensures Apart(p, t, e, tenant)
  {
    hide ValidKey, ValidRequest, ValidTenant, CreateVersion, ClaimJob, CommitJob, FailJob, RetryJob, MarkPublished, Delete;
    SliceShows(t, tenant);
    SliceNew(t, e.freshJob, NewJob(e.tenant, TargetOf(e.request, e.freshDocument), e.request, e.options, e.key), tenant);
  }

  lemma DirectApart(p: JobPolicy, t: Tables, e: Event, tenant: TenantId)
    requires e.DoCreate? || e.DoUpdate?
    ensures Apart(p, t, e, tenant)
  {
    hide WellFormed, ValidTenant, MaxVersion, Submit, ClaimJob, CommitJob, FailJob, RetryJob, MarkPublished, Delete;
    SliceShows(t, tenant);
    SliceWritten(t, KeyOf(e.record), Rows(t, KeyOf(e.record)) + [VersionRow(e.record.version, e.record)], tenant);
  }

  lemma CommitApart(p: JobPolicy, t: Tables, e: Event, tenant: TenantId)
    requires e.DoCommit?
    ensures Apart(p, t, e, tenant)
  {
    hide WellFormed, ValidTenant, MaxVersion;
    SliceShows(t, tenant);
    var record := Directed(e.claim, e.record);
    if CommitJob(t, e.claim, e.record, e.now).Success? {
      var written := t.(versions := t.versions[KeyOf(record) := Rows(t, KeyOf(record)) + [VersionRow(record.version, record)]]);
      SliceWritten(t, KeyOf(record), Rows(t, KeyOf(record)) + [VersionRow(record.version, record)], tenant);
      SlicePut(written, e.claim.job, After(p, t, e).jobs[e.claim.job], tenant);
    }
  }

  lemma DeleteApart(p: JobPolicy, t: Tables, e: Event, tenant: TenantId)
    requires e.DoDelete?
    ensures Apart(p, t, e, tenant)
  {
    hide ValidTenant, FenceAll;
    SliceShows(t, tenant);
    SliceDeleted(t, DocumentKey(e.tenant, e.document), tenant);
  }

  /** A stranger's transaction leaves a tenant's rows as they are; its own is decided by those rows alone. */
  lemma TransactionsApart(p: JobPolicy, t: Tables, e: Event, tenant: TenantId)
    requires KeysInv(t) && (e.DoSubmit? ==> e.freshJob !in t.jobs)
    ensures Actor(e) != tenant ==> Slice(After(p, t, e), tenant) == Slice(t, tenant)
    ensures Actor(e) == tenant ==> Slice(After(p, t, e), tenant) == After(p, Slice(t, tenant), e)
  {
    hide After, Slice;
    assert Apart(p, t, e, tenant) by {
      match e
      case DoSubmit(_, _, _, _, _, _) => SubmitApart(p, t, e, tenant);
      case DoClaim(_, _, _, _, _) => ClaimApart(p, t, e, tenant);
      case DoCommit(_, _, _) => CommitApart(p, t, e, tenant);
      case DoDelete(_, _) => DeleteApart(p, t, e, tenant);
      case DoCreate(_) => DirectApart(p, t, e, tenant);
      case DoUpdate(_) => DirectApart(p, t, e, tenant);
      case _ => RowApart(p, t, e, tenant);
    }
  }

  /** What a tenant is told is decided by its own rows too. */
  lemma AnswersApart(p: JobPolicy, t: Tables, tenant: TenantId)
    requires KeysInv(t)
    ensures var own := Slice(t, tenant);
      && (forall d: DocumentId, v: Option<nat> :: GetVersion(own, tenant, d, v) == GetVersion(t, tenant, d, v))
      && (forall id: JobId :: Visible(own, id, tenant) <==> Visible(t, id, tenant))
      && (forall id: JobId, now: Time :: Visible(t, id, tenant) ==> View(own, id, now) == View(t, id, now))
  {
    SliceShows(t, tenant);
  }

  // ------------------------------------------------------------- whole runs

  /** The tenant's own part of what happened. */
  function Own(moments: seq<Moment>, tenant: TenantId): seq<Event> {
    if moments == [] then []
    else
      var rest := Own(moments[..|moments| - 1], tenant);
      var e := moments[|moments| - 1].event;
      if Actor(e) == tenant then rest + [e] else rest
  }

  function Play(p: JobPolicy, t: Tables, events: seq<Event>): Tables {
    if events == [] then t else After(p, Play(p, t, events[..|events| - 1]), events[|events| - 1])
  }

  lemma NextIsAfter(p: JobPolicy, s: System, e: Event)
    ensures Next(p, s, e).tables == After(p, s.tables, e)
  {
    hide Submit, ClaimJob, CommitJob, FailJob, RetryJob, MarkPublished, Delete, CreateVersion;
  }

  /** Over any run of the whole system, a tenant's rows are what its own transactions alone make of them. */
  lemma {:induction false} TenantsAreApart(p: JobPolicy, s: System, moments: seq<Moment>, t: System, tenant: TenantId)
    requires SystemInv(p, s) && Leads(p, s, moments, t)
    ensures Slice(t.tables, tenant) == Play(p, Slice(s.tables, tenant), Own(moments, tenant))
    decreases |moments|
  {
    hide Slice, After, SystemInv;
    if moments == [] {
    } else {
      var init, m := moments[..|moments| - 1], moments[|moments| - 1];
      var before: System :|
        Leads(p, s, init, before)
        && Possible(before, m.event, m.after)
        && t == Next(p, before, m.event).(clock := m.after);
      TenantsAreApart(p, s, init, before, tenant);
      LeadsKeepsInv(p, s, init, before);
      KeysHold(p, before);
      NextIsAfter(p, before, m.event);
      TransactionsApart(p, before.tables, m.event, tenant);
      if Actor(m.event) == tenant {
        assert (Own(init, tenant) + [m.event])[..|Own(init, tenant)|] == Own(init, tenant);
      }
    }
  }

  lemma KeysHold(p: JobPolicy, s: System)
    requires SystemInv(p, s)
    ensures KeysInv(s.tables)
  {
  }

  /** The corpus a tenant searches is read from its own rows. */
  lemma CorpusApart(t: Tables, size: StoredVersion -> nat, tenant: TenantId, maxDocuments: int, maxBytes: int)
    ensures ReadLatest(Slice(t, tenant), size, tenant, maxDocuments, maxBytes) == ReadLatest(t, size, tenant, maxDocuments, maxBytes)
  {
    SliceShows(t, tenant);
    var own := Slice(t, tenant);
    assert Documents(own, tenant) == Documents(t, tenant);
    AllDocumentsStored(own, tenant);
    AllDocumentsStored(t, tenant);
    var ids := Ascending(Documents(t, tenant));
    assert NewestRows(own, tenant, ids) == NewestRows(t, tenant, ids);
  }
}
