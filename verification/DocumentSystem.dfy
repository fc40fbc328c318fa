/**
 Documents over any interleaving: submissions, workers with claims of any age,
 direct creates and updates, retries and deletes. Fresh ids are ids no request
 has ever mentioned.
 */
module DocumentSystem {
  import opened Wrappers
  import opened Chunking
  import opened Evidence
  import opened DocumentTables

  /** A version a job appended. */
  datatype Appended = Appended(job: JobId, key: DocumentKey, version: nat)

  datatype System = System(
    tables: Tables,
    clock: Time,
    seen: set<DocumentId>, // every document id generated or mentioned so far
    claims: set<JobClaim>, // every claim ever handed out
    appended: seq<Appended>)

  const EMPTY := Tables(map[], map[], map[])

  function Begin(clock: Time): System {
    System(EMPTY, clock, {}, {}, [])
  }

  datatype Event =
    | DoSubmit(tenant: TenantId, request: Request, options: ChunkingOptions, key: string, freshDocument: DocumentId, freshJob: JobId)
    | DoClaim(job: JobId, tenant: TenantId, token: Token, leaseRead: Time, renewRead: Time)
    | DoCommit(claim: JobClaim, record: StoredVersion, now: Time)
    | DoFail(claim: JobClaim, code: string)
    | DoRetry(job: JobId, tenant: TenantId, now: Time)
    | DoPublish(job: JobId, tenant: TenantId)
    | DoDelete(tenant: TenantId, document: DocumentId)
    | DoCreate(record: StoredVersion) // the coordinator's process: a fresh id, version 1
    | DoUpdate(record: StoredVersion) // the coordinator's update: version expected + 1, at least 2

  function Keep(t: Tables, r: Result<Tables, StoreError>): Tables {
    if r.Success? then r.value else t
  }

  /** Commits only with claims that were handed out; ids and tokens are generated fresh. */
  predicate Possible(s: System, e: Event, after: Time) {
    && s.clock <= after
    && match e
      case DoSubmit(_, request, options, _, d, id) =>
        ValidOptions(options) && id !in s.tables.jobs && (request.CreateRequest? ==> d !in s.seen)
      case DoClaim(_, _, token, t, u) => s.clock <= t <= u <= after && forall c :: c in s.claims ==> c.token != token
      case DoCommit(claim, _, t) => claim in s.claims && s.clock <= t <= after
      case DoFail(claim, _) => claim in s.claims
      case DoRetry(_, _, t) => s.clock <= t <= after
      case DoPublish(_, _) => true
      case DoDelete(_, _) => true
      case DoCreate(record) => record.documentId !in s.seen && record.version == 1
      case DoUpdate(record) => record.version >= 2
  }

  function Next(p: JobPolicy, s: System, e: Event): System {
    match e
    case DoSubmit(tenant, request, options, key, d, id) =>
      var r := Submit(s.tables, tenant, request, options, key, d, id);
      s.(tables := if r.Success? then r.value.0 else s.tables, seen := s.seen + {TargetOf(request, d)})
    case DoClaim(job, tenant, token, t, u) =>
      var r := ClaimJob(p, s.tables, job, tenant, token, t, u);
      if r.Failure? then s
      else s.(tables := r.value.0, claims := s.claims + if r.value.1.Some? then {r.value.1.value} else {})
    case DoCommit(claim, record, t) =>
      var r := CommitJob(s.tables, claim, record, t);
      if r.Failure? then s
      else s.(tables := r.value.0, appended := s.appended + [Appended(claim.job, KeyOf(r.value.1), r.value.1.version)])
    case DoFail(claim, code) => s.(tables := FailJob(p, s.tables, claim, code))
    case DoRetry(job, tenant, t) => s.(tables := Keep(s.tables, RetryJob(p, s.tables, job, tenant, t)))
    case DoPublish(job, tenant) => s.(tables := Keep(s.tables, MarkPublished(s.tables, job, tenant)))
    case DoDelete(tenant, document) =>
      s.(tables := Keep(s.tables, Delete(s.tables, tenant, document)), seen := s.seen + {document})
    case DoCreate(record) => s.(tables := Keep(s.tables, CreateVersion(s.tables, record)), seen := s.seen + {record.documentId})
    case DoUpdate(record) => s.(tables := Keep(s.tables, CreateVersion(s.tables, record)), seen := s.seen + {record.documentId})
  }

  datatype Moment = Moment(event: Event, after: Time)

  ghost predicate Leads(p: JobPolicy, s: System, moments: seq<Moment>, t: System)
    decreases |moments|
  {
    if moments == [] then s == t
    else
      var m := moments[|moments| - 1];
      exists before: System ::
        Leads(p, s, moments[..|moments| - 1], before)
        && Possible(before, m.event, m.after)
        && t == Next(p, before, m.event).(clock := m.after)
  }

  ghost predicate Reachable(p: JobPolicy, s: System) {
    exists clock: Time, moments: seq<Moment> :: Leads(p, Begin(clock), moments, s)
  }

  // ------------------------------------------------------------------ invariant

  /** A claim still describes the job it was made on, and its token names it alone. */
  predicate ClaimInv(s: System, c: JobClaim) {
    && c.job in s.tables.jobs
    && var j := s.tables.jobs[c.job];
      c.tenant == j.tenant && c.document == j.document && c.request == j.submitted
  }

  predicate TokenInv(s: System) {
    && (forall c, d :: c in s.claims && d in s.claims && c.token == d.token ==> c == d)
    && (forall id :: id in s.tables.jobs && s.tables.jobs[id].token.Some? ==> TokenIssued(s.claims, s.tables.jobs[id].token.value))
  }

  predicate TokenIssued(claims: set<JobClaim>, token: Token) {
    exists c :: c in claims && c.token == token
  }

  predicate SeenInv(s: System) {
    && (forall key :: key in s.tables.versions ==> key.document in s.seen)
    && (forall id :: id in s.tables.jobs ==> s.tables.jobs[id].document in s.seen)
  }

  predicate AppendedBy(appended: seq<Appended>, id: JobId) {
    exists i :: 0 <= i < |appended| && appended[i].job == id
  }

  /** A job appended at most once, and it is succeeded exactly when it did. */
  predicate AppendedInv(s: System) {
    && (forall i :: 0 <= i < |s.appended| ==> EntryInv(s.tables, s.appended[i]))
    && (forall i, k :: 0 <= i < k < |s.appended| ==> s.appended[i].job != s.appended[k].job)
    && (forall id :: id in s.tables.jobs && s.tables.jobs[id].state == Succeeded ==> AppendedBy(s.appended, id))
  }

  predicate EntryInv(t: Tables, a: Appended) {
    && a.job in t.jobs
    && t.jobs[a.job].state == Succeeded
    && t.jobs[a.job].version == Some(a.version)
    && a.version == ExpectedVersion(t.jobs[a.job].submitted)
    && a.key == DocumentKey(t.jobs[a.job].tenant, t.jobs[a.job].document)
  }

  predicate SystemInv(p: JobPolicy, s: System) {
    && TablesInv(p, s.tables)
    && (forall c :: c in s.claims ==> ClaimInv(s, c))
    && TokenInv(s)
    && SeenInv(s)
    && AppendedInv(s)
  }

  /** What every transaction but the committing one does to job rows. */
  predicate JobsKeep(before: map<JobId, JobRow>, after: map<JobId, JobRow>) {
    forall id :: id in before ==> id in after && SameJob(before[id], after[id])
  }

  predicate SameJob(before: JobRow, after: JobRow) {
    && after.tenant == before.tenant && after.document == before.document && after.submitted == before.submitted
    && after.key == before.key
    && (before.state == Succeeded <==> after.state == Succeeded)
    && (before.state == Succeeded ==> after.version == before.version)
  }

  lemma KeepsEntries(before: Tables, after: Tables, appended: seq<Appended>)
    requires JobsKeep(before.jobs, after.jobs)
    requires forall i :: 0 <= i < |appended| ==> EntryInv(before, appended[i])
    ensures forall i :: 0 <= i < |appended| ==> EntryInv(after, appended[i])
  {
    forall i | 0 <= i < |appended|
      ensures EntryInv(after, appended[i])
    {
      assert EntryInv(before, appended[i]);
    }
  }

  /** Everything but a successful commit: jobs keep their standing and new rows are not succeeded. */
  lemma NoAppendKeepsInv(p: JobPolicy, s: System, t: System)
    requires SystemInv(p, s) && TablesInv(p, t.tables)
    requires JobsKeep(s.tables.jobs, t.tables.jobs) && t.appended == s.appended
    requires forall id :: id in t.tables.jobs && id !in s.tables.jobs ==>
      t.tables.jobs[id].state == Queued && t.tables.jobs[id].document in t.seen
    requires s.seen <= t.seen && s.claims <= t.claims
    requires forall c :: c in t.claims ==> ClaimInv(t, c)
    requires TokenInv(t)
    requires forall key :: key in t.tables.versions ==> key.document in t.seen
    ensures SystemInv(p, t)
  {
    KeepsEntries(s.tables, t.tables, s.appended);
    forall id | id in t.tables.jobs && t.tables.jobs[id].state == Succeeded
      ensures AppendedBy(t.appended, id)
    {
      assert id in s.tables.jobs && SameJob(s.tables.jobs[id], t.tables.jobs[id]);
    }
    forall id | id in t.tables.jobs
      ensures t.tables.jobs[id].document in t.seen
    {
      assert id in s.tables.jobs ==> SameJob(s.tables.jobs[id], t.tables.jobs[id]);
    }
  }

  lemma KeepsClaims(s: System, t: System)
    requires forall c :: c in s.claims ==> ClaimInv(s, c)
    requires JobsKeep(s.tables.jobs, t.tables.jobs)
    ensures forall c :: c in s.claims ==> ClaimInv(t, c)
  {
    forall c | c in s.claims
      ensures ClaimInv(t, c)
    {
      assert ClaimInv(s, c) && SameJob(s.tables.jobs[c.job], t.tables.jobs[c.job]);
    }
  }

  /** A submission leaves every job as it is and adds at most one, queued and without a token. */
  lemma SubmitAddsQueued(t: Tables, tenant: TenantId, r: Request, o: ChunkingOptions, key: string, d: DocumentId, id: JobId)
    requires id !in t.jobs && Submit(t, tenant, r, o, key, d, id).Success?
    ensures var u := Submit(t, tenant, r, o, key, d, id).value.0;
      && u.versions == t.versions
      && (forall k :: k in t.jobs ==> k in u.jobs && u.jobs[k] == t.jobs[k])
      && (forall k :: k in u.jobs && k !in t.jobs ==>
        u.jobs[k].state == Queued && u.jobs[k].token.None? && u.jobs[k].document == TargetOf(r, d))
  {
  }

  lemma SubmittedKeepsInv(p: JobPolicy, s: System, t: System, d: DocumentId)
    requires SystemInv(p, s) && TablesInv(p, t.tables)
    requires t == s.(tables := t.tables, seen := s.seen + {d}) && t.tables.versions == s.tables.versions
    requires forall k :: k in s.tables.jobs ==> k in t.tables.jobs && t.tables.jobs[k] == s.tables.jobs[k]
    requires forall k :: k in t.tables.jobs && k !in s.tables.jobs ==>
      t.tables.jobs[k].state == Queued && t.tables.jobs[k].token.None? && t.tables.jobs[k].document == d
    ensures SystemInv(p, t)
  {
    KeepsClaims(s, t);
    NoAppendKeepsInv(p, s, t);
  }

  lemma SubmitKeepsInv(p: JobPolicy, s: System, e: Event, after: Time)
    requires SystemInv(p, s) && Possible(s, e, after) && e.DoSubmit?
    ensures SystemInv(p, Next(p, s, e))
  {
    var t := Next(p, s, e);
    if Submit(s.tables, e.tenant, e.request, e.options, e.key, e.freshDocument, e.freshJob).Success? {
      SubmitKeeps(p, s.tables, e.tenant, e.request, e.options, e.key, e.freshDocument, e.freshJob);
      SubmitAddsQueued(s.tables, e.tenant, e.request, e.options, e.key, e.freshDocument, e.freshJob);
    }
    SubmittedKeepsInv(p, s, t, TargetOf(e.request, e.freshDocument));
  }

  /** The row a claim leaves is still the same job, and what it hands out describes it. */
  lemma ClaimKeepsJob(p: JobPolicy, t: Tables, id: JobId, tenant: TenantId, token: Token, leaseRead: Time, renewRead: Time)
    requires TablesInv(p, t) && ClaimJob(p, t, id, tenant, token, leaseRead, renewRead).Success?
    ensures var r := ClaimJob(p, t, id, tenant, token, leaseRead, renewRead).value;
      && JobsKeep(t.jobs, r.0.jobs) && r.0.jobs.Keys == t.jobs.Keys && r.0.versions == t.versions
      && (r.1.Some? ==>
        var c := r.1.value;
        c.job == id && c.tenant == t.jobs[id].tenant && c.document == t.jobs[id].document && c.request == t.jobs[id].submitted)
  {
    hide HistoryInv, KeysInv;
    assert JobInv(p, t.jobs[id]);
  }

  lemma ClaimKeepsInv(p: JobPolicy, s: System, e: Event, after: Time)
    requires SystemInv(p, s) && Possible(s, e, after) && e.DoClaim?
    ensures SystemInv(p, Next(p, s, e))
  {
    var t := Next(p, s, e);
    ClaimKeeps(p, s.tables, e.job, e.tenant, e.token, e.leaseRead, e.renewRead);
    if ClaimJob(p, s.tables, e.job, e.tenant, e.token, e.leaseRead, e.renewRead).Success? {
      ClaimKeepsJob(p, s.tables, e.job, e.tenant, e.token, e.leaseRead, e.renewRead);
      ClaimKeepsTokens(p, s, e);
      ClaimHandsOut(s, t, ClaimJob(p, s.tables, e.job, e.tenant, e.token, e.leaseRead, e.renewRead).value.1);
      NoAppendKeepsInv(p, s, t);
    }
  }

  lemma ClaimHandsOut(s: System, t: System, handed: Option<JobClaim>)
    requires forall c :: c in s.claims ==> ClaimInv(s, c)
    requires JobsKeep(s.tables.jobs, t.tables.jobs)
    requires t.claims == s.claims + if handed.Some? then {handed.value} else {}
    requires handed.Some? ==>
      var c := handed.value;
      c.job in s.tables.jobs && c.tenant == s.tables.jobs[c.job].tenant && c.document == s.tables.jobs[c.job].document
      && c.request == s.tables.jobs[c.job].submitted
    ensures forall c :: c in t.claims ==> ClaimInv(t, c)
  {
    forall c | c in t.claims
      ensures ClaimInv(t, c)
    {
      assert c in s.claims ==> ClaimInv(s, c);
      assert SameJob(s.tables.jobs[c.job], t.tables.jobs[c.job]);
    }
  }

  lemma ClaimKeepsTokens(p: JobPolicy, s: System, e: Event)
    requires SystemInv(p, s) && e.DoClaim?
    requires forall c :: c in s.claims ==> c.token != e.token
    ensures TokenInv(Next(p, s, e))
  {
    var t := Next(p, s, e);
    forall id | id in t.tables.jobs && t.tables.jobs[id].token.Some?
      ensures TokenIssued(t.claims, t.tables.jobs[id].token.value)
    {
      var k := t.tables.jobs[id].token.value;
      if id in s.tables.jobs && s.tables.jobs[id].token == Some(k) {
        var c :| c in s.claims && c.token == k;
        assert c in t.claims;
      } else {
        var c :| c in t.claims && c.token == e.token;
      }
    }
  }

  lemma TokensShrink(s: System, t: System)
    requires TokenInv(s) && t.claims == s.claims
    requires forall id :: id in t.tables.jobs && t.tables.jobs[id].token.Some? ==>
      id in s.tables.jobs && s.tables.jobs[id].token == t.tables.jobs[id].token
    ensures TokenInv(t)
  {
  }

  /** One row of the job table replaced by another state of the same job. */
  lemma RowKeepsInv(p: JobPolicy, s: System, t: System, id: JobId, j: JobRow)
    requires SystemInv(p, s) && id in s.tables.jobs && JobInv(p, j)
    requires SameJob(s.tables.jobs[id], j) && (j.token.Some? ==> j.token == s.tables.jobs[id].token)
    requires t == s.(tables := s.tables.(jobs := s.tables.jobs[id := j]))
    ensures SystemInv(p, t)
  {
    JobUpdateKeeps(p, s.tables, id, j);
    TokensShrink(s, t);
    KeepsClaims(s, t);
    NoAppendKeepsInv(p, s, t);
  }

  lemma FailKeepsInv(p: JobPolicy, s: System, e: Event)
    requires SystemInv(p, s) && e.DoFail?
    ensures SystemInv(p, Next(p, s, e))
  {
    var t := Next(p, s, e);
    if t.tables != s.tables {
      assert JobInv(p, s.tables.jobs[e.claim.job]);
      RowKeepsInv(p, s, t, e.claim.job, t.tables.jobs[e.claim.job]);
    }
  }

  lemma RetryKeepsInv(p: JobPolicy, s: System, e: Event)
    requires SystemInv(p, s) && e.DoRetry?
    ensures SystemInv(p, Next(p, s, e))
  {
    var t := Next(p, s, e);
    if t.tables != s.tables {
      assert JobInv(p, s.tables.jobs[e.job]);
      RowKeepsInv(p, s, t, e.job, t.tables.jobs[e.job]);
    }
  }

  lemma PublishKeepsInv(p: JobPolicy, s: System, e: Event)
    requires SystemInv(p, s) && e.DoPublish?
    ensures SystemInv(p, Next(p, s, e))
  {
    var t := Next(p, s, e);
    if t.tables != s.tables {
      assert JobInv(p, s.tables.jobs[e.job]);
      RowKeepsInv(p, s, t, e.job, t.tables.jobs[e.job]);
    }
  }

  lemma FenceKeepsJobs(p: JobPolicy, jobs: map<JobId, JobRow>, key: DocumentKey)
    requires forall id :: id in jobs ==> JobInv(p, jobs[id])
    ensures JobsKeep(jobs, FenceAll(jobs, key)) && FenceAll(jobs, key).Keys == jobs.Keys
    ensures forall id :: id in jobs && FenceAll(jobs, key)[id].token.Some? ==> FenceAll(jobs, key)[id].token == jobs[id].token
  {
  }

  lemma DeleteKeepsInv(p: JobPolicy, s: System, e: Event)
    requires SystemInv(p, s) && e.DoDelete?
    ensures SystemInv(p, Next(p, s, e))
  {
    var t := Next(p, s, e);
    var key := DocumentKey(e.tenant, e.document);
    if Delete(s.tables, e.tenant, e.document).Success? {
      DeleteKeeps(p, s.tables, e.tenant, e.document);
      FenceKeepsJobs(p, s.tables.jobs, key);
      assert t.tables.jobs == FenceAll(s.tables.jobs, key);
      DeletedKeepsInv(p, s, t, key);
    } else {
      DeletedKeepsInv(p, s, t, key);
    }
  }

  lemma DeletedKeepsInv(p: JobPolicy, s: System, t: System, key: DocumentKey)
    requires SystemInv(p, s) && TablesInv(p, t.tables)
    requires JobsKeep(s.tables.jobs, t.tables.jobs) && t.tables.jobs.Keys == s.tables.jobs.Keys
    requires forall id :: id in s.tables.jobs && t.tables.jobs[id].token.Some? ==> t.tables.jobs[id].token == s.tables.jobs[id].token
    requires t.tables.versions.Keys <= s.tables.versions.Keys
    requires t.appended == s.appended && t.claims == s.claims && t.seen == s.seen + {key.document}
    ensures SystemInv(p, t)
  {
    TokensShrink(s, t);
    KeepsClaims(s, t);
    NoAppendKeepsInv(p, s, t);
  }

  lemma DirectKeepsInv(p: JobPolicy, s: System, e: Event)
    requires SystemInv(p, s) && (e.DoCreate? || e.DoUpdate?)
    ensures SystemInv(p, Next(p, s, e))
  {
    var t := Next(p, s, e);
    if CreateVersion(s.tables, e.record).Success? {
      AppendKeeps(p, s.tables, e.record);
    }
    TokensShrink(s, t);
    KeepsClaims(s, t);
    NoAppendKeepsInv(p, s, t);
  }

  // --------------------------------------------------------------------- commit

  lemma CommitKeepsEntries(s: System, claim: JobClaim, record: StoredVersion, now: Time)
    requires AppendedInv(s) && ClaimInv(s, claim)
    requires CommitJob(s.tables, claim, record, now).Success?
    ensures AppendedInv(System(CommitJob(s.tables, claim, record, now).value.0, s.clock, s.seen, s.claims,
      s.appended + [Appended(claim.job, KeyOf(CommitJob(s.tables, claim, record, now).value.1),
        CommitJob(s.tables, claim, record, now).value.1.version)]))
  {
    var r := CommitJob(s.tables, claim, record, now).value;
    var entry := Appended(claim.job, KeyOf(r.1), r.1.version);
    var longer := s.appended + [entry];
    assert EntryInv(r.0, entry);
    forall i | 0 <= i < |s.appended|
      ensures EntryInv(r.0, s.appended[i]) && s.appended[i].job != claim.job
    {
      assert EntryInv(s.tables, s.appended[i]);
    }
    forall id | id in r.0.jobs && r.0.jobs[id].state == Succeeded
      ensures AppendedBy(longer, id)
    {
      if id == claim.job {
        assert longer[|s.appended|].job == id;
      } else {
        var i :| 0 <= i < |s.appended| && s.appended[i].job == id;
        assert longer[i].job == id;
      }
    }
  }

  lemma CommitKeepsInv(p: JobPolicy, s: System, e: Event, after: Time)
    requires SystemInv(p, s) && Possible(s, e, after) && e.DoCommit?
    ensures SystemInv(p, Next(p, s, e))
  {
    hide TablesInv, AppendedInv;
    var t := Next(p, s, e);
    if CommitJob(s.tables, e.claim, e.record, e.now).Success? {
      CommitKeeps(p, s.tables, e.claim, e.record, e.now);
      CommitKeepsEntries(s, e.claim, e.record, e.now);
      TokensShrink(s, t);
      assert ClaimInv(s, e.claim);
      forall c | c in t.claims
        ensures ClaimInv(t, c)
      {
        assert ClaimInv(s, c);
      }
    }
  }

  lemma NextKeepsInv(p: JobPolicy, s: System, e: Event, after: Time)
    requires SystemInv(p, s) && Possible(s, e, after)
    ensures SystemInv(p, Next(p, s, e).(clock := after))
  {
    match e
    case DoSubmit(_, _, _, _, _, _) => SubmitKeepsInv(p, s, e, after);
    case DoClaim(_, _, _, _, _) => ClaimKeepsInv(p, s, e, after);
    case DoCommit(_, _, _) => CommitKeepsInv(p, s, e, after);
    case DoFail(_, _) => FailKeepsInv(p, s, e);
    case DoRetry(_, _, _) => RetryKeepsInv(p, s, e);
    case DoPublish(_, _) => PublishKeepsInv(p, s, e);
    case DoDelete(_, _) => DeleteKeepsInv(p, s, e);
    case DoCreate(_) => DirectKeepsInv(p, s, e);
    case DoUpdate(_) => DirectKeepsInv(p, s, e);
  }

  lemma {:induction false} LeadsKeepsInv(p: JobPolicy, s: System, moments: seq<Moment>, t: System)
    requires SystemInv(p, s) && Leads(p, s, moments, t)
    ensures SystemInv(p, t)
    decreases |moments|
  {
    if moments == [] {
    } else {
      var m := moments[|moments| - 1];
      var before: System :|
        Leads(p, s, moments[..|moments| - 1], before)
        && Possible(before, m.event, m.after)
        && t == Next(p, before, m.event).(clock := m.after);
      LeadsKeepsInv(p, s, moments[..|moments| - 1], before);
      NextKeepsInv(p, before, m.event, m.after);
    }
  }

  /** Some run leads from one system to the other. */
  ghost predicate Later(p: JobPolicy, s: System, t: System) {
    exists moments: seq<Moment> :: Leads(p, s, moments, t)
  }

  lemma LaterSelf(p: JobPolicy, s: System)
    ensures Later(p, s, s)
  {
    assert Leads(p, s, [], s);
  }

  lemma LaterNext(p: JobPolicy, s: System, e: Event, after: Time)
    requires Possible(s, e, after)
    ensures Later(p, s, Next(p, s, e).(clock := after))
  {
    var moments := [Moment(e, after)];
    assert moments[..|moments| - 1] == [] && moments[|moments| - 1].event == e && moments[|moments| - 1].after == after;
    assert Leads(p, s, moments[..|moments| - 1], s);
    assert Leads(p, s, moments, Next(p, s, e).(clock := after));
  }

  lemma {:induction false} LeadsOn(p: JobPolicy, s: System, first: seq<Moment>, t: System, rest: seq<Moment>, u: System)
    requires Leads(p, s, first, t) && Leads(p, t, rest, u)
    ensures Leads(p, s, first + rest, u)
    decreases |rest|
  {
    var all := first + rest;
    if rest == [] {
      assert all == first;
    } else {
      var m := rest[|rest| - 1];
      var before: System :|
        Leads(p, t, rest[..|rest| - 1], before)
        && Possible(before, m.event, m.after)
        && u == Next(p, before, m.event).(clock := m.after);
      LeadsOn(p, s, first, t, rest[..|rest| - 1], before);
      assert all[..|all| - 1] == first + rest[..|rest| - 1] && all[|all| - 1] == m;
      assert Leads(p, s, all[..|all| - 1], before);
      assert Leads(p, s, all, u);
    }
  }

  lemma LaterOn(p: JobPolicy, s: System, t: System, u: System)
    requires Later(p, s, t) && Later(p, t, u)
    ensures Later(p, s, u)
  {
    var a: seq<Moment> :| Leads(p, s, a, t);
    var b: seq<Moment> :| Leads(p, t, b, u);
    LeadsOn(p, s, a, t, b, u);
  }

  lemma ReachableLater(p: JobPolicy, s: System, t: System)
    requires Reachable(p, s) && Later(p, s, t)
    ensures Reachable(p, t)
  {
    var clock: Time, moments: seq<Moment> :| Leads(p, Begin(clock), moments, s);
    assert Later(p, Begin(clock), s);
    LaterOn(p, Begin(clock), s, t);
    var more: seq<Moment> :| Leads(p, Begin(clock), more, t);
  }

  lemma ReachableInv(p: JobPolicy, s: System)
    requires Reachable(p, s)
    ensures SystemInv(p, s)
  {
    var clock: Time, moments: seq<Moment> :| Leads(p, Begin(clock), moments, s);
    LeadsKeepsInv(p, Begin(clock), moments, s);
  }
}
