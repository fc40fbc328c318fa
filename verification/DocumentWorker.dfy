/**
 Processing of a document, directly or under a job's claim: the coordinator's
 optimistic protocol (document_processing_coordinator.py) and the job worker that
 runs it and records the outcome (document_job_processor.py). Whatever happens in
 between is an interleaving of the document system.
 */
module DocumentWorker {
  import opened Wrappers
  import opened Chunking
  import opened Evidence
  import opened DocumentTables
  import opened DocumentSystem
  import opened DocumentDeployment
  import opened DocumentTheorems

  const MAX_CHUNKS := 1000
  const MAX_OUTPUT_CHARS := 2_000_000

  datatype Context = Context(tenant: TenantId, permissions: set<string>)

  datatype ProcessingError =
    | PolicyDenied
    | Rejected // the parser or a validator refused the document
    | OverLimit
    | StoreFailed(error: StoreError)

  /** The code a failed job is given. */
  function CodeOf(e: ProcessingError): (code: string)
    ensures ValidCode(code)
  {
    match e
    case PolicyDenied => "PermissionDenied"
    case Rejected => "InvalidDocument"
    case OverLimit => "ResourceLimit"
    case StoreFailed(error) => StoreCode(error)
  }

  function StoreCode(e: StoreError): (code: string)
    ensures ValidCode(code)
  {
    match e
    case VersionConflict => "VersionConflict"
    case DocumentNotFound => "NotFound"
    case InvalidSnapshot => "InvalidDocument"
    case JobConflict => "AttemptLost"
    case _ => "ProcessingFailed"
  }

  /** Where the coordinator's snapshots go: straight to the store, or to the job that was claimed. */
  datatype Sink = Direct | Claimed(claim: JobClaim)

  /** Whoever claimed the job no longer holds it. */
  predicate GivenUp(s: System, sink: Sink) {
    sink.Claimed? ==> Replaced(s, sink.claim)
  }

  function ActionOf(r: Request): string {
    if r.CreateRequest? then "document.create" else "document.update"
  }

  /** How content becomes text: decoding, then the rules of document text. */
  datatype Reader = Reader(decode: seq<bv8> -> Option<string>, blank: string -> bool) {
    function Read(content: seq<bv8>): Option<string> {
      var text := decode(content);
      if text.Some? && ValidText(text.value) && !blank(text.value) then text else None
    }
  }

  /** The snapshot a request asks for, if its content allows one. */
  function Draft(reader: Reader, r: Request, o: ChunkingOptions, tenant: TenantId, document: DocumentId, version: nat)
    : Result<StoredVersion, ProcessingError>
    requires ValidOptions(o)
  {
    var text := reader.Read(r.content);
    if text.None? then Failure(Rejected)
    else if !WithinLimits(Windows(text.value, o), MAX_CHUNKS, MAX_OUTPUT_CHARS) then Failure(OverLimit)
    else Success(StoredVersion(document, tenant, version, DocumentInput(r.title, text.value, r.sourceRef), Windows(text.value, o)))
  }

  /** Where a snapshot handed to the sink ends up. */
  function Stored(t: Tables, sink: Sink, record: StoredVersion, now: Time): Result<(Tables, StoredVersion), StoreError> {
    match sink
    case Direct =>
      var created := CreateVersion(t, record);
      if created.Success? then Success((created.value, record)) else Failure(created.error)
    case Claimed(claim) => CommitJob(t, claim, record, now)
  }

  /** The snapshot says what the request said: its title and source, and its content decoded, in chunks that rebuild it. */
  predicate Faithful(reader: Reader, r: Request, tenant: TenantId, record: StoredVersion) {
    && record.tenant == tenant
    && record.document.title == r.title && record.document.sourceRef == r.sourceRef
    && reader.decode(r.content) == Some(record.document.text)
    && ValidText(record.document.text) && !reader.blank(record.document.text)
    && Rebuild(record.chunks, 0) == record.document.text
  }

  /** A draft is refused exactly when the content is not readable text, or its windows break a limit. */
  lemma DraftExactly(reader: Reader, r: Request, o: ChunkingOptions, tenant: TenantId, document: DocumentId, version: nat)
    requires ValidOptions(o)
    ensures var text := reader.decode(r.content);
      var draft := Draft(reader, r, o, tenant, document, version);
      var readable := text.Some? && ValidText(text.value) && !reader.blank(text.value);
      && (draft == Failure(Rejected) <==> !readable)
      && (draft == Failure(OverLimit) <==>
        readable && (WindowCount(|text.value|, o) > 1000 || TotalChars(Windows(text.value, o)) > 2_000_000))
      && (draft.Success? ==>
        && Faithful(reader, r, tenant, draft.value)
        && draft.value.documentId == document && draft.value.version == version)
  {
    var text := reader.Read(r.content);
    if text.Some? {
      SplitRefinesValidator(text.value, o, MAX_CHUNKS, MAX_OUTPUT_CHARS);
      Reconstruction(text.value, Windows(text.value, o));
    }
  }

  predicate Explains(r: Result<StoredVersion, ProcessingError>, before: Tables, after: Tables, stored: Result<(Tables, StoredVersion), StoreError>) {
    if stored.Success? then r == Success(stored.value.1) && after == stored.value.0
    else r == Failure(StoreFailed(stored.error)) && after == before
  }

  class Coordinator {
    const world: Deployment
    const sink: Sink
    const reader: Reader
    const options: ChunkingOptions

    ghost predicate Valid()
      reads this, world, world.store
    {
      world.Valid() && ValidOptions(options) && (sink.Claimed? ==> sink.claim in world.system.claims)
    }

    constructor (world: Deployment, sink: Sink, reader: Reader, options: ChunkingOptions)
      requires world.Valid() && ValidOptions(options) && (sink.Claimed? ==> sink.claim in world.system.claims)
      ensures Valid() && this.world == world && this.sink == sink && this.reader == reader && this.options == options
    {
      this.world, this.sink, this.reader, this.options := world, sink, reader, options;
    }

    /** Hands a snapshot over; other transactions may come first. */
    method Store(record: StoredVersion, ghost quiet: bool) returns (r: Result<StoredVersion, ProcessingError>, ghost at: Time)
      requires Valid()
      requires sink.Direct? ==> (record.version == 1 && record.documentId !in world.system.seen) || record.version >= 2
      modifies world, world.store
      ensures Valid() && Later(world.store.policy, old(world.system), world.system)
      ensures world.system.clock == at >= old(world.system.clock)
      ensures quiet ==> Explains(r, old(world.system.tables), world.system.tables, Stored(old(world.system.tables), sink, record, at))
      ensures old(world.system.claims) <= world.system.claims
      ensures r.Success? ==> GivenUp(world.system, sink)
      ensures r.Success? ==> r.value.(documentId := record.documentId) == record
      ensures r.Success? && sink.Direct? ==> r.value.documentId == record.documentId
    {
      var now := world.Interleave(quiet, record.documentId);
      at := now;
      ghost var met := world.system;
      var stored: Result<StoredVersion, StoreError>;
      match sink {
        case Direct => stored := world.Create(record, now);
        case Claimed(claim) =>
          stored := world.Commit(claim, record, now);
          if stored.Success? {
            CommitReplaces(world.store.policy, met, claim, record, now);
          }
      }
      LaterOn(world.store.policy, old(world.system), met, world.system);
      r := if stored.Success? then Success(stored.value) else Failure(StoreFailed(stored.error));
    }

    /** Decode, chunk, assemble the snapshot, hand it over: a failure stops the sequence before anything is written. */
    method PrepareAndStore(request: Request, tenant: TenantId, document: DocumentId, version: nat, ghost quiet: bool)
      returns (r: Result<StoredVersion, ProcessingError>, ghost at: Time)
      requires Valid()
      requires sink.Direct? ==> (version == 1 && document !in world.system.seen) || version >= 2
      modifies world, world.store
      ensures Valid() && Later(world.store.policy, old(world.system), world.system)
      ensures old(world.system.claims) <= world.system.claims && old(world.system.clock) <= at
      ensures r.Success? ==> GivenUp(world.system, sink) && Faithful(reader, request, tenant, r.value) && r.value.version == version
      ensures var draft := Draft(reader, request, options, tenant, document, version);
        if draft.Failure? then r == Failure(draft.error) && world.system == old(world.system)
        else quiet ==> Explains(r, old(world.system.tables), world.system.tables, Stored(old(world.system.tables), sink, draft.value, at))
    {
      at := world.clock;
      LaterSelf(world.store.policy, world.system);
      DraftExactly(reader, request, options, tenant, document, version);
      var decoded := reader.Read(request.content);
      if decoded.None? {
        return Failure(Rejected), at;
      }
      var text := decoded.value;
      var chunks := ChunkWithWindows(text, options, MAX_CHUNKS, MAX_OUTPUT_CHARS);
      if chunks.Failure? {
        return Failure(OverLimit), at;
      }
      var record := StoredVersion(document, tenant, version, DocumentInput(request.title, text, request.sourceRef), chunks.value);
      r, at := Store(record, quiet);
    }

    /** A new document: version 1 under a generated id. */
    method Process(request: Request, tenant: TenantId, ghost quiet: bool)
      returns (r: Result<StoredVersion, ProcessingError>, ghost document: DocumentId, ghost at: Time)
      requires Valid()
      modifies world, world.store
      ensures Valid() && Later(world.store.policy, old(world.system), world.system)
      ensures old(world.system.claims) <= world.system.claims && old(world.system.clock) <= at
      ensures r.Success? ==> GivenUp(world.system, sink) && Faithful(reader, request, tenant, r.value) && r.value.version == 1
      ensures document !in old(world.system.seen)
      ensures !ValidRequest(request) ==> r == Failure(Rejected) && world.system == old(world.system)
      ensures ValidRequest(request) ==>
        var draft := Draft(reader, request, options, tenant, document, 1);
        if draft.Failure? then r == Failure(draft.error) && world.system == old(world.system)
        else quiet ==> Explains(r, old(world.system.tables), world.system.tables, Stored(old(world.system.tables), sink, draft.value, at))
    {
      var generated := world.GenerateId();
      document, at := generated, world.clock;
      if !ValidRequest(request) {
        LaterSelf(world.store.policy, world.system);
        return Failure(Rejected), document, at;
      }
      r, at := PrepareAndStore(request, tenant, generated, 1, quiet);
    }

    /** A new version of a document whose latest one the caller knows; the store fences whoever comes second. */
    method Update(request: Request, tenant: TenantId, ghost quiet: bool)
      returns (r: Result<StoredVersion, ProcessingError>, ghost at: Time)
      requires Valid() && request.UpdateRequest?
      modifies world, world.store
      ensures Valid() && Later(world.store.policy, old(world.system), world.system)
      ensures old(world.system.claims) <= world.system.claims && old(world.system.clock) <= at
      ensures r.Success? ==>
        GivenUp(world.system, sink) && Faithful(reader, request, tenant, r.value) && r.value.version == request.expectedVersion + 1
      ensures !ValidRequest(request) ==> r == Failure(Rejected) && world.system == old(world.system)
      ensures quiet && ValidRequest(request) ==>
        var t := old(world.system.tables);
        var latest := GetVersion(t, tenant, request.documentId, None);
        var draft := Draft(reader, request, options, tenant, request.documentId, request.expectedVersion + 1);
        if latest.Failure? then r == Failure(StoreFailed(latest.error)) && world.system == old(world.system)
        else if latest.value.version != request.expectedVersion then
          r == Failure(StoreFailed(VersionConflict)) && world.system == old(world.system)
        else if draft.Failure? then r == Failure(draft.error) && world.system == old(world.system)
        else Explains(r, t, world.system.tables, Stored(t, sink, draft.value, at))
    {
      hide Draft, Explains, Stored, Later, Reachable, GivenUp, Faithful;
      LaterSelf(world.store.policy, world.system);
      at := world.clock;
      if !ValidRequest(request) {
        return Failure(Rejected), at;
      }
      ghost var start := world.system;
      var _ := world.Interleave(quiet, request.documentId);
      ghost var met := world.system;
      var latest := world.Get(tenant, request.documentId);
      if latest.Failure? {
        return Failure(StoreFailed(latest.error)), at;
      }
      if latest.value.version != request.expectedVersion {
        return Failure(StoreFailed(VersionConflict)), at;
      }
      r, at := PrepareAndStore(request, tenant, request.documentId, request.expectedVersion + 1, quiet);
      LaterOn(world.store.policy, start, met, world.system);
    }
  }

  // ------------------------------------------------------------- the job worker

  /** Why a claim met by nobody else fails, in the order the worker finds out; None when it succeeds. */
  function Reason(rows: seq<VersionRow>, claim: JobClaim, reader: Reader, permitted: bool, inTime: bool): Option<string>
    requires ValidOptions(claim.options)
  {
    var text := reader.Read(claim.request.content);
    if !permitted then Some("PermissionDenied")
    else if claim.request.UpdateRequest? && rows == [] then Some("NotFound")
    else if claim.request.UpdateRequest? && |rows| != claim.request.expectedVersion then Some("VersionConflict")
    else if text.None? then Some("InvalidDocument")
    else if !WithinLimits(Windows(text.value, claim.options), MAX_CHUNKS, MAX_OUTPUT_CHARS) then Some("ResourceLimit")
    else if !inTime then Some("AttemptLost")
    else if |rows| + 1 != ExpectedVersion(claim.request) then Some("VersionConflict")
    else None
  }

  /** The claim is the one its job is running under. */
  predicate Current(t: Tables, claim: JobClaim) {
    && claim.job in t.jobs
    && var j := t.jobs[claim.job];
      && j.tenant == claim.tenant && j.document == claim.document && j.submitted == claim.request
      && j.options == claim.options && j.state == Running && j.token == Some(claim.token) && j.leaseUntil.Some?
  }

  /** The claim's request was carried out: one more version, made from its content, and nothing else. */
  predicate Wrote(before: Tables, after: Tables, claim: JobClaim, reader: Reader) {
    var key := DocumentKey(claim.tenant, claim.document);
    && |Rows(after, key)| == |Rows(before, key)| + 1
    && var row := Rows(after, key)[|Rows(before, key)|];
      && after.versions == before.versions[key := Rows(before, key) + [row]]
      && row.version == row.snapshot.version == |Rows(after, key)| == ExpectedVersion(claim.request)
      && KeyOf(row.snapshot) == key
      && Some(row.snapshot.document.text) == reader.Read(claim.request.content)
      && row.snapshot.document.title == claim.request.title && row.snapshot.document.sourceRef == claim.request.sourceRef
      && Rebuild(row.snapshot.chunks, 0) == row.snapshot.document.text
  }

  /** Everything the claim's only worker leaves behind: one version and a succeeded job, or a failed job and nothing else. */
  predicate Settles(before: Tables, after: Tables, claim: JobClaim, reader: Reader, reason: Option<string>) {
    && claim.job in after.jobs && Targets(after.jobs[claim.job], DocumentKey(claim.tenant, claim.document))
    && var j := after.jobs[claim.job];
      if reason.Some? then
        after.versions == before.versions && j.state == Failed && j.error == reason && j.version.None?
      else
        Wrote(before, after, claim, reader) && j.state == Succeeded && j.error.None? && j.version == Some(ExpectedVersion(claim.request))
  }

  /** What processing under the claim comes to, before a failure is recorded. */
  predicate Ran(before: Tables, after: Tables, claim: JobClaim, reader: Reader, reason: Option<string>, r: Result<StoredVersion, ProcessingError>) {
    if reason.Some? then r.Failure? && CodeOf(r.error) == reason.value && after == before
    else r.Success? && Settles(before, after, claim, reader, reason)
  }

  lemma DraftIsWellFormed(reader: Reader, r: Request, o: ChunkingOptions, tenant: TenantId, document: DocumentId, version: nat)
    requires ValidOptions(o) && ValidTenant(tenant) && version >= 1
    requires Draft(reader, r, o, tenant, document, version).Success?
    ensures var record := Draft(reader, r, o, tenant, document, version).value;
      && WellFormed(record) && Rebuild(record.chunks, 0) == record.document.text
      && record.document.title == r.title && record.document.sourceRef == r.sourceRef
  {
    var record := Draft(reader, r, o, tenant, document, version).value;
    SplitRefinesValidator(record.document.text, o, MAX_CHUNKS, MAX_OUTPUT_CHARS);
    Reconstruction(record.document.text, record.chunks);
  }

  lemma CommitVerdict(p: JobPolicy, t: Tables, claim: JobClaim, record: StoredVersion, at: Time)
    requires TablesInv(p, t) && Current(t, claim) && WellFormed(record) && record.tenant == claim.tenant
    requires claim.request.CreateRequest? || record.documentId == claim.document
    requires record.version == ExpectedVersion(claim.request)
    ensures var rows := Rows(t, DocumentKey(claim.tenant, claim.document));
      var r := CommitJob(t, claim, record, at);
      if !LeaseActive(t.jobs[claim.job], at) then r == Failure(JobConflict)
      else if |rows| + 1 != ExpectedVersion(claim.request) then r == Failure(VersionConflict)
      else r.Success? && r.value.1 == Directed(claim, record)
  {
    var rows := Rows(t, DocumentKey(claim.tenant, claim.document));
    MaxOfHistory(rows);
    assert JobInv(p, t.jobs[claim.job]);
  }

  lemma CommitWrites(t: Tables, claim: JobClaim, record: StoredVersion, at: Time, reader: Reader)
    requires Current(t, claim) && CommitJob(t, claim, record, at).Success?
    requires |Rows(t, DocumentKey(claim.tenant, claim.document))| + 1 == ExpectedVersion(claim.request)
    requires Some(record.document.text) == reader.Read(claim.request.content)
    requires record.document.title == claim.request.title && record.document.sourceRef == claim.request.sourceRef
    requires Rebuild(record.chunks, 0) == record.document.text
    ensures Settles(t, CommitJob(t, claim, record, at).value.0, claim, reader, None)
  {
    var key := DocumentKey(claim.tenant, claim.document);
    var written := Directed(claim, record);
    var after := CommitJob(t, claim, record, at).value.0;
    assert after.versions == t.versions[key := Rows(t, key) + [VersionRow(written.version, written)]];
    assert Rows(after, key)[|Rows(t, key)|] == VersionRow(written.version, written);
  }

  /** A snapshot made from the request's content is written, or refused for one of the two reasons left. */
  lemma RecordHandedOver(p: JobPolicy, t: Tables, after: Tables, claim: JobClaim, reader: Reader, record: StoredVersion, at: Time,
    r: Result<StoredVersion, ProcessingError>)
    returns (reason: Option<string>)
    requires TablesInv(p, t) && Current(t, claim) && WellFormed(record) && record.tenant == claim.tenant
    requires claim.request.CreateRequest? || record.documentId == claim.document
    requires record.version == ExpectedVersion(claim.request)
    requires Some(record.document.text) == reader.Read(claim.request.content)
    requires record.document.title == claim.request.title && record.document.sourceRef == claim.request.sourceRef
    requires Rebuild(record.chunks, 0) == record.document.text
    requires Explains(r, t, after, Stored(t, Claimed(claim), record, at))
    ensures Ran(t, after, claim, reader, reason, r)
    ensures reason == if !LeaseActive(t.jobs[claim.job], at) then Some("AttemptLost")
      else if |Rows(t, DocumentKey(claim.tenant, claim.document))| + 1 != ExpectedVersion(claim.request) then Some("VersionConflict")
      else None
  {
    CommitVerdict(p, t, claim, record, at);
    if CommitJob(t, claim, record, at).Success? {
      CommitWrites(t, claim, record, at, reader);
      reason := None;
    } else {
      reason := if !LeaseActive(t.jobs[claim.job], at) then Some("AttemptLost") else Some("VersionConflict");
    }
  }

  lemma HandedOver(p: JobPolicy, t: Tables, after: Tables, claim: JobClaim, reader: Reader, document: DocumentId, at: Time,
    r: Result<StoredVersion, ProcessingError>)
    requires TablesInv(p, t) && Current(t, claim) && ValidOptions(claim.options)
    requires claim.request.CreateRequest? || document == claim.document
    requires var draft := Draft(reader, claim.request, claim.options, claim.tenant, document, ExpectedVersion(claim.request));
      if draft.Failure? then r == Failure(draft.error) && after == t
      else Explains(r, t, after, Stored(t, Claimed(claim), draft.value, at))
    requires claim.request.UpdateRequest? ==>
      |Rows(t, DocumentKey(claim.tenant, claim.document))| == claim.request.expectedVersion >= 1
    ensures Ran(t, after, claim, reader,
      Reason(Rows(t, DocumentKey(claim.tenant, claim.document)), claim, reader, true, LeaseActive(t.jobs[claim.job], at)), r)
  {
    var draft := Draft(reader, claim.request, claim.options, claim.tenant, document, ExpectedVersion(claim.request));
    if draft.Success? {
      assert JobInv(p, t.jobs[claim.job]);
      DraftIsWellFormed(reader, claim.request, claim.options, claim.tenant, document, ExpectedVersion(claim.request));
      var _ := RecordHandedOver(p, t, after, claim, reader, draft.value, at, r);
    }
  }

  /** Authorization, then the coordinator with its snapshots directed to the claimed job. */
  method RunClaim(world: Deployment, claim: JobClaim, context: Context, reader: Reader, ghost quiet: bool)
    returns (r: Result<StoredVersion, ProcessingError>, ghost at: Time)
    requires world.Valid() && claim in world.system.claims && Current(world.system.tables, claim)
    requires ValidOptions(claim.options) && ValidRequest(claim.request) && context.tenant == claim.tenant
    requires claim.request.UpdateRequest? ==> claim.request.documentId == claim.document
    modifies world, world.store
    ensures world.Valid() && Later(world.store.policy, old(world.system), world.system)
    ensures claim in world.system.claims && old(world.system.clock) <= at
    ensures r.Success? ==> Replaced(world.system, claim)
    ensures quiet ==>
      var t := old(world.system.tables);
      Ran(t, world.system.tables, claim, reader,
        Reason(Rows(t, DocumentKey(claim.tenant, claim.document)), claim, reader, ActionOf(claim.request) in context.permissions,
          LeaseActive(t.jobs[claim.job], at)), r)
  {
    hide Draft, Explains, Stored, Later, Reachable;
    at := world.clock;
    ghost var p, s := world.store.policy, world.system;
    LaterSelf(p, s);
    ReachableInv(p, s);
    assert JobInv(p, s.tables.jobs[claim.job]);
    if ActionOf(claim.request) !in context.permissions {
      return Failure(PolicyDenied), at;
    }
    var coordinator := new Coordinator(world, Claimed(claim), reader, claim.options);
    if claim.request.CreateRequest? {
      ghost var document;
      r, document, at := coordinator.Process(claim.request, context.tenant, quiet);
      if quiet {
        HandedOver(p, s.tables, world.system.tables, claim, reader, document, at, r);
      }
    } else {
      r, at := coordinator.Update(claim.request, context.tenant, quiet);
      GetIsExact(p, s.tables, claim.tenant, claim.document, None);
      ghost var rows := Rows(s.tables, DocumentKey(claim.tenant, claim.document));
      if rows != [] {
        assert HistoryInv(DocumentKey(claim.tenant, claim.document), rows);
        assert Decode(DocumentKey(claim.tenant, claim.document), rows[|rows| - 1]) == Success(rows[|rows| - 1].snapshot);
      }
      if quiet && |rows| == claim.request.expectedVersion {
        HandedOver(p, s.tables, world.system.tables, claim, reader, claim.document, at, r);
      }
    }
  }

  /** A fresh claim is the current one, and its request is the one submitted. */
  lemma ClaimIsCurrent(p: JobPolicy, t: Tables, id: JobId, tenant: TenantId, token: Token, leaseRead: Time, renewRead: Time)
    requires TablesInv(p, t)
    ensures var r := ClaimJob(p, t, id, tenant, token, leaseRead, renewRead);
      && (r.Success? ==> r.value.0.versions == t.versions)
      && (r.Success? && r.value.1.Some? ==>
        var c := r.value.1.value;
        c.job == id && c.tenant == tenant && InHand(r.value.0, c, id, tenant, renewRead + p.leaseSeconds))
  {
    if Visible(t, id, tenant) {
      assert JobInv(p, t.jobs[id]);
    }
  }

  /** Without the permission for its operation a claim met by nobody else writes nothing and fails as denied. */
  lemma PermissionNeeded(before: Tables, after: Tables, c: JobClaim, permissions: set<string>, reader: Reader, at: Time)
    requires CarriedOut(before, after, c, permissions, reader, at)
    requires if c.request.CreateRequest? then "document.create" !in permissions else "document.update" !in permissions
    ensures after.versions == before.versions && c.job in after.jobs
    ensures after.jobs[c.job].state == Failed && after.jobs[c.job].error == Some("PermissionDenied")
  {
  }

  lemma SettlesFromClaim(first: Tables, before: Tables, after: Tables, claim: JobClaim, reader: Reader, reason: Option<string>)
    requires first.versions == before.versions && Settles(before, after, claim, reader, reason)
    ensures Settles(first, after, claim, reader, reason)
  {
  }

  lemma FailSettles(p: JobPolicy, t: Tables, claim: JobClaim, reader: Reader, code: string)
    requires TablesInv(p, t) && Current(t, claim)
    ensures Settles(t, FailJob(p, t, claim, code), claim, reader, Some(code))
  {
    assert JobInv(p, t.jobs[claim.job]);
  }


  /** One finished worker's account of a job, when nobody else acted. */
  predicate Finished(p: JobPolicy, before: Tables, after: Tables, id: JobId, tenant: TenantId, permissions: set<string>, reader: Reader,
    token: Token, claimedAt: Time, at: Time, r: Result<JobView, StoreError>)
  {
    var claimed := ClaimJob(p, before, id, tenant, token, claimedAt, claimedAt);
    if claimed.Failure? then r == Failure(claimed.error) && after == before
    else
      && id in after.jobs && r == Success(View(after, id, at))
      && if claimed.value.1.None? then after == claimed.value.0
        else
          var c := claimed.value.1.value;
          ValidOptions(c.options) && Settles(before, after, c, reader,
            Reason(Rows(before, DocumentKey(c.tenant, c.document)), c, reader, ActionOf(c.request) in permissions,
              at < claimedAt + p.leaseSeconds))
  }

  /** A claim in hand: current, readable, and good until the given time. */
  predicate InHand(t: Tables, c: JobClaim, id: JobId, tenant: TenantId, until: Time) {
    && Current(t, c) && c.job == id && c.tenant == tenant
    && t.jobs[id].leaseUntil == Some(until)
    && ValidOptions(c.options) && ValidRequest(c.request)
    && (c.request.UpdateRequest? ==> c.request.documentId == c.document)
  }

  /** What carrying out a claim in hand leaves behind when nobody interferes. */
  predicate CarriedOut(before: Tables, after: Tables, c: JobClaim, permissions: set<string>, reader: Reader, at: Time) {
    && Current(before, c) && ValidOptions(c.options)
    && Settles(before, after, c, reader, Reason(Rows(before, DocumentKey(c.tenant, c.document)), c, reader,
        ActionOf(c.request) in permissions, LeaseActive(before.jobs[c.job], at)))
  }

  /** A delivery's claim: what the store answered at some later moment, and the state that left. */
  ghost predicate Handed(p: JobPolicy, start: System, held: System, id: JobId, tenant: TenantId, token: Token, at: Time,
    r: Result<Option<JobClaim>, StoreError>)
  {
    exists met: System :: Met(p, start, met, held, id, tenant, token, at, r)
  }

  ghost predicate Met(p: JobPolicy, start: System, met: System, held: System, id: JobId, tenant: TenantId, token: Token, at: Time,
    r: Result<Option<JobClaim>, StoreError>)
  {
    var claimed := ClaimJob(p, met.tables, id, tenant, token, at, at);
    && Later(p, start, met) && met.clock <= at
    && held == Next(p, met, DoClaim(id, tenant, token, at, at)).(clock := at)
    && r == (if claimed.Success? then Success(claimed.value.1) else Failure(claimed.error))
  }

  /** The job as a reader sees it at some time. */
  ghost predicate Shown(t: Tables, id: JobId, tenant: TenantId, r: Result<JobView, StoreError>) {
    if Visible(t, id, tenant) then exists now: Time :: r == Success(View(t, id, now)) else r == Failure(JobNotFound)
  }

  /**
   A delivery, whatever others did: a refused claim is the answer and nothing follows it;
   otherwise the claim handed out, if any, holds its job no longer, and the
   answer is the job as it stands in the end.
   */
  ghost predicate Delivered(p: JobPolicy, start: System, end: System, id: JobId, tenant: TenantId, token: Token, claimedAt: Time,
    r: Result<JobView, StoreError>)
  {
    exists held: System, claimed: Result<Option<JobClaim>, StoreError> ::
      && Handed(p, start, held, id, tenant, token, claimedAt, claimed)
      && Concluded(p, held, end, id, tenant, claimed, r)
  }

  ghost predicate Concluded(p: JobPolicy, held: System, end: System, id: JobId, tenant: TenantId,
    claimed: Result<Option<JobClaim>, StoreError>, r: Result<JobView, StoreError>)
  {
    match claimed
    case Failure(error) => end == held && r == Failure(error)
    case Success(handed) =>
      && Later(p, held, end) && Shown(end.tables, id, tenant, r)
      && (handed.Some? ==> r.Success? && handed.value in end.claims && handed.value.job == id && Replaced(end, handed.value))
  }

  /** The claim of a delivery nobody interferes with. */
  predicate Taken(p: JobPolicy, before: Tables, after: Tables, id: JobId, tenant: TenantId, token: Token, at: Time,
    r: Result<Option<JobClaim>, StoreError>)
  {
    var claimed := ClaimJob(p, before, id, tenant, token, at, at);
    && r == (if claimed.Success? then Success(claimed.value.1) else Failure(claimed.error))
    && after == (if claimed.Success? then claimed.value.0 else before)
    && after.versions == before.versions
  }

  /** The receipt of a job at rest does not depend on when it is read. */
  predicate Receipt(t: Tables, id: JobId, tenant: TenantId, r: Result<JobView, StoreError>) {
    Visible(t, id, tenant) && t.jobs[id].state != Running ==> r == Success(View(t, id, 0.0))
  }

  /** The worker's parts put together: claim, settle, read back. */
  lemma DeliveryFinished(p: JobPolicy, first: Tables, held: Tables, done: Tables, id: JobId, tenant: TenantId,
    permissions: set<string>, reader: Reader, token: Token, claimed: Option<JobClaim>, claimedAt: Time, at: Time,
    r: Result<JobView, StoreError>)
    requires TablesInv(p, first) && Taken(p, first, held, id, tenant, token, claimedAt, Success(claimed))
    requires claimed.None? ==> done == held
    requires claimed.Some? ==>
      InHand(held, claimed.value, id, tenant, claimedAt + p.leaseSeconds)
      && CarriedOut(held, done, claimed.value, permissions, reader, at)
    requires Receipt(done, id, tenant, r)
    ensures Finished(p, first, done, id, tenant, permissions, reader, token, claimedAt, at, r)
  {
    assert Visible(done, id, tenant) && done.jobs[id].state != Running && View(done, id, 0.0) == View(done, id, at);
    if claimed.Some? {
      var c := claimed.value;
      SettlesFromClaim(first, held, done, c, reader, Reason(Rows(first, DocumentKey(c.tenant, c.document)), c, reader,
        ActionOf(c.request) in permissions, at < claimedAt + p.leaseSeconds));
    }
  }

  /** Runs the claim and records a failure, if there is one, under the same claim; either way the job is given up. */
  method RunAndRecord(world: Deployment, claim: JobClaim, context: Context, reader: Reader, ghost until: Time, ghost quiet: bool)
    returns (ghost at: Time)
    requires world.Valid() && claim in world.system.claims
    requires InHand(world.system.tables, claim, claim.job, context.tenant, until)
    modifies world, world.store
    ensures world.Valid() && Later(world.store.policy, old(world.system), world.system)
    ensures old(world.system.clock) <= at
    ensures claim in world.system.claims && Replaced(world.system, claim)
    ensures quiet ==> CarriedOut(old(world.system.tables), world.system.tables, claim, context.permissions, reader, at)
  {
    ghost var p, s := world.store.policy, world.system;
    var outcome;
    outcome, at := RunClaim(world, claim, context, reader, quiet);
    if outcome.Failure? {
      ghost var ran := world.system;
      var now := world.Interleave(quiet, 0);
      ghost var met := world.system;
      world.Fail(claim, CodeOf(outcome.error), now);
      FailureReplaces(p, met, claim, CodeOf(outcome.error));
      LaterOn(p, s, ran, met);
      LaterOn(p, s, met, world.system);
      if quiet {
        ReachableInv(p, s);
        FailSettles(p, s.tables, claim, reader, CodeOf(outcome.error));
      }
    }
  }

  lemma ClaimFailed(p: JobPolicy, first: Tables, held: Tables, id: JobId, tenant: TenantId, permissions: set<string>, reader: Reader,
    token: Token, error: StoreError, claimedAt: Time)
    requires Taken(p, first, held, id, tenant, token, claimedAt, Failure(error))
    ensures Finished(p, first, held, id, tenant, permissions, reader, token, claimedAt, claimedAt, Failure(error))
  {
  }

  /** Claims the job as others have left it. */
  method TakeClaim(world: Deployment, id: JobId, tenant: TenantId, ghost quiet: bool)
    returns (r: Result<Option<JobClaim>, StoreError>, ghost claimedAt: Time, ghost token: Token)
    requires world.Valid()
    modifies world, world.store
    ensures world.Valid() && Later(world.store.policy, old(world.system), world.system)
    ensures Handed(world.store.policy, old(world.system), world.system, id, tenant, token, claimedAt, r)
    ensures quiet ==> token == old(world.nextToken)
    ensures old(world.system.clock) <= claimedAt
    ensures r.Success? && r.value.Some? ==>
      && r.value.value in world.system.claims && r.value.value.job == id && r.value.value.tenant == tenant
      && InHand(world.system.tables, r.value.value, id, tenant, claimedAt + world.store.policy.leaseSeconds)
    ensures quiet ==>
      Taken(world.store.policy, old(world.system.tables), world.system.tables, id, tenant, old(world.nextToken), claimedAt, r)
  {
    hide Later, InHand, ClaimJob, Reachable;
    ghost var p, s := world.store.policy, world.system;
    var now := world.Interleave(quiet, 0);
    claimedAt, token := now, world.nextToken;
    ghost var met := world.system;
    ReachableInv(p, met);
    ClaimIsCurrent(p, met.tables, id, tenant, world.nextToken, now, now);
    r := world.Claim(id, tenant, now);
    LaterOn(p, s, met, world.system);
    assert Met(p, s, met, world.system, id, tenant, token, now, r);
  }

  /** Carries out the claim, if one was handed out. */
  method Undertake(world: Deployment, claimed: Option<JobClaim>, ghost id: JobId, context: Context, reader: Reader,
    ghost claimedAt: Time, ghost quiet: bool)
    returns (ghost at: Time)
    requires world.Valid()
    requires claimed.Some? ==>
      && claimed.value in world.system.claims
      && InHand(world.system.tables, claimed.value, id, context.tenant, claimedAt + world.store.policy.leaseSeconds)
    modifies world, world.store
    ensures world.Valid() && Later(world.store.policy, old(world.system), world.system)
    ensures claimed.Some? ==> claimed.value in world.system.claims && Replaced(world.system, claimed.value)
    ensures quiet && claimed.None? ==> world.system.tables == old(world.system.tables)
    ensures quiet && claimed.Some? ==>
      CarriedOut(old(world.system.tables), world.system.tables, claimed.value, context.permissions, reader, at)
  {
    at := claimedAt;
    if claimed.None? {
      LaterSelf(world.store.policy, world.system);
      return at;
    }
    at := RunAndRecord(world, claimed.value, context, reader, claimedAt + world.store.policy.leaseSeconds, quiet);
  }

  /** The receipt as it is by then. */
  method ReadReceipt(world: Deployment, id: JobId, tenant: TenantId, ghost quiet: bool)
    returns (r: Result<JobView, StoreError>)
    requires world.Valid()
    modifies world, world.store
    ensures world.Valid() && Later(world.store.policy, old(world.system), world.system)
    ensures Shown(world.system.tables, id, tenant, r)
    ensures quiet ==> world.system == old(world.system)
    ensures quiet ==> Receipt(world.system.tables, id, tenant, r)
  {
    var now := world.Interleave(quiet, 0);
    r := world.GetJob(id, tenant, now);
  }

  lemma Conclude(p: JobPolicy, s: System, held: System, done: System, end: System, id: JobId, tenant: TenantId, token: Token,
    claimedAt: Time, claimed: Option<JobClaim>, r: Result<JobView, StoreError>)
    requires Handed(p, s, held, id, tenant, token, claimedAt, Success(claimed))
    requires Later(p, s, held) && Later(p, held, done) && Later(p, done, end) && Reachable(p, done)
    requires claimed.Some? ==>
      && claimed.value in done.claims && claimed.value.job == id && claimed.value.tenant == tenant
      && Replaced(done, claimed.value)
    requires Shown(end.tables, id, tenant, r)
    ensures Later(p, s, end) && Delivered(p, s, end, id, tenant, token, claimedAt, r)
  {
    hide Handed, Later;
    LaterOn(p, held, done, end);
    LaterOn(p, s, held, end);
    if claimed.Some? {
      ReplacedLater(p, done, end, claimed.value);
    }
    assert Concluded(p, held, end, id, tenant, Success(claimed), r);
  }

  /**
   One delivery of a job. Whatever others do meanwhile, everything it does is a
   run of the document system, and when it returns, the claim it took holds the
   job no longer; if nobody else acts, it leaves the job succeeded
   with its one version, or failed for the stated reason with no version.
   */
  method ProcessDocumentJob(world: Deployment, id: JobId, context: Context, reader: Reader, ghost quiet: bool)
    returns (r: Result<JobView, StoreError>, ghost claimedAt: Time, ghost at: Time, ghost token: Token)
    requires world.Valid()
    modifies world, world.store
    ensures world.Valid() && Later(world.store.policy, old(world.system), world.system)
    ensures Delivered(world.store.policy, old(world.system), world.system, id, context.tenant, token, claimedAt, r)
    ensures quiet ==> token == old(world.nextToken)
    ensures old(world.system.clock) <= claimedAt
    ensures quiet ==> Finished(world.store.policy, old(world.system.tables), world.system.tables, id, context.tenant,
      context.permissions, reader, old(world.nextToken), claimedAt, at, r)
  {
    hide Finished, CarriedOut, InHand, Taken, Receipt, Later, Handed, Shown, Replaced, Reachable;
    ghost var p, s := world.store.policy, world.system;
    var claimed;
    claimed, claimedAt, token := TakeClaim(world, id, context.tenant, quiet);
    at := claimedAt;
    ghost var held := world.system;
    if claimed.Failure? {
      if quiet {
        ClaimFailed(p, s.tables, held.tables, id, context.tenant, context.permissions, reader, token, claimed.error, claimedAt);
      }
      assert Concluded(p, held, held, id, context.tenant, claimed, Failure(claimed.error));
      return Failure(claimed.error), claimedAt, at, token;
    }
    at := Undertake(world, claimed.value, id, context, reader, claimedAt, quiet);
    ghost var done := world.system;
    r := ReadReceipt(world, id, context.tenant, quiet);
    Conclude(p, s, held, done, world.system, id, context.tenant, token, claimedAt, claimed.value, r);
    if quiet {
      ReachableInv(p, s);
      DeliveryFinished(p, s.tables, held.tables, done.tables, id, context.tenant, context.permissions, reader, token,
        claimed.value, claimedAt, at, r);
    }
  }
}
