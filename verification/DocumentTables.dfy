/**
 Document versions and document jobs (crewos/ingestion/adapters): the tables and
 the outcome of every store transaction on them as a function. The class in
 DocumentStore.dfy updates the tables in place and is proved against these.
 Base64 and JSON are replaced by the values they encode, and the input
 fingerprint, being injective, by the input itself.
 */
module DocumentTables {
  import opened Wrappers
  import opened Chunking
  import opened Evidence

  type JobId = nat
  type Token = nat
  type Time = real

  datatype DocumentKey = DocumentKey(tenant: TenantId, document: DocumentId)

  datatype VersionRow = VersionRow(version: nat, snapshot: StoredVersion)

  datatype Request =
    | CreateRequest(content: seq<bv8>, title: string, sourceRef: Option<string>)
    | UpdateRequest(content: seq<bv8>, title: string, sourceRef: Option<string>,
        documentId: DocumentId, expectedVersion: nat)

  datatype JobState = Queued | Running | Succeeded | Failed

  datatype JobRow = JobRow(
    tenant: TenantId,
    document: DocumentId,
    submitted: Request, // operation and fingerprint
    key: string,
    payload: Option<Request>,
    options: ChunkingOptions,
    state: JobState,
    version: Option<nat>,
    error: Option<string>,
    attempts: nat,
    token: Option<Token>,
    leaseUntil: Option<Time>,
    published: bool)

  /** What a worker holds after claiming a job. */
  datatype JobClaim = JobClaim(
    job: JobId, tenant: TenantId, document: DocumentId, request: Request, options: ChunkingOptions, token: Token)

  datatype Tables = Tables(
    versions: map<DocumentKey, seq<VersionRow>>,
    jobs: map<JobId, JobRow>,
    keys: map<(TenantId, string), JobId>) // UNIQUE(tenant, key_hash)

  datatype StoreError =
    | InvalidInput
    | InvalidSnapshot
    | DocumentNotFound
    | VersionConflict
    | JobNotFound
    | JobConflict
    | Corruption
    | CorpusLimit

  datatype JobPolicy = JobPolicy(leaseSeconds: Time, maxAttempts: nat)

  predicate ValidPolicy(p: JobPolicy) {
    p.leaseSeconds > 0.0 && p.maxAttempts >= 1
  }

  // ------------------------------------------------------------ input shapes

  predicate Alphanumeric(c: char) {
    'A' <= c <= 'Z' || 'a' <= c <= 'z' || '0' <= c <= '9'
  }

  predicate ValidTenant(t: TenantId) {
    1 <= |t| <= 64 && forall i :: 0 <= i < |t| ==> Alphanumeric(t[i]) || t[i] == '_' || t[i] == '-'
  }

  predicate ValidKey(k: string) {
    1 <= |k| <= 128 && forall i :: 0 <= i < |k| ==> Alphanumeric(k[i]) || k[i] in "._:-"
  }

  predicate ValidCode(e: string) {
    && 1 <= |e| <= 64
    && ('A' <= e[0] <= 'Z' || 'a' <= e[0] <= 'z')
    && forall i :: 0 <= i < |e| ==> Alphanumeric(e[i]) || e[i] == '_'
  }

  predicate ValidRequest(r: Request) {
    1 <= |r.content| <= 4_000_000 && (r.UpdateRequest? ==> r.expectedVersion >= 1)
  }

  /** What validating a record checks: its tenant, its version and its chunks. */
  predicate WellFormed(r: StoredVersion) {
    ValidTenant(r.tenant) && ValidSnapshot(r)
  }

  // ---------------------------------------------------------------- versions

  function Rows(t: Tables, key: DocumentKey): seq<VersionRow> {
    if key in t.versions then t.versions[key] else []
  }

  /** SELECT MAX(version), zero when there is no row. */
  function MaxVersion(rows: seq<VersionRow>): nat {
    if rows == [] then 0
    else
      var rest := MaxVersion(rows[..|rows| - 1]);
      var last := rows[|rows| - 1].version;
      if last > rest then last else rest
  }

  function KeyOf(r: StoredVersion): DocumentKey {
    DocumentKey(r.tenant, r.documentId)
  }

  /** Inside a transaction: the next revision is appended or the transaction fails. */
  function Append(t: Tables, r: StoredVersion): Result<Tables, StoreError> {
    if !ValidTenant(r.tenant) then Failure(InvalidInput)
    else if r.version != MaxVersion(Rows(t, KeyOf(r))) + 1 then Failure(VersionConflict)
    else Success(t.(versions := t.versions[KeyOf(r) := Rows(t, KeyOf(r)) + [VersionRow(r.version, r)]]))
  }

  function CreateVersion(t: Tables, r: StoredVersion): Result<Tables, StoreError> {
    if !WellFormed(r) then Failure(InvalidSnapshot) else Append(t, r)
  }

  /** The check on reading a row back. */
  function Decode(key: DocumentKey, row: VersionRow): Result<StoredVersion, StoreError> {
    if WellFormed(row.snapshot) && KeyOf(row.snapshot) == key && row.snapshot.version == row.version
    then Success(row.snapshot) else Failure(Corruption)
  }

  /** The row with a given version, if any; versions are unique within a document. */
  function FindVersion(rows: seq<VersionRow>, version: nat): Option<VersionRow> {
    if rows == [] then None
    else if rows[|rows| - 1].version == version then Some(rows[|rows| - 1])
    else FindVersion(rows[..|rows| - 1], version)
  }

  /** ORDER BY version DESC LIMIT 1. */
  function LatestRow(rows: seq<VersionRow>): Option<VersionRow> {
    FindVersion(rows, MaxVersion(rows))
  }

  function GetVersion(t: Tables, tenant: TenantId, document: DocumentId, version: Option<nat>): Result<StoredVersion, StoreError> {
    if !ValidTenant(tenant) || (version.Some? && !(1 <= version.value <= 0x7fff_ffff_ffff_ffff)) then Failure(InvalidInput)
    else
      var key := DocumentKey(tenant, document);
      var row := if version.None? then LatestRow(Rows(t, key)) else FindVersion(Rows(t, key), version.value);
      if row.None? then Failure(DocumentNotFound) else Decode(key, row.value)
  }

  // -------------------------------------------------------------------- jobs

  function Fence(j: JobRow): JobRow {
    j.(
      payload := None,
      state := if j.state == Succeeded then Succeeded else Failed,
      error := if j.state == Succeeded then j.error else Some("DocumentDeleted"),
      token := None,
      leaseUntil := None)
  }

  predicate Targets(j: JobRow, key: DocumentKey) {
    j.tenant == key.tenant && j.document == key.document
  }

  function FenceAll(jobs: map<JobId, JobRow>, key: DocumentKey): map<JobId, JobRow> {
    map id | id in jobs :: if Targets(jobs[id], key) then Fence(jobs[id]) else jobs[id]
  }

  function Delete(t: Tables, tenant: TenantId, document: DocumentId): Result<Tables, StoreError> {
    var key := DocumentKey(tenant, document);
    if !ValidTenant(tenant) then Failure(InvalidInput)
    else if Rows(t, key) == [] then Failure(DocumentNotFound)
    else Success(t.(versions := t.versions - {key}, jobs := FenceAll(t.jobs, key)))
  }

  predicate Visible(t: Tables, id: JobId, tenant: TenantId) {
    id in t.jobs && t.jobs[id].tenant == tenant
  }

  predicate LeaseActive(j: JobRow, now: Time) {
    j.leaseUntil.Some? && j.leaseUntil.value > now
  }

  /** The public receipt of a job; it never shows content. */
  datatype JobView = JobView(
    job: JobId, tenant: TenantId, document: DocumentId, creates: bool, state: JobState, version: Option<nat>,
    attempts: nat, error: Option<string>, published: bool, leaseActive: bool, resultAvailable: bool)

  /** The version a job wrote can still be read. */
  predicate ResultAvailable(t: Tables, j: JobRow) {
    j.version.Some? && FindVersion(Rows(t, DocumentKey(j.tenant, j.document)), j.version.value).Some?
  }

  function View(t: Tables, id: JobId, now: Time): JobView
    requires id in t.jobs
  {
    var j := t.jobs[id];
    JobView(id, j.tenant, j.document, j.submitted.CreateRequest?, j.state, j.version, j.attempts, j.error, j.published,
      j.state == Running && LeaseActive(j, now), ResultAvailable(t, j))
  }

  datatype Submission = Submission(job: JobId, replayed: bool)

  function NewJob(tenant: TenantId, document: DocumentId, r: Request, o: ChunkingOptions, key: string): JobRow {
    JobRow(tenant, document, r, key, Some(r), o, Queued, None, None, 0, None, None, false)
  }

  /** A create request gets the fresh document id, an update names its target. */
  function TargetOf(r: Request, freshDocument: DocumentId): DocumentId {
    if r.CreateRequest? then freshDocument else r.documentId
  }

  function Submit(t: Tables, tenant: TenantId, r: Request, o: ChunkingOptions, key: string, freshDocument: DocumentId, freshJob: JobId)
    : Result<(Tables, Submission), StoreError>
  {
    if !ValidKey(key) || !ValidRequest(r) || !ValidTenant(tenant) then Failure(InvalidInput)
    else if (tenant, key) in t.keys && t.keys[(tenant, key)] in t.jobs then
      var id := t.keys[(tenant, key)];
      if t.jobs[id].submitted != r then Failure(JobConflict) else Success((t, Submission(id, true)))
    else Success((
      t.(
        jobs := t.jobs[freshJob := NewJob(tenant, TargetOf(r, freshDocument), r, o, key)],
        keys := t.keys[(tenant, key) := freshJob]),
      Submission(freshJob, false)))
  }

  /** The job's claim can be rebuilt from its stored payload. */
  predicate Readable(j: JobRow) {
    && j.payload.Some?
    && ValidRequest(j.payload.value)
    && ValidOptions(j.options)
    && (j.payload.value.CreateRequest? <==> j.submitted.CreateRequest?)
    && (j.payload.value.UpdateRequest? ==> j.payload.value.documentId == j.document)
  }

  function ClaimJob(p: JobPolicy, t: Tables, id: JobId, tenant: TenantId, token: Token, leaseRead: Time, renewRead: Time)
    : Result<(Tables, Option<JobClaim>), StoreError>
  {
    if !Visible(t, id, tenant) then Failure(JobNotFound)
    else
      var j := t.jobs[id];
      if j.state in {Succeeded, Failed} then Success((t, None))
      else if j.state == Running && LeaseActive(j, leaseRead) then Failure(JobConflict)
      else if j.attempts >= p.maxAttempts then
        var spent := j.(state := Failed, error := Some("AttemptLimit"), payload := None, token := None, leaseUntil := None);
        Success((t.(jobs := t.jobs[id := spent]), None))
      else if !Readable(j) then Failure(Corruption)
      else
        var running := j.(state := Running, attempts := j.attempts + 1, token := Some(token),
          leaseUntil := Some(renewRead + p.leaseSeconds));
        Success((
          t.(jobs := t.jobs[id := running]),
          Some(JobClaim(id, j.tenant, j.document, j.payload.value, j.options, token))))
  }

  /** The revision a claim is entitled to write. */
  function ExpectedVersion(r: Request): nat {
    if r.CreateRequest? then 1 else r.expectedVersion + 1
  }

  predicate Holds(t: Tables, claim: JobClaim, now: Time) {
    && Visible(t, claim.job, claim.tenant)
    && t.jobs[claim.job].state == Running
    && t.jobs[claim.job].token == Some(claim.token)
    && LeaseActive(t.jobs[claim.job], now)
  }

  /** A create claim writes under the id its submission was given, whatever the record says. */
  function Directed(claim: JobClaim, r: StoredVersion): StoredVersion {
    if claim.request.CreateRequest? then r.(documentId := claim.document) else r
  }

  function CommitJob(t: Tables, claim: JobClaim, r: StoredVersion, now: Time): Result<(Tables, StoredVersion), StoreError> {
    var record := Directed(claim, r);
    if !WellFormed(r) then Failure(InvalidSnapshot)
    else if r.tenant != claim.tenant || record.documentId != claim.document then Failure(JobConflict)
    else if record.version != ExpectedVersion(claim.request) then Failure(JobConflict)
    else if !Visible(t, claim.job, claim.tenant) then Failure(JobNotFound)
    else if !Holds(t, claim, now) then Failure(JobConflict)
    else
      var appended := Append(t, record);
      if appended.Failure? then Failure(appended.error)
      else
        var done := t.jobs[claim.job].(state := Succeeded, version := Some(record.version), error := None,
          payload := None, token := None, leaseUntil := None);
        Success((appended.value.(jobs := t.jobs[claim.job := done]), record))
  }

  /** Only the current token of a running job may fail it; anything else is a no-op. */
  function FailJob(p: JobPolicy, t: Tables, claim: JobClaim, code: string): Tables {
    if !Visible(t, claim.job, claim.tenant) then t
    else
      var j := t.jobs[claim.job];
      if j.state != Running || j.token != Some(claim.token) then t
      else t.(jobs := t.jobs[claim.job := j.(state := Failed, error := Some(code),
        payload := if j.attempts >= p.maxAttempts then None else j.payload, token := None, leaseUntil := None)])
  }

  function RetryJob(p: JobPolicy, t: Tables, id: JobId, tenant: TenantId, now: Time): Result<Tables, StoreError> {
    if !Visible(t, id, tenant) then Failure(JobNotFound)
    else
      var j := t.jobs[id];
      if j.state == Queued then Success(t)
      else if j.state == Succeeded || (j.state == Running && LeaseActive(j, now))
        || j.attempts >= p.maxAttempts || j.payload.None? then Failure(JobConflict)
      else Success(t.(jobs := t.jobs[id := j.(state := Queued, error := None, token := None, leaseUntil := None, published := false)]))
  }

  function MarkPublished(t: Tables, id: JobId, tenant: TenantId): Result<Tables, StoreError> {
    if !Visible(t, id, tenant) then Failure(JobNotFound)
    else Success(t.(jobs := t.jobs[id := t.jobs[id].(published := true)]))
  }

  // ------------------------------------------------------------- row invariants

  /** The versions of a document are exactly 1..n, each a valid snapshot of itself. */
  predicate HistoryInv(key: DocumentKey, rows: seq<VersionRow>) {
    && rows != []
    && ValidTenant(key.tenant)
    && forall i :: 0 <= i < |rows| ==> rows[i].version == i + 1 && Decode(key, rows[i]) == Success(rows[i].snapshot)
  }

  predicate JobInv(p: JobPolicy, j: JobRow) {
    && (j.token.Some? <==> j.state == Running)
    && (j.leaseUntil.Some? <==> j.state == Running)
    && (j.state in {Queued, Running} ==> j.payload.Some?)
    && (j.state == Succeeded ==> j.payload.None?)
    && (j.version.Some? <==> j.state == Succeeded)
    && (j.payload.Some? ==> j.payload.value == j.submitted)
    && ValidRequest(j.submitted)
    && ValidOptions(j.options)
    && (j.submitted.UpdateRequest? ==> j.document == j.submitted.documentId)
    && j.attempts <= p.maxAttempts
    && ValidTenant(j.tenant)
  }

  predicate KeysInv(t: Tables) {
    && (forall k :: k in t.keys ==> t.keys[k] in t.jobs && t.jobs[t.keys[k]].tenant == k.0 && t.jobs[t.keys[k]].key == k.1)
    && (forall id :: id in t.jobs ==>
      (t.jobs[id].tenant, t.jobs[id].key) in t.keys && t.keys[(t.jobs[id].tenant, t.jobs[id].key)] == id)
  }

  predicate TablesInv(p: JobPolicy, t: Tables) {
    && (forall key :: key in t.versions ==> HistoryInv(key, t.versions[key]))
    && (forall id :: id in t.jobs ==> JobInv(p, t.jobs[id]))
    && KeysInv(t)
  }

  lemma {:induction false} MaxOfHistory(rows: seq<VersionRow>)
    requires forall i :: 0 <= i < |rows| ==> rows[i].version == i + 1
    ensures MaxVersion(rows) == |rows|
  {
    if rows == [] {
    } else {
      MaxOfHistory(rows[..|rows| - 1]);
    }
  }

  lemma {:induction false} FindInHistory(rows: seq<VersionRow>, version: nat)
    requires forall i :: 0 <= i < |rows| ==> rows[i].version == i + 1
    ensures FindVersion(rows, version) == if 1 <= version <= |rows| then Some(rows[version - 1]) else None
  {
    if rows == [] {
    } else {
      FindInHistory(rows[..|rows| - 1], version);
    }
  }

  lemma AppendKeeps(p: JobPolicy, t: Tables, r: StoredVersion)
    requires TablesInv(p, t) && ValidSnapshot(r) && Append(t, r).Success?
    ensures TablesInv(p, Append(t, r).value)
    ensures r.version == |Rows(t, KeyOf(r))| + 1
  {
    MaxOfHistory(Rows(t, KeyOf(r)));
  }

  lemma DeleteKeeps(p: JobPolicy, t: Tables, tenant: TenantId, document: DocumentId)
    requires TablesInv(p, t) && Delete(t, tenant, document).Success?
    ensures TablesInv(p, Delete(t, tenant, document).value)
  {
    var key := DocumentKey(tenant, document);
    var after := Delete(t, tenant, document).value;
    assert forall id :: id in after.jobs ==>
        id in t.jobs && after.jobs[id].tenant == t.jobs[id].tenant && after.jobs[id].key == t.jobs[id].key;
  }

  lemma KeysPointToJobs(t: Tables)
    requires KeysInv(t)
    ensures forall k :: k in t.keys ==> t.keys[k] in t.jobs
  {
  }

  /** A fresh job under a key not used before. */
  lemma NewKeyKeeps(t: Tables, id: JobId, j: JobRow)
    requires KeysInv(t) && id !in t.jobs && (j.tenant, j.key) !in t.keys
    ensures KeysInv(t.(jobs := t.jobs[id := j], keys := t.keys[(j.tenant, j.key) := id]))
  {
  }

  lemma SubmitKeeps(p: JobPolicy, t: Tables, tenant: TenantId, r: Request, o: ChunkingOptions, key: string, d: DocumentId, id: JobId)
    requires TablesInv(p, t) && ValidOptions(o) && id !in t.jobs && Submit(t, tenant, r, o, key, d, id).Success?
    ensures TablesInv(p, Submit(t, tenant, r, o, key, d, id).value.0)
  {
    hide HistoryInv, KeysInv;
    if !Submit(t, tenant, r, o, key, d, id).value.1.replayed {
      KeysPointToJobs(t);
      NewKeyKeeps(t, id, NewJob(tenant, TargetOf(r, d), r, o, key));
    }
  }

  /** A job row changed without touching its tenant or key. */
  lemma JobUpdateKeeps(p: JobPolicy, t: Tables, id: JobId, j: JobRow)
    requires TablesInv(p, t) && id in t.jobs && JobInv(p, j)
    requires j.tenant == t.jobs[id].tenant && j.key == t.jobs[id].key
    ensures TablesInv(p, t.(jobs := t.jobs[id := j]))
  {
  }

  lemma ClaimKeeps(p: JobPolicy, t: Tables, id: JobId, tenant: TenantId, token: Token, leaseRead: Time, renewRead: Time)
    requires TablesInv(p, t)
    ensures var r := ClaimJob(p, t, id, tenant, token, leaseRead, renewRead);
      r != Failure(Corruption) && (r.Success? ==> TablesInv(p, r.value.0))
  {
    var r := ClaimJob(p, t, id, tenant, token, leaseRead, renewRead);
    if Visible(t, id, tenant) {
      assert JobInv(p, t.jobs[id]);
      if r.Success? && r.value.0 != t {
        JobUpdateKeeps(p, t, id, r.value.0.jobs[id]);
      }
    }
  }

  lemma CommitKeeps(p: JobPolicy, t: Tables, claim: JobClaim, r: StoredVersion, now: Time)
    requires TablesInv(p, t) && CommitJob(t, claim, r, now).Success?
    ensures TablesInv(p, CommitJob(t, claim, r, now).value.0)
  {
    var record := Directed(claim, r);
    AppendKeeps(p, t, record);
    var appended := Append(t, record).value;
    var after := CommitJob(t, claim, r, now).value.0;
    JobUpdateKeeps(p, appended, claim.job, after.jobs[claim.job]);
  }

  /** A stored document is always readable, by its latest and by every earlier version, and nothing else is found. */
  lemma GetIsExact(p: JobPolicy, t: Tables, tenant: TenantId, document: DocumentId, version: Option<nat>)
    requires TablesInv(p, t) && ValidTenant(tenant)
    requires version.Some? ==> 1 <= version.value <= 0x7fff_ffff_ffff_ffff
    ensures var rows := Rows(t, DocumentKey(tenant, document));
      var n := if version.Some? then version.value else |rows|;
      GetVersion(t, tenant, document, version) ==
        if 1 <= n <= |rows| then Success(rows[n - 1].snapshot) else Failure(DocumentNotFound)
  {
    var rows := Rows(t, DocumentKey(tenant, document));
    MaxOfHistory(rows);
    FindInHistory(rows, if version.Some? then version.value else |rows|);
  }
}
