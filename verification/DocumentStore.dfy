/** The document store itself: three tables updated in place, one transaction a method. */
module DocumentStore {
  import opened Wrappers
  import opened Chunking
  import opened Evidence
  import opened DocumentTables
  import opened DocumentCorpus

  class SQLiteDocumentStore {
    const policy: JobPolicy
    const size: StoredVersion -> nat // bytes of the encoded snapshot
    var versions: map<DocumentKey, seq<VersionRow>>
    var jobs: map<JobId, JobRow>
    var keys: map<(TenantId, string), JobId>

    function Contents(): Tables
      reads this
    {
      Tables(versions, jobs, keys)
    }

    constructor (policy: JobPolicy, size: StoredVersion -> nat)
      requires ValidPolicy(policy)
      ensures this.policy == policy && this.size == size
      ensures Contents() == Tables(map[], map[], map[]) && TablesInv(policy, Contents())
    {
      this.policy, this.size := policy, size;
      versions, jobs, keys := map[], map[], map[];
    }

    // ---------------------------------------------------------------- versions

    /** SELECT MAX(version) over the rows of one document. */
    method LatestVersion(key: DocumentKey) returns (latest: nat)
      ensures latest == MaxVersion(Rows(Contents(), key))
    {
      var rows := if key in versions then versions[key] else [];
      latest := 0;
      for i := 0 to |rows|
        invariant latest == MaxVersion(rows[..i])
      {
        assert rows[..i + 1][..i] == rows[..i];
        if rows[i].version > latest {
          latest := rows[i].version;
        }
      }
      assert rows[..|rows|] == rows;
    }

    /** Shared by direct writes and job commits, inside their transaction. */
    method AppendRow(record: StoredVersion) returns (r: Result<(), StoreError>)
      modifies this`versions
      ensures var appended := Append(old(Contents()), record);
        if appended.Success? then r == Success(()) && Contents() == appended.value
        else r == Failure(appended.error) && Contents() == old(Contents())
    {
      if !ValidTenant(record.tenant) {
        return Failure(InvalidInput);
      }
      var key := KeyOf(record);
      var latest := LatestVersion(key);
      if record.version != latest + 1 {
        return Failure(VersionConflict);
      }
      versions := versions[key := (if key in versions then versions[key] else []) + [VersionRow(record.version, record)]];
      return Success(());
    }

    method CreateVersion(record: StoredVersion) returns (r: Result<StoredVersion, StoreError>)
      modifies this`versions
      ensures var created := DocumentTables.CreateVersion(old(Contents()), record);
        if created.Success? then r == Success(record) && Contents() == created.value
        else r == Failure(created.error) && Contents() == old(Contents())
    {
      var valid := record.version >= 1 && ValidTenant(record.tenant);
      if valid {
        valid := ValidateSavedChunks(record.document.text, record.chunks);
      }
      if !valid {
        return Failure(InvalidSnapshot);
      }
      var appended := AppendRow(record);
      if appended.Failure? {
        return Failure(appended.error);
      }
      return Success(record);
    }

    /** The row with a version, looked for from the newest backwards. */
    method Seek(rows: seq<VersionRow>, version: nat) returns (row: Option<VersionRow>)
      ensures row == FindVersion(rows, version)
    {
      var i := |rows|;
      assert rows[..|rows|] == rows;
      while i > 0
        invariant 0 <= i <= |rows| && FindVersion(rows, version) == FindVersion(rows[..i], version)
      {
        i := i - 1;
        assert rows[..i + 1][..i] == rows[..i];
        if rows[i].version == version {
          return Some(rows[i]);
        }
      }
      return None;
    }

    method Get(tenant: TenantId, document: DocumentId, version: Option<nat>) returns (r: Result<StoredVersion, StoreError>)
      ensures r == GetVersion(Contents(), tenant, document, version)
    {
      if !ValidTenant(tenant) {
        return Failure(InvalidInput);
      }
      if version.Some? && !(1 <= version.value <= 0x7fff_ffff_ffff_ffff) {
        return Failure(InvalidInput);
      }
      var key := DocumentKey(tenant, document);
      var wanted: nat;
      if version.None? {
        wanted := LatestVersion(key);
      } else {
        wanted := version.value;
      }
      var row := Seek(if key in versions then versions[key] else [], wanted);
      if row.None? {
        return Failure(DocumentNotFound);
      }
      return Decode(key, row.value);
    }

    method Delete(tenant: TenantId, document: DocumentId) returns (r: Result<(), StoreError>)
      modifies this`versions, this`jobs
      ensures var deleted := DocumentTables.Delete(old(Contents()), tenant, document);
        if deleted.Success? then r == Success(()) && Contents() == deleted.value
        else r == Failure(deleted.error) && Contents() == old(Contents())
    {
      if !ValidTenant(tenant) {
        return Failure(InvalidInput);
      }
      var key := DocumentKey(tenant, document);
      if key !in versions || versions[key] == [] {
        return Failure(DocumentNotFound);
      }
      versions := versions - {key};
      FenceJobs(key);
      return Success(());
    }

    /** UPDATE over every job of the document, in no particular order. */
    method FenceJobs(key: DocumentKey)
      modifies this`jobs
      ensures jobs == FenceAll(old(jobs), key)
    {
      var pending := jobs.Keys;
      while pending != {}
        invariant pending <= jobs.Keys == old(jobs).Keys
        invariant forall id :: id in jobs ==> jobs[id] == if id in pending then old(jobs)[id] else FenceAll(old(jobs), key)[id]
        decreases |pending|
      {
        var id :| id in pending;
        pending := pending - {id};
        var row := jobs[id];
        if Targets(row, key) {
          row := row.(payload := None, token := None, leaseUntil := None);
          if row.state != Succeeded {
            row := row.(state := Failed, error := Some("DocumentDeleted"));
          }
          jobs := jobs[id := row];
        }
      }
    }

    // -------------------------------------------------------------- the corpus

    /** Latest snapshots of a tenant, all of them or none; the limits are checked before anything is read out. */
    method ReadLatestDocuments(tenant: TenantId, maxDocuments: int, maxSnapshotBytes: int)
      returns (r: Result<seq<StoredVersion>, StoreError>)
      ensures r == ReadLatest(Contents(), size, tenant, maxDocuments, maxSnapshotBytes)
    {
      if maxDocuments < 1 || maxSnapshotBytes < 1 || !ValidTenant(tenant) {
        return Failure(InvalidInput);
      }
      AllDocumentsStored(Contents(), tenant);
      var ids, rows := SelectLatest(tenant);
      var bytes: nat := 0;
      for i := 0 to |rows|
        invariant bytes == TotalSize(size, rows[..i])
      {
        assert rows[..i + 1][..i] == rows[..i];
        bytes := bytes + size(rows[i].snapshot);
      }
      assert rows[..|rows|] == rows;
      if |rows| > maxDocuments || bytes > maxSnapshotBytes {
        return Failure(CorpusLimit);
      }
      r := ReadRows(tenant, ids, rows);
    }

    /** The newest row of every document of the tenant, ordered by document id. */
    method SelectLatest(tenant: TenantId) returns (ids: seq<DocumentId>, rows: seq<VersionRow>)
      ensures ids == Ascending(Documents(Contents(), tenant))
      ensures AllStored(Contents(), tenant, ids) && rows == NewestRows(Contents(), tenant, ids)
    {
      var t := Contents();
      var remaining := Documents(t, tenant);
      ids, rows := [], [];
      AllDocumentsStored(t, tenant);
      ghost var all := Ascending(remaining);
      assert ids + Ascending(remaining) == all;
      while remaining != {}
        invariant ids + Ascending(remaining) == all
        invariant AllStored(t, tenant, all) && |rows| == |ids|
        invariant forall i :: 0 <= i < |ids| ==> ids[i] == all[i] && rows[i] == Newest(t, DocumentKey(tenant, all[i]))
        decreases |remaining|
      {
        LeastExists(remaining);
        var id: DocumentId :| id in remaining && forall other :: other in remaining ==> id <= other;
        assert id == Least(remaining) == all[|ids|];
        var row := Newest(t, DocumentKey(tenant, id));
        ids, rows, remaining := ids + [id], rows + [row], remaining - {id};
      }
      assert ids == all;
      assert rows == NewestRows(t, tenant, ids);
    }

    method ReadRows(tenant: TenantId, ids: seq<DocumentId>, rows: seq<VersionRow>) returns (r: Result<seq<StoredVersion>, StoreError>)
      requires |ids| == |rows|
      ensures r == DecodeAll(tenant, ids, rows)
    {
      var records: seq<StoredVersion> := [];
      for i := 0 to |rows|
        invariant DecodeAll(tenant, ids[..i], rows[..i]) == Success(records)
      {
        assert ids[..i + 1][..i] == ids[..i] && rows[..i + 1][..i] == rows[..i];
        var record := Decode(DocumentKey(tenant, ids[i]), rows[i]);
        if record.Failure? {
          SpoiltForGood(tenant, ids, rows, i + 1);
          return Failure(record.error);
        }
        records := records + [record.value];
      }
      assert ids[..|rows|] == ids && rows[..|rows|] == rows;
      return Success(records);
    }

    // -------------------------------------------------------------------- jobs

    method JobRowOf(id: JobId, tenant: TenantId) returns (r: Result<JobRow, StoreError>)
      ensures r == if Visible(Contents(), id, tenant) then Success(jobs[id]) else Failure(JobNotFound)
    {
      if id !in jobs || jobs[id].tenant != tenant {
        return Failure(JobNotFound);
      }
      return Success(jobs[id]);
    }

    method GetJob(id: JobId, tenant: TenantId, now: Time) returns (r: Result<JobView, StoreError>)
      ensures r == if Visible(Contents(), id, tenant) then Success(View(Contents(), id, now)) else Failure(JobNotFound)
    {
      var row := JobRowOf(id, tenant);
      if row.Failure? {
        return Failure(row.error);
      }
      var j := row.value;
      var available := false;
      if j.version.Some? {
        var key := DocumentKey(j.tenant, j.document);
        var written := Seek(if key in versions then versions[key] else [], j.version.value);
        available := written.Some?;
      }
      var active := j.state == Running && j.leaseUntil.Some? && j.leaseUntil.value > now;
      return Success(JobView(id, j.tenant, j.document, j.submitted.CreateRequest?, j.state, j.version, j.attempts, j.error,
        j.published, active, available));
    }

    /** The first submission under a key inserts a queued job; a repetition gets the job it names, or a conflict. */
    method SubmitJob(tenant: TenantId, request: Request, options: ChunkingOptions, key: string,
      freshDocument: DocumentId, freshJob: JobId, now: Time)
      returns (r: Result<(JobView, bool), StoreError>)
      requires freshJob !in jobs
      modifies this`jobs, this`keys
      ensures var submitted := Submit(old(Contents()), tenant, request, options, key, freshDocument, freshJob);
        if submitted.Success? then
          && Contents() == submitted.value.0
          && submitted.value.1.job in jobs
          && r == Success((View(Contents(), submitted.value.1.job, now), submitted.value.1.replayed))
        else r == Failure(submitted.error) && Contents() == old(Contents())
    {
      if !ValidKey(key) || !ValidRequest(request) {
        return Failure(InvalidInput);
      }
      var document := if request.CreateRequest? then freshDocument else request.documentId;
      if !ValidTenant(tenant) {
        return Failure(InvalidInput);
      }
      if (tenant, key) in keys && keys[(tenant, key)] in jobs {
        var existing := keys[(tenant, key)];
        if jobs[existing].submitted != request {
          return Failure(JobConflict);
        }
        return Success((View(Contents(), existing, now), true));
      }
      jobs := jobs[freshJob := NewJob(tenant, document, request, options, key)];
      keys := keys[(tenant, key) := freshJob];
      return Success((View(Contents(), freshJob, now), false));
    }

    method ClaimJob(id: JobId, tenant: TenantId, token: Token, leaseRead: Time, renewRead: Time)
      returns (r: Result<Option<JobClaim>, StoreError>)
      modifies this`jobs
      ensures var claimed := DocumentTables.ClaimJob(policy, old(Contents()), id, tenant, token, leaseRead, renewRead);
        if claimed.Success? then r == Success(claimed.value.1) && Contents() == claimed.value.0
        else r == Failure(claimed.error) && Contents() == old(Contents())
    {
      var row := JobRowOf(id, tenant);
      if row.Failure? {
        return Failure(row.error);
      }
      var j := row.value;
      if j.state == Succeeded || j.state == Failed {
        return Success(None);
      }
      if j.state == Running && LeaseActive(j, leaseRead) {
        return Failure(JobConflict);
      }
      if j.attempts >= policy.maxAttempts {
        jobs := jobs[id := j.(state := Failed, error := Some("AttemptLimit"), payload := None, token := None, leaseUntil := None)];
        return Success(None);
      }
      if !Readable(j) {
        return Failure(Corruption);
      }
      jobs := jobs[id := j.(state := Running, attempts := j.attempts + 1, token := Some(token),
        leaseUntil := Some(renewRead + policy.leaseSeconds))];
      return Success(Some(JobClaim(id, j.tenant, j.document, j.payload.value, j.options, token)));
    }

    /** The claim is checked, the version appended and success recorded in one transaction, or nothing happens. */
    method CommitJob(claim: JobClaim, r: StoredVersion, now: Time) returns (out: Result<StoredVersion, StoreError>)
      modifies this`versions, this`jobs
      ensures var committed := DocumentTables.CommitJob(old(Contents()), claim, r, now);
        if committed.Success? then out == Success(committed.value.1) && Contents() == committed.value.0
        else out == Failure(committed.error) && Contents() == old(Contents())
    {
      var valid := r.version >= 1 && ValidTenant(r.tenant);
      if valid {
        valid := ValidateSavedChunks(r.document.text, r.chunks);
      }
      if !valid {
        return Failure(InvalidSnapshot);
      }
      if r.tenant != claim.tenant {
        return Failure(JobConflict);
      }
      var record := r;
      if claim.request.CreateRequest? {
        record := record.(documentId := claim.document);
      } else if record.documentId != claim.document {
        return Failure(JobConflict);
      }
      if record.version != ExpectedVersion(claim.request) {
        return Failure(JobConflict);
      }
      var row := JobRowOf(claim.job, claim.tenant);
      if row.Failure? {
        return Failure(row.error);
      }
      var j := row.value;
      if j.state != Running || j.token != Some(claim.token) || !LeaseActive(j, now) {
        return Failure(JobConflict);
      }
      var appended := AppendRow(record);
      if appended.Failure? {
        return Failure(appended.error);
      }
      jobs := jobs[claim.job := j.(state := Succeeded, version := Some(record.version), error := None,
        payload := None, token := None, leaseUntil := None)];
      return Success(record);
    }

    method FailJob(claim: JobClaim, code: string) returns (r: Result<(), StoreError>)
      modifies this`jobs
      ensures r == if ValidCode(code) then Success(()) else Failure(InvalidInput)
      ensures Contents() == if ValidCode(code) then DocumentTables.FailJob(policy, old(Contents()), claim, code) else old(Contents())
    {
      if !ValidCode(code) {
        return Failure(InvalidInput);
      }
      if claim.job in jobs {
        var j := jobs[claim.job];
        if j.tenant == claim.tenant && j.token == Some(claim.token) && j.state == Running {
          j := j.(state := Failed, error := Some(code), token := None, leaseUntil := None);
          if j.attempts >= policy.maxAttempts {
            j := j.(payload := None);
          }
          jobs := jobs[claim.job := j];
        }
      }
      return Success(());
    }

    method RetryJob(id: JobId, tenant: TenantId, leaseRead: Time, now: Time) returns (r: Result<JobView, StoreError>)
      modifies this`jobs
      ensures var retried := DocumentTables.RetryJob(policy, old(Contents()), id, tenant, leaseRead);
        if retried.Success? then Contents() == retried.value && id in jobs && r == Success(View(Contents(), id, now))
        else r == Failure(retried.error) && Contents() == old(Contents())
    {
      var row := JobRowOf(id, tenant);
      if row.Failure? {
        return Failure(row.error);
      }
      var j := row.value;
      if j.state != Queued {
        if j.state == Succeeded || (j.state == Running && LeaseActive(j, leaseRead))
          || j.attempts >= policy.maxAttempts || j.payload.None?
        {
          return Failure(JobConflict);
        }
        jobs := jobs[id := j.(state := Queued, error := None, token := None, leaseUntil := None, published := false)];
      }
      return Success(View(Contents(), id, now));
    }

    method MarkJobPublished(id: JobId, tenant: TenantId) returns (r: Result<(), StoreError>)
      modifies this`jobs
      ensures var marked := MarkPublished(old(Contents()), id, tenant);
        if marked.Success? then r == Success(()) && Contents() == marked.value
        else r == Failure(marked.error) && Contents() == old(Contents())
    {
      var row := JobRowOf(id, tenant);
      if row.Failure? {
        return Failure(row.error);
      }
      jobs := jobs[id := row.value.(published := true)];
      return Success(());
    }
  }
}
