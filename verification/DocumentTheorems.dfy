/** What every run of the document system keeps, and what no later event can undo. */
module DocumentTheorems {
  import opened Wrappers
  import opened Chunking
  import opened Evidence
  import opened DocumentTables
  import opened DocumentSystem

  // -------------------------------------------------------------- one append a key

  /** Two appended versions never come from the same tenant and idempotency key. */
  lemma OneAppendPerKey(p: JobPolicy, s: System, i: nat, k: nat)
    requires Reachable(p, s) && i < |s.appended| && k < |s.appended|
    ensures s.appended[i].job in s.tables.jobs && s.appended[k].job in s.tables.jobs
    ensures var a, b := s.tables.jobs[s.appended[i].job], s.tables.jobs[s.appended[k].job];
      a.tenant == b.tenant && a.key == b.key ==> i == k
  {
    ReachableInv(p, s);
    assert EntryInv(s.tables, s.appended[i]) && EntryInv(s.tables, s.appended[k]);
    var a, b := s.appended[i].job, s.appended[k].job;
    if s.tables.jobs[a].tenant == s.tables.jobs[b].tenant && s.tables.jobs[a].key == s.tables.jobs[b].key {
      assert a == s.tables.keys[(s.tables.jobs[a].tenant, s.tables.jobs[a].key)] == b;
    }
  }

  /** A job is succeeded exactly when one of the appended versions is its own, of its document and its revision. */
  lemma SucceededMeansAppended(p: JobPolicy, s: System, id: JobId)
    requires Reachable(p, s) && id in s.tables.jobs
    ensures s.tables.jobs[id].state == Succeeded <==> AppendedBy(s.appended, id)
    ensures forall i :: 0 <= i < |s.appended| && s.appended[i].job == id ==>
      var j := s.tables.jobs[id];
      s.appended[i] == Appended(id, DocumentKey(j.tenant, j.document), ExpectedVersion(j.submitted))
      && j.version == Some(s.appended[i].version)
  {
    ReachableInv(p, s);
    forall i | 0 <= i < |s.appended| && s.appended[i].job == id
      ensures EntryInv(s.tables, s.appended[i])
    {
    }
  }

  /** One row joins the history of one document. */
  ghost predicate Grows(before: Tables, after: Tables, key: DocumentKey) {
    exists row: VersionRow ::
      && after.versions == before.versions[key := Rows(before, key) + [row]]
      && row.version == |Rows(before, key)| + 1
  }

  /**
   The ledger is honest: it gains an entry exactly when a job's transaction adds a
   row, and only then, apart from direct writes and deletes, do histories change.
   */
  lemma LedgerIsHonest(p: JobPolicy, s: System, e: Event, after: Time)
    requires Reachable(p, s) && Possible(s, e, after)
    ensures var t := Next(p, s, e);
      if e.DoCommit? && t.appended != s.appended then
        && |t.appended| == |s.appended| + 1 && t.appended[..|s.appended|] == s.appended
        && var a := t.appended[|s.appended|];
          a.job == e.claim.job && Grows(s.tables, t.tables, a.key) && a.version == |Rows(t.tables, a.key)|
      else
        && t.appended == s.appended
        && (!(e.DoDelete? || e.DoCreate? || e.DoUpdate?) ==> t.tables.versions == s.tables.versions)
  {
    hide AppendedInv, TokenInv, SeenInv, HistoryInv, KeysInv, JobInv;
    ReachableInv(p, s);
    if e.DoCommit? && CommitJob(s.tables, e.claim, e.record, e.now).Success? {
      CommitGrows(p, s.tables, e.claim, e.record, e.now);
      assert Next(p, s, e).appended[..|s.appended|] == s.appended;
    }
  }

  /** A successful commit adds the claim's revision to its document, and touches no other. */
  lemma CommitGrows(p: JobPolicy, t: Tables, claim: JobClaim, r: StoredVersion, now: Time)
    requires TablesInv(p, t) && CommitJob(t, claim, r, now).Success?
    ensures var committed := CommitJob(t, claim, r, now).value;
      Grows(t, committed.0, KeyOf(committed.1)) && committed.1.version == |Rows(committed.0, KeyOf(committed.1))|
  {
    hide TablesInv;
    var record := Directed(claim, r);
    AppendKeeps(p, t, record);
    assert CommitJob(t, claim, r, now).value.0.versions ==
        t.versions[KeyOf(record) := Rows(t, KeyOf(record)) + [VersionRow(record.version, record)]];
  }

  // -------------------------------------------------------------- version history

  /** The versions stored for a document are exactly 1..n, and each reads back as the snapshot written under it. */
  lemma HistoryIsContiguous(p: JobPolicy, s: System, key: DocumentKey, n: nat)
    requires Reachable(p, s) && ValidTenant(key.tenant) && 1 <= n <= 0x7fff_ffff_ffff_ffff
    ensures var rows := Rows(s.tables, key);
      && (forall i :: 0 <= i < |rows| ==> rows[i].version == i + 1 && ValidSnapshot(rows[i].snapshot))
      && (GetVersion(s.tables, key.tenant, key.document, Some(n)).Success? <==> n <= |rows|)
      && (n <= |rows| ==> GetVersion(s.tables, key.tenant, key.document, Some(n)) == Success(rows[n - 1].snapshot))
      && (rows != [] ==> GetVersion(s.tables, key.tenant, key.document, None) == Success(rows[|rows| - 1].snapshot))
  {
    ReachableInv(p, s);
    GetIsExact(p, s.tables, key.tenant, key.document, Some(n));
    GetIsExact(p, s.tables, key.tenant, key.document, None);
    var rows := Rows(s.tables, key);
    forall i | 0 <= i < |rows|
      ensures rows[i].version == i + 1 && ValidSnapshot(rows[i].snapshot)
    {
      assert HistoryInv(key, s.tables.versions[key]);
      assert Decode(key, rows[i]) == Success(rows[i].snapshot);
    }
  }

  predicate Deletes(e: Event, key: DocumentKey) {
    e.DoDelete? && e.tenant == key.tenant && e.document == key.document
  }

  lemma StepExtendsHistory(p: JobPolicy, s: System, e: Event, key: DocumentKey)
    ensures Deletes(e, key) || Rows(s.tables, key) <= Rows(Next(p, s, e).tables, key)
  {
    if e.DoCommit? && CommitJob(s.tables, e.claim, e.record, e.now).Success? {
      CommitExtends(s.tables, e.claim, e.record, e.now, key);
    } else if e.DoSubmit? {
      assert Next(p, s, e).tables.versions == s.tables.versions;
    }
  }

  lemma CommitExtends(t: Tables, claim: JobClaim, r: StoredVersion, now: Time, key: DocumentKey)
    requires CommitJob(t, claim, r, now).Success?
    ensures Rows(t, key) <= Rows(CommitJob(t, claim, r, now).value.0, key)
  {
    var record := Directed(claim, r);
    assert CommitJob(t, claim, r, now).value.0.versions ==
        t.versions[KeyOf(record) := Rows(t, KeyOf(record)) + [VersionRow(record.version, record)]];
  }

  predicate DeletedAt(moments: seq<Moment>, key: DocumentKey, i: nat) {
    i < |moments| && Deletes(moments[i].event, key)
  }

  /** Unless somebody deletes the document, its stored snapshots stay as they are and only later ones join them. */
  lemma {:induction false} SnapshotsNeverAltered(p: JobPolicy, s: System, moments: seq<Moment>, t: System, key: DocumentKey)
    requires Leads(p, s, moments, t)
    requires forall i: nat :: !DeletedAt(moments, key, i)
    ensures Rows(s.tables, key) <= Rows(t.tables, key)
    decreases |moments|
  {
    if moments == [] {
    } else {
      var m := moments[|moments| - 1];
      var earlier := moments[..|moments| - 1];
      var before: System :|
        Leads(p, s, earlier, before) && Possible(before, m.event, m.after) && t == Next(p, before, m.event).(clock := m.after);
      forall i: nat
        ensures !DeletedAt(earlier, key, i)
      {
        assert !DeletedAt(moments, key, i);
      }
      SnapshotsNeverAltered(p, s, earlier, before, key);
      assert !DeletedAt(moments, key, |moments| - 1);
      StepExtendsHistory(p, before, m.event, key);
    }
  }

  // ------------------------------------------------------- what a step does to a job

  /** Succeeded, or failed with nothing left to retry. */
  predicate Settled(j: JobRow) {
    j.state == Succeeded || (j.state == Failed && j.payload.None?)
  }

  /** The standing of a job: all of its row but the publication mark and the error code. */
  function Standing(j: JobRow): JobRow {
    j.(published := false, error := None)
  }

  predicate JobStep(before: JobRow, after: JobRow, e: Event) {
    && after.tenant == before.tenant && after.document == before.document
    && after.submitted == before.submitted && after.key == before.key
    && (Settled(before) ==> Standing(after) == Standing(before))
    && (before.state == Succeeded ==> after.error == before.error)
    && (after.token.Some? ==>
      (after.token == before.token && after.leaseUntil == before.leaseUntil) || (e.DoClaim? && after.token == Some(e.token)))
    && (after.attempts == before.attempts || (e.DoClaim? && after.attempts == before.attempts + 1))
  }

  lemma ClaimedJobStep(p: JobPolicy, t: Tables, e: Event, id: JobId)
    requires TablesInv(p, t) && e.DoClaim? && id in t.jobs
    requires ClaimJob(p, t, e.job, e.tenant, e.token, e.leaseRead, e.renewRead).Success?
    ensures var after := ClaimJob(p, t, e.job, e.tenant, e.token, e.leaseRead, e.renewRead).value.0;
      id in after.jobs && JobStep(t.jobs[id], after.jobs[id], e)
  {
    hide HistoryInv, KeysInv;
    assert JobInv(p, t.jobs[id]);
  }

  lemma ClaimStep(p: JobPolicy, s: System, e: Event, id: JobId)
    requires SystemInv(p, s) && e.DoClaim? && id in s.tables.jobs
    ensures id in Next(p, s, e).tables.jobs && JobStep(s.tables.jobs[id], Next(p, s, e).tables.jobs[id], e)
  {
    if ClaimJob(p, s.tables, e.job, e.tenant, e.token, e.leaseRead, e.renewRead).Success? {
      ClaimedJobStep(p, s.tables, e, id);
    }
  }

  lemma CommitStep(p: JobPolicy, s: System, e: Event, id: JobId)
    requires SystemInv(p, s) && e.DoCommit? && id in s.tables.jobs
    ensures id in Next(p, s, e).tables.jobs && JobStep(s.tables.jobs[id], Next(p, s, e).tables.jobs[id], e)
  {
    hide HistoryInv, KeysInv, AppendedInv, SeenInv, TokenInv, ClaimInv;
    assert JobInv(p, s.tables.jobs[id]);
  }

  lemma FailStep(p: JobPolicy, s: System, e: Event, id: JobId)
    requires SystemInv(p, s) && e.DoFail? && id in s.tables.jobs
    ensures id in Next(p, s, e).tables.jobs && JobStep(s.tables.jobs[id], Next(p, s, e).tables.jobs[id], e)
  {
    hide HistoryInv, KeysInv, AppendedInv, SeenInv, TokenInv, ClaimInv;
    assert JobInv(p, s.tables.jobs[id]);
  }

  lemma RetryStep(p: JobPolicy, s: System, e: Event, id: JobId)
    requires SystemInv(p, s) && e.DoRetry? && id in s.tables.jobs
    ensures id in Next(p, s, e).tables.jobs && JobStep(s.tables.jobs[id], Next(p, s, e).tables.jobs[id], e)
  {
    hide HistoryInv, KeysInv, AppendedInv, SeenInv, TokenInv, ClaimInv;
    assert JobInv(p, s.tables.jobs[id]);
  }

  lemma DeleteStep(p: JobPolicy, s: System, e: Event, id: JobId)
    requires SystemInv(p, s) && e.DoDelete? && id in s.tables.jobs
    ensures id in Next(p, s, e).tables.jobs && JobStep(s.tables.jobs[id], Next(p, s, e).tables.jobs[id], e)
  {
    hide HistoryInv, KeysInv, AppendedInv, SeenInv, TokenInv, ClaimInv;
    assert JobInv(p, s.tables.jobs[id]);
  }

  lemma OtherStep(p: JobPolicy, s: System, e: Event, after: Time, id: JobId)
    requires Possible(s, e, after) && id in s.tables.jobs
    requires e.DoSubmit? || e.DoPublish? || e.DoCreate? || e.DoUpdate?
    ensures id in Next(p, s, e).tables.jobs && JobStep(s.tables.jobs[id], Next(p, s, e).tables.jobs[id], e)
  {
  }

  lemma EventStep(p: JobPolicy, s: System, e: Event, after: Time, id: JobId)
    requires SystemInv(p, s) && Possible(s, e, after) && id in s.tables.jobs
    ensures id in Next(p, s, e).tables.jobs && JobStep(s.tables.jobs[id], Next(p, s, e).tables.jobs[id], e)
  {
    match e
    case DoClaim(_, _, _, _, _) => ClaimStep(p, s, e, id);
    case DoCommit(_, _, _) => CommitStep(p, s, e, id);
    case DoFail(_, _) => FailStep(p, s, e, id);
    case DoRetry(_, _, _) => RetryStep(p, s, e, id);
    case DoDelete(_, _) => DeleteStep(p, s, e, id);
    case _ => OtherStep(p, s, e, after, id);
  }

  // --------------------------------------------------------- deleted stays deleted

  /** No version is stored, the id is used up, and no job can still create the document. */
  predicate Dead(s: System, key: DocumentKey) {
    && Rows(s.tables, key) == []
    && key.document in s.seen
    && forall id :: id in s.tables.jobs && Targets(s.tables.jobs[id], key) && s.tables.jobs[id].submitted.CreateRequest? ==>
        Settled(s.tables.jobs[id])
  }

  lemma DeleteKills(p: JobPolicy, s: System, e: Event)
    requires SystemInv(p, s) && e.DoDelete? && Delete(s.tables, e.tenant, e.document).Success?
    ensures Dead(Next(p, s, e), DocumentKey(e.tenant, e.document))
  {
  }

  lemma CommitSparesTheDead(p: JobPolicy, s: System, claim: JobClaim, r: StoredVersion, now: Time, key: DocumentKey)
    requires SystemInv(p, s) && claim in s.claims && Dead(s, key)
    requires CommitJob(s.tables, claim, r, now).Success?
    ensures Rows(CommitJob(s.tables, claim, r, now).value.0, key) == []
  {
    var record := Directed(claim, r);
    assert ClaimInv(s, claim);
    assert JobInv(p, s.tables.jobs[claim.job]);
    assert KeyOf(record) != key;
    assert CommitJob(s.tables, claim, r, now).value.0.versions ==
        s.tables.versions[KeyOf(record) := Rows(s.tables, KeyOf(record)) + [VersionRow(record.version, record)]];
  }

  lemma DeadKeepsNoRows(p: JobPolicy, s: System, e: Event, after: Time, key: DocumentKey)
    requires SystemInv(p, s) && Possible(s, e, after) && Dead(s, key)
    ensures Rows(Next(p, s, e).tables, key) == []
  {
    hide TablesInv, AppendedInv, TokenInv, ClaimInv, Targets;
    if e.DoCommit? && CommitJob(s.tables, e.claim, e.record, e.now).Success? {
      CommitSparesTheDead(p, s, e.claim, e.record, e.now, key);
    }
  }

  /** A job that was not there before does not create the dead document. */
  lemma NewJobIsElsewhere(p: JobPolicy, s: System, e: Event, after: Time, key: DocumentKey, id: JobId)
    requires Possible(s, e, after) && key.document in s.seen
    requires id in Next(p, s, e).tables.jobs && id !in s.tables.jobs
    ensures !(Targets(Next(p, s, e).tables.jobs[id], key) && Next(p, s, e).tables.jobs[id].submitted.CreateRequest?)
  {
  }

  lemma SeenStays(p: JobPolicy, s: System, e: Event)
    ensures s.seen <= Next(p, s, e).seen
  {
  }

  lemma DeadStep(p: JobPolicy, s: System, e: Event, after: Time, key: DocumentKey)
    requires SystemInv(p, s) && Possible(s, e, after) && Dead(s, key)
    ensures Dead(Next(p, s, e).(clock := after), key)
  {
    hide Next, Possible, SystemInv;
    var t := Next(p, s, e);
    DeadKeepsNoRows(p, s, e, after, key);
    SeenStays(p, s, e);
    forall id | id in t.tables.jobs && Targets(t.tables.jobs[id], key) && t.tables.jobs[id].submitted.CreateRequest?
      ensures Settled(t.tables.jobs[id])
    {
      if id in s.tables.jobs {
        EventStep(p, s, e, after, id);
      } else {
        NewJobIsElsewhere(p, s, e, after, key, id);
      }
    }
  }

  lemma {:induction false} DeadForever(p: JobPolicy, s: System, moments: seq<Moment>, t: System, key: DocumentKey)
    requires SystemInv(p, s) && Dead(s, key) && Leads(p, s, moments, t)
    ensures SystemInv(p, t) && Dead(t, key)
    decreases |moments|
  {
    if moments == [] {
    } else {
      var m := moments[|moments| - 1];
      var before: System :|
        Leads(p, s, moments[..|moments| - 1], before)
        && Possible(before, m.event, m.after)
        && t == Next(p, before, m.event).(clock := m.after);
      DeadForever(p, s, moments[..|moments| - 1], before, key);
      NextKeepsInv(p, before, m.event, m.after);
      DeadStep(p, before, m.event, m.after, key);
    }
  }

  /** Once a delete succeeded, no later state whatsoever holds any version of the document. */
  lemma DeletedStaysDeleted(p: JobPolicy, s: System, tenant: TenantId, document: DocumentId, after: Time,
    moments: seq<Moment>, t: System, version: Option<nat>)
    requires Reachable(p, s) && s.clock <= after
    requires Delete(s.tables, tenant, document).Success?
    requires Leads(p, Next(p, s, DoDelete(tenant, document)).(clock := after), moments, t)
    requires version.Some? ==> 1 <= version.value <= 0x7fff_ffff_ffff_ffff
    ensures Rows(t.tables, DocumentKey(tenant, document)) == []
    ensures GetVersion(t.tables, tenant, document, version) == Failure(DocumentNotFound)
    ensures Delete(t.tables, tenant, document) == Failure(DocumentNotFound)
  {
    ReachableInv(p, s);
    var e := DoDelete(tenant, document);
    NextKeepsInv(p, s, e, after);
    DeleteKills(p, s, e);
    DeadForever(p, Next(p, s, e).(clock := after), moments, t, DocumentKey(tenant, document));
    GetIsExact(p, t.tables, tenant, document, version);
  }

  // ------------------------------------------------------------------ job outcomes

  /** A token exactly while running, a payload while queued or running, none once succeeded, a version exactly when succeeded. */
  lemma JobShape(p: JobPolicy, s: System, id: JobId)
    requires Reachable(p, s) && id in s.tables.jobs
    ensures var j := s.tables.jobs[id];
      && (j.token.Some? <==> j.state == Running)
      && (j.state in {Queued, Running} ==> j.payload == Some(j.submitted))
      && (j.state == Succeeded ==> j.payload.None?)
      && j.version == (if j.state == Succeeded then Some(ExpectedVersion(j.submitted)) else None)
      && j.attempts <= p.maxAttempts
  {
    ReachableInv(p, s);
    assert JobInv(p, s.tables.jobs[id]);
    if s.tables.jobs[id].state == Succeeded {
      SucceededMeansAppended(p, s, id);
      var i :| 0 <= i < |s.appended| && s.appended[i].job == id;
      assert EntryInv(s.tables, s.appended[i]);
    }
  }

  /** Succeeded jobs and failed jobs without a payload stay as they are, up to the publication mark and the note of a deletion. */
  lemma {:induction false} SettledForever(p: JobPolicy, s: System, moments: seq<Moment>, t: System, id: JobId)
    requires Reachable(p, s) && id in s.tables.jobs && Settled(s.tables.jobs[id]) && Leads(p, s, moments, t)
    ensures SystemInv(p, t) && id in t.tables.jobs
    ensures Standing(t.tables.jobs[id]) == Standing(s.tables.jobs[id])
    decreases |moments|
  {
    if moments == [] {
      ReachableInv(p, s);
    } else {
      var m := moments[|moments| - 1];
      var before: System :|
        Leads(p, s, moments[..|moments| - 1], before)
        && Possible(before, m.event, m.after)
        && t == Next(p, before, m.event).(clock := m.after);
      SettledForever(p, s, moments[..|moments| - 1], before, id);
      NextKeepsInv(p, before, m.event, m.after);
      EventStep(p, before, m.event, m.after, id);
    }
  }

  // ----------------------------------------------------- results stay until deleted

  predicate EntryAvailable(s: System, a: Appended) {
    a.version <= |Rows(s.tables, a.key)| || Dead(s, a.key)
  }

  predicate AvailableInv(s: System) {
    forall i :: 0 <= i < |s.appended| ==> EntryAvailable(s, s.appended[i])
  }

  lemma EntryStaysAvailable(p: JobPolicy, s: System, e: Event, after: Time, a: Appended)
    requires SystemInv(p, s) && Possible(s, e, after) && EntryAvailable(s, a)
    ensures EntryAvailable(Next(p, s, e).(clock := after), a)
  {
    if Dead(s, a.key) {
      DeadStep(p, s, e, after, a.key);
    } else if Deletes(e, a.key) && Delete(s.tables, e.tenant, e.document).Success? {
      DeleteKills(p, s, e);
    } else if Deletes(e, a.key) {
      assert Next(p, s, e).tables == s.tables;
    } else {
      StepExtendsHistory(p, s, e, a.key);
    }
  }

  lemma StepKeepsAvailable(p: JobPolicy, s: System, e: Event, after: Time)
    requires Reachable(p, s) && AvailableInv(s) && Possible(s, e, after)
    ensures AvailableInv(Next(p, s, e).(clock := after))
  {
    ReachableInv(p, s);
    LedgerIsHonest(p, s, e, after);
    var t := Next(p, s, e).(clock := after);
    forall i | 0 <= i < |t.appended|
      ensures EntryAvailable(t, t.appended[i])
    {
      if i < |s.appended| {
        assert t.appended[i] == s.appended[i];
        EntryStaysAvailable(p, s, e, after, s.appended[i]);
      }
    }
  }

  lemma {:induction false} LeadsKeepsAvailable(p: JobPolicy, clock: Time, moments: seq<Moment>, t: System)
    requires Leads(p, Begin(clock), moments, t)
    ensures AvailableInv(t)
    decreases |moments|
  {
    if moments == [] {
    } else {
      var m := moments[|moments| - 1];
      var before: System :|
        Leads(p, Begin(clock), moments[..|moments| - 1], before)
        && Possible(before, m.event, m.after)
        && t == Next(p, before, m.event).(clock := m.after);
      LeadsKeepsAvailable(p, clock, moments[..|moments| - 1], before);
      assert Reachable(p, before);
      StepKeepsAvailable(p, before, m.event, m.after);
    }
  }

  /** The receipt offers a result exactly when the job succeeded and its document has not been deleted since. */
  lemma ResultAvailableUntilDeleted(p: JobPolicy, s: System, id: JobId)
    requires Reachable(p, s) && id in s.tables.jobs
    ensures var j := s.tables.jobs[id];
      ResultAvailable(s.tables, j) <==> j.state == Succeeded && Rows(s.tables, DocumentKey(j.tenant, j.document)) != []
  {
    ReachableInv(p, s);
    JobShape(p, s, id);
    var j := s.tables.jobs[id];
    var key := DocumentKey(j.tenant, j.document);
    if j.state == Succeeded && Rows(s.tables, key) != [] {
      SucceededMeansAppended(p, s, id);
      var clock: Time, moments: seq<Moment> :| Leads(p, Begin(clock), moments, s);
      LeadsKeepsAvailable(p, clock, moments, s);
      var i :| 0 <= i < |s.appended| && s.appended[i].job == id;
      assert EntryAvailable(s, s.appended[i]) && EntryInv(s.tables, s.appended[i]);
      assert HistoryInv(key, Rows(s.tables, key));
      FindInHistory(Rows(s.tables, key), j.version.value);
    }
  }

  // ------------------------------------------------------------------ stale claims

  /** The job is no longer held under the claim's token, or the lease given with it is over. */
  predicate Lost(s: System, c: JobClaim) {
    && c.job in s.tables.jobs
    && (s.tables.jobs[c.job].token != Some(c.token) || !LeaseActive(s.tables.jobs[c.job], s.clock))
  }

  predicate Replaced(s: System, c: JobClaim) {
    c.job in s.tables.jobs && s.tables.jobs[c.job].token != Some(c.token)
  }

  /** A job row only gets a token nobody held before, and keeps the lease it was given with it. */
  lemma TokenStep(p: JobPolicy, s: System, e: Event, after: Time, c: JobClaim)
    requires SystemInv(p, s) && Possible(s, e, after) && c in s.claims
    ensures c.job in s.tables.jobs && c.job in Next(p, s, e).tables.jobs
    ensures var j, k := s.tables.jobs[c.job], Next(p, s, e).tables.jobs[c.job];
      k.token == Some(c.token) ==> j.token == Some(c.token) && k.leaseUntil == j.leaseUntil
  {
    assert ClaimInv(s, c);
    EventStep(p, s, e, after, c.job);
  }

  lemma LostStep(p: JobPolicy, s: System, e: Event, after: Time, c: JobClaim)
    requires SystemInv(p, s) && Possible(s, e, after) && c in s.claims
    ensures c in Next(p, s, e).claims
    ensures Lost(s, c) ==> Lost(Next(p, s, e).(clock := after), c)
    ensures Replaced(s, c) ==> Replaced(Next(p, s, e).(clock := after), c)
  {
    TokenStep(p, s, e, after, c);
  }

  lemma {:induction false} LostForever(p: JobPolicy, s: System, moments: seq<Moment>, t: System, c: JobClaim)
    requires SystemInv(p, s) && c in s.claims && Leads(p, s, moments, t)
    ensures SystemInv(p, t) && c in t.claims && s.clock <= t.clock
    ensures Lost(s, c) ==> Lost(t, c)
    ensures Replaced(s, c) ==> Replaced(t, c)
    decreases |moments|
  {
    if moments == [] {
    } else {
      var m := moments[|moments| - 1];
      var before: System :|
        Leads(p, s, moments[..|moments| - 1], before)
        && Possible(before, m.event, m.after)
        && t == Next(p, before, m.event).(clock := m.after);
      LostForever(p, s, moments[..|moments| - 1], before, c);
      NextKeepsInv(p, before, m.event, m.after);
      LostStep(p, before, m.event, m.after, c);
    }
  }

  lemma ReplacedLater(p: JobPolicy, s: System, t: System, c: JobClaim)
    requires Reachable(p, s) && c in s.claims && Later(p, s, t)
    ensures c in t.claims && Visible(t.tables, c.job, c.tenant)
    ensures Replaced(s, c) ==> Replaced(t, c)
  {
    ReachableInv(p, s);
    var moments: seq<Moment> :| Leads(p, s, moments, t);
    LostForever(p, s, moments, t, c);
    assert ClaimInv(t, c);
  }

  /** A commit under a claim gives the job up. */
  lemma CommitReplaces(p: JobPolicy, s: System, c: JobClaim, r: StoredVersion, now: Time)
    requires CommitJob(s.tables, c, r, now).Success?
    ensures Replaced(Next(p, s, DoCommit(c, r, now)), c)
  {
  }

  /** A failure report leaves the job without its claimant's token, whoever was first. */
  lemma FailureReplaces(p: JobPolicy, s: System, c: JobClaim, code: string)
    requires Reachable(p, s) && c in s.claims
    ensures Replaced(Next(p, s, DoFail(c, code)), c)
  {
    ReachableInv(p, s);
    assert ClaimInv(s, c);
    assert JobInv(p, s.tables.jobs[c.job]);
  }

  /**
   A claimant that lost its job never again commits anything, and one that was
   replaced cannot even fail it: its writes leave the tables as they are.
   */
  lemma StaleClaimChangesNothing(p: JobPolicy, s: System, moments: seq<Moment>, t: System, c: JobClaim,
    r: StoredVersion, now: Time, code: string)
    requires Reachable(p, s) && c in s.claims && Leads(p, s, moments, t) && t.clock <= now
    ensures Lost(s, c) ==> CommitJob(t.tables, c, r, now).Failure?
    ensures Replaced(s, c) ==> FailJob(p, t.tables, c, code) == t.tables
  {
    ReachableInv(p, s);
    LostForever(p, s, moments, t, c);
  }

  /**
   Exactly when a claimant's failure report changes nothing: when its token has been
   replaced. The lease plays no part, so a claim that merely lapsed still fails its job.
   */
  lemma FailureChangesNothingExactly(p: JobPolicy, s: System, c: JobClaim, code: string)
    requires Reachable(p, s) && c in s.claims
    ensures FailJob(p, s.tables, c, code) == s.tables <==> Replaced(s, c)
  {
    ReachableInv(p, s);
    assert ClaimInv(s, c);
    assert JobInv(p, s.tables.jobs[c.job]);
    if !Replaced(s, c) {
      assert s.tables.jobs[c.job].state == Running;
      assert FailJob(p, s.tables, c, code).jobs[c.job].state == Failed;
    }
  }

  /** And exactly when its commit is refused over ownership: when it lost the job, by token or by lease. */
  lemma CommitRefusedExactly(p: JobPolicy, s: System, c: JobClaim, r: StoredVersion)
    requires Reachable(p, s) && c in s.claims
    requires WellFormed(r) && r.tenant == c.tenant && Directed(c, r).documentId == c.document
    requires Directed(c, r).version == ExpectedVersion(c.request)
    requires |Rows(s.tables, DocumentKey(c.tenant, c.document))| + 1 == ExpectedVersion(c.request)
    ensures CommitJob(s.tables, c, r, s.clock).Failure? <==> Lost(s, c)
  {
    ReachableInv(p, s);
    assert ClaimInv(s, c);
    assert JobInv(p, s.tables.jobs[c.job]);
    var key := DocumentKey(c.tenant, c.document);
    MaxOfHistory(Rows(s.tables, key));
  }

  // A claim that lapsed without being replaced, step by step.

  const LEASE_OF_ONE := JobPolicy(1.0, 3)
  const REQUEST := CreateRequest([0], "title", None)
  const OPTIONS := ChunkingOptions(1, 0)
  const SUBMIT := DoSubmit("tenant", REQUEST, OPTIONS, "key", 1, 1)
  const CLAIM := DoClaim(1, "tenant", 5, 0.0, 0.0)
  const LAPSED := JobClaim(1, "tenant", 1, REQUEST, OPTIONS, 5)

  lemma SubmittedExample() returns (s: System)
    ensures Reachable(LEASE_OF_ONE, s) && s.clock == 0.0 && s.claims == {}
    ensures s.tables.jobs == map[1 := NewJob("tenant", 1, REQUEST, OPTIONS, "key")]
  {
    s := Next(LEASE_OF_ONE, Begin(0.0), SUBMIT).(clock := 0.0);
    assert Possible(Begin(0.0), SUBMIT, 0.0);
    LaterNext(LEASE_OF_ONE, Begin(0.0), SUBMIT, 0.0);
    assert ValidKey("key") && ValidTenant("tenant") && ValidRequest(REQUEST);
    var moments: seq<Moment> :| Leads(LEASE_OF_ONE, Begin(0.0), moments, s);
  }

  /** A reachable job whose claim lapsed at 1.0, is still unreplaced at 2.0, and is failed by its late claimant. */
  lemma LapsedClaimStillFails() returns (s: System)
    ensures Reachable(LEASE_OF_ONE, s) && LAPSED in s.claims && s.clock == 2.0
    ensures Lost(s, LAPSED) && !Replaced(s, LAPSED) && !LeaseActive(s.tables.jobs[LAPSED.job], s.clock)
    ensures FailJob(LEASE_OF_ONE, s.tables, LAPSED, "ProcessingFailed") != s.tables
  {
    var submitted := SubmittedExample();
    s := Next(LEASE_OF_ONE, submitted, CLAIM).(clock := 2.0);
    assert Possible(submitted, CLAIM, 2.0);
    LaterNext(LEASE_OF_ONE, submitted, CLAIM, 2.0);
    ReachableLater(LEASE_OF_ONE, submitted, s);
    assert ValidOptions(OPTIONS) && ValidRequest(REQUEST);
    assert s.tables.jobs[1].leaseUntil == Some(1.0);
    FailureChangesNothingExactly(LEASE_OF_ONE, s, LAPSED, "ProcessingFailed");
  }

  // ------------------------------------------------------------- attempts are bounded

  function ClaimsOf(claims: set<JobClaim>, id: JobId): set<JobClaim> {
    set c | c in claims && c.job == id
  }

  predicate AttemptsInv(s: System) {
    forall id :: id in s.tables.jobs ==> |ClaimsOf(s.claims, id)| == s.tables.jobs[id].attempts
  }

  lemma ClaimAdds(p: JobPolicy, t: Tables, e: Event, id: JobId)
    requires TablesInv(p, t) && e.DoClaim? && id in t.jobs
    requires ClaimJob(p, t, e.job, e.tenant, e.token, e.leaseRead, e.renewRead).Success?
    ensures var r := ClaimJob(p, t, e.job, e.tenant, e.token, e.leaseRead, e.renewRead).value;
      && r.0.jobs.Keys == t.jobs.Keys
      && (r.1.Some? ==> r.1.value.job == e.job && r.1.value.token == e.token)
      && r.0.jobs[id].attempts == t.jobs[id].attempts + if r.1.Some? && id == e.job then 1 else 0
  {
    assert JobInv(p, t.jobs[id]);
  }

  lemma NewClaimCounts(claims: set<JobClaim>, handed: Option<JobClaim>, id: JobId)
    requires handed.Some? ==> handed.value !in claims
    ensures |ClaimsOf(claims + if handed.Some? then {handed.value} else {}, id)| ==
      |ClaimsOf(claims, id)| + if handed.Some? && handed.value.job == id then 1 else 0
  {
    var more := claims + if handed.Some? then {handed.value} else {};
    if handed.Some? && handed.value.job == id {
      assert ClaimsOf(more, id) == ClaimsOf(claims, id) + {handed.value};
    } else {
      assert ClaimsOf(more, id) == ClaimsOf(claims, id);
    }
  }

  lemma ClaimCounts(p: JobPolicy, s: System, e: Event, after: Time, id: JobId)
    requires SystemInv(p, s) && AttemptsInv(s) && Possible(s, e, after) && e.DoClaim?
    requires id in s.tables.jobs
    ensures id in Next(p, s, e).tables.jobs
    ensures |ClaimsOf(Next(p, s, e).claims, id)| == Next(p, s, e).tables.jobs[id].attempts
  {
    hide HistoryInv, KeysInv, JobInv, AppendedInv, SeenInv, TokenInv, ClaimInv;
    var r := ClaimJob(p, s.tables, e.job, e.tenant, e.token, e.leaseRead, e.renewRead);
    if r.Success? {
      ClaimAdds(p, s.tables, e, id);
      NewClaimCounts(s.claims, r.value.1, id);
    }
  }

  lemma NoNewJob(p: JobPolicy, s: System, e: Event)
    requires !e.DoSubmit?
    ensures Next(p, s, e).tables.jobs.Keys == s.tables.jobs.Keys
    ensures !e.DoClaim? ==> Next(p, s, e).claims == s.claims
  {
  }

  lemma StepCounts(p: JobPolicy, s: System, e: Event, after: Time)
    requires SystemInv(p, s) && AttemptsInv(s) && Possible(s, e, after)
    ensures AttemptsInv(Next(p, s, e).(clock := after))
  {
    if e.DoSubmit? {
      SubmitCounts(p, s, e, after);
    } else {
      var t := Next(p, s, e);
      forall id | id in t.tables.jobs
        ensures |ClaimsOf(t.claims, id)| == t.tables.jobs[id].attempts
      {
        NoNewJob(p, s, e);
        if e.DoClaim? {
          ClaimCounts(p, s, e, after, id);
        } else {
          EventStep(p, s, e, after, id);
        }
      }
    }
  }

  lemma SubmitCounts(p: JobPolicy, s: System, e: Event, after: Time)
    requires SystemInv(p, s) && AttemptsInv(s) && Possible(s, e, after) && e.DoSubmit?
    ensures AttemptsInv(Next(p, s, e))
  {
    var t := Next(p, s, e);
    forall id | id in t.tables.jobs
      ensures |ClaimsOf(t.claims, id)| == t.tables.jobs[id].attempts
    {
      if id !in s.tables.jobs {
        forall c | c in s.claims
          ensures c.job != id
        {
          assert ClaimInv(s, c);
        }
        assert ClaimsOf(t.claims, id) == {};
      } else {
        assert t.tables.jobs[id] == s.tables.jobs[id];
      }
    }
  }

  lemma {:induction false} LeadsCounts(p: JobPolicy, s: System, moments: seq<Moment>, t: System)
    requires SystemInv(p, s) && AttemptsInv(s) && Leads(p, s, moments, t)
    ensures SystemInv(p, t) && AttemptsInv(t)
    decreases |moments|
  {
    if moments == [] {
    } else {
      var m := moments[|moments| - 1];
      var before: System :|
        Leads(p, s, moments[..|moments| - 1], before)
        && Possible(before, m.event, m.after)
        && t == Next(p, before, m.event).(clock := m.after);
      LeadsCounts(p, s, moments[..|moments| - 1], before);
      NextKeepsInv(p, before, m.event, m.after);
      StepCounts(p, before, m.event, m.after);
    }
  }

  /** However often a job is retried, at most the configured number of claims on it are ever handed out. */
  lemma ClaimsAreBounded(p: JobPolicy, s: System, id: JobId)
    requires Reachable(p, s) && id in s.tables.jobs
    ensures |ClaimsOf(s.claims, id)| == s.tables.jobs[id].attempts <= p.maxAttempts
  {
    ReachableInv(p, s);
    var clock: Time, moments: seq<Moment> :| Leads(p, Begin(clock), moments, s);
    LeadsCounts(p, Begin(clock), moments, s);
    assert JobInv(p, s.tables.jobs[id]);
  }
}
