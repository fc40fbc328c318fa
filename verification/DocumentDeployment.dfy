/**
 The document store as a worker meets it: real transactions, with whatever other
 workers and requests do in between, and a ghost account of the system they all
 act on. Each call is one event of the system.
 */
module DocumentDeployment {
  import opened Wrappers
  import opened Chunking
  import opened Evidence
  import opened DocumentTables
  import opened DocumentSystem
  import opened DocumentStore

  class Deployment {
    const store: SQLiteDocumentStore
    var clock: Time
    var nextToken: Token
    var nextDocument: DocumentId
    ghost var system: System

    ghost predicate Valid()
      reads this, store
    {
      && ValidPolicy(store.policy)
      && Reachable(store.policy, system)
      && store.Contents() == system.tables
      && clock == system.clock
      && (forall c :: c in system.claims ==> c.token < nextToken)
      && (forall d :: d in system.seen ==> d < nextDocument)
    }

    constructor (store: SQLiteDocumentStore, clock: Time)
      requires ValidPolicy(store.policy) && store.Contents() == EMPTY
      ensures Valid() && this.store == store && system == Begin(clock)
    {
      this.store, this.clock, nextToken, nextDocument := store, clock, 0, 0;
      system := Begin(clock);
      new;
      assert Leads(store.policy, Begin(clock), [], system);
    }

    /**
     Time passes: the clock reads no earlier than anything committed so far, and
     unless it is quiet anybody may have acted meanwhile, short of guessing the
     reserved id. The body does nothing; callers may rely on nothing but the
     contract.
     */
    method Interleave(ghost quiet: bool, ghost reserved: DocumentId) returns (now: Time)
      requires Valid()
      modifies this, store
      ensures Valid() && Later(store.policy, old(system), system)
      ensures old(system).claims <= system.claims && old(system).clock <= system.clock <= now
      ensures reserved !in old(system).seen ==> reserved !in system.seen
      ensures quiet ==> system == old(system) && nextToken == old(nextToken)
    {
      LaterSelf(store.policy, system);
      now := clock;
    }

    /** A random id; none before was ever like it. */
    method GenerateId() returns (d: DocumentId)
      requires Valid()
      modifies this`nextDocument
      ensures Valid() && d !in system.seen && system == old(system)
    {
      d := nextDocument;
      nextDocument := nextDocument + 1;
    }

    ghost method Account(e: Event, now: Time)
      requires Reachable(store.policy, system) && Possible(system, e, now)
      modifies this`system
      ensures system == Next(store.policy, old(system), e).(clock := now)
      ensures Reachable(store.policy, system) && Later(store.policy, old(system), system)
    {
      LaterNext(store.policy, system, e, now);
      ReachableLater(store.policy, system, Next(store.policy, system, e).(clock := now));
      system := Next(store.policy, system, e).(clock := now);
    }

    method Claim(id: JobId, tenant: TenantId, now: Time) returns (r: Result<Option<JobClaim>, StoreError>)
      requires Valid() && system.clock <= now
      modifies this, store
      ensures Valid() && Later(store.policy, old(system), system)
      ensures system == Next(store.policy, old(system), DoClaim(id, tenant, old(nextToken), now, now)).(clock := now)
      ensures var claimed := ClaimJob(store.policy, old(system).tables, id, tenant, old(nextToken), now, now);
        r == if claimed.Success? then Success(claimed.value.1) else Failure(claimed.error)
      ensures r.Success? && r.value.Some? ==> r.value.value in system.claims
    {
      var token := nextToken;
      r := store.ClaimJob(id, tenant, token, now, now);
      Account(DoClaim(id, tenant, token, now, now), now);
      nextToken := nextToken + 1;
      clock := now;
    }

    method Get(tenant: TenantId, document: DocumentId) returns (r: Result<StoredVersion, StoreError>)
      requires Valid()
      ensures r == GetVersion(system.tables, tenant, document, None)
    {
      r := store.Get(tenant, document, None);
    }

    method GetJob(id: JobId, tenant: TenantId, now: Time) returns (r: Result<JobView, StoreError>)
      requires Valid()
      ensures r == if Visible(system.tables, id, tenant) then Success(View(system.tables, id, now)) else Failure(JobNotFound)
    {
      r := store.GetJob(id, tenant, now);
    }

    method Commit(claim: JobClaim, record: StoredVersion, now: Time) returns (r: Result<StoredVersion, StoreError>)
      requires Valid() && claim in system.claims && system.clock <= now
      modifies this, store
      ensures Valid() && Later(store.policy, old(system), system)
      ensures system == Next(store.policy, old(system), DoCommit(claim, record, now)).(clock := now)
      ensures var committed := CommitJob(old(system).tables, claim, record, now);
        r == if committed.Success? then Success(committed.value.1) else Failure(committed.error)
    {
      r := store.CommitJob(claim, record, now);
      Account(DoCommit(claim, record, now), now);
      clock := now;
    }

    method Fail(claim: JobClaim, code: string, now: Time)
      requires Valid() && claim in system.claims && system.clock <= now && ValidCode(code)
      modifies this, store
      ensures Valid() && Later(store.policy, old(system), system)
      ensures system == Next(store.policy, old(system), DoFail(claim, code)).(clock := now)
    {
      var _ := store.FailJob(claim, code);
      Account(DoFail(claim, code), now);
      clock := now;
    }

    /** A direct write: version 1 of a document nobody knew, or a later version. */
    method Create(record: StoredVersion, now: Time) returns (r: Result<StoredVersion, StoreError>)
      requires Valid() && system.clock <= now
      requires (record.version == 1 && record.documentId !in system.seen) || record.version >= 2
      modifies this, store
      ensures Valid() && Later(store.policy, old(system), system)
      ensures system == Next(store.policy, old(system), if record.version == 1 then DoCreate(record) else DoUpdate(record)).(clock := now)
      ensures var created := CreateVersion(old(system).tables, record);
        r == if created.Success? then Success(record) else Failure(created.error)
    {
      r := store.CreateVersion(record);
      Account(if record.version == 1 then DoCreate(record) else DoUpdate(record), now);
      clock := now;
      nextDocument := if record.documentId < nextDocument then nextDocument else record.documentId + 1;
    }

    method Delete(tenant: TenantId, document: DocumentId, now: Time) returns (r: Result<(), StoreError>)
      requires Valid() && system.clock <= now
      modifies this, store
      ensures Valid() && Later(store.policy, old(system), system)
      ensures system == Next(store.policy, old(system), DoDelete(tenant, document)).(clock := now)
      ensures r.Success? <==> DocumentTables.Delete(old(system).tables, tenant, document).Success?
    {
      r := store.Delete(tenant, document);
      Account(DoDelete(tenant, document), now);
      clock := now;
      nextDocument := if document < nextDocument then nextDocument else document + 1;
    }
  }
}
