/** A tenant's corpus: the latest snapshot of each of its documents, in order of document id. */
module DocumentCorpus {
  import opened Wrappers
  import opened Evidence
  import opened DocumentTables

  predicate IsLeast(m: DocumentId, ids: set<DocumentId>) {
    m in ids && forall x :: x in ids ==> m <= x
  }

  lemma {:induction false} LeastExists(ids: set<DocumentId>)
    requires ids != {}
    ensures exists m :: IsLeast(m, ids)
    decreases |ids|
  {
    var x :| x in ids;
    var rest := ids - {x};
    if rest == {} {
      assert ids == {x};
      assert IsLeast(x, ids);
    } else {
      LeastExists(rest);
      var m :| IsLeast(m, rest);
      var least := if x <= m then x else m;
      forall y | y in ids
        ensures least <= y
      {
        assert y == x || y in rest;
      }
      assert IsLeast(least, ids);
    }
  }

  ghost function Least(ids: set<DocumentId>): (m: DocumentId)
    requires ids != {}
    ensures IsLeast(m, ids)
  {
    LeastExists(ids);
    var m :| IsLeast(m, ids);
    m
  }

  ghost function Ascending(ids: set<DocumentId>): seq<DocumentId>
    decreases |ids|
  {
    if ids == {} then [] else [Least(ids)] + Ascending(ids - {Least(ids)})
  }

  predicate Sorted(ids: seq<DocumentId>) {
    forall i, k :: 0 <= i < k < |ids| ==> ids[i] < ids[k]
  }

  lemma {:induction false} AscendingHolds(ids: set<DocumentId>, d: DocumentId)
    ensures d in Ascending(ids) <==> d in ids
    decreases |ids|
  {
    if ids == {} {
    } else {
      AscendingHolds(ids - {Least(ids)}, d);
    }
  }

  lemma {:induction false} AscendingIsSorted(ids: set<DocumentId>)
    ensures Sorted(Ascending(ids))
    decreases |ids|
  {
    if ids == {} {
    } else {
      var rest := ids - {Least(ids)};
      AscendingIsSorted(rest);
      var all := Ascending(ids);
      forall k | 1 <= k < |all|
        ensures all[0] < all[k]
      {
        assert all[k] in Ascending(rest);
        AscendingHolds(rest, all[k]);
      }
      assert forall i :: 1 <= i < |all| ==> all[i] == Ascending(rest)[i - 1];
    }
  }

  /** The documents of a tenant that have a stored version. */
  function Documents(t: Tables, tenant: TenantId): set<DocumentId> {
    set key | key in t.versions && key.tenant == tenant && t.versions[key] != [] :: key.document
  }

  lemma {:induction false} MaxIsFound(rows: seq<VersionRow>)
    requires rows != []
    ensures (exists i :: 0 <= i < |rows| && rows[i].version == MaxVersion(rows)) || MaxVersion(rows) == 0
    ensures forall i :: 0 <= i < |rows| ==> rows[i].version <= MaxVersion(rows)
    decreases |rows|
  {
    if |rows| > 1 {
      var rest := rows[..|rows| - 1];
      MaxIsFound(rest);
      forall i | 0 <= i < |rows|
        ensures rows[i].version <= MaxVersion(rows)
      {
        assert i < |rest| ==> rest[i] == rows[i];
      }
      if MaxVersion(rows) == MaxVersion(rest) && MaxVersion(rows) != 0 {
        var i :| 0 <= i < |rest| && rest[i].version == MaxVersion(rest);
        assert rows[i].version == MaxVersion(rows);
      } else {
        assert rows[|rows| - 1].version == MaxVersion(rows) || MaxVersion(rows) == 0;
      }
    } else {
      assert rows[0].version == MaxVersion(rows);
    }
  }

  lemma {:induction false} FindSucceeds(rows: seq<VersionRow>, i: nat)
    requires i < |rows|
    ensures FindVersion(rows, rows[i].version).Some?
    decreases |rows|
  {
    if rows[|rows| - 1].version == rows[i].version {
    } else {
      FindSucceeds(rows[..|rows| - 1], i);
    }
  }

  lemma LatestExists(rows: seq<VersionRow>)
    requires rows != []
    ensures LatestRow(rows).Some?
  {
    MaxIsFound(rows);
    if i :| 0 <= i < |rows| && rows[i].version == MaxVersion(rows) {
      FindSucceeds(rows, i);
    } else {
      FindSucceeds(rows, 0);
    }
  }

  /** The newest row of a document that has one. */
  function Newest(t: Tables, key: DocumentKey): VersionRow
    requires Rows(t, key) != []
  {
    LatestExists(Rows(t, key));
    LatestRow(Rows(t, key)).value
  }

  ghost predicate AllStored(t: Tables, tenant: TenantId, ids: seq<DocumentId>) {
    forall i :: 0 <= i < |ids| ==> Rows(t, DocumentKey(tenant, ids[i])) != []
  }

  ghost function NewestRows(t: Tables, tenant: TenantId, ids: seq<DocumentId>): (rows: seq<VersionRow>)
    requires AllStored(t, tenant, ids)
    ensures |rows| == |ids|
  {
    seq(|ids|, i requires 0 <= i < |ids| => Newest(t, DocumentKey(tenant, ids[i])))
  }

  function TotalSize(size: StoredVersion -> nat, rows: seq<VersionRow>): nat {
    if rows == [] then 0 else TotalSize(size, rows[..|rows| - 1]) + size(rows[|rows| - 1].snapshot)
  }

  /** Row by row; the first one that does not read back spoils the whole result. */
  function DecodeAll(tenant: TenantId, ids: seq<DocumentId>, rows: seq<VersionRow>): Result<seq<StoredVersion>, StoreError>
    requires |ids| == |rows|
  {
    if rows == [] then Success([])
    else
      var n := |rows| - 1;
      var before := DecodeAll(tenant, ids[..n], rows[..n]);
      var last := Decode(DocumentKey(tenant, ids[n]), rows[n]);
      if before.Failure? then before else if last.Failure? then Failure(last.error) else Success(before.value + [last.value])
  }

  lemma {:induction false} SpoiltForGood(tenant: TenantId, ids: seq<DocumentId>, rows: seq<VersionRow>, n: nat)
    requires |ids| == |rows| && n <= |rows|
    requires DecodeAll(tenant, ids[..n], rows[..n]).Failure?
    ensures DecodeAll(tenant, ids, rows) == DecodeAll(tenant, ids[..n], rows[..n])
    decreases |rows|
  {
    var m := |rows| - 1;
    if n == |rows| {
      assert ids[..n] == ids && rows[..n] == rows;
    } else {
      assert ids[..m][..n] == ids[..n] && rows[..m][..n] == rows[..n];
      SpoiltForGood(tenant, ids[..m], rows[..m], n);
    }
  }

  /** One snapshot of the tables, read whole or not at all. */
  ghost function ReadLatest(t: Tables, size: StoredVersion -> nat, tenant: TenantId, maxDocuments: int, maxBytes: int)
    : Result<seq<StoredVersion>, StoreError>
  {
    if maxDocuments < 1 || maxBytes < 1 || !ValidTenant(tenant) then Failure(InvalidInput)
    else
      AllDocumentsStored(t, tenant);
      var ids := Ascending(Documents(t, tenant));
      var rows := NewestRows(t, tenant, ids);
      if |rows| > maxDocuments || TotalSize(size, rows) > maxBytes then Failure(CorpusLimit)
      else DecodeAll(tenant, ids, rows)
  }

  lemma AllDocumentsStored(t: Tables, tenant: TenantId)
    ensures AllStored(t, tenant, Ascending(Documents(t, tenant)))
  {
    var ids := Ascending(Documents(t, tenant));
    forall i | 0 <= i < |ids|
      ensures Rows(t, DocumentKey(tenant, ids[i])) != []
    {
      AscendingHolds(Documents(t, tenant), ids[i]);
      var key :| key in t.versions && key.tenant == tenant && t.versions[key] != [] && key.document == ids[i];
      assert key == DocumentKey(tenant, ids[i]);
    }
  }

  // ------------------------------------------------- what the reader promises

  /** The record is what reading back the newest row of this document gives. */
  ghost predicate ReadsBack(t: Tables, tenant: TenantId, id: DocumentId, record: StoredVersion)
    requires Rows(t, DocumentKey(tenant, id)) != []
  {
    record.documentId == id && Success(record) == Decode(DocumentKey(tenant, id), Newest(t, DocumentKey(tenant, id)))
  }

  lemma {:induction false} HistoriesDecode(p: JobPolicy, t: Tables, tenant: TenantId, ids: seq<DocumentId>)
    requires TablesInv(p, t) && AllStored(t, tenant, ids)
    ensures var r := DecodeAll(tenant, ids, NewestRows(t, tenant, ids));
      r.Success? && |r.value| == |ids| && forall i :: 0 <= i < |ids| ==> ReadsBack(t, tenant, ids[i], r.value[i])
    decreases |ids|
  {
    hide TablesInv, Decode, LatestRow, Rows;
    if ids == [] {
    } else {
      var n := |ids| - 1;
      var init := ids[..n];
      HistoriesDecode(p, t, tenant, init);
      assert NewestRows(t, tenant, ids)[..n] == NewestRows(t, tenant, init);
      NewestDecodes(p, t, DocumentKey(tenant, ids[n]));
      forall i | 0 <= i < n
        ensures ReadsBack(t, tenant, ids[i], DecodeAll(tenant, init, NewestRows(t, tenant, init)).value[i])
      {
        assert init[i] == ids[i];
      }
    }
  }

  lemma NewestDecodes(p: JobPolicy, t: Tables, key: DocumentKey)
    requires TablesInv(p, t) && Rows(t, key) != []
    ensures Decode(key, Newest(t, key)).Success? && Decode(key, Newest(t, key)).value.documentId == key.document
  {
    var rows := Rows(t, key);
    assert HistoryInv(key, rows);
    MaxOfHistory(rows);
    FindInHistory(rows, |rows|);
    assert Decode(key, rows[|rows| - 1]) == Success(rows[|rows| - 1].snapshot);
  }

  lemma CorpusIsComplete(p: JobPolicy, t: Tables, tenant: TenantId, d: DocumentId)
    requires TablesInv(p, t) && ValidTenant(tenant)
    ensures d in Ascending(Documents(t, tenant)) <==> GetVersion(t, tenant, d, None).Success?
  {
    var key := DocumentKey(tenant, d);
    GetIsExact(p, t, tenant, d, None);
    AscendingHolds(Documents(t, tenant), d);
    if key in t.versions {
      assert HistoryInv(key, t.versions[key]);
    }
  }

  /** There is nothing the reader can fail on but its limits. */
  lemma CorpusFailsOnLimitsOnly(p: JobPolicy, t: Tables, size: StoredVersion -> nat, tenant: TenantId, maxDocuments: int, maxBytes: int)
    requires TablesInv(p, t) && ValidTenant(tenant) && maxDocuments >= 1 && maxBytes >= 1
    ensures AllStored(t, tenant, Ascending(Documents(t, tenant)))
    ensures var rows := NewestRows(t, tenant, Ascending(Documents(t, tenant)));
      ReadLatest(t, size, tenant, maxDocuments, maxBytes).Failure? <==> |rows| > maxDocuments || TotalSize(size, rows) > maxBytes
    ensures ReadLatest(t, size, tenant, maxDocuments, maxBytes).Failure? ==>
      ReadLatest(t, size, tenant, maxDocuments, maxBytes) == Failure(CorpusLimit)
  {
    AllDocumentsStored(t, tenant);
    HistoriesDecode(p, t, tenant, Ascending(Documents(t, tenant)));
  }

  /**
   The reader gives exactly what a read without a version gives for each document
   of the tenant, once each and in order of id.
   */
  lemma CorpusIsExact(p: JobPolicy, t: Tables, size: StoredVersion -> nat, tenant: TenantId, maxDocuments: int, maxBytes: int)
    requires TablesInv(p, t) && ReadLatest(t, size, tenant, maxDocuments, maxBytes).Success?
    ensures var records := ReadLatest(t, size, tenant, maxDocuments, maxBytes).value;
      && (forall i, k :: 0 <= i < k < |records| ==> records[i].documentId < records[k].documentId)
      && (forall i :: 0 <= i < |records| ==> Success(records[i]) == GetVersion(t, tenant, records[i].documentId, None))
      && (forall d :: GetVersion(t, tenant, d, None).Success? ==> Listed(records, d))
  {
    var ids := Ascending(Documents(t, tenant));
    AscendingIsSorted(Documents(t, tenant));
    AllDocumentsStored(t, tenant);
    HistoriesDecode(p, t, tenant, ids);
    var records := ReadLatest(t, size, tenant, maxDocuments, maxBytes).value;
    forall i | 0 <= i < |records|
      ensures Success(records[i]) == GetVersion(t, tenant, records[i].documentId, None)
    {
      assert records[i].documentId == ids[i];
      LatestExists(Rows(t, DocumentKey(tenant, ids[i])));
    }
    forall d | GetVersion(t, tenant, d, None).Success?
      ensures Listed(records, d)
    {
      CorpusIsComplete(p, t, tenant, d);
      var i :| 0 <= i < |ids| && ids[i] == d;
      assert records[i].documentId == d;
    }
  }

  predicate Listed(records: seq<StoredVersion>, d: DocumentId) {
    exists i :: 0 <= i < |records| && records[i].documentId == d
  }
}
