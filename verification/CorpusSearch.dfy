/** Retrieval over what the document store hands out. */
module CorpusSearch {
  import opened Wrappers
  import opened Chunking
  import opened Evidence
  import opened Ranking
  import opened Retrievers
  import DocumentTables
  import DocumentCorpus
  import DocumentStore

  /** The store's reader hands out a corpus of the tenant's own documents. */
  lemma ReaderGivesCorpus(p: DocumentTables.JobPolicy, t: DocumentTables.Tables, size: StoredVersion -> nat, tenant: TenantId,
    maxDocuments: int, maxBytes: int)
    requires DocumentTables.TablesInv(p, t)
    requires DocumentCorpus.ReadLatest(t, size, tenant, maxDocuments, maxBytes).Success?
    ensures var documents := DocumentCorpus.ReadLatest(t, size, tenant, maxDocuments, maxBytes).value;
      Corpus(documents) && OwnDocuments(documents, tenant)
  {
    var documents := DocumentCorpus.ReadLatest(t, size, tenant, maxDocuments, maxBytes).value;
    DocumentCorpus.CorpusIsExact(p, t, size, tenant, maxDocuments, maxBytes);
    forall i | 0 <= i < |documents|
      ensures documents[i].tenant == tenant && Covers(documents[i].document.text, documents[i].chunks)
    {
      ReadIsWellFormed(t, tenant, documents[i].documentId, documents[i]);
    }
    forall i, n | 0 <= i < |documents| && 0 <= n < |documents[i].chunks|
      ensures documents[i].chunks[n].index == n
    {
      assert Covers(documents[i].document.text, documents[i].chunks);
      assert Continues(documents[i].document.text, documents[i].chunks, n);
    }
  }

  lemma ReadIsWellFormed(t: DocumentTables.Tables, tenant: TenantId, document: DocumentId, record: StoredVersion)
    requires DocumentTables.GetVersion(t, tenant, document, None) == Success(record)
    ensures record.tenant == tenant && Covers(record.document.text, record.chunks)
  {
  }

  /** A passage is a chunk of the latest stored version of a document of the tenant. */
  ghost predicate IsLatestChunk(t: DocumentTables.Tables, tenant: TenantId, p: Passage) {
    var latest := DocumentTables.GetVersion(t, tenant, p.documentId, None);
    && latest.Success?
    && latest.value.version == p.version && latest.value.document.title == p.title
    && latest.value.document.sourceRef == p.sourceRef && p.chunk in latest.value.chunks
  }

  /** Over the store's own corpus a search fails for no reason but its output limit, and returns only current text. */
  lemma SearchIsCurrent(p: DocumentTables.JobPolicy, t: DocumentTables.Tables, size: StoredVersion -> nat, tenant: TenantId,
    maxDocuments: int, maxBytes: int, score: Located -> real, k: nat, maxOutput: nat, r: Result<seq<Passage>, RetrievalError>)
    requires DocumentTables.TablesInv(p, t)
    requires DocumentCorpus.ReadLatest(t, size, tenant, maxDocuments, maxBytes).Success?
    requires Answers(r, score, DocumentCorpus.ReadLatest(t, size, tenant, maxDocuments, maxBytes).value, tenant, k, maxOutput)
    ensures r.Failure? ==> r.error == OutputCapacity
    ensures r.Success? ==> |r.value| <= k && DistinctSources(r.value)
    ensures r.Success? ==> forall i :: 0 <= i < |r.value| ==> IsLatestChunk(t, tenant, r.value[i])
  {
    var documents := DocumentCorpus.ReadLatest(t, size, tenant, maxDocuments, maxBytes).value;
    ReaderGivesCorpus(p, t, size, tenant, maxDocuments, maxBytes);
    CorpusHasNoDuplicateSource(score, documents, k);
    if r.Success? {
      forall i | 0 <= i < |r.value|
        ensures IsLatestChunk(t, tenant, r.value[i])
      {
        DocumentCorpus.CorpusIsExact(p, t, size, tenant, maxDocuments, maxBytes);
        SelectedIsStored(score, documents, k, i);
      }
    }
  }

  /** Every selected candidate is a chunk of a document that was read. */
  lemma SelectedIsStored(score: Located -> real, documents: seq<StoredVersion>, k: nat, i: nat)
    requires Corpus(documents) && i < |TopK(score, documents, k)|
    ensures TopK(score, documents, k)[i].document in documents
    ensures TopK(score, documents, k)[i].chunk in TopK(score, documents, k)[i].document.chunks
  {
    var all := Candidates(score, Passages(documents));
    var c := TopK(score, documents, k)[i];
    SortOrdered(all);
    SameMembers(Sort(all), all, c);
    CandidateOrigin(score, Passages(documents), c);
    PassageOrigin(documents, Located(c.document, c.chunk));
  }

  /** The keyword retriever as it is wired: the store's reader, then the ranking. */
  method SearchByKeyword(store: DocumentStore.SQLiteDocumentStore, words: Tokenizer, query: string, tenant: TenantId,
    maxDocuments: int, maxBytes: int, k: nat, maxOutput: nat)
    returns (r: Result<seq<Passage>, RetrievalError>, read: Result<seq<StoredVersion>, DocumentTables.StoreError>)
    requires DocumentTables.TablesInv(store.policy, store.Contents())
    ensures TermSet(words, query) != {} ==>
      read == DocumentCorpus.ReadLatest(store.Contents(), store.size, tenant, maxDocuments, maxBytes)
    ensures TermSet(words, query) == {} ==> r == Success([]) && read == Success([])
    ensures read.Failure? ==> r == Success([])
    ensures TermSet(words, query) != {} && read.Success? ==>
      Answers(r, KeywordScore(words, TermSet(words, query)), read.value, tenant, k, maxOutput)
    ensures TermSet(words, query) != {} && read.Success? && r.Success? ==>
      exists ps: seq<Located> :: BestFirst(KeywordScore(words, TermSet(words, query)), read.value, k, ps, r.value)
    ensures read.Success? && r.Failure? ==> r.error == OutputCapacity
    ensures read.Success? && r.Success? ==>
      |r.value| <= k && DistinctSources(r.value)
      && forall i :: 0 <= i < |r.value| ==> IsLatestChunk(store.Contents(), tenant, r.value[i])
  {
    r, read := Success([]), Success([]);
    if TermSet(words, query) == {} {
      return;
    }
    read := store.ReadLatestDocuments(tenant, maxDocuments, maxBytes);
    if read.Failure? {
      return;
    }
    ReaderGivesCorpus(store.policy, store.Contents(), store.size, tenant, maxDocuments, maxBytes);
    r := KeywordSearch(words, read.value, query, tenant, k, maxOutput);
    SearchIsCurrent(store.policy, store.Contents(), store.size, tenant, maxDocuments, maxBytes,
      KeywordScore(words, TermSet(words, query)), k, maxOutput, r);
  }
}
