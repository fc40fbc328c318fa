/** Stored snapshots and the passages that cite them. */
module Evidence {
  import opened Wrappers
  import opened Chunking

  type TenantId = string

  /** A UUID, of which only identity and order matter. */
  type DocumentId = nat

  datatype DocumentInput = DocumentInput(title: string, text: string, sourceRef: Option<string>)

  /** An immutable snapshot of one version of a document. */
  datatype StoredVersion = StoredVersion(
    documentId: DocumentId,
    tenant: TenantId,
    version: nat,
    document: DocumentInput,
    chunks: seq<TextChunk>)

  predicate ValidSnapshot(r: StoredVersion) {
    r.version >= 1 && Covers(r.document.text, r.chunks)
  }

  datatype SourceReference = SourceReference(documentId: DocumentId, version: nat, chunkIndex: nat)

  datatype Passage = Passage(
    documentId: DocumentId,
    version: nat,
    title: string,
    sourceRef: Option<string>,
    chunk: TextChunk)

  function SourceKey(p: Passage): SourceReference {
    SourceReference(p.documentId, p.version, p.chunk.index)
  }

  predicate DistinctSources(passages: seq<Passage>) {
    forall i, j :: 0 <= i < j < |passages| ==> SourceKey(passages[i]) != SourceKey(passages[j])
  }

  function Keys(passages: seq<Passage>): set<SourceReference> {
    set i | 0 <= i < |passages| :: SourceKey(passages[i])
  }
}
