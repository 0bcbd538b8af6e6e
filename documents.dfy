/** LangChain documents as the engine sees them: page text plus a metadata
    dictionary, the `(doc, score)` pairs a similarity search returns, and the
    per-query context records built from them. */
module Documents {
  import opened Text

  /** A metadata value: the engine only stores strings and ints there. */
  datatype MetaValue = Str(text: string) | Int(number: int)

  type Metadata = map<string, MetaValue>

  datatype Doc = Doc(pageContent: string, metadata: Metadata)

  /** One `(doc, score)` pair of `similarity_search_with_score`; the score is a
      distance (lower is more relevant). */
  datatype Hit = Hit(doc: Doc, score: real)

  /** The dictionary `_extract_relevant_contexts` builds per search result. */
  datatype Context = Context(
    content: string,
    source: MetaValue,
    page: MetaValue,
    relevanceScore: real,
    chunkId: MetaValue)

  const Unknown: MetaValue := Str("Unknown")

  /** `metadata.get(key, default)`. */
  function Get(m: Metadata, key: string, default: MetaValue): MetaValue
  {
    if key in m then m[key] else default
  }

  /** How an f-string renders a metadata value. */
  function Show(v: MetaValue): string
  {
    match v
    case Str(s) => s
    case Int(n) => IntToString(n)
  }

  /** The context record of one search result. */
  function ToContext(h: Hit): (c: Context)
    ensures c.content == h.doc.pageContent && c.relevanceScore == h.score
    ensures c.source == (if "source" in h.doc.metadata then h.doc.metadata["source"] else Unknown)
    ensures c.page == (if "page" in h.doc.metadata then h.doc.metadata["page"] else Unknown)
    ensures c.chunkId == (if "chunk_id" in h.doc.metadata then h.doc.metadata["chunk_id"] else Unknown)
  {
    Context(
      h.doc.pageContent,
      Get(h.doc.metadata, "source", Unknown),
      Get(h.doc.metadata, "page", Unknown),
      h.score,
      Get(h.doc.metadata, "chunk_id", Unknown))
  }

  /** The contexts of a ranked result list, accumulated in a loop of appends. */
  function ToContexts(hits: seq<Hit>): (cs: seq<Context>)
    ensures |cs| == |hits|
    ensures forall i :: 0 <= i < |hits| ==> cs[i] == ToContext(hits[i])
    decreases |hits|
  {
    if |hits| == 0 then [] else ToContexts(hits[..|hits| - 1]) + [ToContext(hits[|hits| - 1])]
  }

  /** The `doc_type` every ingested chunk is tagged with. */
  const DocType := "medical_literature"

  const TagKeys: set<string> := {"source", "chunk_id", "doc_type"}

  /** `chunk.metadata.update({'source': name, 'chunk_id': i, 'doc_type': ...})`. */
  function TagChunk(chunk: Doc, name: string, i: nat): (t: Doc)
    ensures t.pageContent == chunk.pageContent
    ensures t.metadata.Keys == chunk.metadata.Keys + TagKeys
    ensures t.metadata["source"] == Str(name)
    ensures t.metadata["chunk_id"] == Int(i)
    ensures t.metadata["doc_type"] == Str(DocType)
    ensures forall key :: key in chunk.metadata && key !in TagKeys ==> t.metadata[key] == chunk.metadata[key]
  {
    chunk.(metadata := chunk.metadata + map["source" := Str(name), "chunk_id" := Int(i), "doc_type" := Str(DocType)])
  }

  /** The chunk list after the tagging loop of `add_document`. */
  function TagAll(chunks: seq<Doc>, name: string): (r: seq<Doc>)
    ensures |r| == |chunks|
    ensures forall i :: 0 <= i < |r| ==>
      && r[i].pageContent == chunks[i].pageContent
      && r[i].metadata.Keys == chunks[i].metadata.Keys + TagKeys
      && r[i].metadata["chunk_id"] == Int(i)
      && r[i].metadata["source"] == Str(name)
      && r[i].metadata["doc_type"] == Str(DocType)
    ensures forall i, key :: 0 <= i < |r| && key in chunks[i].metadata && key !in TagKeys ==>
      r[i].metadata[key] == chunks[i].metadata[key]
  {
    seq(|chunks|, i requires 0 <= i < |chunks| => TagChunk(chunks[i], name, i))
  }

  /** The tagging loop of `add_document`, updating each chunk of the list in place. */
  method TagChunks(chunks: array<Doc>, name: string)
    modifies chunks
    ensures chunks[..] == TagAll(old(chunks[..]), name)
  {
    for i := 0 to chunks.Length
      invariant forall j :: 0 <= j < i ==> chunks[j] == TagChunk(old(chunks[j]), name, j)
      invariant forall j :: i <= j < chunks.Length ==> chunks[j] == old(chunks[j])
    {
      chunks[i] := TagChunk(chunks[i], name, i);
    }
  }
}
