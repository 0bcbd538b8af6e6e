/** `MedicalRAGEngine`: the vector store handle it holds and the operations
    that read or replace it. */
module RagEngine {
  import opened Wrappers
  import opened Documents
  import opened TopicGate
  import opened Sources
  import opened Answers
  import opened Ingest

  /** A Chroma collection: the indexed chunks in insertion order (embeddings
      are not modelled). */
  class VectorStore {
    var entries: seq<Doc>

    constructor (initial: seq<Doc>)
      ensures entries == initial
    {
      entries := initial;
    }

    /** `add_documents`: the batch is appended. */
    method AddDocuments(batch: seq<Doc>)
      modifies this
      ensures entries == old(entries) + batch
    {
      entries := entries + batch;
    }

    /** `delete_collection`. */
    method DeleteCollection()
      modifies this
      ensures entries == []
    {
      entries := [];
    }
  }

  /** The dictionary `get_database_stats` returns. */
  datatype Stats =
    | NotInitialized
    | Initialized(totalChunks: nat, persistDirectory: string)
    | StatsError(error: string)

  /** The dictionary `clear_database` returns. */
  datatype AdminResult = AdminSuccess(message: string) | AdminError(error: string)

  const InitErrorPrefix := "Failed to initialize vector store: "

  const ClearedMessage := "Database cleared"

  class MedicalRAGEngine {
    const persistDirectory: string
    var vectorstore: VectorStore?

    /** The chunks the engine can search, or `None` without a vector store. */
    ghost function View(): Option<seq<Doc>>
      reads this, vectorstore
    {
      if vectorstore == null then None else Some(vectorstore.entries)
    }

    /** Opens the store persisted in `persistDirectory`, whose content is
        `onDisk`. */
    constructor (persistDirectory: string, onDisk: seq<Doc>)
      ensures this.persistDirectory == persistDirectory
      ensures vectorstore != null && fresh(vectorstore) && View() == Some(onDisk)
    {
      this.persistDirectory := persistDirectory;
      vectorstore := new VectorStore(onDisk);
    }

    /** `_initialize_vectorstore`: (re)opens the store of the persist
        directory; a failure is re-raised with a fixed prefix and leaves the
        field as it was. */
    method InitializeVectorstore(onDisk: seq<Doc>, initError: Option<string>) returns (r: Outcome)
      modifies this
      ensures initError.None? ==> r == Pass && vectorstore != null && fresh(vectorstore) && vectorstore.entries == onDisk
      ensures initError.Some? ==> r == Fail(InitErrorPrefix + initError.value) && vectorstore == old(vectorstore)
    {
      if initError.Some? {
        return Fail(InitErrorPrefix + initError.value);
      }
      vectorstore := new VectorStore(onDisk);
      return Pass;
    }

    /** `add_document`: tags the chunks, appends them to the store (creating
        it when there is none) and reports the outcome. */
    method AddDocument(file: Option<Upload>, io: IngestIO) returns (r: IngestResult)
      modifies this, vectorstore
      ensures r == IngestResultOf(file, io)
      ensures Committed(file, io) ==>
        View() == Some((if old(View()).Some? then old(View()).value else []) + TagAll(io.chunks.value, file.value.name))
      ensures !Committed(file, io) ==> View() == old(View())
      ensures old(vectorstore) != null ==> vectorstore == old(vectorstore)
    {
      ghost var before := if View().Some? then View().value else [];
      if io.tempFileError.Some? {
        return Failure(if file.Some? then file.value.name else "unknown", io.tempFileError.value);
      }
      if file.None? {
        return Failure("unknown", MissingFileError);
      }
      var name := file.value.name;
      if io.saveError.Some? {
        return Failure(name, io.saveError.value);
      }
      if io.pages.Err? {
        return Failure(name, io.pages.message);
      }
      var documents := io.pages.value;
      if io.chunks.Err? {
        return Failure(name, io.chunks.message);
      }
      var split := io.chunks.value;
      var chunks := new Doc[|split|](i requires 0 <= i < |split| => split[i]);
      assert chunks[..] == split;
      TagChunks(chunks, name);
      if io.storeError.Some? {
        return Failure(name, io.storeError.value);
      }
      var tagged := chunks[..];
      assert tagged == TagAll(split, name);
      if vectorstore == null {
        assert before == [];
        vectorstore := new VectorStore(tagged);
        assert before + tagged == tagged;
      } else {
        assert before == vectorstore.entries;
        vectorstore.AddDocuments(tagged);
      }
      assert View() == Some(before + TagAll(io.chunks.value, name));
      if io.persistError.Some? {
        return Failure(name, io.persistError.value);
      }
      if io.cleanupError.Some? {
        return Failure(name, io.cleanupError.value);
      }
      return Success(name, chunks.Length, |documents|);
    }

    /** `_extract_relevant_contexts`: one context per search result, in the
        order of the results; a failing search propagates its exception. */
    method ExtractRelevantContexts(question: string, k: int, search: Result<seq<Hit>>)
      returns (r: Result<seq<Context>>)
      ensures vectorstore == null ==> r == Ok([])
      ensures vectorstore != null && search.Err? ==> r == Err(search.message)
      ensures vectorstore != null && search.Ok? ==> r.Ok? && r.value == ToContexts(search.value)
    {
      if vectorstore == null {
        return Ok([]);
      }
      if search.Err? {
        return Err(search.message);
      }
      var results := search.value;
      var contexts: seq<Context> := [];
      for i := 0 to |results|
        invariant contexts == ToContexts(results[..i])
      {
        var hit := results[i];
        assert results[..i + 1][..i] == results[..i];
        contexts := contexts + [Context(
          hit.doc.pageContent,
          Get(hit.doc.metadata, "source", Unknown),
          Get(hit.doc.metadata, "page", Unknown),
          hit.score,
          Get(hit.doc.metadata, "chunk_id", Unknown))];
      }
      assert results[..|results|] == results;
      return Ok(contexts);
    }

    /** `query`: the gate, the emptiness check, retrieval, then the grounded
        answer with its sources summary or the fallback. */
    method Query(question: string, k: int, o: QueryOracle, render: real -> string)
      returns (answer: string, steps: seq<Step>)
      ensures QueryResult(answer, steps) == QueryOutcome(question, k, View(), o, render)
    {
      steps := [Classify(question)];
      if !IsMedicalQuestion(o.gate) {
        return OutOfContextMessage, steps;
      }
      if vectorstore == null {
        var fallback := QueryWithoutContext(question, o);
        return fallback.answer, steps + fallback.steps;
      }
      steps := steps + [CountEntries];
      if o.countError.Some? {
        return QueryErrorPrefix + o.countError.value, steps;
      }
      if |vectorstore.entries| == 0 {
        var fallback := QueryWithoutContext(question, o);
        return fallback.answer, steps + fallback.steps;
      }
      var contexts := ExtractRelevantContexts(question, k, o.search);
      steps := steps + [Search(question, k)];
      if contexts.Err? {
        return QueryErrorPrefix + contexts.message, steps;
      }
      if |contexts.value| == 0 {
        var fallback := QueryWithoutContext(question, o);
        return fallback.answer, steps + fallback.steps;
      }
      var contextText := ContextText(contexts.value);
      steps := steps + [Generate(GroundedPrompt(question, contextText, k))];
      if o.chain.Err? {
        return QueryErrorPrefix + o.chain.message, steps;
      }
      var summary := BuildSourceSummary(contexts.value, render);
      return o.chain.value + summary, steps;
    }

    /** `get_database_stats`. */
    method GetDatabaseStats(countError: Option<string>) returns (s: Stats)
      ensures vectorstore == null ==> s == NotInitialized
      ensures vectorstore != null && countError.None? ==> s == Initialized(|vectorstore.entries|, persistDirectory)
      ensures vectorstore != null && countError.Some? ==> s == StatsError(countError.value)
    {
      if vectorstore == null {
        return NotInitialized;
      }
      if countError.Some? {
        return StatsError(countError.value);
      }
      return Initialized(|vectorstore.entries|, persistDirectory);
    }

    /** `clear_database`: deletes the collection and reopens the (now empty)
        persist directory. */
    method ClearDatabase(deleteError: Option<string>, initError: Option<string>) returns (r: AdminResult)
      modifies this, vectorstore
      ensures old(vectorstore) == null ==> r == AdminSuccess(ClearedMessage) && vectorstore == null
      ensures old(vectorstore) != null && deleteError.Some? ==>
        r == AdminError(deleteError.value) && vectorstore == old(vectorstore) && View() == old(View())
      ensures old(vectorstore) != null && deleteError.None? && initError.Some? ==>
        r == AdminError(InitErrorPrefix + initError.value) && vectorstore == old(vectorstore) && View() == Some([])
      ensures old(vectorstore) != null && deleteError.None? && initError.None? ==>
        r == AdminSuccess(ClearedMessage) && fresh(vectorstore) && View() == Some([])
    {
      if vectorstore == null {
        return AdminSuccess(ClearedMessage);
      }
      if deleteError.Some? {
        return AdminError(deleteError.value);
      }
      vectorstore.DeleteCollection();
      var reopened := InitializeVectorstore([], initError);
      if reopened.Fail? {
        return AdminError(reopened.message);
      }
      return AdminSuccess(ClearedMessage);
    }
  }
}
