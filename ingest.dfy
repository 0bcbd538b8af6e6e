/** The result record of `add_document`. Every external step of an ingestion
    (creating a temporary file, saving the upload into it, PDF loading, splitting, the store
    write, persisting and removing the temporary file) is an oracle that either
    yields its value or raises. */
module Ingest {
  import opened Wrappers
  import opened Documents

  /** An uploaded file; its bytes only reach the PDF loader, which is an oracle. */
  datatype Upload = Upload(name: string)

  datatype IngestIO = IngestIO(
    tempFileError: Option<string>, // creating the temporary file
    saveError: Option<string>,    // reading the upload into the temporary file
    pages: Result<seq<Doc>>,      // `PyPDFLoader(tmp_path).load()`
    chunks: Result<seq<Doc>>,     // `text_splitter.split_documents(documents)`
    storeError: Option<string>,   // `Chroma.from_documents` or `add_documents`
    persistError: Option<string>, // `vectorstore.persist()`
    cleanupError: Option<string>) // `os.unlink(tmp_path)`

  datatype IngestResult =
    | Success(filename: string, chunksCreated: nat, totalPages: nat)
    | Failure(filename: string, error: string)

  /** What `file.read()` raises when no file is given (the temporary file is
      created before the upload is read). */
  const MissingFileError := "'NoneType' object has no attribute 'read'"

  /** The tagged chunk batch reaches the store. */
  predicate Committed(file: Option<Upload>, io: IngestIO)
  {
    io.tempFileError.None? && file.Some? && io.saveError.None? && io.pages.Ok? && io.chunks.Ok? && io.storeError.None?
  }

  /** The dictionary `add_document` returns. */
  function IngestResultOf(file: Option<Upload>, io: IngestIO): (r: IngestResult)
    ensures r.Success? <==> Committed(file, io) && io.persistError.None? && io.cleanupError.None?
    ensures r.Success? ==>
      r.filename == file.value.name && r.chunksCreated == |io.chunks.value| && r.totalPages == |io.pages.value|
    ensures r.Failure? ==> r.filename == (if file.Some? then file.value.name else "unknown")
    ensures io.tempFileError.Some? ==> r.Failure? && r.error == io.tempFileError.value
    ensures io.tempFileError.None? && file.None? ==> r == Failure("unknown", MissingFileError)
  {
    var filename := if file.Some? then file.value.name else "unknown";
    if io.tempFileError.Some? then Failure(filename, io.tempFileError.value)
    else match file
    case None => Failure("unknown", MissingFileError)
    case Some(f) =>
      if io.saveError.Some? then Failure(f.name, io.saveError.value)
      else if io.pages.Err? then Failure(f.name, io.pages.message)
      else if io.chunks.Err? then Failure(f.name, io.chunks.message)
      else if io.storeError.Some? then Failure(f.name, io.storeError.value)
      else if io.persistError.Some? then Failure(f.name, io.persistError.value)
      else if io.cleanupError.Some? then Failure(f.name, io.cleanupError.value)
      else Success(f.name, |io.chunks.value|, |io.pages.value|)
  }

  /** Up to the store write, the first step that raises is the one reported,
      with its own exception text. */
  lemma FailureBeforeCommit(file: Option<Upload>, io: IngestIO)
    requires io.tempFileError.None? && file.Some?
    ensures var r := IngestResultOf(file, io);
      var name := file.value.name;
      && (io.saveError.Some? ==> r == Failure(name, io.saveError.value))
      && (io.saveError.None? && io.pages.Err? ==> r == Failure(name, io.pages.message))
      && (io.saveError.None? && io.pages.Ok? && io.chunks.Err? ==> r == Failure(name, io.chunks.message))
      && (io.saveError.None? && io.pages.Ok? && io.chunks.Ok? && io.storeError.Some? ==>
            r == Failure(name, io.storeError.value))
  {
  }

  /** Ingestion is not atomic: a failure after the store write reports an
      error although the batch was stored. */
  lemma FailureAfterCommit(file: Option<Upload>, io: IngestIO)
    requires Committed(file, io) && (io.persistError.Some? || io.cleanupError.Some?)
    ensures IngestResultOf(file, io) ==
      Failure(file.value.name, if io.persistError.Some? then io.persistError.value else io.cleanupError.value)
  {
  }
}
