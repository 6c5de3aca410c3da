/** The conversational RAG chain: the retrieval tool handed to the agent, the
    add/delete/clear sequencing over the document registry and the vector
    index, the fixed middleware order, and the per-session chain cache. */
module ConversationalChain {
  import opened Wrappers
  import opened Text
  import opened Documents
  import opened DocumentLoader
  import opened FaissStore

  // ---------------------------------------------------------------------
  // Tool output

  /** What `_run` answers when the retriever found nothing. */
  const NoDocsMessage: string := "No relevant documents found."

  /** One retrieved document as the agent sees it. */
  function DocBlock(d: Document): string
  {
    "<doc>\n" + d.pageContent + "\n</doc>"
  }

  /** The blocks of `docs`, in retriever order. */
  function Blocks(docs: seq<Document>): (r: seq<string>)
    ensures |r| == |docs|
    ensures forall i | 0 <= i < |docs| :: r[i] == DocBlock(docs[i])
  {
    seq(|docs|, i requires 0 <= i < |docs| => DocBlock(docs[i]))
  }

  /** The text `_run` returns for the retrieved documents `docs`. */
  function FormatDocs(docs: seq<Document>): string
  {
    if docs == [] then NoDocsMessage else Join("\n\n", Blocks(docs))
  }

  /** A join of parts whose first part is non-empty starts with that part's
      first character. */
  lemma JoinHead(sep: string, parts: seq<string>)
    requires parts != [] && parts[0] != []
    ensures Join(sep, parts) != [] && Join(sep, parts)[0] == parts[0][0]
  {
    if |parts| > 1 {
      assert Join(sep, parts) == parts[0] + (sep + Join(sep, parts[1..]));
    }
  }

  /** The "nothing found" answer comes exactly when the retriever returned no
      documents: any document, whatever its content, yields a `<doc>` block
      instead. */
  lemma FormatDocsEmptyIff(docs: seq<Document>)
    ensures FormatDocs(docs) == NoDocsMessage <==> docs == []
  {
    if docs != [] {
      JoinHead("\n\n", Blocks(docs));
      assert FormatDocs(docs)[0] == '<';
      assert NoDocsMessage[0] == 'N';
    }
  }

  /** A single document is answered by its block alone. */
  lemma FormatDocsSingle(d: Document)
    ensures FormatDocs([d]) == "<doc>\n" + d.pageContent + "\n</doc>"
  {
    assert Blocks([d]) == [DocBlock(d)];
  }

  /** One more document appends its block after a blank line, so the answer
      lists the documents in retriever order. */
  lemma FormatDocsSnoc(docs: seq<Document>, d: Document)
    requires docs != []
    ensures FormatDocs(docs + [d]) == FormatDocs(docs) + "\n\n" + DocBlock(d)
  {
    assert Blocks(docs + [d]) == Blocks(docs) + [DocBlock(d)];
    JoinSnoc("\n\n", Blocks(docs), DocBlock(d));
  }

  /** `RetrievalTool`: the retriever it was built with, and the documents of
      its latest run. `invoke(retriever, index, query)` stands for the
      retriever's similarity search over the entries `index` of the vector
      store it wraps. */
  class RetrievalTool {
    const retriever: RetrieverConfig
    var lastDocs: seq<Document>

    constructor(retriever: RetrieverConfig)
      ensures this.retriever == retriever && lastDocs == []
    {
      this.retriever := retriever;
      lastDocs := [];
    }

    /** `_run(query)`: remember the retrieved documents, even none, and
        format them. */
    method Run(query: string, index: seq<Entry>, invoke: (RetrieverConfig, seq<Entry>, string) -> seq<Document>)
      returns (answer: string)
      modifies this`lastDocs
      ensures lastDocs == invoke(retriever, index, query)
      ensures answer == FormatDocs(lastDocs)
      ensures answer == NoDocsMessage <==> lastDocs == []
    {
      var docs := invoke(retriever, index, query);
      lastDocs := docs;
      FormatDocsEmptyIff(docs);
      if docs == [] {
        return NoDocsMessage;
      }
      answer := Join("\n\n", Blocks(docs));
    }

    /** `get_last_docs()`. */
    method GetLastDocs() returns (docs: seq<Document>)
      ensures docs == lastDocs
    {
      docs := lastDocs;
    }
  }

  /** The life of an upload with a flat name: its chunks all name it, adding
      them with generated ids keeps every id carrying its file name, and a
      later `delete_by_source(name)` leaves no stored chunk, and so nothing
      a search over the index can return, that names the file. */
  lemma UploadThenDeleteLeavesNoChunk(entries: seq<Entry>, documentsPath: string, name: string,
                                      parsers: Parsers, draw: nat -> Uuid, retrieved: seq<Document>)
    requires IdsCarryFileNames(entries)
    requires SplitKeepsMetadata(parsers.split)
    requires name != "" && '/' !in name
    requires LoadDocument(documentsPath + "/" + name, parsers).Ok?
    ensures var chunks := LoadDocument(documentsPath + "/" + name, parsers).value;
            var rest := DeleteBySourceSpec(AddDocumentsSpec(entries, chunks, 10, None, draw).entries, name).entries;
      && (forall c | c in chunks :: MetadataGet(c, "file_name", "") == name)
      && IdsCarryFileNames(rest)
      && (forall e | e in rest :: MetadataGet(e.doc, "file_name", "") != name)
      && (RetrievedFrom(retrieved, rest) ==> forall d | d in retrieved :: MetadataGet(d, "file_name", "") != name)
  {
    var chunks := LoadDocument(documentsPath + "/" + name, parsers).value;
    ChunksNameTheUpload(documentsPath, name, parsers);
    LastSegmentWhole(name, '/');
    var added := AddDocumentsSpec(entries, chunks, 10, None, draw).entries;
    AddGeneratedKeepsCarry(entries, chunks, 10, draw);
    DeletedFileNotStored(added, name);
  }

  // ---------------------------------------------------------------------
  // Middleware order

  /** The agent middlewares; summarisation keeps its configuration only. */
  datatype Hook =
    | SanitizeDanglingTool
    | Summarization(model: string, maxTokensBeforeSummary: nat, messagesToKeep: nat)
    | RetrieveSimilarHistory
    | SaveUserMessages
    | SaveAssistantResponse

  /** The middleware list given to `create_agent`, in order. */
  const Middleware: seq<Hook> := [
    SanitizeDanglingTool,
    Summarization("claude-sonnet-4-5", 4000, 20),
    RetrieveSimilarHistory,
    SaveUserMessages,
    SaveAssistantResponse
  ]

  /** The position of a hook kind in the middleware list; every kind is
      installed exactly once, so the position is unique. */
  function Position(h: Hook): (i: nat)
    ensures i < |Middleware|
    ensures Middleware[i].SanitizeDanglingTool? == h.SanitizeDanglingTool?
    ensures Middleware[i].Summarization? == h.Summarization?
    ensures Middleware[i].RetrieveSimilarHistory? == h.RetrieveSimilarHistory?
    ensures Middleware[i].SaveUserMessages? == h.SaveUserMessages?
    ensures forall j | 0 <= j < |Middleware| && j != i ::
              Middleware[j].SanitizeDanglingTool? != h.SanitizeDanglingTool? ||
              Middleware[j].Summarization? != h.Summarization? ||
              Middleware[j].RetrieveSimilarHistory? != h.RetrieveSimilarHistory? ||
              Middleware[j].SaveUserMessages? != h.SaveUserMessages?
  {
    match h
    case SanitizeDanglingTool => 0
    case Summarization(_, _, _) => 1
    case RetrieveSimilarHistory => 2
    case SaveUserMessages => 3
    case SaveAssistantResponse => 4
  }

  // ---------------------------------------------------------------------
  // The chain

  /** What `add_documents` answers for an upload that yields no chunks. */
  function SkipMessage(name: string): string
  {
    "Skipping already processed file:  " + name + " "
  }

  /** What `add_documents` leaves once `_process_file` has answered
      `processed`, from an index holding `entries` with snapshot `disk` and a
      chain whose retriever is `retriever`: an exception passes on with
      nothing touched; no chunks give the skip message and leave the index
      alone; chunks go through the add specification with generated ids in
      batches of 10, and only a successful add saves and refreshes the
      retriever to `refreshed`. */
  predicate AddedAs(processed: Result<seq<Document>>, name: string, draw: nat -> Uuid, refreshed: RetrieverConfig,
                    entries: seq<Entry>, disk: IndexDir, retriever: RetrieverConfig,
                    r: Result<Option<string>>, newEntries: seq<Entry>, newDisk: IndexDir,
                    newRetriever: RetrieverConfig)
  {
    if processed.Err? then
      r == Err(processed.error) && newEntries == entries && newDisk == disk && newRetriever == retriever
    else if processed.value == [] then
      r == Ok(Some(SkipMessage(name))) && newEntries == entries && newDisk == disk && newRetriever == retriever
    else
      var a := AddDocumentsSpec(entries, processed.value, 10, None, draw);
      && newEntries == a.entries
      && newDisk == (if a.saved then Stored(a.entries) else disk)
      && (a.result.Err? ==> r == Err(a.result.error) && newRetriever == retriever)
      && (a.result.Ok? ==> r == Ok(None) && newRetriever == refreshed)
  }

  /** `FAISSConversationalRAGChain`. The loader and the vector store are the
      process-wide singletons, passed in; the chat model, the agent and its
      sqlite checkpointer are not part of this model. */
  class Chain {
    const sessionId: string
    const documentLoader: DocumentLoaderService
    const faissStore: FAISSVectorStore
    const retrievalTool: RetrievalTool
    const middleware: seq<Hook>
    var retriever: RetrieverConfig

    constructor(sessionId: string, documentLoader: DocumentLoaderService, faissStore: FAISSVectorStore)
      ensures this.sessionId == sessionId
      ensures this.documentLoader == documentLoader && this.faissStore == faissStore
      ensures retriever == faissStore.GetRetriever(None)
      ensures fresh(retrievalTool) && retrievalTool.retriever == retriever && retrievalTool.lastDocs == []
      ensures middleware == Middleware
    {
      this.sessionId := sessionId;
      this.documentLoader := documentLoader;
      this.faissStore := faissStore;
      var r := faissStore.GetRetriever(None);
      retriever := r;
      retrievalTool := new RetrievalTool(r);
      middleware := Middleware;
    }

    /** `add_documents(upload)`: process the upload, skipping a registered
        name; without chunks answer the skip message and leave the index
        alone, otherwise add every chunk with generated ids in batches of 10
        and refresh the retriever. An exception from saving the upload or
        from the index propagates; `saveWritable` and `recordWritable` are
        passed to `_process_file`. */
    method AddDocuments(upload: UploadedFile, parsers: Parsers, draw: nat -> Uuid,
                        saveWritable: bool, recordWritable: bool)
      returns (r: Result<Option<string>>)
      modifies this, documentLoader, faissStore
      ensures var o := ProcessSpec(old(documentLoader.record), old(documentLoader.documentsDir),
                                   documentLoader.documentsPath, upload.name, true,
                                   parsers,
                                   saveWritable, recordWritable);
        && documentLoader.record == o.record && documentLoader.documentsDir == o.documentsDir
        && documentLoader.directoryExists
           == (old(documentLoader.directoryExists) || !IsProcessed(old(documentLoader.record), upload.name))
      ensures var o := ProcessSpec(old(documentLoader.record), old(documentLoader.documentsDir),
                                   documentLoader.documentsPath, upload.name, true,
                                   parsers,
                                   saveWritable, recordWritable);
        AddedAs(o.result, upload.name, draw, faissStore.GetRetriever(None),
                old(faissStore.entries), old(faissStore.disk), old(retriever),
                r, faissStore.entries, faissStore.disk, retriever)
      ensures unchanged(retrievalTool)
    {
      var processed := documentLoader.ProcessFile(upload, true, parsers, saveWritable, recordWritable);
      r := IndexProcessed(processed, upload.name, draw);
    }

    /** What `add_documents` does with the outcome of `_process_file`: pass
        an exception on, answer the skip message when there are no chunks,
        and index the chunks otherwise. */
    method IndexProcessed(processed: Result<seq<Document>>, name: string, draw: nat -> Uuid)
      returns (r: Result<Option<string>>)
      modifies this, faissStore
      ensures AddedAs(processed, name, draw, faissStore.GetRetriever(None),
                      old(faissStore.entries), old(faissStore.disk), old(retriever),
                      r, faissStore.entries, faissStore.disk, retriever)
    {
      if processed.Err? {
        return Err(processed.error);
      }
      var chunks := processed.value;
      if chunks == [] {
        return Ok(Some(SkipMessage(name)));
      }
      r := IndexChunks(chunks, draw);
    }

    /** The indexing half of `add_documents`: add the chunks with generated
        ids in batches of 10 and refresh the retriever, or pass the index's
        error on with the retriever left as it was. */
    method IndexChunks(chunks: seq<Document>, draw: nat -> Uuid) returns (r: Result<Option<string>>)
      modifies this, faissStore
      ensures var o := AddDocumentsSpec(old(faissStore.entries), chunks, 10, None, draw);
        && faissStore.entries == o.entries
        && faissStore.disk == (if o.saved then Stored(o.entries) else old(faissStore.disk))
        && (o.result.Err? ==> r == Err(o.result.error) && retriever == old(retriever))
        && (o.result.Ok? ==> r == Ok(None) && retriever == faissStore.GetRetriever(None))
    {
      var added := faissStore.AddDocuments(documentLoader, chunks, 10, None, draw);
      if added.Err? {
        return Err(added.error);
      }
      retriever := faissStore.GetRetriever(None);
      return Ok(None);
    }

    /** `delete_documents(doc_id)`: unregister the name, then delete every
        index entry whose id starts with `doc_id + "_"`. An exception from
        the registry propagates before the index is touched; `recordWritable`
        is passed to `delete_processed_document`. */
    method DeleteDocuments(docId: string, recordWritable: bool) returns (r: Result<()>)
      modifies documentLoader, faissStore
      ensures documentLoader.directoryExists == old(documentLoader.directoryExists)
      ensures NamesDirectory(docId) && documentLoader.directoryExists ==>
        && r == Err(FileError(documentLoader.documentsPath + "/" + docId))
        && documentLoader.record == old(documentLoader.record)
        && documentLoader.documentsDir == old(documentLoader.documentsDir)
      ensures !(NamesDirectory(docId) && documentLoader.directoryExists) ==>
        && documentLoader.documentsDir == old(documentLoader.documentsDir) - {docId}
        && documentLoader.record
           == (if recordWritable then Some(Rewritten(old(documentLoader.record), docId)) else old(documentLoader.record))
        && r == (if recordWritable then Ok(()) else Err(FileError(RecordFile)))
      ensures r.Err? ==> faissStore.entries == old(faissStore.entries) && faissStore.disk == old(faissStore.disk)
      ensures r.Ok? ==>
        var o := DeleteBySourceSpec(old(faissStore.entries), docId);
        && faissStore.entries == o.entries
        && faissStore.disk == (if o.saved then Stored(o.entries) else old(faissStore.disk))
        && (docId != "" ==> forall e | e in faissStore.entries :: !StartsWith(e.id, docId + "_"))
    {
      r := documentLoader.DeleteProcessedDocument(docId, recordWritable);
      if r.Err? {
        return;
      }
      var _ := faissStore.DeleteBySource(docId);
      DeleteBySourceLeavesNoMatch(old(faissStore.entries), docId);
    }

    /** `clear_documents()`: clear the registry, then empty and save the
        index; `recordWritable` and `directoryWritable` say which halves of
        the registry clear succeed. */
    method ClearDocuments(recordWritable: bool, directoryWritable: bool)
      modifies documentLoader, faissStore
      ensures documentLoader.record == (if recordWritable then Some("") else old(documentLoader.record))
      ensures documentLoader.documentsDir == (if directoryWritable then {} else old(documentLoader.documentsDir))
      ensures documentLoader.directoryExists == old(documentLoader.directoryExists)
      ensures faissStore.entries == [] && faissStore.disk == Stored([])
    {
      documentLoader.ClearAllProcessedDocuments(recordWritable, directoryWritable);
      faissStore.Clear();
    }
  }

  // ---------------------------------------------------------------------
  // Sessions

  /** The result of `clear_session` as written: its outcome and the cache
      left behind. */
  datatype ClearOutcome<C> = ClearOutcome(result: Result<()>, sessions: map<string, C>)

  /** The error Python raises when `clear_session` calls the undefined
      `clear_memory`. */
  const MissingClearMemory: string :=
    "AttributeError: 'FAISSConversationalRAGChain' object has no attribute 'clear_memory'"

  /** `clear_session(session_id)` as written: a known id reaches the call of
      the missing `clear_memory`, which raises before `del` runs. */
  function ClearSessionAsWritten<C>(sessions: map<string, C>, sessionId: string): ClearOutcome<C>
  {
    if sessionId in sessions then ClearOutcome(Err(MissingClearMemory), sessions)
    else ClearOutcome(Ok(()), sessions)
  }

  /** As written, clearing a known session fails and the session survives. */
  lemma ClearSessionAsWrittenKeepsSession<C>(sessions: map<string, C>, sessionId: string)
    requires sessionId in sessions
    ensures ClearSessionAsWritten(sessions, sessionId).result.Err?
    ensures sessionId in ClearSessionAsWritten(sessions, sessionId).sessions
  {
  }

  /** `clear_session(session_id)` as intended: the session is forgotten and
      every other one is kept. */
  function ClearSessionIntended<C>(sessions: map<string, C>, sessionId: string): (r: map<string, C>)
    ensures sessionId !in r
    ensures forall id | id != sessionId :: id in r <==> id in sessions
    ensures forall id | id in r :: r[id] == sessions[id]
  {
    sessions - {sessionId}
  }

  /** On an unknown id both readings agree: nothing happens. */
  lemma ClearUnknownSession<C>(sessions: map<string, C>, sessionId: string)
    requires sessionId !in sessions
    ensures ClearSessionAsWritten(sessions, sessionId) == ClearOutcome(Ok(()), sessions)
    ensures ClearSessionIntended(sessions, sessionId) == sessions
  {
  }

  /** The module-level `_sessions` cache. */
  class SessionCache {
    var sessions: map<string, Chain>

    constructor()
      ensures sessions == map[]
    {
      sessions := map[];
    }

    /** `get_conversational_chain(session_id)`: a chain is built only for an
        unseen id; a seen id gets back the very same chain. */
    method GetConversationalChain(sessionId: string, documentLoader: DocumentLoaderService,
                                  faissStore: FAISSVectorStore)
      returns (c: Chain)
      modifies this
      ensures sessionId in old(sessions) ==> c == old(sessions)[sessionId] && sessions == old(sessions)
      ensures sessionId !in old(sessions) ==>
        && fresh(c) && c.sessionId == sessionId
        && c.documentLoader == documentLoader && c.faissStore == faissStore
        && sessions == old(sessions)[sessionId := c]
    {
      if sessionId !in sessions {
        var created := new Chain(sessionId, documentLoader, faissStore);
        sessions := sessions[sessionId := created];
      }
      c := sessions[sessionId];
    }

    /** `clear_session(session_id)` with the intended effect: the session is
        dropped, so the next request for it builds a new chain. */
    method ClearSession(sessionId: string)
      modifies this
      ensures sessions == ClearSessionIntended(old(sessions), sessionId)
    {
      if sessionId in sessions {
        sessions := sessions - {sessionId};
      }
    }
  }
}
