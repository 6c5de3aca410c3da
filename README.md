# knowledgeGPT core, modelled in Dafny

knowledgeGPT is a document-grounded chat assistant. Users upload documents into a
knowledge base. A FAISS index holds the document chunks, and a LangChain agent
answers questions with a retrieval tool over that index. Around every model call
the agent runs a chain of memory middlewares, which keep a long-term
conversation history in a Chroma collection. A Streamlit page shows the answers
and the files they cite.

This project models the bookkeeping under that glue. Each part below is one
Dafny module.

- `DocumentLoader` (`loader.dfy`) is the processed-document registry:
  - the file-type whitelist and the metadata stamped on loaded pages;
  - batching;
  - the record file (a string read back with `splitlines`) and the directory of saved uploads (a set of names);
  - the skip, save and record flow of `_process_file`.
- `FaissStore` (`faiss_store.dfy`) is the vector index manager, a class with two fields:
  - the docstore ids in index order, each with its document;
  - the snapshot last saved to the index directory.

  It covers load-or-create with its placeholder text, id generation, aligned batching, `delete`, `delete_by_source`, `clear` and `save`. Library-side `add` and `delete` keep the checks FAISS makes: ids distinct and not yet stored, ids to delete present.
- `LongTermMemory` (`long_term_memory.dfy`) covers:
  - message ids, with `md5` as a parameter;
  - the conversation-history collection, as a map from id to record;
  - list-content normalisation;
  - the four middlewares, as methods over agent state, runtime and collection objects, each proved against a pure function.
- `ConversationalChain` (`conversational_chain.dfy`) covers:
  - the retrieval tool's output and its single-slot `last_docs`;
  - the add, delete and clear sequencing over the registry and the index;
  - the middleware order;
  - the `_sessions` cache.
- `WebChatbot` (`web_chatbot.dfy`) covers:
  - display names of registered documents, including the `name='...'` search;
  - the response buffer grown from the agent's `updates` stream;
  - the de-duplicated reference list;
  - the history entry a chat turn ends in.
- `Wrappers`, `Text`, `Documents` and `Messages` hold shared definitions:
  - `Option` and `Result`;
  - Python string behaviour: `splitlines` with all of Python's line boundaries, `"\n".join`, path name and suffix, ASCII `lower`, `strip` truthiness;
  - documents with string metadata, and uuid text;
  - a closed message datatype (human, AI with tool calls, tool).

Foreign engines are parameters. These are: the md5 digest, uuid4 draws, the document loaders and the text splitter, the retriever, Chroma's similarity search, and the clock. Whether the upload write, the record write, the record truncation, the directory clear and the Chroma insert succeed are boolean parameters. A write to a path that names a directory (an empty name, `.` or `..`) always fails. A Python exception that nothing catches becomes an `Err` result.

Where the design documentation and the code disagree, the model follows the code:
- `clear()` leaves the index with no entries at all. It does not return to the one-placeholder state of a fresh index.
- `retrieve_similar_history_middleware` does not catch an error raised by the similarity search. The error ends the model call instead of being swallowed.
- The middleware list puts summarisation second, right after the sanitizer and before history retrieval.
- The sanitizer drops the dangling message and nothing more. It does not ensure that the history then ends in a user turn.

Some behaviour of the code is reproduced as written and proved as such:
- After `delete_processed_document` rewrites the record with no trailing newline, the next recorded name is glued onto the last line. That name is then not seen as processed (`AppendAfterRewriteGlues`, `GluedRecordExample`).
- `add_documents` with a negative batch size adds nothing, yet saves and returns True (`AddNegativeBatchSize`).
- `delete_by_source("a.pdf")` also deletes the chunks of a file named `a.pdf_b.pdf` (`DeleteBySourceCrossFile`).
- The runtime `system` prompt is rebuilt from itself, so a second model call in the same run appends the history block again (`RetrieveRepeatedGrows`).

## Model

| member | source | states |
|---|---|---|
| DocumentLoader.LoaderForWhitelist | src/loaders/document_loader.py:35-43 | a loader class exists exactly for `.pdf`, `.docx`, `.doc`, `.txt`, `.html`, `.htm`, `.md` |
| DocumentLoader.UnsupportedRejectedBeforeLoading | src/loaders/document_loader.py:62-67 | an unsupported lower-cased suffix gives the `ValueError` message whatever the loaders and splitter would do, so no loader runs |
| DocumentLoader.LoadedOnlyWhenSupported | src/loaders/document_loader.py:66-91 | loading succeeds only for a whitelisted suffix, and the chunks are then the splitter's output on the stamped pages of that suffix's loader |
| DocumentLoader.TagStampsMetadata | src/loaders/document_loader.py:80-85 | every loaded page gets `source`, `file_name` = last path component and `file_type` = lower-cased suffix; its text and other keys are kept |
| DocumentLoader.SavedFileName | src/loaders/document_loader.py:120-131 | the upload saved under the documents directory is named by the last `/`-segment of the upload's name |
| DocumentLoader.ChunksNameTheUpload | src/loaders/document_loader.py:66-91 | with a splitter that keeps each chunk's page metadata, every chunk of a loaded upload carries `file_name` = the last `/`-segment of the upload's name |
| DocumentLoader.SplitChunksNamed | src/loaders/document_loader.py:80-91 | such a splitter's chunks of stamped pages all carry the stamped `file_name` |
| DocumentLoader.ChunksConcat | src/loaders/document_loader.py:179-185 | concatenating the batches gives back the input |
| DocumentLoader.ChunksShape | src/loaders/document_loader.py:179-185 | every batch but the last has exactly `batch_size` items, and the last has between 1 and `batch_size` |
| DocumentLoader.ChunksCount | src/loaders/document_loader.py:179-185 | there are ceil(n / batch_size) batches |
| DocumentLoader.ChunksAligned | src/vectorstores/faiss_store.py:121-122 | documents and ids of equal number are cut into the same number of batches of pairwise equal sizes |
| DocumentLoader.ProcessedIffLine | src/loaders/document_loader.py:152-156 | with no record file a name is not processed; otherwise it is processed iff it equals one line of the record |
| DocumentLoader.AppendToClosed | src/loaders/document_loader.py:165-166 | appending `name + "\n"` to an empty or newline-terminated record adds exactly that name as the last line, and the record stays terminated |
| DocumentLoader.AppendAfterRewriteGlues | src/loaders/document_loader.py:213-214 | after the unterminated rewrite, the next appended name is glued onto the last remaining line |
| DocumentLoader.GluedRecordExample | src/loaders/document_loader.py:165-166 | record `a.pdf` rewritten, then `b.pdf` appended, reads as the single line `a.pdfb.pdf`, so neither name counts as processed |
| DocumentLoader.RemoveFirstAbsent | src/loaders/document_loader.py:209-212 | removing an absent name leaves the list unchanged |
| DocumentLoader.RemoveFirstPresent | src/loaders/document_loader.py:209-210 | `list.remove` drops exactly the first occurrence and keeps the rest in order |
| DocumentLoader.RemoveFirstMultiset | src/loaders/document_loader.py:209-210 | removal takes away one copy of the name and nothing else |
| DocumentLoader.DeleteRewriteReadsBack | src/loaders/document_loader.py:208-214 | the rewritten record reads back as the list without the first occurrence, and unchanged when the name was absent |
| DocumentLoader.RemoveFirstNoBreaks | src/loaders/document_loader.py:209-214 | the ids left after the removal are single lines, so the rewrite joins whole lines |
| DocumentLoader.DeleteUnregistersSingle | src/loaders/document_loader.py:208-214 | a name recorded at most once is no longer processed after the delete |
| DocumentLoader.ProcessRecordsOnlyLoaded | src/loaders/document_loader.py:107-140 | the name is recorded, and the loaded chunks returned, exactly when it was not skipped, the upload was saved, loading succeeded and the record write succeeded; in every other case the record is unchanged and no chunk is returned |
| DocumentLoader.ProcessErrorOnlyFromSave | src/loaders/document_loader.py:107-140 | an exception escapes exactly when an unskipped upload cannot be written, and then nothing changes; a skip changes nothing; otherwise the upload is kept among the saved files |
| DocumentLoader.DocumentLoaderService.constructor | src/loaders/document_loader.py:45-47 | the service starts from the given record file, documents directory and whether that directory exists |
| DocumentLoader.DocumentLoaderService.IsDocumentProcessed | src/loaders/document_loader.py:142-156 | answers whether a record exists and the name is one of its `splitlines` lines |
| DocumentLoader.DocumentLoaderService.RecordProcessedDocument | src/loaders/document_loader.py:158-166 | the record becomes the old record followed by `name + "\n"` (created when missing) |
| DocumentLoader.DocumentLoaderService.ListAllProcessedDocuments | src/loaders/document_loader.py:186-197 | returns the record's lines, or nothing when there is no record |
| DocumentLoader.DocumentLoaderService.BatchProcessDocuments | src/loaders/document_loader.py:168-185 | the loop yields `range(0, n, batch_size)` slices: an error for step 0, no batches for a negative step |
| DocumentLoader.DocumentLoaderService.ProcessFile | src/loaders/document_loader.py:95-140 | the result, record and saved files are those of the process specification: a skipped name returns nothing; a failed upload write escapes before the `try`; a failed load or record write inside it returns nothing |
| DocumentLoader.DocumentLoaderService.SaveUpload | src/loaders/document_loader.py:116-124 | the directory then exists; the write succeeds iff the name is no directory and the file is writable, adding the upload, and otherwise raises with nothing saved |
| DocumentLoader.DocumentLoaderService.RecordLoaded | src/loaders/document_loader.py:129-140 | the chunks are returned and the name recorded only when loading and the record write both succeed; otherwise `[]` and an unchanged record |
| DocumentLoader.DocumentLoaderService.DeleteProcessedDocument | src/loaders/document_loader.py:199-214 | a name that is the existing documents directory itself raises before anything changes; otherwise the saved copy is removed and the record is rewritten as the `"\n"`-join of the list without the first occurrence, or the failed rewrite raises with the record unchanged |
| DocumentLoader.DocumentLoaderService.ClearAllProcessedDocuments | src/loaders/document_loader.py:216-231 | the record is truncated and the saved files removed, each half independently of the other's failure; the directory itself stays |
| FaissStore.CreatedEntries | src/vectorstores/faiss_store.py:67-72 | a fresh index holds exactly one entry, the placeholder text |
| FaissStore.GeneratedIdHasSourcePrefix | src/vectorstores/faiss_store.py:104-111 | each generated id starts with its document's `file_name` (or `""`) and `_`, followed by a 36-character uuid |
| FaissStore.GeneratedIdsDistinct | src/vectorstores/faiss_store.py:104-111 | distinct uuid draws give distinct ids whatever the file names |
| FaissStore.GeneratedIdsFresh | src/vectorstores/faiss_store.py:104-111 | uuids unlike every stored id's tail give ids the index does not hold |
| FaissStore.AddBatchesFresh | src/vectorstores/faiss_store.py:119-132 | document batch i and id batch i cover the same slice, so every document is stored under its own id after the existing entries |
| FaissStore.AddFreshIdsSucceeds | src/vectorstores/faiss_store.py:87-138 | with distinct unstored ids of the right number, the call returns True, appends exactly the zipped pairs and saves |
| FaissStore.AddGeneratedIdsSucceeds | src/vectorstores/faiss_store.py:87-138 | with fresh distinct uuid draws, generated ids are added in document order and the index is saved |
| FaissStore.AddNothing | src/vectorstores/faiss_store.py:99-101 | an empty list returns False and leaves the index and snapshot unchanged |
| FaissStore.AddMismatchedIds | src/vectorstores/faiss_store.py:114-117 | explicit ids of the wrong length raise the count `ValueError` before any batch touches the index |
| FaissStore.AddNegativeBatchSize | src/vectorstores/faiss_store.py:119-138 | a negative batch size adds nothing but saves and returns True |
| FaissStore.AddBatchesExtends | src/vectorstores/faiss_store.py:126-132 | the batch loop only appends, even when a batch raises part way |
| FaissStore.AddOnlyAppends | src/vectorstores/faiss_store.py:87-140 | `add_documents` never removes or reorders entries, and saves exactly when it returns True |
| FaissStore.LibraryAddKeepsIdsDistinct | src/vectorstores/faiss_store.py:126-131 | every accepted batch keeps the docstore ids unique |
| FaissStore.WithoutMembers | src/vectorstores/faiss_store.py:245 | the library delete keeps exactly the entries whose ids are not deleted |
| FaissStore.WithoutKeepsIdsDistinct | src/vectorstores/faiss_store.py:245 | deleting keeps the remaining ids unique |
| FaissStore.SourceMatchesMembers | src/vectorstores/faiss_store.py:270-279 | the collected ids are exactly the stored ids starting with `doc_id + "_"` |
| FaissStore.DeleteExact | src/vectorstores/faiss_store.py:230-252 | `delete([])` is False with no change; otherwise True iff every id is stored, and then exactly those entries go; a failure changes nothing |
| FaissStore.DeleteBySourceExact | src/vectorstores/faiss_store.py:254-294 | True iff `doc_id` is non-empty and some id has the prefix; then exactly those entries go, the rest stay and the index is saved; otherwise nothing changes |
| FaissStore.PrefixedEntries | src/vectorstores/faiss_store.py:254-294 | the matched ids are stored ids, exactly those carrying the prefix, and there is one iff such an entry exists |
| FaissStore.DeleteBySourceLeavesNoMatch | src/vectorstores/faiss_store.py:270-289 | afterwards no stored id starts with `doc_id + "_"` |
| FaissStore.PlaceholderSurvivesDeleteBySource | src/vectorstores/faiss_store.py:276-279 | the placeholder's uuid id never has a `_`-terminated prefix match, so it survives every delete by source |
| FaissStore.DeleteBySourceCrossFile | src/vectorstores/faiss_store.py:278 | deleting source `a.pdf` also deletes the chunks of `a.pdf_b.pdf` |
| FaissStore.CreatedEntriesCarry | src/vectorstores/faiss_store.py:67-72 | the placeholder names no file, so a fresh index satisfies the file-name invariant |
| FaissStore.GeneratedEntriesCarry | src/vectorstores/faiss_store.py:104-111 | a document with a `file_name` gets an id that starts with that name and `_` |
| FaissStore.AddBatchesKeepCarry | src/vectorstores/faiss_store.py:119-132 | the batch loop keeps every stored id starting with its document's `file_name` and `_`, however far it gets |
| FaissStore.AddGeneratedKeepsCarry | src/vectorstores/faiss_store.py:87-140 | `add_documents` with generated ids keeps that invariant whatever it returns |
| FaissStore.DeletedFileNotStored | src/vectorstores/faiss_store.py:254-294 | under the invariant, after `delete_by_source(name)` no stored document has `file_name` = name, and the invariant still holds |
| FaissStore.DeletedFileNotRetrieved | src/vectorstores/faiss_store.py:254-294 | documents retrieved from what is left never have `file_name` = the deleted name |
| FaissStore.FAISSVectorStore.constructor | src/vectorstores/faiss_store.py:44-72 | a readable saved index is loaded as it is; a missing, empty or unreadable one is replaced by the placeholder-only index, saved at once |
| FaissStore.FAISSVectorStore.GetRetriever | src/vectorstores/faiss_store.py:74-85 | MMR search with `k`, or `TOP_K` when `k` is missing or 0 |
| FaissStore.FAISSVectorStore.Save | src/vectorstores/faiss_store.py:170-179 | the snapshot becomes the in-memory index |
| FaissStore.FAISSVectorStore.AddDocuments | src/vectorstores/faiss_store.py:87-140 | result, entries and snapshot are those of the add specification, so the snapshot equals the index after every True |
| FaissStore.NewIds | src/vectorstores/faiss_store.py:106-111 | the generated ids are `<file_name>_<uuid4>`, one per document, in order |
| FaissStore.FAISSVectorStore.RunBatches | src/vectorstores/faiss_store.py:126-132 | the batch loop ends with the entries of the batch specification and stops at the first refused batch |
| FaissStore.FAISSVectorStore.Delete | src/vectorstores/faiss_store.py:230-252 | result, entries and snapshot are those of the delete specification |
| FaissStore.FAISSVectorStore.DeleteBySource | src/vectorstores/faiss_store.py:254-294 | the prefix loop collects exactly the matching ids, and the outcome is the delete-by-source specification |
| FaissStore.FAISSVectorStore.Clear | src/vectorstores/faiss_store.py:211-229 | the index ends with no entries, no placeholder, and is saved so |
| LongTermMemory.RawKeysApart | src/memory/long_term_memory.py:20-23 | for the roles `user` and `assistant`, the hashed key `role:content` determines role and content |
| LongTermMemory.MsgIdsIdentifyTurns | src/memory/long_term_memory.py:20-23 | equal (role, content) always get the same id, and different ones differ unless md5 collides |
| LongTermMemory.TextPartsAppend | src/memory/long_term_memory.py:91-92 | the text parts of a list are those of its halves, in order |
| LongTermMemory.TextPartsFromItems | src/memory/long_term_memory.py:91-92 | every text part is the `text` of some dict item carrying `text` |
| LongTermMemory.TextPartsCoverItems | src/memory/long_term_memory.py:91-92 | every dict item carrying `text` contributes it |
| LongTermMemory.NoTextPartsNothingToStore | src/memory/long_term_memory.py:89-94 | list content without text items normalises to `""`, which is never stored |
| LongTermMemory.PersistRepeatedlyOneEntry | src/memory/long_term_memory.py:95-102 | persisting the same (role, content) N >= 1 times leaves one entry under its id, holding the latest timestamp |
| LongTermMemory.SaveUserStoresHumanOnly | src/memory/long_term_memory.py:73-107 | a last human message with non-blank normalised text is stored, and nothing else is, under role `user` and its id with other records kept; a store failure changes nothing |
| LongTermMemory.SaveAssistantSkipsToolCalls | src/memory/long_term_memory.py:110-142 | no response, or one with tool calls, stores nothing; a response without tool calls and with non-blank text is stored under role `assistant` and its id with other records kept; blank text is never stored; a store failure changes nothing |
| LongTermMemory.SanitizeDropsOnlyDangling | src/memory/long_term_memory.py:163-187 | the history changes iff it ends in an AI message with tool calls, and then it loses exactly that last message |
| LongTermMemory.RetrieveInjects | src/memory/long_term_memory.py:26-71 | only `system` changes, and it changes exactly when a truthy query finds results: then it becomes the original prompt followed by the history block; no query or no results leaves the kwargs as they were; an error is the search's own |
| LongTermMemory.HistoryBlockLines | src/memory/long_term_memory.py:53-57 | the block reads as two blank lines, the heading, and one `- ` line per result in search order |
| LongTermMemory.HeadedBlockLines | src/memory/long_term_memory.py:53-57 | two blank lines, a heading and `\n`-terminated lines read back as exactly those lines |
| LongTermMemory.RetrieveRepeatedGrows | src/memory/long_term_memory.py:61-67 | a second retrieval in the same run appends the block a second time |
| LongTermMemory.RetrieveSimilarHistoryMiddleware | src/memory/long_term_memory.py:26-71 | returns the same state and sets the runtime kwargs to the retrieval specification's, or fails with the search error and changes nothing |
| LongTermMemory.SaveUserMessagesMiddleware | src/memory/long_term_memory.py:73-107 | returns the same state; the collection becomes the user-save specification's |
| LongTermMemory.SaveAssistantResponseMiddleware | src/memory/long_term_memory.py:110-142 | returns the same state; the collection becomes the assistant-save specification's |
| LongTermMemory.SanitizeDanglingToolMiddleware | src/memory/long_term_memory.py:147-194 | returns the same state with its messages sanitized |
| ConversationalChain.FormatDocsEmptyIff | src/chains/faiss_conversational_chain.py:49-54 | the answer is `No relevant documents found.` iff the retriever returned no documents |
| ConversationalChain.FormatDocsSingle | src/chains/faiss_conversational_chain.py:53-54 | one document is answered as `<doc>\n` + content + `\n</doc>` |
| ConversationalChain.FormatDocsSnoc | src/chains/faiss_conversational_chain.py:53-54 | one more document appends a blank line and its block, so blocks follow retriever order |
| ConversationalChain.RetrievalTool.constructor | src/chains/faiss_conversational_chain.py:32-42 | the tool keeps the retriever it is given and has no last documents yet |
| ConversationalChain.RetrievalTool.Run | src/chains/faiss_conversational_chain.py:44-54 | `last_docs` is overwritten with the documents the search finds in the index, even none, and the answer is their formatting |
| ConversationalChain.RetrievalTool.GetLastDocs | src/chains/faiss_conversational_chain.py:56-58 | returns the documents of the latest run |
| ConversationalChain.Position | src/chains/faiss_conversational_chain.py:102-116 | each middleware kind sits at one fixed position: sanitizer, summarisation, history retrieval, user save, assistant save |
| ConversationalChain.Chain.constructor | src/chains/faiss_conversational_chain.py:63-120 | the chain uses the shared loader and index, the default retriever, a fresh tool on it, and the fixed middleware list |
| ConversationalChain.Chain.AddDocuments | src/chains/faiss_conversational_chain.py:125-147 | the registry changes as the process specification says; an upload-write exception propagates with the index untouched; no chunks: the skip message and an untouched index; chunks: all added with generated ids in batches of 10, the retriever refreshed, None returned; an index error propagates |
| ConversationalChain.Chain.IndexProcessed | src/chains/faiss_conversational_chain.py:136-147 | an exception from processing passes on untouched; no chunks give the skip message; chunks go through the add specification and only success refreshes the retriever |
| ConversationalChain.Chain.IndexChunks | src/chains/faiss_conversational_chain.py:144-147 | the chunks go in through the add specification with batches of 10; only a successful add refreshes the retriever |
| ConversationalChain.Chain.DeleteDocuments | src/chains/faiss_conversational_chain.py:149-158 | an exception from the registry delete propagates and the index is untouched; otherwise the name is unregistered, then every entry with prefix `doc_id + "_"` is deleted, leaving none |
| ConversationalChain.UploadThenDeleteLeavesNoChunk | src/chains/faiss_conversational_chain.py:125-158 | for a flat upload name, its chunks all name it; adding them keeps ids carrying file names; after deleting the name no stored chunk, and nothing retrieved from the index, names that file |
| ConversationalChain.Chain.ClearDocuments | src/chains/faiss_conversational_chain.py:160-164 | the registry is cleared, then the index is emptied and saved |
| ConversationalChain.ClearSessionAsWrittenKeepsSession | src/chains/faiss_conversational_chain.py:184-188 | as written, clearing a known session raises and the session stays cached |
| ConversationalChain.ClearSessionIntended | src/chains/faiss_conversational_chain.py:184-188 | as intended, the session is forgotten and every other session kept |
| ConversationalChain.ClearUnknownSession | src/chains/faiss_conversational_chain.py:184-188 | an unknown id is a no-op both as written and as intended |
| ConversationalChain.SessionCache.constructor | src/chains/faiss_conversational_chain.py:167 | the cache starts empty |
| ConversationalChain.SessionCache.GetConversationalChain | src/chains/faiss_conversational_chain.py:169-182 | a chain is created only for an unseen id; a seen id gets back the same chain and the cache is unchanged |
| ConversationalChain.SessionCache.ClearSession | src/chains/faiss_conversational_chain.py:184-188 | the corrected clear: the cache loses exactly that session |
| WebChatbot.SearchName | app/web_chatbot.py:260 | the leftmost position where `name='([^']+)'` matches, or none when it matches nowhere |
| WebChatbot.NameMatchMeaning | app/web_chatbot.py:260-261 | a match at a position captures exactly a non-empty quote-free name standing between `name='` and a quote |
| WebChatbot.DisplayNameOfUpload | app/web_chatbot.py:258-261 | an id containing `UploadedFile` shows the name of its first `name='...'` |
| WebChatbot.DisplayNameOfPath | app/web_chatbot.py:262-263 | any other id with a `/` shows the text after its last `/` |
| WebChatbot.DisplayNameOfPlainName | app/web_chatbot.py:262-263 | an id without `/` is shown as it is |
| WebChatbot.DisplayNameOfUploadRepr | app/web_chatbot.py:258-261 | `UploadedFile(name='a.pdf')` is shown as `a.pdf` |
| WebChatbot.StreamTextAppend | app/web_chatbot.py:385-422 | the buffer of a stream is the buffers of its parts in order, and the first exception wins |
| WebChatbot.StreamTextSingle | app/web_chatbot.py:391-422 | a one-chunk stream adds the text of that chunk's first model or tool message |
| WebChatbot.ItemsTextAppend | app/web_chatbot.py:398-402 | list content adds the `text` of its `type == "text"` items in order |
| WebChatbot.ItemsTextFails | app/web_chatbot.py:398-402 | list content raises exactly when it holds a bare string item |
| WebChatbot.ItemsFailAt | app/web_chatbot.py:399-402 | a bare string item after clean items fails the whole content with the `AttributeError` |
| WebChatbot.AppendItems | app/web_chatbot.py:399-402 | the item loop grows the buffer by exactly the content's text, or ends with the error |
| WebChatbot.AppendChunk | app/web_chatbot.py:391-422 | one chunk grows the buffer by exactly that chunk's text, or ends with its error |
| WebChatbot.ChunkIgnoresToolCalls | app/web_chatbot.py:407-412 | a chunk's text does not depend on tool calls |
| WebChatbot.StreamIgnoresToolCalls | app/web_chatbot.py:407-412 | dropping every tool call from the stream leaves the buffer unchanged, so tool-call names are never appended |
| WebChatbot.AccumulateStream | app/web_chatbot.py:375-425 | the streaming loop ends with the specified buffer, or with the exception that ends the turn |
| WebChatbot.StreamFails | app/web_chatbot.py:458-461 | a chunk that raises after a clean prefix makes the whole turn fail with its error |
| WebChatbot.StreamErrSticky | app/web_chatbot.py:375-425 | once the turn has failed, later chunks change nothing |
| WebChatbot.DedupFromMembers | app/web_chatbot.py:432-437 | the kept names are exactly the names not yet displayed |
| WebChatbot.DedupFromDistinct | app/web_chatbot.py:432-437 | no file name is listed twice |
| WebChatbot.DedupFromOrder | app/web_chatbot.py:432-437 | names are listed in the order of their first appearance |
| WebChatbot.ReferencesExact | app/web_chatbot.py:428-437 | references are the set of retrieved file names, each once, in first-appearance order, and none when nothing was retrieved |
| WebChatbot.UnknownDocumentCited | app/web_chatbot.py:434 | a retrieved document without `file_name` is cited as `Unknown document` |
| WebChatbot.ReferenceFiles | app/web_chatbot.py:427-437 | the loop with its `displayed_files` set computes exactly the reference list |
| WebChatbot.ChatSession.Respond | app/web_chatbot.py:362-461 | the prompt is recorded; on success the entry after it holds exactly the final buffer and the references of the tool's last documents; on an exception, whether raised while handling an item or by the agent's stream itself, no answer is recorded |

## Left out

- Embeddings, similarity and MMR ranking, `search` and `search_with_score`: these are floating-point numerics inside FAISS and Chroma. The retriever and Chroma's similarity search are parameters.
- The raw FAISS vector count is not modelled. When the docstore refuses existing ids, the library has already added the vectors, so the vector count drifts from the docstore. The model keeps only the docstore's view.
- The document `id` attribute and non-string metadata or text values are not modelled. Metadata and dict items are string-to-string maps.
- Repeated ids within one `delete` call are not modelled. Library-side delete is modelled as removing each listed id that is stored. The docstore's behaviour on duplicates inside one call is not modelled.
- `save(path)` with a path other than the default is not modelled. The index directory is one snapshot.
- A failure of the index's own `save_local` is not modelled. Saves succeed.
- FaissStore.FAISSVectorStore.AddDocuments: a failure of the remote embedding call inside a batch is not modelled. A batch is refused only by the library's id checks, so an embedding error part way through the batch loop (earlier batches kept in memory, unsaved, and the exception passed on) is not among the outcomes the contract allows.
- FaissStore.AddFreshIdsSucceeds: "returns True and saves" holds only when every batch's embedding call succeeds, which the model takes for granted.
- FaissStore.AddGeneratedIdsSucceeds: likewise holds only when every batch's embedding call succeeds.
- A failure of `mkdir` for the documents directory is not modelled: creating it succeeds.
- A write that fails part-way is not modelled: a failed upload or record write leaves the old file contents as they were.
- The text splitter is a parameter. Results about chunk file names assume it copies each chunk's metadata from one of its pages, as LangChain's splitters do (`SplitKeepsMetadata`).
- The retriever's search is a parameter over the index entries. Results about what a search can return assume it returns stored documents (`RetrievedFrom`).
- Only the stamped `file_name` of an upload is cut to the last `/`-segment of its name; the upload is saved under its whole name, which for `a/b.pdf` lies in a subdirectory and for a name starting with `/` lies outside the documents directory (the saved files are a set of such names, and no path resolution is modelled). The end-to-end upload-then-delete result assumes a name without `/`, which is what an uploaded file's name is.
- The `vector_store is None` branch of the batch loop and the `file_path is None` branch of `_process_file` are not modelled. Neither is reachable, since the store is always created and the name is read first.
- `pathlib` normalisation beyond the last `/` component, and non-ASCII case folding in `str.lower`, are not modelled.
- The partial effect of a directory clear that fails midway is not modelled. A failure leaves the directory as it was.
- The LLM, `create_agent`, the `SummarizationMiddleware` internals, the SQLite checkpointer, and the wiping of short-term-memory files in the chain constructor are left out: they are foreign. Only the summariser's position and configuration are kept.
- The middleware model expects the agent to hand the middlewares an object with attribute-style `messages`, `system` and `response`. With dict-style state the `getattr` defaults make every middleware see no messages.
- The `@before_model` and `@after_model` wrapping is not modelled. Each middleware is a method over the objects it touches.
- Streamlit rendering, CSS, toasts, reruns and session-state plumbing are left out. So is the `chatbot is None` early return. Clock readings are parameters.
- `Config` values are constants or parameters: `TOP_K`, the directories, and the record file path.
- Concurrency is not modelled: the code has none. The loader and index singletons are single objects passed in.
- FaissStore.FAISSVectorStore.GetRetriever: returns the retriever's configuration (search type and `k`), not a live retriever over the index.

## Findings

| source | as written | input that shows it | evidently intended | confidence | as-written member | corrected member |
|---|---|---|---|---|---|---|
| src/chains/faiss_conversational_chain.py:184-188 | `clear_session` calls `clear_memory`, which the chain class never defines, so `AttributeError` is raised before `del` runs | any session id already in `_sessions` | the session is removed from the cache, so the next request builds a new chain | high; not executed | ConversationalChain.ClearSessionAsWrittenKeepsSession | ConversationalChain.ClearSessionIntended |
