/** The FAISS vector index manager. The index is modelled by what the rest of
    the application can observe of it: the docstore ids in index order, each
    with its stored document, plus the snapshot last written to the index
    directory. Embeddings and similarity ranking are not modelled. */
module FaissStore {
  import opened Wrappers
  import opened Text
  import opened Documents
  import opened DocumentLoader

  /** The text of the single document a freshly created index holds. */
  const PlaceholderText: string := "初始化文档"

  /** What the index directory holds: nothing (absent or empty), a saved index,
      or files that `FAISS.load_local` fails to read. */
  datatype IndexDir = Missing | Stored(entries: seq<Entry>) | Corrupt

  /** What `as_retriever` is configured with. */
  datatype RetrieverConfig = RetrieverConfig(searchType: string, k: int)

  /** The index a fresh `FAISS.from_texts(["初始化文档"])` holds; its one id is
      the uuid4 the library draws for it. */
  function CreatedEntries(placeholderId: Uuid): (r: seq<Entry>)
    ensures |r| == 1 && r[0].doc.pageContent == PlaceholderText
  {
    [Entry(placeholderId, Document(PlaceholderText, map[]))]
  }

  // ---------------------------------------------------------------------
  // Adding

  /** The id generated for a document: its `file_name` (or `""`) and a uuid4,
      joined by `_`. */
  function IdFor(d: Document, u: Uuid): string
  {
    MetadataGet(d, "file_name", "") + "_" + u
  }

  /** The ids generated for `docs`, the `i`-th uuid4 drawn being `draw(i)`. */
  function GenerateIds(docs: seq<Document>, draw: nat -> Uuid): (r: seq<string>)
    ensures |r| == |docs|
  {
    seq(|docs|, i requires 0 <= i < |docs| => IdFor(docs[i], draw(i)))
  }

  /** The `ValueError` message for explicit ids of the wrong length. */
  function CountMismatch(documents: nat, ids: nat): string
  {
    "Document count (" + NatToString(documents) + ") does not match ID count ("
    + NatToString(ids) + ")"
  }

  /** The comprehension that names each document `<file_name>_<uuid4>`. */
  method NewIds(documents: seq<Document>, draw: nat -> Uuid) returns (generated: seq<string>)
    ensures generated == GenerateIds(documents, draw)
  {
    generated := [];
    var i := 0;
    while i < |documents|
      invariant 0 <= i <= |documents| && |generated| == i
      invariant forall j | 0 <= j < i :: generated[j] == IdFor(documents[j], draw(j))
    {
      var source := MetadataGet(documents[i], "file_name", "");
      var docUuid := draw(i);
      generated := generated + [source + "_" + docUuid];
      i := i + 1;
    }
  }

  /** `FAISS.add_documents(documents=docs, ids=ids)` on the library side: the
      texts and ids must pair up, the ids must be pairwise distinct, and the
      docstore refuses ids it already holds; the new entries go after the
      existing ones. */
  function LibraryAdd(entries: seq<Entry>, docs: seq<Document>, ids: seq<string>): Result<seq<Entry>>
  {
    if |docs| != |ids| then Err("Number of texts does not match number of ids")
    else if !Distinct(ids) then Err("Duplicate ids found in the ids list.")
    else if exists i | 0 <= i < |ids| :: ids[i] in Ids(entries) then Err("Tried to add ids that already exist")
    else Ok(entries + Zip(ids, docs))
  }

  /** The state reached by the batch loop: the first error raised, if any,
      and the entries as they stood when the loop ended. */
  datatype BatchRun = BatchRun(error: Option<string>, entries: seq<Entry>)

  /** The loop over `zip(batches, id_batches)`: each pair is added in turn and
      the first exception leaves the loop with the earlier batches applied. */
  function AddBatches(entries: seq<Entry>, batches: seq<seq<Document>>, idBatches: seq<seq<string>>): BatchRun
    decreases |batches|
  {
    if batches == [] || idBatches == [] then BatchRun(None, entries)
    else match LibraryAdd(entries, batches[0], idBatches[0])
      case Err(m) => BatchRun(Some(m), entries)
      case Ok(next) => AddBatches(next, batches[1..], idBatches[1..])
  }

  /** The outcome of `add_documents`: its result, the entries afterwards and
      whether the index was saved. */
  datatype AddOutcome = AddOutcome(result: Result<bool>, entries: seq<Entry>, saved: bool)

  /** `add_documents(documents, batch_size, ids)` on entries `entries`. */
  function AddDocumentsSpec(entries: seq<Entry>, documents: seq<Document>, batchSize: int,
                            ids: Option<seq<string>>, draw: nat -> Uuid): AddOutcome
  {
    if documents == [] then AddOutcome(Ok(false), entries, false)
    else
      var allIds := if ids.None? then GenerateIds(documents, draw) else ids.value;
      if |documents| != |allIds| then
        AddOutcome(Err(CountMismatch(|documents|, |allIds|)), entries, false)
      else match RangeBatches(documents, batchSize)
        case Err(m) => AddOutcome(Err(m), entries, false)
        case Ok(batches) =>
          var run := AddBatches(entries, batches, RangeBatches(allIds, batchSize).value);
          if run.error.Some? then AddOutcome(Err(run.error.value), run.entries, false)
          else AddOutcome(Ok(true), run.entries, true)
  }

  /** None of `ids` is stored in `entries`. */
  predicate Unstored(ids: seq<string>, entries: seq<Entry>)
  {
    forall i | 0 <= i < |ids| :: ids[i] !in Ids(entries)
  }

  /** Every uuid drawn differs from the last 36 characters of every stored id. */
  predicate FreshDraws(entries: seq<Entry>, n: nat, draw: nat -> Uuid)
  {
    forall i, j | 0 <= i < n && 0 <= j < |entries| ::
      |entries[j].id| < 36 || entries[j].id[|entries[j].id| - 36..] != draw(i)
  }

  /** Every generated id begins with its document's `file_name` and `_`, which
      is the prefix `delete_by_source(file_name)` looks for. */
  lemma GeneratedIdHasSourcePrefix(docs: seq<Document>, draw: nat -> Uuid, i: nat)
    requires i < |docs|
    ensures StartsWith(GenerateIds(docs, draw)[i], MetadataGet(docs[i], "file_name", "") + "_")
    ensures |GenerateIds(docs, draw)[i]| == |MetadataGet(docs[i], "file_name", "")| + 37
  {
    assert IsUuidText(draw(i));
  }

  /** Distinct uuid draws give distinct ids, whatever the file names: the
      uuid is the last 36 characters of the id. */
  lemma GeneratedIdsDistinct(docs: seq<Document>, draw: nat -> Uuid)
    requires forall i, j | 0 <= i < j < |docs| :: draw(i) != draw(j)
    ensures Distinct(GenerateIds(docs, draw))
  {
    var ids := GenerateIds(docs, draw);
    forall i, j | 0 <= i < j < |docs|
      ensures ids[i] != ids[j]
    {
      assert IsUuidText(draw(i)) && IsUuidText(draw(j));
      assert ids[i][|ids[i]| - 36..] == draw(i);
      assert ids[j][|ids[j]| - 36..] == draw(j);
    }
  }

  /** Fresh uuid draws give ids the index does not hold yet. */
  lemma GeneratedIdsFresh(entries: seq<Entry>, docs: seq<Document>, draw: nat -> Uuid)
    requires FreshDraws(entries, |docs|, draw)
    ensures Unstored(GenerateIds(docs, draw), entries)
  {
    var ids := GenerateIds(docs, draw);
    forall i | 0 <= i < |docs|
      ensures ids[i] !in Ids(entries)
    {
      assert IsUuidText(draw(i));
      assert ids[i][|ids[i]| - 36..] == draw(i);
      forall j | 0 <= j < |entries|
        ensures entries[j].id != ids[i]
      {
      }
    }
  }

  /** The first batch and the batches after it. */
  lemma ChunksUnfold<T>(s: seq<T>, k: nat)
    requires k > 0 && |s| > 0
    ensures var n := if |s| <= k then |s| else k;
            Chunks(s, k) == [s[..n]] + Chunks(s[n..], k)
  {
    if |s| <= k {
      assert s[..|s|] == s;
      assert Chunks(s[|s|..], k) == [];
    }
  }

  /** A batch that goes in is followed by the batches after it. */
  lemma AddBatchesStep(entries: seq<Entry>, b: seq<Document>, bs: seq<seq<Document>>,
                       ib: seq<string>, ibs: seq<seq<string>>, next: seq<Entry>)
    requires LibraryAdd(entries, b, ib) == Ok(next)
    ensures AddBatches(entries, [b] + bs, [ib] + ibs) == AddBatches(next, bs, ibs)
  {
    assert ([b] + bs)[1..] == bs && ([ib] + ibs)[1..] == ibs;
  }

  /** A first batch of distinct, unstored ids goes in; the ids after it are
      still unstored afterwards. */
  lemma AddFirstBatch(entries: seq<Entry>, docs: seq<Document>, ids: seq<string>, n: nat)
    requires n <= |docs| == |ids|
    requires Distinct(ids)
    requires Unstored(ids, entries)
    ensures LibraryAdd(entries, docs[..n], ids[..n]) == Ok(entries + Zip(ids[..n], docs[..n]))
    ensures Distinct(ids[n..])
    ensures Unstored(ids[n..], entries + Zip(ids[..n], docs[..n]))
  {
    var next := entries + Zip(ids[..n], docs[..n]);
    forall i | 0 <= i < |ids[n..]|
      ensures ids[n..][i] !in Ids(next)
    {
      forall j | 0 <= j < |next|
        ensures next[j].id != ids[n + i]
      {
        if j >= |entries| {
          assert next[j].id == ids[j - |entries|];
        } else {
          assert next[j].id == Ids(entries)[j];
        }
      }
    }
  }

  /** The first batch goes in and the loop carries on with the rest. */
  lemma AddBatchesFirst(entries: seq<Entry>, docs: seq<Document>, ids: seq<string>, k: nat)
    requires k > 0 && 0 < |docs| == |ids|
    requires Distinct(ids) && Unstored(ids, entries)
    ensures var n := if |docs| <= k then |docs| else k;
            AddBatches(entries, Chunks(docs, k), Chunks(ids, k))
            == AddBatches(entries + Zip(ids[..n], docs[..n]), Chunks(docs[n..], k), Chunks(ids[n..], k))
  {
    var n := if |docs| <= k then |docs| else k;
    ChunksUnfold(docs, k);
    ChunksUnfold(ids, k);
    AddFirstBatch(entries, docs, ids, n);
    AddBatchesStep(entries, docs[..n], Chunks(docs[n..], k), ids[..n], Chunks(ids[n..], k),
                   entries + Zip(ids[..n], docs[..n]));
  }

  /** The entries of the first batch followed by those of the rest are the
      entries of the whole. */
  lemma ZipSplit(entries: seq<Entry>, docs: seq<Document>, ids: seq<string>, n: nat)
    requires n <= |docs| == |ids|
    ensures (entries + Zip(ids[..n], docs[..n])) + Zip(ids[n..], docs[n..]) == entries + Zip(ids, docs)
  {
    var l := (entries + Zip(ids[..n], docs[..n])) + Zip(ids[n..], docs[n..]);
    var r := entries + Zip(ids, docs);
    assert |l| == |r|;
    forall i | 0 <= i < |l|
      ensures l[i] == r[i]
    {
      var m := |entries|;
      if i < m {
        assert l[i] == entries[i];
      } else if i < m + n {
        assert l[i] == Zip(ids[..n], docs[..n])[i - m];
      } else {
        assert l[i] == Zip(ids[n..], docs[n..])[i - m - n];
      }
    }
  }

  /** Batches cut at the same places, with distinct ids none of which is
      stored yet, all go in: every document lands under its own id after the
      existing entries. */
  lemma {:induction false} AddBatchesFresh(entries: seq<Entry>, docs: seq<Document>, ids: seq<string>, k: nat)
    requires k > 0 && |docs| == |ids|
    requires Distinct(ids) && Unstored(ids, entries)
    ensures AddBatches(entries, Chunks(docs, k), Chunks(ids, k)) == BatchRun(None, entries + Zip(ids, docs))
    decreases |docs|
  {
    if |docs| == 0 {
      assert entries + Zip(ids, docs) == entries;
    } else {
      var n := if |docs| <= k then |docs| else k;
      AddFirstBatch(entries, docs, ids, n);
      AddBatchesFirst(entries, docs, ids, k);
      AddBatchesFresh(entries + Zip(ids[..n], docs[..n]), docs[n..], ids[n..], k);
      ZipSplit(entries, docs, ids, n);
    }
  }

  /** Ids of the right number, pairwise distinct and not yet stored, with a
      positive batch size: `add_documents` returns True, appends every
      document under its own id in order, and saves. */
  lemma AddFreshIdsSucceeds(entries: seq<Entry>, documents: seq<Document>, batchSize: int,
                            ids: seq<string>, draw: nat -> Uuid)
    requires documents != [] && batchSize > 0 && |ids| == |documents|
    requires Distinct(ids) && Unstored(ids, entries)
    ensures AddDocumentsSpec(entries, documents, batchSize, Some(ids), draw)
            == AddOutcome(Ok(true), entries + Zip(ids, documents), true)
  {
    AddBatchesFresh(entries, documents, ids, batchSize);
  }

  /** With generated ids whose uuids are pairwise distinct and fresh, every
      document is stored under `file_name + "_" + uuid`, after the existing
      entries, and the index is saved. */
  lemma AddGeneratedIdsSucceeds(entries: seq<Entry>, documents: seq<Document>, batchSize: int,
                                draw: nat -> Uuid)
    requires documents != [] && batchSize > 0
    requires forall i, j | 0 <= i < j < |documents| :: draw(i) != draw(j)
    requires FreshDraws(entries, |documents|, draw)
    ensures AddDocumentsSpec(entries, documents, batchSize, None, draw)
            == AddOutcome(Ok(true), entries + Zip(GenerateIds(documents, draw), documents), true)
  {
    GeneratedIdsDistinct(documents, draw);
    GeneratedIdsFresh(entries, documents, draw);
    AddBatchesFresh(entries, documents, GenerateIds(documents, draw), batchSize);
  }

  /** An empty list is refused with False and leaves the index alone. */
  lemma AddNothing(entries: seq<Entry>, batchSize: int, ids: Option<seq<string>>, draw: nat -> Uuid)
    ensures AddDocumentsSpec(entries, [], batchSize, ids, draw) == AddOutcome(Ok(false), entries, false)
  {
  }

  /** Explicit ids of the wrong length raise `ValueError` before any batch
      reaches the index. */
  lemma AddMismatchedIds(entries: seq<Entry>, documents: seq<Document>, batchSize: int,
                         ids: seq<string>, draw: nat -> Uuid)
    requires documents != [] && |ids| != |documents|
    ensures AddDocumentsSpec(entries, documents, batchSize, Some(ids), draw)
            == AddOutcome(Err(CountMismatch(|documents|, |ids|)), entries, false)
  {
  }

  /** A negative batch size yields no batches: nothing is added, yet the index
      is saved and True is returned. */
  lemma AddNegativeBatchSize(entries: seq<Entry>, documents: seq<Document>, batchSize: int,
                             ids: Option<seq<string>>, draw: nat -> Uuid)
    requires documents != [] && batchSize < 0
    requires ids.Some? ==> |ids.value| == |documents|
    ensures AddDocumentsSpec(entries, documents, batchSize, ids, draw) == AddOutcome(Ok(true), entries, true)
  {
  }

  /** A failing batch leaves the earlier batches in the index but unsaved:
      whatever the outcome, the entries only grow at the end, and unless the
      call returns True the saved snapshot is not rewritten. */
  lemma {:induction false} AddBatchesExtends(entries: seq<Entry>, batches: seq<seq<Document>>, idBatches: seq<seq<string>>)
    ensures entries <= AddBatches(entries, batches, idBatches).entries
    decreases |batches|
  {
    if batches != [] && idBatches != [] {
      match LibraryAdd(entries, batches[0], idBatches[0])
      case Err(_) =>
      case Ok(next) =>
        AddBatchesExtends(next, batches[1..], idBatches[1..]);
    }
  }

  /** `add_documents` never removes or reorders what the index held, and it
      saves exactly when it returns True. */
  lemma AddOnlyAppends(entries: seq<Entry>, documents: seq<Document>, batchSize: int,
                       ids: Option<seq<string>>, draw: nat -> Uuid)
    ensures entries <= AddDocumentsSpec(entries, documents, batchSize, ids, draw).entries
    ensures AddDocumentsSpec(entries, documents, batchSize, ids, draw).saved
            <==> AddDocumentsSpec(entries, documents, batchSize, ids, draw).result == Ok(true)
  {
    if documents != [] {
      var allIds := if ids.None? then GenerateIds(documents, draw) else ids.value;
      if |documents| == |allIds| && batchSize != 0 {
        AddBatchesExtends(entries, RangeBatches(documents, batchSize).value, RangeBatches(allIds, batchSize).value);
      }
    }
  }

  /** The library keeps docstore ids unique across additions. */
  lemma LibraryAddKeepsIdsDistinct(entries: seq<Entry>, docs: seq<Document>, ids: seq<string>)
    requires DistinctIds(entries)
    requires LibraryAdd(entries, docs, ids).Ok?
    ensures DistinctIds(LibraryAdd(entries, docs, ids).value)
  {
    var r := LibraryAdd(entries, docs, ids).value;
    forall i, j | 0 <= i < j < |r|
      ensures r[i].id != r[j].id
    {
      if j >= |entries| && i < |entries| {
        assert r[j].id == ids[j - |entries|];
        assert r[i].id == Ids(entries)[i];
      } else if i >= |entries| {
        assert r[i].id == ids[i - |entries|];
        assert r[j].id == ids[j - |entries|];
      }
    }
  }

  // ---------------------------------------------------------------------
  // Deleting

  /** The entries whose ids are not in `drop`, in index order. */
  function Without(entries: seq<Entry>, drop: seq<string>): seq<Entry>
  {
    if entries == [] then []
    else (if entries[0].id in drop then [] else [entries[0]]) + Without(entries[1..], drop)
  }

  /** `FAISS.delete(ids)` on the library side: every id must be stored; the
      index is then renumbered without them. */
  function LibraryDelete(entries: seq<Entry>, ids: seq<string>): Result<seq<Entry>>
  {
    if exists i | 0 <= i < |ids| :: ids[i] !in Ids(entries)
    then Err("Some specified ids do not exist in the current store.")
    else Ok(Without(entries, ids))
  }

  /** The outcome of `delete` and `delete_by_source`: the boolean returned,
      the entries afterwards and whether the index was saved. */
  datatype DeleteOutcome = DeleteOutcome(ok: bool, entries: seq<Entry>, saved: bool)

  /** `delete(ids)`: an empty list is refused; a library failure is caught
      and reported as False with nothing changed. */
  function DeleteSpec(entries: seq<Entry>, ids: seq<string>): DeleteOutcome
  {
    if ids == [] then DeleteOutcome(false, entries, false)
    else match LibraryDelete(entries, ids)
      case Err(_) => DeleteOutcome(false, entries, false)
      case Ok(rest) => DeleteOutcome(true, rest, true)
  }

  /** The ids, in order, that begin with `docId + "_"`. */
  function SourceMatches(ids: seq<string>, docId: string): seq<string>
  {
    if ids == [] then []
    else (if StartsWith(ids[0], docId + "_") then [ids[0]] else []) + SourceMatches(ids[1..], docId)
  }

  /** `delete_by_source(doc_id)`. */
  function DeleteBySourceSpec(entries: seq<Entry>, docId: string): DeleteOutcome
  {
    if docId == "" then DeleteOutcome(false, entries, false)
    else
      var matches := SourceMatches(Ids(entries), docId);
      if matches == [] then DeleteOutcome(false, entries, false)
      else match LibraryDelete(entries, matches)
        case Err(_) => DeleteOutcome(false, entries, false)
        case Ok(rest) => DeleteOutcome(true, rest, true)
  }

  /** An entry survives the filter iff it was there and its id is not dropped. */
  lemma {:induction false} WithoutMembers(entries: seq<Entry>, drop: seq<string>)
    ensures forall e :: e in Without(entries, drop) <==> e in entries && e.id !in drop
    ensures |Without(entries, drop)| <= |entries|
  {
    if entries != [] {
      WithoutMembers(entries[1..], drop);
      assert entries == [entries[0]] + entries[1..];
    }
  }

  /** Dropping ids keeps the remaining ids unique. */
  lemma {:induction false} WithoutKeepsIdsDistinct(entries: seq<Entry>, drop: seq<string>)
    requires DistinctIds(entries)
    ensures DistinctIds(Without(entries, drop))
  {
    if entries != [] {
      WithoutKeepsIdsDistinct(entries[1..], drop);
      WithoutMembers(entries[1..], drop);
      var w := Without(entries, drop);
      var t := Without(entries[1..], drop);
      if entries[0].id !in drop {
        forall j | 0 < j < |w|
          ensures w[0].id != w[j].id
        {
          assert w[j] == t[j - 1];
          assert w[j] in entries[1..];
          var m :| 0 <= m < |entries[1..]| && entries[1..][m] == w[j];
          assert entries[m + 1] == w[j];
        }
      }
    }
  }

  /** The matching ids are exactly the ids carrying the prefix. */
  lemma {:induction false} SourceMatchesMembers(ids: seq<string>, docId: string)
    ensures forall x :: x in SourceMatches(ids, docId) <==> x in ids && StartsWith(x, docId + "_")
  {
    if ids != [] {
      SourceMatchesMembers(ids[1..], docId);
      assert ids == [ids[0]] + ids[1..];
    }
  }

  /** `delete([])` is False and changes nothing; a non-empty list deletes
      exactly the listed ids when all of them are stored, and otherwise
      changes nothing. */
  lemma DeleteExact(entries: seq<Entry>, ids: seq<string>)
    ensures ids == [] ==> DeleteSpec(entries, ids) == DeleteOutcome(false, entries, false)
    ensures DeleteSpec(entries, ids).ok <==> ids != [] && forall x | x in ids :: x in Ids(entries)
    ensures DeleteSpec(entries, ids).ok ==>
              forall e :: e in DeleteSpec(entries, ids).entries <==> e in entries && e.id !in ids
    ensures !DeleteSpec(entries, ids).ok ==> DeleteSpec(entries, ids) == DeleteOutcome(false, entries, false)
  {
    WithoutMembers(entries, ids);
    if forall x | x in ids :: x in Ids(entries) {
      assert !exists i | 0 <= i < |ids| :: ids[i] !in Ids(entries);
    } else {
      var x :| x in ids && x !in Ids(entries);
      var i :| 0 <= i < |ids| && ids[i] == x;
    }
  }

  /** `delete_by_source(d)` removes exactly the entries whose ids begin with
      `d + "_"`, keeps every other entry, and returns True iff there was one. */
  lemma DeleteBySourceExact(entries: seq<Entry>, docId: string)
    ensures var o := DeleteBySourceSpec(entries, docId);
      && (o.ok <==> docId != "" && exists e | e in entries :: StartsWith(e.id, docId + "_"))
      && (o.ok ==> o.saved && forall e :: e in o.entries <==> e in entries && !StartsWith(e.id, docId + "_"))
      && (!o.ok ==> o == DeleteOutcome(false, entries, false))
  {
    var matches := SourceMatches(Ids(entries), docId);
    PrefixedEntries(entries, docId);
    if docId != "" && matches != [] {
      assert forall i | 0 <= i < |matches| :: matches[i] in Ids(entries);
      assert LibraryDelete(entries, matches) == Ok(Without(entries, matches));
      WithoutMembers(entries, matches);
      forall e
        ensures e in Without(entries, matches) <==> e in entries && !StartsWith(e.id, docId + "_")
      {
      }
    }
  }

  /** The matches are stored ids, they are exactly the ids of the entries
      that carry the prefix, and there is one iff such an entry exists. */
  lemma PrefixedEntries(entries: seq<Entry>, docId: string)
    ensures var matches := SourceMatches(Ids(entries), docId);
      && (forall x | x in matches :: x in Ids(entries))
      && (forall e | e in entries :: e.id in matches <==> StartsWith(e.id, docId + "_"))
      && (matches != [] <==> exists e | e in entries :: StartsWith(e.id, docId + "_"))
  {
    var matches := SourceMatches(Ids(entries), docId);
    SourceMatchesMembers(Ids(entries), docId);
    forall e | e in entries
      ensures e.id in Ids(entries)
    {
      var m :| 0 <= m < |entries| && entries[m] == e;
      assert Ids(entries)[m] == e.id;
    }
    if matches != [] {
      assert matches[0] in matches;
      var j :| 0 <= j < |Ids(entries)| && Ids(entries)[j] == matches[0];
      assert entries[j] in entries;
    }
  }

  /** No stored id carries the prefix any more after `delete_by_source`. */
  lemma DeleteBySourceLeavesNoMatch(entries: seq<Entry>, docId: string)
    ensures forall e | e in DeleteBySourceSpec(entries, docId).entries ::
              docId == "" || !StartsWith(e.id, docId + "_")
  {
    DeleteBySourceExact(entries, docId);
  }

  /** A uuid4 contains no `_`, so the placeholder of a fresh index survives
      every `delete_by_source`. */
  lemma PlaceholderSurvivesDeleteBySource(placeholderId: Uuid, entries: seq<Entry>, docId: string)
    requires Entry(placeholderId, Document(PlaceholderText, map[])) in entries
    ensures Entry(placeholderId, Document(PlaceholderText, map[])) in DeleteBySourceSpec(entries, docId).entries
  {
    DeleteBySourceExact(entries, docId);
    var p := docId + "_";
    assert !StartsWith(placeholderId, p) by {
      assert IsUuidText(placeholderId);
      assert |p| <= |placeholderId| ==> placeholderId[|p| - 1] != p[|p| - 1];
    }
  }

  /** Prefix matching reaches across files: deleting source `a.pdf` also
      deletes the chunks of a file named `a.pdf_b.pdf`. */
  lemma DeleteBySourceCrossFile(u: Uuid, v: Uuid)
    ensures var entries := [Entry("a.pdf_" + u, Document("x", map[])),
                            Entry("a.pdf_b.pdf_" + v, Document("y", map[]))];
            DeleteBySourceSpec(entries, "a.pdf") == DeleteOutcome(true, [], true)
  {
    var entries := [Entry("a.pdf_" + u, Document("x", map[])),
                    Entry("a.pdf_b.pdf_" + v, Document("y", map[]))];
    var ids := [entries[0].id, entries[1].id];
    assert StartsWith(ids[0], "a.pdf_") && StartsWith(ids[1], "a.pdf_");
    assert Ids(entries) == ids;
    assert SourceMatches(ids, "a.pdf") == ids by {
      assert ids[1..] == [ids[1]] && ids[1..][1..] == [];
      assert SourceMatches(ids[1..], "a.pdf") == [ids[1]] + SourceMatches([], "a.pdf");
    }
    assert Without(entries, ids) == [] by {
      assert entries[1..] == [entries[1]] && entries[1..][1..] == [];
      assert Without(entries[1..], ids) == [] + Without([], ids);
    }
  }

  // ---------------------------------------------------------------------
  // File names in ids

  /** A document that names its file is stored under an id that begins with
      that name and `_`, as the ids `add_documents` generates do. */
  predicate CarriesFileName(e: Entry)
  {
    "file_name" in e.doc.metadata ==> StartsWith(e.id, e.doc.metadata["file_name"] + "_")
  }

  /** Every entry carries its file name in its id. */
  predicate IdsCarryFileNames(entries: seq<Entry>)
  {
    forall e | e in entries :: CarriesFileName(e)
  }

  /** Every document was retrieved from one of the entries. */
  predicate RetrievedFrom(docs: seq<Document>, entries: seq<Entry>)
  {
    forall d | d in docs :: exists e | e in entries :: e.doc == d
  }

  /** A fresh index holds only the placeholder, which names no file. */
  lemma CreatedEntriesCarry(placeholderId: Uuid)
    ensures IdsCarryFileNames(CreatedEntries(placeholderId))
  {
    var e := CreatedEntries(placeholderId)[0];
    assert "file_name" !in e.doc.metadata;
  }

  /** Each document paired with its generated id carries its file name. */
  lemma GeneratedEntriesCarry(docs: seq<Document>, draw: nat -> Uuid)
    ensures forall i | 0 <= i < |docs| :: CarriesFileName(Entry(GenerateIds(docs, draw)[i], docs[i]))
  {
    forall i | 0 <= i < |docs|
      ensures CarriesFileName(Entry(GenerateIds(docs, draw)[i], docs[i]))
    {
      GeneratedIdHasSourcePrefix(docs, draw, i);
    }
  }

  /** Batches cut at the same places from documents and ids that pair up
      into carrying entries keep every entry carrying, however far the loop
      gets. */
  lemma {:induction false} AddBatchesKeepCarry(entries: seq<Entry>, docs: seq<Document>, ids: seq<string>, k: nat)
    requires k > 0 && |docs| == |ids|
    requires IdsCarryFileNames(entries)
    requires forall i | 0 <= i < |docs| :: CarriesFileName(Entry(ids[i], docs[i]))
    ensures IdsCarryFileNames(AddBatches(entries, Chunks(docs, k), Chunks(ids, k)).entries)
    decreases |docs|
  {
    if |docs| > 0 {
      var n := if |docs| <= k then |docs| else k;
      ChunksUnfold(docs, k);
      ChunksUnfold(ids, k);
      match LibraryAdd(entries, docs[..n], ids[..n])
      case Err(_) =>
      case Ok(next) =>
        AddBatchesStep(entries, docs[..n], Chunks(docs[n..], k), ids[..n], Chunks(ids[n..], k), next);
        assert next == entries + Zip(ids[..n], docs[..n]);
        forall e | e in next
          ensures CarriesFileName(e)
        {
          var j :| 0 <= j < |next| && next[j] == e;
          if j >= |entries| {
            assert e == Entry(ids[j - |entries|], docs[j - |entries|]);
          }
        }
        forall i | 0 <= i < |docs[n..]|
          ensures CarriesFileName(Entry(ids[n..][i], docs[n..][i]))
        {
          assert ids[n..][i] == ids[n + i] && docs[n..][i] == docs[n + i];
        }
        AddBatchesKeepCarry(next, docs[n..], ids[n..], k);
    }
  }

  /** `add_documents` with generated ids keeps every entry carrying its file
      name, whether it succeeds, fails part-way or refuses the call. */
  lemma AddGeneratedKeepsCarry(entries: seq<Entry>, documents: seq<Document>, batchSize: int,
                               draw: nat -> Uuid)
    requires IdsCarryFileNames(entries)
    ensures IdsCarryFileNames(AddDocumentsSpec(entries, documents, batchSize, None, draw).entries)
  {
    if documents != [] && batchSize > 0 {
      GeneratedEntriesCarry(documents, draw);
      AddBatchesKeepCarry(entries, documents, GenerateIds(documents, draw), batchSize);
    }
  }

  /** After `delete_by_source(d)` on carrying entries, no stored document
      names the file `d`, and every entry left still carries. */
  lemma DeletedFileNotStored(entries: seq<Entry>, docId: string)
    requires docId != "" && IdsCarryFileNames(entries)
    ensures var rest := DeleteBySourceSpec(entries, docId).entries;
      && IdsCarryFileNames(rest)
      && forall e | e in rest :: MetadataGet(e.doc, "file_name", "") != docId
  {
    DeleteBySourceExact(entries, docId);
    var rest := DeleteBySourceSpec(entries, docId).entries;
    forall e | e in rest
      ensures CarriesFileName(e) && MetadataGet(e.doc, "file_name", "") != docId
    {
      assert e in entries && !StartsWith(e.id, docId + "_");
    }
  }

  /** Nothing retrieved after `delete_by_source(d)` names the file `d`. */
  lemma DeletedFileNotRetrieved(entries: seq<Entry>, docId: string, docs: seq<Document>)
    requires docId != "" && IdsCarryFileNames(entries)
    requires RetrievedFrom(docs, DeleteBySourceSpec(entries, docId).entries)
    ensures forall d | d in docs :: MetadataGet(d, "file_name", "") != docId
  {
    DeletedFileNotStored(entries, docId);
  }

  // ---------------------------------------------------------------------
  // The manager

  class FAISSVectorStore {
    /** The docstore ids in index order, each with its document. */
    var entries: seq<Entry>
    /** The contents of the index directory. */
    var disk: IndexDir
    /** `Config.TOP_K`. */
    const topK: int

    /** `__init__` through `_load_or_create_vector_store`: a readable saved
        index is loaded as it is; an absent, empty or unreadable one is
        replaced by a fresh index holding only the placeholder, which is
        saved at once. */
    constructor(dir: IndexDir, placeholderId: Uuid, topK: int)
      ensures this.topK == topK
      ensures dir.Stored? ==> entries == dir.entries && disk == dir
      ensures !dir.Stored? ==> entries == CreatedEntries(placeholderId) && disk == Stored(entries)
    {
      this.topK := topK;
      if dir.Stored? {
        entries := dir.entries;
        disk := dir;
      } else {
        entries := CreatedEntries(placeholderId);
        disk := Stored(CreatedEntries(placeholderId));
      }
    }

    /** `get_retriever(k)`: MMR search with `k or TOP_K` results. */
    function GetRetriever(k: Option<int>): (r: RetrieverConfig)
      ensures r.searchType == "mmr"
      ensures k.Some? && k.value != 0 ==> r.k == k.value
      ensures k.None? || k.value == 0 ==> r.k == topK
    {
      RetrieverConfig("mmr", if k.Some? && k.value != 0 then k.value else topK)
    }

    /** `save()`: the snapshot becomes the in-memory index. */
    method Save()
      modifies this`disk
      ensures disk == Stored(entries)
    {
      disk := Stored(entries);
    }

    /** `add_documents(documents, batch_size, ids)`; `loader` is the document
        loader service that cuts the batches, `draw(i)` the `i`-th uuid4. */
    method AddDocuments(loader: DocumentLoaderService, documents: seq<Document>, batchSize: int,
                        ids: Option<seq<string>>, draw: nat -> Uuid)
      returns (r: Result<bool>)
      modifies this
      ensures var o := AddDocumentsSpec(old(entries), documents, batchSize, ids, draw);
        && r == o.result && entries == o.entries
        && disk == (if o.saved then Stored(entries) else old(disk))
    {
      if documents == [] {
        return Ok(false);
      }
      var allIds: seq<string>;
      if ids.None? {
        allIds := NewIds(documents, draw);
      } else {
        allIds := ids.value;
      }
      if |documents| != |allIds| {
        return Err(CountMismatch(|documents|, |allIds|));
      }
      var batches := loader.BatchProcessDocuments(documents, batchSize);
      if batches.Err? {
        return Err(batches.error);
      }
      var failure := RunBatches(batches.value, RangeBatches(allIds, batchSize).value);
      if failure.Some? {
        return Err(failure.value);
      }
      Save();
      return Ok(true);
    }

    /** The batch loop of `add_documents`: each batch goes to the library in
        turn, and the first one it refuses ends the loop with its message. */
    method RunBatches(batches: seq<seq<Document>>, idBatches: seq<seq<string>>) returns (failure: Option<string>)
      modifies this
      ensures var run := AddBatches(old(entries), batches, idBatches);
        && failure == run.error && entries == run.entries
      ensures disk == old(disk)
    {
      var k := 0;
      while k < |batches| && k < |idBatches|
        invariant 0 <= k <= |batches| && k <= |idBatches|
        invariant AddBatches(entries, batches[k..], idBatches[k..]) == AddBatches(old(entries), batches, idBatches)
        invariant disk == old(disk)
      {
        match LibraryAdd(entries, batches[k], idBatches[k])
        case Err(m) =>
          return Some(m);
        case Ok(next) =>
          assert batches[k..][1..] == batches[k + 1..];
          assert idBatches[k..][1..] == idBatches[k + 1..];
          entries := next;
        k := k + 1;
      }
      return None;
    }

    /** `delete(ids)`. */
    method Delete(ids: seq<string>) returns (ok: bool)
      modifies this
      ensures var o := DeleteSpec(old(entries), ids);
        && ok == o.ok && entries == o.entries
        && disk == (if o.saved then Stored(entries) else old(disk))
    {
      if ids == [] {
        return false;
      }
      match LibraryDelete(entries, ids)
      case Err(_) =>
        ok := false;
      case Ok(rest) =>
        entries := rest;
        Save();
        ok := true;
    }

    /** `delete_by_source(doc_id)`: collect the ids beginning with
        `doc_id + "_"` and delete them. */
    method DeleteBySource(docId: string) returns (ok: bool)
      modifies this
      ensures var o := DeleteBySourceSpec(old(entries), docId);
        && ok == o.ok && entries == o.entries
        && disk == (if o.saved then Stored(entries) else old(disk))
    {
      if docId == "" {
        return false;
      }
      var allIds := Ids(entries);
      var idsToDelete: seq<string> := [];
      var i := 0;
      while i < |allIds|
        invariant 0 <= i <= |allIds|
        invariant entries == old(entries) && disk == old(disk)
        invariant idsToDelete + SourceMatches(allIds[i..], docId) == SourceMatches(allIds, docId)
      {
        assert allIds[i..][1..] == allIds[i + 1..];
        if StartsWith(allIds[i], docId + "_") {
          idsToDelete := idsToDelete + [allIds[i]];
        }
        i := i + 1;
      }
      assert allIds[i..] == [];
      assert idsToDelete == SourceMatches(Ids(old(entries)), docId);
      if idsToDelete == [] {
        return false;
      }
      match LibraryDelete(entries, idsToDelete)
      case Err(_) =>
        ok := false;
      case Ok(rest) =>
        entries := rest;
        Save();
        ok := true;
    }

    /** `clear()`: the index, the id mapping and the docstore are emptied, with
        no placeholder put back, and the empty index is saved. */
    method Clear()
      modifies this
      ensures entries == [] && disk == Stored([])
    {
      entries := [];
      Save();
    }
  }
}
