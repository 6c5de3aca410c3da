/** The document loading service: the file-type whitelist, the metadata it
    stamps on loaded pages, batching, and the processed-document registry kept
    in a newline-separated record file beside a directory of saved uploads. */
module DocumentLoader {
  import opened Wrappers
  import opened Text
  import opened Documents

  // ---------------------------------------------------------------------
  // File types and loading

  /** The loader classes named in `SUPPORTED_LOADERS`. */
  datatype LoaderKind = PyPDFLoader | Docx2txtLoader | TextLoader

  /** The keys of `SUPPORTED_LOADERS`, in declaration order. */
  const SupportedSuffixes: seq<string> := [".pdf", ".docx", ".doc", ".txt", ".html", ".htm", ".md"]

  /** `SUPPORTED_LOADERS.get(suffix)`. */
  function LoaderFor(suffix: string): Option<LoaderKind>
  {
    if suffix == ".pdf" then Some(PyPDFLoader)
    else if suffix == ".docx" || suffix == ".doc" then Some(Docx2txtLoader)
    else if suffix == ".txt" || suffix == ".html" || suffix == ".htm" || suffix == ".md" then Some(TextLoader)
    else None
  }

  /** A loader exists exactly for the seven whitelisted suffixes. */
  lemma LoaderForWhitelist(suffix: string)
    ensures LoaderFor(suffix).Some? <==> suffix in SupportedSuffixes
  {
  }

  /** The foreign parts of `load_document`: a loader class reading the file at
      a path (`None` when it raises) and the text splitter. */
  datatype Parsers = Parsers(
    load: (LoaderKind, string) -> Option<seq<Document>>,
    split: seq<Document> -> seq<Document>)

  /** The message of the `ValueError` for an unsupported suffix. */
  function UnsupportedMessage(suffix: string): string
  {
    "Unsupported file type: " + suffix
    + ", supported types: ['.pdf', '.docx', '.doc', '.txt', '.html', '.htm', '.md']"
  }

  /** `Path(file_path).suffix.lower()`. */
  function FileType(filePath: string): string
  {
    Lower(Suffix(PathName(filePath)))
  }

  /** The `metadata.update` that `load_document` applies to every loaded page. */
  function Tag(docs: seq<Document>, filePath: string): (r: seq<Document>)
    ensures |r| == |docs|
  {
    seq(|docs|, i requires 0 <= i < |docs| => Stamp(docs[i], filePath, PathName(filePath), FileType(filePath)))
  }

  /** One page's metadata after the update with `source`, `file_name` and
      `file_type`. */
  function Stamp(d: Document, source: string, name: string, fileType: string): Document
  {
    d.(metadata := d.metadata["source" := source]["file_name" := name]["file_type" := fileType])
  }

  /** `load_document(file_path)`: reject an unsupported suffix, else load the
      file with the suffix's loader, stamp the metadata and split into chunks.
      `Err` stands for the exception raised by the check or by the loader. */
  function LoadDocument(filePath: string, parsers: Parsers): Result<seq<Document>>
  {
    var suffix := FileType(filePath);
    match LoaderFor(suffix)
    case None => Err(UnsupportedMessage(suffix))
    case Some(kind) =>
      match parsers.load(kind, filePath)
      case None => Err("loader raised while reading " + filePath)
      case Some(docs) => Ok(parsers.split(Tag(docs, filePath)))
  }

  /** An unsupported suffix is rejected with `ValueError` before any loader
      runs: the outcome is the same whatever the loaders and splitter do. */
  lemma UnsupportedRejectedBeforeLoading(filePath: string, p1: Parsers, p2: Parsers)
    requires FileType(filePath) !in SupportedSuffixes
    ensures LoadDocument(filePath, p1) == LoadDocument(filePath, p2)
              == Err(UnsupportedMessage(FileType(filePath)))
  {
    LoaderForWhitelist(FileType(filePath));
  }

  /** Loading succeeds only for a whitelisted suffix, and then the chunks are
      the splitter's output on the pages the suffix's loader produced, stamped. */
  lemma LoadedOnlyWhenSupported(filePath: string, parsers: Parsers)
    ensures LoadDocument(filePath, parsers).Ok? ==>
      && FileType(filePath) in SupportedSuffixes
      && parsers.load(LoaderFor(FileType(filePath)).value, filePath).Some?
      && LoadDocument(filePath, parsers).value
         == parsers.split(Tag(parsers.load(LoaderFor(FileType(filePath)).value, filePath).value, filePath))
  {
    LoaderForWhitelist(FileType(filePath));
  }

  /** Every loaded page gets `file_name` = the last path component and
      `file_type` = the lower-cased suffix; its text and its other metadata
      keys are kept. */
  lemma TagStampsMetadata(docs: seq<Document>, filePath: string, i: nat, key: string)
    requires i < |docs|
    ensures Tag(docs, filePath)[i].pageContent == docs[i].pageContent
    ensures MetadataGet(Tag(docs, filePath)[i], "file_name", "") == PathName(filePath)
    ensures MetadataGet(Tag(docs, filePath)[i], "file_type", "") == FileType(filePath)
    ensures MetadataGet(Tag(docs, filePath)[i], "source", "") == filePath
    ensures key != "file_name" && key != "file_type" && key != "source" ==>
              MetadataGet(Tag(docs, filePath)[i], key, "") == MetadataGet(docs[i], key, "")
  {
    assert Tag(docs, filePath)[i] == Stamp(docs[i], filePath, PathName(filePath), FileType(filePath));
    StampKeys(docs[i], filePath, PathName(filePath), FileType(filePath), key);
  }

  /** The three stamped keys take their new values; every other key keeps
      its old one. */
  lemma StampKeys(d: Document, source: string, name: string, fileType: string, key: string)
    ensures Stamp(d, source, name, fileType).pageContent == d.pageContent
    ensures MetadataGet(Stamp(d, source, name, fileType), "file_name", "") == name
    ensures "file_name" in Stamp(d, source, name, fileType).metadata
    ensures MetadataGet(Stamp(d, source, name, fileType), "file_type", "") == fileType
    ensures MetadataGet(Stamp(d, source, name, fileType), "source", "") == source
    ensures key != "file_name" && key != "file_type" && key != "source" ==>
              MetadataGet(Stamp(d, source, name, fileType), key, "") == MetadataGet(d, key, "")
  {
    assert "source"[0] != "file_name"[0] && "source"[0] != "file_type"[0];
    assert "file_name"[5] != "file_type"[5];
  }

  /** A file saved as `<dir>/<name>` is named by the last component of the
      upload's name. */
  lemma SavedFileName(dir: string, name: string)
    ensures PathName(dir + "/" + name) == LastSegment(name, '/')
  {
    LastSegmentAfterSep(dir, '/', name);
  }

  /** The splitter cuts pages into chunks that keep the metadata of the page
      they come from, as LangChain's `split_documents` does. */
  ghost predicate SplitKeepsMetadata(split: seq<Document> -> seq<Document>)
  {
    forall pages: seq<Document>, c | c in split(pages) ::
      exists i | 0 <= i < |pages| :: c.metadata == pages[i].metadata
  }

  /** With such a splitter, every chunk of an upload saved as `<dir>/<name>`
      carries `file_name` = the last `/`-component of `name`. */
  lemma ChunksNameTheUpload(dir: string, name: string, parsers: Parsers)
    requires SplitKeepsMetadata(parsers.split)
    requires LoadDocument(dir + "/" + name, parsers).Ok?
    ensures forall c | c in LoadDocument(dir + "/" + name, parsers).value ::
              "file_name" in c.metadata && c.metadata["file_name"] == LastSegment(name, '/')
  {
    var path := dir + "/" + name;
    LoadedOnlyWhenSupported(path, parsers);
    SplitChunksNamed(parsers.load(LoaderFor(FileType(path)).value, path).value, path, parsers.split);
    SavedFileName(dir, name);
  }

  /** Chunks cut from stamped pages by such a splitter all carry the
      stamped `file_name`. */
  lemma SplitChunksNamed(pages: seq<Document>, path: string, split: seq<Document> -> seq<Document>)
    requires SplitKeepsMetadata(split)
    ensures forall c | c in split(Tag(pages, path)) ::
              "file_name" in c.metadata && c.metadata["file_name"] == PathName(path)
  {
    var tagged := Tag(pages, path);
    forall c | c in split(tagged)
      ensures "file_name" in c.metadata && c.metadata["file_name"] == PathName(path)
    {
      assert c in split(tagged);
      var i :| 0 <= i < |tagged| && c.metadata == tagged[i].metadata;
      StampKeys(pages[i], path, PathName(path), FileType(path), "file_name");
    }
  }

  // ---------------------------------------------------------------------
  // Batching

  /** Consecutive slices of `k` items, the last one possibly shorter. */
  function Chunks<T>(s: seq<T>, k: nat): seq<seq<T>>
    requires k > 0
    decreases |s|
  {
    if |s| == 0 then []
    else if |s| <= k then [s]
    else [s[..k]] + Chunks(s[k..], k)
  }

  /** The batches of `[s[i:i+step] for i in range(0, len(s), step)]`; a zero
      step is the `ValueError` of `range`, a negative one gives no batch. */
  function RangeBatches<T>(s: seq<T>, step: int): Result<seq<seq<T>>>
  {
    if step == 0 then Err("range() arg 3 must not be zero")
    else if step < 0 then Ok([])
    else Ok(Chunks(s, step))
  }

  /** Concatenating the batches gives back the input. */
  lemma {:induction false} ChunksConcat<T>(s: seq<T>, k: nat)
    requires k > 0
    ensures Concat(Chunks(s, k)) == s
    decreases |s|
  {
    if |s| == 0 {
    } else if |s| <= k {
      assert Concat([s]) == s + Concat([s][1..]);
    } else {
      ChunksConcat(s[k..], k);
      assert Chunks(s, k)[1..] == Chunks(s[k..], k);
      assert s[..k] + s[k..] == s;
    }
  }

  /** Every batch but the last has exactly `k` items and the last has
      between 1 and `k`. */
  lemma {:induction false} ChunksShape<T>(s: seq<T>, k: nat)
    requires k > 0
    ensures forall i | 0 <= i < |Chunks(s, k)| - 1 :: |Chunks(s, k)[i]| == k
    ensures |Chunks(s, k)| > 0 ==> 0 < |Chunks(s, k)[|Chunks(s, k)| - 1]| <= k
    decreases |s|
  {
    if |s| == 0 {
    } else if |s| <= k {
    } else {
      ChunksShape(s[k..], k);
      var c := Chunks(s, k);
      assert c[1..] == Chunks(s[k..], k);
      forall i | 0 <= i < |c| - 1
        ensures |c[i]| == k
      {
        if i > 0 {
          assert c[i] == Chunks(s[k..], k)[i - 1];
        }
      }
    }
  }

  lemma MulMono(a: int, b: int, k: nat)
    requires a <= b
    ensures a * k <= b * k
  {
    assert b * k - a * k == (b - a) * k;
  }

  /** Euclidean division has one quotient for each remainder in `[0, k)`. */
  lemma DivUnique(n: int, k: nat, q: int, r: int)
    requires k > 0 && 0 <= r < k && n == q * k + r
    ensures n / k == q
  {
    var d := n / k;
    assert n == d * k + n % k;
    if q > d {
      MulMono(d + 1, q, k);
    } else if q < d {
      MulMono(q + 1, d, k);
    }
  }

  /** There are ceil(n / k) batches. */
  lemma {:induction false} ChunksCount<T>(s: seq<T>, k: nat)
    requires k > 0
    ensures |Chunks(s, k)| == (|s| + k - 1) / k
    decreases |s|
  {
    if |s| == 0 {
      DivUnique(k - 1, k, 0, k - 1);
    } else if |s| <= k {
      DivUnique(|s| + k - 1, k, 1, |s| - 1);
    } else {
      ChunksCount(s[k..], k);
      assert |Chunks(s, k)| == 1 + |Chunks(s[k..], k)|;
      assert |s[k..]| + k - 1 == |s| - 1;
      var m := |s| - 1;
      var q := m / k;
      var r := m % k;
      assert m == q * k + r;
      assert (q + 1) * k == q * k + k;
      DivUnique(m + k, k, q + 1, r);
    }
  }

  /** Two sequences of the same length are cut at the same places. */
  lemma {:induction false} ChunksAligned<T, U>(s: seq<T>, t: seq<U>, k: nat)
    requires k > 0 && |s| == |t|
    ensures |Chunks(s, k)| == |Chunks(t, k)|
    ensures forall i | 0 <= i < |Chunks(s, k)| :: |Chunks(s, k)[i]| == |Chunks(t, k)[i]|
    decreases |s|
  {
    if |s| > k {
      ChunksAligned(s[k..], t[k..], k);
      assert Chunks(s, k)[1..] == Chunks(s[k..], k);
      assert Chunks(t, k)[1..] == Chunks(t[k..], k);
    }
  }

  // ---------------------------------------------------------------------
  // The processed-document registry

  /** An upload as Streamlit hands it over; only its name is used. */
  datatype UploadedFile = UploadedFile(name: string)

  /** `list_all_processed_documents`: the lines of the record file, none when
      the file does not exist. */
  function ListAll(record: Option<string>): seq<string>
  {
    if record.None? then [] else SplitLines(record.value)
  }

  /** `_is_document_processed(doc_id)`. */
  predicate IsProcessed(record: Option<string>, docId: string)
  {
    record.Some? && docId in SplitLines(record.value)
  }

  /** The record text after `_record_processed_document(doc_id)`: append mode
      creates a missing file and adds `doc_id + "\n"`. */
  function Appended(record: Option<string>, docId: string): string
  {
    record.GetOr("") + docId + "\n"
  }

  /** A record that is absent, empty, or ends with a newline: every append to
      it starts a line of its own. */
  predicate Closed(record: Option<string>)
  {
    record.None? || record.value == [] || record.value[|record.value| - 1] == '\n'
  }

  /** `list.remove(x)` when `x` is present; the list itself otherwise. */
  function RemoveFirst(ids: seq<string>, x: string): seq<string>
  {
    if ids == [] then []
    else if ids[0] == x then ids[1..]
    else [ids[0]] + RemoveFirst(ids[1..], x)
  }

  /** The position of the first occurrence of `x` in `ids`. */
  function IndexOf(ids: seq<string>, x: string): (k: nat)
    requires x in ids
    ensures k < |ids| && ids[k] == x
    ensures forall i | 0 <= i < k :: ids[i] != x
  {
    if ids[0] == x then 0 else 1 + IndexOf(ids[1..], x)
  }

  /** The text the rewrite in `delete_processed_document` leaves in the
      record: `"\n".join` of the remaining ids, with no final newline. */
  function Rewritten(record: Option<string>, docId: string): string
  {
    Join("\n", RemoveFirst(ListAll(record), docId))
  }

  /** The registry never reports a document when the record file is absent;
      otherwise a document is registered iff it is one whole line of it. */
  lemma ProcessedIffLine(record: Option<string>, docId: string)
    ensures record.None? ==> !IsProcessed(record, docId)
    ensures IsProcessed(record, docId) <==> docId in ListAll(record)
  {
  }

  /** Appending to a closed record adds exactly one line, so the id becomes
      registered and the record stays closed. */
  lemma AppendToClosed(record: Option<string>, docId: string)
    requires Closed(record) && NoLineBreak(docId)
    ensures ListAll(Some(Appended(record, docId))) == ListAll(record) + [docId]
    ensures IsProcessed(Some(Appended(record, docId)), docId)
    ensures Closed(Some(Appended(record, docId)))
  {
    SplitLinesAppendLine(record.GetOr(""), docId);
    assert record.None? ==> SplitLines("") == [];
  }

  /** After a delete rewrite that leaves ids behind, the next append is glued
      onto the last remaining line: the list gains no new line. */
  lemma AppendAfterRewriteGlues(remaining: seq<string>, docId: string)
    requires remaining != []
    requires forall i | 0 <= i < |remaining| :: NoLineBreak(remaining[i])
    requires NoLineBreak(docId)
    ensures ListAll(Some(Appended(Some(Join("\n", remaining)), docId)))
            == remaining[..|remaining| - 1] + [remaining[|remaining| - 1] + docId]
  {
    SplitLinesOfJoinAppend(remaining, docId);
  }

  /** A concrete case: with `a.pdf` left after a delete, recording `b.pdf`
      produces the single line `a.pdfb.pdf`, and neither name is registered. */
  lemma GluedRecordExample()
    ensures ListAll(Some(Appended(Some(Join("\n", ["a.pdf"])), "b.pdf"))) == ["a.pdfb.pdf"]
    ensures !IsProcessed(Some(Appended(Some(Join("\n", ["a.pdf"])), "b.pdf")), "b.pdf")
    ensures !IsProcessed(Some(Appended(Some(Join("\n", ["a.pdf"])), "b.pdf")), "a.pdf")
  {
    AppendAfterRewriteGlues(["a.pdf"], "b.pdf");
    assert "a.pdf" + "b.pdf" == "a.pdfb.pdf";
  }

  /** An absent id leaves the list as it is (the guard before `remove`). */
  lemma {:induction false} RemoveFirstAbsent(ids: seq<string>, x: string)
    requires x !in ids
    ensures RemoveFirst(ids, x) == ids
  {
    if ids != [] {
      RemoveFirstAbsent(ids[1..], x);
      assert ids == [ids[0]] + ids[1..];
    }
  }

  /** `list.remove` takes out the first occurrence only and keeps the other
      ids in order. */
  lemma {:induction false} RemoveFirstPresent(ids: seq<string>, x: string)
    requires x in ids
    ensures RemoveFirst(ids, x) == ids[..IndexOf(ids, x)] + ids[IndexOf(ids, x) + 1..]
  {
    if ids[0] != x {
      var k := IndexOf(ids, x);
      RemoveFirstPresent(ids[1..], x);
      assert IndexOf(ids[1..], x) == k - 1;
      DropAtTail(ids, k);
    }
  }

  /** Dropping position `k > 0` keeps the head in front of the tail with
      position `k - 1` dropped. */
  lemma DropAtTail(ids: seq<string>, k: nat)
    requires 0 < k < |ids|
    ensures ids[..k] + ids[k + 1..] == [ids[0]] + (ids[1..][..k - 1] + ids[1..][k..])
  {
    assert ids[..k] == [ids[0]] + ids[1..][..k - 1];
    assert ids[k + 1..] == ids[1..][k..];
  }

  /** One occurrence of `x` fewer, every other id kept with its count. */
  lemma {:induction false} RemoveFirstMultiset(ids: seq<string>, x: string)
    ensures multiset(RemoveFirst(ids, x)) == multiset(ids) - multiset{x}
  {
    if ids != [] {
      assert ids == [ids[0]] + ids[1..];
      if ids[0] != x {
        RemoveFirstMultiset(ids[1..], x);
      }
    }
  }

  /** After the rewrite the list reads back as the ids minus the first
      occurrence of the deleted one, provided the last remaining id is not
      an empty line (an empty last line would vanish in the join). */
  lemma DeleteRewriteReadsBack(record: Option<string>, docId: string)
    requires var rest := RemoveFirst(ListAll(record), docId); rest == [] || rest[|rest| - 1] != ""
    ensures ListAll(Some(Rewritten(record, docId))) == RemoveFirst(ListAll(record), docId)
    ensures docId !in ListAll(record) ==> ListAll(Some(Rewritten(record, docId))) == ListAll(record)
  {
    var ids := ListAll(record);
    if docId !in ids {
      RemoveFirstAbsent(ids, docId);
    }
    ListAllNoBreaks(record);
    RemoveFirstNoBreaks(ids, docId);
    SplitLinesOfJoin(RemoveFirst(ids, docId));
  }

  /** No listed id contains a line boundary. */
  lemma ListAllNoBreaks(record: Option<string>)
    ensures forall i | 0 <= i < |ListAll(record)| :: NoLineBreak(ListAll(record)[i])
  {
    if record.Some? {
      SplitFromNoBreaks(record.value, []);
    }
  }

  /** Removing an id keeps only ids that were there. */
  lemma RemoveFirstNoBreaks(ids: seq<string>, x: string)
    requires forall i | 0 <= i < |ids| :: NoLineBreak(ids[i])
    ensures forall i | 0 <= i < |RemoveFirst(ids, x)| :: NoLineBreak(RemoveFirst(ids, x)[i])
  {
    var rest := RemoveFirst(ids, x);
    RemoveFirstMultiset(ids, x);
    forall i | 0 <= i < |rest|
      ensures NoLineBreak(rest[i])
    {
      assert rest[i] in multiset(rest);
      assert rest[i] in multiset(ids);
      var j :| 0 <= j < |ids| && ids[j] == rest[i];
    }
  }

  /** A document recorded once is no longer registered after its deletion. */
  lemma DeleteUnregistersSingle(record: Option<string>, docId: string)
    requires multiset(ListAll(record))[docId] <= 1
    requires var rest := RemoveFirst(ListAll(record), docId); rest == [] || rest[|rest| - 1] != ""
    ensures !IsProcessed(Some(Rewritten(record, docId)), docId)
  {
    DeleteRewriteReadsBack(record, docId);
    RemoveFirstMultiset(ListAll(record), docId);
    assert multiset(ListAll(Some(Rewritten(record, docId))))[docId] == 0;
  }

  // ---------------------------------------------------------------------
  // Processing an upload

  /** A name that, joined to the documents directory, denotes a directory
      rather than a file in it: `pathlib` drops an empty or `.` component, and
      `..` is the parent. */
  predicate NamesDirectory(name: string)
  {
    name == "" || name == "." || name == ".."
  }

  /** `Config.PROCESSED_DOCS_RECORD`, as the exceptions name it. */
  const RecordFile: string := "PROCESSED_DOCS_RECORD"

  /** The exception raised when a file cannot be opened or removed. */
  function FileError(path: string): string
  {
    "OSError: " + path
  }

  /** What `_process_file` leaves behind: its result, the record and the
      saved uploads. `Err` is an exception it lets through. */
  datatype ProcessOutcome = ProcessOutcome(result: Result<seq<Document>>, record: Option<string>,
                                           documentsDir: set<string>)

  /** `_process_file(upload, skip_processed)` on the registry `record` and the
      saved uploads `documentsDir`, loading with `parsers`. Saving the upload is outside the `try`:
      `saveWritable` says whether the target opens for writing, and a name
      denoting the directory itself never does. Inside the `try`, a failed
      load or a failed append to the record (`recordWritable`) is caught and
      answered with no chunks; the saved copy stays. */
  function ProcessSpec(record: Option<string>, documentsDir: set<string>, documentsPath: string,
                       name: string, skipProcessed: bool, parsers: Parsers,
                       saveWritable: bool, recordWritable: bool): ProcessOutcome
  {
    var loaded := LoadDocument(documentsPath + "/" + name, parsers);
    if skipProcessed && IsProcessed(record, name) then ProcessOutcome(Ok([]), record, documentsDir)
    else if NamesDirectory(name) || !saveWritable then
      ProcessOutcome(Err(FileError(documentsPath + "/" + name)), record, documentsDir)
    else if loaded.Ok? && recordWritable then
      ProcessOutcome(Ok(loaded.value), Some(Appended(record, name)), documentsDir + {name})
    else ProcessOutcome(Ok([]), record, documentsDir + {name})
  }

  /** The name is recorded exactly when the upload was saved, loaded and the
      append went through; the chunks are then the loaded ones and the saved
      copy is in the directory. Every other outcome leaves the record alone
      and returns no chunks. */
  lemma ProcessRecordsOnlyLoaded(record: Option<string>, documentsDir: set<string>, documentsPath: string,
                                 name: string, skipProcessed: bool, parsers: Parsers,
                                 saveWritable: bool, recordWritable: bool)
    ensures var o := ProcessSpec(record, documentsDir, documentsPath, name, skipProcessed, parsers,
                                 saveWritable, recordWritable);
      var loaded := LoadDocument(documentsPath + "/" + name, parsers);
      var recorded := !(skipProcessed && IsProcessed(record, name)) && !NamesDirectory(name)
                      && saveWritable && recordWritable && loaded.Ok?;
      && (recorded ==> o.result == Ok(loaded.value) && o.record == Some(Appended(record, name))
                       && name in o.documentsDir)
      && (!recorded ==> o.record == record && (o.result.Ok? ==> o.result.value == []))
  {
  }

  /** Only a failed save escapes as an exception, and it changes nothing; a
      skipped name changes nothing either; any other call keeps the saved
      upload and loses no earlier one. */
  lemma ProcessErrorOnlyFromSave(record: Option<string>, documentsDir: set<string>, documentsPath: string,
                                 name: string, skipProcessed: bool, parsers: Parsers,
                                 saveWritable: bool, recordWritable: bool)
    ensures var o := ProcessSpec(record, documentsDir, documentsPath, name, skipProcessed, parsers,
                                 saveWritable, recordWritable);
      var skipped := skipProcessed && IsProcessed(record, name);
      && (o.result.Err? <==> !skipped && (NamesDirectory(name) || !saveWritable))
      && (o.result.Err? || skipped ==> o.record == record && o.documentsDir == documentsDir)
      && (o.result.Ok? && !skipped ==> o.documentsDir == documentsDir + {name})
  {
  }

  /** The registry and the saved uploads, held as files on disk. */
  class DocumentLoaderService {
    /** The record file's text; `None` while the file does not exist. */
    var record: Option<string>
    /** The names of the files in the documents directory. */
    var documentsDir: set<string>
    /** Whether the documents directory exists. */
    var directoryExists: bool
    /** The documents directory's path. */
    const documentsPath: string

    constructor(documentsPath: string, record: Option<string>, documentsDir: set<string>,
                directoryExists: bool)
      ensures this.documentsPath == documentsPath
      ensures this.record == record && this.documentsDir == documentsDir
      ensures this.directoryExists == directoryExists
    {
      this.documentsPath := documentsPath;
      this.record := record;
      this.documentsDir := documentsDir;
      this.directoryExists := directoryExists;
    }

    /** `_is_document_processed(doc_id)`. */
    method IsDocumentProcessed(docId: string) returns (processed: bool)
      ensures processed <==> record.Some? && docId in SplitLines(record.value)
    {
      if record.None? {
        return false;
      }
      var processedIds := SplitLines(record.value);
      processed := docId in processedIds;
    }

    /** `_record_processed_document(doc_id)`. */
    method RecordProcessedDocument(docId: string)
      modifies this`record
      ensures record == Some(Appended(old(record), docId))
    {
      record := Some(record.GetOr("") + docId + "\n");
    }

    /** `list_all_processed_documents()`. */
    method ListAllProcessedDocuments() returns (ids: seq<string>)
      ensures ids == ListAll(record)
    {
      if record.None? {
        return [];
      }
      ids := SplitLines(record.value);
    }

    /** `batch_process_documents(documents, batch_size)`. */
    method BatchProcessDocuments(documents: seq<Document>, batchSize: int)
      returns (r: Result<seq<seq<Document>>>)
      ensures r == RangeBatches(documents, batchSize)
    {
      if batchSize == 0 {
        return Err("range() arg 3 must not be zero");
      }
      var batches: seq<seq<Document>> := [];
      if batchSize > 0 {
        var i := 0;
        while i < |documents|
          invariant 0 <= i <= |documents|
          invariant batches + Chunks(documents[i..], batchSize) == Chunks(documents, batchSize)
        {
          var end := if i + batchSize < |documents| then i + batchSize else |documents|;
          var batch := documents[i..end];
          assert Chunks(documents[i..], batchSize) == [batch] + Chunks(documents[end..], batchSize) by {
            if i + batchSize < |documents| {
              assert documents[i..][..batchSize] == batch;
              assert documents[i..][batchSize..] == documents[end..];
            } else {
              assert documents[i..] == batch;
              assert documents[end..] == [];
            }
          }
          batches := batches + [batch];
          i := end;
        }
        assert Chunks(documents[i..], batchSize) == [];
        assert batches == batches + Chunks(documents[i..], batchSize);
      }
      return Ok(batches);
    }

    /** `_process_file(upload, skip_processed)`: skip a registered name when
        asked to; otherwise create the documents directory, save the upload
        into it, load it, and record its name when loading succeeded.
        `saveWritable` and `recordWritable` say whether the upload's target and
        the record file open for writing. */
    method ProcessFile(upload: UploadedFile, skipProcessed: bool, parsers: Parsers,
                       saveWritable: bool, recordWritable: bool)
      returns (r: Result<seq<Document>>)
      modifies this
      ensures var o := ProcessSpec(old(record), old(documentsDir), documentsPath, upload.name, skipProcessed,
                                   parsers,
                                   saveWritable, recordWritable);
        r == o.result && record == o.record && documentsDir == o.documentsDir
      ensures directoryExists == (old(directoryExists) || !(skipProcessed && IsProcessed(old(record), upload.name)))
    {
      if skipProcessed {
        var seen := IsDocumentProcessed(upload.name);
        if seen {
          return Ok([]);
        }
      }
      var saved := SaveUpload(upload.name, saveWritable);
      if saved.Err? {
        return Err(saved.error);
      }
      var loaded := LoadDocument(documentsPath + "/" + upload.name, parsers);
      r := RecordLoaded(loaded, upload.name, recordWritable);
    }

    /** The `mkdir` of the documents directory and the write of the upload
        into it. `saveWritable` says whether the target opens for writing;
        a name denoting the directory itself never does. */
    method SaveUpload(name: string, saveWritable: bool) returns (r: Result<()>)
      modifies this`documentsDir, this`directoryExists
      ensures directoryExists
      ensures r.Ok? <==> !NamesDirectory(name) && saveWritable
      ensures r.Err? ==> r.error == FileError(documentsPath + "/" + name) && documentsDir == old(documentsDir)
      ensures r.Ok? ==> documentsDir == old(documentsDir) + {name}
    {
      directoryExists := true;
      if NamesDirectory(name) || !saveWritable {
        return Err(FileError(documentsPath + "/" + name));
      }
      documentsDir := documentsDir + {name};
      r := Ok(());
    }

    /** The rest of the `try` block of `_process_file`, once `load_document`
        has produced `loaded`: record the name and return the chunks. A
        failed load, or a record file that does not open for appending, is
        caught and answered with no chunks. */
    method RecordLoaded(loaded: Result<seq<Document>>, docId: string, recordWritable: bool)
      returns (r: Result<seq<Document>>)
      modifies this`record
      ensures r == Ok(if loaded.Ok? && recordWritable then loaded.value else [])
      ensures record == (if loaded.Ok? && recordWritable then Some(Appended(old(record), docId)) else old(record))
    {
      if loaded.Ok? && recordWritable {
        RecordProcessedDocument(docId);
        r := Ok(loaded.value);
      } else {
        r := Ok([]);
      }
    }

    /** `delete_processed_document(doc_id)`: remove the saved copy if present,
        then rewrite the record without the first occurrence of `doc_id`. A
        name denoting the existing directory itself makes the removal raise
        before the record is touched; `recordWritable` says whether the record
        file opens for the rewrite. */
    method DeleteProcessedDocument(docId: string, recordWritable: bool) returns (r: Result<()>)
      modifies this
      ensures directoryExists == old(directoryExists)
      ensures NamesDirectory(docId) && directoryExists ==>
        && r == Err(FileError(documentsPath + "/" + docId))
        && record == old(record) && documentsDir == old(documentsDir)
      ensures !(NamesDirectory(docId) && directoryExists) ==>
        && documentsDir == old(documentsDir) - {docId}
        && (recordWritable ==> r == Ok(()) && record == Some(Rewritten(old(record), docId)))
        && (!recordWritable ==> r == Err(FileError(RecordFile)) && record == old(record))
    {
      if NamesDirectory(docId) && directoryExists {
        return Err(FileError(documentsPath + "/" + docId));
      }
      if docId in documentsDir {
        documentsDir := documentsDir - {docId};
      }
      var processedIds := ListAllProcessedDocuments();
      if docId in processedIds {
        processedIds := RemoveFirst(processedIds, docId);
      } else {
        RemoveFirstAbsent(processedIds, docId);
      }
      if !recordWritable {
        return Err(FileError(RecordFile));
      }
      record := Some(Join("\n", processedIds));
      r := Ok(());
    }

    /** `clear_all_processed_documents()`: truncate the record and delete the
        saved files, keeping the directory itself; each half is attempted
        whether or not the other failed (`recordWritable` and
        `directoryWritable` say which succeed). */
    method ClearAllProcessedDocuments(recordWritable: bool, directoryWritable: bool)
      modifies this
      ensures record == (if recordWritable then Some("") else old(record))
      ensures documentsDir == (if directoryWritable then {} else old(documentsDir))
      ensures directoryExists == old(directoryExists)
    {
      if recordWritable {
        record := Some("");
      }
      if directoryWritable {
        documentsDir := {};
      }
    }
  }
}
