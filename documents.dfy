/** The values that flow between the loader, the vector index and the chat
    front end: LangChain `Document`s, index entries and uuid4 strings. */
module Documents {

  /** A LangChain `Document`: page text and a string-valued metadata dict. */
  datatype Document = Document(pageContent: string, metadata: map<string, string>)

  /** One slot of the FAISS index: the docstore id and the stored document. */
  datatype Entry = Entry(id: string, doc: Document)

  /** The characters of `str(uuid.uuid4())`: lower-case hex digits and dashes. */
  predicate IsUuidChar(c: char)
  {
    ('0' <= c <= '9') || ('a' <= c <= 'f') || c == '-'
  }

  predicate IsUuidText(s: string)
  {
    |s| == 36 && forall i | 0 <= i < |s| :: IsUuidChar(s[i])
  }

  /** The text of a uuid4: 36 characters, none of them `_`. */
  type Uuid = s: string | IsUuidText(s) witness "00000000-0000-0000-0000-000000000000"

  /** `doc.metadata.get(key, default)`. */
  function MetadataGet(d: Document, key: string, default: string): string
  {
    if key in d.metadata then d.metadata[key] else default
  }

  /** The ids of the entries, in index order. */
  function Ids(entries: seq<Entry>): (r: seq<string>)
    ensures |r| == |entries|
    ensures forall i | 0 <= i < |entries| :: r[i] == entries[i].id
  {
    if entries == [] then [] else [entries[0].id] + Ids(entries[1..])
  }

  /** No id occurs twice: every index slot has its own docstore key. */
  predicate DistinctIds(entries: seq<Entry>)
  {
    forall i, j | 0 <= i < j < |entries| :: entries[i].id != entries[j].id
  }

  predicate Distinct(s: seq<string>)
  {
    forall i, j | 0 <= i < j < |s| :: s[i] != s[j]
  }

  /** Entries pairing each id with the document in the same position. */
  function Zip(ids: seq<string>, docs: seq<Document>): (r: seq<Entry>)
    requires |ids| == |docs|
    ensures |r| == |ids|
    ensures forall i | 0 <= i < |ids| :: r[i] == Entry(ids[i], docs[i])
  {
    if ids == [] then [] else [Entry(ids[0], docs[0])] + Zip(ids[1..], docs[1..])
  }
}
