/** The bookkeeping of the chat page: display names of registered documents,
    the response buffer grown from the agent's stream of node updates, the
    de-duplicated reference list and the chat history entry they end in. */
module WebChatbot {
  import opened Wrappers
  import opened Text
  import opened Documents
  import opened Messages
  import opened DocumentLoader
  import opened ConversationalChain

  // ---------------------------------------------------------------------
  // Display names

  /** The length of the run of non-quote characters of `s` from `q`. */
  function QuoteFreeRun(s: string, q: nat): (n: nat)
    requires q <= |s|
    ensures q + n <= |s|
    ensures forall i | q <= i < q + n :: s[i] != '\''
    ensures q + n == |s| || s[q + n] == '\''
    decreases |s| - q
  {
    if q == |s| || s[q] == '\'' then 0 else 1 + QuoteFreeRun(s, q + 1)
  }

  /** The pattern `name='([^']+)'` matches `s` at `p`. */
  predicate NameMatchAt(s: string, p: nat)
  {
    && p + 6 <= |s|
    && s[p..p + 6] == "name='"
    && 0 < QuoteFreeRun(s, p + 6)
    && p + 6 + QuoteFreeRun(s, p + 6) < |s|
  }

  /** The group captured by a match at `p`. */
  function NameGroup(s: string, p: nat): string
    requires NameMatchAt(s, p)
  {
    s[p + 6..p + 6 + QuoteFreeRun(s, p + 6)]
  }

  /** `re.search(r"name='([^']+)'", s)` from `p` on: the leftmost match
      position, if any. */
  function SearchName(s: string, p: nat): (r: Option<nat>)
    requires p <= |s|
    ensures r.Some? ==> p <= r.value <= |s| && NameMatchAt(s, r.value)
    ensures r.Some? ==> forall q | p <= q < r.value :: !NameMatchAt(s, q)
    ensures r.None? ==> forall q | p <= q <= |s| :: !NameMatchAt(s, q)
    decreases |s| - p
  {
    if NameMatchAt(s, p) then Some(p)
    else if p == |s| then None
    else SearchName(s, p + 1)
  }

  /** A match of the pattern at `p` captures exactly a non-empty, quote-free
      `g` standing between `name='` and a closing quote. */
  lemma NameMatchMeaning(s: string, p: nat, g: string)
    requires p <= |s|
    ensures (NameMatchAt(s, p) && NameGroup(s, p) == g)
            <==> (g != [] && '\'' !in g && "name='" + g + "'" <= s[p..])
  {
    var pat := "name='" + g + "'";
    if g != [] && '\'' !in g && pat <= s[p..] {
      assert s[p..p + 6] == pat[..6];
      forall i | 0 <= i < |g|
        ensures s[p + 6 + i] == g[i]
      {
        assert s[p + 6 + i] == pat[6 + i];
      }
      assert s[p + 6 + |g|] == pat[6 + |g|] == '\'';
      QuoteFreeRunExact(s, p + 6, |g|);
      assert s[p + 6..p + 6 + |g|] == g;
    }
    if NameMatchAt(s, p) && NameGroup(s, p) == g {
      var n := QuoteFreeRun(s, p + 6);
      assert s[p + 6 + n] == '\'';
      assert forall i | 0 <= i < |g| :: g[i] == s[p + 6 + i];
      assert s[p..p + 6 + n + 1] == pat;
    }
  }

  /** A quote-free stretch ended by a quote is the whole run. */
  lemma {:induction false} QuoteFreeRunExact(s: string, q: nat, m: nat)
    requires q + m < |s| && s[q + m] == '\''
    requires forall i | q <= i < q + m :: s[i] != '\''
    ensures QuoteFreeRun(s, q) == m
    decreases m
  {
    if m > 0 {
      assert s[q] != '\'';
      QuoteFreeRunExact(s, q + 1, m - 1);
    }
  }

  /** The name shown for a registered document id: for an id that contains
      `UploadedFile`, the quoted name of its first `name='...'` (the whole id
      when there is none); otherwise the part after the last `/`. */
  function DisplayName(docId: string): string
  {
    if Contains(docId, "UploadedFile") then
      match SearchName(docId, 0)
      case Some(p) => NameGroup(docId, p)
      case None => docId
    else if '/' in docId then LastSegment(docId, '/')
    else docId
  }

  /** An id naming an uploaded file shows the first quoted name in it. */
  lemma DisplayNameOfUpload(docId: string, p: nat, g: string)
    requires Contains(docId, "UploadedFile")
    requires p <= |docId| && g != [] && '\'' !in g && "name='" + g + "'" <= docId[p..]
    requires forall q | 0 <= q < p :: !NameMatchAt(docId, q)
    ensures DisplayName(docId) == g
  {
    NameMatchMeaning(docId, p, g);
  }

  /** Any other id shows what follows its last `/`, and a plain name shows
      itself. */
  lemma DisplayNameOfPath(dir: string, name: string)
    requires !Contains(dir + "/" + name, "UploadedFile")
    ensures DisplayName(dir + "/" + name) == LastSegment(name, '/')
  {
    var docId := dir + "/" + name;
    assert docId[|dir|] == '/';
    assert DisplayName(docId) == LastSegment(docId, '/');
    assert docId == dir + ['/'] + name;
    LastSegmentAfterSep(dir, '/', name);
  }

  /** A name without `/` and without `UploadedFile` is shown as it is. */
  lemma DisplayNameOfPlainName(name: string)
    requires !Contains(name, "UploadedFile") && '/' !in name
    ensures DisplayName(name) == name
  {
  }

  /** The repr of a Streamlit upload shows the file's own name. */
  lemma DisplayNameOfUploadRepr()
    ensures DisplayName("UploadedFile(name='a.pdf')") == "a.pdf"
  {
    var s := "UploadedFile(name='a.pdf')";
    assert "UploadedFile" <= s[0..];
    forall q | 0 <= q < 13
      ensures !NameMatchAt(s, q)
    {
      assert s[q..q + 6][0] == s[q] != 'n';
    }
    assert "name='" + "a.pdf" + "'" <= s[13..];
    DisplayNameOfUpload(s, 13, "a.pdf");
  }

  // ---------------------------------------------------------------------
  // The response buffer

  /** One node's entry in an `updates`-mode stream chunk: its `messages`
      list when it has one. */
  datatype NodeUpdate = NodeUpdate(messages: Option<seq<Message>>)

  /** One stream chunk: node name to update. */
  type StreamChunk = map<string, NodeUpdate>

  /** `item.get("type") == "text"` on a string item raises. */
  const StrItemError: string := "AttributeError: 'str' object has no attribute 'get'"

  /** `buffer += content` with list-valued tool content raises. */
  const ListToolContentError: string := "TypeError: can only concatenate str (not \"list\") to str"

  /** An `item.get("type") == "text"` dict item. */
  predicate IsTextItem(fields: map<string, string>)
  {
    "type" in fields && fields["type"] == "text"
  }

  /** The text the list content `items` of a model message adds to the
      buffer, item by item. */
  function ItemsText(items: seq<Part>): Result<string>
  {
    if items == [] then Ok("")
    else
      match ItemsText(items[..|items| - 1])
      case Err(e) => Err(e)
      case Ok(prefix) =>
        match items[|items| - 1]
        case StrPart(_) => Err(StrItemError)
        case DictPart(f) =>
          Ok(prefix + if IsTextItem(f) then (if "text" in f then f["text"] else "") else "")
  }

  /** The text a model message adds: string content as it is. */
  function ModelText(c: Content): Result<string>
  {
    match c
    case Text(s) => Ok(s)
    case Parts(items) => ItemsText(items)
  }

  /** The text a tool message adds: only non-empty content is appended, and
      a non-empty list cannot be. */
  function ToolText(c: Content): Result<string>
  {
    match c
    case Text(s) => Ok(s)
    case Parts(items) => if items == [] then Ok("") else Err(ListToolContentError)
  }

  /** The text one chunk adds: the first message of a `model` update, else
      the first message of a `tools` update; other nodes add nothing. */
  function ChunkText(chunk: StreamChunk): Result<string>
  {
    if "model" in chunk && chunk["model"].messages.Some? then
      var ms := chunk["model"].messages.value;
      if ms == [] then Ok("") else ModelText(ms[0].content)
    else if "tools" in chunk && chunk["tools"].messages.Some? then
      var ms := chunk["tools"].messages.value;
      if ms == [] then Ok("") else ToolText(ms[0].content)
    else Ok("")
  }

  /** The first error, or the joined texts. */
  function Then(a: Result<string>, b: Result<string>): Result<string>
  {
    if a.Err? then a else if b.Err? then b else Ok(a.value + b.value)
  }

  /** The buffer after the whole stream, or the error that ended it. */
  function StreamText(chunks: seq<StreamChunk>): Result<string>
  {
    if chunks == [] then Ok("")
    else Then(StreamText(chunks[..|chunks| - 1]), ChunkText(chunks[|chunks| - 1]))
  }

  /** The first error, or all texts joined, however the parts are grouped. */
  lemma ThenAssoc(a: Result<string>, b: Result<string>, c: Result<string>)
    ensures Then(Then(a, b), c) == Then(a, Then(b, c))
  {
    if a.Ok? && b.Ok? && c.Ok? {
      assert a.value + b.value + c.value == a.value + (b.value + c.value);
    }
  }

  /** A stream one chunk longer adds that chunk's text. */
  lemma StreamTextSnoc(chunks: seq<StreamChunk>, k: nat)
    requires k < |chunks|
    ensures StreamText(chunks[..k + 1]) == Then(StreamText(chunks[..k]), ChunkText(chunks[k]))
  {
    assert chunks[..k + 1][..k] == chunks[..k];
  }

  /** The stream's text is built chunk after chunk: two consecutive parts of
      a stream contribute their texts in order, and the first error wins. */
  lemma {:induction false} StreamTextAppend(a: seq<StreamChunk>, b: seq<StreamChunk>)
    ensures StreamText(a + b) == Then(StreamText(a), StreamText(b))
    decreases |b|
  {
    if b == [] {
      assert a + b == a;
      if StreamText(a).Ok? {
        assert StreamText(a).value + "" == StreamText(a).value;
      }
    } else {
      var b' := b[..|b| - 1];
      var last := b[|b| - 1];
      assert (a + b)[..|a + b| - 1] == a + b';
      assert (a + b)[|a + b| - 1] == last;
      assert StreamText(a + b) == Then(StreamText(a + b'), ChunkText(last));
      assert StreamText(b) == Then(StreamText(b'), ChunkText(last));
      StreamTextAppend(a, b');
      ThenAssoc(StreamText(a), StreamText(b'), ChunkText(last));
    }
  }

  /** A single chunk's stream is that chunk's text. */
  lemma StreamTextSingle(c: StreamChunk)
    ensures StreamText([c]) == ChunkText(c)
  {
    assert [c][..0] == [];
    if ChunkText(c).Ok? {
      assert "" + ChunkText(c).value == ChunkText(c).value;
    }
  }

  /** One more item adds its own text. */
  lemma ItemsTextSnoc(x: seq<Part>, last: Part)
    ensures ItemsText(x + [last]) == Then(ItemsText(x), ItemsText([last]))
  {
    assert (x + [last])[..|x|] == x;
    assert [last][..0] == [];
    if last.DictPart? {
      var f := last.fields;
      var piece := if IsTextItem(f) then (if "text" in f then f["text"] else "") else "";
      assert "" + piece == piece;
    }
  }

  /** List content is read item after item, the first error winning. */
  lemma {:induction false} ItemsTextAppend(a: seq<Part>, b: seq<Part>)
    ensures ItemsText(a + b) == Then(ItemsText(a), ItemsText(b))
    decreases |b|
  {
    if b == [] {
      assert a + b == a;
      if ItemsText(a).Ok? {
        assert ItemsText(a).value + "" == ItemsText(a).value;
      }
    } else {
      var b' := b[..|b| - 1];
      var last := b[|b| - 1];
      assert (a + b)[..|a + b| - 1] == a + b';
      assert (a + b)[|a + b| - 1] == last;
      ItemsTextAppend(a, b');
      var t := ItemsText([last]);
      assert a + b == (a + b') + [last];
      assert b == b' + [last];
      ItemsTextSnoc(a + b', last);
      ItemsTextSnoc(b', last);
      ThenAssoc(ItemsText(a), ItemsText(b'), t);
    }
  }

  /** A model message's list content fails exactly when it holds a bare
      string item. */
  lemma {:induction false} ItemsTextFails(items: seq<Part>)
    ensures ItemsText(items).Err? <==> exists i | 0 <= i < |items| :: items[i].StrPart?
  {
    if items != [] {
      var init := items[..|items| - 1];
      ItemsTextFails(init);
      if exists i | 0 <= i < |init| :: init[i].StrPart? {
        var i :| 0 <= i < |init| && init[i].StrPart?;
        assert items[i] == init[i];
      }
      if exists i | 0 <= i < |items| :: items[i].StrPart? {
        var i :| 0 <= i < |items| && items[i].StrPart?;
        if i < |items| - 1 {
          assert init[i] == items[i];
        }
      }
    }
  }

  /** The same message without tool calls. */
  function WithoutToolCalls(m: Message): Message
  {
    match m
    case AI(c, _) => AI(c, [])
    case _ => m
  }

  /** The same chunk with every tool call dropped. */
  function ChunkWithoutToolCalls(chunk: StreamChunk): StreamChunk
  {
    map k | k in chunk ::
      if chunk[k].messages.Some?
      then NodeUpdate(Some(seq(|chunk[k].messages.value|,
                               i requires 0 <= i < |chunk[k].messages.value| =>
                                 WithoutToolCalls(chunk[k].messages.value[i]))))
      else chunk[k]
  }

  /** Tool calls never reach the buffer: dropping them from every chunk
      leaves the stream's text as it was. */
  lemma {:induction false} StreamIgnoresToolCalls(chunks: seq<StreamChunk>)
    ensures StreamText(seq(|chunks|, i requires 0 <= i < |chunks| => ChunkWithoutToolCalls(chunks[i])))
            == StreamText(chunks)
    decreases |chunks|
  {
    var stripped := seq(|chunks|, i requires 0 <= i < |chunks| => ChunkWithoutToolCalls(chunks[i]));
    if chunks != [] {
      var init := chunks[..|chunks| - 1];
      StreamIgnoresToolCalls(init);
      assert stripped[..|stripped| - 1]
             == seq(|init|, i requires 0 <= i < |init| => ChunkWithoutToolCalls(init[i]));
      ChunkIgnoresToolCalls(chunks[|chunks| - 1]);
    }
  }

  /** One chunk's text does not depend on tool calls. */
  lemma ChunkIgnoresToolCalls(c: StreamChunk)
    ensures ChunkText(ChunkWithoutToolCalls(c)) == ChunkText(c)
  {
    var s := ChunkWithoutToolCalls(c);
    if "model" in c && c["model"].messages.Some? && c["model"].messages.value != [] {
      assert s["model"].messages.value[0].content == c["model"].messages.value[0].content;
    }
    if "tools" in c && c["tools"].messages.Some? && c["tools"].messages.value != [] {
      assert s["tools"].messages.value[0].content == c["tools"].messages.value[0].content;
    }
  }

  /** The body of the streaming loop for one chunk: the buffer grown by the
      chunk's text, or the exception it raises. */
  method AppendChunk(buffer: string, chunk: StreamChunk) returns (r: Result<string>)
    ensures r == Then(Ok(buffer), ChunkText(chunk))
  {
    r := Ok(buffer);
    if "model" in chunk && chunk["model"].messages.Some? {
      var messages := chunk["model"].messages.value;
      if messages != [] {
        var last := messages[0];
        match last.content
        case Parts(items) =>
          r := AppendItems(buffer, items);
        case Text(t) =>
          r := Ok(buffer + t);
      } else {
        assert buffer + "" == buffer;
      }
    } else if "tools" in chunk && chunk["tools"].messages.Some? {
      var messages := chunk["tools"].messages.value;
      if messages != [] {
        var last := messages[0];
        match last.content
        case Text(t) =>
          if t != "" {
            r := Ok(buffer + t);
          } else {
            assert buffer + t == buffer;
          }
        case Parts(items) =>
          if items != [] {
            return Err(ListToolContentError);
          }
          assert buffer + "" == buffer;
      } else {
        assert buffer + "" == buffer;
      }
    } else {
      assert buffer + "" == buffer;
    }
  }

  /** A plain string item after clean items fails the whole content. */
  lemma ItemsFailAt(items: seq<Part>, j: nat)
    requires j < |items| && ItemsText(items[..j]).Ok? && items[j].StrPart?
    ensures ItemsText(items) == Err(StrItemError)
  {
    assert items[..j + 1] == items[..j] + [items[j]];
    ItemsTextSnoc(items[..j], items[j]);
    assert [items[j]][..0] == [];
    ItemsTextAppend(items[..j + 1], items[j + 1..]);
    SplitAt(items, j + 1);
  }

  /** The loop over a list content's items: text items grow the buffer,
      other dict items are skipped, a plain string raises. */
  method AppendItems(buffer: string, items: seq<Part>) returns (r: Result<string>)
    ensures r == Then(Ok(buffer), ItemsText(items))
  {
    var grown := buffer;
    var j := 0;
    assert items[..0] == [] && grown[|buffer|..] == [];
    while j < |items|
      invariant 0 <= j <= |items|
      invariant |buffer| <= |grown| && grown[..|buffer|] == buffer
      invariant ItemsText(items[..j]) == Ok(grown[|buffer|..])
    {
      match items[j]
      case StrPart(_) =>
        ItemsFailAt(items, j);
        return Err(StrItemError);
      case DictPart(f) =>
        assert items[..j + 1] == items[..j] + [items[j]];
        ItemsTextSnoc(items[..j], items[j]);
        assert [items[j]][..0] == [];
        var prior := grown;
        if IsTextItem(f) {
          grown := grown + if "text" in f then f["text"] else "";
        }
        assert grown[|buffer|..] == prior[|buffer|..] + (if IsTextItem(f) then (if "text" in f then f["text"] else "") else "");
      j := j + 1;
    }
    assert items[..j] == items;
    assert grown == buffer + grown[|buffer|..];
    r := Ok(grown);
  }

  /** The streaming loop: grow the buffer chunk by chunk; an exception ends
      the turn with an error instead. */
  method AccumulateStream(chunks: seq<StreamChunk>) returns (r: Result<string>)
    ensures r == StreamText(chunks)
  {
    var buffer := "";
    var k := 0;
    while k < |chunks|
      invariant 0 <= k <= |chunks|
      invariant StreamText(chunks[..k]) == Ok(buffer)
    {
      StreamTextSnoc(chunks, k);
      var next := AppendChunk(buffer, chunks[k]);
      if next.Err? {
        StreamFails(chunks, k);
        return next;
      }
      buffer := next.value;
      k := k + 1;
    }
    assert chunks[..k] == chunks;
    r := Ok(buffer);
  }

  /** A chunk that fails after a clean prefix fails the whole stream. */
  lemma StreamFails(chunks: seq<StreamChunk>, k: nat)
    requires k < |chunks| && StreamText(chunks[..k]).Ok? && ChunkText(chunks[k]).Err?
    ensures StreamText(chunks) == ChunkText(chunks[k])
  {
    StreamTextSnoc(chunks, k);
    StreamErrSticky(chunks[..k + 1], chunks[k + 1..]);
    SplitAt(chunks, k + 1);
  }

  /** Once the stream has failed, later chunks change nothing. */
  lemma StreamErrSticky(a: seq<StreamChunk>, b: seq<StreamChunk>)
    requires StreamText(a).Err?
    ensures StreamText(a + b) == StreamText(a)
  {
    StreamTextAppend(a, b);
  }

  /** A sequence is its prefix followed by its suffix. */
  lemma SplitAt<T>(s: seq<T>, n: nat)
    requires n <= |s|
    ensures s[..n] + s[n..] == s
  {
  }

  // ---------------------------------------------------------------------
  // References

  /** The name a retrieved document is cited by. */
  function FileNameOf(d: Document): string
  {
    MetadataGet(d, "file_name", "Unknown document")
  }

  /** The cited names of `docs`, in retrieval order, repeats included. */
  function FileNames(docs: seq<Document>): (r: seq<string>)
    ensures |r| == |docs|
    ensures forall i | 0 <= i < |docs| :: r[i] == FileNameOf(docs[i])
  {
    seq(|docs|, i requires 0 <= i < |docs| => FileNameOf(docs[i]))
  }

  /** `names` without repeats and without anything already in `seen`, each
      kept at its first appearance. */
  function DedupFrom(names: seq<string>, seen: set<string>): seq<string>
  {
    if names == [] then []
    else if names[0] in seen then DedupFrom(names[1..], seen)
    else [names[0]] + DedupFrom(names[1..], seen + {names[0]})
  }

  /** The reference list of the retrieved documents `docs`. */
  function References(docs: seq<Document>): seq<string>
  {
    DedupFrom(FileNames(docs), {})
  }

  /** The kept names are exactly the unseen names of the input. */
  lemma {:induction false} DedupFromMembers(names: seq<string>, seen: set<string>)
    ensures forall x :: x in DedupFrom(names, seen) <==> x in names && x !in seen
  {
    if names != [] {
      if names[0] in seen {
        DedupFromMembers(names[1..], seen);
      } else {
        DedupFromMembers(names[1..], seen + {names[0]});
      }
      assert names == [names[0]] + names[1..];
    }
  }

  /** No name is kept twice. */
  lemma {:induction false} DedupFromDistinct(names: seq<string>, seen: set<string>)
    ensures forall i, j | 0 <= i < j < |DedupFrom(names, seen)| ::
              DedupFrom(names, seen)[i] != DedupFrom(names, seen)[j]
  {
    if names != [] {
      if names[0] in seen {
        DedupFromDistinct(names[1..], seen);
      } else {
        var rest := DedupFrom(names[1..], seen + {names[0]});
        DedupFromDistinct(names[1..], seen + {names[0]});
        DedupFromMembers(names[1..], seen + {names[0]});
        assert names[0] !in rest;
      }
    }
  }

  /** Past the head, a name other than the head sits one place further on. */
  lemma IndexOfTail(names: seq<string>, x: string)
    requires x in names && names[0] != x
    ensures x in names[1..] && IndexOf(names, x) == 1 + IndexOf(names[1..], x)
  {
    assert names == [names[0]] + names[1..];
  }

  /** The kept names appear in the order of their first appearance. */
  lemma {:induction false} DedupFromOrder(names: seq<string>, seen: set<string>)
    ensures forall x | x in DedupFrom(names, seen) :: x in names
    ensures forall i, j | 0 <= i < j < |DedupFrom(names, seen)| ::
              IndexOf(names, DedupFrom(names, seen)[i]) < IndexOf(names, DedupFrom(names, seen)[j])
  {
    DedupFromMembers(names, seen);
    if names != [] {
      var r := DedupFrom(names, seen);
      if names[0] in seen {
        DedupFromOrder(names[1..], seen);
        DedupFromMembers(names[1..], seen);
        forall i, j | 0 <= i < j < |r|
          ensures IndexOf(names, r[i]) < IndexOf(names, r[j])
        {
          IndexOfShift(names, r[i], r[j]);
        }
      } else {
        var rest := DedupFrom(names[1..], seen + {names[0]});
        DedupFromOrder(names[1..], seen + {names[0]});
        DedupFromMembers(names[1..], seen + {names[0]});
        assert r == [names[0]] + rest;
        forall i, j | 0 <= i < j < |r|
          ensures IndexOf(names, r[i]) < IndexOf(names, r[j])
        {
          assert r[j] == rest[j - 1];
          if i > 0 {
            assert r[i] == rest[i - 1];
            IndexOfShift(names, r[i], r[j]);
          } else {
            IndexOfTail(names, r[j]);
          }
        }
      }
    }
  }

  /** Two names past the head keep their relative order in the whole. */
  lemma IndexOfShift(names: seq<string>, x: string, y: string)
    requires names != [] && x in names[1..] && y in names[1..] && x != names[0] && y != names[0]
    requires IndexOf(names[1..], x) < IndexOf(names[1..], y)
    ensures IndexOf(names, x) < IndexOf(names, y)
  {
    assert names == [names[0]] + names[1..];
    IndexOfTail(names, x);
    IndexOfTail(names, y);
  }

  /** The references cite every retrieved file, each once, in order of first
      retrieval; with nothing retrieved there are none. */
  lemma ReferencesExact(docs: seq<Document>)
    ensures forall x | x in References(docs) :: x in FileNames(docs)
    ensures forall x :: x in References(docs) <==> exists i | 0 <= i < |docs| :: FileNameOf(docs[i]) == x
    ensures forall i, j | 0 <= i < j < |References(docs)| :: References(docs)[i] != References(docs)[j]
    ensures forall i, j | 0 <= i < j < |References(docs)| ::
              IndexOf(FileNames(docs), References(docs)[i]) < IndexOf(FileNames(docs), References(docs)[j])
    ensures docs == [] ==> References(docs) == []
  {
    var names := FileNames(docs);
    DedupFromMembers(names, {});
    DedupFromDistinct(names, {});
    DedupFromOrder(names, {});
    forall x
      ensures x in names <==> exists i | 0 <= i < |docs| :: FileNameOf(docs[i]) == x
    {
      if x in names {
        var i :| 0 <= i < |names| && names[i] == x;
        assert FileNameOf(docs[i]) == x;
      }
    }
  }

  /** A retrieved document without a `file_name` is cited as
      `Unknown document`. */
  lemma UnknownDocumentCited(docs: seq<Document>, i: nat)
    requires i < |docs| && "file_name" !in docs[i].metadata
    ensures "Unknown document" in References(docs)
  {
    ReferencesExact(docs);
    assert FileNameOf(docs[i]) == "Unknown document";
  }

  /** The reference loop: a name is appended when it has not been seen. */
  method ReferenceFiles(retrievedDocs: seq<Document>) returns (referenceFiles: seq<string>)
    ensures referenceFiles == References(retrievedDocs)
  {
    referenceFiles := [];
    if retrievedDocs != [] {
      var names := FileNames(retrievedDocs);
      var displayedFiles: set<string> := {};
      var i := 0;
      while i < |retrievedDocs|
        invariant 0 <= i <= |retrievedDocs|
        invariant referenceFiles + DedupFrom(names[i..], displayedFiles) == References(retrievedDocs)
      {
        assert names[i..][1..] == names[i + 1..];
        var fileName := FileNameOf(retrievedDocs[i]);
        if fileName !in displayedFiles {
          displayedFiles := displayedFiles + {fileName};
          referenceFiles := referenceFiles + [fileName];
        }
        i := i + 1;
      }
      assert names[i..] == [];
    }
  }

  // ---------------------------------------------------------------------
  // The chat history

  /** One entry of the page's message history; only assistant entries carry
      reference files. */
  datatype ChatEntry = ChatEntry(role: string, content: string, timestamp: string,
                                 referenceFiles: Option<seq<string>>)

  /** The page's `messages` history. */
  class ChatSession {
    var messages: seq<ChatEntry>

    constructor()
      ensures messages == []
    {
      messages := [];
    }

    /** One chat turn: record the prompt, stream the answer, and on success
        record it with the files the retrieval tool last returned; an error
        during streaming records no answer. `chunks` are the items the agent's
        stream yields, `raised` the exception the stream itself raises after
        them, if any; `userTime` and `answerTime` are the clock readings. */
    method Respond(prompt: string, chunks: seq<StreamChunk>, raised: Option<string>,
                   tool: RetrievalTool, userTime: string, answerTime: string)
      modifies this
      ensures var user := ChatEntry("user", prompt, userTime, None);
        match StreamText(chunks)
        case Ok(buffer) =>
          if raised.None? then
            messages == old(messages) + [user,
              ChatEntry("assistant", buffer, answerTime, Some(References(tool.lastDocs)))]
          else
            messages == old(messages) + [user]
        case Err(_) =>
          messages == old(messages) + [user]
    {
      messages := messages + [ChatEntry("user", prompt, userTime, None)];
      var streamed := AccumulateStream(chunks);
      if streamed.Err? || raised.Some? {
        return;
      }
      var retrievedDocs := tool.GetLastDocs();
      var referenceFiles := ReferenceFiles(retrievedDocs);
      messages := messages + [ChatEntry("assistant", streamed.value, answerTime, Some(referenceFiles))];
    }
  }
}
