/** Long-term conversation memory: the message ids, the persistence of user
    and assistant turns into the conversation-history collection, the
    retrieval of similar past turns into the system prompt, and the removal
    of a dangling tool call. The collection is a map from message id to the
    stored text and its metadata; md5, the clock and similarity search are
    parameters. */
module LongTermMemory {
  import opened Wrappers
  import opened Text
  import opened Documents
  import opened Messages

  /** A stored turn: its text and its `role` and `timestamp` metadata. */
  datatype MemoryRecord = MemoryRecord(text: string, role: string, timestamp: string)

  // ---------------------------------------------------------------------
  // Message ids

  /** The string that `generate_msg_id` hashes. */
  function RawKey(role: string, content: string): string
  {
    role + ":" + content
  }

  /** `generate_msg_id(content, role)`, `md5` giving the hex digest. */
  function GenerateMsgId(md5: string -> string, content: string, role: string): string
  {
    md5(RawKey(role, content))
  }

  /** The two roles the middlewares store under. */
  predicate IsRole(role: string)
  {
    role == "user" || role == "assistant"
  }

  /** For the two stored roles the hashed key determines role and content:
      a user turn and an assistant turn never share a key, and within a role
      the key is the content. */
  lemma RawKeysApart(r1: string, c1: string, r2: string, c2: string)
    requires IsRole(r1) && IsRole(r2)
    ensures RawKey(r1, c1) == RawKey(r2, c2) <==> r1 == r2 && c1 == c2
  {
    if RawKey(r1, c1) == RawKey(r2, c2) {
      assert RawKey(r1, c1)[0] == r1[0] && RawKey(r2, c2)[0] == r2[0];
      assert r1 == r2;
      assert c1 == RawKey(r1, c1)[|r1| + 1..];
      assert c2 == RawKey(r2, c2)[|r2| + 1..];
    }
  }

  /** When md5 does not collide on the keys, turns with different (role,
      content) get different ids, and equal ones always the same id. */
  lemma MsgIdsIdentifyTurns(md5: string -> string, r1: string, c1: string, r2: string, c2: string)
    requires IsRole(r1) && IsRole(r2)
    requires md5(RawKey(r1, c1)) == md5(RawKey(r2, c2)) ==> RawKey(r1, c1) == RawKey(r2, c2)
    ensures GenerateMsgId(md5, c1, r1) == GenerateMsgId(md5, c2, r2) <==> r1 == r2 && c1 == c2
  {
    RawKeysApart(r1, c1, r2, c2);
  }

  // ---------------------------------------------------------------------
  // Content normalisation

  /** `[item["text"] for item in content if isinstance(item, dict) and "text" in item]`. */
  function TextParts(items: seq<Part>): seq<string>
  {
    if items == [] then []
    else (if HasText(items[0]) then [items[0].fields["text"]] else []) + TextParts(items[1..])
  }

  /** The text of message content: a string as it is, a list as the `" "`-join
      of its text parts. */
  function NormalizeContent(c: Content): string
  {
    match c
    case Text(s) => s
    case Parts(items) => Join(" ", TextParts(items))
  }

  /** The text parts of a list are those of its halves, in order. */
  lemma {:induction false} TextPartsAppend(a: seq<Part>, b: seq<Part>)
    ensures TextParts(a + b) == TextParts(a) + TextParts(b)
  {
    if a != [] {
      assert (a + b)[0] == a[0];
      assert (a + b)[1..] == a[1..] + b;
      TextPartsAppend(a[1..], b);
    } else {
      assert a + b == b;
    }
  }

  /** A dict item carrying `"text"`. */
  predicate HasText(p: Part)
  {
    p.DictPart? && "text" in p.fields
  }

  /** `t` is the `"text"` value of some dict item of `items`. */
  predicate FromItem(items: seq<Part>, t: string)
  {
    exists i | 0 <= i < |items| :: HasText(items[i]) && items[i].fields["text"] == t
  }

  /** Every text part is the `"text"` value of some dict item, and there are
      no more text parts than items. */
  lemma {:induction false} TextPartsFromItems(items: seq<Part>)
    ensures forall j | 0 <= j < |TextParts(items)| :: FromItem(items, TextParts(items)[j])
    ensures |TextParts(items)| <= |items|
  {
    if items != [] {
      TextPartsFromItems(items[1..]);
      var head := if HasText(items[0]) then [items[0].fields["text"]] else [];
      var tail := TextParts(items[1..]);
      assert TextParts(items) == head + tail;
      forall j | 0 <= j < |TextParts(items)|
        ensures FromItem(items, TextParts(items)[j])
      {
        if j >= |head| {
          assert TextParts(items)[j] == tail[j - |head|];
          assert FromItem(items[1..], tail[j - |head|]);
          var i :| 0 <= i < |items[1..]| && HasText(items[1..][i]) && items[1..][i].fields["text"] == tail[j - |head|];
          assert items[i + 1] == items[1..][i];
        } else {
          assert HasText(items[0]) && items[0].fields["text"] == TextParts(items)[j];
        }
      }
    }
  }

  /** Every dict item carrying `"text"` contributes its value. */
  lemma {:induction false} TextPartsCoverItems(items: seq<Part>)
    ensures forall i | 0 <= i < |items| && HasText(items[i]) :: items[i].fields["text"] in TextParts(items)
  {
    if items != [] {
      TextPartsCoverItems(items[1..]);
      forall i | 0 <= i < |items| && HasText(items[i])
        ensures items[i].fields["text"] in TextParts(items)
      {
        if i > 0 {
          assert items[1..][i - 1] == items[i];
        }
      }
    }
  }

  /** List content with no dict item carrying `"text"` normalises to `""`,
      which is never stored; bare string items contribute nothing. */
  lemma NoTextPartsNothingToStore(items: seq<Part>)
    requires forall i | 0 <= i < |items| :: !HasText(items[i])
    ensures NormalizeContent(Parts(items)) == ""
    ensures !HasNonSpace(NormalizeContent(Parts(items)))
  {
    TextPartsFromItems(items);
  }

  // ---------------------------------------------------------------------
  // Persistence

  /** `chroma_store.add_texts` with an explicit id: an upsert under the id. */
  function Persist(store: map<string, MemoryRecord>, md5: string -> string, role: string,
                   content: string, timestamp: string): map<string, MemoryRecord>
  {
    store[GenerateMsgId(md5, content, role) := MemoryRecord(content, role, timestamp)]
  }

  /** The same turn persisted once per timestamp in `timestamps`. */
  function PersistRepeatedly(store: map<string, MemoryRecord>, md5: string -> string, role: string,
                             content: string, timestamps: seq<string>): map<string, MemoryRecord>
    decreases |timestamps|
  {
    if timestamps == [] then store
    else PersistRepeatedly(Persist(store, md5, role, content, timestamps[0]), md5, role, content, timestamps[1..])
  }

  /** Persisting the same (role, content) any positive number of times leaves
      one entry under its id, holding the latest timestamp, and nothing else
      changes. */
  lemma {:induction false} PersistRepeatedlyOneEntry(store: map<string, MemoryRecord>, md5: string -> string,
                                                     role: string, content: string, timestamps: seq<string>)
    requires timestamps != []
    ensures PersistRepeatedly(store, md5, role, content, timestamps)
            == Persist(store, md5, role, content, timestamps[|timestamps| - 1])
    ensures PersistRepeatedly(store, md5, role, content, timestamps).Keys
            == store.Keys + {GenerateMsgId(md5, content, role)}
    decreases |timestamps|
  {
    var next := Persist(store, md5, role, content, timestamps[0]);
    if |timestamps| > 1 {
      PersistRepeatedlyOneEntry(next, md5, role, content, timestamps[1..]);
      assert Persist(next, md5, role, content, timestamps[|timestamps| - 1])
             == Persist(store, md5, role, content, timestamps[|timestamps| - 1]);
    } else {
      assert PersistRepeatedly(next, md5, role, content, timestamps[1..]) == next;
    }
  }

  /** The text `save_user_messages_middleware` stores: that of the last
      message when it is a human message with non-blank text. */
  function UserTurn(messages: seq<Message>): Option<string>
  {
    if messages == [] then None
    else
      var last := messages[|messages| - 1];
      if !last.Human? then None
      else
        var content := NormalizeContent(last.content);
        if HasNonSpace(content) then Some(content) else None
  }

  /** The tool calls of a response, `[]` for a message kind that has none. */
  function ToolCallsOf(m: Message): seq<ToolCall>
  {
    if m.AI? then m.toolCalls else []
  }

  /** The text `save_assistant_response_middleware` stores: that of a
      response without tool calls whose text is not blank. */
  function AssistantTurn(response: Option<Message>): Option<string>
  {
    if response.None? || ToolCallsOf(response.value) != [] then None
    else
      var content := NormalizeContent(response.value.content);
      if HasNonSpace(content) then Some(content) else None
  }

  /** The collection after a save middleware: the turn is upserted under
      `role`, unless there is none or `add_texts` raised (`storeFails`),
      which is caught and logged. */
  function SaveTurn(store: map<string, MemoryRecord>, turn: Option<string>, role: string,
                    md5: string -> string, timestamp: string, storeFails: bool): map<string, MemoryRecord>
  {
    if turn.None? || storeFails then store else Persist(store, md5, role, turn.value, timestamp)
  }

  /** The user turn is stored exactly when the last message is human with
      non-blank text, under role `"user"` and its own id; blank text is never
      stored. */
  lemma SaveUserStoresHumanOnly(store: map<string, MemoryRecord>, messages: seq<Message>,
                                md5: string -> string, timestamp: string, storeFails: bool)
    ensures var after := SaveTurn(store, UserTurn(messages), "user", md5, timestamp, storeFails);
      && (UserTurn(messages).Some? ==>
            (&& messages[|messages| - 1].Human?
             && UserTurn(messages).value == NormalizeContent(messages[|messages| - 1].content)
             && HasNonSpace(UserTurn(messages).value)))
      && (messages != [] && messages[|messages| - 1].Human?
          && HasNonSpace(NormalizeContent(messages[|messages| - 1].content)) ==>
            UserTurn(messages) == Some(NormalizeContent(messages[|messages| - 1].content)))
      && (after != store ==> UserTurn(messages).Some? && !storeFails)
      && (UserTurn(messages).Some? && !storeFails ==>
            var id := GenerateMsgId(md5, UserTurn(messages).value, "user");
            && after.Keys == store.Keys + {id}
            && after[id] == MemoryRecord(UserTurn(messages).value, "user", timestamp)
            && forall k | k in store && k != id :: after[k] == store[k])
  {
  }

  /** The response is stored exactly when it has no tool calls and non-blank
      text, under role `"assistant"`; blank text is never stored, a failing
      store changes nothing, and other records are kept. */
  lemma SaveAssistantSkipsToolCalls(store: map<string, MemoryRecord>, response: Option<Message>,
                                    md5: string -> string, timestamp: string, storeFails: bool)
    ensures var after := SaveTurn(store, AssistantTurn(response), "assistant", md5, timestamp, storeFails);
      && (response.None? || ToolCallsOf(response.value) != [] ==> after == store)
      && (AssistantTurn(response).Some? ==> HasNonSpace(AssistantTurn(response).value))
      && (response.Some? && ToolCallsOf(response.value) == []
          && HasNonSpace(NormalizeContent(response.value.content)) ==>
            AssistantTurn(response) == Some(NormalizeContent(response.value.content)))
      && (storeFails ==> after == store)
      && (AssistantTurn(response).Some? && !storeFails ==>
            var id := GenerateMsgId(md5, AssistantTurn(response).value, "assistant");
            && after.Keys == store.Keys + {id}
            && after[id] == MemoryRecord(AssistantTurn(response).value, "assistant", timestamp)
            && forall k | k in store && k != id :: after[k] == store[k])
  {
  }

  // ---------------------------------------------------------------------
  // The dangling tool call

  /** The history ends with an AI message whose tool calls never got results. */
  predicate Dangling(messages: seq<Message>)
  {
    messages != [] && messages[|messages| - 1].AI? && messages[|messages| - 1].toolCalls != []
  }

  /** The history `sanitize_dangling_tool_middleware` leaves behind. */
  function Sanitized(messages: seq<Message>): seq<Message>
  {
    if Dangling(messages) then messages[..|messages| - 1] else messages
  }

  /** The sanitizer changes the history iff it ends in a dangling tool call,
      and then drops exactly that last message. */
  lemma SanitizeDropsOnlyDangling(messages: seq<Message>)
    ensures Sanitized(messages) != messages <==> Dangling(messages)
    ensures Sanitized(messages) <= messages
    ensures Dangling(messages) ==> |Sanitized(messages)| == |messages| - 1
    ensures !Dangling(Sanitized(messages)) || (|messages| >= 2 && Dangling(messages[..|messages| - 1]))
  {
    if Dangling(messages) {
      assert |Sanitized(messages)| != |messages|;
    }
  }

  // ---------------------------------------------------------------------
  // Retrieval into the system prompt

  /** The query `retrieve_similar_history_middleware` searches with: the
      content of a last human or tool message, when truthy. */
  function HistoryQuery(messages: seq<Message>): Option<Content>
  {
    if messages == [] then None
    else
      var last := messages[|messages| - 1];
      var query := if last.Human? || last.Tool? then last.content else Text("");
      if Truthy(query) then Some(query) else None
  }

  /** The heading of the injected block. */
  const HistoryHeader: string := "## Reference Conversation History (Memory):"

  /** One `- ` bullet per retrieved turn. */
  function Bullets(results: seq<Document>): (r: seq<string>)
    ensures |r| == |results|
    ensures forall i | 0 <= i < |results| :: r[i] == "- " + results[i].pageContent
  {
    seq(|results|, i requires 0 <= i < |results| => "- " + results[i].pageContent)
  }

  /** The block appended to the system prompt. */
  function HistoryBlock(results: seq<Document>): string
  {
    "\n\n" + HistoryHeader + "\n" + Join("\n", Bullets(results)) + "\n"
  }

  /** The prompt the block is appended to: the runtime's `system` when
      truthy, else the state's, else `""`. */
  function OriginalSystem(kwargs: map<string, string>, stateSystem: Option<string>): string
  {
    if "system" in kwargs && kwargs["system"] != "" then kwargs["system"]
    else if stateSystem.Some? && stateSystem.value != "" then stateSystem.value
    else ""
  }

  /** The runtime kwargs after `retrieve_similar_history_middleware`, or the
      error the search raised (nothing catches it). */
  function RetrieveSpec(kwargs: map<string, string>, messages: seq<Message>, stateSystem: Option<string>,
                        search: (Content, nat) -> Result<seq<Document>>): Result<map<string, string>>
  {
    match HistoryQuery(messages)
    case None => Ok(kwargs)
    case Some(q) =>
      match search(q, 3)
      case Err(e) => Err(e)
      case Ok(results) =>
        if results == [] then Ok(kwargs)
        else Ok(kwargs["system" := OriginalSystem(kwargs, stateSystem) + HistoryBlock(results)])
  }

  /** Retrieval rewrites `system` only, and only for a truthy query with
      results; then the prompt is the original one followed by the block. */
  lemma RetrieveInjects(kwargs: map<string, string>, messages: seq<Message>, stateSystem: Option<string>,
                        search: (Content, nat) -> Result<seq<Document>>)
    ensures var r := RetrieveSpec(kwargs, messages, stateSystem, search);
      && (r.Err? <==> HistoryQuery(messages).Some? && search(HistoryQuery(messages).value, 3).Err?)
      && (r.Ok? ==> forall key | key != "system" :: (key in r.value <==> key in kwargs)
                                                && (key in kwargs ==> r.value[key] == kwargs[key]))
      && (r.Ok? && r.value != kwargs ==>
            var results := search(HistoryQuery(messages).value, 3).value;
            && results != []
            && r.value["system"] == OriginalSystem(kwargs, stateSystem) + HistoryBlock(results))
      && (HistoryQuery(messages).None? ==> r == Ok(kwargs))
      && (HistoryQuery(messages).Some? && search(HistoryQuery(messages).value, 3).Ok? ==>
            var results := search(HistoryQuery(messages).value, 3).value;
            && (results == [] ==> r == Ok(kwargs))
            && (results != [] ==>
                  && r.Ok? && "system" in r.value
                  && r.value["system"] == OriginalSystem(kwargs, stateSystem) + HistoryBlock(results)))
  {
  }

  /** Each retrieved turn becomes one line of the block, in search order,
      after two blank lines and the heading (for turns without line breaks). */
  lemma HistoryBlockLines(results: seq<Document>)
    requires results != []
    requires forall i | 0 <= i < |results| :: NoLineBreak(results[i].pageContent)
    ensures SplitLines(HistoryBlock(results)) == ["", "", HistoryHeader] + Bullets(results)
  {
    BulletsNoLineBreak(results);
    HeaderNoLineBreak();
    HeadedBlockLines(HistoryHeader, Bullets(results));
  }

  /** Two blank lines, a heading and `"\n"`-terminated lines read back as
      those lines. */
  lemma HeadedBlockLines(header: string, lines: seq<string>)
    requires NoLineBreak(header) && lines != []
    requires forall i | 0 <= i < |lines| :: NoLineBreak(lines[i])
    ensures SplitLines("\n\n" + header + "\n" + Join("\n", lines) + "\n") == ["", "", header] + lines
  {
    var t1 := header + "\n" + (Join("\n", lines) + "\n");
    BlockShape(header, Join("\n", lines));
    SplitLinesOfTerminatedJoin(lines);
    SplitLinesLine(header, Join("\n", lines) + "\n");
    SplitLinesBlank(t1);
    SplitLinesBlank("\n" + t1);
    ThreeHeadLines(header, lines);
  }

  /** Three leading lines put in front one at a time. */
  lemma ThreeHeadLines(header: string, lines: seq<string>)
    ensures [""] + ([""] + ([header] + lines)) == ["", "", header] + lines
  {
  }

  /** The block regrouped as two leading `"\n"` before the heading line. */
  lemma BlockShape(header: string, j: string)
    ensures "\n\n" + header + "\n" + j + "\n" == "\n" + ("\n" + (header + "\n" + (j + "\n")))
  {
  }

  /** A leading `"\n"` is an empty first line. */
  lemma SplitLinesBlank(rest: string)
    ensures SplitLines("\n" + rest) == [""] + SplitLines(rest)
  {
    SplitLinesLine("", rest);
    assert "" + "\n" + rest == "\n" + rest;
  }

  /** The heading is a single line. */
  lemma HeaderNoLineBreak()
    ensures NoLineBreak(HistoryHeader)
  {
    forall i | 0 <= i < |HistoryHeader|
      ensures !IsLineBreak(HistoryHeader[i])
    {
    }
  }

  /** A bullet of a turn without line breaks is a single line. */
  lemma BulletsNoLineBreak(results: seq<Document>)
    requires forall i | 0 <= i < |results| :: NoLineBreak(results[i].pageContent)
    ensures forall i | 0 <= i < |results| :: NoLineBreak(Bullets(results)[i])
  {
    forall i | 0 <= i < |results|
      ensures NoLineBreak(Bullets(results)[i])
    {
      var c := results[i].pageContent;
      assert Bullets(results)[i] == "- " + c;
      forall j | 0 <= j < |"- " + c|
        ensures !IsLineBreak(("- " + c)[j])
      {
        if j >= 2 {
          assert ("- " + c)[j] == c[j - 2];
        }
      }
    }
  }

  /** Runtime kwargs outlive one model call: a second retrieval in the same
      run appends the block again after the first one. */
  lemma RetrieveRepeatedGrows(kwargs: map<string, string>, messages: seq<Message>, stateSystem: Option<string>,
                              search: (Content, nat) -> Result<seq<Document>>)
    requires HistoryQuery(messages).Some?
    requires search(HistoryQuery(messages).value, 3).Ok? && search(HistoryQuery(messages).value, 3).value != []
    ensures var results := search(HistoryQuery(messages).value, 3).value;
            var once := RetrieveSpec(kwargs, messages, stateSystem, search).value;
            var twice := RetrieveSpec(once, messages, stateSystem, search).value;
            twice["system"] == OriginalSystem(kwargs, stateSystem) + HistoryBlock(results) + HistoryBlock(results)
  {
  }

  // ---------------------------------------------------------------------
  // The middlewares over the agent's objects

  /** The agent state the middlewares see. */
  class AgentState {
    var messages: seq<Message>
    /** `state.system`, `None` when the state has no such attribute. */
    var system: Option<string>
    /** `state.response`, `None` when the state has no such attribute. */
    var response: Option<Message>

    constructor(messages: seq<Message>, system: Option<string>, response: Option<Message>)
      ensures this.messages == messages && this.system == system && this.response == response
    {
      this.messages := messages;
      this.system := system;
      this.response := response;
    }
  }

  /** The runtime passed to a middleware; `kwargs` lives for one agent run. */
  class Runtime {
    var kwargs: map<string, string>

    constructor(kwargs: map<string, string>)
      ensures this.kwargs == kwargs
    {
      this.kwargs := kwargs;
    }
  }

  /** The `conversation_history` collection. */
  class ChromaStore {
    var records: map<string, MemoryRecord>

    constructor(records: map<string, MemoryRecord>)
      ensures this.records == records
    {
      this.records := records;
    }
  }

  /** `retrieve_similar_history_middleware`: returns the state it was given,
      leaving its messages alone, or fails with the search's error. */
  method RetrieveSimilarHistoryMiddleware(state: AgentState, runtime: Runtime,
                                          search: (Content, nat) -> Result<seq<Document>>)
    returns (outcome: Result<AgentState>)
    modifies runtime
    ensures match RetrieveSpec(old(runtime.kwargs), state.messages, state.system, search)
      case Ok(k) => outcome == Ok(state) && runtime.kwargs == k
      case Err(e) => outcome == Err(e) && runtime.kwargs == old(runtime.kwargs)
  {
    var messages := state.messages;
    if messages == [] {
      return Ok(state);
    }
    var lastMsg := messages[|messages| - 1];
    var currentQuery := Text("");
    if lastMsg.Human? {
      currentQuery := lastMsg.content;
    } else if lastMsg.Tool? {
      currentQuery := lastMsg.content;
    }
    if !Truthy(currentQuery) {
      return Ok(state);
    }
    var results := search(currentQuery, 3);
    if results.Err? {
      return Err(results.error);
    }
    if results.value != [] {
      var historyContext := Join("\n", Bullets(results.value));
      var additionalPrompt := "\n\n" + HistoryHeader + "\n" + historyContext + "\n";
      var originalSystem := OriginalSystem(runtime.kwargs, state.system);
      runtime.kwargs := runtime.kwargs["system" := originalSystem + additionalPrompt];
    }
    return Ok(state);
  }

  /** `save_user_messages_middleware`; `storeFails` says whether `add_texts`
      raises. */
  method SaveUserMessagesMiddleware(state: AgentState, store: ChromaStore, md5: string -> string,
                                    timestamp: string, storeFails: bool)
    returns (result: AgentState)
    modifies store
    ensures result == state
    ensures store.records == SaveTurn(old(store.records), UserTurn(state.messages), "user", md5, timestamp, storeFails)
  {
    var messages := state.messages;
    if messages == [] {
      return state;
    }
    var lastMsg := messages[|messages| - 1];
    if lastMsg.Human? {
      var content := NormalizeContent(lastMsg.content);
      if HasNonSpace(content) && !storeFails {
        var msgId := GenerateMsgId(md5, content, "user");
        store.records := store.records[msgId := MemoryRecord(content, "user", timestamp)];
      }
    }
    return state;
  }

  /** `save_assistant_response_middleware`. */
  method SaveAssistantResponseMiddleware(state: AgentState, store: ChromaStore, md5: string -> string,
                                         timestamp: string, storeFails: bool)
    returns (result: AgentState)
    modifies store
    ensures result == state
    ensures store.records == SaveTurn(old(store.records), AssistantTurn(state.response), "assistant", md5, timestamp, storeFails)
  {
    if state.response.None? {
      return state;
    }
    var response := state.response.value;
    if ToolCallsOf(response) != [] {
      return state;
    }
    var content := NormalizeContent(response.content);
    if HasNonSpace(content) && !storeFails {
      var msgId := GenerateMsgId(md5, content, "assistant");
      store.records := store.records[msgId := MemoryRecord(content, "assistant", timestamp)];
    }
    return state;
  }

  /** `sanitize_dangling_tool_middleware`. */
  method SanitizeDanglingToolMiddleware(state: AgentState) returns (result: AgentState)
    modifies state`messages
    ensures result == state
    ensures state.messages == Sanitized(old(state.messages))
  {
    var messages := state.messages;
    if messages == [] {
      return state;
    }
    var lastMsg := messages[|messages| - 1];
    if lastMsg.AI? && lastMsg.toolCalls != [] {
      state.messages := messages[..|messages| - 1];
    }
    return state;
  }
}
