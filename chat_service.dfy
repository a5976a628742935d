/** The linear chat flow: assembling the message list sent to the language
    model, retrieving context from the vector search, appending an exchange
    to the history, and the three graph nodes that thread these through a
    shared state dictionary. The search and the model are parameters. */
module ChatService {
  import opened Wrappers
  import opened Text

  /** A history entry: a dictionary of string values, normally with the
      keys "role" and "content". */
  type Entry = map<string, string>

  /** The typed messages the language model receives. */
  datatype Message =
    | SystemMessage(content: string)
    | HumanMessage(content: string)
    | AIMessage(content: string)

  /** `entry.get("role") == role`. */
  predicate HasRole(entry: Entry, role: string)
  {
    "role" in entry && entry["role"] == role
  }

  /** `entry.get("content", "")`. */
  function ContentOf(entry: Entry): string
  {
    if "content" in entry then entry["content"] else ""
  }

  /** Whether an entry takes part in the conversation sent to the model. */
  predicate IsChatEntry(entry: Entry)
  {
    HasRole(entry, "user") || HasRole(entry, "assistant")
  }

  /** The message one kept entry becomes. */
  function ToMessage(entry: Entry): (m: Message)
    requires IsChatEntry(entry)
  {
    if HasRole(entry, "user") then HumanMessage(ContentOf(entry)) else AIMessage(ContentOf(entry))
  }

  /** What one history entry contributes to the message list. */
  function EntryMessages(entry: Entry): seq<Message>
  {
    if IsChatEntry(entry) then [ToMessage(entry)] else []
  }

  /** The messages a history contributes, entry by entry. */
  function Translate(history: seq<Entry>): (r: seq<Message>)
    ensures |r| <= |history|
    ensures forall i :: 0 <= i < |r| ==> !r[i].SystemMessage?
  {
    if |history| == 0 then []
    else Translate(history[..|history| - 1]) + EntryMessages(history[|history| - 1])
  }

  /** The user and assistant entries of a history, in history order. */
  function ChatEntries(history: seq<Entry>): (r: seq<Entry>)
    ensures |r| <= |history|
    ensures forall i :: 0 <= i < |r| ==> IsChatEntry(r[i]) && r[i] in history
  {
    if |history| == 0 then []
    else
      var front := ChatEntries(history[..|history| - 1]);
      var last := history[|history| - 1];
      assert forall e :: e in front ==> e in history[..|history| - 1] ==> e in history;
      if IsChatEntry(last) then front + [last] else front
  }

  /** The message list `build_conversation_history` assembles. */
  function Conversation(history: seq<Entry>, userPrompt: string, systemInstructions: string): (r: seq<Message>)
    ensures 2 <= |r| <= |history| + 2
    ensures r[0] == SystemMessage(systemInstructions) && r[|r| - 1] == HumanMessage(userPrompt)
    ensures forall i :: 1 <= i < |r| ==> !r[i].SystemMessage?
  {
    [SystemMessage(systemInstructions)] + Translate(history) + [HumanMessage(userPrompt)]
  }

  /** Filtering two histories in a row is filtering each in turn: every
      user or assistant entry is kept, in history order. */
  lemma {:induction false} ChatEntriesConcat(a: seq<Entry>, b: seq<Entry>)
    ensures ChatEntries(a + b) == ChatEntries(a) + ChatEntries(b)
    decreases |b|
  {
    if |b| == 0 {
      assert a + b == a;
    } else {
      var b' := b[..|b| - 1];
      assert (a + b)[..|a + b| - 1] == a + b';
      assert (a + b)[|a + b| - 1] == b[|b| - 1];
      ChatEntriesConcat(a, b');
    }
  }

  /** The history contributes one message per user or assistant entry, and
      the i-th is made from the i-th such entry: other roles are dropped and
      relative order is kept. */
  lemma {:induction false} TranslateMapsChatEntries(history: seq<Entry>)
    ensures |Translate(history)| == |ChatEntries(history)|
    ensures forall i :: 0 <= i < |Translate(history)| ==>
      Translate(history)[i] == ToMessage(ChatEntries(history)[i])
  {
    if |history| > 0 {
      TranslateMapsChatEntries(history[..|history| - 1]);
    }
  }

  /** Entries are translated independently, earlier entries first. */
  lemma {:induction false} TranslateConcat(a: seq<Entry>, b: seq<Entry>)
    ensures Translate(a + b) == Translate(a) + Translate(b)
    decreases |b|
  {
    if |b| == 0 {
      assert a + b == a;
    } else {
      var b' := b[..|b| - 1];
      assert (a + b)[..|a + b| - 1] == a + b';
      assert (a + b)[|a + b| - 1] == b[|b| - 1];
      TranslateConcat(a, b');
    }
  }

  /** An entry whose role is neither "user" nor "assistant" adds no message. */
  lemma UnknownRoleDropped(history: seq<Entry>, entry: Entry)
    requires !IsChatEntry(entry)
    ensures Translate(history + [entry]) == Translate(history)
  {
    assert (history + [entry])[..|history|] == history;
  }

  /** A user or assistant entry is kept: it adds its own message after the
      messages of the entries before it, whatever its content. */
  lemma ChatEntryKept(history: seq<Entry>, entry: Entry)
    requires IsChatEntry(entry)
    ensures Translate(history + [entry]) == Translate(history) + [ToMessage(entry)]
    ensures ChatEntries(history + [entry]) == ChatEntries(history) + [entry]
  {
    assert (history + [entry])[..|history|] == history;
  }

  /** A user or assistant entry without "content" becomes a message with
      empty content. */
  lemma MissingContentIsEmpty(entry: Entry)
    requires IsChatEntry(entry) && "content" !in entry
    ensures ToMessage(entry).content == ""
  {
  }

  /** An exchange appended with `update_history` shows up, in order, at the
      end of the messages assembled from that history on the next turn. */
  lemma ExchangeReappears(history: seq<Entry>, userPrompt: string, aiResponse: string)
    ensures Translate(history + [UserEntry(userPrompt), AssistantEntry(aiResponse)]) ==
            Translate(history) + [HumanMessage(userPrompt), AIMessage(aiResponse)]
  {
    var user, assistant := UserEntry(userPrompt), AssistantEntry(aiResponse);
    assert user["role"] == "user" && user["content"] == userPrompt;
    assert assistant["role"] == "assistant" && assistant["content"] == aiResponse;
    assert EntryMessages(user) == [HumanMessage(userPrompt)];
    assert EntryMessages(assistant) == [AIMessage(aiResponse)];
    var pair := [user, assistant];
    TranslateConcat(history, pair);
    assert pair[..1] == [user];
    assert [user][..0] == [];
    assert Translate([user]) == [HumanMessage(userPrompt)];
    assert Translate(pair) == Translate(pair[..1]) + EntryMessages(assistant);
  }

  /** Translating one more entry of a history. */
  lemma TranslateStep(history: seq<Entry>, i: nat)
    requires i < |history|
    ensures Translate(history[..i + 1]) == Translate(history[..i]) + EntryMessages(history[i])
  {
    assert history[..i + 1][..i] == history[..i];
  }

  /** `build_conversation_history`: the system message, then one message per
      user or assistant entry, then the user's prompt. */
  method BuildConversationHistory(history: seq<Entry>, userPrompt: string, systemInstructions: string)
    returns (messages: seq<Message>)
    ensures messages == Conversation(history, userPrompt, systemInstructions)
    ensures |messages| == 2 + |ChatEntries(history)|
    ensures messages[0] == SystemMessage(systemInstructions)
    ensures messages[|messages| - 1] == HumanMessage(userPrompt)
    ensures forall i :: 1 <= i < |messages| - 1 ==> messages[i] == ToMessage(ChatEntries(history)[i - 1])
  {
    messages := [SystemMessage(systemInstructions)];
    for i := 0 to |history|
      invariant messages == [SystemMessage(systemInstructions)] + Translate(history[..i])
    {
      var entry := history[i];
      var role := if "role" in entry then Some(entry["role"]) else None;
      var content := if "content" in entry then entry["content"] else "";
      TranslateStep(history, i);
      if role == Some("user") {
        messages := messages + [HumanMessage(content)];
      } else if role == Some("assistant") {
        messages := messages + [AIMessage(content)];
      }
    }
    assert history[..|history|] == history;
    messages := messages + [HumanMessage(userPrompt)];
    TranslateMapsChatEntries(history);
  }

  /** One search hit: a string, a dictionary (with the value under "content"
      when that key is present, and the text `str(doc)` gives), or any other
      object with the text `str(doc)` gives. */
  datatype Hit =
    | TextHit(text: string)
    | DictHit(content: Option<string>, shown: string)
    | OtherHit(shown: string)

  /** The context part one hit yields. */
  function HitText(hit: Hit): string
  {
    match hit
    case TextHit(text) => text
    case DictHit(Some(content), _) => content
    case DictHit(None, shown) => shown
    case OtherHit(shown) => shown
  }

  /** The context parts of a list of hits. */
  function ContextParts(hits: seq<Hit>): (parts: seq<string>)
    ensures |parts| == |hits|
    ensures forall i :: 0 <= i < |hits| ==> parts[i] == HitText(hits[i])
  {
    if |hits| == 0 then [] else ContextParts(hits[..|hits| - 1]) + [HitText(hits[|hits| - 1])]
  }

  /** `retrieve_context`: one part per hit in hit order, joined by newlines.
      No hits give the empty string, and when no part holds a newline the
      context splits back into exactly the parts. */
  method RetrieveContext(userPrompt: string, search: string -> seq<Hit>) returns (context: string)
    ensures context == JoinLines(ContextParts(search(userPrompt)))
    ensures |search(userPrompt)| == 0 ==> context == ""
    ensures |search(userPrompt)| > 0 &&
            (forall i :: 0 <= i < |search(userPrompt)| ==> '\n' !in HitText(search(userPrompt)[i])) ==>
            SplitLines(context) == ContextParts(search(userPrompt))
  {
    var relevantDocs := search(userPrompt);
    var contextParts: seq<string> := [];
    for i := 0 to |relevantDocs|
      invariant contextParts == ContextParts(relevantDocs[..i])
    {
      var doc := relevantDocs[i];
      assert relevantDocs[..i + 1][..i] == relevantDocs[..i];
      match doc {
        case TextHit(text) =>
          contextParts := contextParts + [text];
        case DictHit(content, shown) =>
          if content.Some? {
            contextParts := contextParts + [content.value];
          } else {
            contextParts := contextParts + [shown];
          }
        case OtherHit(shown) =>
          contextParts := contextParts + [shown];
      }
    }
    assert relevantDocs[..|relevantDocs|] == relevantDocs;
    context := JoinLines(contextParts);
    if |relevantDocs| > 0 && forall i :: 0 <= i < |relevantDocs| ==> '\n' !in HitText(relevantDocs[i]) {
      SplitJoin(contextParts);
    }
  }

  /** `{"role": "user", "content": prompt}`. */
  function UserEntry(userPrompt: string): Entry
  {
    map["role" := "user", "content" := userPrompt]
  }

  /** `{"role": "assistant", "content": response}`. */
  function AssistantEntry(aiResponse: string): Entry
  {
    map["role" := "assistant", "content" := aiResponse]
  }

  /** A history list, shared by reference between the caller and the state. */
  class History {
    var entries: seq<Entry>

    constructor (entries: seq<Entry>)
      ensures this.entries == entries
    {
      this.entries := entries;
    }
  }

  /** `update_history`: append the user entry and then the assistant entry
      to the given list in place, and return that same list. */
  method UpdateHistory(history: History, userPrompt: string, aiResponse: string) returns (r: History)
    modifies history
    ensures r == history
    ensures history.entries == old(history.entries) + [UserEntry(userPrompt), AssistantEntry(aiResponse)]
  {
    history.entries := history.entries + [UserEntry(userPrompt)];
    history.entries := history.entries + [AssistantEntry(aiResponse)];
    return history;
  }

  /** The graph's state dictionary: one field per key, None while the key is absent. */
  class ChatState {
    var history: Option<History>
    var userPrompt: Option<string>
    var systemInstructions: Option<string>
    var messages: Option<seq<Message>>
    var aiResponse: Option<string>
    var updatedHistory: Option<History>

    /** The state `handle_chat` starts the graph with. */
    constructor (userPrompt: string, history: History, systemInstructions: string)
      ensures this.history == Some(history) && this.userPrompt == Some(userPrompt)
      ensures this.systemInstructions == Some(systemInstructions)
      ensures messages == None && aiResponse == None && updatedHistory == None
    {
      this.history := Some(history);
      this.userPrompt := Some(userPrompt);
      this.systemInstructions := Some(systemInstructions);
      messages := None;
      aiResponse := None;
      updatedHistory := None;
    }
  }

  /** `node_build_history`: set "messages" to the assembled conversation of
      the state's history (empty when absent), prompt and instructions. A
      missing "user_prompt" or "system_instructions" raises KeyError, in that
      order, and leaves the state as it was. */
  method NodeBuildHistory(state: ChatState) returns (r: Result<ChatState>)
    modifies state
    ensures old(state.userPrompt).None? ==> r == KeyError("user_prompt")
    ensures old(state.userPrompt).Some? && old(state.systemInstructions).None? ==> r == KeyError("system_instructions")
    ensures r.KeyError? ==> unchanged(state)
    ensures r.Ok? <==> old(state.userPrompt).Some? && old(state.systemInstructions).Some?
    ensures r.Ok? ==> r.value == state
    ensures r.Ok? ==>
      state.messages == Some(Conversation(
        if old(state.history).Some? then old(state.history.value.entries) else [],
        old(state.userPrompt).value, old(state.systemInstructions).value))
    ensures state.history == old(state.history) && state.userPrompt == old(state.userPrompt)
    ensures state.systemInstructions == old(state.systemInstructions)
    ensures state.aiResponse == old(state.aiResponse) && state.updatedHistory == old(state.updatedHistory)
  {
    var history := if state.history.Some? then state.history.value.entries else [];
    if state.userPrompt.None? {
      return KeyError("user_prompt");
    }
    if state.systemInstructions.None? {
      return KeyError("system_instructions");
    }
    var messages := BuildConversationHistory(history, state.userPrompt.value, state.systemInstructions.value);
    state.messages := Some(messages);
    return Ok(state);
  }

  /** `node_generate_response`: set "ai_response" to what the model generates
      from "messages"; a missing "messages" raises KeyError and changes nothing. */
  method NodeGenerateResponse(state: ChatState, generate: seq<Message> -> string) returns (r: Result<ChatState>)
    modifies state
    ensures r.KeyError? <==> old(state.messages).None?
    ensures r.KeyError? ==> r.key == "messages" && unchanged(state)
    ensures r.Ok? ==> r.value == state && state.aiResponse == Some(generate(old(state.messages).value))
    ensures state.history == old(state.history) && state.userPrompt == old(state.userPrompt)
    ensures state.systemInstructions == old(state.systemInstructions) && state.messages == old(state.messages)
    ensures state.updatedHistory == old(state.updatedHistory)
  {
    if state.messages.None? {
      return KeyError("messages");
    }
    var aiResponse := generate(state.messages.value);
    state.aiResponse := Some(aiResponse);
    return Ok(state);
  }

  /** `node_update_history`: append the exchange to the state's history list
      in place and set "updated_history" to that same list. When "history"
      is absent, a new list holding only the exchange is used and "history"
      stays absent. A missing "user_prompt" or "ai_response" raises KeyError,
      in that order, and changes nothing. */
  method NodeUpdateHistory(state: ChatState) returns (r: Result<ChatState>)
    modifies state
    modifies if state.history.Some? then {state.history.value} else {}
    ensures old(state.userPrompt).None? ==> r == KeyError("user_prompt")
    ensures old(state.userPrompt).Some? && old(state.aiResponse).None? ==> r == KeyError("ai_response")
    ensures r.Ok? <==> old(state.userPrompt).Some? && old(state.aiResponse).Some?
    ensures r.KeyError? ==> unchanged(state) && (old(state.history).Some? ==> unchanged(old(state.history).value))
    ensures state.history == old(state.history) && state.userPrompt == old(state.userPrompt)
    ensures state.systemInstructions == old(state.systemInstructions) && state.messages == old(state.messages)
    ensures state.aiResponse == old(state.aiResponse)
    ensures r.Ok? ==> r.value == state && state.updatedHistory.Some?
    ensures r.Ok? && old(state.history).Some? ==>
      state.updatedHistory == old(state.history) &&
      state.history.value.entries == old(state.history.value.entries) +
        [UserEntry(old(state.userPrompt).value), AssistantEntry(old(state.aiResponse).value)]
    ensures r.Ok? && old(state.history).None? ==>
      fresh(state.updatedHistory.value) &&
      state.updatedHistory.value.entries ==
        [UserEntry(old(state.userPrompt).value), AssistantEntry(old(state.aiResponse).value)]
  {
    var history: History;
    if state.history.Some? {
      history := state.history.value;
    } else {
      history := new History([]);
    }
    if state.userPrompt.None? {
      return KeyError("user_prompt");
    }
    if state.aiResponse.None? {
      return KeyError("ai_response");
    }
    var updated := UpdateHistory(history, state.userPrompt.value, state.aiResponse.value);
    state.updatedHistory := Some(updated);
    return Ok(state);
  }

  /** The graph's nodes. */
  datatype Node = Start | BuildHistory | GenerateResponse | UpdateHistoryNode | End

  /** `always_end`: the condition on the edge leaving "update_history". */
  function AlwaysEnd(state: ChatState): (n: Node)
  {
    End
  }

  /** Position of a node on the path the graph takes. */
  function Rank(n: Node): nat
  {
    match n
    case Start => 0
    case BuildHistory => 1
    case GenerateResponse => 2
    case UpdateHistoryNode => 3
    case End => 4
  }

  /** The node after `n`: the three fixed edges, then the conditional edge
      decided by `always_end`. The path is linear and reaches End after the
      three nodes whatever the state. */
  function Successor(n: Node, state: ChatState): (next: Node)
    requires n != End
    ensures Rank(next) == Rank(n) + 1
    ensures n == UpdateHistoryNode ==> next == End
  {
    match n
    case Start => BuildHistory
    case BuildHistory => GenerateResponse
    case GenerateResponse => UpdateHistoryNode
    case UpdateHistoryNode => AlwaysEnd(state)
  }

  /** One run of the graph, node by node along its edges. From the state
      `handle_chat` builds, the response is what the model generates from the
      assembled conversation, and the caller's history list gains the exchange. */
  method RunNodes(state: ChatState, generate: seq<Message> -> string) returns (r: Result<ChatState>)
    requires state.history.Some? && state.userPrompt.Some? && state.systemInstructions.Some?
    modifies state, state.history.value
    ensures r == Ok(state)
    ensures state.aiResponse == Some(generate(Conversation(old(state.history.value.entries),
      old(state.userPrompt).value, old(state.systemInstructions).value)))
    ensures state.history == old(state.history) && state.updatedHistory == old(state.history)
    ensures state.history.value.entries == old(state.history.value.entries) +
      [UserEntry(old(state.userPrompt).value), AssistantEntry(state.aiResponse.value)]
  {
    var n := Successor(Start, state);
    assert n == BuildHistory;
    r := NodeBuildHistory(state);
    n := Successor(n, state);
    assert n == GenerateResponse;
    r := NodeGenerateResponse(state, generate);
    n := Successor(n, state);
    assert n == UpdateHistoryNode;
    r := NodeUpdateHistory(state);
    n := Successor(n, state);
    assert n == End;
  }
}
