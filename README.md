# Chat services of a Django RAG backend, modelled in Dafny

This project models the parts of the `rag_app` backend that hold their own
sequential logic. The rest of the backend is glue around third-party
libraries. The models are:

- **The answer store** (`rag_app/services/csv_storage.py`). This is an
  append-only CSV file of `id, question, answer` records. The class
  `AnswerStore.AnswerFile` holds the file as either absent (`None`) or an
  ordered sequence of already-parsed lines. The first line is the header
  that the dictionary reader uses to name the columns. A field is read the
  way `csv.DictReader` reads it:
  - its value comes from the last header column with that name;
  - it is absent when the header has no such column;
  - it is absent when the line is too short to reach that column.

  `GetStoredAnswer` scans the data lines in file order and stops at the
  first match. `StoreAnswer` writes the header only when the file did not
  exist, and then appends one row.
- **Conversation assembly** (`rag_app/services/chat_service.py`).
  History entries are dictionaries of strings. `BuildConversationHistory`
  turns them into typed messages:
  - the system message comes first;
  - the user's prompt comes last;
  - "user" entries become human messages and "assistant" entries become AI
    messages, in order;
  - entries with any other role are dropped.

  `RetrieveContext` joins one text per search hit with newlines.
  `UpdateHistory` appends the user/assistant pair to a shared `History`
  object in place. The three graph nodes read and write a `ChatState`
  object with one optional field per dictionary key. When a key is missing,
  the node returns `KeyError`, as the Python code raises it.
  `Successor` gives the graph's edges, including the conditional edge
  decided by `always_end`. `RunNodes` runs the three nodes in edge order.
  The vector search and the language model are function parameters.
- **Prompt building** (`rag_app/services/prompts_service.py`).
  - `BuildSystemPrompt` is the personality text followed by a blank line.
  - `BuildPrompt` gives the two purpose lines joined by one newline. The
    user's message is quoted on the first line and the question on the
    second. The source's second `return` (line 68) cannot be reached. The
    unused `final_prompt` would have had the same value anyway.
  - `AddPropositos` first selects the descriptions of the known requested
    keys, in request order. It then extends the dictionary's list of
    purposes in place.

The docstring of `get_stored_answer` (`rag_app/services/csv_storage.py:9-12`)
says it returns the stored answer when the id is found. The code returns
`row.get("answer")` of the first row whose id matches. That value is None
when the matching row is too short to have an answer column. The model
follows the code: `Lookup` gives `Field(header, row, "answer")`.

Three things stated about the answer store hold only for a "conformant"
file. A conformant file is one that is absent, or one that starts with the
writer's header. The three things are reading back a new answer, "first
answer wins" across several stores, and "unrecorded ids stay unknown". An
answer that is already recorded is never changed by a later store,
whatever the header. All of these are about a file held as whole parsed
lines, each ending in a line terminator, with every field within the
reader's size limit. "## Left out" says what happens to a file that is not
like this. `EmptyFileLosesFirstRow` shows why conformance is
needed. Suppose the file exists but is empty. Then the first stored row is
written without a header. That row is then read as the header, so its
answer is never found.

## Model

| member | source | states |
|---|---|---|
| `AnswerStore.LastIndexOf` | rag_app/services/csv_storage.py:16-18 | the column a dictionary row reads a key from: it is the key's last header occurrence, and None exactly when the key is not in the header |
| `AnswerStore.Field` | rag_app/services/csv_storage.py:18-19 | `row.get(key)` under `csv.DictReader`: a value is found only for a key in the header and is a field of the line; a key missing from the header gives None |
| `AnswerStore.HasId` | rag_app/services/csv_storage.py:18 | a line matches only when the header has an "id" column and the id is one of the line's fields |
| `AnswerStore.FirstMatch` | rag_app/services/csv_storage.py:17-18 | the scan finds the first data line whose id equals the query: that line matches and no earlier line does; None exactly when no line matches |
| `AnswerStore.Lookup` | rag_app/services/csv_storage.py:8-20 | no file gives None for every id; when a data line matches with no earlier match, its answer field is returned, and any answer returned comes from such a line; when no data line matches, None |
| `AnswerStore.AnswerFile.GetStoredAnswer` | rag_app/services/csv_storage.py:8-20 | the loop with early return yields exactly `Lookup` of the current file: None if the file is absent or empty, else the first matching line's answer field |
| `AnswerStore.AnswerFile.StoreAnswer` | rag_app/services/csv_storage.py:22-33 | a missing file becomes header plus the new row; an existing file keeps every line and gains exactly one row `[id, question, answer]` at the end |
| `AnswerStore.Stored` | rag_app/services/csv_storage.py:27-33 | the file after one store ends with the new row; an absent file becomes exactly header plus row; an existing file keeps all its lines as a prefix and grows by one |
| `AnswerStore.StoredAll` | rag_app/services/csv_storage.py:22-33 | after a series of stores the file exists if any store happened; an existing file keeps its lines as a prefix and grows by one line per store |
| `AnswerStore.AnswerFile.constructor` | rag_app/services/csv_storage.py:6 | the store starts as the given file state (absent or a sequence of lines) |
| `AnswerStore.RowReadsBack` | rag_app/services/csv_storage.py:29-33 | under the writer's header, a written row reads back its id, question and answer |
| `AnswerStore.StoredConformant` | rag_app/services/csv_storage.py:27-33 | storing keeps a file absent-or-headed-by-fieldnames in that form |
| `AnswerStore.StoreKeepsRecorded` | rag_app/services/csv_storage.py:17-19 | once an id has a matching line, storing under any id leaves that id's lookup unchanged: no overwrite, other ids unaffected |
| `AnswerStore.StoreUnrecorded` | rag_app/services/csv_storage.py:27-33 | in a conformant file without the id, storing makes the stored id answer with the stored answer and leaves every other unrecorded id unrecorded |
| `AnswerStore.StoredAllKeepsRecorded` | rag_app/services/csv_storage.py:17-19 | a recorded id keeps its answer through any sequence of later stores |
| `AnswerStore.FirstStoredAnswerWins` | rag_app/services/csv_storage.py:17-33 | for an id that a conformant file does not yet hold, after any sequence of stores the lookup gives the answer of the earliest store with that id, and None when no store used it |
| `AnswerStore.EmptyFileLosesFirstRow` | rag_app/services/csv_storage.py:27-33 | an existing empty file gets no header, so the first stored row becomes the header and its id is not found |
| `Text.SplitLines` | rag_app/services/chat_service.py:27 | splitting at newlines gives at least one piece and no piece holds a newline |
| `Text.JoinLines` | rag_app/services/chat_service.py:27 | `"\n".join`: no parts give ""; the result starts with the first part, followed by a newline when there is a second part |
| `Text.JoinSplit` | rag_app/services/chat_service.py:27 | joining the pieces of a split with newlines gives back the original text |
| `Text.SplitJoin` | rag_app/services/chat_service.py:27 | newline-free parts joined with newlines split back into exactly those parts, if there is at least one part |
| `ChatService.ChatEntries` | rag_app/services/chat_service.py:35-41 | the kept entries are user or assistant entries taken from the history, no more of them than there are entries |
| `ChatService.ChatEntriesConcat` | rag_app/services/chat_service.py:35-41 | filtering a concatenation is filtering each part in turn; with the one-entry cases of `ChatEntryKept` and `UnknownRoleDropped`, every user/assistant entry is kept, in history order |
| `ChatService.ChatEntryKept` | rag_app/services/chat_service.py:36-41 | a user or assistant entry, whatever its content, adds its own message (and is kept by the filter) after those of the entries before it |
| `ChatService.Translate` | rag_app/services/chat_service.py:35-41 | the history contributes at most one message per entry and never a system message |
| `ChatService.Conversation` | rag_app/services/chat_service.py:34-42 | the assembled list starts with the system message, ends with the user's prompt as a human message, has between 2 and the history length plus 2 messages, and holds no other system message |
| `ChatService.TranslateMapsChatEntries` | rag_app/services/chat_service.py:35-41 | the history adds one message per user/assistant entry: the i-th such entry gives the i-th message, a human message for "user" and an AI message for "assistant" |
| `ChatService.TranslateConcat` | rag_app/services/chat_service.py:35-41 | entries are translated one at a time in history order, so the relative order is kept |
| `ChatService.UnknownRoleDropped` | rag_app/services/chat_service.py:38-41 | an entry whose role is neither "user" nor "assistant" adds no message |
| `ChatService.MissingContentIsEmpty` | rag_app/services/chat_service.py:37 | a user/assistant entry with no "content" gives a message with empty content |
| `ChatService.BuildConversationHistory` | rag_app/services/chat_service.py:30-43 | the list starts with the system message and ends with the user's prompt as a human message; it has 2 plus the number of user/assistant entries; each middle message comes from the matching user/assistant entry |
| `ChatService.ExchangeReappears` | rag_app/services/chat_service.py:53-59 | an exchange appended to the history appears at the end of the next turn's translated history, human message then AI message |
| `ChatService.ContextParts` | rag_app/services/chat_service.py:20-26 | one part per hit, in hit order: a string hit as it is, a dict's "content" when present, otherwise the hit's string form |
| `ChatService.RetrieveContext` | rag_app/services/chat_service.py:16-27 | the context is the parts joined by newlines; no hits give ""; when no part holds a newline, the context splits back into exactly the hits' parts |
| `ChatService.UpdateHistory` | rag_app/services/chat_service.py:53-59 | the given list is changed in place and returned: it gains exactly the user entry and then the assistant entry, and earlier entries stay as they were |
| `ChatService.ChatState.constructor` | rag_app/services/chat_service.py:113-117 | the initial state has the user prompt, the history and the system instructions, and no other key |
| `ChatService.NodeBuildHistory` | rag_app/services/chat_service.py:63-69 | sets only "messages", to the assembled conversation, using an empty list when "history" is absent; a missing "user_prompt" or "system_instructions" raises KeyError, checked in that order, and nothing changes |
| `ChatService.NodeGenerateResponse` | rag_app/services/chat_service.py:72-76 | sets only "ai_response", to the generator's reply to "messages"; a missing "messages" raises KeyError and nothing changes |
| `ChatService.NodeUpdateHistory` | rag_app/services/chat_service.py:79-85 | sets only "updated_history": it is the state's history list, extended in place by the exchange; if "history" is absent it is a new list holding only the exchange, and "history" stays absent; KeyError for a missing "user_prompt" or "ai_response" |
| `ChatService.Successor` | rag_app/services/chat_service.py:104-107 | each edge moves one step along START, build_history, generate_response, update_history, END; the conditional edge through `always_end` goes to END for every state |
| `ChatService.RunNodes` | rag_app/services/chat_service.py:104-107 | running the nodes in edge order from the initial state: the reply is the generator's answer to the assembled conversation, and the caller's history list gains that exchange and is the updated history |
| `Prompts.PropositosHasThreeKeys` | rag_app/services/prompts_service.py:15-19 | the purpose table has exactly the three purpose keys |
| `Prompts.BuildSystemPrompt` | rag_app/services/prompts_service.py:21-41 | the system prompt is the personality text followed by exactly "\n\n" (two characters more) and takes no input |
| `Prompts.BuildPrompt` | rag_app/services/prompts_service.py:43-68 | the prompt is the reply purpose, one newline, then the question purpose, and nothing else |
| `Prompts.BuildPromptTwoLines` | rag_app/services/prompts_service.py:48-51 | for newline-free inputs, the prompt is exactly two lines: the reply purpose, then the question purpose |
| `Prompts.BuildPromptRoundTrip` | rag_app/services/prompts_service.py:43-67 | when the user's message has no newline, it can be read back from between the quotes of line one, and the question (any text) from between the quotes of line two; the fixed texts around them end and start with a double quote (`ReplyOpenFacts` and the three like it) |
| `Prompts.KnownKeys` | rag_app/services/prompts_service.py:80 | the kept keys are requested keys that are in the table, no more of them than were requested |
| `Prompts.KnownKeysConcat` | rag_app/services/prompts_service.py:80 | keeping the known keys of a concatenation is keeping those of each part in turn; with the one-key case of `KnownKeyKept`, every known requested key is kept, in request order |
| `Prompts.KnownKeyKept` | rag_app/services/prompts_service.py:80 | one more requested key is appended to the kept keys when the table has it, and adds nothing otherwise |
| `Prompts.SelectPurposes` | rag_app/services/prompts_service.py:79-81 | the comprehension gives at most one description per requested key, each a description from the table |
| `Prompts.SelectMapsKnownKeys` | rag_app/services/prompts_service.py:79-81 | the selection holds one description per known requested key, in order; the i-th is the table's description of the i-th known key |
| `Prompts.SelectConcat` | rag_app/services/prompts_service.py:79-81 | selecting for a concatenated request is selecting for each part in turn, so a key asked twice gives its description twice |
| `Prompts.SelectCoversKnownKey` | rag_app/services/prompts_service.py:79-81 | every requested key that is in the table contributes its description |
| `Prompts.AddPropositos` | rag_app/services/prompts_service.py:71-86 | the same dictionary is returned; its list is extended in place, the old purposes are kept as a prefix and the selection is appended; without "propositos" a KeyError is raised and nothing changes |

## Left out

- The LangGraph runtime in `handle_chat` (`rag_app/services/chat_service.py:93-131`) is not modelled. This covers `StateGraph` compilation, the `MemorySaver` checkpointer, the `thread_id` configuration, how `invoke` merges node results into its state, and the `final_state.get` defaults. These depend on the library. The node order on its edges is modelled instead. `RunNodes` runs the nodes directly on one shared state object.
- `generate_ai_response` calls a hosted model, so it is the parameter `generate`. Its failures and its randomness (temperature 0.7) are not modelled.
- `faiss_manager.search` is the parameter `search`. Its own fallbacks, such as an empty result when the index is missing, live in `rag_app/services/vector_service.py`, which is not part of this model. The text `str(doc)` gives for a hit is carried inside the hit, because Python's string conversion is not modelled.
- Answer store file handling is not modelled: CSV quoting and escaping, UTF-8 encoding, the file path, and races on whether the file exists. Lines arrive already parsed into fields. `csv.DictReader` skips blank lines. The model reads them instead, but every key of a blank line is absent, so no lookup result changes.
- The answer store model assumes every line of an existing file ends with a line terminator. `store_answer` opens the file in append mode (`rag_app/services/csv_storage.py:28`). If the last line has no terminator, the new row is glued onto it. Say the file is `"id,question,answer\r\n1,q,a"`: storing id 2 leaves the line `1,q,a2,q2,a2`. Id 1 then reads back `a2`, and id 2 is never found. `StoreFile` cannot represent such a file, so `StoreKeepsRecorded`, `StoreUnrecorded`, `StoredAllKeepsRecorded` and `FirstStoredAnswerWins` do not cover it.
- The answer store model assumes every field is within `csv`'s field size limit (131072 characters by default). `csv.DictReader` (`rag_app/services/csv_storage.py:16`) raises `_csv.Error` on a longer field, so after storing a longer question or answer, every scan that reaches that row raises. `Lookup` and `GetStoredAnswer` return a value there instead.
- History entries are dictionaries with string values. Entries that are not dictionaries, and values that are not strings, are not modelled. A "history" key present with the value None is not modelled either.
- `ChatService.DictHit` carries its "content" as a string. A dict hit whose "content" is not a string is not modelled; on one, the join at `rag_app/services/chat_service.py:27` would raise TypeError. The FAISS search in `rag_app/services/vector_service.py:74-77` yields only string contents.
- `PromptJson` models only the "propositos" entry of the prompt dictionary. `add_propositos` never touches the other keys. A "propositos" value that is not a list is not modelled.
- `ChatService.AlwaysEnd` has no contract of its own. It is the constant END, and `Successor` states its effect on the graph.
- The onboarding question state machine (`cifava_chat_service`, imported at `rag_app/views.py:23`) is not part of this model, because its file is not among the sources.
- `rag_app/views.py` (HTTP handling, sessions, `uuid`, the ReAct agent), the FAISS and Chroma wrappers, `rag_app/agents.py`, `rag_app/search.py`, `rag_app/models.py` and `rag_app/urls.py` are framework and library glue. They are not modelled, and neither is the lock in the vector service.
