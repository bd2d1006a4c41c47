# Backend-Util LLM core, modelled in Dafny

This project models the LangChain layer of Backend-Util. That layer has three parts:

- **Output parsers** (`llm/langchain/parsers.py`). `ChatOutputParser` cuts a
  chat model's reply down to a single answer. `DeepseekOutputParser` keeps only the
  text after a DeepSeek-R1 `<think>…</think>` block.
- **LLM manager** (`llm/langchain/manager.py`). It holds the table of model ids per
  interface (`llm_models`) and the table of roles (`default_settings`). For a role,
  it picks the adapter (Hugging Face, Ollama or Groq) and the parser.
- **Chat message histories.**
  - `FileChatMessageHistory` (`llm/langchain/message_history/filechat.py`) keeps a
    session as a JSON list of numbered records in `<storage_path>/<session_id>.json`.
  - `FirebaseMessageHistory` (`llm/langchain/message_history/firebase.py`) keeps
    the records, each with a timestamp, under one field of the Firestore document
    `history/<uid>`. It caches the document reference and the document's data
    (`doc_ref`, `db_data`) between calls. Every store error is swallowed.

## Layout

| file | module | form |
|---|---|---|
| `wrappers.dfy` | `Wrappers` | `Option` and `Result` |
| `pystr.dfy` | `PyStr` | the Python string operations the parsers use: `strip`, `find`, `in` and `split("\n")[0]`, with their properties |
| `parsers.dfy` | `Parsers` | pure functions over generations and strings, plus lemmas |
| `manager.dfy` | `Manager` | the two constant tables, the three loaders as pure functions, plus lemmas |
| `records.dfy` | `Records` | messages, the dictionary records both histories store, and decoding (`messages_from_dict`) shared by both |
| `filechat.dfy` | `FileChat` | specification functions and lemmas over a map of files, and the classes `FileStore` and `FileChatMessageHistory`, whose methods update the store in place |
| `firebase.dfy` | `Firebase` | specification functions and lemmas over a `World`, and the classes `Firestore` and `FirebaseMessageHistory`. The history class has mutable `docRef`/`dbData` caches. |

### How the source is represented

- **Failures are values.** Every exception the source lets escape is an `Err`
  value carrying the exception class (`NotImplemented`, `OutputParserException`,
  `ValueError`, `KeyError`, `ValidationError`, `TypeError`, `AttributeError`).
  Exceptions the source catches become the value the `except` branch returns.
- **Parameters.**
  - The file system is a `map` from path to file content.
  - Firestore is a `map` from `DocRef` to document plus a `reachable` flag. When the
    flag is false, every `get`, `set` and `update` raises.
  - The clock is a `stamps` parameter: one reading per new message.
- **Reloaded messages.** A message read back is a fresh `HumanMessage`/`AIMessage`.
  Its kind is reduced to human or AI, and the file store drops the timestamp.
  `Records.Reloaded` and `Records.ReloadedAll` state this loss.

## Model

| member | source | states |
|---|---|---|
| Parsers.ChatParseResult | llm/langchain/parsers.py:17-38 | A list whose length is not 1 gives `NotImplementedError`. A single text generation gives `OutputParserException`. A single chat generation gives the cleaning of its content. |
| Parsers.CleanChat | llm/langchain/parsers.py:27-38 | Cleaning fails only when a marker occurs in the stripped content, and then only with the `ValueError` of `index` on `"Human:"` or `"AI:"`. |
| Parsers.CandidateErrors | llm/langchain/parsers.py:17-26 | In both parsers, a candidate list whose length is not 1 fails with `NotImplementedError`. A single candidate that is not a chat generation fails with `OutputParserException`. |
| Parsers.ChatWithoutMarkers | llm/langchain/parsers.py:27-33 | With neither `"AI:"` nor `"Human:"` in the stripped reply, the result is the first line of the stripped reply, stripped again. It never contains a newline. |
| Parsers.ChatSingleLine | llm/langchain/parsers.py:28-33 | A marker-free reply with no newline comes back exactly stripped. |
| Parsers.ChatPaddedReply | llm/langchain/parsers.py:28-33 | A trimmed one-line answer with spaces around it comes back as the answer itself. |
| Parsers.ChatWithBothMarkers | llm/langchain/parsers.py:35-38 | When both markers occur, the result is the stripped text before the earlier of the two. It contains neither marker. |
| Parsers.ChatWithOneMarker | llm/langchain/parsers.py:29-36 | When exactly one marker occurs, parsing fails with the `ValueError` of `index` on the missing marker. |
| Parsers.ChatHelloExample | llm/langchain/parsers.py:35-36 | `"Hello AI: …"`, with no `"Human:"`, fails on the `"Human:"` lookup. |
| Parsers.DeepseekParse | llm/langchain/parsers.py:52-73 | A bare string is cleaned as it is. A list succeeds only when it holds one chat generation whose content contains both delimiters. |
| Parsers.CleanThink | llm/langchain/parsers.py:66-73 | Succeeds if and only if the content contains both `<think>` and `</think>`. |
| Parsers.DeepseekContent | llm/langchain/parsers.py:52-65 | A bare string is cleaned as it is. A list is cleaned only when it holds exactly one chat generation, and otherwise it fails. |
| Parsers.ThinkSuccess | llm/langchain/parsers.py:66-73 | Cleaning succeeds if and only if both `<think>` and `</think>` occur. Otherwise `index` raises `ValueError` on the first missing delimiter, `<think>` checked first. On success the result is the stripped text after the first `</think>`. |
| Parsers.ThinkIgnoresPrefix | llm/langchain/parsers.py:66-73 | Whatever stands before the first `</think>` is discarded. Only the stripped remainder is returned. |
| Parsers.ThinkBlockThenAnswer | llm/langchain/parsers.py:66-73 | `"<think>r</think> answer"` gives the answer when the answer is trimmed and `"<think>" + r` holds no `</think>`. The answer itself may contain `</think>`. |
| Parsers.ThinkOrderNotChecked | llm/langchain/parsers.py:66-71 | The delimiters are not checked for order. `"…</think>answer<think>"` succeeds and keeps the trailing `<think>`. |
| Manager.LoadLlm | llm/langchain/manager.py:21-38 | Succeeds if and only if the interface is known. The adapter then talks to that interface and carries the given model id. |
| Manager.LoadParserFromSettings | llm/langchain/manager.py:40-42 | Succeeds if and only if the role is configured, and returns that role's parser. Otherwise it raises `KeyError` on the role. |
| Manager.LoadDefault | llm/langchain/manager.py:13-19 | An unknown role gives `NoSuchKey`. A success returns an adapter for the role's interface and model id, and the role's parser. |
| Manager.LoadLlmDispatch | llm/langchain/manager.py:21-38 | `load_llm` succeeds if and only if the interface is one of the three names. It then builds an adapter of that interface's kind with the given model id, with task `text-generation` for Hugging Face. Any other name gives `NoSuchInterface`. |
| Manager.SettingsWellFormed | llm/langchain/manager.py:45-89 | Every role in `default_settings` uses a known interface and a model id that `llm_models` lists under that interface. |
| Manager.LoadDefaultSpec | llm/langchain/manager.py:13-19 | `load_default` succeeds if and only if the role is configured, and an unknown role gives `NoSuchKey`. On success it returns the role's adapter as `load_llm` builds it, together with the role's parser. |
| Manager.LoadParserSpec | llm/langchain/manager.py:40-42 | `load_parser_from_settings` returns the role's parser, and an unknown role raises `KeyError` on that key. |
| Manager.VirtualAssistantRole | llm/langchain/manager.py:79-84 | The virtual assistant is Groq `llama3-70b-8192` with the chat parser. |
| Manager.EnquiryChatbotRole | llm/langchain/manager.py:85-89 | The enquiry chatbot is Ollama `deepseek-r1:1.5b` with the DeepSeek parser. |
| Records.RoleName | llm/langchain/message_history/filechat.py:57 | The stored role is `"user"` exactly for human messages, and `"chatbot"` otherwise. |
| Records.KindOf | llm/langchain/message_history/filechat.py:46-49 | A record becomes a human message exactly when its role equals `"user"`. Any other role value gives an AI message. |
| Records.DecodeRecord | llm/langchain/message_history/filechat.py:45-49 | A record decodes if and only if it has `role` and `content` (and `timestamp` in the timestamped store), and its content is text. The message then has the role's kind and that content, with a timestamp exactly in the timestamped store. Failures are `KeyError` on one of those names or `ValidationError`. |
| Records.DecodeAll | llm/langchain/message_history/filechat.py:43-50 | Decoding a list succeeds if and only if every record decodes. The messages are the records' decodings, in order. |
| Records.DecodeFirstError | llm/langchain/message_history/firebase.py:70-77 | A failed decode reports the error of the first failing record. Every record before it decodes. |
| FileChat.FileChatMessageHistory.constructor | llm/langchain/message_history/filechat.py:13-15 | Stores the storage path and session id. |
| FileChat.FileChatMessageHistory.Messages | llm/langchain/message_history/filechat.py:17-24 | Returns the session read of the current files and changes nothing. |
| FileChat.ReadSession | llm/langchain/message_history/filechat.py:17-24 | A missing file reads as `[]`. A read succeeds if and only if the file is missing or is a list whose records all decode, and then returns one message per record. |
| FileChat.ReadSessionCases | llm/langchain/message_history/filechat.py:17-24 | A missing file reads as `[]`. Malformed JSON is an error. Otherwise the result is the decoding of the stored list, and a record error escapes. |
| FileChat.FileChatMessageHistory.AddMessage | llm/langchain/message_history/filechat.py:26-27 | Behaves as adding the one-message list. |
| FileChat.FileChatMessageHistory.AddMessages | llm/langchain/message_history/filechat.py:29-37 | If the read fails, it reports the read error and writes nothing. Otherwise the session file becomes the renumbered records of stored + new messages. |
| FileChat.AddSpec | llm/langchain/message_history/filechat.py:29-37 | An add succeeds if and only if the read succeeds, and otherwise reports the read's error. On success, the session file holds one record per stored and new message, and every other file is unchanged. |
| FileChat.AddThenRead | llm/langchain/message_history/filechat.py:29-37 | An add succeeds if and only if the prior read does. Reading back then gives the stored messages followed by the new ones (as reloaded), and other files are untouched. |
| FileChat.AddKeepsWrittenPrefix | llm/langchain/message_history/filechat.py:30-33 | Appending to a file the history wrote leaves the earlier records unchanged at the front. |
| FileChat.SequentialAdd | llm/langchain/message_history/filechat.py:29-37 | Adding `xs` then `ys` writes the same files as adding `xs + ys` at once. A failing first add fails the same way. |
| FileChat.FileChatMessageHistory.Clear | llm/langchain/message_history/filechat.py:39-41 | The session file becomes `[]`. |
| FileChat.ClearSpec | llm/langchain/message_history/filechat.py:39-41 | The session file exists and holds `[]`. Every other file is unchanged. |
| FileChat.ClearEmpties | llm/langchain/message_history/filechat.py:39-41 | After a clear the session reads as `[]`. Clearing twice is clearing once, and other files are untouched. |
| FileChat.FileChatMessageHistory.MessagesFromDict | llm/langchain/message_history/filechat.py:43-50 | The loop decodes the records in order and stops at the first failing one. |
| FileChat.FileChatMessageHistory.MessagesToDict | llm/langchain/message_history/filechat.py:53-59 | The loop builds one record per message, numbered from 1. |
| FileChat.FileRecords | llm/langchain/message_history/filechat.py:53-59 | One record per message. |
| FileChat.FileRecordsNumbered | llm/langchain/message_history/filechat.py:53-59 | Record `i` has `key` and `index` equal to `i`, the message's role name and its content. |
| FileChat.FileRoundTrip | llm/langchain/message_history/filechat.py:43-59 | Decoding the records written for any messages gives back those messages as reloaded. |
| FileChat.SessionPathInjective | llm/langchain/message_history/filechat.py:20 | Distinct relative session ids map to distinct path strings. Path strings that name the same file are not identified; see Left out. |
| FileChat.AbsoluteSessionId | llm/langchain/message_history/filechat.py:20 | An absolute session id ignores the storage path, as `os.path.join` does. |
| FileChat.PrimingPair | llm/langchain/agent.py:56-58 | On an empty session, adding the system prompt and then an empty AI message makes the file hold exactly the records of those two messages, numbered 1 and 2. It reads back as that pair. |
| Firebase.Firestore.Get | llm/langchain/message_history/firebase.py:30-31 | A reachable store returns the document if it exists, or `None`. An unreachable one fails. |
| Firebase.Firestore.Set | llm/langchain/message_history/firebase.py:36-37 | Replaces the document when reachable, and otherwise fails and changes nothing. |
| Firebase.UpdateSpec | llm/langchain/message_history/firebase.py:57 | The set of documents is unchanged. A failure (no reference, an unreachable store, a missing document) changes nothing. Otherwise only the referenced document changes. It gains exactly the fields of the data, with the data's values. |
| Firebase.Firestore.Update | llm/langchain/message_history/firebase.py:57 | Merges fields into an existing document. It fails, changing nothing, on a missing document or an unreachable store. |
| Firebase.FirebaseMessageHistory.constructor | llm/langchain/message_history/firebase.py:16-23 | Collection `"history"`, the given key and uid, and empty caches. |
| Firebase.FirebaseMessageHistory.Messages | llm/langchain/message_history/firebase.py:25-41 | The returned messages and the new caches and documents are those of the read specification. |
| Firebase.ReadSpec | llm/langchain/message_history/firebase.py:25-41 | The reference is always cached. An unreachable store gives `[]` with the documents and data cache unchanged. A reachable store caches the document it read or created. When the document exists, the documents are unchanged. Otherwise the set of documents grows only by the history document. |
| Firebase.ReadFailuresEmpty | llm/langchain/message_history/firebase.py:27-41 | An unreachable store, a missing key, a non-list field and an undecodable record all read as `[]`. On an unreachable store only the reference is cached. |
| Firebase.ReadDecodes | llm/langchain/message_history/firebase.py:31-34 | An existing document whose records all decode reads as those decoded messages, timestamps included. The document is cached in `db_data`, and the documents are unchanged. |
| Firebase.ReadCreatesDocument | llm/langchain/message_history/firebase.py:35-38 | A missing document is created as `{key: []}` and reads as `[]`. Reading again returns the same and changes nothing. |
| Firebase.ReadTimestamped | llm/langchain/message_history/firebase.py:70-77 | Every message a read returns carries a timestamp. |
| Firebase.MissingTimestampFails | llm/langchain/message_history/firebase.py:74-76 | A record with role and content but without `"timestamp"` fails to decode with `KeyError("timestamp")`. |
| Firebase.UnstampedRecordEmptiesRead | llm/langchain/message_history/firebase.py:33-41 | A single stored record without `"timestamp"` makes the whole read return `[]`. |
| Firebase.FirebaseMessageHistory.MessagesFromDict | llm/langchain/message_history/firebase.py:70-77 | The loop decodes timestamped records in order and stops at the first failing one. |
| Firebase.FirebaseMessageHistory.MessagesToDict | llm/langchain/message_history/firebase.py:80-86 | The loop builds numbered records with timestamps, or fails with `AttributeError` on a message without one. |
| Firebase.FirebaseRecords | llm/langchain/message_history/firebase.py:80-86 | Serialising succeeds if and only if every message carries a timestamp, giving one record per message. Otherwise it raises `AttributeError`. |
| Firebase.FirebaseRecordsNumbered | llm/langchain/message_history/firebase.py:80-86 | For timestamped messages, record `i` carries index `i`, the role name, the content and the timestamp. |
| Firebase.FirebaseRoundTrip | llm/langchain/message_history/firebase.py:70-86 | Decoding the records written for timestamped messages gives those messages back as reloaded. |
| Firebase.FirebaseMessageHistory.AddMessages | llm/langchain/message_history/firebase.py:48-59 | Stamps each new message with its clock reading, then reads, appends, rewrites the cached field and updates the document, as the add specification says. |
| Firebase.FirebaseMessageHistory.AddMessage | llm/langchain/message_history/firebase.py:43-46 | Behaves as adding the one-message list stamped with the given time. |
| Firebase.StampedAsRead | llm/langchain/message_history/firebase.py:49-50 | Each stamped new message reads back as human or AI by kind, with its content and its own clock reading. |
| Firebase.AddSpec | llm/langchain/message_history/firebase.py:48-59 | The reference is cached. A success leaves the cached field a record list one longer per new message than the read returned. An add never creates a document beyond what its read created. |
| Firebase.AddReachable | llm/langchain/message_history/firebase.py:48-57 | On a reachable store an add always succeeds. The document's field becomes the records of what was read plus the stamped new messages. |
| Firebase.AddThenRead | llm/langchain/message_history/firebase.py:48-57 | On a reachable store, reading after an add gives the earlier read followed by the stamped new messages. |
| Firebase.AddKeepsOtherFields | llm/langchain/message_history/firebase.py:55-57 | An add never changes another document, nor another field of the history document. |
| Firebase.AddKeepsStoredRecords | llm/langchain/message_history/firebase.py:51-57 | When every stored record decodes, the rewritten field has the stored records at the front (renumbered, same role, content and timestamp). The new records follow with their own stamps. |
| Firebase.SequentialAdd | llm/langchain/message_history/firebase.py:48-57 | On a reachable store, adding `xs` then `ys` equals adding `xs + ys` with the stamps concatenated. |
| Firebase.AddFailures | llm/langchain/message_history/firebase.py:51-59 | An add never reports `AttributeError`. It fails exactly when the read failed and nothing was cached, and then with `TypeError`. When the store is unreachable but data is cached, the error is swallowed. |
| Firebase.AddAfterFailedReadDropsStored | llm/langchain/message_history/firebase.py:51-57 | If a stored record fails to decode, the add overwrites the field with only the new records. |
| Firebase.FirebaseMessageHistory.Clear | llm/langchain/message_history/firebase.py:62-68 | The new caches and documents are those of the clear specification. |
| Firebase.ClearSpec | llm/langchain/message_history/firebase.py:62-68 | The reference and the set of documents are unchanged. Without cached data nothing changes. A cached record list is left with at most two records. |
| Firebase.ClearKeepsFirstTwo | llm/langchain/message_history/firebase.py:62-68 | The cached field keeps its first two records (or fewer, if there are fewer), and the document gets the cached data. An unreachable store or an uncached reference leaves the documents unchanged. |
| Firebase.ClearIdempotent | llm/langchain/message_history/firebase.py:62-68 | Clearing twice is clearing once. |
| Firebase.ClearBeforeRead | llm/langchain/message_history/firebase.py:63-64 | Clearing before any read changes nothing, because the `TypeError` is swallowed. |
| Firebase.ReadClearRead | llm/langchain/message_history/firebase.py:62-66 | Reading after a read-then-clear gives the first two messages of the first read. |

## Left out

- **I/O and JSON.** File opening, JSON text encoding, and file system errors other than a missing
  file (permissions, a missing directory on write) are not modelled. A file is either a
  list of dictionary records or `Malformed`.
- **Malformed inputs.** Several different Python failures are folded into the single
  `JsonError`: invalid JSON, and a non-empty JSON value that is not a list of objects
  (`TypeError` on iteration or indexing).
- FileChat.ReadSession: a session file holding a JSON value other than a list that iterates
  zero times (`{}` or `""`) reads as `[]` in the source, and `add_messages` then overwrites it
  with a list. The model can express such a file only as `Malformed`, so there it reads as
  `JsonError` and `FileChat.AddSpec` fails.
- FileChat.SessionPathInjective: paths are plain strings. `open` resolves `.` and `..`
  components, repeated `/`, symbolic links and (on some file systems) case differences, so
  ids such as `x`, `./x` and `a/../x` name one file but are distinct keys here. Session
  isolation (`FileChat.AddThenRead`, `FileChat.ClearEmpties` leaving other paths unchanged)
  holds only for ids that name distinct files.
- **Record fields** hold strings, integers or timestamps. List-valued message content and
  nested documents are not modelled.
- **Message kinds.** Message objects keep only their kind, content and timestamp. LangChain's
  other message classes and additional fields are reduced to "human" and "AI".
- **Mutation of the caller's messages.** Firebase `add_messages` sets `timestamp` on the
  caller's own message objects. The model returns stamped copies, so the aliasing is not
  captured.
- **Clock readings.** `add_message` stamps the message twice. The model keeps only the second reading
  (`now`), which is the one that is stored.
- Firebase.FirebaseMessageHistory.AddMessage: takes one clock reading because the first
  stamp in the source is overwritten before anything reads it.
- Firebase.SequentialAdd: stated for a reachable store. When the store cannot be reached,
  neither path writes a document, but the cached `db_data` after two adds differs from that
  after one combined add.
- Firebase.AddThenRead: stated for a reachable store, since on an unreachable one the read
  returns `[]` regardless of the add.
- **Store availability.** Network failures are modelled only as a per-store `reachable` flag that
  does not change between calls. A failure of one call among successful ones is not modelled,
  nor is anything concurrent.
- **Firestore details.** `doc_ref.update(db_data)` passes the whole cached document, and
  the client library parses every top-level key as a field path. A key it rejects (such as
  `chat-1`) makes the update raise, and the error is swallowed, so that add or clear persists
  nothing. A dotted key (such as `a.b`) is written to a nested field instead. The model treats
  every key as a plain field name, so Firebase.AddReachable, Firebase.UpdateSpec and
  Firebase.ClearKeepsFirstTwo hold only for keys that are valid simple field paths.
  Server-side timestamp types and the `FirestoreUtil` client construction are not modelled. `fetch_data` with
  `send_ref=True` is modelled as the reference value it returns.
- **Printing.** The `print` calls (the key in the Firebase constructor, caught errors, the
  DeepSeek reasoning text) are output only and are left out.
- **Adapters.** `ChatHuggingFace`, `ChatOllama` and `ChatGroq` are values recording
  how they were built, not the clients themselves. Parsers are values too, so "a new
  instance each call" is not distinguished from sharing one.
- **Other files.** `exception.py`, `db/firebase/user_auth.py`, `llm/langchain/resource.py` and
  the retrieval chain of `llm/langchain/agent.py` are not part of this model. From
  `construct_old_chain` only the two priming messages are modelled (`FileChat.PrimingPair`).
  Its call `FileChatMessageHistory()` passes no arguments and could not construct the history
  as written.
- FileChat.SequentialAdd, FileChat.AddThenRead: the file store drops timestamps and
  message subclasses. These lemmas therefore relate the reloaded forms of the messages, not
  the original objects.
