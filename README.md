# Edge AI chat history and agent worker, in Dafny

This project models two stateful parts of the multi-edge demo and proves
properties of them.

- **The edge device's chat history** (`AgentChatHistory`). It is a Qt table
  model over a growable vector of chat entries plus a `uint32` request
  counter.
  - `addRequest` appends a pending question and hands out the counter's value
    as its id.
  - `addFailure` appends an error entry.
  - `addResponse` looks for the request with the reply's id, scanning
    backwards from index `seqId*2` with `findEntry`. When the request is found,
    it is marked replied and the reply goes right after it. Otherwise the reply
    is appended as an error.
  - The read side (`rowCount`, `columnCount`, `headerData`, `data`) is index
    guards and role mappings.
- **The AI agent's worker-thread consumer** (`AgentProcessor`) and its event
  record (`AgentProcessorEventData`).
  - `processEvent` does nothing until a component thread is registered.
  - A text request becomes the current event and is answered by one
    `ReplyText` event on the same session.
  - A model activation records the model path and is answered by one
    `ModelActivated` event.
  - Every other action is ignored.

Layout:

| file | module | models |
|---|---|---|
| `common.dfy` | `Common` | `uint32`/`int32`/`uint64`, wrap-around and `static_cast<int32_t>` |
| `chat_types.dfy` | `ChatTypes` | the enums, `sChatEntry` and its defaults, `INIT_LENGTH` |
| `chat_history.dfy` | `ChatHistory` | the write side as specification functions plus the class `AgentChatHistory`; the read side as functions of the history |
| `chat_runs.dfy` | `ChatRuns` | request/reply conversations from a new model (see Findings) |
| `agent_events.dfy` | `AgentEvents` | the event record as class `EventData` with value view `EventValue` |
| `agent_processor.dfy` | `AgentProcessor` | the consumer as class `Processor`, specified by the step function `Step` |

Integer widths are written out.
- `mSequence++` wraps through `Next`.
- `seqId * 2` is reduced modulo 2^32 and read as `int32`.
- `static_cast<int32_t>(mHistory.size())` is `Int32(|history|)`.

The state-changing methods (`AddRequest`, `AddResponse`, `AddFailure`,
`ProcessEvent`, the assignments, `Reset`) are proved equal to specification
functions of the old state. The properties are stated and proved about those
functions.

Where the header and the `.cpp` disagree, the model follows the `.cpp` bodies.
This covers `addFailure`, the error and cancel icons, the model-path
constructor, `ActivateModel`/`ModelActivated` and `mModelPath`. The single
action type carries all seven tags. The provider's request handlers are
empty (`apps/multiedge/aiagent/agentprovider.cpp:29-35`), `processText`
returns an empty string and `activateModel` returns its argument, so there is
no request queue and no token-generation loop to model.

## Model

| member | source | states |
|---|---|---|
| `Common.Uint32` | apps/multiedge/edgedevice/agentchathistory.cpp:234 | result is the input modulo 2^32, identical for values already in range |
| `Common.Int32` | apps/multiedge/edgedevice/agentchathistory.cpp:234-235 | two's complement reading of the low 32 bits; identity up to 2^31-1, never above a non-negative input |
| `Common.Next` | apps/multiedge/edgedevice/agentchathistory.cpp:228 | `mSequence++` gives the successor, and 0 after 0xFFFFFFFF |
| `ChatTypes.ChatColumn.Index` | apps/multiedge/edgedevice/agentchathistory.hpp:32-40 | column values lie in -1..4; -1 is exactly `ColumnInvalid`, 4 exactly `ColumnCount` |
| `ChatTypes.ColumnAt` | apps/multiedge/edgedevice/agentchathistory.hpp:32-40 | the column with a given index, `ColumnInvalid` outside -1..4 |
| `ChatTypes.ChatSource.Ordinal` | apps/multiedge/edgedevice/agentchathistory.hpp:42-47 | source ordinals are below 3, so label lookups stay in range |
| `ChatTypes.MessageStatus.Ordinal` | apps/multiedge/edgedevice/agentchathistory.hpp:49-57 | status ordinals are below 6, so label lookups stay in range |
| `ChatHistory.FreshHistory` | apps/multiedge/edgedevice/agentchathistory.cpp:61-64 | a new history has exactly `INIT_LENGTH` (1000) entries, every one the default entry |
| `ChatHistory.WithRequest` | apps/multiedge/edgedevice/agentchathistory.cpp:222-229 | exactly one entry is appended: human, the question, the time, pending, the current id; the prefix is unchanged |
| `ChatHistory.WithFailure` | apps/multiedge/edgedevice/agentchathistory.cpp:274-280 | exactly one entry is appended: edge AI, the text, the time, error, the current id; the prefix is unchanged |
| `ChatHistory.ClampStart` | apps/multiedge/edgedevice/agentchathistory.cpp:284 | a start at or past the 32-bit size becomes size-1, any other is kept; the result is always a valid upper bound for the scan |
| `ChatHistory.LastMatch` | apps/multiedge/edgedevice/agentchathistory.cpp:285-291 | -1 when no entry in [floor, hi] has the id, otherwise the largest such index |
| `ChatHistory.FoundIndex` | apps/multiedge/edgedevice/agentchathistory.cpp:234-245 | -1 exactly when `int32(seqId*2)` is at or past the 32-bit size or no entry in [floor, that start] carries the id; otherwise the last such entry |
| `ChatHistory.ReplyOutcome` | apps/multiedge/edgedevice/agentchathistory.cpp:231-272 | on every path the history grows by exactly one; true iff the request was found; if not found, old entries are unchanged and the reply is appended as an error; if found, the entries before it are unchanged and it is marked replied |
| `ChatHistory.ReplyInsertsAfterRequest` | apps/multiedge/edgedevice/agentchathistory.cpp:245-260 | with a found request at i, the new history is the old one with entry i marked replied, the reply at i+1 and the rest shifted up by one |
| `ChatHistory.AgentChatHistory.constructor` | apps/multiedge/edgedevice/agentchathistory.cpp:61-70 | history is the fresh history and the counter is 0 |
| `ChatHistory.AgentChatHistory.AddRequest` | apps/multiedge/edgedevice/agentchathistory.cpp:222-229 | returns the old counter, increments it (wrapping), history becomes `WithRequest` of the old one |
| `ChatHistory.AgentChatHistory.AddResponse` | apps/multiedge/edgedevice/agentchathistory.cpp:231-272 | counter unchanged; new history and result are `ReplyOutcome` of the old history with scan floor 1 |
| `ChatHistory.AgentChatHistory.AddFailure` | apps/multiedge/edgedevice/agentchathistory.cpp:274-280 | counter unchanged; history becomes `WithFailure` of the old one |
| `ChatHistory.AgentChatHistory.FindEntry` | apps/multiedge/edgedevice/agentchathistory.cpp:282-292 | returns the largest index from 1 up to the clamped start whose entry has the id, else -1; never 0; changes nothing |
| `ChatHistory.RowCount` | apps/multiedge/edgedevice/agentchathistory.cpp:93-96 | the row count is the size read as `int32`: the size itself below 2^31 entries |
| `ChatHistory.Columns` | apps/multiedge/edgedevice/agentchathistory.cpp:98-101 | always 4: one per column name and width, above every real column index |
| `ChatHistory.HeaderData` | apps/multiedge/edgedevice/agentchathistory.cpp:72-91 | non-empty iff horizontal, section in [0,4) and role display, user or size hint; display gives the column name, user the section, size hint the width |
| `ChatHistory.Decoration` | apps/multiedge/edgedevice/agentchathistory.cpp:164-179 | error icon iff status invalid or error; cancel icon iff canceled or ignore; otherwise robot for edge AI and human for any other source |
| `ChatHistory.DisplayName` | apps/multiedge/edgedevice/agentchathistory.cpp:189-220 | source and status columns show their labels by ordinal, message its text, timestamp the entry time with the next time; other columns the empty text |
| `ChatHistory.DisplayAsWritten` | apps/multiedge/edgedevice/agentchathistory.cpp:153-162 | the as-written display role; it needs `row + 1 < size` for the timestamp column, which the guard in front of it does not ensure |
| `ChatHistory.LastRowTimestampReadsPastEnd` | apps/multiedge/edgedevice/agentchathistory.cpp:143-156 | the last row's timestamp cell passes every guard of `data` yet has no next entry; the guarded `Data` shows its time with reply time 0 there |
| `ChatHistory.NextReplyTime` | apps/multiedge/edgedevice/agentchathistory.cpp:154-157 | the time shown beside a timestamp is the next entry's time when that is an edge AI entry, otherwise 0 |
| `ChatHistory.Data` | apps/multiedge/edgedevice/agentchathistory.cpp:135-187 | empty outside the index guards or for other roles; display gives the display name, decoration the icon, user role the source ordinal |
| `ChatHistory.DataAgreesWithAsWritten` | apps/multiedge/edgedevice/agentchathistory.cpp:153-162 | wherever the as-written read is in bounds, the guarded display value equals it |
| `ChatHistory.InsertRows` | apps/multiedge/edgedevice/agentchathistory.cpp:103-109 | always refuses, so rows are only added by the chat operations |
| `ChatHistory.InsertColumns` | apps/multiedge/edgedevice/agentchathistory.cpp:111-117 | always refuses |
| `ChatHistory.RemoveRows` | apps/multiedge/edgedevice/agentchathistory.cpp:119-125 | always refuses, so no entry is ever removed |
| `ChatHistory.RemoveColumns` | apps/multiedge/edgedevice/agentchathistory.cpp:127-133 | always refuses |
| `ChatRuns.Transcript` | apps/multiedge/edgedevice/agentchathistory.cpp:222-272 | the rows of n exchanges are 2n entries whose ids are all below n |
| `ChatRuns.AsWrittenRunShape` | apps/multiedge/edgedevice/agentchathistory.cpp:61-70 | from a new model, every request stays pending and every reply is stored as an error after it |
| `ChatRuns.UnpairedExchange` | apps/multiedge/edgedevice/agentchathistory.cpp:231-245 | as written, on a history whose rows carry the default id or earlier ids, the reply to the new request is not paired: the request stays pending and the reply is appended after it as an error |
| `ChatRuns.AsWrittenReplyUnpaired` | apps/multiedge/edgedevice/agentchathistory.cpp:231-272 | from a new model, the reply to the newest request is not paired |
| `ChatRuns.EmptyStartFirstReplyUnpaired` | apps/multiedge/edgedevice/agentchathistory.cpp:282-292 | even from an empty history, the first reply is not paired because index 0 is never inspected |
| `ChatRuns.IntendedRunShape` | apps/multiedge/edgedevice/agentchathistory.cpp:222-272 | from an empty history with the scan reaching index 0, every request is marked replied and directly followed by its reply |
| `ChatRuns.PairedExchange` | apps/multiedge/edgedevice/agentchathistory.cpp:231-260 | with the scan reaching index 0, on 2n rows of earlier ids, the new request is found at index 2n; it is marked replied and the reply follows it |
| `ChatRuns.IntendedReplyPairs` | apps/multiedge/edgedevice/agentchathistory.cpp:231-272 | in that corrected setting, the reply to the newest request is found at index 2n and paired |
| `AgentEvents.ModelEvent` | apps/multiedge/aiagent/agentprocessor.cpp:33-40 | a model event has session 0xFFFFFFFF, the given path, and an empty prompt and video |
| `AgentEvents.PromptEvent` | apps/multiedge/aiagent/agentprocessor.cpp:42-58 | a prompt event has the given action, session, prompt and video, and an empty model path |
| `AgentEvents.ResetValue` | apps/multiedge/aiagent/agentprocessor.hpp:145-151 | reset gives action unknown, session 0, empty prompt and invalid video; the model path is kept |
| `AgentEvents.ResetIdempotent` | apps/multiedge/aiagent/agentprocessor.hpp:145-151 | resetting twice equals resetting once, and a reset event is the default event apart from its model path |
| `AgentEvents.MovedFrom` | apps/multiedge/aiagent/agentprocessor.cpp:69-76 | a moved-from event keeps action and session and has empty strings and an invalid video |
| `AgentEvents.EventData.constructor` | apps/multiedge/aiagent/agentprocessor.cpp:24-31 | the default event: action unknown, session 0, empty prompt, model path and video |
| `AgentEvents.EventData.ForModel` | apps/multiedge/aiagent/agentprocessor.cpp:33-40 | content is `ModelEvent(action, path)` |
| `AgentEvents.EventData.ForPrompt` | apps/multiedge/aiagent/agentprocessor.cpp:42-49 | content is a prompt event without video |
| `AgentEvents.EventData.ForVideo` | apps/multiedge/aiagent/agentprocessor.cpp:51-58 | content is a prompt event with the given video |
| `AgentEvents.EventData.Copy` | apps/multiedge/aiagent/agentprocessor.cpp:60-67 | the copy equals the source field by field |
| `AgentEvents.EventData.Move` | apps/multiedge/aiagent/agentprocessor.cpp:69-76 | the new event has the source's old content; the source is left moved-from |
| `AgentEvents.EventData.Assign` | apps/multiedge/aiagent/agentprocessor.cpp:78-90 | afterwards the target equals the source; self-assignment changes nothing |
| `AgentEvents.EventData.MoveAssign` | apps/multiedge/aiagent/agentprocessor.cpp:92-104 | the target takes the source's content and the source is moved-from; self-move changes nothing |
| `AgentEvents.EventData.Reset` | apps/multiedge/aiagent/agentprocessor.hpp:145-151 | the new content is `ResetValue` of the old, so only action, session, prompt and video change |
| `AgentEvents.EventData.GetAction` | apps/multiedge/aiagent/agentprocessor.hpp:125-128 | returns the stored action |
| `AgentEvents.EventData.GetPrompt` | apps/multiedge/aiagent/agentprocessor.hpp:130-133 | returns the stored prompt |
| `AgentEvents.EventData.GetVideo` | apps/multiedge/aiagent/agentprocessor.hpp:135-138 | returns the stored video |
| `AgentEvents.EventData.GetSessionId` | apps/multiedge/aiagent/agentprocessor.hpp:140-143 | returns the stored session id |
| `AgentEvents.EventData.GetModelPath` | apps/multiedge/aiagent/agentprocessor.cpp:143 | returns the stored model path |
| `AgentProcessor.ProcessText` | apps/multiedge/aiagent/agentprocessor.cpp:148-151 | the reply text is always empty |
| `AgentProcessor.ActivateModel` | apps/multiedge/aiagent/agentprocessor.cpp:153-156 | the active path is the requested path |
| `AgentProcessor.Step` | apps/multiedge/aiagent/agentprocessor.cpp:130-146 | registration never changes. Exactly one event is sent iff registered and the action is a text request or an activation; in every other case the state is unchanged. A text request becomes the current event and is answered by `ReplyText` on its session with the `processText` reply and no video. An activation sets the model path and is answered by `ModelActivated` with that path, session 0xFFFFFFFF and no video |
| `AgentProcessor.DriveSendsOnePerRequest` | apps/multiedge/aiagent/agentprocessor.cpp:130-146 | over any sequence of events, a registered consumer sends one event per text request or activation; an unregistered one sends nothing and keeps its state |
| `AgentProcessor.Processor.constructor` | apps/multiedge/aiagent/agentprocessor.cpp:106-116 | no component thread, default current event, empty model path, text limit 512, token limit 2048 |
| `AgentProcessor.Processor.RegisterEventConsumers` | apps/multiedge/aiagent/agentprocessor.cpp:118-122 | the component thread is set |
| `AgentProcessor.Processor.UnregisterEventConsumers` | apps/multiedge/aiagent/agentprocessor.cpp:124-128 | the component thread is cleared |
| `AgentProcessor.Processor.ProcessEvent` | apps/multiedge/aiagent/agentprocessor.cpp:130-146 | the new state and the sent events are those of `Step` on the old state and the event |

## Left out

- The clock (`DateTime::getNow`) is a parameter `now` of the chat operations.
- The timestamp text built in `displayName` is not modelled. It depends on the external date/time class. The cell value `Time(time, next)` stands for it.
- Qt model-change notifications (`beginInsertRows`/`endInsertRows`) are not modelled.
- `QVariant` is the datatype `Variant`, and icons are tags.
- Item roles use Qt's values: display 0, decoration 1, size hint 13, user 256. Orientation is a two-valued datatype.
- `QModelIndex` is a triple of validity flag, row and column.
- `ChatHistory.ReplyInsertsAfterRequest`: states the "insert right after the request" shape only for histories below 2^31 entries. With 2^32 or more entries, `i + 1` can equal the wrapped 32-bit size while i+1 is not the end, and the code then appends. `ReplyOutcome` models that branch as written.
- `ChatRuns`: the conversation lemmas assume a counter that started at 0 and fewer than about 2^30 exchanges, so ids and `seqId*2` do not wrap.
- The `AgentChatHistory` class keeps the as-written constructor and scan. The corrected behaviour from the findings below is given as the pure `ChatRuns` run from an empty history with scan floor 0.
- Event delivery is not modelled. `sendEvent`, `addListener`/`removeListener` and the dispatcher threads are cross-thread messaging; sent events are the returned list.
- The component-thread pointer is an optional thread identity.
- Not modelled: the language-model context parameters (`llama_context_default_params`), the model handle, model loading and the generation loop. They belong to a foreign library, and `processText`/`activateModel` are stubs in this code.
- Action ordinals are not modelled. The header's enumeration lacks the activation tags, so their numeric values are not known. The model only fixes `ActionUnknown` as the default and reset action.
- `AgentEvents.MovedFrom`: a moved-from string or buffer is valid but unspecified in C++. The model picks empty strings and an invalid video.
- The `SharedBuffer` video is opaque bytes with a valid/invalid flag.
- `AgentProvider` request handlers have empty bodies; there is no queue to model. The agent-side chat-history header has no bodies, the consumer proxy is a thin wrapper over the messaging runtime, and the dialogs and entry points are UI. None of these is part of this model.

## Findings

| source | as written | input that shows it | evidently intended | confidence | as-written member | corrected member |
|---|---|---|---|---|---|---|
| apps/multiedge/edgedevice/agentchathistory.cpp:63 | the history is constructed with 1000 default rows (sized, not reserved), and `findEntry` scans from `seqId*2` down to index 1 | a new model, `addRequest("q")` returns 0, then `addResponse("r", 0)` returns false and stores the reply as an error; in general request k sits at index 1000+2k, outside the window [1, 2k] | start empty and scan down to index 0, so that every reply is paired with its request | medium, not executed | `ChatRuns.AsWrittenRunShape` | `ChatRuns.IntendedRunShape` |
| apps/multiedge/edgedevice/agentchathistory.cpp:154-156 | the timestamp cell reads `mHistory[row + 1]` behind the guard `row < size`, which the earlier index guards already guarantee | any non-empty history, display role at the last row, timestamp column: the read is one past the end | read the next entry only when `row + 1 < size`, otherwise show no reply time | high, not executed | `ChatHistory.LastRowTimestampReadsPastEnd` | `ChatHistory.Data` |
