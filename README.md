# Clone-ChatGPT chat turn, modelled in Dafny

This project models the chat-turn pipeline of Clone-ChatGPT, a Next.js ChatGPT clone. It has
three parts:

- **The conversation title rule.** `generateConversationTitle` turns the first message of a new
  conversation into its title. A message of at most 50 characters is kept as it is. A longer one
  is cut to 50 characters, trimmed at both ends with the JavaScript whitespace set, and given
  `...` (module `Title`).
- **The streaming endpoint.** `POST /api/chat/stream` checks the session, the message and the
  ownership of the conversation, in that order. It creates a conversation when none is given and
  stores the user's message before it calls the completion provider. It then relays every
  provider delta as a `data: <json>\n\n` event, stores the assembled assistant reply, bumps the
  conversation's `updatedAt` and sends a final `done` event.
  - `StreamRoute.Respond` is a specification function. It gives the response, the new store and
    the ordered trace of side effects.
  - `StreamRoute.Post` is the imperative handler over the `ChatStore.Store` class. Its relay
    loop sits in `StreamRoute.Start`, and Post is proved equal to `Respond`.
- **The client hook.** `useChat` holds the conversation list, the current conversation, the
  messages, the loading flag, the streaming text and the abort handle. These are the fields of
  the class `ChatHook.ChatState`.
  - `SendMessage` appends the user's message at once. It reads the body chunk by chunk,
    splitting each chunk on `'\n'` on its own, and acts on `data: ` lines. It rolls back with
    `slice(0, -1)` on a non-abort failure and always resets its flags.
  - Its loops are proved against the functions `ConsumeReads`, `ConsumeChunk` and `ApplyEvent`.

The supporting modules are:

- `Wire`: the JSON text of an event, its decoder and the round trip. It also has the event
  framing and `split('\n')`.
- `ChatStore`: the database as a value, plus the `Store` class that the handler mutates.
- `Decimal`: the decimal text of a number, used for generated ids and for
  `Date.now().toString()`.
- `Pipeline`: connects server and client. For a completed turn, the reply the client commits is
  the reply the server stored, however the body is cut into line-aligned reads.

Two behaviours of the source are reproduced as written, not corrected:

- **An event can be lost at a read boundary.** The client splits every read on its own, so an
  event that straddles two reads is dropped as a parse failure
  (`ChatHookProperties.FrameLostAtReadBoundary`).
- **The rollback drops the last message, whatever it is.** When a reply was committed and the
  read then fails, the reply is removed and the user's message stays
  (`ChatHookProperties.RollbackRemovesCommittedReply`).

JavaScript truthiness is modelled explicitly. A missing value and the empty string are both
falsy (`Wrappers.Truthy`). So an empty message is refused, a message of blanks is accepted, and an
empty conversation id starts a new conversation.

## Model

| member | source | states |
|---|---|---|
| Title.LeadingSpace | src/lib/utils.ts:22 | the whitespace run `trim` removes at the start: all whitespace, and followed by a non-whitespace character when shorter than the text |
| Title.TrailingSpace | src/lib/utils.ts:22 | the whitespace run `trim` removes at the end, with the same two properties |
| Title.Trim | src/lib/utils.ts:22 | `trim` returns a contiguous slice of its input; what it cuts off at either end is whitespace; the result neither starts nor ends with whitespace |
| Title.TrimUnpadded | src/lib/utils.ts:22 | a text with no whitespace at either end is left as it is by `trim` |
| Title.GenerateConversationTitle | src/lib/utils.ts:17-21 | a message of at most 50 characters is its own title |
| Title.TitleLengthBound | src/lib/utils.ts:18-22 | no title is longer than 53 characters |
| Title.TitleOfLongMessage | src/lib/utils.ts:22 | a message over 50 characters gets a title ending in `...`; the rest of the title is a contiguous part of the first 50 characters; everything cut off before and after that part is whitespace, and the part neither starts nor ends with whitespace |
| Title.TitleOfUnpaddedLongMessage | src/lib/utils.ts:22 | when characters 0 and 49 are not whitespace, the title has 53 characters and starts with the first 50 characters of the message |
| Title.ShortTitleExamples | __tests__/utils/utils.test.ts:38-65 | the short message, the empty message and the exactly-50-character message are their own titles |
| Title.LongTitleExample | __tests__/utils/utils.test.ts:45-52 | the long message of the test is titled `This is a very long message that exceeds the fifty...` |
| Decimal.Digits | src/hooks/useChat.ts:110 | the decimal text of a number is non-empty, all digits, with no leading zero |
| Decimal.ValueOfDigits | src/hooks/useChat.ts:110 | reading the decimal text back gives the number |
| Decimal.DigitsInjective | src/hooks/useChat.ts:110 | distinct numbers have distinct decimal texts, so counter-generated ids are fresh |
| Wire.EscapeChar | src/app/api/chat/stream/route.ts:106-111 | the escaped form of a character never contains a newline |
| Wire.Escape | src/app/api/chat/stream/route.ts:106-111 | an escaped string never contains a newline |
| Wire.ReadEscaped | src/app/api/chat/stream/route.ts:106-111 | reading a string literal written by the encoder gives back the string and exactly the text after it |
| Wire.Expect | src/hooks/useChat.ts:154 | matching a fixed prefix succeeds exactly when the text starts with it, and returns the rest |
| Wire.ReadBoolText | src/app/api/chat/stream/route.ts:108 | the text of a boolean reads back as that boolean |
| Wire.ReadField | src/app/api/chat/stream/route.ts:109-110 | an optional field reads back as written; a field left out (undefined in JSON.stringify) reads back as absent |
| Wire.ReadIdsFields | src/app/api/chat/stream/route.ts:109-110 | the two optional id fields and the closing brace read back as written |
| Wire.ReadFlagsFields | src/app/api/chat/stream/route.ts:108-110 | the `done` flag and the id fields read back as written |
| Wire.DecodeEncode | src/app/api/chat/stream/route.ts:106-111 | decoding the JSON text of an event gives back that event |
| Wire.OptionalFieldNoNewline | src/app/api/chat/stream/route.ts:106-111 | writing an optional field adds no newline |
| Wire.EncodeNoNewline | src/app/api/chat/stream/route.ts:106-113 | the JSON text of an event has no newline and starts with `{`, so it fits on one `data: ` line |
| Wire.Lines | src/hooks/useChat.ts:149 | `split('\n')` yields at least one piece, no piece contains a newline, and a single piece is the whole text |
| Wire.JoinLines | src/hooks/useChat.ts:149 | the pieces joined with newlines give back the text |
| Wire.LinesOfLine | src/hooks/useChat.ts:149 | a newline-free line followed by a newline splits off as the first piece |
| Wire.LinesAppend | src/hooks/useChat.ts:149 | a text ending in a newline splits into pieces ending with an empty piece, and splitting it followed by more text joins the two splits at that point |
| Wire.LinesOfEvent | src/app/api/chat/stream/route.ts:113 | an event's bytes split into its `data: ` line and an empty line, then whatever follows |
| ChatStore.FindOwned | src/app/api/chat/stream/route.ts:33-45 | the lookup finds a conversation with that id owned by that user, and returns none exactly when no such conversation exists |
| ChatStore.History | src/app/api/chat/stream/route.ts:38-44 | a message is in the history exactly when it is stored under that conversation |
| ChatStore.HistoryAscending | src/app/api/chat/stream/route.ts:40-42 | in a consistent store the history is in strictly ascending creation order |
| ChatStore.NewConversation | src/app/api/chat/stream/route.ts:58-63 | creating a conversation appends one row with the given title and owner, with an id no earlier row has, and keeps the store consistent |
| ChatStore.NewMessage | src/app/api/chat/stream/route.ts:67-73 | creating a message appends one row with the given content, role and conversation, with a fresh id, and keeps the store consistent |
| ChatStore.TouchedRows | src/app/api/chat/stream/route.ts:128-135 | row by row: a row with the id gets `updatedAt` set and keeps every other field; every other row is unchanged |
| ChatStore.TouchConversation | src/app/api/chat/stream/route.ts:128-135 | bumping a conversation sets `updatedAt` of the rows with that id to the current time (`Touched`), leaves the messages and the id counter alone, advances the clock and keeps the store consistent |
| ChatStore.Store.constructor | src/app/api/chat/stream/route.ts:4 | a fresh store is empty and consistent |
| ChatStore.Store.FindFirst | src/app/api/chat/stream/route.ts:33-45 | `findFirst` with the ordered messages: the owned conversation and its history, in ascending creation order |
| ChatStore.Store.CreateConversation | src/app/api/chat/stream/route.ts:58-63 | the store after `conversation.create` is `NewConversation` of the store before |
| ChatStore.Store.CreateMessage | src/app/api/chat/stream/route.ts:67-73 | the store after `message.create` is `NewMessage` of the store before |
| ChatStore.Store.UpdateTimestamp | src/app/api/chat/stream/route.ts:128-135 | the store after `conversation.update` is `TouchConversation` of the store before |
| StreamRoute.BuildContext | src/app/api/chat/stream/route.ts:76-89 | the prompt is the system entry, then each earlier message with its role lower-cased, in order, then the new message as `user`, so it has 2 + the number of earlier messages entries |
| StreamRoute.ProgressEvents | src/app/api/chat/stream/route.ts:101-111 | one event per delta, in order, holding the delta or `""`, `done: false`, the conversation id and no message id |
| StreamRoute.Sent | src/app/api/chat/stream/route.ts:113 | one send effect per event, in order |
| StreamRoute.Post | src/app/api/chat/stream/route.ts:8-169 | the handler's response, its writes to the store and its effect trace are exactly those of `Respond` |
| StreamRoute.Start | src/app/api/chat/stream/route.ts:99-151 | the relay loop, the reply's save, the timestamp bump and the final event are exactly those of `StreamOutcome` |
| StreamRouteProperties.UnauthorizedHasNoEffect | src/app/api/chat/stream/route.ts:12-17 | 401 exactly when the session has no user id; then nothing is written or sent |
| StreamRouteProperties.MissingMessageIsBadRequest | src/app/api/chat/stream/route.ts:21-26 | 400 exactly when a signed-in caller sends a missing or empty message; then nothing is written or sent |
| StreamRouteProperties.BlankMessageIsAccepted | src/app/api/chat/stream/route.ts:21 | a message of blanks passes the check and is stored |
| StreamRouteProperties.UnknownConversationIsNotFound | src/app/api/chat/stream/route.ts:31-52 | an id naming no conversation of this user gives 404, and nothing is written or sent |
| StreamRouteProperties.NewConversationPerFreshTurn | src/app/api/chat/stream/route.ts:55-63 | without a conversation id, whatever the provider does: exactly one conversation row is appended, owned by the caller, titled by `generateConversationTitle`, with an id no earlier row has; the earlier rows are kept; and the trace opens by announcing that row |
| StreamRouteProperties.ExistingConversationIsReused | src/app/api/chat/stream/route.ts:31-54 | with an owned conversation id, no conversation row is added and no creation appears in the trace |
| StreamRouteProperties.StreamCreatesNone | src/app/api/chat/stream/route.ts:99-151 | the event stream neither adds nor drops a conversation row and announces no new one |
| StreamRouteProperties.UserMessageSavedBeforeProvider | src/app/api/chat/stream/route.ts:55-92 | the user's message is saved, in the turn's conversation (the request's id, or the row the turn appended), before the provider is invoked, and the provider is not invoked before; it gets the system entry, the earlier messages of that conversation oldest first, then the message, and no earlier messages for a new conversation |
| StreamRouteProperties.UserMessageStoredNext | src/app/api/chat/stream/route.ts:67-73 | the user's message is stored as the next row, after every earlier row, which stays in place, and the trace records saving exactly that row |
| StreamRouteProperties.StreamOutcomeExtends | src/app/api/chat/stream/route.ts:99-151 | streaming only adds to the store: earlier messages stay in place |
| StreamRouteProperties.AcceptedTurnOpens | src/app/api/chat/stream/route.ts:55-92 | an accepted turn opens with the conversation's creation (if any), the user's message and the provider call, and what follows only extends the trace and the store |
| StreamRouteProperties.CompletedTurn | src/app/api/chat/stream/route.ts:67-146 | a completed stream stores exactly the user's message then one assistant message holding all deltas joined in order, both in the turn's conversation (the request's id, or the row the turn appended), the reply with an id no earlier row has; it keeps the store consistent and sends one event per delta then a `done` event with the reply's id |
| StreamRouteProperties.CompletedStreamReply | src/app/api/chat/stream/route.ts:116-125 | the stream of a completed turn stores the reply as the next row after the user's message, with an id that no earlier row, the user's message included, has, and answers with the relayed events and the final event naming it |
| StreamRouteProperties.CompletedTurnTrace | src/app/api/chat/stream/route.ts:116-145 | a completed turn's trace ends by saving the reply, bumping the turn's conversation, and sending the final event with that conversation and the reply's id, in that order |
| StreamRouteProperties.CompletedStreamTrace | src/app/api/chat/stream/route.ts:116-145 | the stream of a completed turn keeps the earlier messages and ends its trace with the reply's save, the bump and the final event |
| StreamRouteProperties.CompletedTurnTouchesConversation | src/app/api/chat/stream/route.ts:127-135 | a completed turn sets `updatedAt` of the turn's conversation, which exists, to the time after the reply's save, and leaves every other row and field as the turn found them |
| StreamRouteProperties.CompletedStreamTouches | src/app/api/chat/stream/route.ts:116-135 | the stream of a completed turn adds one message and bumps the conversation after that message was created |
| StreamRouteProperties.FailedTurnSavesNoReply | src/app/api/chat/stream/route.ts:92-167 | when the provider fails, or its stream fails before ending, only the user's message is stored; the answer is a 500, or the relayed events followed by a stream error |
| StreamRouteProperties.AssembledAppend | src/app/api/chat/stream/route.ts:103 | joining the deltas respects concatenation of delta sequences |
| StreamRouteProperties.SplitDeltaSameReply | src/app/api/chat/stream/route.ts:103 | the stored reply does not depend on how the provider cuts its text into deltas |
| ChatHook.DataPayload | src/hooks/useChat.ts:152-154 | a line has a payload exactly when it starts with `data: `, and the payload is the rest of the line |
| ChatHook.ApplyEvent | src/hooks/useChat.ts:156-172 | the accumulator grows by the event's content; with content and not done, the streaming text is the accumulator; an empty progress event changes nothing; a `done` event clears the streaming text and appends one assistant message with the accumulator, the event's id or the fallback id, and the event's conversation |
| ChatHook.DropLast | src/hooks/useChat.ts:191 | `slice(0, -1)` removes exactly the last element, and leaves an empty list empty |
| ChatHook.Without | src/hooks/useChat.ts:66 | an entry is kept exactly when it was there and has another id |
| ChatHook.Renamed | src/hooks/useChat.ts:88-92 | every entry with the id gets the new title and keeps all other fields; the other entries are unchanged |
| ChatHook.ChatState.constructor | src/hooks/useChat.ts:7-12 | the hook starts with no conversations, no current conversation, no messages, not loading, no streaming text and no abort handle |
| ChatHook.ChatState.CreateConversation | src/hooks/useChat.ts:39-57 | a created conversation goes to the front of the list and is returned; a failed request changes nothing |
| ChatHook.ChatState.DeleteConversation | src/hooks/useChat.ts:59-75 | on success the entries with the id are filtered out, and the current conversation and messages are cleared only when the deleted one was current; on failure nothing changes |
| ChatHook.ChatState.RenameConversation | src/hooks/useChat.ts:77-100 | on success the entries with the id are renamed, and the current conversation is renamed only when it has the id; on failure nothing changes |
| ChatHook.ChatState.SendMessage | src/hooks/useChat.ts:102-198 | while loading, nothing changes; otherwise the messages become `SentMessages` of the old messages (user message appended, reads applied, rollback on a non-abort failure), the list is untouched, and loading, streaming text and abort handle are reset |
| ChatHook.ChatState.ReadChunk | src/hooks/useChat.ts:148-184 | the line loop over one read leaves the state `ConsumeChunk` gives |
| ChatHook.ChatState.StopGeneration | src/hooks/useChat.ts:200-206 | without an abort handle nothing changes; with one, it is aborted, loading stops and the streaming text is cleared, and the messages are untouched |
| ChatHook.ChatState.NewChat | src/hooks/useChat.ts:208-212 | no current conversation, no messages and no streaming text; the list and the loading flag are untouched |
| ChatHookProperties.NonDataLineIgnored | src/hooks/useChat.ts:152 | a line not starting with `data: ` changes nothing |
| ChatHookProperties.MalformedPayloadSkipped | src/hooks/useChat.ts:153-182 | a `data: ` line whose payload does not parse changes nothing |
| ChatHookProperties.EventLineApplied | src/hooks/useChat.ts:152-172 | the `data: ` line the server writes for an event applies exactly that event |
| ChatHookProperties.ConsumeLinesAppend | src/hooks/useChat.ts:151 | the lines of a read are applied one after another |
| ChatHookProperties.ConsumeChunkAppend | src/hooks/useChat.ts:148-149 | two reads that meet right after a newline act as one read of both |
| ChatHookProperties.LineAlignedReads | src/hooks/useChat.ts:144-149 | when every read ends with a whole line, the reads act as one read of their concatenation |
| ChatHookProperties.EmptyLineIgnored | src/hooks/useChat.ts:152 | the empty line between events, and an empty read, change nothing |
| ChatHookProperties.SingleLine | src/hooks/useChat.ts:149 | a text without a newline is one line |
| ChatHookProperties.EventConsumed | src/hooks/useChat.ts:148-172 | the bytes of one event, read whole, apply that event |
| ChatHookProperties.FrameLostAtReadBoundary | src/hooks/useChat.ts:148-149 | an event cut right after `data: ` by a read boundary changes nothing, while the same bytes in one read apply it |
| ChatHookProperties.BareMarkerSkipped | src/hooks/useChat.ts:152-182 | a read holding only `data: ` changes nothing: its empty payload fails to parse |
| ChatHookProperties.UnmarkedFrameSkipped | src/hooks/useChat.ts:148-152 | a read holding an event's JSON without the `data: ` marker, then a blank line, changes nothing |
| ChatHookProperties.BodyConsumed | src/hooks/useChat.ts:144-184 | reading the bytes of a sequence of events applies those events, in order |
| ChatHookProperties.MalformedEventSkipped | src/hooks/useChat.ts:180-182 | a malformed event does not end the loop: the events after it are applied as if it were not there |
| ChatHookProperties.EventsAccumulate | src/hooks/useChat.ts:141-158 | the accumulator is its start followed by every event's content, in order |
| ChatHookProperties.AppendsRepliesTransitive | src/hooks/useChat.ts:171 | keeping a prefix and adding only assistant messages composes |
| ChatHookProperties.ConsumeLineAppendsReplies | src/hooks/useChat.ts:171 | a line keeps every earlier message and adds at most assistant messages |
| ChatHookProperties.ConsumeLinesAppendsReplies | src/hooks/useChat.ts:151-184 | the lines of a read keep every earlier message and add only assistant messages |
| ChatHookProperties.ReadsOnlyAppendReplies | src/hooks/useChat.ts:144-185 | reading never changes or removes a message already in the list; it only appends assistant messages |
| ChatHookProperties.FailedRequestRestoresMessages | src/hooks/useChat.ts:135-192 | a failed request (not an abort) or a not-ok response leaves the messages as they were before the send |
| ChatHookProperties.KeptSendAppendsUserThenReplies | src/hooks/useChat.ts:117-192 | a send that ends normally or by abort keeps the user's message and everything committed, adding only assistant messages after it |
| ChatHookProperties.RollbackRemovesCommittedReply | src/hooks/useChat.ts:161-191 | when a reply was committed and the read then fails, the reply is removed and the user's message stays |
| ChatHookProperties.WithoutAppend | src/hooks/useChat.ts:66 | filtering distributes over concatenation, so the kept entries stay in their order |
| ChatHookProperties.WithoutSingle | src/hooks/useChat.ts:66 | one entry is dropped exactly when it has the id |
| Pipeline.ProgressEventsConsumed | src/hooks/useChat.ts:156-159 | the server's progress events add the joined deltas to the accumulator and commit nothing |
| Pipeline.CompletedBodyConsumed | src/hooks/useChat.ts:144-172 | a completed stream, read in line-aligned reads, commits one assistant message with the joined deltas and the final event's id, and clears the streaming text |
| Pipeline.ServerBodyCommitsStoredReply | src/app/api/chat/stream/route.ts:101-146 | the client reading the server's body of a completed turn commits exactly the assistant message the server stored, stamped with the client's clock |
| Pipeline.CompletedSendMirrorsStore | src/hooks/useChat.ts:102-198 | a completed send leaves the old messages, then the user's message, then the stored reply with the same id, content, role and conversation as in the store |
| Pipeline.EndedSendKeepsReads | src/hooks/useChat.ts:143-186 | a send whose body is read to its end keeps exactly what reading committed |

## Left out

- `cn` and `formatDate` in src/lib/utils.ts are library wrappers (class merging, `Intl` formatting) and are not modelled.
- The React components, pages, layout and styling are presentation and are not modelled.
- Authentication is not modelled. The session is an input: the user id, or none.
- The OpenAI client and the demo route are not modelled. The provider is an input: a refused call, or a finite sequence of deltas that either ends normally or fails.
- A database failure is not modelled, and the model's store operations always succeed. In the source, a store error before the response is returned (the lookup, the conversation's creation and the user's message, route.ts:33-73) becomes the 500 answer at route.ts:162-167. A store error inside the stream's `start` (the reply's save and the bump, route.ts:117-135) is caught at route.ts:147-150 and errors the stream, which has already been answered with status 200. So in the model a 500 comes only from a refused provider call.
- A body that is not JSON is not modelled: `request.json()` at route.ts:19 then throws and the answer is the 500 at route.ts:162-167. A `message` that is truthy but not a string is not modelled either: the request carries an optional string.
- The source's own id scheme is not modelled. In the model, generated ids are the decimal text of a store counter, so each new id differs from every earlier one.
- The server clock is a counter, not wall-clock time. The client's `Date.now()` and `new Date()` are one parameter `now` per send, so the clock does not advance within a send.
- Response headers (`text/event-stream`, `no-cache`, `keep-alive`) are not modelled.
- Lengths count Unicode scalar values. JavaScript counts UTF-16 code units, so messages outside the Basic Multilingual Plane are cut differently at 50.
- TextEncoder and TextDecoder are not modelled. Both sides work on strings, so a multi-byte character split across reads is not modelled.
- JSON is reduced to the shape the server writes, with quote, backslash, newline and carriage-return escapes. The client parses only that shape, and any other text counts as a parse failure. JSON from other writers is not modelled, and neither are other escapes or non-string field values.
- Wire.Decode: only decodes the fields in the order the server writes them, so it is weaker than `JSON.parse` on reordered fields.
- ChatHook.ApplyEvent: a `done` event without a `conversationId` commits a message whose conversation is `""`. In the source that field is `undefined`, which the model cannot represent.
- ChatHook.ChatState.SendMessage: modelled as one atomic step. The intermediate states are not part of its contract. These include loading being true and the user's message showing during the send, and stop being pressed while reads are pending. `StopGeneration` is a separate step taken before or after a send.
- ChatHook.ChatState.SendMessage: after the `done` event of a turn that started a new conversation, the source refetches the conversation list and the conversation (`fetchConversations`, `fetchConversation`). Those network reads replace the list and the messages with server data and are not modelled.
- The model assumes the server does not notice the client's abort, and has no connection between the two sides beyond the body text. Whether the server notices depends on the runtime. When the runtime cancels the stream, `enqueue` at route.ts:113 throws, route.ts:147-150 runs and no reply is stored; that path is not modelled.
- ChatHook.ChatState.StopGeneration: the model never holds an abort handle outside a send. `SendMessage` ends with no handle and the constructor starts with none, so the branch that aborts a held handle is never reached from the modelled operations. A stop during a send is modelled only as the transport's `aborted` flag (`FetchFailed(true)` or `ReadFailed(true)`).
- ChatHook.ChatState.CreateConversation: the title sent to the server only reaches the server. The model takes the server's reply, or its absence, as an input.
- `fetchConversations` and `fetchConversation` only copy server data into the state, and are not modelled.
