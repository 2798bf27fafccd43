/**
 * The `useChat` hook (src/hooks/useChat.ts): the client's chat state and the callbacks that
 * change it. Network replies are inputs: `Transport` says what `fetch` and the body reader
 * deliver, and the conversation-list callbacks take the server's answer as a parameter.
 *
 * The read loop of `sendMessage` is specified by the functions ConsumeLine, ConsumeChunk and
 * ConsumeReads over ReadState (the accumulator `assistantContent`, the `streamingMessage`
 * state and the `messages` state); SentMessages gives the message list a whole send leaves.
 */
module ChatHook {
  import opened Wrappers
  import opened ChatTypes
  import opened Wire
  import Decimal

  // ---------------------------------------------------------------- the read loop

  datatype ReadState = ReadState(assistantContent: string, streamingMessage: string, messages: seq<Message>)

  /** The payload of a `data: ` line (`line.slice(6)`), or None for any other line. */
  function DataPayload(line: string): (payload: Option<string>)
    ensures payload.Some? <==> DataPrefix <= line
    ensures payload.Some? ==> line == DataPrefix + payload.value
  {
    if DataPrefix <= line then Some(line[|DataPrefix|..]) else None
  }

  /** The id a committed reply gets: the event's `messageId`, or `Date.now().toString()`. */
  function ReplyId(event: StreamResponse, now: nat): string {
    if Truthy(event.messageId) then event.messageId.value else Decimal.Digits(now)
  }

  /** What one parsed event does to the read state. */
  function ApplyEvent(st: ReadState, event: StreamResponse, now: nat): (r: ReadState)
    ensures r.assistantContent == st.assistantContent + event.content
    ensures event.content != "" && !event.done ==> r.streamingMessage == r.assistantContent
    ensures event.content == "" && !event.done ==> r == st
    ensures !event.done ==> r.messages == st.messages
    ensures event.done ==> r.streamingMessage == ""
    ensures event.done ==>
      r.messages == st.messages + [Message(ReplyId(event, now), r.assistantContent, ASSISTANT,
                                           event.conversationId.GetOr(""), now)]
  {
    var acc := if event.content != "" then st.assistantContent + event.content else st.assistantContent;
    var streaming := if event.content != "" then acc else st.streamingMessage;
    if event.done then
      ReadState(acc, "", st.messages + [Message(ReplyId(event, now), acc, ASSISTANT, event.conversationId.GetOr(""), now)])
    else
      ReadState(acc, streaming, st.messages)
  }

  /** One line of a read: only a `data: ` line whose payload parses has any effect. */
  function ConsumeLine(st: ReadState, line: string, now: nat): ReadState {
    match DataPayload(line)
    case None => st
    case Some(payload) =>
      match Decode(payload)
      case None => st
      case Some(event) => ApplyEvent(st, event, now)
  }

  function ConsumeLines(st: ReadState, lines: seq<string>, now: nat): ReadState {
    if lines == [] then st
    else ConsumeLine(ConsumeLines(st, lines[..|lines| - 1], now), lines[|lines| - 1], now)
  }

  /** One `reader.read()` result, split on '\n' on its own. */
  function ConsumeChunk(st: ReadState, chunk: string, now: nat): ReadState {
    ConsumeLines(st, Lines(chunk), now)
  }

  /** The reads of a response body, in order. */
  function ConsumeReads(st: ReadState, chunks: seq<string>, now: nat): ReadState {
    if chunks == [] then st
    else ConsumeChunk(ConsumeReads(st, chunks[..|chunks| - 1], now), chunks[|chunks| - 1], now)
  }

  /** Events applied in order, as the server sends them. */
  function ConsumeEvents(st: ReadState, events: seq<StreamResponse>, now: nat): ReadState {
    if events == [] then st
    else ApplyEvent(ConsumeEvents(st, events[..|events| - 1], now), events[|events| - 1], now)
  }

  // ---------------------------------------------------------------- a whole send

  /** How a read of the body ends: the stream is done, or `reader.read()` throws. */
  datatype ReadEnd = EndOfBody | ReadFailed(aborted: bool)

  /**
   * What the network does for one send: `fetch` throws, or a response arrives with its `ok`
   * flag, the chunks the reader yields, and how reading ends. `aborted` marks an AbortError.
   */
  datatype Transport = FetchFailed(aborted: bool) | Response(ok: bool, chunks: seq<string>, end: ReadEnd)

  /** The optimistic user message. */
  function UserMessage(content: string, conversationId: Option<string>, now: nat): Message {
    Message(Decimal.Digits(now), content, USER, conversationId.GetOr(""), now)
  }

  /** `prev.slice(0, -1)`. */
  function DropLast<T>(s: seq<T>): (r: seq<T>)
    ensures |s| > 0 ==> r == s[..|s| - 1]
    ensures |s| == 0 ==> r == []
  {
    if |s| == 0 then [] else s[..|s| - 1]
  }

  /** The exception a send ends with, if any: Some(true) for an AbortError. */
  function Failure(transport: Transport): Option<bool> {
    match transport
    case FetchFailed(aborted) => Some(aborted)
    case Response(ok, _, end) =>
      if !ok then Some(false) else if end.ReadFailed? then Some(end.aborted) else None
  }

  /** The `messages` a send that was not refused leaves behind. */
  function SentMessages(messages: seq<Message>, content: string, conversationId: Option<string>, now: nat,
                        transport: Transport): seq<Message>
  {
    var withUser := messages + [UserMessage(content, conversationId, now)];
    var read :=
      if transport.Response? && transport.ok then ConsumeReads(ReadState("", "", withUser), transport.chunks, now).messages
      else withUser;
    if Failure(transport) == Some(false) then DropLast(read) else read
  }

  // ---------------------------------------------------------------- the conversation list

  /** `prev.filter(conv => conv.id !== id)`. */
  function Without(conversations: seq<Conversation>, id: string): (r: seq<Conversation>)
    ensures forall c :: c in r <==> c in conversations && c.id != id
    ensures |r| <= |conversations|
  {
    if conversations == [] then []
    else if conversations[0].id == id then Without(conversations[1..], id)
    else [conversations[0]] + Without(conversations[1..], id)
  }

  /** `prev.map(conv => conv.id === id ? { ...conv, title } : conv)`. */
  function Renamed(conversations: seq<Conversation>, id: string, title: string): (r: seq<Conversation>)
    ensures |r| == |conversations|
    ensures forall k :: 0 <= k < |r| ==>
      r[k] == if conversations[k].id == id then conversations[k].(title := title) else conversations[k]
  {
    if conversations == [] then []
    else
      var c := conversations[0];
      [if c.id == id then c.(title := title) else c] + Renamed(conversations[1..], id, title)
  }

  // ---------------------------------------------------------------- the hook's state

  /** `abortControllerRef.current`: present during a send, and whether it was aborted. */
  datatype AbortController = AbortController(aborted: bool)

  class ChatState {
    var conversations: seq<Conversation>
    var currentConversation: Option<Conversation>
    var messages: seq<Message>
    var isLoading: bool
    var streamingMessage: string
    var abortController: Option<AbortController>

    constructor ()
      ensures conversations == [] && currentConversation == None && messages == []
      ensures !isLoading && streamingMessage == "" && abortController == None
    {
      conversations, currentConversation, messages := [], None, [];
      isLoading, streamingMessage, abortController := false, "", None;
    }

    /**
     * `createConversation`: the server's reply is `created` (None when the request fails or
     * is not ok); a created conversation goes to the FRONT of the list.
     */
    method CreateConversation(created: Option<Conversation>) returns (result: Option<Conversation>)
      modifies this`conversations
      ensures result == created
      ensures conversations == if created.Some? then [created.value] + old(conversations) else old(conversations)
    {
      result := None;
      if created.Some? {
        conversations := [created.value] + conversations;
        result := created;
      }
    }

    /** `deleteConversation`; `ok` is whether the server accepted the deletion. */
    method DeleteConversation(id: string, ok: bool)
      modifies this`conversations, this`currentConversation, this`messages
      ensures !ok ==> conversations == old(conversations) && currentConversation == old(currentConversation)
      ensures !ok ==> messages == old(messages)
      ensures ok ==> conversations == Without(old(conversations), id)
      ensures ok && old(currentConversation).Some? && old(currentConversation).value.id == id ==>
        currentConversation == None && messages == []
      ensures !(old(currentConversation).Some? && old(currentConversation).value.id == id) ==>
        currentConversation == old(currentConversation) && messages == old(messages)
    {
      if ok {
        conversations := Without(conversations, id);
        if currentConversation.Some? && currentConversation.value.id == id {
          currentConversation := None;
          messages := [];
        }
      }
    }

    /** `renameConversation`; `ok` is whether the server accepted the new title. */
    method RenameConversation(id: string, title: string, ok: bool)
      modifies this`conversations, this`currentConversation
      ensures !ok ==> conversations == old(conversations) && currentConversation == old(currentConversation)
      ensures ok ==> conversations == Renamed(old(conversations), id, title)
      ensures ok && old(currentConversation).Some? && old(currentConversation).value.id == id ==>
        currentConversation == Some(old(currentConversation).value.(title := title))
      ensures !(old(currentConversation).Some? && old(currentConversation).value.id == id) ==>
        currentConversation == old(currentConversation)
    {
      if ok {
        conversations := Renamed(conversations, id, title);
        if currentConversation.Some? && currentConversation.value.id == id {
          currentConversation := Some(currentConversation.value.(title := title));
        }
      }
    }

    /**
     * `sendMessage`. Refused (no change at all) while a send is loading. Otherwise the user's
     * message is appended at once, the body is read chunk by chunk, and on every outcome the
     * loading flag, the streaming text and the abort handle are reset.
     */
    method SendMessage(content: string, conversationId: Option<string>, now: nat, transport: Transport)
      modifies this
      ensures old(isLoading) ==> unchanged(this)
      ensures !old(isLoading) ==>
        && messages == SentMessages(old(messages), content, conversationId, now, transport)
        && !isLoading && streamingMessage == "" && abortController == None
        && conversations == old(conversations) && currentConversation == old(currentConversation)
    {
      if isLoading {
        return;
      }
      isLoading := true;
      streamingMessage := "";
      messages := messages + [UserMessage(content, conversationId, now)];
      ghost var withUser := messages;
      abortController := Some(AbortController(false));
      if transport.Response? && transport.ok {
        var chunks := transport.chunks;
        var assistantContent := "";
        var i := 0;
        while i < |chunks|
          invariant 0 <= i <= |chunks|
          invariant ReadState(assistantContent, streamingMessage, messages)
            == ConsumeReads(ReadState("", "", withUser), chunks[..i], now)
          invariant conversations == old(conversations) && currentConversation == old(currentConversation)
        {
          assistantContent := ReadChunk(chunks[i], now, assistantContent);
          i := i + 1;
          assert chunks[..i][..i - 1] == chunks[..i - 1];
        }
        assert chunks[..i] == chunks;
      }
      if Failure(transport) == Some(false) {
        messages := DropLast(messages);
      }
      isLoading := false;
      streamingMessage := "";
      abortController := None;
    }

    /** One `reader.read()` result: split it on '\n' and act on each `data: ` line. */
    method ReadChunk(chunk: string, now: nat, contentSoFar: string) returns (assistantContent: string)
      modifies this`messages, this`streamingMessage
      ensures ReadState(assistantContent, streamingMessage, messages)
        == ConsumeChunk(ReadState(contentSoFar, old(streamingMessage), old(messages)), chunk, now)
    {
      ghost var start := ReadState(contentSoFar, streamingMessage, messages);
      var lines := Lines(chunk);
      assistantContent := contentSoFar;
      var j := 0;
      while j < |lines|
        invariant 0 <= j <= |lines|
        invariant ReadState(assistantContent, streamingMessage, messages) == ConsumeLines(start, lines[..j], now)
      {
        var line := lines[j];
        if DataPrefix <= line {
          var data := Decode(line[|DataPrefix|..]);
          if data.Some? {
            var event := data.value;
            if event.content != "" {
              assistantContent := assistantContent + event.content;
              streamingMessage := assistantContent;
            }
            if event.done {
              var id := if Truthy(event.messageId) then event.messageId.value else Decimal.Digits(now);
              messages := messages + [Message(id, assistantContent, ASSISTANT, event.conversationId.GetOr(""), now)];
              streamingMessage := "";
            }
          }
        }
        j := j + 1;
        assert lines[..j][..j - 1] == lines[..j - 1];
      }
      assert lines[..j] == lines;
    }

    /** `stopGeneration`: acts only while a send holds an abort handle; messages are untouched. */
    method StopGeneration()
      modifies this`abortController, this`isLoading, this`streamingMessage
      ensures old(abortController).None? ==> unchanged(this)
      ensures old(abortController).Some? ==>
        abortController == Some(AbortController(true)) && !isLoading && streamingMessage == ""
    {
      if abortController.Some? {
        abortController := Some(AbortController(true));
        isLoading := false;
        streamingMessage := "";
      }
    }

    /** `newChat`: no current conversation, no messages, no streaming text. */
    method NewChat()
      modifies this`currentConversation, this`messages, this`streamingMessage
      ensures currentConversation == None && messages == [] && streamingMessage == ""
    {
      currentConversation := None;
      messages := [];
      streamingMessage := "";
    }
  }
}
