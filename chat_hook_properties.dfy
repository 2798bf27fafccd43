/** What the client's read loop and state updates promise, stated about the ChatHook functions. */
module ChatHookProperties {
  import opened Wrappers
  import opened ChatTypes
  import opened Wire
  import opened ChatHook

  // ---------------------------------------------------------------- lines

  /** A line that does not start with `data: ` changes nothing. */
  lemma NonDataLineIgnored(st: ReadState, line: string, now: nat)
    requires !(DataPrefix <= line)
    ensures ConsumeLine(st, line, now) == st
  {
  }

  /** A `data: ` line whose payload does not parse is skipped. */
  lemma MalformedPayloadSkipped(st: ReadState, payload: string, now: nat)
    requires Decode(payload) == None
    ensures ConsumeLine(st, DataPrefix + payload, now) == st
  {
    assert DataPayload(DataPrefix + payload) == Some(payload);
  }

  /** The `data: ` line of an event applies exactly that event. */
  lemma EventLineApplied(st: ReadState, event: StreamResponse, now: nat)
    ensures ConsumeLine(st, DataPrefix + Encode(event), now) == ApplyEvent(st, event, now)
  {
    assert DataPayload(DataPrefix + Encode(event)) == Some(Encode(event));
    DecodeEncode(event);
  }

  lemma {:induction false} ConsumeLinesAppend(st: ReadState, xs: seq<string>, ys: seq<string>, now: nat)
    ensures ConsumeLines(st, xs + ys, now) == ConsumeLines(ConsumeLines(st, xs, now), ys, now)
    decreases |ys|
  {
    if ys == [] {
      assert xs + ys == xs;
    } else {
      assert (xs + ys)[..|xs + ys| - 1] == xs + ys[..|ys| - 1];
      ConsumeLinesAppend(st, xs, ys[..|ys| - 1], now);
    }
  }

  /** Two reads that meet just after a '\n' act as one read of both. */
  lemma ConsumeChunkAppend(st: ReadState, a: string, b: string, now: nat)
    requires |a| > 0 && a[|a| - 1] == '\n'
    ensures ConsumeChunk(st, a + b, now) == ConsumeChunk(ConsumeChunk(st, a, now), b, now)
  {
    var la := Lines(a);
    LinesAppend(a, b);
    var init := la[..|la| - 1];
    assert la == init + [""];
    ConsumeLinesAppend(st, init, Lines(b), now);
    ConsumeLinesAppend(st, init, [""], now);
    assert ConsumeLines(ConsumeLines(st, init, now), [""], now) == ConsumeLines(st, init, now) by {
      assert [""][..0] == [];
    }
  }

  // ---------------------------------------------------------------- reads

  /** The text of a sequence of reads, in order. */
  function Concat(chunks: seq<string>): string {
    if chunks == [] then "" else Concat(chunks[..|chunks| - 1]) + chunks[|chunks| - 1]
  }

  /** Every read ends just after a '\n', so no line straddles two reads. */
  predicate LineAligned(chunks: seq<string>) {
    forall k :: 0 <= k < |chunks| ==> |chunks[k]| > 0 && chunks[k][|chunks[k]| - 1] == '\n'
  }

  /**
   * How the body is cut into reads does not matter as long as every read ends with a whole
   * line: the reads act as one read of their concatenation.
   */
  lemma {:induction false} LineAlignedReads(st: ReadState, chunks: seq<string>, now: nat)
    requires LineAligned(chunks)
    ensures ConsumeReads(st, chunks, now) == ConsumeChunk(st, Concat(chunks), now)
    decreases |chunks|
  {
    if chunks == [] {
      assert ConsumeChunk(st, "", now) == ConsumeLines(st, [""], now);
      assert [""][..0] == [];
    } else {
      var init := chunks[..|chunks| - 1];
      var last := chunks[|chunks| - 1];
      assert LineAligned(init);
      LineAlignedReads(st, init, now);
      if init == [] {
        assert Concat(chunks) == last;
      } else {
        assert Concat(init) == Concat(init[..|init| - 1]) + init[|init| - 1];
        ConsumeChunkAppend(st, Concat(init), last, now);
      }
    }
  }

  /** The empty line between events changes nothing, and neither does an empty read. */
  lemma EmptyLineIgnored(st: ReadState, now: nat)
    ensures ConsumeLine(st, "", now) == st
    ensures ConsumeChunk(st, "", now) == st
  {
    assert !(DataPrefix <= "");
    assert Lines("") == [""];
    assert [""][..0] == [];
    assert ConsumeLines(st, [""], now) == ConsumeLine(ConsumeLines(st, [], now), "", now);
  }

  /** A line followed by an empty line and the empty remainder acts as that line alone. */
  lemma ConsumeFramedLine(st: ReadState, line: string, now: nat)
    ensures ConsumeLines(st, [line, "", ""], now) == ConsumeLine(st, line, now)
  {
    assert [line, "", ""][..2] == [line, ""];
    assert [line, ""][..1] == [line];
    assert [line][..0] == [];
    var r := ConsumeLine(st, line, now);
    assert ConsumeLines(st, [line], now) == r;
    EmptyLineIgnored(r, now);
    assert ConsumeLines(st, [line, ""], now) == r;
  }

  /** A text without '\n' is one line. */
  lemma SingleLine(x: string)
    requires '\n' !in x
    ensures Lines(x) == [x]
  {
    JoinLines(x);
  }

  /** The bytes of one event apply that event. */
  lemma EventConsumed(st: ReadState, event: StreamResponse, now: nat)
    ensures ConsumeChunk(st, EventText(event), now) == ApplyEvent(st, event, now)
  {
    LinesOfEvent(event, "");
    assert EventText(event) + "" == EventText(event);
    assert Lines(EventText(event)) == [DataPrefix + Encode(event), "", ""];
    ConsumeFramedLine(st, DataPrefix + Encode(event), now);
    EventLineApplied(st, event, now);
  }

  /**
   * An event cut by a read boundary right after its `data: ` marker is lost: the first read
   * holds a `data: ` line with an empty payload that fails to parse, the second a line that
   * does not start with `data: `. Read whole, the same bytes apply the event. This is one
   * witness of a general loss: a boundary strictly inside an event's `data:` line loses that
   * event, while a boundary at or after the line's '\n' keeps it (LineAlignedReads,
   * ConsumeChunkAppend).
   */
  lemma FrameLostAtReadBoundary(st: ReadState, event: StreamResponse, now: nat)
    ensures ConsumeReads(st, [DataPrefix, Encode(event) + "\n\n"], now) == st
    ensures ConsumeReads(st, [EventText(event)], now) == ApplyEvent(st, event, now)
  {
    BareMarkerSkipped(st, now);
    EncodeNoNewline(event);
    UnmarkedFrameSkipped(st, Encode(event), now);
    assert [DataPrefix, Encode(event) + "\n\n"][..1] == [DataPrefix];
    assert [EventText(event)][..0] == [];
    EventConsumed(st, event, now);
  }

  /** A read holding only the `data: ` marker changes nothing: its empty payload fails to parse. */
  lemma BareMarkerSkipped(st: ReadState, now: nat)
    ensures ConsumeReads(st, [DataPrefix], now) == st
  {
    assert [DataPrefix][..0] == [];
    SingleLine(DataPrefix);
    assert DataPrefix == DataPrefix + "";
    MalformedPayloadSkipped(st, "", now);
    assert ConsumeLines(st, [DataPrefix], now) == ConsumeLine(st, DataPrefix, now) == st;
  }

  /** A read holding a JSON object's text without the marker, then a blank line, changes nothing. */
  lemma UnmarkedFrameSkipped(st: ReadState, json: string, now: nat)
    requires '\n' !in json && |json| > 0 && json[0] == '{'
    ensures ConsumeChunk(st, json + "\n\n", now) == st
  {
    LinesOfLine(json, "\n");
    LinesOfLine("", "");
    assert json + "\n\n" == json + "\n" + "\n";
    assert "" + "\n" + "" == "\n";
    assert Lines(json + "\n\n") == [json, "", ""];
    assert !(DataPrefix <= json) by { assert json[0] == '{'; }
    ConsumeFramedLine(st, json, now);
  }

  /** Reading the bytes of a sequence of events applies those events, in order. */
  lemma {:induction false} BodyConsumed(st: ReadState, events: seq<StreamResponse>, now: nat)
    ensures ConsumeChunk(st, Body(events), now) == ConsumeEvents(st, events, now)
    decreases |events|
  {
    if events == [] {
      EmptyLineIgnored(st, now);
    } else {
      var init := events[..|events| - 1];
      var last := events[|events| - 1];
      BodyConsumed(st, init, now);
      EventConsumed(ConsumeEvents(st, init, now), last, now);
      if init == [] {
        assert Body(events) == EventText(last);
        EmptyLineIgnored(st, now);
      } else {
        var b := Body(init);
        var prev := init[|init| - 1];
        assert b == Body(init[..|init| - 1]) + EventText(prev);
        assert EventText(prev) == DataPrefix + Encode(prev) + "\n\n";
        assert b[|b| - 1] == EventText(prev)[|EventText(prev)| - 1];
        ConsumeChunkAppend(st, b, EventText(last), now);
      }
    }
  }

  /**
   * A malformed event does not end the stream: the events after it in the same read are
   * still applied, as if it were not there.
   */
  lemma MalformedEventSkipped(st: ReadState, bad: string, events: seq<StreamResponse>, now: nat)
    requires '\n' !in bad && Decode(bad) == None
    ensures ConsumeChunk(st, DataPrefix + bad + "\n\n" + Body(events), now) == ConsumeEvents(st, events, now)
  {
    var first := DataPrefix + bad + "\n\n";
    assert '\n' !in DataPrefix;
    assert '\n' !in DataPrefix + bad;
    LinesOfLine(DataPrefix + bad, "\n");
    LinesOfLine("", "");
    assert first == DataPrefix + bad + "\n" + "\n";
    assert "" + "\n" + "" == "\n";
    assert Lines(first) == [DataPrefix + bad, "", ""];
    ConsumeFramedLine(st, DataPrefix + bad, now);
    MalformedPayloadSkipped(st, bad, now);
    assert ConsumeChunk(st, first, now) == st;
    ConsumeChunkAppend(st, first, Body(events), now);
    BodyConsumed(st, events, now);
  }

  // ---------------------------------------------------------------- accumulation

  /** The contents of a sequence of events, joined in order. */
  function Contents(events: seq<StreamResponse>): string {
    if events == [] then "" else Contents(events[..|events| - 1]) + events[|events| - 1].content
  }

  /** The accumulator is what it was followed by every event's content, in order. */
  lemma {:induction false} EventsAccumulate(st: ReadState, events: seq<StreamResponse>, now: nat)
    ensures ConsumeEvents(st, events, now).assistantContent == st.assistantContent + Contents(events)
    decreases |events|
  {
    if events != [] {
      EventsAccumulate(st, events[..|events| - 1], now);
    }
  }

  /** `after` keeps `before` as its prefix and adds only assistant messages. */
  predicate AppendsReplies(before: seq<Message>, after: seq<Message>) {
    && |before| <= |after|
    && after[..|before|] == before
    && forall k :: |before| <= k < |after| ==> after[k].role == ASSISTANT
  }

  lemma AppendsRepliesTransitive(a: seq<Message>, b: seq<Message>, c: seq<Message>)
    requires AppendsReplies(a, b) && AppendsReplies(b, c)
    ensures AppendsReplies(a, c)
  {
    assert c[..|a|] == c[..|b|][..|a|];
  }

  lemma ConsumeLineAppendsReplies(st: ReadState, line: string, now: nat)
    ensures AppendsReplies(st.messages, ConsumeLine(st, line, now).messages)
  {
    var r := ConsumeLine(st, line, now);
    assert r.messages == st.messages || |r.messages| == |st.messages| + 1;
  }

  lemma {:induction false} ConsumeLinesAppendsReplies(st: ReadState, lines: seq<string>, now: nat)
    ensures AppendsReplies(st.messages, ConsumeLines(st, lines, now).messages)
    decreases |lines|
  {
    if lines != [] {
      var mid := ConsumeLines(st, lines[..|lines| - 1], now);
      ConsumeLinesAppendsReplies(st, lines[..|lines| - 1], now);
      ConsumeLineAppendsReplies(mid, lines[|lines| - 1], now);
      AppendsRepliesTransitive(st.messages, mid.messages, ConsumeLines(st, lines, now).messages);
    }
  }

  /**
   * Reading never changes or removes a message that was already in the list; it only appends
   * assistant messages, one per `done` event.
   */
  lemma {:induction false} ReadsOnlyAppendReplies(st: ReadState, chunks: seq<string>, now: nat)
    ensures AppendsReplies(st.messages, ConsumeReads(st, chunks, now).messages)
    decreases |chunks|
  {
    if chunks != [] {
      var mid := ConsumeReads(st, chunks[..|chunks| - 1], now);
      ReadsOnlyAppendReplies(st, chunks[..|chunks| - 1], now);
      ConsumeLinesAppendsReplies(mid, Lines(chunks[|chunks| - 1]), now);
      AppendsRepliesTransitive(st.messages, mid.messages, ConsumeReads(st, chunks, now).messages);
    }
  }

  // ---------------------------------------------------------------- outcomes of a send

  /** A send whose request fails (not by abort) or is answered not-ok leaves the list as it was. */
  lemma FailedRequestRestoresMessages(messages: seq<Message>, content: string, conversationId: Option<string>,
                                      now: nat, transport: Transport)
    requires transport == FetchFailed(false) || (transport.Response? && !transport.ok)
    ensures SentMessages(messages, content, conversationId, now, transport) == messages
  {
    assert (messages + [UserMessage(content, conversationId, now)])[..|messages|] == messages;
  }

  /**
   * A send that ends normally or by abort keeps the user's message and everything committed
   * while reading; it only adds assistant messages after the user's.
   */
  lemma KeptSendAppendsUserThenReplies(messages: seq<Message>, content: string, conversationId: Option<string>,
                                       now: nat, transport: Transport)
    requires Failure(transport) != Some(false)
    ensures AppendsReplies(messages + [UserMessage(content, conversationId, now)],
                           SentMessages(messages, content, conversationId, now, transport))
  {
    var withUser := messages + [UserMessage(content, conversationId, now)];
    if transport.Response? && transport.ok {
      ReadsOnlyAppendReplies(ReadState("", "", withUser), transport.chunks, now);
    }
  }

  /**
   * The rollback removes the LAST message, not the user's: when a reply was committed by a
   * `done` event and the read then fails, the reply is removed and the user's message stays.
   */
  lemma RollbackRemovesCommittedReply(messages: seq<Message>, content: string, conversationId: Option<string>,
                                      now: nat, serverConversationId: string, messageId: string)
    ensures SentMessages(messages, content, conversationId, now,
        Response(true, [EventText(StreamResponse("", true, Some(serverConversationId), Some(messageId)))], ReadFailed(false)))
      == messages + [UserMessage(content, conversationId, now)]
  {
    var withUser := messages + [UserMessage(content, conversationId, now)];
    var st := ReadState("", "", withUser);
    var final := StreamResponse("", true, Some(serverConversationId), Some(messageId));
    assert [EventText(final)][..0] == [];
    EventConsumed(st, final, now);
    var r := ApplyEvent(st, final, now);
    assert ConsumeReads(st, [EventText(final)], now) == r;
    assert |r.messages| == |withUser| + 1;
    assert r.messages[..|withUser|] == withUser;
  }

  // ---------------------------------------------------------------- the conversation list

  /** Filtering distributes over concatenation: the kept entries stay in their order. */
  lemma {:induction false} WithoutAppend(a: seq<Conversation>, b: seq<Conversation>, id: string)
    ensures Without(a + b, id) == Without(a, id) + Without(b, id)
    decreases |a|
  {
    if a == [] {
      assert a + b == b;
    } else {
      assert (a + b)[0] == a[0];
      assert (a + b)[1..] == a[1..] + b;
      WithoutAppend(a[1..], b, id);
    }
  }

  /** One entry is dropped exactly when it has the id. */
  lemma WithoutSingle(c: Conversation, id: string)
    ensures Without([c], id) == if c.id == id then [] else [c]
  {
    assert [c][1..] == [];
  }
}
