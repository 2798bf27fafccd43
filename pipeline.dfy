/**
 * The server's event stream read by the client: what the client commits for a completed turn
 * is the assistant message the server stored, whatever line-aligned reads the body arrives in.
 */
module Pipeline {
  import opened Wrappers
  import opened ChatTypes
  import opened Wire
  import opened ChatStore
  import opened StreamRoute
  import opened StreamRouteProperties
  import opened ChatHook
  import opened ChatHookProperties

  /** The progress events add the assembled reply to the accumulator and commit nothing. */
  lemma {:induction false} ProgressEventsConsumed(st: ReadState, deltas: seq<Option<string>>,
                                                  conversationId: string, now: nat)
    ensures ConsumeEvents(st, ProgressEvents(deltas, conversationId), now).assistantContent
      == st.assistantContent + Assembled(deltas)
    ensures ConsumeEvents(st, ProgressEvents(deltas, conversationId), now).messages == st.messages
    decreases |deltas|
  {
    if deltas != [] {
      var init := deltas[..|deltas| - 1];
      var events := ProgressEvents(deltas, conversationId);
      assert events[..|events| - 1] == ProgressEvents(init, conversationId);
      ProgressEventsConsumed(st, init, conversationId, now);
    }
  }

  /**
   * The client's view of a completed stream: the progress events then the final event, read
   * whole or in line-aligned reads, leave the assembled text in the accumulator and commit one
   * assistant message with the final event's id.
   */
  lemma CompletedBodyConsumed(st: ReadState, deltas: seq<Option<string>>, conversationId: string,
                              messageId: string, chunks: seq<string>, now: nat)
    requires messageId != ""
    requires LineAligned(chunks)
    requires Concat(chunks) == Body(ProgressEvents(deltas, conversationId) + [FinalEvent(conversationId, messageId)])
    ensures var r := ConsumeReads(st, chunks, now);
      && r.assistantContent == st.assistantContent + Assembled(deltas)
      && r.streamingMessage == ""
      && r.messages == st.messages + [Message(messageId, r.assistantContent, ASSISTANT, conversationId, now)]
  {
    var events := ProgressEvents(deltas, conversationId);
    var final := FinalEvent(conversationId, messageId);
    LineAlignedReads(st, chunks, now);
    BodyConsumed(st, events + [final], now);
    assert (events + [final])[..|events|] == events;
    ProgressEventsConsumed(st, deltas, conversationId, now);
  }

  /**
   * Reading the body of a completed turn, whole or in reads that each end with a whole line,
   * leaves the assembled reply in the accumulator, clears the streaming text and commits
   * exactly the assistant message the server stored, stamped with the client's clock.
   */
  lemma ServerBodyCommitsStoredReply(db: Db, userId: Option<string>, req: ChatRequest,
                                     deltas: seq<Option<string>>, chunks: seq<string>,
                                     messages: seq<Message>, now: nat)
    requires Consistent(db) && Accepted(db, userId, req)
    requires LineAligned(chunks)
    requires Respond(db, userId, req, Streamed(deltas, true)).response.EventStream?
    requires Concat(chunks) == Respond(db, userId, req, Streamed(deltas, true)).response.body
    ensures var out := Respond(db, userId, req, Streamed(deltas, true));
      var n := |db.messages|;
      var r := ConsumeReads(ReadState("", "", messages), chunks, now);
      && |out.db.messages| == n + 2
      && r.assistantContent == Assembled(deltas)
      && r.streamingMessage == ""
      && r.messages == messages + [out.db.messages[n + 1].(createdAt := now)]
  {
    var out := Respond(db, userId, req, Streamed(deltas, true));
    var n := |db.messages|;
    CompletedTurn(db, userId, req, deltas);
    var reply := out.db.messages[n + 1];
    var cid := out.db.messages[n].conversationId;
    CompletedBodyConsumed(ReadState("", "", messages), deltas, cid, reply.id, chunks, now);
    assert "" + Assembled(deltas) == Assembled(deltas);
  }

  /**
   * A send answered by a completed turn and read to its end leaves the client's list as it
   * was, then the user's message, then the stored reply: same id, content, role and
   * conversation as in the store.
   */
  lemma CompletedSendMirrorsStore(db: Db, userId: Option<string>, req: ChatRequest,
                                  deltas: seq<Option<string>>, chunks: seq<string>,
                                  messages: seq<Message>, now: nat)
    requires Consistent(db) && Accepted(db, userId, req)
    requires LineAligned(chunks)
    requires Respond(db, userId, req, Streamed(deltas, true)).response.EventStream?
    requires Concat(chunks) == Respond(db, userId, req, Streamed(deltas, true)).response.body
    ensures var out := Respond(db, userId, req, Streamed(deltas, true));
      var n := |db.messages|;
      && |out.db.messages| == n + 2
      && out.db.messages[n].content == req.message.value
      && SentMessages(messages, req.message.value, req.conversationId, now, Response(true, chunks, EndOfBody))
         == messages + [UserMessage(req.message.value, req.conversationId, now)]
                     + [out.db.messages[n + 1].(createdAt := now)]
  {
    var withUser := messages + [UserMessage(req.message.value, req.conversationId, now)];
    EndedSendKeepsReads(messages, req.message.value, req.conversationId, now, chunks);
    CompletedTurn(db, userId, req, deltas);
    ServerBodyCommitsStoredReply(db, userId, req, deltas, chunks, withUser, now);
  }

  /** A send whose body is read to its end keeps exactly what reading committed. */
  lemma EndedSendKeepsReads(messages: seq<Message>, content: string, conversationId: Option<string>,
                            now: nat, chunks: seq<string>)
    ensures SentMessages(messages, content, conversationId, now, Response(true, chunks, EndOfBody))
      == ConsumeReads(ReadState("", "", messages + [UserMessage(content, conversationId, now)]), chunks, now).messages
  {
    assert Failure(Response(true, chunks, EndOfBody)) == None;
  }
}
