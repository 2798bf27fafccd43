/**
 * `POST /api/chat/stream` (src/app/api/chat/stream/route.ts): checks the caller, resolves or
 * creates the conversation, saves the user's message, asks the completion provider for a
 * streamed reply, relays every delta as an event, then saves the whole reply and sends a final
 * `done` event.
 *
 * Respond is the handler as a function of the store's value, the session's user id, the request
 * body and what the provider does; it returns the response, the new store and the trace of
 * side effects in the order they happen. Post is the handler itself, over a Store object, with
 * the relay loop; it is proved to behave as Respond.
 */
module StreamRoute {
  import opened Wrappers
  import opened ChatTypes
  import opened Title
  import opened Wire
  import opened ChatStore

  const SystemPrompt: string :=
    "You are a helpful AI assistant. Provide helpful, accurate, and thoughtful responses."

  /**
   * What the completion provider does: the call itself fails (Rejected), or it yields deltas
   * (a chunk without text content is None) and then ends normally or fails.
   */
  datatype Completion = Rejected | Streamed(deltas: seq<Option<string>>, completes: bool)

  /** A JSON error reply, or a `text/event-stream` body that closes or errors after `body`. */
  datatype HttpResponse = JsonError(status: nat, error: string) | EventStream(body: string, errored: bool)

  datatype Effect =
    | ConversationCreated(conversation: Conversation)
    | MessageSaved(message: Message)
    | ProviderInvoked(context: seq<ChatEntry>)
    | EventSent(event: StreamResponse)
    | ConversationTouched(id: string)
    | StreamErrored

  datatype Outcome = Outcome(response: HttpResponse, db: Db, effects: seq<Effect>)

  /** The prompt: the system instruction, the earlier messages in order, then the new message. */
  function BuildContext(prior: seq<Message>, message: string): (context: seq<ChatEntry>)
    ensures |context| == |prior| + 2
    ensures context[0] == ChatEntry(system, SystemPrompt)
    ensures forall i :: 0 <= i < |prior| ==>
      context[i + 1] == ChatEntry(LowerRole(prior[i].role), prior[i].content)
    ensures context[|context| - 1] == ChatEntry(user, message)
  {
    [ChatEntry(system, SystemPrompt)]
      + seq(|prior|, i requires 0 <= i < |prior| => ChatEntry(LowerRole(prior[i].role), prior[i].content))
      + [ChatEntry(user, message)]
  }

  /** `chunk.choices[0]?.delta?.content || ''`. */
  function DeltaText(delta: Option<string>): string {
    delta.GetOr("")
  }

  /** The accumulator `assistantMessage` after the given deltas. */
  function Assembled(deltas: seq<Option<string>>): string {
    if deltas == [] then "" else Assembled(deltas[..|deltas| - 1]) + DeltaText(deltas[|deltas| - 1])
  }

  /** The events relayed while the provider streams: one per delta, in order, without a message id. */
  function ProgressEvents(deltas: seq<Option<string>>, conversationId: string): (events: seq<StreamResponse>)
    ensures |events| == |deltas|
    ensures forall i :: 0 <= i < |deltas| ==>
      events[i] == StreamResponse(DeltaText(deltas[i]), false, Some(conversationId), None)
  {
    if deltas == [] then []
    else
      ProgressEvents(deltas[..|deltas| - 1], conversationId)
        + [StreamResponse(DeltaText(deltas[|deltas| - 1]), false, Some(conversationId), None)]
  }

  /** The event that ends a completed stream. */
  function FinalEvent(conversationId: string, messageId: string): StreamResponse {
    StreamResponse("", true, Some(conversationId), Some(messageId))
  }

  function Sent(events: seq<StreamResponse>): (effects: seq<Effect>)
    ensures |effects| == |events|
    ensures forall i :: 0 <= i < |events| ==> effects[i] == EventSent(events[i])
  {
    if events == [] then [] else Sent(events[..|events| - 1]) + [EventSent(events[|events| - 1])]
  }

  /** The checks made before anything is written, in the order the handler makes them. */
  predicate Accepted(db: Db, userId: Option<string>, req: ChatRequest) {
    && Truthy(userId)
    && Truthy(req.message)
    && (Truthy(req.conversationId) ==> FindOwned(db.conversations, req.conversationId.value, userId.value).Some?)
  }

  /** The conversation a turn goes to, its earlier messages, and the store after resolving it. */
  datatype Resolution = Resolution(db: Db, conversation: Conversation, prior: seq<Message>, effects: seq<Effect>)

  function Resolve(db: Db, userId: string, message: string, conversationId: Option<string>): Resolution
    requires Truthy(conversationId) ==> FindOwned(db.conversations, conversationId.value, userId).Some?
  {
    if Truthy(conversationId) then
      Resolution(db, FindOwned(db.conversations, conversationId.value, userId).value,
                 History(db.messages, conversationId.value), [])
    else
      var created := NewConversation(db, GenerateConversationTitle(message), userId);
      Resolution(created.0, created.1, [], [ConversationCreated(created.1)])
  }

  /**
   * The body of the event stream (the `start` callback): relay every delta, then either error
   * the stream or save the reply, bump the conversation and send the final event.
   */
  function StreamOutcome(db: Db, conversationId: string, deltas: seq<Option<string>>, completes: bool): Outcome {
    var events := ProgressEvents(deltas, conversationId);
    if !completes then
      Outcome(EventStream(Body(events), true), db, Sent(events) + [StreamErrored])
    else
      var reply := NewMessage(db, Assembled(deltas), ASSISTANT, conversationId);
      var final := FinalEvent(conversationId, reply.1.id);
      Outcome(EventStream(Body(events + [final]), false), TouchConversation(reply.0, conversationId),
              Sent(events) + [MessageSaved(reply.1), ConversationTouched(conversationId), EventSent(final)])
  }

  function Respond(db: Db, userId: Option<string>, req: ChatRequest, completion: Completion): Outcome {
    if !Truthy(userId) then Outcome(JsonError(401, "Unauthorized"), db, [])
    else if !Truthy(req.message) then Outcome(JsonError(400, "Message is required"), db, [])
    else if !Accepted(db, userId, req) then Outcome(JsonError(404, "Conversation not found"), db, [])
    else
      var message := req.message.value;
      var r := Resolve(db, userId.value, message, req.conversationId);
      var saved := NewMessage(r.db, message, USER, r.conversation.id);
      var opening := r.effects + [MessageSaved(saved.1), ProviderInvoked(BuildContext(r.prior, message))];
      match completion
      case Rejected => Outcome(JsonError(500, "Internal server error"), saved.0, opening)
      case Streamed(deltas, completes) =>
        var streamed := StreamOutcome(saved.0, r.conversation.id, deltas, completes);
        Outcome(streamed.response, streamed.db, opening + streamed.effects)
  }

  method Post(store: Store, userId: Option<string>, req: ChatRequest, completion: Completion)
    returns (response: HttpResponse, effects: seq<Effect>)
    requires store.Valid()
    modifies store
    ensures store.Valid()
    ensures Outcome(response, store.Snapshot(), effects) == Respond(old(store.Snapshot()), userId, req, completion)
  {
    if !Truthy(userId) {
      return JsonError(401, "Unauthorized"), [];
    }
    if !Truthy(req.message) {
      return JsonError(400, "Message is required"), [];
    }
    var uid := userId.value;
    var message := req.message.value;
    var conversation: Conversation;
    var prior: seq<Message> := [];
    effects := [];
    if Truthy(req.conversationId) {
      var found, history := store.FindFirst(req.conversationId.value, uid);
      if found.None? {
        return JsonError(404, "Conversation not found"), [];
      }
      conversation, prior := found.value, history;
    } else {
      conversation := store.CreateConversation(GenerateConversationTitle(message), uid);
      effects := [ConversationCreated(conversation)];
    }
    var userMessage := store.CreateMessage(message, USER, conversation.id);
    effects := effects + [MessageSaved(userMessage), ProviderInvoked(BuildContext(prior, message))];
    if completion.Rejected? {
      return JsonError(500, "Internal server error"), effects;
    }
    var streamed;
    response, streamed := Start(store, conversation.id, completion.deltas, completion.completes);
    effects := effects + streamed;
  }

  /** Appending one event appends its text to the body and its sending to the trace. */
  lemma EventsAppend(events: seq<StreamResponse>, e: StreamResponse)
    ensures Body(events + [e]) == Body(events) + EventText(e)
    ensures Sent(events + [e]) == Sent(events) + [EventSent(e)]
  {
    assert (events + [e])[..|events|] == events;
  }

  /** One more delta extends the reply, the relayed events, the body and the trace by one step. */
  lemma RelayStep(deltas: seq<Option<string>>, i: nat, conversationId: string)
    requires i < |deltas|
    ensures var e := StreamResponse(DeltaText(deltas[i]), false, Some(conversationId), None);
      var before := ProgressEvents(deltas[..i], conversationId);
      && Assembled(deltas[..i + 1]) == Assembled(deltas[..i]) + DeltaText(deltas[i])
      && ProgressEvents(deltas[..i + 1], conversationId) == before + [e]
      && Body(before + [e]) == Body(before) + EventText(e)
      && Sent(before + [e]) == Sent(before) + [EventSent(e)]
  {
    assert deltas[..i + 1][..i] == deltas[..i];
    EventsAppend(ProgressEvents(deltas[..i], conversationId),
                 StreamResponse(DeltaText(deltas[i]), false, Some(conversationId), None));
  }

  /** The `start` callback of the response stream. */
  method Start(store: Store, conversationId: string, deltas: seq<Option<string>>, completes: bool)
    returns (response: HttpResponse, effects: seq<Effect>)
    requires store.Valid()
    modifies store
    ensures store.Valid()
    ensures Outcome(response, store.Snapshot(), effects) == StreamOutcome(old(store.Snapshot()), conversationId, deltas, completes)
  {
    var assistantMessage := "";
    var body := "";
    effects := [];
    ghost var sent: seq<StreamResponse> := [];
    var i := 0;
    while i < |deltas|
      invariant 0 <= i <= |deltas|
      invariant assistantMessage == Assembled(deltas[..i])
      invariant sent == ProgressEvents(deltas[..i], conversationId)
      invariant body == Body(sent)
      invariant effects == Sent(sent)
      invariant unchanged(store)
    {
      var content := DeltaText(deltas[i]);
      assistantMessage := assistantMessage + content;
      var event := StreamResponse(content, false, Some(conversationId), None);
      RelayStep(deltas, i, conversationId);
      body := body + EventText(event);
      effects := effects + [EventSent(event)];
      sent := sent + [event];
      i := i + 1;
    }
    assert deltas[..i] == deltas;
    if !completes {
      return EventStream(body, true), effects + [StreamErrored];
    }
    var saved := store.CreateMessage(assistantMessage, ASSISTANT, conversationId);
    store.UpdateTimestamp(conversationId);
    var final := FinalEvent(conversationId, saved.id);
    EventsAppend(sent, final);
    body := body + EventText(final);
    effects := effects + [MessageSaved(saved), ConversationTouched(conversationId), EventSent(final)];
    response := EventStream(body, false);
  }
}
