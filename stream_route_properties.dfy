/**
 * What the stream endpoint promises, stated about StreamRoute.Respond.
 *
 * The lemmas named `Rebased...` carry no meaning of their own. Facts about `Respond(...)` are
 * first proved about `StreamOutcome` or `Resolve`, and each conclusion is packed into one
 * predicate (`OpensTurn`, `StoresNext`, `RepliedTo`, `BumpedFrom`, ...). A `Rebased...` lemma
 * then moves that predicate from the intermediate values to the values of the turn: its
 * parameters come in pairs required to be equal (`out == after`, `stId == id`). Proving the
 * move in a context that does not mention `Respond` keeps each proof small for the solver.
 */
module StreamRouteProperties {
  import opened Wrappers
  import opened ChatTypes
  import opened Title
  import opened Wire
  import opened ChatStore
  import opened StreamRoute

  /** 401 exactly when the session carries no user id; then nothing is written or sent. */
  lemma UnauthorizedHasNoEffect(db: Db, userId: Option<string>, req: ChatRequest, completion: Completion)
    ensures Respond(db, userId, req, completion).response == JsonError(401, "Unauthorized") <==> !Truthy(userId)
    ensures !Truthy(userId) ==> Respond(db, userId, req, completion).db == db
    ensures !Truthy(userId) ==> Respond(db, userId, req, completion).effects == []
  {
  }

  /**
   * 400 exactly when a signed-in caller sends a missing or empty message; then nothing is
   * written or sent.
   */
  lemma MissingMessageIsBadRequest(db: Db, userId: Option<string>, req: ChatRequest, completion: Completion)
    ensures Respond(db, userId, req, completion).response == JsonError(400, "Message is required")
      <==> Truthy(userId) && !Truthy(req.message)
    ensures Truthy(userId) && !Truthy(req.message) ==>
      Respond(db, userId, req, completion).db == db && Respond(db, userId, req, completion).effects == []
  {
  }

  /** Only emptiness is rejected: a message of blanks is saved like any other. */
  lemma BlankMessageIsAccepted(db: Db, userId: string, completion: Completion)
    requires userId != ""
    ensures var out := Respond(db, Some(userId), ChatRequest(Some(" "), None), completion);
      |out.db.messages| > |db.messages| && out.db.messages[|db.messages|].content == " "
  {
  }

  /**
   * A conversation id that names no conversation of this user (absent, or owned by someone
   * else) gives 404, and nothing is written or sent.
   */
  lemma UnknownConversationIsNotFound(db: Db, userId: string, message: string, conversationId: string,
                                      completion: Completion)
    requires userId != "" && message != "" && conversationId != ""
    requires forall c :: c in db.conversations ==> c.id != conversationId || c.userId != userId
    ensures Respond(db, Some(userId), ChatRequest(Some(message), Some(conversationId)), completion)
      == Outcome(JsonError(404, "Conversation not found"), db, [])
  {
  }

  /**
   * A turn without a conversation id (absent or empty) creates exactly one conversation, owned
   * by the caller, titled from the message, with an id no earlier conversation has; the earlier
   * ones are kept.
   */
  lemma NewConversationPerFreshTurn(db: Db, userId: Option<string>, req: ChatRequest, completion: Completion)
    requires Consistent(db) && Accepted(db, userId, req) && !Truthy(req.conversationId)
    ensures var out := Respond(db, userId, req, completion);
      OpensConversation(db.conversations, out.db.conversations, out.effects,
                        GenerateConversationTitle(req.message.value), userId.value)
  {
    var out := Respond(db, userId, req, completion);
    var r := Resolve(db, userId.value, req.message.value, req.conversationId);
    var saved := NewMessage(r.db, req.message.value, USER, r.conversation.id);
    var n := |db.conversations|;
    TurnStart(db, userId, req);
    FreshTurnOpening(db, userId, req, completion);
    TurnStore(db, userId, req, completion);
    assert AppendedRow(db.conversations, saved.0.conversations, r.conversation) by {
      assert saved.0.conversations[..n] == db.conversations;
    }
    var after := saved.0;
    if completion.Streamed? {
      after := StreamOutcome(saved.0, r.conversation.id, completion.deltas, completion.completes).db;
      StreamKeepsRows(saved.0, r.conversation.id, completion.deltas, completion.completes,
                      db.conversations, r.conversation);
    }
    RebasedRow(out.db, after, db.conversations, r.conversation, out.effects,
               GenerateConversationTitle(req.message.value), userId.value);
  }

  /** `after` is `before` with one more row, which has the id, title and owner of `c`. */
  predicate AppendedRow(before: seq<Conversation>, after: seq<Conversation>, c: Conversation) {
    && |after| == |before| + 1
    && after[..|before|] == before
    && after[|before|].id == c.id && after[|before|].title == c.title && after[|before|].userId == c.userId
  }

  /** The store an accepted turn leaves: the stream's, or the one with the user's message. */
  lemma TurnStore(db: Db, userId: Option<string>, req: ChatRequest, completion: Completion)
    requires Accepted(db, userId, req)
    ensures var r := Resolve(db, userId.value, req.message.value, req.conversationId);
      var saved := NewMessage(r.db, req.message.value, USER, r.conversation.id);
      Respond(db, userId, req, completion).db
      == if completion.Rejected? then saved.0
         else StreamOutcome(saved.0, r.conversation.id, completion.deltas, completion.completes).db
  {
  }

  /**
   * The stream changes no row but the turn's own conversation, and that one only in
   * `updatedAt`: a row appended before it keeps its id, title and owner.
   */
  lemma StreamKeepsRows(db: Db, conversationId: string, deltas: seq<Option<string>>, completes: bool,
                        before: seq<Conversation>, c: Conversation)
    requires AppendedRow(before, db.conversations, c) && c.id == conversationId
    requires forall x :: x in before ==> x.id != conversationId
    ensures AppendedRow(before, StreamOutcome(db, conversationId, deltas, completes).db.conversations, c)
  {
    if completes {
      var reply := NewMessage(db, Assembled(deltas), ASSISTANT, conversationId);
      var after := TouchConversation(reply.0, conversationId).conversations;
      TouchedRows(db.conversations, conversationId, reply.0.clock);
      var n := |before|;
      forall k | 0 <= k < n ensures after[k] == before[k] {
        assert db.conversations[k] == before[k];
        assert before[k] in before;
      }
    }
  }

  /**
   * `after` is `before` with one more row, titled `title` and owned by `owner`, whose id no row
   * of `before` has; the trace opens by announcing that row.
   */
  predicate OpensConversation(before: seq<Conversation>, after: seq<Conversation>, effects: seq<Effect>,
                              title: string, owner: string) {
    && |after| == |before| + 1
    && after[..|before|] == before
    && after[|before|].title == title && after[|before|].userId == owner
    && (forall x :: x in before ==> x.id != after[|before|].id)
    && |effects| > 0 && effects[0].ConversationCreated?
    && effects[0].conversation.id == after[|before|].id
  }

  lemma RebasedRow(out: Db, after: Db, before: seq<Conversation>, c: Conversation, effects: seq<Effect>,
                   title: string, owner: string)
    requires out == after && AppendedRow(before, after.conversations, c)
    requires |effects| > 0 && effects[0] == ConversationCreated(c)
    requires forall x :: x in before ==> x.id != c.id
    requires c.title == title && c.userId == owner
    ensures OpensConversation(before, out.conversations, effects, title, owner)
  {
  }

  /** A turn in an existing conversation creates none. */
  lemma ExistingConversationIsReused(db: Db, userId: Option<string>, req: ChatRequest, completion: Completion)
    requires Accepted(db, userId, req) && Truthy(req.conversationId)
    ensures |Respond(db, userId, req, completion).db.conversations| == |db.conversations|
    ensures forall e :: e in Respond(db, userId, req, completion).effects ==> !e.ConversationCreated?
  {
    var saved := NewMessage(db, req.message.value, USER, req.conversationId.value);
    if completion.Streamed? {
      StreamCreatesNone(saved.0, req.conversationId.value, completion.deltas, completion.completes);
    }
  }

  predicate NoneCreated(effects: seq<Effect>) {
    forall e :: e in effects ==> !e.ConversationCreated?
  }

  /** The event stream neither adds nor drops a conversation row and announces no new one. */
  lemma StreamCreatesNone(db: Db, conversationId: string, deltas: seq<Option<string>>, completes: bool)
    ensures |StreamOutcome(db, conversationId, deltas, completes).db.conversations| == |db.conversations|
    ensures NoneCreated(StreamOutcome(db, conversationId, deltas, completes).effects)
  {
    var events := ProgressEvents(deltas, conversationId);
    assert forall e :: e in Sent(events) ==> e.EventSent?;
  }

  /** Where, in the trace of an accepted turn, the user's message is saved. */
  function UserSaveIndex(req: ChatRequest): nat {
    if Truthy(req.conversationId) then 0 else 1
  }

  /** The earlier messages an accepted turn sends to the provider. */
  function Prior(db: Db, req: ChatRequest): seq<Message> {
    if Truthy(req.conversationId) then History(db.messages, req.conversationId.value) else []
  }

  /**
   * The trace opens with `k` effects none of which invokes the provider, then the saving of a
   * user message with this content in conversation `conversationId`, then the provider call
   * with this context.
   */
  predicate OpensTurn(effects: seq<Effect>, k: nat, message: string, conversationId: string,
                      context: seq<ChatEntry>) {
    && |effects| >= k + 2
    && (forall j :: 0 <= j <= k ==> !effects[j].ProviderInvoked?)
    && effects[k].MessageSaved?
    && effects[k].message.role == USER
    && effects[k].message.content == message
    && effects[k].message.conversationId == conversationId
    && effects[k + 1] == ProviderInvoked(context)
  }

  /**
   * An accepted turn saves the user's message, in the turn's conversation, BEFORE the provider
   * is invoked, whatever the provider then does, and the provider is not invoked earlier. It is
   * invoked with the system instruction, the conversation's earlier messages oldest first, and
   * the new message (no earlier messages for a new conversation). For a new conversation, the
   * message goes to the row the turn appended.
   */
  lemma UserMessageSavedBeforeProvider(db: Db, userId: Option<string>, req: ChatRequest, completion: Completion)
    requires Consistent(db) && Accepted(db, userId, req)
    ensures var out := Respond(db, userId, req, completion);
      && (!Truthy(req.conversationId) ==> |out.effects| > 0 && out.effects[0].ConversationCreated?)
      && OpensTurn(out.effects, UserSaveIndex(req), req.message.value, TurnConversation(req, out),
                   BuildContext(Prior(db, req), req.message.value))
      && AscendingCreation(Prior(db, req))
      && (!Truthy(req.conversationId) ==>
            |out.db.conversations| > |db.conversations|
            && TurnConversation(req, out) == out.db.conversations[|db.conversations|].id)
  {
    var out := Respond(db, userId, req, completion);
    var message := req.message.value;
    var r := Resolve(db, userId.value, message, req.conversationId);
    var saved := NewMessage(r.db, message, USER, r.conversation.id);
    var opening := r.effects + [MessageSaved(saved.1), ProviderInvoked(BuildContext(r.prior, message))];
    AcceptedTurnOpens(db, userId, req, completion);
    TurnStart(db, userId, req);
    TurnPrior(db, userId, req);
    if Truthy(req.conversationId) {
      HistoryAscending(db.messages, req.conversationId.value);
    } else {
      FreshTurnOpening(db, userId, req, completion);
      NewConversationPerFreshTurn(db, userId, req, completion);
    }
    RebasedOpening(out.effects, opening, r.effects, saved.1, BuildContext(Prior(db, req), message),
                   UserSaveIndex(req), message, TurnConversation(req, out), r.conversation.id);
  }

  /** The earlier messages an accepted turn sends, and the effects that come before its save. */
  lemma TurnPrior(db: Db, userId: Option<string>, req: ChatRequest)
    requires Accepted(db, userId, req)
    ensures var r := Resolve(db, userId.value, req.message.value, req.conversationId);
      && r.prior == Prior(db, req)
      && |r.effects| == UserSaveIndex(req)
      && (forall j :: 0 <= j < |r.effects| ==> r.effects[j].ConversationCreated?)
  {
  }

  /** Reads the shape of a turn's opening off any trace that begins with it. */
  lemma RebasedOpening(effects: seq<Effect>, opening: seq<Effect>, created: seq<Effect>, saved: Message,
                       context: seq<ChatEntry>, k: nat, message: string, conversationId: string, savedIn: string)
    requires Extends(effects, opening)
    requires opening == created + [MessageSaved(saved), ProviderInvoked(context)]
    requires |created| == k && forall j :: 0 <= j < k ==> created[j].ConversationCreated?
    requires saved.role == USER && saved.content == message
    requires saved.conversationId == savedIn && savedIn == conversationId
    ensures OpensTurn(effects, k, message, conversationId, context)
  {
    assert forall j :: 0 <= j < |opening| ==> effects[j] == opening[j] by {
      assert effects[..|opening|] == opening;
    }
  }

  /**
   * The message an accepted turn saves first is stored as the next row, after every earlier
   * row, which stays in place.
   */
  lemma UserMessageStoredNext(db: Db, userId: Option<string>, req: ChatRequest, completion: Completion)
    requires Consistent(db) && Accepted(db, userId, req)
    ensures var out := Respond(db, userId, req, completion);
      StoresNext(db.messages, out.db.messages, out.effects, UserSaveIndex(req))
  {
    var out := Respond(db, userId, req, completion);
    var message := req.message.value;
    var r := Resolve(db, userId.value, message, req.conversationId);
    var saved := NewMessage(r.db, message, USER, r.conversation.id);
    var opening := r.effects + [MessageSaved(saved.1), ProviderInvoked(BuildContext(r.prior, message))];
    AcceptedTurnOpens(db, userId, req, completion);
    TurnPrior(db, userId, req);
    RebasedSave(out.effects, opening, r.effects, saved.1, BuildContext(r.prior, message),
                out.db.messages, saved.0.messages, r.db.messages, db.messages, UserSaveIndex(req));
  }

  /**
   * After the rows `before` comes one more stored row, and the trace's effect `k` is its saving:
   * the earlier rows stay in place.
   */
  predicate StoresNext(before: seq<Message>, after: seq<Message>, effects: seq<Effect>, k: nat) {
    && |effects| > k
    && |after| > |before|
    && after[..|before|] == before
    && effects[k] == MessageSaved(after[|before|])
  }

  lemma RebasedSave(effects: seq<Effect>, opening: seq<Effect>, created: seq<Effect>, saved: Message,
                    context: seq<ChatEntry>, after: seq<Message>, savedRows: seq<Message>,
                    resolvedRows: seq<Message>, before: seq<Message>, k: nat)
    requires Extends(effects, opening)
    requires opening == created + [MessageSaved(saved), ProviderInvoked(context)] && |created| == k
    requires Extends(after, savedRows) && savedRows == resolvedRows + [saved] && resolvedRows == before
    ensures StoresNext(before, after, effects, k)
  {
    assert effects[k] == opening[k] by {
      assert effects[..|opening|] == opening;
    }
    assert after[|before|] == savedRows[|before|] by {
      assert after[..|savedRows|] == savedRows;
    }
    assert after[..|before|] == savedRows[..|before|];
  }

  /** Streaming only adds to the store: the messages before it are kept, in place. */
  lemma StreamOutcomeExtends(db: Db, conversationId: string, deltas: seq<Option<string>>, completes: bool)
    ensures var out := StreamOutcome(db, conversationId, deltas, completes);
      |out.db.messages| >= |db.messages| && out.db.messages[..|db.messages|] == db.messages
  {
    if completes {
      var reply := NewMessage(db, Assembled(deltas), ASSISTANT, conversationId);
      assert StreamOutcome(db, conversationId, deltas, completes).db.messages == db.messages + [reply.1];
    }
  }

  /** `s` begins with `prefix`. */
  predicate Extends<T(==)>(s: seq<T>, prefix: seq<T>) {
    |s| >= |prefix| && s[..|prefix|] == prefix
  }

  /**
   * An accepted turn opens with the conversation's creation (if any), the user's message and
   * the provider call; whatever follows only extends the trace and the store.
   */
  lemma AcceptedTurnOpens(db: Db, userId: Option<string>, req: ChatRequest, completion: Completion)
    requires Accepted(db, userId, req)
    ensures var r := Resolve(db, userId.value, req.message.value, req.conversationId);
      var saved := NewMessage(r.db, req.message.value, USER, r.conversation.id);
      var opening := r.effects + [MessageSaved(saved.1), ProviderInvoked(BuildContext(r.prior, req.message.value))];
      var out := Respond(db, userId, req, completion);
      Extends(out.effects, opening) && Extends(out.db.messages, saved.0.messages)
  {
    var r := Resolve(db, userId.value, req.message.value, req.conversationId);
    var saved := NewMessage(r.db, req.message.value, USER, r.conversation.id);
    var opening := r.effects + [MessageSaved(saved.1), ProviderInvoked(BuildContext(r.prior, req.message.value))];
    match completion
    case Rejected =>
      assert opening[..|opening|] == opening;
      assert saved.0.messages[..|saved.0.messages|] == saved.0.messages;
    case Streamed(deltas, completes) =>
      var streamed := StreamOutcome(saved.0, r.conversation.id, deltas, completes);
      StreamOutcomeExtends(saved.0, r.conversation.id, deltas, completes);
      assert (opening + streamed.effects)[..|opening|] == opening;
  }

  /**
   * A turn whose provider stream ends normally stores exactly two new messages: the user's,
   * then the assistant's holding all deltas joined in order; the body is one event per delta
   * and a final `done` event carrying the saved reply's id, and the store stays consistent.
   */
  lemma CompletedTurn(db: Db, userId: Option<string>, req: ChatRequest, deltas: seq<Option<string>>)
    requires Consistent(db) && Accepted(db, userId, req)
    ensures var out := Respond(db, userId, req, Streamed(deltas, true));
      && Consistent(out.db)
      && (!Truthy(req.conversationId) ==> |out.effects| > 0 && out.effects[0].ConversationCreated?)
      && RepliedTo(db.messages, out.db.messages, out.response, req.message.value, deltas,
                   TurnConversation(req, out))
      && (!Truthy(req.conversationId) ==>
            && |out.db.conversations| > |db.conversations|
            && TurnConversation(req, out) == out.db.conversations[|db.conversations|].id)
  {
    var out := Respond(db, userId, req, Streamed(deltas, true));
    var r := Resolve(db, userId.value, req.message.value, req.conversationId);
    var saved := NewMessage(r.db, req.message.value, USER, r.conversation.id);
    var st := StreamOutcome(saved.0, r.conversation.id, deltas, true);
    TurnStart(db, userId, req);
    CompletedTurnStore(db, userId, req, deltas);
    CompletedStreamReply(saved.0, r.conversation.id, deltas, req.message.value, db.messages);
    if !Truthy(req.conversationId) {
      FreshTurnOpening(db, userId, req, Streamed(deltas, true));
      NewConversationPerFreshTurn(db, userId, req, Streamed(deltas, true));
    }
    RebasedReply(out.db, out.response, st, db.messages, req.message.value, deltas,
                 TurnConversation(req, out), r.conversation.id);
  }

  /**
   * After the rows `before` come exactly two rows of conversation `id`: the user's message and
   * the assistant's reply assembled from `deltas`, whose non-empty id no earlier row (the user's
   * message included) has, and the response is the event stream of every delta followed by the
   * final event naming the reply.
   */
  predicate RepliedTo(before: seq<Message>, after: seq<Message>, response: HttpResponse, message: string,
                      deltas: seq<Option<string>>, id: string) {
    var n := |before|;
    && |after| == n + 2
    && after[..n] == before
    && after[n].role == USER && after[n].content == message && after[n].conversationId == id
    && after[n + 1].role == ASSISTANT && after[n + 1].content == Assembled(deltas)
    && after[n + 1].conversationId == id
    && (forall k :: 0 <= k <= n ==> after[k].id != after[n + 1].id)
    && after[n + 1].id != ""
    && response == EventStream(Body(ProgressEvents(deltas, id) + [FinalEvent(id, after[n + 1].id)]), false)
  }

  /**
   * A completed stream, run on a store whose last row is the user's message, stores the reply
   * as the next row and keeps the store consistent.
   */
  lemma CompletedStreamReply(db: Db, conversationId: string, deltas: seq<Option<string>>, message: string,
                             before: seq<Message>)
    requires Consistent(db) && |db.messages| == |before| + 1 && db.messages[..|before|] == before
    requires db.messages[|before|].role == USER && db.messages[|before|].content == message
    requires db.messages[|before|].conversationId == conversationId
    ensures var out := StreamOutcome(db, conversationId, deltas, true);
      Consistent(out.db) && RepliedTo(before, out.db.messages, out.response, message, deltas, conversationId)
  {
    var reply := NewMessage(db, Assembled(deltas), ASSISTANT, conversationId);
    var n := |before|;
    forall k | 0 <= k <= n ensures reply.0.messages[k].id != reply.1.id {
      assert db.messages[k] in db.messages;
    }
    assert reply.0.messages[..n] == db.messages[..n];
    Decimal.ValueOfDigits(db.nextId);
  }

  lemma RebasedReply(outDb: Db, outResponse: HttpResponse, st: Outcome, before: seq<Message>, message: string,
                     deltas: seq<Option<string>>, id: string, stId: string)
    requires outDb == st.db && outResponse == st.response && stId == id
    requires RepliedTo(before, st.db.messages, st.response, message, deltas, stId)
    ensures RepliedTo(before, outDb.messages, outResponse, message, deltas, id)
  {
  }

  /** The conversation a turn continues: the one the request names, or the one the turn created. */
  function TurnConversation(req: ChatRequest, out: Outcome): string
    requires !Truthy(req.conversationId) ==> |out.effects| > 0 && out.effects[0].ConversationCreated?
  {
    if Truthy(req.conversationId) then req.conversationId.value else out.effects[0].conversation.id
  }

  /** `after` holds `before` with conversation `id` bumped to the clock reading just before its own. */
  predicate Bumped(after: Db, before: seq<Conversation>, id: string) {
    after.clock >= 1 && after.conversations == Touched(before, id, after.clock - 1)
  }

  /** As Bumped, and `id` is one of the conversations in `before`. */
  predicate BumpedFrom(after: Db, before: seq<Conversation>, id: string) {
    (exists k :: 0 <= k < |before| && before[k].id == id) && Bumped(after, before, id)
  }

  /**
   * The store's last message is the reply (at index `m`), and the trace ends by saving it,
   * bumping conversation `id`, and sending the final event with the reply's id.
   */
  predicate ClosesWithReply(db: Db, effects: seq<Effect>, m: nat, id: string) {
    && |db.messages| == m + 1
    && |effects| >= 3
    && effects[|effects| - 3] == MessageSaved(db.messages[m])
    && effects[|effects| - 2] == ConversationTouched(id)
    && effects[|effects| - 1] == EventSent(FinalEvent(id, db.messages[m].id))
  }

  /** The conversations a turn starts from: those stored before it, and the one it created. */
  function StartingConversations(db: Db, req: ChatRequest, out: Outcome): seq<Conversation>
    requires !Truthy(req.conversationId) ==> |out.effects| > 0 && out.effects[0].ConversationCreated?
  {
    if Truthy(req.conversationId) then db.conversations else db.conversations + [out.effects[0].conversation]
  }

  /**
   * A completed turn ends by saving the reply (the last stored message), then bumping the
   * turn's conversation, then sending the final event with the reply's id.
   */
  lemma CompletedTurnTrace(db: Db, userId: Option<string>, req: ChatRequest, deltas: seq<Option<string>>)
    requires Accepted(db, userId, req)
    ensures var out := Respond(db, userId, req, Streamed(deltas, true));
      && (!Truthy(req.conversationId) ==> |out.effects| > 0 && out.effects[0].ConversationCreated?)
      && ClosesWithReply(out.db, out.effects, |db.messages| + 1, TurnConversation(req, out))
  {
    var r := Resolve(db, userId.value, req.message.value, req.conversationId);
    var saved := NewMessage(r.db, req.message.value, USER, r.conversation.id);
    var out := Respond(db, userId, req, Streamed(deltas, true));
    var st := StreamOutcome(saved.0, r.conversation.id, deltas, true);
    TurnStart(db, userId, req);
    CompletedTurnStore(db, userId, req, deltas);
    CompletedTurnTraceSuffix(db, userId, req, deltas);
    CompletedStreamTrace(saved.0, r.conversation.id, deltas);
    if !Truthy(req.conversationId) {
      FreshTurnOpening(db, userId, req, Streamed(deltas, true));
    }
    RebasedTrace(out.db, out.effects, st, |db.messages| + 1, TurnConversation(req, out),
                 |saved.0.messages|, r.conversation.id);
  }

  /**
   * The bump of a completed turn sets `updatedAt` of the turn's conversation, which is one of
   * the conversations it started from, to the clock reading after the reply was saved, and
   * keeps every other field and row (TouchedRows).
   */
  lemma CompletedTurnTouchesConversation(db: Db, userId: Option<string>, req: ChatRequest,
                                         deltas: seq<Option<string>>)
    requires Accepted(db, userId, req)
    ensures var out := Respond(db, userId, req, Streamed(deltas, true));
      && (!Truthy(req.conversationId) ==> |out.effects| > 0 && out.effects[0].ConversationCreated?)
      && BumpedFrom(out.db, StartingConversations(db, req, out), TurnConversation(req, out))
  {
    var r := Resolve(db, userId.value, req.message.value, req.conversationId);
    var saved := NewMessage(r.db, req.message.value, USER, r.conversation.id);
    var out := Respond(db, userId, req, Streamed(deltas, true));
    var st := StreamOutcome(saved.0, r.conversation.id, deltas, true);
    TurnStart(db, userId, req);
    CompletedTurnStore(db, userId, req, deltas);
    CompletedStreamTouches(saved.0, r.conversation.id, deltas);
    if !Truthy(req.conversationId) {
      FreshTurnOpening(db, userId, req, Streamed(deltas, true));
    }
    RebasedTouch(out.db, st.db, StartingConversations(db, req, out), TurnConversation(req, out),
                 saved.0.conversations, r.conversation.id);
  }

  /** The store an accepted turn streams into: the user's message is its last row. */
  lemma TurnStart(db: Db, userId: Option<string>, req: ChatRequest)
    requires Accepted(db, userId, req)
    ensures var r := Resolve(db, userId.value, req.message.value, req.conversationId);
      var saved := NewMessage(r.db, req.message.value, USER, r.conversation.id);
      && |saved.0.messages| == |db.messages| + 1
      && (Truthy(req.conversationId) ==>
            saved.0.conversations == db.conversations && r.conversation.id == req.conversationId.value)
      && (!Truthy(req.conversationId) ==> saved.0.conversations == db.conversations + [r.conversation])
      && (exists k :: 0 <= k < |saved.0.conversations| && saved.0.conversations[k].id == r.conversation.id)
  {
    var r := Resolve(db, userId.value, req.message.value, req.conversationId);
    if Truthy(req.conversationId) {
      var k :| 0 <= k < |db.conversations| && db.conversations[k] == r.conversation;
    } else {
      assert r.db.conversations[|db.conversations|] == r.conversation;
    }
  }

  /** A turn without a conversation id opens its trace with the creation of its conversation. */
  lemma FreshTurnOpening(db: Db, userId: Option<string>, req: ChatRequest, completion: Completion)
    requires Accepted(db, userId, req) && !Truthy(req.conversationId)
    ensures |Respond(db, userId, req, completion).effects| > 0
    ensures Respond(db, userId, req, completion).effects[0]
      == ConversationCreated(Resolve(db, userId.value, req.message.value, req.conversationId).conversation)
  {
  }

  /** A completed turn's store is the one its stream leaves. */
  lemma CompletedTurnStore(db: Db, userId: Option<string>, req: ChatRequest, deltas: seq<Option<string>>)
    requires Accepted(db, userId, req)
    ensures var r := Resolve(db, userId.value, req.message.value, req.conversationId);
      var saved := NewMessage(r.db, req.message.value, USER, r.conversation.id);
      && Respond(db, userId, req, Streamed(deltas, true)).db == StreamOutcome(saved.0, r.conversation.id, deltas, true).db
      && Respond(db, userId, req, Streamed(deltas, true)).response
         == StreamOutcome(saved.0, r.conversation.id, deltas, true).response
  {
  }

  /** A completed turn's trace ends with its stream's trace. */
  lemma CompletedTurnTraceSuffix(db: Db, userId: Option<string>, req: ChatRequest, deltas: seq<Option<string>>)
    requires Accepted(db, userId, req)
    ensures var r := Resolve(db, userId.value, req.message.value, req.conversationId);
      var saved := NewMessage(r.db, req.message.value, USER, r.conversation.id);
      var st := StreamOutcome(saved.0, r.conversation.id, deltas, true);
      var out := Respond(db, userId, req, Streamed(deltas, true));
      |out.effects| >= |st.effects| && out.effects[|out.effects| - |st.effects|..] == st.effects
  {
  }

  /** Carries a bump stated about one store over to an equal store, named by equal values. */
  lemma RebasedTouch(out: Db, st: Db, before: seq<Conversation>, id: string, stBefore: seq<Conversation>, stId: string)
    requires out == st && stBefore == before && stId == id
    requires Bumped(st, stBefore, stId)
    requires exists k :: 0 <= k < |stBefore| && stBefore[k].id == stId
    ensures BumpedFrom(out, before, id)
  {
  }

  /** Carries the end of a stream's trace over to a trace that ends with it. */
  lemma RebasedTrace(outDb: Db, outEffects: seq<Effect>, st: Outcome, m: nat, id: string, stM: nat, stId: string)
    requires outDb == st.db && stM == m && stId == id
    requires |outEffects| >= |st.effects| && outEffects[|outEffects| - |st.effects|..] == st.effects
    requires ClosesWithReply(st.db, st.effects, stM, stId)
    ensures ClosesWithReply(outDb, outEffects, m, id)
  {
    var e := |outEffects|;
    var f := |st.effects|;
    assert outEffects[e - 3] == st.effects[f - 3] && outEffects[e - 2] == st.effects[f - 2]
      && outEffects[e - 1] == st.effects[f - 1] by {
      assert outEffects[e - f..] == st.effects;
    }
  }

  /**
   * A completed stream saves the reply, then bumps the conversation, then sends the final
   * event with the reply's id.
   */
  lemma CompletedStreamTrace(db: Db, conversationId: string, deltas: seq<Option<string>>)
    ensures var out := StreamOutcome(db, conversationId, deltas, true);
      && out.db.messages[..|db.messages|] == db.messages
      && ClosesWithReply(out.db, out.effects, |db.messages|, conversationId)
  {
    var reply := NewMessage(db, Assembled(deltas), ASSISTANT, conversationId);
    assert StreamOutcome(db, conversationId, deltas, true).db.messages == reply.0.messages;
  }

  /** The bump of a completed stream uses the clock reading just after the reply was saved. */
  lemma CompletedStreamTouches(db: Db, conversationId: string, deltas: seq<Option<string>>)
    ensures var out := StreamOutcome(db, conversationId, deltas, true);
      && |out.db.messages| == |db.messages| + 1
      && Bumped(out.db, db.conversations, conversationId)
      && out.db.messages[|db.messages|].createdAt < out.db.clock - 1
  {
    var reply := NewMessage(db, Assembled(deltas), ASSISTANT, conversationId);
    assert reply.1.createdAt == db.clock && reply.0.clock == db.clock + 1;
  }

  /**
   * When the provider call fails, or its stream fails before ending, the user's message stays
   * and no assistant message is stored; the response is a 500, or the relayed events followed
   * by a stream error.
   */
  lemma FailedTurnSavesNoReply(db: Db, userId: Option<string>, req: ChatRequest, completion: Completion)
    requires Consistent(db) && Accepted(db, userId, req)
    requires completion.Rejected? || !completion.completes
    ensures var out := Respond(db, userId, req, completion);
      var n := |db.messages|;
      && |out.db.messages| == n + 1
      && out.db.messages[..n] == db.messages
      && out.db.messages[n].role == USER
      && (completion.Rejected? ==> out.response == JsonError(500, "Internal server error"))
      && (completion.Streamed? ==> out.response == EventStream(
            Body(ProgressEvents(completion.deltas, out.db.messages[n].conversationId)), true))
  {
    var r := Resolve(db, userId.value, req.message.value, req.conversationId);
    var saved := NewMessage(r.db, req.message.value, USER, r.conversation.id);
    assert saved.0.messages == db.messages + [saved.1];
  }

  /** Joining deltas respects concatenation of delta sequences. */
  lemma {:induction false} AssembledAppend(xs: seq<Option<string>>, ys: seq<Option<string>>)
    ensures Assembled(xs + ys) == Assembled(xs) + Assembled(ys)
    decreases |ys|
  {
    if ys != [] {
      var ys' := ys[..|ys| - 1];
      assert (xs + ys)[..|xs + ys| - 1] == xs + ys';
      AssembledAppend(xs, ys');
    } else {
      assert xs + ys == xs;
    }
  }

  /**
   * The stored reply does not depend on how the provider cuts its text: one delta `a + b`
   * and two deltas `a`, `b` assemble to the same text.
   */
  lemma SplitDeltaSameReply(xs: seq<Option<string>>, a: string, b: string, ys: seq<Option<string>>)
    ensures Assembled(xs + [Some(a + b)] + ys) == Assembled(xs + [Some(a), Some(b)] + ys)
  {
    AssembledAppend(xs + [Some(a + b)], ys);
    AssembledAppend(xs, [Some(a + b)]);
    AssembledAppend(xs + [Some(a), Some(b)], ys);
    AssembledAppend(xs, [Some(a), Some(b)]);
    assert [Some(a), Some(b)][..1] == [Some(a)];
  }
}
