/**
 * The conversation store the stream endpoint writes through (Prisma in the source): the rows
 * of the Conversation and Message tables, an abstract monotone clock for timestamps and a
 * counter from which fresh row ids are rendered. Db is the store's value; the class Store is
 * the mutable handle the endpoint calls, each method proved to act as its Db function.
 */
module ChatStore {
  import opened Wrappers
  import opened ChatTypes
  import Decimal

  datatype Db = Db(conversations: seq<Conversation>, messages: seq<Message>, clock: nat, nextId: nat)

  /**
   * Every stored id was rendered from a counter value below `nextId`, every timestamp is
   * earlier than `clock`, and messages are stored in strictly increasing creation time.
   */
  ghost predicate Consistent(db: Db) {
    && (forall i :: 0 <= i < |db.conversations| ==>
          Decimal.Value(db.conversations[i].id) < db.nextId
          && db.conversations[i].createdAt < db.clock && db.conversations[i].updatedAt < db.clock)
    && (forall i :: 0 <= i < |db.messages| ==>
          Decimal.Value(db.messages[i].id) < db.nextId && db.messages[i].createdAt < db.clock)
    && (forall i, j :: 0 <= i < j < |db.messages| ==> db.messages[i].createdAt < db.messages[j].createdAt)
  }

  /** `conversation.findFirst({where: {id, userId}})`: the first row with that id AND owner. */
  function FindOwned(conversations: seq<Conversation>, id: string, userId: string): (r: Option<Conversation>)
    ensures r.Some? ==> r.value in conversations && r.value.id == id && r.value.userId == userId
    ensures r.None? ==> forall c :: c in conversations ==> c.id != id || c.userId != userId
  {
    if conversations == [] then None
    else if conversations[0].id == id && conversations[0].userId == userId then Some(conversations[0])
    else FindOwned(conversations[1..], id, userId)
  }

  /** The messages of one conversation, in stored order. */
  function History(messages: seq<Message>, conversationId: string): (r: seq<Message>)
    ensures forall m :: m in r <==> m in messages && m.conversationId == conversationId
    ensures |r| <= |messages|
  {
    if messages == [] then []
    else if messages[0].conversationId == conversationId then [messages[0]] + History(messages[1..], conversationId)
    else History(messages[1..], conversationId)
  }

  predicate AscendingCreation(messages: seq<Message>) {
    forall i, j :: 0 <= i < j < |messages| ==> messages[i].createdAt < messages[j].createdAt
  }

  /**
   * The history the endpoint reads (`include: {messages: {orderBy: {createdAt: 'asc'}}}`) is in
   * ascending creation order, because the store keeps its messages in that order.
   */
  lemma {:induction false} HistoryAscending(messages: seq<Message>, conversationId: string)
    requires AscendingCreation(messages)
    ensures AscendingCreation(History(messages, conversationId))
  {
    if messages != [] {
      assert AscendingCreation(messages[1..]);
      HistoryAscending(messages[1..], conversationId);
      var rest := History(messages[1..], conversationId);
      forall m | m in rest ensures messages[0].createdAt < m.createdAt {
        var j :| 0 <= j < |messages[1..]| && messages[1..][j] == m;
        assert messages[j + 1] == m;
      }
    }
  }

  /** `conversation.create({data: {title, userId}})`: a fresh id and both timestamps now. */
  function NewConversation(db: Db, title: string, userId: string): (r: (Db, Conversation))
    ensures Consistent(db) ==> Consistent(r.0)
    ensures Consistent(db) ==> forall c :: c in db.conversations ==> c.id != r.1.id
    ensures r.1.title == title && r.1.userId == userId
    ensures r.0.conversations == db.conversations + [r.1] && r.0.messages == db.messages
  {
    var c := Conversation(Decimal.Digits(db.nextId), title, userId, db.clock, db.clock);
    Decimal.ValueOfDigits(db.nextId);
    (Db(db.conversations + [c], db.messages, db.clock + 1, db.nextId + 1), c)
  }

  /** `message.create({data: {content, role, conversationId}})`: a fresh id, created now. */
  function NewMessage(db: Db, content: string, role: Role, conversationId: string): (r: (Db, Message))
    ensures Consistent(db) ==> Consistent(r.0)
    ensures Consistent(db) ==> forall m :: m in db.messages ==> m.id != r.1.id
    ensures r.1.content == content && r.1.role == role && r.1.conversationId == conversationId
    ensures r.0.messages == db.messages + [r.1] && r.0.conversations == db.conversations
  {
    var m := Message(Decimal.Digits(db.nextId), content, role, conversationId, db.clock);
    Decimal.ValueOfDigits(db.nextId);
    (Db(db.conversations, db.messages + [m], db.clock + 1, db.nextId + 1), m)
  }

  /** Sets `updatedAt` of the rows with this id (see TouchedRows). */
  function Touched(conversations: seq<Conversation>, id: string, at: nat): (r: seq<Conversation>)
    ensures |r| == |conversations|
  {
    if conversations == [] then []
    else
      var c := conversations[0];
      [if c.id == id then c.(updatedAt := at) else c] + Touched(conversations[1..], id, at)
  }

  /**
   * Row by row: the rows with this id get `updatedAt` set, every other field of them and every
   * other row is kept.
   */
  lemma {:induction false} TouchedRows(conversations: seq<Conversation>, id: string, at: nat)
    ensures forall k :: 0 <= k < |conversations| ==>
      Touched(conversations, id, at)[k]
      == if conversations[k].id == id then conversations[k].(updatedAt := at) else conversations[k]
  {
    if conversations != [] {
      TouchedRows(conversations[1..], id, at);
    }
  }

  /** `conversation.update({where: {id}, data: {updatedAt: new Date()}})`. */
  function TouchConversation(db: Db, id: string): (r: Db)
    ensures Consistent(db) ==> Consistent(r)
    ensures r.conversations == Touched(db.conversations, id, db.clock)
    ensures r.messages == db.messages && r.clock == db.clock + 1 && r.nextId == db.nextId
  {
    TouchedRows(db.conversations, id, db.clock);
    Db(Touched(db.conversations, id, db.clock), db.messages, db.clock + 1, db.nextId)
  }

  class Store {
    var conversations: seq<Conversation>
    var messages: seq<Message>
    var clock: nat
    var nextId: nat

    function Snapshot(): Db
      reads this
    {
      Db(conversations, messages, clock, nextId)
    }

    ghost predicate Valid()
      reads this
    {
      Consistent(Snapshot())
    }

    constructor ()
      ensures Valid() && Snapshot() == Db([], [], 0, 0)
    {
      conversations, messages, clock, nextId := [], [], 0, 0;
    }

    /** The conversation with this id and owner, and its messages oldest first. */
    method FindFirst(id: string, userId: string) returns (found: Option<Conversation>, history: seq<Message>)
      requires Valid()
      ensures found == FindOwned(conversations, id, userId)
      ensures found.Some? ==> history == History(messages, id) && AscendingCreation(history)
    {
      found := FindOwned(conversations, id, userId);
      history := [];
      if found.Some? {
        history := History(messages, id);
        HistoryAscending(messages, id);
      }
    }

    method CreateConversation(title: string, userId: string) returns (c: Conversation)
      requires Valid()
      modifies this
      ensures Valid()
      ensures (Snapshot(), c) == NewConversation(old(Snapshot()), title, userId)
    {
      var r := NewConversation(Snapshot(), title, userId);
      conversations, messages, clock, nextId := r.0.conversations, r.0.messages, r.0.clock, r.0.nextId;
      c := r.1;
    }

    method CreateMessage(content: string, role: Role, conversationId: string) returns (m: Message)
      requires Valid()
      modifies this
      ensures Valid()
      ensures (Snapshot(), m) == NewMessage(old(Snapshot()), content, role, conversationId)
    {
      var r := NewMessage(Snapshot(), content, role, conversationId);
      conversations, messages, clock, nextId := r.0.conversations, r.0.messages, r.0.clock, r.0.nextId;
      m := r.1;
    }

    method UpdateTimestamp(id: string)
      requires Valid()
      modifies this
      ensures Valid()
      ensures Snapshot() == TouchConversation(old(Snapshot()), id)
    {
      ghost var touched := TouchConversation(Snapshot(), id);
      conversations := Touched(conversations, id, clock);
      clock := clock + 1;
      assert Snapshot() == touched;
    }
  }
}
