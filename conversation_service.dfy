/** ConversationService (app/data_layer/services/conversation_service.py). */
module ConversationService {
  import opened Wrappers
  import opened ReasoningClasses
  import opened Models
  import opened Store
  import Seqs

  /** Python truthiness of the optional `conversation_id` argument. */
  predicate Given(conversationId: Option<string>)
  {
    conversationId.Some? && conversationId.value != ""
  }

  function NotFound(conversationId: string): Error
  {
    ValueError("Conversation with id '" + conversationId + "' not found.")
  }

  /** The stored conversation after `$push` of the message and `$set` of `last_updated`. */
  function PushMessage(c: Conversation, message: Message, now: Time): (r: Conversation)
    ensures r.messages == c.messages + [message] && r.lastUpdated == now
    ensures r.(messages := c.messages, lastUpdated := c.lastUpdated) == c
  {
    c.(messages := c.messages + [message], lastUpdated := now)
  }

  /** The object handed back: the stored record, with `output_table` replaced by the
      message's table when it has one. The replacement is never written back. */
  function Returned(stored: Conversation, message: Message): (r: Conversation)
    ensures r.outputTable == if message.table.Some? then message.table.value else stored.outputTable
    ensures r.(outputTable := stored.outputTable) == stored
  {
    if message.table.Some? then stored.(outputTable := message.table.value) else stored
  }

  /** What `store_message` answers, and the conversations and next id it leaves:
      with a conversation id given, the message is appended to that conversation
      (an unparsable or unknown id is refused and nothing changes); without one, a
      new conversation holding just the message is stored under a fresh id. */
  function StoreOutcome(cs: seq<Conversation>, nextId: ObjectId, message: Message, userId: string,
                        conversationId: Option<string>, now: Time)
    : (r: (Result<Conversation>, seq<Conversation>, ObjectId))
    ensures Given(conversationId) && ParseObjectId(conversationId.value).Err? ==>
              r == (Err(InvalidId(conversationId.value)), cs, nextId)
    ensures Given(conversationId) && ParseObjectId(conversationId.value).Ok? ==>
              match FindConversation(cs, ParseObjectId(conversationId.value).value)
              case None => r == (Err(NotFound(conversationId.value)), cs, nextId)
              case Some(i) =>
                && r.1 == cs[i := PushMessage(cs[i], message, now)]
                && r.2 == nextId
                && r.0 == Ok(Returned(r.1[i], message))
    ensures r.0.Err? ==> r.1 == cs && r.2 == nextId
    ensures !Given(conversationId) ==>
              && r.1 == cs + [NewConversation(userId, [message], now).(id := Some(nextId))]
              && r.2 == nextId + 1
              && r.0 == Ok(r.1[|r.1| - 1])
  {
    if Given(conversationId) then
      match ParseObjectId(conversationId.value)
      case Err(_) => (Err(InvalidId(conversationId.value)), cs, nextId)
      case Ok(id) =>
        match FindConversation(cs, id)
        case None => (Err(NotFound(conversationId.value)), cs, nextId)
        case Some(i) =>
          var updated := PushMessage(cs[i], message, now);
          (Ok(Returned(updated, message)), cs[i := updated], nextId)
    else
      var conversation := NewConversation(userId, [message], now).(id := Some(nextId));
      (Ok(conversation), cs + [conversation], nextId + 1)
  }

  /** Storing under a given conversation id succeeds only by appending the message to
      that conversation: no conversation is added and no other one changes. */
  lemma StoredAppends(cs: seq<Conversation>, nextId: ObjectId, message: Message, userId: string,
                      conversationId: string, now: Time)
    requires conversationId != ""
    requires StoreOutcome(cs, nextId, message, userId, Some(conversationId), now).0.Ok?
    ensures var (r, after, next) := StoreOutcome(cs, nextId, message, userId, Some(conversationId), now);
            && next == nextId && |after| == |cs|
            && exists i :: 0 <= i < |cs| && cs[i].id == Some(ParseObjectId(conversationId).value)
                 && after[i] == PushMessage(cs[i], message, now)
                 && (forall j :: 0 <= j < |cs| && j != i ==> after[j] == cs[j])
  {
    var i := FindConversation(cs, ParseObjectId(conversationId).value).value;
    assert StoreOutcome(cs, nextId, message, userId, Some(conversationId), now).1[i] == PushMessage(cs[i], message, now);
  }

  /** `store_message`: append to the given conversation, or start a new one when no id
      is given; memories and documents are untouched and the store stays valid. */
  method StoreMessage(db: Db, message: Message, userId: string, conversationId: Option<string>, now: Time)
    returns (r: Result<Conversation>)
    requires db.Valid()
    modifies db
    ensures db.Valid()
    ensures db.memories == old(db.memories) && db.documents == old(db.documents)
    ensures (r, db.conversations, db.nextId)
              == StoreOutcome(old(db.conversations), old(db.nextId), message, userId, conversationId, now)
  {
    if Given(conversationId) {
      var id :- ParseObjectId(conversationId.value);
      var found := FindConversation(db.conversations, id);
      if found.None? {
        return Err(NotFound(conversationId.value));
      }
      var i := found.value;
      var updated := PushMessage(db.conversations[i], message, now);
      db.conversations := db.conversations[i := updated];
      r := Ok(Returned(updated, message));
    } else {
      var conversation := NewConversation(userId, [message], now).(id := Some(db.nextId));
      db.conversations := db.conversations + [conversation];
      db.nextId := db.nextId + 1;
      r := Ok(conversation);
    }
  }

  /** The conversations of one user, in stored order. */
  function OfUser(cs: seq<Conversation>, userId: string): (r: seq<Conversation>)
    ensures forall c :: c in r <==> c in cs && c.userId == userId
  {
    Seqs.Filter(cs, (c: Conversation) => c.userId == userId)
  }

  /** `get_user_conversations`. */
  method GetUserConversations(db: Db, userId: string) returns (r: seq<Conversation>)
    ensures r == OfUser(db.conversations, userId)
  {
    r := OfUser(db.conversations, userId);
  }

  /** `get_conversation`: `None` stands for the `False` returned when nothing matches. */
  method GetConversation(db: Db, conversationId: string) returns (r: Result<Option<Conversation>>)
    ensures ParseObjectId(conversationId).Err? ==> r == Err(InvalidId(conversationId))
    ensures ParseObjectId(conversationId).Ok? ==>
              match FindConversation(db.conversations, ParseObjectId(conversationId).value)
              case None => r == Ok(None)
              case Some(i) => r == Ok(Some(db.conversations[i]))
  {
    var id :- ParseObjectId(conversationId);
    var found := FindConversation(db.conversations, id);
    if found.None? {
      return Ok(None);
    }
    r := Ok(Some(db.conversations[found.value]));
  }
}
