/** The stored records: conversation messages, conversations, memories and
    documents (app/data_layer/models). ObjectIds are modelled as naturals handed
    out by the store; their text form is the decimal of that number. */
module Models {
  import opened Wrappers
  import opened ReasoningClasses
  import Decimal

  type ObjectId = nat

  /** A point in time as read from the clock (`datetime.utcnow()`). */
  type Time = nat

  /** The four message types the model accepts. */
  datatype MessageKind = Query | InternalKnowledge | MemoryNote | FromConversation

  function KindName(k: MessageKind): string
  {
    match k
    case Query => "query"
    case InternalKnowledge => "internal_knowledge"
    case MemoryNote => "memory"
    case FromConversation => "from_conversation"
  }

  /** Validation of the `type` field: only the four literal names are accepted. */
  function ParseKind(s: string): (r: Result<MessageKind>)
    ensures r.Ok? ==> KindName(r.value) == s
    ensures forall k :: s == KindName(k) ==> r == Ok(k)
    ensures r.Err? ==> r.error == ValidationError("type")
  {
    if s == "query" then Ok(Query)
    else if s == "internal_knowledge" then Ok(InternalKnowledge)
    else if s == "memory" then Ok(MemoryNote)
    else if s == "from_conversation" then Ok(FromConversation)
    else Err(ValidationError("type"))
  }

  /** Values the default factories would produce at construction time. */
  datatype Stamp = Stamp(uuid: string, now: Time)

  /** A chat message. `reasoning` and `table` are the extra fields the agent attaches. */
  datatype Message = Message(
    id: string,
    sender: string,
    kind: MessageKind,
    content: string,
    createdAt: Time,
    reasoning: Option<seq<ReasoningStep>>,
    table: Option<Table>)

  /** `Message(sender=..., type=..., content=..., **extra)`: the id and timestamp come
      from the default factories; an unknown type is a validation error. */
  function NewMessage(sender: string, kindName: string, content: string, stamp: Stamp,
                      reasoning: Option<seq<ReasoningStep>> := None, table: Option<Table> := None): (r: Result<Message>)
    ensures r.Ok? <==> kindName in {"query", "internal_knowledge", "memory", "from_conversation"}
    ensures r.Ok? ==> && KindName(r.value.kind) == kindName
                      && r.value.id == stamp.uuid && r.value.createdAt == stamp.now
                      && r.value.sender == sender && r.value.content == content
                      && r.value.reasoning == reasoning && r.value.table == table
  {
    var kind :- ParseKind(kindName);
    Ok(Message(stamp.uuid, sender, kind, content, stamp.now, reasoning, table))
  }

  datatype Conversation = Conversation(
    id: Option<ObjectId>,
    userId: string,
    createdAt: Time,
    lastUpdated: Time,
    title: Option<string>,
    messages: seq<Message>,
    outputTable: Table,
    summary: Option<string>,
    highlight: Option<string>,
    metadata: map<string, string>)

  /** `Conversation(user_id=..., messages=...)`: no id yet, both timestamps from the
      clock, no title, summary or highlight, an empty output table and metadata. */
  function NewConversation(userId: string, messages: seq<Message>, now: Time): (c: Conversation)
    ensures c.id.None? && c.userId == userId && c.messages == messages
    ensures c.createdAt == now && c.lastUpdated == now
    ensures c.title.None? && c.summary.None? && c.highlight.None?
    ensures c.outputTable == [] && c.metadata == map[]
  {
    Conversation(None, userId, now, now, None, messages, [], None, None, map[])
  }

  /** The `id` serializer: `str(v)`, which is "None" for a record not yet stored. */
  function SerializeId(id: Option<ObjectId>): (s: string)
  {
    match id
    case None => "None"
    case Some(n) => Decimal.Show(n)
  }

  /** `ObjectId(s)`: the inverse of the text form; anything else is InvalidId. */
  function ParseObjectId(s: string): (r: Result<ObjectId>)
    ensures r.Ok? ==> SerializeId(Some(r.value)) == s
  {
    match Decimal.Parse(s)
    case Some(n) =>
      if Decimal.Show(n) == s then Ok(n) else Err(InvalidId(s))
    case None => Err(InvalidId(s))
  }

  /** A stored id survives the round trip through its text form. */
  lemma ParseSerializedId(n: ObjectId)
    ensures ParseObjectId(SerializeId(Some(n))) == Ok(n)
  {
    Decimal.ParseShow(n);
  }

  /** The text of an unsaved record's id is not a valid ObjectId. */
  lemma SerializedNoneInvalid()
    ensures ParseObjectId(SerializeId(None)).Err?
  {
    assert Decimal.DigitValue("None"[3]) == None;
  }

  /** Consolidated memory of one conversation. `highlights` is a single string here. */
  datatype Memory = Memory(
    id: Option<ObjectId>,
    conversationId: string,
    userId: string,
    summary: string,
    title: string := "",
    highlights: string := "",
    lastUpdateCount: int := 0)

  /** `Memory(conversation_id=..., user_id=..., summary=...)` with every default taken. */
  function NewMemory(conversationId: string, userId: string, summary: string): (m: Memory)
    ensures m.id.None? && m.conversationId == conversationId && m.userId == userId && m.summary == summary
    ensures m.title == "" && m.highlights == "" && m.lastUpdateCount == 0
  {
    Memory(None, conversationId, userId, summary)
  }

  /** An uploaded document's record (app/data_layer/models/document.py). */
  datatype DocumentRecord = DocumentRecord(
    id: Option<ObjectId>,
    userId: string,
    name: string,
    kind: string,
    summary: string,
    highlights: seq<string>)
}
