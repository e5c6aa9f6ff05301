/** The chat entry point (app/services/chat.py): store the user's message, run the agent
    on the conversation's thread, and every few messages consolidate the conversation
    into its memory. */
module Chat {
  import opened Wrappers
  import opened ODicts
  import opened Models
  import opened Store
  import opened ChatMessages
  import CortexUtils
  import ConversationService
  import MemoryService
  import Brain
  import Observer

  /** The agent's and the observer's collaborators. */
  datatype Deps = Deps(agent: Brain.Deps, observer: Observer.Deps)

  /** `messages[-3:]`. */
  function LastThree<T>(xs: seq<T>): (r: seq<T>)
    ensures |xs| >= 3 ==> |r| == 3 && xs == xs[..|xs| - 3] + r
    ensures |xs| < 3 ==> r == xs
  {
    if |xs| >= 3 then xs[|xs| - 3..] else xs
  }

  /** The memory write that follows a turn: the memory to store and whether it is new,
      `None` when nothing is written. An existing memory is consolidated with the last
      three messages once more than two messages arrived since its last update; a
      conversation without one gets one, from all its messages, once it has more than two. */
  function MemoryPlan(memory: Option<Memory>, messages: seq<ChatMessage>, userId: string, id: string,
                      observer: Observer.Deps)
    : (r: Result<Option<(Memory, bool)>>)
    ensures memory.Some? && |messages| - memory.value.lastUpdateCount <= 2 ==> r == Ok(None)
    ensures memory.None? && |messages| <= 2 ==> r == Ok(None)
    ensures memory.Some? && |messages| - memory.value.lastUpdateCount > 2 ==>
              var observed := Observer.Observation(LastThree(messages), memory.value.summary, userId, id, observer);
              && (observed.Err? ==> r == Err(observed.error))
              && (observed.Ok? ==>
                    r == Ok(Some((memory.value.(summary := observed.value.0,
                                                lastUpdateCount := memory.value.lastUpdateCount + 3), false))))
    ensures memory.None? && |messages| > 2 ==>
              var observed := Observer.Observation(messages, "", userId, id, observer);
              && (observed.Err? ==> r == Err(observed.error))
              && (observed.Ok? ==>
                    r == Ok(Some((Memory(None, id, userId, observed.value.0, observed.value.1, "", 3), true))))
  {
    match memory
    case Some(m) =>
      if |messages| - m.lastUpdateCount > 2 then
        var observed :- Observer.Observation(LastThree(messages), m.summary, userId, id, observer);
        Ok(Some((m.(summary := observed.0, lastUpdateCount := m.lastUpdateCount + 3), false)))
      else Ok(None)
    case None =>
      if |messages| > 2 then
        var observed :- Observer.Observation(messages, "", userId, id, observer);
        Ok(Some((Memory(None, id, userId, observed.0, observed.1, "", 3), true)))
      else Ok(None)
  }

  /** An update keeps the memory's record, conversation, user, title and highlights and
      advances its count by three; a new memory starts at three whatever the length. */
  lemma MemoryPlanFields(memory: Option<Memory>, messages: seq<ChatMessage>, userId: string, id: string,
                         observer: Observer.Deps)
    requires MemoryPlan(memory, messages, userId, id, observer).Ok?
    requires MemoryPlan(memory, messages, userId, id, observer).value.Some?
    ensures var (m, isNew) := MemoryPlan(memory, messages, userId, id, observer).value.value;
            && (isNew <==> memory.None?)
            && (memory.Some? ==> && m.id == memory.value.id && m.conversationId == memory.value.conversationId
                                 && m.userId == memory.value.userId && m.title == memory.value.title
                                 && m.highlights == memory.value.highlights
                                 && m.lastUpdateCount == memory.value.lastUpdateCount + 3)
            && (memory.None? ==> && m.id.None? && m.conversationId == id && m.userId == userId
                                 && m.highlights == "" && m.lastUpdateCount == 3 && |messages| > 2)
  {
  }

  /** The memory part of `process_chat_message` for the conversation `id`: at most one
      memory is written, as `MemoryPlan` says; the conversations are not touched. The
      write cannot fail: an updated memory keeps the id it was found under. */
  method UpdateMemory(db: Db, messages: seq<ChatMessage>, userId: string, id: string, observer: Observer.Deps)
    returns (r: Result<()>)
    requires db.Valid()
    modifies db
    ensures db.Valid()
    ensures db.conversations == old(db.conversations) && db.documents == old(db.documents)
    ensures |db.memories| <= |old(db.memories)| + 1
    ensures var plan := MemoryPlan(MemoryService.MemoryOf(old(db.memories), id), messages, userId, id, observer);
            && (plan.Err? ==> r == Err(plan.error) && unchanged(db))
            && (plan == Ok(None) ==> r == Ok(()) && unchanged(db))
            && (plan.Ok? && plan.value.Some? && plan.value.value.1 ==>
                  && r == Ok(())
                  && db.memories == old(db.memories) + [plan.value.value.0.(id := Some(old(db.nextId)))]
                  && db.nextId == old(db.nextId) + 1)
            && (plan.Ok? && plan.value.Some? && !plan.value.value.1 ==>
                  && r == Ok(())
                  && db.memories == old(db.memories)[FindMemoryOf(old(db.memories), id).value := plan.value.value.0]
                  && db.nextId == old(db.nextId))
  {
    ghost var plan := MemoryPlan(MemoryService.MemoryOf(db.memories, id), messages, userId, id, observer);
    var memory := MemoryService.GetMemoryForConversation(db, id);
    if memory.Some? {
      var m := memory.value;
      if |messages| - m.lastUpdateCount > 2 {
        var observed :- Observer.Observe(LastThree(messages), m.summary, userId, id, observer);
        m := m.(summary := observed.0);
        m := m.(lastUpdateCount := m.lastUpdateCount + 3);
        assert plan == Ok(Some((m, false)));
        ghost var i := FindMemoryOf(db.memories, id).value;
        FindMemoryItself(db.memories, i);
        assert m.id == db.memories[i].id;
        var written := MemoryService.InsertMemory(db, m, false);
      } else {
        assert plan == Ok(None);
      }
    } else {
      if |messages| > 2 {
        var observed :- Observer.Observe(messages, "", userId, id, observer);
        var m := Memory(None, id, userId, observed.0, observed.1, "", 3);
        assert plan == Ok(Some((m, true)));
        var written := MemoryService.InsertMemory(db, m, true);
      } else {
        assert plan == Ok(None);
      }
    }
    r := Ok(());
  }

  /** The message the payload describes, `Message(sender=..., type=..., content=...)`:
      a missing field is a KeyError, in field order, and an unknown type fails validation. */
  function PayloadMessage(payload: map<string, string>, stamp: Stamp): (r: Result<Message>)
    ensures "sender" !in payload ==> r == Err(KeyError("sender"))
    ensures "sender" in payload && "type" !in payload ==> r == Err(KeyError("type"))
    ensures "sender" in payload && "type" in payload && "content" !in payload ==> r == Err(KeyError("content"))
    ensures r.Ok? ==> && "sender" in payload && "type" in payload && "content" in payload
                      && r == NewMessage(payload["sender"], payload["type"], payload["content"], stamp)
  {
    if "sender" !in payload then Err(KeyError("sender"))
    else if "type" !in payload then Err(KeyError("type"))
    else if "content" !in payload then Err(KeyError("content"))
    else NewMessage(payload["sender"], payload["type"], payload["content"], stamp)
  }

  /** The run's `GraphConfig`: the user id and, as the thread id, the conversation's id. */
  function RunConfig(userId: string, conversationId: Option<ObjectId>): (c: ODict<CortexUtils.ConfigValue>)
    ensures Wf(c)
    ensures c.vals == map["user_id" := CortexUtils.Text(userId), "thread_id" := CortexUtils.Text(SerializeId(conversationId))]
  {
    ODict(["user_id", "thread_id"],
          map["user_id" := CortexUtils.Text(userId), "thread_id" := CortexUtils.Text(SerializeId(conversationId))])
  }

  /** The optional `conversation_id` of the payload. */
  function ConversationIdOf(payload: map<string, string>): Option<string>
  {
    if "conversation_id" in payload then Some(payload["conversation_id"]) else None
  }

  /** The first step of `process_chat_message`: build the user's message from the
      payload and store it; the answer, conversations and next id it leaves. A named
      conversation receives the message and keeps its id; otherwise the message opens
      a conversation under the fresh id. */
  function Received(conversations: seq<Conversation>, nextId: ObjectId, payload: map<string, string>, stamp: Stamp)
    : (r: (Result<Conversation>, seq<Conversation>, ObjectId))
    ensures PayloadMessage(payload, stamp).Err? ==> r == (Err(PayloadMessage(payload, stamp).error), conversations, nextId)
    ensures PayloadMessage(payload, stamp).Ok? && "user_id" !in payload ==> r == (Err(KeyError("user_id")), conversations, nextId)
    ensures r.0.Err? ==> r.1 == conversations && r.2 == nextId
    ensures r.0.Ok? ==>
              && PayloadMessage(payload, stamp).Ok? && "user_id" in payload
              && r == ConversationService.StoreOutcome(conversations, nextId, PayloadMessage(payload, stamp).value,
                                                       payload["user_id"], ConversationIdOf(payload), stamp.now)
              && (ConversationService.Given(ConversationIdOf(payload)) ==>
                    SerializeId(r.0.value.id) == payload["conversation_id"])
              && (!ConversationService.Given(ConversationIdOf(payload)) ==> r.0.value.id == Some(nextId))
  {
    match PayloadMessage(payload, stamp)
    case Err(e) => (Err(e), conversations, nextId)
    case Ok(message) =>
      if "user_id" !in payload then (Err(KeyError("user_id")), conversations, nextId)
      else ConversationService.StoreOutcome(conversations, nextId, message, payload["user_id"],
                                            ConversationIdOf(payload), stamp.now)
  }

  /** Each answered turn adds two messages to the thread, the user's and the agent's, so
      the first turn of a conversation writes no memory, and from the second one on a
      conversation without a memory runs the observer to create one. */
  lemma TurnMemory(history: seq<ChatMessage>, human: ChatMessage, final: seq<ChatMessage>,
                   userId: string, id: string, observer: Observer.Deps)
    requires |final| > 0
    ensures |Brain.Checkpointed(history + [human], final)| == |history| + 2
    ensures |history| == 0 ==> MemoryPlan(None, Brain.Checkpointed(history + [human], final), userId, id, observer) == Ok(None)
    ensures |history| >= 2 ==> MemoryPlan(None, Brain.Checkpointed(history + [human], final), userId, id, observer) != Ok(None)
  {
  }

  /** `process_chat_message(payload)`. `history` is the thread's checkpointed message
      list. The user's message is stored first; the agent then runs on the
      conversation's thread with the user's content as the newest message; then the
      memory is updated from the thread the checkpointer now holds; the answer is the
      agent's output and the conversation id's text. */
  method ProcessChatMessage(db: Db, payload: map<string, string>, history: seq<ChatMessage>, deps: Deps,
                            userStamp: Stamp, agentStamp: Stamp)
    returns (r: Result<(Message, string)>)
    requires db.Valid()
    modifies db
    ensures db.Valid()
    ensures db.documents == old(db.documents)
    ensures var received := Received(old(db.conversations), old(db.nextId), payload, userStamp);
            && (received.0.Err? ==> && r == Err(received.0.error) && db.conversations == old(db.conversations)
                                    && db.memories == old(db.memories) && db.nextId == old(db.nextId))
            && (r.Ok? ==> && received.0.Ok?
                          && r.value.1 == SerializeId(received.0.value.id)
                          && |db.memories| <= |old(db.memories)| + 1)
  {
    ghost var received := Received(db.conversations, db.nextId, payload, userStamp);
    ghost var memories := db.memories;
    var message :- PayloadMessage(payload, userStamp);
    if "user_id" !in payload {
      return Err(KeyError("user_id"));
    }
    var userId := payload["user_id"];
    var stored := ConversationService.StoreMessage(db, message, userId, ConversationIdOf(payload), userStamp.now);
    assert (stored, db.conversations, db.nextId) == received;
    if stored.Err? {
      return Err(stored.error);
    }
    assert db.memories == memories;
    var conversation := stored.value;
    var config := RunConfig(userId, conversation.id);
    var thread := history + [ChatMessage(Human, payload["content"])];
    var state := new Brain.AgentState(thread);
    var _ :- Brain.Run(state, db, config, deps.agent, agentStamp);
    assert db.memories == memories;
    var id := SerializeId(conversation.id);
    var messages := Brain.Checkpointed(thread, state.messages);
    var _ :- UpdateMemory(db, messages, userId, id, deps.observer);
    assert |db.memories| <= |memories| + 1;
    if state.output.None? {
      return Err(KeyError("output"));
    }
    r := Ok((state.output.value, id));
  }
}
