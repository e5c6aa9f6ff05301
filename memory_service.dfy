/** MemoryService (app/data_layer/services/memory_service.py). */
module MemoryService {
  import opened Wrappers
  import opened Models
  import opened Store
  import Seqs

  /** `insert_memory`: a new memory is inserted and gets the fresh id; otherwise the
      stored record with the memory's id has every field overwritten by the memory.
      A missing record makes `Memory(**None)` fail, a TypeError; so does a memory
      without an id, since `ObjectId(None)` is a fresh id no record has. */
  method InsertMemory(db: Db, memory: Memory, isNew: bool) returns (r: Result<Memory>)
    requires db.Valid()
    modifies db
    ensures db.Valid()
    ensures db.conversations == old(db.conversations) && db.documents == old(db.documents)
    ensures isNew ==>
              && db.memories == old(db.memories) + [memory.(id := Some(old(db.nextId)))]
              && db.nextId == old(db.nextId) + 1
              && r == Ok(memory.(id := Some(old(db.nextId))))
    ensures !isNew && (memory.id.None? || FindMemory(old(db.memories), memory.id.value).None?) ==>
              && r.Err? && r.error.TypeError?
              && db.memories == old(db.memories)
              && db.nextId == old(db.nextId)
    ensures !isNew && memory.id.Some? && FindMemory(old(db.memories), memory.id.value).Some? ==>
              && db.memories == old(db.memories)[FindMemory(old(db.memories), memory.id.value).value := memory]
              && db.nextId == old(db.nextId)
              && r == Ok(memory)
  {
    if isNew {
      var stored := memory.(id := Some(db.nextId));
      db.memories := db.memories + [stored];
      db.nextId := db.nextId + 1;
      r := Ok(stored);
    } else {
      if memory.id.None? {
        return Err(TypeError("Memory(**None)"));
      }
      var found := FindMemory(db.memories, memory.id.value);
      if found.None? {
        return Err(TypeError("Memory(**None)"));
      }
      db.memories := db.memories[found.value := memory];
      r := Ok(memory);
    }
  }

  /** The first stored memory of a conversation, if there is one. */
  function MemoryOf(ms: seq<Memory>, conversationId: string): (r: Option<Memory>)
    ensures r.Some? ==> r.value in ms && r.value.conversationId == conversationId
    ensures r.None? <==> forall m :: m in ms ==> m.conversationId != conversationId
  {
    match FindMemoryOf(ms, conversationId)
    case None => None
    case Some(i) => Some(ms[i])
  }

  /** `get_memory_for_conversation`: `None` stands for the `False` returned when the
      conversation has no memory. */
  method GetMemoryForConversation(db: Db, conversationId: string) returns (r: Option<Memory>)
    ensures r == MemoryOf(db.memories, conversationId)
  {
    var found := FindMemoryOf(db.memories, conversationId);
    if found.None? {
      return None;
    }
    r := Some(db.memories[found.value]);
  }

  /** The memories of one user, in stored order. */
  function OfUser(ms: seq<Memory>, userId: string): (r: seq<Memory>)
    ensures forall m :: m in r <==> m in ms && m.userId == userId
  {
    Seqs.Filter(ms, (m: Memory) => m.userId == userId)
  }

  /** `get_user_memories`. */
  method GetUserMemories(db: Db, userId: string) returns (r: seq<Memory>)
    ensures r == OfUser(db.memories, userId)
  {
    r := OfUser(db.memories, userId);
  }
}
