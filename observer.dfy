/** The memory observer (app/cortex/observer.py): it reads the recent conversation, looks
    up the user's recall memories, asks the memory LLM for an updated summary, a new
    recall memory and a title, and saves the recall memory to the vector index. The
    embedding, the index upsert, the clock and the LLM are parameters. */
module Observer {
  import opened Wrappers
  import opened ChatMessages
  import opened MemoryFunctions
  import Text

  /** The metadata stored with a recall memory. */
  datatype RecallMetadata = RecallMetadata(payload: string, path: string, timestamp: nat, kind: string, userId: string)

  /** One vector to upsert: its id, its embedding and its metadata. */
  datatype VectorRecord = VectorRecord(id: string, values: seq<real>, metadata: RecallMetadata)

  /** The external collaborators of the observer. */
  datatype Deps = Deps(
    tokenizer: Tokenizer,
    indexQuery: IndexQuery,
    embed: string -> Result<seq<real>>,
    upsert: seq<VectorRecord> -> Result<()>,
    insertPath: (string, string) -> string,
    now: nat,
    llm: MemoryPrompt -> Result<MemoryUpdate>)

  /** The record `save_recall_memory` writes: keyed by the user's and thread's path. */
  function RecallRecord(memory: string, threadId: string, userId: string, vector: seq<real>,
                        now: nat, insertPath: (string, string) -> string): (v: VectorRecord)
    ensures v.id == insertPath(userId, threadId) && v.metadata.path == v.id
    ensures v.metadata.payload == memory && v.metadata.kind == RecallKind && v.metadata.userId == userId
  {
    var path := insertPath(userId, threadId);
    VectorRecord(path, vector, RecallMetadata(memory, path, now, RecallKind, userId))
  }


  /** What `save_recall_memory` answers: the embedding's error, or the upsert of exactly
      the one recall record followed by `True`. */
  function SaveOutcome(memory: string, threadId: string, userId: string, deps: Deps): (r: Result<bool>)
    ensures deps.embed(memory).Err? ==> r == Err(deps.embed(memory).error)
    ensures deps.embed(memory).Ok? ==>
              var record := RecallRecord(memory, threadId, userId, deps.embed(memory).value, deps.now, deps.insertPath);
              && (deps.upsert([record]).Err? ==> r == Err(deps.upsert([record]).error))
              && (deps.upsert([record]).Ok? ==> r == Ok(true))
  {
    match deps.embed(memory)
    case Err(e) => Err(e)
    case Ok(vector) =>
      match deps.upsert([RecallRecord(memory, threadId, userId, vector, deps.now, deps.insertPath)])
      case Err(e) => Err(e)
      case Ok(_) => Ok(true)
  }

  /** `save_recall_memory(memory, thread_id, user_id)`. */
  method SaveRecallMemory(memory: string, threadId: string, userId: string, deps: Deps) returns (r: Result<bool>)
    ensures r == SaveOutcome(memory, threadId, userId, deps)
  {
    var vector :- deps.embed(memory);
    var documents := [RecallRecord(memory, threadId, userId, vector, deps.now, deps.insertPath)];
    var _ :- deps.upsert(documents);
    r := Ok(true);
  }

  /** The prompt of the memory LLM: the messages, the current summary and the recall block. */
  datatype MemoryPrompt = MemoryPrompt(messages: seq<ChatMessage>, currentSummary: string, recallMemories: string)

  /** The recall memories as one tagged block, one memory per line. */
  function RecallString(recallMemory: seq<string>): string
  {
    "<recall_memory>\n" + Text.Join("\n", recallMemory) + "\n</recall_memory>"
  }

  /** `memory_builder(messages, current_summary, recall_memory)`. */
  function MemoryBuilder(messages: seq<ChatMessage>, currentSummary: string, recallMemory: seq<string>,
                         llm: MemoryPrompt -> Result<MemoryUpdate>): Result<MemoryUpdate>
  {
    llm(MemoryPrompt(messages, currentSummary, RecallString(recallMemory)))
  }

  /** The conversation text the observer searches with. */
  function ConvoStr(messages: seq<ChatMessage>, tokenizer: Tokenizer): string
  {
    Truncate(tokenizer, BufferString(messages))
  }

  /** The error `len(None)` raises. */
  const NoLen := TypeError("object of type 'NoneType' has no len()")

  /** The recall search the observer runs. */
  function Recalled(messages: seq<ChatMessage>, userId: string, deps: Deps): Result<Option<seq<string>>>
  {
    match deps.indexQuery(ConvoStr(messages, deps.tokenizer), RecallFilter(userId, RecallKind), DefaultTopK)
    case Err(e) => Err(e)
    case Ok(matches) => if |matches| == 0 then Ok(None) else Brief(matches)
  }

  /** The steps after the search: build the update, save its recall memory, answer the
      summary and the title. */
  function Finish(messages: seq<ChatMessage>, currentSummary: string, userId: string, threadId: string,
                  deps: Deps, recalled: seq<string>): Result<(string, string)>
  {
    match MemoryBuilder(messages, currentSummary, recalled, deps.llm)
    case Err(e) => Err(e)
    case Ok(u) =>
      match SaveOutcome(u.recallMemory, threadId, userId, deps)
      case Err(e) => Err(e)
      case Ok(_) => Ok((u.updatedSummary, u.title))
  }

  /** What `observer` does as written. */
  function ObservationAsWritten(messages: seq<ChatMessage>, currentSummary: string, userId: string, threadId: string,
                                deps: Deps): Result<(string, string)>
  {
    match Recalled(messages, userId, deps)
    case Err(e) => Err(e)
    case Ok(None) => Err(NoLen)
    case Ok(Some(recalled)) => Finish(messages, currentSummary, userId, threadId, deps, recalled)
  }

  /** What `observer` evidently means to do: no recall memory found is an empty list. */
  function Observation(messages: seq<ChatMessage>, currentSummary: string, userId: string, threadId: string,
                       deps: Deps): Result<(string, string)>
  {
    match Recalled(messages, userId, deps)
    case Err(e) => Err(e)
    case Ok(None) => Finish(messages, currentSummary, userId, threadId, deps, [])
    case Ok(Some(recalled)) => Finish(messages, currentSummary, userId, threadId, deps, recalled)
  }

  /** `observer(messages, current_summary, user_id, thread_id)` as written. */
  method ObserverAsWritten(messages: seq<ChatMessage>, currentSummary: string, userId: string, threadId: string,
                           deps: Deps)
    returns (r: Result<(string, string)>)
    ensures r == ObservationAsWritten(messages, currentSummary, userId, threadId, deps)
  {
    var convoStr := ConvoStr(messages, deps.tokenizer);
    var recallMemories :- SearchMemory(userId, convoStr, deps.indexQuery);
    if recallMemories.None? {
      return Err(NoLen);
    }
    var memoryUpdate :- MemoryBuilder(messages, currentSummary, recallMemories.value, deps.llm);
    var _ :- SaveRecallMemory(memoryUpdate.recallMemory, threadId, userId, deps);
    r := Ok((memoryUpdate.updatedSummary, memoryUpdate.title));
  }

  /** `observer(...)` with a search that finds nothing read as no recall memories. */
  method Observe(messages: seq<ChatMessage>, currentSummary: string, userId: string, threadId: string, deps: Deps)
    returns (r: Result<(string, string)>)
    ensures r == Observation(messages, currentSummary, userId, threadId, deps)
  {
    var convoStr := ConvoStr(messages, deps.tokenizer);
    var recallMemories :- SearchMemory(userId, convoStr, deps.indexQuery);
    var recalled := if recallMemories.Some? then recallMemories.value else [];
    var memoryUpdate :- MemoryBuilder(messages, currentSummary, recalled, deps.llm);
    var _ :- SaveRecallMemory(memoryUpdate.recallMemory, threadId, userId, deps);
    r := Ok((memoryUpdate.updatedSummary, memoryUpdate.title));
  }

  /** A user with no recall memory yet: the observer as written always fails for them, so
      it never saves that user's first recall memory and no later search of theirs finds
      one; the corrected observer saves it and answers the new summary and title. */
  lemma FirstRecallMemory(messages: seq<ChatMessage>, currentSummary: string, userId: string, threadId: string,
                          deps: Deps, u: MemoryUpdate)
    requires deps.indexQuery(ConvoStr(messages, deps.tokenizer), RecallFilter(userId, RecallKind), DefaultTopK) == Ok([])
    requires deps.llm(MemoryPrompt(messages, currentSummary, RecallString([]))) == Ok(u)
    requires deps.embed(u.recallMemory).Ok?
    requires deps.upsert([RecallRecord(u.recallMemory, threadId, userId, deps.embed(u.recallMemory).value,
                                       deps.now, deps.insertPath)]).Ok?
    ensures ObservationAsWritten(messages, currentSummary, userId, threadId, deps) == Err(NoLen)
    ensures Observation(messages, currentSummary, userId, threadId, deps) == Ok((u.updatedSummary, u.title))
  {
  }

  /** Whenever the search finds something, both versions agree. */
  lemma ObservationAgrees(messages: seq<ChatMessage>, currentSummary: string, userId: string, threadId: string, deps: Deps)
    requires Recalled(messages, userId, deps) != Ok(None)
    ensures ObservationAsWritten(messages, currentSummary, userId, threadId, deps)
            == Observation(messages, currentSummary, userId, threadId, deps)
  {
  }
}
