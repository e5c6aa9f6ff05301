/** Recall-memory search and loading (app/cortex/memory_functions.py). The vector index
    query (embedding plus filtered nearest-neighbour search) is one parameter that
    answers with the matches' metadata. */
module MemoryFunctions {
  import opened Wrappers
  import opened ODicts
  import opened ChatMessages
  import CortexUtils

  /** `MemoryUpdate`: the structured output of the memory LLM. */
  datatype MemoryUpdate = MemoryUpdate(updatedSummary: string, recallMemory: string, title: string)

  /** `RecallMemory`: a detailed recall record. */
  datatype RecallMemory = RecallMemory(memory: string, summary: string, aiResponse: string)

  /** The metadata filter of a recall search: this user's records of type "recall". */
  datatype RecallFilter = RecallFilter(userId: string, kind: string)

  /** The metadata of one match; a field is `None` when the record lacks that key. */
  datatype Match = Match(payload: Option<string>, summary: Option<string>, aiResponse: Option<string>)

  const RecallKind := "recall"
  const DefaultTopK: nat := 5

  /** The index query: the `top_k` nearest records of `query` that pass the filter. */
  type IndexQuery = (string, RecallFilter, nat) -> Result<seq<Match>>

  /** `m["metadata"][PAYLOAD_KEY]`. */
  function Payload(m: Match): Result<string>
  {
    if m.payload.Some? then Ok(m.payload.value) else Err(KeyError("payload"))
  }

  /** `RecallMemory(memory=..., summary=..., ai_response=...)` from a match, the keys read in that order. */
  function Detailed(m: Match): (r: Result<RecallMemory>)
    ensures r.Ok? <==> m.payload.Some? && m.summary.Some? && m.aiResponse.Some?
  {
    if m.payload.None? then Err(KeyError("payload"))
    else if m.summary.None? then Err(KeyError("summary"))
    else if m.aiResponse.None? then Err(KeyError("ai_response"))
    else Ok(RecallMemory(m.payload.value, m.summary.value, m.aiResponse.value))
  }

  /** The first match whose record cannot be read in detail, if any. */
  function FirstUnreadable(matches: seq<Match>): (r: Option<nat>)
    ensures r.Some? ==> r.value < |matches| && Detailed(matches[r.value]).Err?
                        && forall j :: 0 <= j < r.value ==> Detailed(matches[j]).Ok?
    ensures r.None? ==> forall j :: 0 <= j < |matches| ==> Detailed(matches[j]).Ok?
  {
    if |matches| == 0 then None
    else if Detailed(matches[0]).Err? then Some(0)
    else match FirstUnreadable(matches[1..])
         case None => None
         case Some(k) => Some(k + 1)
  }

  /** What a brief search returns for matches: their payloads, all of them. */
  function Brief(matches: seq<Match>): Result<Option<seq<string>>>
  {
    match MapAll(matches, Payload)
    case Err(e) => Err(e)
    case Ok(payloads) => Ok(Some(payloads))
  }

  /** `search_memory(user_id, query, top_k, need_breif_recall_memory)`. In brief mode the
      payloads of the matches come back, or `None` when there are none; in detailed
      mode each match is read into a `RecallMemory` that is then dropped, so the result
      is an empty list, or `None` when there are no matches. */
  method SearchMemory(userId: string, query: string, indexQuery: IndexQuery,
                      topK: nat := DefaultTopK, needBriefRecallMemory: bool := true)
    returns (r: Result<Option<seq<string>>>)
    ensures indexQuery(query, RecallFilter(userId, RecallKind), topK).Err? ==>
              r == Err(indexQuery(query, RecallFilter(userId, RecallKind), topK).error)
    ensures indexQuery(query, RecallFilter(userId, RecallKind), topK).Ok? ==>
              var matches := indexQuery(query, RecallFilter(userId, RecallKind), topK).value;
              && (|matches| == 0 ==> r == Ok(None))
              && (|matches| > 0 && needBriefRecallMemory ==> r == Brief(matches))
              && (|matches| > 0 && !needBriefRecallMemory ==>
                    r == match FirstUnreadable(matches)
                         case None => Ok(Some([]))
                         case Some(k) => Err(Detailed(matches[k]).error))
  {
    var matches :- indexQuery(query, RecallFilter(userId, RecallKind), topK);
    var memories: seq<string> := [];
    if needBriefRecallMemory {
      if |matches| > 0 {
        memories :- MapAll(matches, Payload);
        return Ok(Some(memories));
      }
    } else {
      if |matches| > 0 {
        for i := 0 to |matches|
          invariant forall j :: 0 <= j < i ==> Detailed(matches[j]).Ok?
        {
          var detailed := Detailed(matches[i]);
          if detailed.Err? {
            return Err(detailed.error);
          }
        }
        return Ok(Some(memories));
      }
    }
    r := Ok(None);
  }

  /** The payloads a brief search returns are those of the matches, in order. */
  lemma BriefPayloads(matches: seq<Match>)
    requires MapAll(matches, Payload).Ok?
    ensures |MapAll(matches, Payload).value| == |matches|
    ensures forall i :: 0 <= i < |matches| ==> matches[i].payload == Some(MapAll(matches, Payload).value[i])
  {
    var ps := MapAll(matches, Payload).value;
    forall i | 0 <= i < |matches| ensures matches[i].payload == Some(ps[i]) {
      assert Payload(matches[i]) == Ok(ps[i]);
    }
  }

  /** `load_memories(state, config)` as written: `search_memory` is a plain function (the
      `tool` decorator is imported but never applied), so reading its `invoke` attribute
      for the executor raises AttributeError once the configuration has been read. No
      recall memory is ever loaded. */
  method LoadMemoriesAsWritten(messages: seq<ChatMessage>, configurable: ODict<CortexUtils.ConfigValue>,
                               defaultModel: string, tokenizer: Tokenizer)
    returns (r: Result<Option<seq<string>>>)
    requires Wf(configurable)
    ensures r.Err?
    ensures CortexUtils.EnsureConfigurable(configurable, defaultModel).Err? ==>
              r == Err(CortexUtils.EnsureConfigurable(configurable, defaultModel).error)
    ensures CortexUtils.EnsureConfigurable(configurable, defaultModel).Ok? ==> r == Err(AttributeError("invoke"))
  {
    var configured :- CortexUtils.EnsureConfigurable(configurable, defaultModel);
    var convoStr := Truncate(tokenizer, BufferString(messages));
    r := Err(AttributeError("invoke"));
  }

  /** `load_memories(state, config)` as evidently intended, calling `search_memory`
      directly: the recall memories of the configured user for the truncated text of
      the conversation. */
  method LoadMemories(messages: seq<ChatMessage>, configurable: ODict<CortexUtils.ConfigValue>, defaultModel: string,
                      tokenizer: Tokenizer, indexQuery: IndexQuery)
    returns (r: Result<Option<seq<string>>>)
    requires Wf(configurable)
    ensures CortexUtils.EnsureConfigurable(configurable, defaultModel).Err? ==>
              r == Err(CortexUtils.EnsureConfigurable(configurable, defaultModel).error)
    ensures CortexUtils.EnsureConfigurable(configurable, defaultModel).Ok? ==>
              var userId := CortexUtils.AsText(configurable.vals["user_id"]);
              var query := Truncate(tokenizer, BufferString(messages));
              var q := indexQuery(query, RecallFilter(userId, RecallKind), DefaultTopK);
              && (q.Err? ==> r == Err(q.error))
              && (q.Ok? && |q.value| == 0 ==> r == Ok(None))
              && (q.Ok? && |q.value| > 0 ==> r == Brief(q.value))
  {
    var configured :- CortexUtils.EnsureConfigurable(configurable, defaultModel);
    var userId := CortexUtils.AsText(configured.vals["user_id"]);
    var convoStr := Truncate(tokenizer, BufferString(messages));
    r := SearchMemory(userId, convoStr, indexQuery);
  }
}
