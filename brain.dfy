/** The agent graph (app/cortex/brain.py): a `decide` node in which the LLM, shown a
    short window of the conversation, either answers or asks for one of two tools,
    then a `call_tool` node that runs the requested tool or stores the direct answer.
    The node functions update the graph state in place; the LLM, the reasoning
    collaborators and the table-updating call are parameters. */
module Brain {
  import opened Wrappers
  import opened ODicts
  import opened Models
  import opened ReasoningClasses
  import opened Store
  import opened ChatMessages
  import CortexUtils
  import ConversationService
  import ReasoningEngine
  import Tools
  import PyRepr
  import Seqs

  /** The names under which the two tools are offered to the LLM. */
  const KnowledgeSearchTool := "KnowledgeSearch"
  const TableOperatorTool := "TableOperator"

  /** Everything the agent calls out to: the tool-bound decision LLM, the reasoning
      engine's collaborators, the table derivation of the answer, the table-updating
      LLM and the settings' default model name. */
  datatype Deps = Deps(
    decide: seq<ChatMessage> -> Result<ChatMessage>,
    llms: ReasoningEngine.Llms,
    open: string -> ReasoningEngine.Retrievers,
    tableOf: string -> Result<Table>,
    updateTable: Tools.TableUpdater,
    defaultModel: string)

  /** The graph state's `messages` and `output` (the other keys are not read by the nodes). */
  class AgentState {
    var messages: seq<ChatMessage>
    var output: Option<Message>

    constructor (messages: seq<ChatMessage>)
      ensures this.messages == messages && output == None
    {
      this.messages := messages;
      output := None;
    }
  }

  function Last<T>(xs: seq<T>): T
    requires |xs| > 0
  {
    xs[|xs| - 1]
  }

  /** The history `decide_route` shows the LLM: the first four messages followed by the
      newest one. The newest message is always last; with five or more messages the
      window has exactly five, and with four or fewer the newest one appears twice. */
  function Window(messages: seq<ChatMessage>): (w: seq<ChatMessage>)
    requires |messages| > 0
    ensures |w| > 0 && Last(w) == Last(messages)
    ensures |messages| >= 5 ==> |w| == 5 && w[..4] == messages[..4]
    ensures |messages| <= 4 ==> w == messages + [Last(messages)]
  {
    var head := if |messages| <= 4 then messages else messages[..4];
    head + [Last(messages)]
  }

  /** A history of exactly five messages is its own window. */
  lemma WindowOfFive(messages: seq<ChatMessage>)
    requires |messages| == 5
    ensures Window(messages) == messages
  {
    assert messages == messages[..4] + [Last(messages)];
  }

  /** What `decide_route` leaves: its outcome and the state's new messages. It reads
      `thread_id` from the configuration first; an empty history has no newest message.
      The history is cut to its window before the LLM is asked, so a failing LLM call
      still leaves the window behind; its answer is appended to the window. */
  function Decide(messages: seq<ChatMessage>, configurable: ODict<CortexUtils.ConfigValue>,
                  decide: seq<ChatMessage> -> Result<ChatMessage>)
    : (r: (Result<()>, seq<ChatMessage>))
    ensures "thread_id" !in configurable.vals ==> r == (Err(KeyError("thread_id")), messages)
    ensures "thread_id" in configurable.vals && |messages| == 0 ==> r == (Err(IndexError), messages)
    ensures "thread_id" in configurable.vals && |messages| > 0 ==>
              match decide(Window(messages))
              case Err(e) => r == (Err(e), Window(messages))
              case Ok(decision) => r == (Ok(()), Window(messages) + [decision])
  {
    if "thread_id" !in configurable.vals then (Err(KeyError("thread_id")), messages)
    else if |messages| == 0 then (Err(IndexError), messages)
    else
      var window := Window(messages);
      match decide(window)
      case Err(e) => (Err(e), window)
      case Ok(decision) => (Ok(()), window + [decision])
  }

  /** `decide_route(state, config)`. */
  method DecideRoute(state: AgentState, configurable: ODict<CortexUtils.ConfigValue>,
                     decide: seq<ChatMessage> -> Result<ChatMessage>)
    returns (r: Result<()>)
    modifies state
    ensures (r, state.messages) == Decide(old(state.messages), configurable, decide)
    ensures state.output == old(state.output)
  {
    if "thread_id" !in configurable.vals {
      return Err(KeyError("thread_id"));
    }
    if |state.messages| == 0 {
      return Err(IndexError);
    }
    var msg := state.messages[|state.messages| - 1];
    state.messages := if |state.messages| <= 4 then state.messages else state.messages[..4];
    state.messages := state.messages + [msg];
    var decision :- decide(state.messages);
    state.messages := state.messages + [decision];
    r := Ok(());
  }

  /** `format_thought_output(thought)`: "Answer: " and the message's content, then the
      table after a "Table:" line when the message carries a non-empty one. */
  function FormatThoughtOutput(thought: Message): (r: string)
    ensures |r| >= 8 + |thought.content|
    ensures r[..8] == "Answer: " && r[8..8 + |thought.content|] == thought.content
    ensures |r| > 8 + |thought.content| <==> thought.table.Some? && |thought.table.value| > 0
    ensures thought.table.Some? && |thought.table.value| > 0 ==>
              r[8 + |thought.content|..] == "\nTable:\n" + PyRepr.DictList(thought.table.value)
  {
    var formatted := "Answer: " + thought.content;
    assert formatted[..8] == "Answer: " && formatted[8..] == thought.content;
    if thought.table.Some? && |thought.table.value| > 0 then
      var table := "\nTable:\n" + PyRepr.DictList(thought.table.value);
      assert (formatted + table)[..|formatted|] == formatted && (formatted + table)[|formatted|..] == table;
      formatted + table
    else formatted
  }

  /** `remove_empty_messages(messages)`: the messages with content, in order. */
  function RemoveEmptyMessages(messages: seq<ChatMessage>): (r: seq<ChatMessage>)
    ensures forall m :: m in r <==> m in messages && m.content != ""
  {
    Seqs.Filter(messages, (m: ChatMessage) => m.content != "")
  }

  /** The message `internal_knowledge_search` builds for a question asked by `userId`:
      the reasoning engine's steps and final answer, and the table derived from it. */
  function Thought(query: string, userId: string, deps: Deps, stamp: Stamp): (r: Result<Message>)
    ensures ReasoningEngine.Reasoning(userId, query, deps.llms, deps.open).Err? ==>
              r == Err(ReasoningEngine.Reasoning(userId, query, deps.llms, deps.open).error)
    ensures r.Ok? ==>
              var (steps, finalAnswer) := ReasoningEngine.Reasoning(userId, query, deps.llms, deps.open).value;
              && ReasoningEngine.Reasoning(userId, query, deps.llms, deps.open).Ok?
              && r.value.table.Some? && deps.tableOf(finalAnswer) == Ok(r.value.table.value)
              && r.value == Message(stamp.uuid, "cortex", InternalKnowledge, finalAnswer, stamp.now,
                                    Some(steps), r.value.table)
  {
    var reasoned :- ReasoningEngine.Reasoning(userId, query, deps.llms, deps.open);
    var table :- deps.tableOf(reasoned.1);
    Ok(NewMessage("cortex", "internal_knowledge", reasoned.1, stamp, Some(reasoned.0), Some(table)).value)
  }

  /** What `internal_knowledge_search` answers, and the conversations and next id it
      leaves: the configuration is completed, the user's question is reasoned over and
      the resulting message is stored in the thread's conversation. */
  function KnowledgeSearch(conversations: seq<Conversation>, nextId: ObjectId, query: string,
                           configurable: ODict<CortexUtils.ConfigValue>, deps: Deps, stamp: Stamp)
    : (r: (Result<Message>, seq<Conversation>, ObjectId))
    requires Wf(configurable)
  {
    match CortexUtils.EnsureConfigurable(configurable, deps.defaultModel)
    case Err(e) => (Err(e), conversations, nextId)
    case Ok(configured) =>
      var userId := CortexUtils.AsText(configured.vals["user_id"]);
      match Thought(query, userId, deps, stamp)
      case Err(e) => (Err(e), conversations, nextId)
      case Ok(message) =>
        var stored := ConversationService.StoreOutcome(conversations, nextId, message, userId,
                                                       Some(CortexUtils.AsText(configured.vals["thread_id"])), stamp.now);
        (if stored.0.Err? then Err(stored.0.error) else Ok(message), stored.1, stored.2)
  }

  /** A successful knowledge search on a named thread has appended its message to the
      thread's existing conversation, and changed nothing else. */
  lemma KnowledgeSearchAppends(conversations: seq<Conversation>, nextId: ObjectId, query: string,
                               configurable: ODict<CortexUtils.ConfigValue>, deps: Deps, stamp: Stamp)
    requires Wf(configurable)
    requires "thread_id" in configurable.vals && CortexUtils.AsText(configurable.vals["thread_id"]) != ""
    requires KnowledgeSearch(conversations, nextId, query, configurable, deps, stamp).0.Ok?
    ensures var (r, cs, next) := KnowledgeSearch(conversations, nextId, query, configurable, deps, stamp);
            && next == nextId && |cs| == |conversations|
            && exists i :: 0 <= i < |cs|
                 && cs[i].messages == conversations[i].messages + [r.value]
                 && (forall j :: 0 <= j < |cs| && j != i ==> cs[j] == conversations[j])
  {
    var configured := CortexUtils.EnsureConfigurable(configurable, deps.defaultModel).value;
    var userId := CortexUtils.AsText(configured.vals["user_id"]);
    var threadId := CortexUtils.AsText(configured.vals["thread_id"]);
    assert threadId == CortexUtils.AsText(configurable.vals["thread_id"]);
    var message := Thought(query, userId, deps, stamp).value;
    ConversationService.StoredAppends(conversations, nextId, message, userId, threadId, stamp.now);
  }

  /** `internal_knowledge_search(query)`, with the run's configuration. */
  method InternalKnowledgeSearch(db: Db, query: string, configurable: ODict<CortexUtils.ConfigValue>,
                                 deps: Deps, stamp: Stamp)
    returns (r: Result<Message>)
    requires db.Valid() && Wf(configurable)
    modifies db
    ensures db.Valid()
    ensures db.memories == old(db.memories) && db.documents == old(db.documents)
    ensures (r, db.conversations, db.nextId)
              == KnowledgeSearch(old(db.conversations), old(db.nextId), query, configurable, deps, stamp)
  {
    var configured :- CortexUtils.EnsureConfigurable(configurable, deps.defaultModel);
    var userId := CortexUtils.AsText(configured.vals["user_id"]);
    var response :- ReasoningEngine.StartReasoning(userId, query, deps.llms, deps.open, deps.tableOf);
    var message := NewMessage("cortex", "internal_knowledge", response.finalAnswer, stamp,
                              Some(response.reasoning), Some(response.table)).value;
    var stored := ConversationService.StoreMessage(db, message, userId,
                                                   Some(CortexUtils.AsText(configured.vals["thread_id"])), stamp.now);
    if stored.Err? {
      return Err(stored.error);
    }
    r := Ok(message);
  }

  /** The message stored when the LLM answers directly. */
  function Reply(content: string, stamp: Stamp): (m: Message)
    ensures NewMessage("cortex", "from_conversation", content, stamp) == Ok(m)
  {
    NewMessage("cortex", "from_conversation", content, stamp).value
  }

  /** The outcome of the tool a call names, and the conversations and next id it
      leaves. Only the two offered tools run; any other name (or none) leaves
      `tool_output` unbound. The knowledge search is asked the call's arguments as
      the dict's text. */
  function ToolOutcome(conversations: seq<Conversation>, nextId: ObjectId, call: ToolCall,
                       configurable: ODict<CortexUtils.ConfigValue>, deps: Deps, stamp: Stamp)
    : (r: (Result<Message>, seq<Conversation>, ObjectId))
    requires Wf(configurable)
    ensures call.name != Some(KnowledgeSearchTool) && call.name != Some(TableOperatorTool) ==>
              r == (Err(UnboundLocalError("tool_output")), conversations, nextId)
  {
    if call.name == Some(KnowledgeSearchTool) then
      KnowledgeSearch(conversations, nextId, PyRepr.Dict(call.args), configurable, deps, stamp)
    else if call.name == Some(TableOperatorTool) then
      Tools.TableOperation(conversations, nextId, call.args, configurable, deps.defaultModel, deps.updateTable, stamp)
    else (Err(UnboundLocalError("tool_output")), conversations, nextId)
  }

  /** What storing a direct answer gives, and the conversations and next id it leaves;
      the user id is read before the thread id. */
  function ReplyOutcome(conversations: seq<Conversation>, nextId: ObjectId, content: string,
                        configurable: ODict<CortexUtils.ConfigValue>, stamp: Stamp)
    : (r: (Result<Message>, seq<Conversation>, ObjectId))
    ensures "user_id" !in configurable.vals ==> r == (Err(KeyError("user_id")), conversations, nextId)
    ensures "user_id" in configurable.vals && "thread_id" !in configurable.vals ==>
              r == (Err(KeyError("thread_id")), conversations, nextId)
    ensures r.0.Ok? ==> r.0.value == Reply(content, stamp)
  {
    if "user_id" !in configurable.vals then (Err(KeyError("user_id")), conversations, nextId)
    else if "thread_id" !in configurable.vals then (Err(KeyError("thread_id")), conversations, nextId)
    else
      var message := Reply(content, stamp);
      var stored := ConversationService.StoreOutcome(conversations, nextId, message,
                                                     CortexUtils.AsText(configurable.vals["user_id"]),
                                                     Some(CortexUtils.AsText(configurable.vals["thread_id"])), stamp.now);
      (if stored.0.Err? then Err(stored.0.error) else Ok(message), stored.1, stored.2)
  }

  /** The tool dispatch of `route_tools`: the named tool runs on the call's arguments;
      an unknown name leaves `tool_output` unbound. */
  method CallTool(db: Db, call: ToolCall, configurable: ODict<CortexUtils.ConfigValue>, deps: Deps, stamp: Stamp)
    returns (r: Result<Message>)
    requires db.Valid() && Wf(configurable)
    modifies db
    ensures db.Valid()
    ensures db.memories == old(db.memories) && db.documents == old(db.documents)
    ensures (r, db.conversations, db.nextId) == ToolOutcome(old(db.conversations), old(db.nextId), call, configurable, deps, stamp)
  {
    if call.name == Some(KnowledgeSearchTool) {
      r := InternalKnowledgeSearch(db, PyRepr.Dict(call.args), configurable, deps, stamp);
    } else if call.name == Some(TableOperatorTool) {
      r := Tools.TableOperator(db, call.args, configurable, deps.defaultModel, deps.updateTable, stamp);
    } else {
      r := Err(UnboundLocalError("tool_output"));
    }
  }

  /** `route_tools(state, config)`: with a tool call on the newest message, that message
      is dropped, the first call's tool runs, and its output is appended as an AI
      message and becomes the state's output; otherwise the newest message's content is
      stored as the answer and becomes the output. */
  method RouteTools(state: AgentState, db: Db, configurable: ODict<CortexUtils.ConfigValue>,
                    deps: Deps, stamp: Stamp)
    returns (r: Result<()>)
    requires db.Valid() && Wf(configurable)
    modifies state, db
    ensures db.Valid()
    ensures db.memories == old(db.memories) && db.documents == old(db.documents)
    ensures |old(state.messages)| == 0 ==>
              r == Err(IndexError) && unchanged(state) && unchanged(db)
    ensures |old(state.messages)| > 0 && HasToolCalls(Last(old(state.messages))) ==>
              var rest := old(state.messages)[..|old(state.messages)| - 1];
              var o := ToolOutcome(old(db.conversations), old(db.nextId), Last(old(state.messages)).toolCalls[0],
                                   configurable, deps, stamp);
              && db.conversations == o.1 && db.nextId == o.2
              && (o.0.Err? ==> r == Err(o.0.error) && state.messages == rest && state.output == old(state.output))
              && (o.0.Ok? ==> (r == Ok(())
                                && state.messages == rest + [ChatMessage(Ai, FormatThoughtOutput(o.0.value))]
                                && state.output == Some(o.0.value)))
    ensures |old(state.messages)| > 0 && !HasToolCalls(Last(old(state.messages))) ==>
              var o := ReplyOutcome(old(db.conversations), old(db.nextId), Last(old(state.messages)).content,
                                    configurable, stamp);
              && db.conversations == o.1 && db.nextId == o.2 && state.messages == old(state.messages)
              && (o.0.Err? ==> r == Err(o.0.error) && state.output == old(state.output))
              && (o.0.Ok? ==> r == Ok(()) && state.output == Some(o.0.value))
  {
    if |state.messages| == 0 {
      return Err(IndexError);
    }
    var msg := state.messages[|state.messages| - 1];
    if HasToolCalls(msg) {
      state.messages := state.messages[..|state.messages| - 1];
      var toolOutput :- CallTool(db, msg.toolCalls[0], configurable, deps, stamp);
      state.messages := state.messages + [ChatMessage(Ai, FormatThoughtOutput(toolOutput))];
      state.output := Some(toolOutput);
    } else {
      ghost var o := ReplyOutcome(db.conversations, db.nextId, msg.content, configurable, stamp);
      var message := Reply(msg.content, stamp);
      if "user_id" !in configurable.vals {
        return Err(KeyError("user_id"));
      }
      if "thread_id" !in configurable.vals {
        return Err(KeyError("thread_id"));
      }
      var stored := ConversationService.StoreMessage(db, message, CortexUtils.AsText(configurable.vals["user_id"]),
                                                     Some(CortexUtils.AsText(configurable.vals["thread_id"])), stamp.now);
      assert (if stored.Err? then Err(stored.error) else Ok(message), db.conversations, db.nextId) == o;
      if stored.Err? {
        return Err(stored.error);
      }
      state.output := Some(message);
    }
    r := Ok(());
  }

  /** The thread the checkpointer holds after a run whose nodes left `final`, as the
      `add_messages` reducer builds it from the thread before the run. `decide` returns
      the window (messages the thread already holds) and the decision, so the decision
      is appended. `call_tool` pops the decision from the very list the graph holds and,
      on a tool call, appends the tool's answer in its place. Either way the thread
      gains one message, the last one the nodes left. */
  function Checkpointed(thread: seq<ChatMessage>, final: seq<ChatMessage>): (r: seq<ChatMessage>)
    ensures |final| > 0 ==> |r| == |thread| + 1 && r[..|thread|] == thread && Last(r) == Last(final)
    ensures |final| == 0 ==> r == thread
  {
    if |final| == 0 then thread else thread + [Last(final)]
  }

  /** One run of the compiled graph: `decide`, then `call_tool` on what it left. */
  method Run(state: AgentState, db: Db, configurable: ODict<CortexUtils.ConfigValue>, deps: Deps, stamp: Stamp)
    returns (r: Result<()>)
    requires db.Valid() && Wf(configurable)
    modifies state, db
    ensures db.Valid()
    ensures db.memories == old(db.memories) && db.documents == old(db.documents)
    ensures Decide(old(state.messages), configurable, deps.decide).0.Err? ==>
              && r == Decide(old(state.messages), configurable, deps.decide).0
              && state.messages == Decide(old(state.messages), configurable, deps.decide).1
              && state.output == old(state.output) && unchanged(db)
    ensures Decide(old(state.messages), configurable, deps.decide).0.Ok? ==>
              var decided := Decide(old(state.messages), configurable, deps.decide).1;
              var decision := Last(decided);
              && decision == deps.decide(Window(old(state.messages))).value
              && (HasToolCalls(decision) ==>
                    var o := ToolOutcome(old(db.conversations), old(db.nextId), decision.toolCalls[0],
                                         configurable, deps, stamp);
                    && db.conversations == o.1 && db.nextId == o.2
                    && (o.0.Err? ==> r == Err(o.0.error) && state.messages == Window(old(state.messages))
                                     && state.output == old(state.output))
                    && (o.0.Ok? ==> r == Ok(())
                                    && state.messages == Window(old(state.messages))
                                                         + [ChatMessage(Ai, FormatThoughtOutput(o.0.value))]
                                    && state.output == Some(o.0.value)))
              && (!HasToolCalls(decision) ==>
                    var o := ReplyOutcome(old(db.conversations), old(db.nextId), decision.content, configurable, stamp);
                    && db.conversations == o.1 && db.nextId == o.2 && state.messages == decided
                    && (o.0.Err? ==> r == Err(o.0.error) && state.output == old(state.output))
                    && (o.0.Ok? ==> r == Ok(()) && state.output == Some(o.0.value)))
  {
    r := DecideRoute(state, configurable, deps.decide);
    if r.Err? {
      return;
    }
    assert state.messages[..|state.messages| - 1] == Window(old(state.messages));
    r := RouteTools(state, db, configurable, deps, stamp);
  }
}
