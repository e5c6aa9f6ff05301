/** The agent's table tool (app/cortex/tools.py): regenerates the current conversation's
    output table following the user's instruction and records the new table as a
    message of the conversation. The table-updating LLM call is a parameter. */
module Tools {
  import opened Wrappers
  import opened ODicts
  import opened Models
  import opened ReasoningClasses
  import opened Store
  import opened ChatMessages
  import CortexUtils
  import ConversationService

  /** The content of the message that carries an updated table. */
  const UpdatedTableContent := "**Updated table**"

  /** `TableOperator.update_table_data(input_text, current_table, instructions)`. */
  type TableUpdater = (Conversation, Table, string) -> Result<Table>

  /** The tool's arguments as its input schema reads them; a missing one fails validation. */
  function ToolArgs(args: seq<(string, string)>): (r: Result<(string, string)>)
    ensures r.Ok? <==> Arg(args, "input_text").Some? && Arg(args, "table_modification_instruction").Some?
    ensures r.Ok? ==> r.value == (Arg(args, "input_text").value, Arg(args, "table_modification_instruction").value)
  {
    match Arg(args, "input_text")
    case None => Err(ValidationError("input_text"))
    case Some(inputText) =>
      match Arg(args, "table_modification_instruction")
      case None => Err(ValidationError("table_modification_instruction"))
      case Some(instruction) => Ok((inputText, instruction))
  }

  /** What `table_operator` does once the thread and user ids are read: find the
      thread's conversation and ask for the updated table. It answers the
      conversation's position, the user id and the new message. As written, the
      conversation itself is handed to the updater as the input text and the
      `input_text` argument is not used; a thread with no stored conversation fails
      on `False.output_table`. */
  function UpdateIn(conversations: seq<Conversation>, instruction: string, threadId: string, userId: string,
                    updateTable: TableUpdater, stamp: Stamp): (r: Result<(nat, string, Message)>)
    ensures ParseObjectId(threadId).Err? ==> r == Err(ParseObjectId(threadId).error)
    ensures (ParseObjectId(threadId).Ok? && FindConversation(conversations, ParseObjectId(threadId).value).None?)
              ==> r == Err(AttributeError("output_table"))
    ensures r.Ok? ==>
              && ParseObjectId(threadId).Ok?
              && FindConversation(conversations, ParseObjectId(threadId).value) == Some(r.value.0)
              && r.value.1 == userId
              && r.value.2.table.Some?
              && updateTable(conversations[r.value.0], conversations[r.value.0].outputTable, instruction)
                   == Ok(r.value.2.table.value)
              && r.value.2 == Message(stamp.uuid, "cortex", InternalKnowledge, UpdatedTableContent, stamp.now,
                                      None, r.value.2.table)
  {
    var id :- ParseObjectId(threadId);
    match FindConversation(conversations, id)
    case None => Err(AttributeError("output_table"))
    case Some(i) =>
      var current := conversations[i];
      var table :- updateTable(current, current.outputTable, instruction);
      var message := NewMessage("cortex", "internal_knowledge", UpdatedTableContent, stamp, table := Some(table)).value;
      Ok((i, userId, message))
  }

  /** Everything `table_operator` does before it stores: validate the arguments, read
      the configuration (a missing thread or user id fails first), then `UpdateIn`. */
  function Prepare(conversations: seq<Conversation>, args: seq<(string, string)>,
                   configurable: ODict<CortexUtils.ConfigValue>, defaultModel: string,
                   updateTable: TableUpdater, stamp: Stamp): (r: Result<(nat, string, Message)>)
    requires Wf(configurable)
    ensures ToolArgs(args).Err? ==> r == Err(ToolArgs(args).error)
    ensures ToolArgs(args).Ok? && "thread_id" !in configurable.vals ==> r == Err(KeyError("thread_id"))
    ensures r.Ok? ==>
              && ToolArgs(args).Ok?
              && "thread_id" in configurable.vals && "user_id" in configurable.vals
              && r == UpdateIn(conversations, ToolArgs(args).value.1,
                               CortexUtils.AsText(configurable.vals["thread_id"]),
                               CortexUtils.AsText(configurable.vals["user_id"]), updateTable, stamp)
  {
    var toolArgs :- ToolArgs(args);
    var configured :- CortexUtils.EnsureConfigurable(configurable, defaultModel);
    UpdateIn(conversations, toolArgs.1, CortexUtils.AsText(configured.vals["thread_id"]),
             CortexUtils.AsText(configured.vals["user_id"]), updateTable, stamp)
  }

  /** What `table_operator` answers, and the conversations and next id it leaves:
      the prepared message stored in the thread's conversation. */
  function TableOperation(conversations: seq<Conversation>, nextId: ObjectId, args: seq<(string, string)>,
                          configurable: ODict<CortexUtils.ConfigValue>, defaultModel: string,
                          updateTable: TableUpdater, stamp: Stamp)
    : (r: (Result<Message>, seq<Conversation>, ObjectId))
    requires Wf(configurable)
  {
    match Prepare(conversations, args, configurable, defaultModel, updateTable, stamp)
    case Err(e) => (Err(e), conversations, nextId)
    case Ok(prepared) =>
      var stored := ConversationService.StoreOutcome(conversations, nextId, prepared.2, prepared.1,
                                                     Some(CortexUtils.AsText(configurable.vals["thread_id"])), stamp.now);
      (Ok(prepared.2), stored.1, stored.2)
  }

  /** A successful table operation appends the new message, which carries the updated
      table, to the thread's conversation and changes nothing else; the conversation's
      stored `output_table` stays the old one. */
  lemma TableOperationAppends(conversations: seq<Conversation>, nextId: ObjectId, args: seq<(string, string)>,
                              configurable: ODict<CortexUtils.ConfigValue>, defaultModel: string,
                              updateTable: TableUpdater, stamp: Stamp)
    requires Wf(configurable)
    requires TableOperation(conversations, nextId, args, configurable, defaultModel, updateTable, stamp).0.Ok?
    ensures var (r, cs, next) := TableOperation(conversations, nextId, args, configurable, defaultModel, updateTable, stamp);
            var i := Prepare(conversations, args, configurable, defaultModel, updateTable, stamp).value.0;
            && r.value.table.Some?
            && next == nextId && |cs| == |conversations| && 0 <= i < |cs|
            && cs[i].messages == conversations[i].messages + [r.value]
            && cs[i].outputTable == conversations[i].outputTable
            && cs[i].lastUpdated == stamp.now
            && forall j :: 0 <= j < |cs| && j != i ==> cs[j] == conversations[j]
  {
    var prepared := Prepare(conversations, args, configurable, defaultModel, updateTable, stamp).value;
    var threadId := CortexUtils.AsText(configurable.vals["thread_id"]);
    assert ParseObjectId(threadId).Ok?;
    assert ConversationService.Given(Some(threadId));
  }

  /** `table_operator(...)` invoked with the tool call's `args`: the new message is
      appended to the thread's conversation and returned. */
  method TableOperator(db: Db, args: seq<(string, string)>, configurable: ODict<CortexUtils.ConfigValue>,
                       defaultModel: string, updateTable: TableUpdater, stamp: Stamp)
    returns (r: Result<Message>)
    requires db.Valid() && Wf(configurable)
    modifies db
    ensures db.Valid()
    ensures db.memories == old(db.memories) && db.documents == old(db.documents)
    ensures (r, db.conversations, db.nextId)
              == TableOperation(old(db.conversations), old(db.nextId), args, configurable, defaultModel, updateTable, stamp)
  {
    var prepared :- Prepare(db.conversations, args, configurable, defaultModel, updateTable, stamp);
    var threadId := CortexUtils.AsText(configurable.vals["thread_id"]);
    var stored := ConversationService.StoreMessage(db, prepared.2, prepared.1, Some(threadId), stamp.now);
    r := Ok(prepared.2);
  }
}
