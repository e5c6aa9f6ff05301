/** The LangChain chat messages the agent and the memory observer pass around, and the
    two ways the core turns them into text. */
module ChatMessages {
  import opened Wrappers
  import Text
  import Seqs

  datatype Role = Human | Ai | System | Tool

  /** One requested tool call: its `name` (`None` when the key is absent) and its
      arguments as the ordered entries of the `args` dict. */
  datatype ToolCall = ToolCall(name: Option<string>, args: seq<(string, string)>)

  /** `args.get(key)` on the ordered entries of a dict. */
  function Arg(args: seq<(string, string)>, key: string): (r: Option<string>)
    ensures r.Some? <==> exists i :: 0 <= i < |args| && args[i].0 == key
    ensures r.Some? ==> exists i :: 0 <= i < |args| && args[i] == (key, r.value)
  {
    if |args| == 0 then None
    else if args[0].0 == key then Some(args[0].1)
    else Arg(args[1..], key)
  }

  /** A message; only AI messages carry a `tool_calls` attribute. */
  datatype ChatMessage = ChatMessage(role: Role, content: string, toolCalls: seq<ToolCall> := [])

  /** `hasattr(msg, "tool_calls") and msg.tool_calls`. */
  predicate HasToolCalls(m: ChatMessage)
  {
    m.role == Ai && |m.toolCalls| > 0
  }

  /** The speaker prefix `get_buffer_string` uses. */
  function Prefix(r: Role): string
  {
    match r
    case Human => "Human"
    case Ai => "AI"
    case System => "System"
    case Tool => "Tool"
  }

  /** `get_buffer_string(messages)`: one "Speaker: content" line per message. */
  function BufferString(messages: seq<ChatMessage>): string
  {
    Text.Join("\n", seq(|messages|, i requires 0 <= i < |messages| => Prefix(messages[i].role) + ": " + messages[i].content))
  }

  /** The tokenizer's encode and decode (tiktoken's encoding for the model). */
  datatype Tokenizer = Tokenizer(encode: string -> seq<int>, decode: seq<int> -> string)

  /** The token budget the observer and the memory loader keep of a conversation. */
  const TokenLimit: nat := 2048

  /** `tokenizer.decode(tokenizer.encode(s)[:2048])`. */
  function Truncate(t: Tokenizer, s: string): string
  {
    t.decode(Seqs.Take(t.encode(s), TokenLimit))
  }

  /** With a tokenizer that decodes what it encodes, text within the budget is kept as it is. */
  lemma TruncateShort(t: Tokenizer, s: string)
    requires t.decode(t.encode(s)) == s
    requires |t.encode(s)| <= TokenLimit
    ensures Truncate(t, s) == s
  {
    assert Seqs.Take(t.encode(s), TokenLimit) == t.encode(s);
  }
}
