/** ThinkingComposer (app/core/reasoner/composers/thinking_composer.py): the composed
    reasoning steps are written out as numbered text blocks, placed with the original
    query into the answer prompt, and one LLM call (a parameter) writes the final answer. */
module ThinkingComposer {
  import opened Wrappers
  import opened ReasoningClasses
  import Decimal
  import Text

  /** The text of step number `i` (numbering starts at 1). */
  function Block(i: nat, step: ReasoningStep): string
  {
    "Subquery order " + (Decimal.Show(i) + BlockTail(step))
  }

  /** The blocks of `steps`, numbered from `first`. */
  function Blocks(steps: seq<ReasoningStep>, first: nat): (blocks: seq<string>)
    ensures |blocks| == |steps|
    ensures forall i :: 0 <= i < |steps| ==> blocks[i] == Block(first + i, steps[i])
    decreases |steps|
  {
    if |steps| == 0 then []
    else Blocks(steps[..|steps| - 1], first) + [Block(first + |steps| - 1, steps[|steps| - 1])]
  }

  /** Numbering runs on across a concatenation. */
  lemma BlocksConcat(a: seq<ReasoningStep>, b: seq<ReasoningStep>, first: nat)
    ensures Blocks(a + b, first) == Blocks(a, first) + Blocks(b, first + |a|)
  {
  }

  /** What follows the number in a block. */
  function BlockTail(step: ReasoningStep): (t: string)
    ensures |t| > 0 && t[0] == ':'
  {
    ":\n" + "Subquery: " + step.query + "\n" + "Properties: " + step.properties + "\n" + "Context: " + step.context + "\n"
  }

  /** The number of a block can be read off its front: blocks with different numbers differ. */
  lemma BlockNumber(m: nat, n: nat, x: ReasoningStep, y: ReasoningStep)
    requires m != n
    ensures Block(m, x) != Block(n, y)
  {
    if Block(m, x) == Block(n, y) {
      var p := "Subquery order ";
      assert Block(m, x)[|p|..] == Decimal.Show(m) + BlockTail(x);
      assert Block(n, y)[|p|..] == Decimal.Show(n) + BlockTail(y);
      Decimal.ShowThenNonDigit(m, n, BlockTail(x), BlockTail(y));
    }
  }

  /** Blocks at different positions differ: each names its own number. */
  lemma BlocksNumbered(steps: seq<ReasoningStep>, i: nat, j: nat)
    requires i < j < |steps|
    ensures Blocks(steps, 1)[i] != Blocks(steps, 1)[j]
  {
    var x, y := Block(1 + i, steps[i]), Block(1 + j, steps[j]);
    assert x != y by {
      BlockNumber(1 + i, 1 + j, steps[i], steps[j]);
    }
  }

  /** `format_reasoning_steps(reasoning_steps)`. */
  method FormatReasoningSteps(reasoningSteps: seq<ReasoningStep>) returns (r: string)
    ensures r == Text.Join("\n", Blocks(reasoningSteps, 1))
  {
    var stepsStr: seq<string> := [];
    for i := 0 to |reasoningSteps|
      invariant stepsStr == Blocks(reasoningSteps[..i], 1)
    {
      assert reasoningSteps[..i + 1][..i] == reasoningSteps[..i];
      stepsStr := stepsStr + [Block(i + 1, reasoningSteps[i])];
    }
    assert reasoningSteps[..|reasoningSteps|] == reasoningSteps;
    r := Text.Join("\n", stepsStr);
  }

  /** The answer prompt around the original query. */
  const PromptHead: string :=
    "\n        You have been provided with an original query and a series of subquery contexts."
    + "\n        Each subquery includes a smaller query, some properties, and contextual information."
    + "\n\n        Original Query:\n        "

  /** The answer prompt between the original query and the formatted steps. */
  const PromptMiddle: string := "\n\n        Subquery Contexts:\n        "

  /** The answer prompt after the formatted steps. */
  const PromptTail: string :=
    "\n\n        Instructions:"
    + "\n        1. Think and plan about the original query and the subqueries."
    + "\n        2. Combine and synthesize the insights from each subquery."
    + "\n        3. Draft a conclusive answer that addresses the \"Original Query\" thoroughly."
    + "\n        4. Be detailed, accurate, and informative in your response."
    + "\n        5. Return a properly formatted markdown string as your final answer."
    + "\n\n        Do not include any extra text or markdown;"
    + "\n        Final Answer:\n        "

  /** The prompt template filled with the original query and the formatted steps. */
  function ThinkingPrompt(originalQuery: string, formattedSteps: string): string
  {
    PromptHead + originalQuery + PromptMiddle + formattedSteps + PromptTail
  }

  /** Both fields can be read back from the filled prompt at fixed offsets. */
  lemma ThinkingPromptFields(originalQuery: string, formattedSteps: string)
    ensures var prompt := ThinkingPrompt(originalQuery, formattedSteps);
            var q := |PromptHead|;
            var f := q + |originalQuery| + |PromptMiddle|;
            |prompt| == f + |formattedSteps| + |PromptTail|
            && prompt[q..q + |originalQuery|] == originalQuery
            && prompt[f..f + |formattedSteps|] == formattedSteps
  {
    FieldsAt(PromptHead, originalQuery, PromptMiddle, formattedSteps, PromptTail);
  }

  /** The two fields of a text built as head, field, middle, field, tail. */
  lemma FieldsAt(head: string, x: string, middle: string, y: string, tail: string)
    ensures var t := head + x + middle + y + tail;
            var f := |head| + |x| + |middle|;
            |t| == f + |y| + |tail|
            && t[|head|..|head| + |x|] == x
            && t[f..f + |y|] == y
  {
    var a := head + x;
    var b := a + middle + y;
    var t := b + tail;
    var f := |head| + |x| + |middle|;
    assert t[..|b|] == b;
    assert b[..|a|] == a;
    assert t[|head|..|head| + |x|] == a[|head|..];
    assert t[f..f + |y|] == b[f..];
  }

  /** `generate_thinking_context(original_query, reasoning_steps)`. */
  method GenerateThinkingContext(originalQuery: string, reasoningSteps: seq<ReasoningStep>) returns (r: string)
    ensures r == ThinkingPrompt(originalQuery, Text.Join("\n", Blocks(reasoningSteps, 1)))
  {
    var formattedSteps := FormatReasoningSteps(reasoningSteps);
    r := ThinkingPrompt(originalQuery, formattedSteps);
  }

  /** `think(original_query, reasoning_steps)`: the content of the reply `llm` gives to
      the filled prompt. */
  method Think(originalQuery: string, reasoningSteps: seq<ReasoningStep>, llm: string -> Result<string>)
    returns (r: Result<string>)
    ensures r == llm(ThinkingPrompt(originalQuery, Text.Join("\n", Blocks(reasoningSteps, 1))))
  {
    var context := GenerateThinkingContext(originalQuery, reasoningSteps);
    r := llm(context);
  }
}
