/** The records passed between the steps of the reasoning pipeline
    (app/core/interface/reasoning_classes.py). */
module ReasoningClasses {

  /** A table row: a dict of column name to cell text, as its ordered entries.
      No constraint ties the keys of one row to those of another. */
  type Row = seq<(string, string)>

  type Table = seq<Row>

  /** What the retrievers returned for one subquery. */
  datatype SubQueryContext = SubQueryContext(
    subquery: string,
    graphQuery: string,
    vectorContext: string,
    knowledgeGraphContext: string)

  /** One composed step; `context` is the composer's output, kept as its text. */
  datatype ReasoningStep = ReasoningStep(query: string, properties: string, context: string)

  datatype ThinkingOutput = ThinkingOutput(reasoning: seq<ReasoningStep>, finalAnswer: string, table: Table)
}
