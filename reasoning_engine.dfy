/** ReasoningEngine (app/core/reasoner/resoning_engine.py): answers a question over the
    indexes of one user. The question is decomposed into sub-queries with graph hints;
    each sub-query is sent to the vector retriever and its hint to the knowledge-graph
    retriever, both on the index named after the user; a composer LLM turns each pair
    of contexts into a reasoning step; the thinking composer writes the final answer
    from the steps; and a table is derived from the answer. */
module ReasoningEngine {
  import opened Wrappers
  import opened Docs
  import opened ReasoningClasses
  import QueryEngine
  import VectorRetriever
  import KnowledgeGraphRetriever
  import KnowledgeGraphIndexer
  import ThinkingComposer
  import Text

  /** The two retrievers opened on one index name: the vector store's similarity search
      and parent docstore, and the stored property-graph index (`None` when absent) with
      its search. */
  datatype Retrievers = Retrievers(
    vectorSearch: (string, nat) -> Result<seq<(LcDoc, real)>>,
    docstore: map<string, LcDoc>,
    graph: Option<KnowledgeGraphIndexer.GraphIndex>,
    graphSearch: (KnowledgeGraphIndexer.GraphIndex, string) -> Result<seq<SourceNode>>)

  /** The LLM-backed collaborators: decomposition into sub-queries, the graph-hint
      chain, the per-step context composer and the final-answer call. */
  datatype Llms = Llms(
    decompose: string -> Result<seq<string>>,
    graphHint: string -> Result<string>,
    composeContext: SubQueryContext -> Result<string>,
    answer: string -> Result<string>)

  /** The retrieved contexts of one sub-query. */
  function ContextOf(sq: QueryEngine.SubQueryResult, rs: Retrievers): Result<SubQueryContext>
  {
    match VectorRetriever.Retrieval(sq.subQuery, rs.vectorSearch, rs.docstore, VectorRetriever.DefaultMaxResults)
    case Err(e) => Err(e)
    case Ok(vectorResults) =>
      match KnowledgeGraphRetriever.Retrieval(rs.graph, sq.graphQuery, rs.graphSearch, KnowledgeGraphRetriever.DefaultMaxResults)
      case Err(e) => Err(e)
      case Ok(kgResults) => Ok(SubQueryContext(sq.subQuery, sq.graphQuery, vectorResults, kgResults))
  }

  /** The retrieval of one sub-query on `rs`, as a function value. */
  function RetrieverOf(rs: Retrievers): QueryEngine.SubQueryResult -> Result<SubQueryContext>
  {
    sq => ContextOf(sq, rs)
  }

  /** What the loop of `send_subqueries_to_retrievers` produces. */
  function Contexts(subqueries: seq<QueryEngine.SubQueryResult>, rs: Retrievers): Result<seq<SubQueryContext>>
  {
    MapAll(subqueries, RetrieverOf(rs))
  }

  /** A successful retrieval holds one context per sub-query, in order, each the
      sub-query's own retrieval. */
  lemma ContextsOk(subqueries: seq<QueryEngine.SubQueryResult>, rs: Retrievers)
    requires Contexts(subqueries, rs).Ok?
    ensures |Contexts(subqueries, rs).value| == |subqueries|
    ensures forall i :: 0 <= i < |subqueries| ==> ContextOf(subqueries[i], rs) == Ok(Contexts(subqueries, rs).value[i])
  {
    var f := RetrieverOf(rs);
    MapAllOk(subqueries, f);
    assert forall i :: 0 <= i < |subqueries| ==> f(subqueries[i]) == Ok(MapAll(subqueries, f).value[i]);
  }

  /** A failed retrieval fails with the error of the first sub-query whose retrieval failed. */
  lemma ContextsError(subqueries: seq<QueryEngine.SubQueryResult>, rs: Retrievers) returns (i: nat)
    requires Contexts(subqueries, rs).Err?
    ensures i < |subqueries| && ContextOf(subqueries[i], rs) == Err(Contexts(subqueries, rs).error)
    ensures forall j :: 0 <= j < i ==> ContextOf(subqueries[j], rs).Ok?
  {
    i := MapAllFirstError(subqueries, RetrieverOf(rs));
  }

  /** `send_subqueries_to_retrievers(subqueries, index_name)`, `rs` being the retrievers
      opened on `index_name`. */
  method SendSubqueriesToRetrievers(subqueries: seq<QueryEngine.SubQueryResult>, rs: Retrievers)
    returns (r: Result<seq<SubQueryContext>>)
    ensures r == Contexts(subqueries, rs)
  {
    var results: seq<SubQueryContext> := [];
    for i := 0 to |subqueries|
      invariant Contexts(subqueries[..i], rs) == Ok(results)
    {
      var context := RetrieveContext(subqueries[i], rs);
      MapAllStep(subqueries, RetrieverOf(rs), i, results, context);
      if context.Err? {
        return Err(context.error);
      }
      results := results + [context.value];
    }
    assert subqueries[..|subqueries|] == subqueries;
    r := Ok(results);
  }

  /** The body of the loop of `send_subqueries_to_retrievers`: the sub-query goes to the
      vector retriever, then its graph hint to the knowledge-graph retriever. */
  method RetrieveContext(subquery: QueryEngine.SubQueryResult, rs: Retrievers) returns (r: Result<SubQueryContext>)
    ensures r == RetrieverOf(rs)(subquery)
  {
    var vectorResults :- VectorRetriever.Retrieve(subquery.subQuery, rs.vectorSearch, rs.docstore);
    var kgResults :- KnowledgeGraphRetriever.Retrieve(rs.graph, subquery.graphQuery, rs.graphSearch);
    r := Ok(SubQueryContext(subquery.subQuery, subquery.graphQuery, vectorResults, kgResults));
  }

  /** Once a prefix fails, the whole list fails with the same error. */
  lemma ContextsPrefix(subqueries: seq<QueryEngine.SubQueryResult>, rs: Retrievers, n: nat)
    requires n <= |subqueries| && Contexts(subqueries[..n], rs).Err?
    ensures Contexts(subqueries, rs) == Contexts(subqueries[..n], rs)
  {
    MapAllPrefix(subqueries, RetrieverOf(rs), n);
  }

  /** What the loop of `compose_subqueries` produces: one step per context, carrying the
      sub-query, its graph hint and the composed context. */
  function Steps(contexts: seq<SubQueryContext>, composeContext: SubQueryContext -> Result<string>)
    : (r: Result<seq<ReasoningStep>>)
    ensures r.Ok? ==> |r.value| == |contexts|
    ensures r.Ok? ==> forall i :: 0 <= i < |contexts| ==>
              r.value[i].query == contexts[i].subquery && r.value[i].properties == contexts[i].graphQuery
              && composeContext(contexts[i]) == Ok(r.value[i].context)
    ensures r.Err? ==> exists i :: 0 <= i < |contexts| && composeContext(contexts[i]) == Err(r.error)
    decreases |contexts|
  {
    if |contexts| == 0 then Ok([])
    else
      var last := contexts[|contexts| - 1];
      match Steps(contexts[..|contexts| - 1], composeContext)
      case Err(e) => Err(e)
      case Ok(rest) =>
        match composeContext(last)
        case Err(e) => Err(e)
        case Ok(context) => Ok(rest + [ReasoningStep(last.subquery, last.graphQuery, context)])
  }

  /** Once a prefix fails, the whole list fails with the same error. */
  lemma {:induction false} StepsPrefix(contexts: seq<SubQueryContext>, composeContext: SubQueryContext -> Result<string>, n: nat)
    requires n <= |contexts| && Steps(contexts[..n], composeContext).Err?
    ensures Steps(contexts, composeContext) == Steps(contexts[..n], composeContext)
    decreases |contexts|
  {
    if n < |contexts| {
      var init := contexts[..|contexts| - 1];
      assert init[..n] == contexts[..n];
      StepsPrefix(init, composeContext, n);
    } else {
      assert contexts[..n] == contexts;
    }
  }

  /** `compose_subqueries(subqueries)`. */
  method ComposeSubqueries(subqueries: seq<SubQueryContext>, composeContext: SubQueryContext -> Result<string>)
    returns (r: Result<seq<ReasoningStep>>)
    ensures r == Steps(subqueries, composeContext)
  {
    var reasoningSteps: seq<ReasoningStep> := [];
    for i := 0 to |subqueries|
      invariant Steps(subqueries[..i], composeContext) == Ok(reasoningSteps)
    {
      assert subqueries[..i + 1][..i] == subqueries[..i];
      var subquery := subqueries[i];
      var context := composeContext(subquery);
      if context.Err? {
        StepsPrefix(subqueries, composeContext, i + 1);
        return Err(context.error);
      }
      reasoningSteps := reasoningSteps + [ReasoningStep(subquery.subquery, subquery.graphQuery, context.value)];
    }
    assert subqueries[..|subqueries|] == subqueries;
    r := Ok(reasoningSteps);
  }

  /** The prompt-to-answer part of `compose_answer`: the thinking composer's reply. */
  function Answer(query: string, steps: seq<ReasoningStep>, answer: string -> Result<string>): Result<string>
  {
    answer(ThinkingComposer.ThinkingPrompt(query, Text.Join("\n", ThinkingComposer.Blocks(steps, 1))))
  }

  /** Everything `start_reasoning` computes before the table: the reasoning steps and the
      final answer, for the question `query` of `username`, on the index `username`. */
  function Reasoning(username: string, query: string, llms: Llms, open: string -> Retrievers)
    : Result<(seq<ReasoningStep>, string)>
  {
    match llms.decompose(query)
    case Err(e) => Err(e)
    case Ok(subqueries) =>
      match QueryEngine.SubQueryResults(subqueries, llms.graphHint)
      case Err(e) => Err(e)
      case Ok(results) =>
        match Contexts(results, open(username))
        case Err(e) => Err(e)
        case Ok(contexts) =>
          match Steps(contexts, llms.composeContext)
          case Err(e) => Err(e)
          case Ok(steps) =>
            match Answer(query, steps, llms.answer)
            case Err(e) => Err(e)
            case Ok(finalAnswer) => Ok((steps, finalAnswer))
  }

  /** A successful reasoning has one step per sub-query the decomposition gave, in order:
      step `i` asks sub-query `i`, carries its graph hint, and its context is what the
      composer made of what the two retrievers found for it on the user's index. */
  lemma StepsFollowSubqueries(username: string, query: string, llms: Llms, open: string -> Retrievers)
    requires Reasoning(username, query, llms, open).Ok?
    ensures llms.decompose(query).Ok?
    ensures var subqueries := llms.decompose(query).value;
            var steps := Reasoning(username, query, llms, open).value.0;
            |steps| == |subqueries|
            && forall i :: 0 <= i < |subqueries| ==>
                 steps[i].query == subqueries[i]
                 && llms.graphHint(subqueries[i]) == Ok(steps[i].properties)
                 && (exists c :: ContextOf(QueryEngine.SubQueryResult(subqueries[i], steps[i].properties), open(username)) == Ok(c)
                                 && llms.composeContext(c) == Ok(steps[i].context))
  {
    var rs := open(username);
    assert llms.decompose(query).Ok?;
    var subqueries := llms.decompose(query).value;
    assert QueryEngine.SubQueryResults(subqueries, llms.graphHint).Ok?;
    var results := QueryEngine.SubQueryResults(subqueries, llms.graphHint).value;
    assert Contexts(results, rs).Ok?;
    var contexts := Contexts(results, rs).value;
    ContextsOk(results, rs);
    assert Steps(contexts, llms.composeContext).Ok?;
    var steps := Steps(contexts, llms.composeContext).value;
    assert Reasoning(username, query, llms, open).value.0 == steps;
    forall i | 0 <= i < |subqueries|
      ensures steps[i].query == subqueries[i]
      ensures llms.graphHint(subqueries[i]) == Ok(steps[i].properties)
      ensures exists c :: ContextOf(QueryEngine.SubQueryResult(subqueries[i], steps[i].properties), open(username)) == Ok(c)
                          && llms.composeContext(c) == Ok(steps[i].context)
    {
      var c := contexts[i];
      assert results[i] == QueryEngine.SubQueryResult(subqueries[i], steps[i].properties);
      assert ContextOf(results[i], rs) == Ok(c);
      assert llms.composeContext(c) == Ok(steps[i].context);
    }
  }

  /** The first stages of `start_reasoning`, shared by the as-written and corrected versions. */
  method Reason(username: string, query: string, llms: Llms, open: string -> Retrievers)
    returns (r: Result<(seq<ReasoningStep>, string)>)
    ensures r == Reasoning(username, query, llms, open)
  {
    var subqueries :- QueryEngine.ProcessQuery(query, llms.decompose, llms.graphHint);
    var retrievedResults :- SendSubqueriesToRetrievers(subqueries, open(username));
    var reasoningSteps :- ComposeSubqueries(retrievedResults, llms.composeContext);
    var finalAnswer :- ThinkingComposer.Think(query, reasoningSteps, llms.answer);
    r := Ok((reasoningSteps, finalAnswer));
  }

  /** `start_reasoning()` as written: `compose_table` calls `get_table_from_output` on a
      `Composer`, which defines no such method, so every run that reaches it raises. */
  method StartReasoningAsWritten(username: string, query: string, llms: Llms, open: string -> Retrievers)
    returns (r: Result<ThinkingOutput>)
    ensures r.Err?
    ensures Reasoning(username, query, llms, open).Err? ==> r.error == Reasoning(username, query, llms, open).error
    ensures Reasoning(username, query, llms, open).Ok? ==> r.error == AttributeError("get_table_from_output")
  {
    var reasoned :- Reason(username, query, llms, open);
    r := Err(AttributeError("get_table_from_output"));
  }

  /** `start_reasoning()` with the table derived from the final answer by `tableOf`. */
  method StartReasoning(username: string, query: string, llms: Llms, open: string -> Retrievers,
                        tableOf: string -> Result<Table>)
    returns (r: Result<ThinkingOutput>)
    ensures Reasoning(username, query, llms, open).Err? ==> r == Err(Reasoning(username, query, llms, open).error)
    ensures Reasoning(username, query, llms, open).Ok? ==>
              var (steps, finalAnswer) := Reasoning(username, query, llms, open).value;
              r == (match tableOf(finalAnswer)
                    case Err(e) => Err(e)
                    case Ok(table) => Ok(ThinkingOutput(steps, finalAnswer, table)))
  {
    var reasoned :- Reason(username, query, llms, open);
    var outputTable :- tableOf(reasoned.1);
    r := Ok(ThinkingOutput(reasoned.0, reasoned.1, outputTable));
  }
}
