/** QueryEngine (app/core/reasoner/query_engine.py): a question is decomposed into
    sub-queries by one structured LLM call, and every sub-query is then given a
    property-graph hint (the entity names it mentions) by a second LLM chain. Both
    LLM calls are parameters returning `Result`, an `Err` standing for their raise. */
module QueryEngine {
  import opened Wrappers

  /** `SubQueryResult`: both fields are required strings. */
  datatype SubQueryResult = SubQueryResult(subQuery: string, graphQuery: string)

  /** What the loop of `process_subqueries` produces from `subqueries`: one result per
      sub-query, or the error of the first hint call that raises. */
  function SubQueryResults(subqueries: seq<string>, graphHint: string -> Result<string>): (r: Result<seq<SubQueryResult>>)
    ensures r.Ok? ==> |r.value| == |subqueries|
    ensures r.Ok? ==> forall i :: 0 <= i < |subqueries| ==>
              r.value[i].subQuery == subqueries[i] && graphHint(subqueries[i]) == Ok(r.value[i].graphQuery)
    ensures r.Ok? <==> forall i :: 0 <= i < |subqueries| ==> graphHint(subqueries[i]).Ok?
    ensures r.Err? ==> exists i :: 0 <= i < |subqueries| && graphHint(subqueries[i]) == Err(r.error)
                         && forall j :: 0 <= j < i ==> graphHint(subqueries[j]).Ok?
    decreases |subqueries|
  {
    if |subqueries| == 0 then Ok([])
    else
      var init := subqueries[..|subqueries| - 1];
      var last := subqueries[|subqueries| - 1];
      match SubQueryResults(init, graphHint)
      case Err(e) => Err(e)
      case Ok(rest) =>
        match graphHint(last)
        case Err(e) => Err(e)
        case Ok(hint) => Ok(rest + [SubQueryResult(last, hint)])
  }

  /** `process_subqueries(llm, subqueries)`, `graphHint` being the property-graph chain
      on that LLM, answering with the content of its reply. */
  method ProcessSubqueries(graphHint: string -> Result<string>, subqueries: seq<string>)
    returns (r: Result<seq<SubQueryResult>>)
    ensures r == SubQueryResults(subqueries, graphHint)
  {
    var results: seq<SubQueryResult> := [];
    for i := 0 to |subqueries|
      invariant SubQueryResults(subqueries[..i], graphHint) == Ok(results)
    {
      assert subqueries[..i + 1][..i] == subqueries[..i];
      var graphQueryResult := graphHint(subqueries[i]);
      if graphQueryResult.Err? {
        SubQueryResultsPrefix(subqueries, graphHint, i + 1);
        return Err(graphQueryResult.error);
      }
      results := results + [SubQueryResult(subqueries[i], graphQueryResult.value)];
    }
    assert subqueries[..|subqueries|] == subqueries;
    r := Ok(results);
  }

  /** Once a prefix fails, the whole list fails with the same error. */
  lemma {:induction false} SubQueryResultsPrefix(subqueries: seq<string>, graphHint: string -> Result<string>, n: nat)
    requires n <= |subqueries|
    requires SubQueryResults(subqueries[..n], graphHint).Err?
    ensures SubQueryResults(subqueries, graphHint) == SubQueryResults(subqueries[..n], graphHint)
    decreases |subqueries|
  {
    if n < |subqueries| {
      var init := subqueries[..|subqueries| - 1];
      assert init[..n] == subqueries[..n];
      SubQueryResultsPrefix(init, graphHint, n);
    } else {
      assert subqueries[..n] == subqueries;
    }
  }

  /** `process_query(query)`: `decompose` is the structured-output call returning the
      `sub_queries` list. */
  method ProcessQuery(query: string, decompose: string -> Result<seq<string>>, graphHint: string -> Result<string>)
    returns (r: Result<seq<SubQueryResult>>)
    ensures decompose(query).Err? ==> r == Err(decompose(query).error)
    ensures decompose(query).Ok? ==> r == SubQueryResults(decompose(query).value, graphHint)
  {
    var subqueries :- decompose(query);
    r := ProcessSubqueries(graphHint, subqueries);
  }
}
