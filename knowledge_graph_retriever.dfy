/** KnowledgeGraphRetriever (app/core/reasoner/retrievers/knowledge_graph_retriever.py):
    the property-graph index stored under a name is queried (vector-context plus
    synonym sub-retrievers, both abstracted as one `search` parameter), the nodes are
    cut to `max_results`, and their texts are joined. */
module KnowledgeGraphRetriever {
  import opened Wrappers
  import opened Docs
  import Text
  import Seqs
  import KnowledgeGraphIndexer

  const DefaultMaxResults: nat := 5

  /** The texts `_process_source_nodes` keeps: a node's `text`, when it has one. */
  function NodeTexts(nodes: seq<SourceNode>): (texts: seq<string>)
    ensures |texts| <= |nodes|
    decreases |nodes|
  {
    if |nodes| == 0 then []
    else NodeTexts(nodes[..|nodes| - 1]) + (if nodes[|nodes| - 1].text.Some? then [nodes[|nodes| - 1].text.value] else [])
  }

  /** The texts are exactly those of the nodes that have one. */
  lemma {:induction false} NodeTextsMembers(nodes: seq<SourceNode>)
    ensures forall t :: t in NodeTexts(nodes) <==> exists n :: n in nodes && n.text == Some(t)
    decreases |nodes|
  {
    if |nodes| > 0 {
      var init := nodes[..|nodes| - 1];
      var last := nodes[|nodes| - 1];
      NodeTextsMembers(init);
      assert nodes == init + [last];
      forall t ensures t in NodeTexts(nodes) <==> exists n :: n in nodes && n.text == Some(t) {
        if t in NodeTexts(nodes) && t !in NodeTexts(init) {
          assert last in nodes && last.text == Some(t);
        }
      }
    }
  }

  /** Nodes that all have a text contribute them all, one each, in order. */
  lemma {:induction false} NodeTextsAllPresent(nodes: seq<SourceNode>)
    requires forall i :: 0 <= i < |nodes| ==> nodes[i].text.Some?
    ensures |NodeTexts(nodes)| == |nodes|
    ensures forall i :: 0 <= i < |nodes| ==> NodeTexts(nodes)[i] == nodes[i].text.value
    decreases |nodes|
  {
    if |nodes| > 0 {
      var init := nodes[..|nodes| - 1];
      NodeTextsAllPresent(init);
      assert NodeTexts(nodes) == NodeTexts(init) + [nodes[|nodes| - 1].text.value];
    }
  }

  /** `_process_source_nodes`. */
  method ProcessSourceNodes(sourceNodes: seq<SourceNode>) returns (r: string)
    ensures r == Text.Join(" ", NodeTexts(sourceNodes))
  {
    var combinedText: seq<string> := [];
    for i := 0 to |sourceNodes|
      invariant combinedText == NodeTexts(sourceNodes[..i])
    {
      assert sourceNodes[..i + 1][..i] == sourceNodes[..i];
      if sourceNodes[i].text.Some? {
        combinedText := combinedText + [sourceNodes[i].text.value];
      }
    }
    assert sourceNodes[..|sourceNodes|] == sourceNodes;
    r := Text.Join(" ", combinedText);
  }

  /** What `retrieve` returns: `None` stands for the `False` the constructor got when
      no index is stored under the name, which has no `property_graph_store`. */
  function Retrieval(index: Option<KnowledgeGraphIndexer.GraphIndex>, query: string,
                     search: (KnowledgeGraphIndexer.GraphIndex, string) -> Result<seq<SourceNode>>,
                     maxResults: nat): (r: Result<string>)
    ensures index.None? ==> r == Err(AttributeError("property_graph_store"))
    ensures index.Some? && search(index.value, query).Err? ==> r == Err(search(index.value, query).error)
    ensures index.Some? && search(index.value, query).Ok? ==>
              r == Ok(Text.Join(" ", NodeTexts(Seqs.Take(search(index.value, query).value, maxResults))))
  {
    match index
    case None => Err(AttributeError("property_graph_store"))
    case Some(graph) =>
      match search(graph, query)
      case Err(e) => Err(e)
      case Ok(nodes) => Ok(Text.Join(" ", NodeTexts(Seqs.Take(nodes, maxResults))))
  }

  /** `KnowledgeGraphRetriever(index_name).retrieve(query, max_results)`, `index` being
      what `get_index_from_storage(index_name)` gave the constructor. */
  method Retrieve(index: Option<KnowledgeGraphIndexer.GraphIndex>, query: string,
                  search: (KnowledgeGraphIndexer.GraphIndex, string) -> Result<seq<SourceNode>>,
                  maxResults: nat := DefaultMaxResults)
    returns (r: Result<string>)
    ensures r == Retrieval(index, query, search, maxResults)
  {
    if index.None? {
      return Err(AttributeError("property_graph_store"));
    }
    var sourceNodes :- search(index.value, query);
    if |sourceNodes| > maxResults {
      sourceNodes := sourceNodes[..maxResults];
    }
    var combinedText := ProcessSourceNodes(sourceNodes);
    r := Ok(combinedText);
  }
}
