/** VectorRetriever (app/core/reasoner/retrievers/vector_retriever.py): similarity
    hits over the chunk/summary/question vectors are filtered by score, grouped by
    the parent document they name, and replaced by those parents, each carrying its
    matching children; the parents' texts are then joined. The similarity search
    and the docstore are parameters. */
module VectorRetriever {
  import opened Wrappers
  import opened Docs
  import opened ODicts
  import Text

  const DefaultThreshold: real := 0.7
  const DefaultMaxResults: nat := 3

  /** `doc.metadata.get("doc_id")` when it is a non-empty string (truthy). */
  function DocIdOf(doc: LcDoc): Option<string>
  {
    if IdKey in doc.metadata && doc.metadata[IdKey].Str? && doc.metadata[IdKey].s != "" then Some(doc.metadata[IdKey].s)
    else None
  }

  /** The hits the first loop keeps, with their parent id and `metadata["score"]` set. */
  function Kept(results: seq<(LcDoc, real)>, threshold: real): (r: seq<(string, LcDoc)>)
    ensures |r| <= |results|
    decreases |results|
  {
    if |results| == 0 then []
    else
      Kept(results[..|results| - 1], threshold) + KeptOne(results[|results| - 1], threshold)
  }

  /** A hit with `metadata["score"]` set to its score. */
  function Scored(doc: LcDoc, score: real): LcDoc
  {
    doc.(metadata := doc.metadata["score" := Score(score)])
  }

  /** What the first loop keeps of one hit: nothing, or the hit under its parent id. */
  function KeptOne(hit: (LcDoc, real), threshold: real): seq<(string, LcDoc)>
  {
    if hit.1 >= threshold && DocIdOf(hit.0).Some? then [(DocIdOf(hit.0).value, Scored(hit.0, hit.1))] else []
  }

  /** Every kept pair comes from a hit that passed the threshold and names a parent;
      its document is that hit with its score recorded. */
  lemma {:induction false} KeptSound(results: seq<(LcDoc, real)>, threshold: real, i: nat) returns (j: nat)
    requires i < |Kept(results, threshold)|
    ensures j < |results| && results[j].1 >= threshold
    ensures DocIdOf(results[j].0) == Some(Kept(results, threshold)[i].0)
    ensures Kept(results, threshold)[i].1 == Scored(results[j].0, results[j].1)
    decreases |results|
  {
    var init := results[..|results| - 1];
    if i < |Kept(init, threshold)| {
      j := KeptSound(init, threshold, i);
    } else {
      j := |results| - 1;
    }
  }

  /** Every hit that passes the threshold and names a parent is kept, in order. */
  lemma {:induction false} KeptComplete(results: seq<(LcDoc, real)>, threshold: real, j: nat)
    requires j < |results| && results[j].1 >= threshold && DocIdOf(results[j].0).Some?
    ensures (DocIdOf(results[j].0).value, Scored(results[j].0, results[j].1)) in Kept(results, threshold)
    decreases |results|
  {
    if j < |results| - 1 {
      KeptComplete(results[..|results| - 1], threshold, j);
    }
  }

  /** The `defaultdict(list)` after appending every kept hit under its parent id. */
  function Group(pairs: seq<(string, LcDoc)>): (d: ODict<seq<LcDoc>>)
    ensures Wf(d)
    decreases |pairs|
  {
    if |pairs| == 0 then Empty()
    else
      var d := Group(pairs[..|pairs| - 1]);
      var (id, doc) := pairs[|pairs| - 1];
      Set(d, id, (if id in d.vals then d.vals[id] else []) + [doc])
  }

  /** The ids of the pairs, in order. */
  function IdsOf(pairs: seq<(string, LcDoc)>): (ids: seq<string>)
    ensures |ids| == |pairs|
    ensures forall i :: 0 <= i < |pairs| ==> ids[i] == pairs[i].0
  {
    seq(|pairs|, i requires 0 <= i < |pairs| => pairs[i].0)
  }

  /** The documents paired with `id`, in order. */
  function WithId(pairs: seq<(string, LcDoc)>, id: string): seq<LcDoc>
    decreases |pairs|
  {
    if |pairs| == 0 then []
    else WithId(pairs[..|pairs| - 1], id) + (if pairs[|pairs| - 1].0 == id then [pairs[|pairs| - 1].1] else [])
  }

  lemma KeptStep(results: seq<(LcDoc, real)>, i: nat, threshold: real)
    requires i < |results|
    ensures KeptOne(results[i], threshold) == [] ==> Kept(results[..i + 1], threshold) == Kept(results[..i], threshold)
    ensures KeptOne(results[i], threshold) != [] ==>
              Kept(results[..i + 1], threshold) == Kept(results[..i], threshold) + KeptOne(results[i], threshold)
  {
    assert results[..i + 1][..i] == results[..i];
    assert Kept(results[..i], threshold) + [] == Kept(results[..i], threshold);
  }

  lemma GroupStep(pairs: seq<(string, LcDoc)>, p: (string, LcDoc))
    ensures var d := Group(pairs);
            Group(pairs + [p]) == Set(d, p.0, (if p.0 in d.vals then d.vals[p.0] else []) + [p.1])
  {
    assert (pairs + [p])[..|pairs|] == pairs;
  }

  /** One more hit: the groups change only by appending a kept hit to its parent's group. */
  lemma GroupKeptStep(results: seq<(LcDoc, real)>, i: nat, threshold: real)
    requires i < |results|
    ensures var g := Group(Kept(results[..i], threshold));
            var (doc, score) := results[i];
            Group(Kept(results[..i + 1], threshold))
              == if score >= threshold && DocIdOf(doc).Some? then
                   Set(g, DocIdOf(doc).value,
                       (if DocIdOf(doc).value in g.vals then g.vals[DocIdOf(doc).value] else []) + [Scored(doc, score)])
                 else g
  {
    KeptStep(results, i, threshold);
    var (doc, score) := results[i];
    if score >= threshold && DocIdOf(doc).Some? {
      GroupStep(Kept(results[..i], threshold), (DocIdOf(doc).value, Scored(doc, score)));
    }
  }

  /** Groups are keyed by parent id in order of first appearance. */
  lemma {:induction false} GroupKeys(pairs: seq<(string, LcDoc)>)
    ensures Group(pairs).keys == Dedup(IdsOf(pairs))
    decreases |pairs|
  {
    if |pairs| > 0 {
      var init := pairs[..|pairs| - 1];
      var ids := IdsOf(pairs);
      var id := pairs[|pairs| - 1].0;
      assert ids[..|ids| - 1] == IdsOf(init);
      calc {
        Group(pairs).keys;
        AddKey(Group(init).keys, id);
        { GroupKeys(init); }
        AddKey(Dedup(IdsOf(init)), id);
        AddKey(AddKeys([], ids[..|ids| - 1]), ids[|ids| - 1]);
        Dedup(ids);
      }
    }
  }

  /** Each group holds exactly the hits naming that parent, in input order. */
  lemma {:induction false} GroupValues(pairs: seq<(string, LcDoc)>, id: string)
    ensures id in Group(pairs).vals <==> |WithId(pairs, id)| > 0
    ensures id in Group(pairs).vals ==> Group(pairs).vals[id] == WithId(pairs, id)
    decreases |pairs|
  {
    if |pairs| > 0 {
      GroupValues(pairs[..|pairs| - 1], id);
    }
  }

  /** A parent with `metadata["sub_docs"]` set to its group. */
  function WithSubDocs(parent: LcDoc, subDocs: seq<LcDoc>): LcDoc
  {
    parent.(metadata := parent.metadata["sub_docs" := SubDocs(subDocs)])
  }

  /** The second loop over the first `n` groups: the parents the docstore has, in group order. */
  function Parents(groups: ODict<seq<LcDoc>>, docstore: map<string, LcDoc>, n: nat): (r: seq<LcDoc>)
    requires Wf(groups) && n <= |groups.keys|
    ensures |r| <= n
    decreases n
  {
    if n == 0 then []
    else
      var rest := Parents(groups, docstore, n - 1);
      var id := groups.keys[n - 1];
      if id in docstore then rest + [WithSubDocs(docstore[id], groups.vals[id])] else rest
  }

  /** The parent of group `i`, which the docstore has. */
  function ParentOf(groups: ODict<seq<LcDoc>>, docstore: map<string, LcDoc>, i: nat): LcDoc
    requires Wf(groups) && i < |groups.keys| && groups.keys[i] in docstore
  {
    WithSubDocs(docstore[groups.keys[i]], groups.vals[groups.keys[i]])
  }

  /** Each returned parent is the docstore entry of one of the first `n` groups, carrying
      that group as `sub_docs`, and each of those groups the docstore has is returned. */
  lemma {:induction false} ParentsMembers(groups: ODict<seq<LcDoc>>, docstore: map<string, LcDoc>, n: nat)
    requires Wf(groups) && n <= |groups.keys|
    ensures forall p :: p in Parents(groups, docstore, n) ==>
              exists i :: 0 <= i < n && groups.keys[i] in docstore && p == ParentOf(groups, docstore, i)
    ensures forall i :: 0 <= i < n && groups.keys[i] in docstore ==>
              ParentOf(groups, docstore, i) in Parents(groups, docstore, n)
    decreases n
  {
    if n > 0 {
      ParentsMembers(groups, docstore, n - 1);
      var rest := Parents(groups, docstore, n - 1);
      if groups.keys[n - 1] in docstore {
        var last := ParentOf(groups, docstore, n - 1);
        assert Parents(groups, docstore, n) == rest + [last];
      } else {
        assert Parents(groups, docstore, n) == rest;
      }
    }
  }

  /** `retrieve_with_threshold(search_results, score_threshold)`; `docstore` maps parent
      ids to the stored documents, a missing id standing for the `None` `mget` gives. */
  method RetrieveWithThreshold(searchResults: seq<(LcDoc, real)>, docstore: map<string, LcDoc>,
                               scoreThreshold: real := DefaultThreshold)
    returns (filteredDocs: seq<LcDoc>)
    ensures var groups := Group(Kept(searchResults, scoreThreshold));
            filteredDocs == Parents(groups, docstore, |groups.keys|)
  {
    var idToDoc := GroupHits(searchResults, scoreThreshold);
    filteredDocs := CollectParents(idToDoc, docstore);
  }

  /** The first loop of `retrieve_with_threshold`: the kept hits grouped by parent id. */
  method GroupHits(searchResults: seq<(LcDoc, real)>, scoreThreshold: real) returns (idToDoc: ODict<seq<LcDoc>>)
    ensures idToDoc == Group(Kept(searchResults, scoreThreshold))
  {
    idToDoc := Empty();
    for i := 0 to |searchResults|
      invariant idToDoc == Group(Kept(searchResults[..i], scoreThreshold))
    {
      var (doc, score) := searchResults[i];
      GroupKeptStep(searchResults, i, scoreThreshold);
      if score >= scoreThreshold {
        var docId := DocIdOf(doc);
        if docId.Some? {
          var existing := if docId.value in idToDoc.vals then idToDoc.vals[docId.value] else [];
          idToDoc := Set(idToDoc, docId.value, existing + [Scored(doc, score)]);
        }
      }
    }
    assert searchResults[..|searchResults|] == searchResults;
  }

  /** The second loop of `retrieve_with_threshold`: the stored parent of each group, in
      group order, carrying the group as its `sub_docs`. */
  method CollectParents(idToDoc: ODict<seq<LcDoc>>, docstore: map<string, LcDoc>) returns (filteredDocs: seq<LcDoc>)
    requires Wf(idToDoc)
    ensures filteredDocs == Parents(idToDoc, docstore, |idToDoc.keys|)
  {
    filteredDocs := [];
    for k := 0 to |idToDoc.keys|
      invariant filteredDocs == Parents(idToDoc, docstore, k)
    {
      var docId := idToDoc.keys[k];
      var subDocs := idToDoc.vals[docId];
      if docId in docstore {
        filteredDocs := filteredDocs + [WithSubDocs(docstore[docId], subDocs)];
      }
    }
  }

  /** What retrieval with a threshold yields: each returned document is a stored parent
      named by some kept hit, carrying as `sub_docs` exactly the kept hits naming it, in
      hit order; and every stored parent a kept hit names is returned. */
  lemma RetrievedParents(searchResults: seq<(LcDoc, real)>, docstore: map<string, LcDoc>, threshold: real)
    ensures var kept := Kept(searchResults, threshold);
            var groups := Group(kept);
            var parents := Parents(groups, docstore, |groups.keys|);
            (forall p :: p in parents ==>
               (exists id :: id in docstore && |WithId(kept, id)| > 0 && p == WithSubDocs(docstore[id], WithId(kept, id))))
            && (forall id :: id in docstore && |WithId(kept, id)| > 0 ==> WithSubDocs(docstore[id], WithId(kept, id)) in parents)
  {
    var kept := Kept(searchResults, threshold);
    var groups := Group(kept);
    var parents := Parents(groups, docstore, |groups.keys|);
    ParentsMembers(groups, docstore, |groups.keys|);
    forall p | p in parents
      ensures exists id :: id in docstore && |WithId(kept, id)| > 0 && p == WithSubDocs(docstore[id], WithId(kept, id))
    {
      var i :| 0 <= i < |groups.keys| && groups.keys[i] in docstore && p == ParentOf(groups, docstore, i);
      GroupValues(kept, groups.keys[i]);
    }
    forall id | id in docstore && |WithId(kept, id)| > 0
      ensures WithSubDocs(docstore[id], WithId(kept, id)) in parents
    {
      GroupValues(kept, id);
      var i :| 0 <= i < |groups.keys| && groups.keys[i] == id;
    }
  }

  /** The texts `_process_source_nodes` collects: `text`, else `page_content`, else nothing. */
  function NodeTexts(nodes: seq<SourceNode>): seq<string>
    decreases |nodes|
  {
    if |nodes| == 0 then []
    else
      var n := nodes[|nodes| - 1];
      NodeTexts(nodes[..|nodes| - 1])
        + (if n.text.Some? then [n.text.value] else if n.pageContent.Some? then [n.pageContent.value] else [])
  }

  /** `_process_source_nodes`. */
  method ProcessSourceNodes(sourceNodes: seq<SourceNode>) returns (r: string)
    ensures r == Text.Join(" ", NodeTexts(sourceNodes))
  {
    var combinedText: seq<string> := [];
    for i := 0 to |sourceNodes|
      invariant combinedText == NodeTexts(sourceNodes[..i])
    {
      var node := sourceNodes[i];
      assert sourceNodes[..i + 1][..i] == sourceNodes[..i];
      if node.text.Some? {
        combinedText := combinedText + [node.text.value];
      } else if node.pageContent.Some? {
        combinedText := combinedText + [node.pageContent.value];
      }
    }
    assert sourceNodes[..|sourceNodes|] == sourceNodes;
    r := Text.Join(" ", combinedText);
  }

  /** Texts are taken node by node: `text` wins over `page_content`, and a node with
      neither contributes nothing. */
  lemma {:induction false} NodeTextsConcat(a: seq<SourceNode>, b: seq<SourceNode>)
    ensures NodeTexts(a + b) == NodeTexts(a) + NodeTexts(b)
    decreases |b|
  {
    if |b| == 0 {
      assert a + b == a;
    } else {
      NodeTextsConcat(a, b[..|b| - 1]);
      assert (a + b)[..|a + b| - 1] == a + b[..|b| - 1];
    }
  }

  /** The documents as the text-combining step sees them. */
  function AsNodes(docs: seq<LcDoc>): (nodes: seq<SourceNode>)
    ensures |nodes| == |docs|
    ensures forall i :: 0 <= i < |docs| ==> nodes[i] == AsSourceNode(docs[i])
  {
    seq(|docs|, i requires 0 <= i < |docs| => AsSourceNode(docs[i]))
  }

  /** What `retrieve` returns for `query`: the page contents of the parents of the
      `max_results` nearest hits that pass the threshold, joined by spaces. */
  function Retrieval(query: string, search: (string, nat) -> Result<seq<(LcDoc, real)>>,
                     docstore: map<string, LcDoc>, maxResults: nat): Result<string>
  {
    match search(query, maxResults)
    case Err(e) => Err(e)
    case Ok(hits) =>
      var groups := Group(Kept(hits, DefaultThreshold));
      Ok(Text.Join(" ", NodeTexts(AsNodes(Parents(groups, docstore, |groups.keys|)))))
  }

  /** The combined text holds one piece per returned parent: its page content. */
  lemma {:induction false} NodeTextsOfDocs(docs: seq<LcDoc>)
    ensures |NodeTexts(AsNodes(docs))| == |docs|
    ensures forall i :: 0 <= i < |docs| ==> NodeTexts(AsNodes(docs))[i] == docs[i].pageContent
    decreases |docs|
  {
    if |docs| > 0 {
      var init := docs[..|docs| - 1];
      NodeTextsOfDocs(init);
      assert AsNodes(docs)[..|docs| - 1] == AsNodes(init);
    }
  }

  /** `VectorRetriever(index_name).retrieve(query, max_results)`; `search` is the
      similarity search of the index's vector store, `docstore` its parent store. */
  method Retrieve(query: string, search: (string, nat) -> Result<seq<(LcDoc, real)>>,
                  docstore: map<string, LcDoc>, maxResults: nat := DefaultMaxResults)
    returns (r: Result<string>)
    ensures r == Retrieval(query, search, docstore, maxResults)
  {
    var sourceNodes :- search(query, maxResults);
    var filteredDocs := RetrieveWithThreshold(sourceNodes, docstore);
    var combinedText := ProcessSourceNodes(AsNodes(filteredDocs));
    r := Ok(combinedText);
  }
}
