/** SparseRetriever.retrieve and its helpers
    (app/core/reasoner/retrievers/sparse_retriever.py): hybrid retrieval that keeps
    the vector and keyword hits scoring at least the threshold, deduplicates them by
    node id batch by batch, and joins the kept texts with spaces. The two
    retrievers are parameters. */
module SparseRetriever {
  import opened Wrappers
  import opened ODicts
  import Text
  import Seqs

  const DefaultThreshold: real := 0.45
  const BatchSize: nat := 10

  /** The `score` attribute of a hit: absent, `None`, or a number. */
  datatype ScoreAttr = NoScore | NullScore | Score(value: real)

  /** A `NodeWithScore`; `id` and `text` are `None` when reading `node.id_` or
      `node.text` raises AttributeError. */
  datatype Hit = Hit(score: ScoreAttr, id: Option<string>, text: Option<string>)

  /** `hasattr(n, 'score') and n.score >= score_threshold`, when it does not raise. */
  predicate Passes(n: Hit, threshold: real)
  {
    n.score.Score? && n.score.value >= threshold
  }

  /** The filter comprehension. Comparing a `None` score with a number raises TypeError. */
  function FilterByScore(nodes: seq<Hit>, threshold: real): (r: Result<seq<Hit>>)
    ensures r.Ok? <==> forall n :: n in nodes ==> !n.score.NullScore?
    ensures r.Ok? ==> forall n :: n in r.value <==> n in nodes && Passes(n, threshold)
    decreases |nodes|
  {
    if |nodes| == 0 then Ok([])
    else
      match nodes[0].score
      case NullScore => Err(TypeError("'>=' not supported between instances of 'NoneType' and 'float'"))
      case NoScore => FilterByScore(nodes[1..], threshold)
      case Score(v) =>
        var rest :- FilterByScore(nodes[1..], threshold);
        Ok(if v >= threshold then [nodes[0]] + rest else rest)
  }

  /** Survivors keep their order: those of the vector hits come before those of the
      keyword hits. */
  lemma {:induction false} FilterByScoreConcat(a: seq<Hit>, b: seq<Hit>, threshold: real)
    requires FilterByScore(a + b, threshold).Ok?
    ensures FilterByScore(a, threshold).Ok? && FilterByScore(b, threshold).Ok?
    ensures FilterByScore(a + b, threshold).value == FilterByScore(a, threshold).value + FilterByScore(b, threshold).value
    decreases |a|
  {
    if |a| == 0 {
      assert a + b == b;
    } else {
      assert (a + b)[0] == a[0];
      assert (a + b)[1..] == a[1..] + b;
      FilterByScoreConcat(a[1..], b, threshold);
    }
  }

  /** `[s[i:i+size] for i in range(0, len(s), size)]`. */
  function Batches<T>(s: seq<T>, size: nat): (r: seq<seq<T>>)
    requires size > 0
    ensures forall i :: 0 <= i < |r| ==> 0 < |r[i]| <= size
    ensures |s| == 0 <==> |r| == 0
    decreases |s|
  {
    if |s| == 0 then []
    else if |s| <= size then [s]
    else [s[..size]] + Batches(s[size..], size)
  }

  /** The batches, put back together, are the input. */
  lemma {:induction false} BatchesFlatten<T>(s: seq<T>, size: nat)
    requires size > 0
    ensures Seqs.Flatten(Batches(s, size)) == s
    decreases |s|
  {
    if |s| == 0 {
    } else if |s| <= size {
      Seqs.FlattenCons(s, []);
      assert [s] + [] == [s];
    } else {
      BatchesFlatten(s[size..], size);
      Seqs.FlattenCons(s[..size], Batches(s[size..], size));
      assert s[..size] + s[size..] == s;
    }
  }

  /** A hit `_process_batch` can read: both `node.id_` and `node.text` exist. */
  predicate Readable(n: Hit)
  {
    n.id.Some? && n.text.Some?
  }

  /** The ids of the readable hits, in order. */
  function ReadableIds(s: seq<Hit>): seq<string>
    decreases |s|
  {
    if |s| == 0 then []
    else ReadableIds(s[..|s| - 1]) + (if Readable(s[|s| - 1]) then [s[|s| - 1].id.value] else [])
  }

  lemma {:induction false} ReadableIdsConcat(a: seq<Hit>, b: seq<Hit>)
    ensures ReadableIds(a + b) == ReadableIds(a) + ReadableIds(b)
    decreases |b|
  {
    if |b| == 0 {
      assert a + b == a;
    } else {
      ReadableIdsConcat(a, b[..|b| - 1]);
      assert (a + b)[..|a + b| - 1] == a + b[..|b| - 1];
    }
  }

  /** The dict `_process_batch` builds: per id, the text of its first readable hit. */
  function FirstWins(batch: seq<Hit>): (d: ODict<string>)
    ensures Wf(d)
    decreases |batch|
  {
    if |batch| == 0 then Empty()
    else
      var d := FirstWins(batch[..|batch| - 1]);
      var n := batch[|batch| - 1];
      if Readable(n) && n.id.value !in d.vals then Set(d, n.id.value, n.text.value) else d
  }

  /** `_process_batch`. */
  method ProcessBatch(batch: seq<Hit>) returns (d: ODict<string>)
    ensures d == FirstWins(batch)
  {
    d := Empty();
    for i := 0 to |batch|
      invariant d == FirstWins(batch[..i])
    {
      var n := batch[i];
      assert batch[..i + 1][..i] == batch[..i];
      if n.id.Some? && n.text.Some? && n.id.value !in d.vals {
        d := Set(d, n.id.value, n.text.value);
      }
    }
    assert batch[..|batch|] == batch;
  }

  /** A batch's keys are its readable ids, each once, in first-seen order. */
  lemma {:induction false} FirstWinsKeys(batch: seq<Hit>)
    ensures FirstWins(batch).keys == Dedup(ReadableIds(batch))
    decreases |batch|
  {
    if |batch| > 0 {
      var init, n := batch[..|batch| - 1], batch[|batch| - 1];
      FirstWinsKeys(init);
      var ids := ReadableIds(init);
      if Readable(n) {
        assert ReadableIds(batch) == ids + [n.id.value];
        assert (ids + [n.id.value])[..|ids|] == ids;
        assert Dedup(ReadableIds(batch)) == AddKey(Dedup(ids), n.id.value);
      } else {
        assert ReadableIds(batch) == ids;
      }
    }
  }

  /** Within a batch, an id keeps the text of its first readable hit. */
  lemma {:induction false} FirstWinsValue(batch: seq<Hit>, i: nat)
    requires i < |batch| && Readable(batch[i])
    requires forall j :: 0 <= j < i && Readable(batch[j]) ==> batch[j].id != batch[i].id
    ensures batch[i].id.value in FirstWins(batch).vals
    ensures FirstWins(batch).vals[batch[i].id.value] == batch[i].text.value
    decreases |batch|
  {
    var k := batch[i].id.value;
    if i < |batch| - 1 {
      FirstWinsValue(batch[..|batch| - 1], i);
    } else {
      FirstWinsAbsent(batch[..|batch| - 1], k);
    }
  }

  /** An id no readable hit carries is not a key. */
  lemma {:induction false} FirstWinsAbsent(batch: seq<Hit>, k: string)
    requires forall j :: 0 <= j < |batch| && Readable(batch[j]) ==> batch[j].id.value != k
    ensures k !in FirstWins(batch).vals
    decreases |batch|
  {
    if |batch| > 0 {
      FirstWinsAbsent(batch[..|batch| - 1], k);
    }
  }

  function MapFirstWins(batches: seq<seq<Hit>>): (ds: seq<ODict<string>>)
    ensures |ds| == |batches|
    ensures forall i :: 0 <= i < |ds| ==> ds[i] == FirstWins(batches[i]) && Wf(ds[i])
  {
    seq(|batches|, i requires 0 <= i < |batches| => FirstWins(batches[i]))
  }

  /** `unique_nodes` after `update` with each processed batch in turn. */
  function Merge(ds: seq<ODict<string>>): (d: ODict<string>)
    requires forall i :: 0 <= i < |ds| ==> Wf(ds[i])
    ensures Wf(d)
    decreases |ds|
  {
    if |ds| == 0 then Empty() else Update(Merge(ds[..|ds| - 1]), ds[|ds| - 1])
  }

  /** The outcome of `retrieve(query, score_threshold)`: the kept ids and their texts
      joined with single spaces. */
  function Retrieval(query: string, vectorSearch: string -> Result<seq<Hit>>,
                     keywordSearch: string -> Result<seq<Hit>>, threshold: real): Result<(seq<string>, string)>
  {
    var vectorNodes :- vectorSearch(query);
    var keywordNodes :- keywordSearch(query);
    var filtered :- FilterByScore(vectorNodes + keywordNodes, threshold);
    var unique := Merge(MapFirstWins(Batches(filtered, BatchSize)));
    Ok((unique.keys, Text.Join(" ", Values(unique))))
  }

  /** The two loops of `retrieve`: each batch processed in order, then the processed
      dicts folded into one with `update`. */
  method MergeBatches(batches: seq<seq<Hit>>) returns (unique: ODict<string>)
    ensures unique == Merge(MapFirstWins(batches))
  {
    var processed: seq<ODict<string>> := [];
    ghost var all := MapFirstWins(batches);
    for i := 0 to |batches|
      invariant processed == all[..i]
    {
      var d := ProcessBatch(batches[i]);
      assert all[..i + 1] == all[..i] + [d];
      processed := processed + [d];
    }
    assert processed == all;
    unique := Empty();
    for i := 0 to |processed|
      invariant unique == Merge(processed[..i])
    {
      MergeStep(processed, i);
      unique := Update(unique, processed[i]);
    }
    assert processed[..|processed|] == processed;
  }

  lemma MergeStep(ds: seq<ODict<string>>, i: nat)
    requires i < |ds| && forall j :: 0 <= j < |ds| ==> Wf(ds[j])
    ensures Merge(ds[..i + 1]) == Update(Merge(ds[..i]), ds[i])
  {
    assert ds[..i + 1][..i] == ds[..i];
  }

  /** `retrieve`: vector hits, then keyword hits, filtered, processed in batches of
      ten (in order), folded into one dict with `update`, and joined. */
  method Retrieve(query: string, vectorSearch: string -> Result<seq<Hit>>,
                  keywordSearch: string -> Result<seq<Hit>>, scoreThreshold: real := DefaultThreshold)
    returns (r: Result<(seq<string>, string)>)
    ensures r == Retrieval(query, vectorSearch, keywordSearch, scoreThreshold)
  {
    var vectorNodes :- vectorSearch(query);
    var keywordNodes :- keywordSearch(query);
    var allNodes := vectorNodes + keywordNodes;
    var filtered :- FilterByScore(allNodes, scoreThreshold);
    var batches := Batches(filtered, BatchSize);
    var unique := MergeBatches(batches);
    r := Ok((unique.keys, Text.Join(" ", Values(unique))));
  }

  /** The merged keys are the readable ids of all batches, each once, in first-seen order. */
  lemma {:induction false} MergeKeys(batches: seq<seq<Hit>>)
    ensures Merge(MapFirstWins(batches)).keys == Dedup(ReadableIds(Seqs.Flatten(batches)))
    decreases |batches|
  {
    if |batches| > 0 {
      var init, last := batches[..|batches| - 1], batches[|batches| - 1];
      MergeKeys(init);
      assert MapFirstWins(batches)[..|batches| - 1] == MapFirstWins(init);
      FirstWinsKeys(last);
      AddKeysDedup(Dedup(ReadableIds(Seqs.Flatten(init))), ReadableIds(last));
      AddKeysConcat([], ReadableIds(Seqs.Flatten(init)), ReadableIds(last));
      ReadableIdsConcat(Seqs.Flatten(init), last);
    }
  }

  /** An id found in batch j and in no later batch keeps batch j's text. */
  lemma {:induction false} MergeValue(ds: seq<ODict<string>>, j: nat, k: string)
    requires forall i :: 0 <= i < |ds| ==> Wf(ds[i])
    requires j < |ds| && k in ds[j].vals
    requires forall i :: j < i < |ds| ==> k !in ds[i].vals
    ensures k in Merge(ds).vals && Merge(ds).vals[k] == ds[j].vals[k]
    decreases |ds|
  {
    if j < |ds| - 1 {
      MergeValue(ds[..|ds| - 1], j, k);
    }
  }

  /** Ids come back distinct and in the order they were first seen among the
      surviving hits; the text is the batch-wise first-wins dict folded with
      `update`, joined by single spaces; with no survivors the result is ([], ""). */
  lemma RetrievalShape(query: string, vectorSearch: string -> Result<seq<Hit>>,
                       keywordSearch: string -> Result<seq<Hit>>, threshold: real)
    requires Retrieval(query, vectorSearch, keywordSearch, threshold).Ok?
    ensures var filtered := FilterByScore(vectorSearch(query).value + keywordSearch(query).value, threshold).value;
            var out := Retrieval(query, vectorSearch, keywordSearch, threshold).value;
            var merged := Merge(MapFirstWins(Batches(filtered, BatchSize)));
            && out.0 == Dedup(ReadableIds(filtered))
            && (forall a, b :: 0 <= a < b < |out.0| ==> out.0[a] != out.0[b])
            && out.0 == merged.keys
            && out.1 == Text.Join(" ", Values(merged))
            && (forall i :: 0 <= i < |out.0| ==> out.0[i] in merged.vals && Values(merged)[i] == merged.vals[out.0[i]])
            && (|filtered| == 0 ==> out == ([], ""))
  {
    var filtered := FilterByScore(vectorSearch(query).value + keywordSearch(query).value, threshold).value;
    var batches := Batches(filtered, BatchSize);
    MergeKeys(batches);
    BatchesFlatten(filtered, BatchSize);
    AddKeysDistinct([], ReadableIds(filtered));
  }

  /** The texts `_process_nodes` keeps: those that exist and are not blank. */
  function NonBlankTexts(texts: seq<Option<string>>): (r: seq<string>)
    ensures forall t :: t in r <==> Some(t) in texts && Text.Strip(t) != ""
    decreases |texts|
  {
    if |texts| == 0 then []
    else (if texts[0].Some? && Text.Strip(texts[0].value) != "" then [texts[0].value] else []) + NonBlankTexts(texts[1..])
  }

  /** `_process_nodes`: the non-blank texts joined by single spaces; `None` stands for
      a node without a `text` attribute. */
  function ProcessNodes(texts: seq<Option<string>>): string
  {
    Text.Join(" ", NonBlankTexts(texts))
  }

  /** Nodes whose texts are all missing or blank (or no nodes) give "". */
  lemma ProcessNodesAllBlank(texts: seq<Option<string>>)
    requires forall t :: t in texts ==> t.None? || Text.IsBlank(t.value)
    ensures ProcessNodes(texts) == ""
  {
    var kept := NonBlankTexts(texts);
    if |kept| > 0 {
      Text.StripEmptyIffBlank(kept[0]);
    }
  }
}
