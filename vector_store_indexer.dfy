/** VectorStoreIndexer.index (app/core/builder/indexer/vector_store_indexer.py):
    the chunks, summaries and questions of a file go into the vector index named
    after the project, and the converted documents into that index's docstore
    under freshly generated ids. */
module VectorStoreIndexer {
  import opened Wrappers
  import opened Docs
  import opened MultiVectorLangchain

  /** The vector indexes and their docstores, by index name. */
  class VectorStores {
    var vectors: map<string, seq<LcDoc>>
    var docstores: map<string, map<string, LcDoc>>

    constructor ()
      ensures vectors == map[] && docstores == map[]
    {
      vectors := map[];
      docstores := map[];
    }
  }

  function VectorsOf(vectors: map<string, seq<LcDoc>>, name: string): seq<LcDoc>
  {
    if name in vectors then vectors[name] else []
  }

  function DocstoreOf(docstores: map<string, map<string, LcDoc>>, name: string): map<string, LcDoc>
  {
    if name in docstores then docstores[name] else map[]
  }

  /** `docstore.mset(list(zip(keys, vals)))`: the pairs are written in order, so a
      later pair wins over an earlier one with the same key. */
  function PutAll(m: map<string, LcDoc>, keys: seq<string>, vals: seq<LcDoc>): (r: map<string, LcDoc>)
    requires |keys| == |vals|
    ensures forall k :: k in r <==> k in m || k in keys
    ensures forall k :: k in m && k !in keys ==> r[k] == m[k]
    decreases |keys|
  {
    if |keys| == 0 then m else PutAll(m[keys[0] := vals[0]], keys[1..], vals[1..])
  }

  /** With distinct keys every pair is found under its key afterwards. */
  lemma {:induction false} PutAllDistinct(m: map<string, LcDoc>, keys: seq<string>, vals: seq<LcDoc>)
    requires |keys| == |vals|
    requires forall i, j :: 0 <= i < j < |keys| ==> keys[i] != keys[j]
    ensures forall i :: 0 <= i < |keys| ==> PutAll(m, keys, vals)[keys[i]] == vals[i]
    decreases |keys|
  {
    if |keys| > 0 {
      PutAllDistinct(m[keys[0] := vals[0]], keys[1..], vals[1..]);
      assert keys[0] !in keys[1..];
      forall i | 0 <= i < |keys|
        ensures PutAll(m, keys, vals)[keys[i]] == vals[i]
      {
        if i > 0 {
          assert keys[1..][i - 1] == keys[i];
        }
      }
    }
  }

  /** `[str(uuid4()) for _ in documents]`: the i-th call of the id generator names document i. */
  function DocIds(n: nat, uuid: nat -> string): (ids: seq<string>)
    ensures |ids| == n
    ensures forall i :: 0 <= i < n ==> ids[i] == uuid(i)
  {
    seq(n, i requires 0 <= i < n => uuid(i))
  }

  /** The processor the indexer builds, with the constructor's parameters supplied
      under their own names; the id key is "doc_id". */
  function ProcessorFor(fileName: string, documents: seq<ParsedDoc>, uuid: nat -> string): Processor
  {
    Processor(documents, DocIds(|documents|, uuid), fileName, IdKey)
  }

  /** The keywords the processor is constructed with, corrected and as written. */
  const CorrectedKeywords: seq<string> := ["documents", "doc_ids", "filepath", "gemini_llm", "id_key"]
  const AsWrittenKeywords: seq<string> := ["documents", "doc_ids", "file_name", "model", "id_key"]

  /** The vector database behind the retriever: `build(index_name)` opens the index and
      the embedding inside `vectorstore.add_documents` embeds the documents; either may
      raise. */
  datatype VectorBackend = VectorBackend(open: string -> Result<()>, embed: seq<LcDoc> -> Result<()>)

  /** What indexing leaves in the vector indexes and the docstores: the chunks, summaries
      and questions appended to the named index, and the converted documents put in its
      docstore under their ids; or the first error of processing, opening or embedding. */
  function Indexing(vectors: map<string, seq<LcDoc>>, docstores: map<string, map<string, LcDoc>>,
                    fileName: string, indexName: string, documents: seq<ParsedDoc>,
                    uuid: nat -> string, split: (LcDoc, nat) -> seq<LcDoc>,
                    summarize: string -> Result<string>, ask: string -> Result<seq<string>>,
                    backend: VectorBackend)
    : Result<(map<string, seq<LcDoc>>, map<string, map<string, LcDoc>>)>
  {
    var p := ProcessorFor(fileName, documents, uuid);
    var out :- Process(p, split, summarize, ask);
    var _ :- backend.open(indexName);
    var combined := out.0 + out.1 + out.2;
    var _ :- backend.embed(combined);
    Ok((vectors[indexName := VectorsOf(vectors, indexName) + combined],
        docstores[indexName := PutAll(DocstoreOf(docstores, indexName), p.docIds, Convert(p))]))
  }

  /** Indexing touches only the named index: every other index and docstore is kept, the
      named index keeps its earlier vectors in front of the new ones, and the docstore
      keeps every entry whose id was not regenerated. */
  lemma IndexingFrame(vectors: map<string, seq<LcDoc>>, docstores: map<string, map<string, LcDoc>>,
                      fileName: string, indexName: string, documents: seq<ParsedDoc>,
                      uuid: nat -> string, split: (LcDoc, nat) -> seq<LcDoc>,
                      summarize: string -> Result<string>, ask: string -> Result<seq<string>>,
                      backend: VectorBackend)
    requires Indexing(vectors, docstores, fileName, indexName, documents, uuid, split, summarize, ask, backend).Ok?
    ensures var (vs, ds) := Indexing(vectors, docstores, fileName, indexName, documents, uuid, split, summarize, ask, backend).value;
            && (forall n :: n != indexName ==> (n in vs <==> n in vectors) && (n in ds <==> n in docstores))
            && (forall n :: n != indexName && n in vectors ==> vs[n] == vectors[n])
            && (forall n :: n != indexName && n in docstores ==> ds[n] == docstores[n])
            && indexName in vs && VectorsOf(vectors, indexName) <= vs[indexName]
            && indexName in ds
            && forall k :: k in DocstoreOf(docstores, indexName) && k !in DocIds(|documents|, uuid) ==>
                 k in ds[indexName] && ds[indexName][k] == DocstoreOf(docstores, indexName)[k]
  {
  }

  /** `index(file_name, index_name, documents)` with the processor constructed under
      its own parameter names. Nothing is stored unless processing, opening the index
      and embedding all succeed. */
  method Index(stores: VectorStores, fileName: string, indexName: string, documents: seq<ParsedDoc>,
               uuid: nat -> string, split: (LcDoc, nat) -> seq<LcDoc>,
               summarize: string -> Result<string>, ask: string -> Result<seq<string>>,
               backend: VectorBackend)
    returns (r: Result<()>)
    modifies stores
    ensures var outcome := Indexing(old(stores.vectors), old(stores.docstores), fileName, indexName,
                                    documents, uuid, split, summarize, ask, backend);
            && (outcome.Err? ==> r == Err(outcome.error)
                                 && stores.vectors == old(stores.vectors) && stores.docstores == old(stores.docstores))
            && (outcome.Ok? ==> r == Ok(()) && (stores.vectors, stores.docstores) == outcome.value)
  {
    var processor := ProcessorFor(fileName, documents, uuid);
    var processed := ProcessDocuments(processor, split, summarize, ask);
    if processed.Err? {
      return Err(processed.error);
    }
    var out := processed.value;
    var combined := out.0 + out.1 + out.2;
    var connection := backend.open(indexName);
    if connection.Err? {
      return Err(connection.error);
    }
    var embedded := backend.embed(combined);
    if embedded.Err? {
      return Err(embedded.error);
    }
    stores.vectors := stores.vectors[indexName := VectorsOf(stores.vectors, indexName) + combined];
    var lcDocs := Convert(processor);
    stores.docstores := stores.docstores[indexName := PutAll(DocstoreOf(stores.docstores, indexName), processor.docIds, lcDocs)];
    r := Ok(());
  }

  /** The indexer as written: the processor is constructed with `file_name=` and
      `model=`, which its `__init__` does not accept, so every call raises TypeError
      before anything is stored. */
  method IndexAsWritten(stores: VectorStores, fileName: string, indexName: string, documents: seq<ParsedDoc>)
    returns (r: Result<()>)
    ensures r == Err(TypeError(UnexpectedKeyword("file_name")))
  {
    KeywordsAsWrittenRefused();
    r := BindKeywords(AsWrittenKeywords);
  }

  /** The as-written keywords are refused with a TypeError naming `file_name`, the
      first of them `__init__` does not accept. */
  lemma KeywordsAsWrittenRefused()
    ensures BindKeywords(AsWrittenKeywords) == Err(TypeError(UnexpectedKeyword("file_name")))
  {
    var kw := AsWrittenKeywords;
    assert kw[0] in InitParams by { assert kw[0] == InitParams[0]; }
    assert kw[1] in InitParams by { assert kw[1] == InitParams[1]; }
    assert kw[2] !in InitParams by {
      forall i | 0 <= i < |InitParams| ensures InitParams[i] != kw[2] {
        assert InitParams[i][0] != kw[2][0] || |InitParams[i]| != |kw[2]|;
      }
    }
    assert kw[1..][1..] == kw[2..];
    assert FirstUnknown(kw[2..]) == Some("file_name");
    assert FirstUnknown(kw[1..]) == Some("file_name");
    assert FirstUnknown(kw) == Some("file_name");
  }

  /** The corrected keywords are exactly `__init__`'s parameters, so they bind. */
  lemma KeywordsCorrectedBind()
    ensures BindKeywords(CorrectedKeywords).Ok?
  {
    assert CorrectedKeywords == InitParams;
  }

  /** Every document put in the vector index names, under "doc_id", one of the ids the
      docstore holds, so each vector leads back to its parent document. */
  lemma IndexedVectorsResolve(fileName: string, documents: seq<ParsedDoc>, uuid: nat -> string,
                              split: (LcDoc, nat) -> seq<LcDoc>, summarize: string -> Result<string>,
                              ask: string -> Result<seq<string>>, old_docstore: map<string, LcDoc>)
    requires Process(ProcessorFor(fileName, documents, uuid), split, summarize, ask).Ok?
    ensures var p := ProcessorFor(fileName, documents, uuid);
            var out := Process(p, split, summarize, ask).value;
            forall d :: d in out.0 + out.1 + out.2 ==>
              IdKey in d.metadata && d.metadata[IdKey].Str? && d.metadata[IdKey].s in PutAll(old_docstore, p.docIds, Convert(p))
  {
    var p := ProcessorFor(fileName, documents, uuid);
    var out := Process(p, split, summarize, ask).value;
    ProcessTagged(p, split, summarize, ask);
    forall d | d in out.0 + out.1 + out.2
      ensures IdKey in d.metadata && d.metadata[IdKey].Str? && d.metadata[IdKey].s in PutAll(old_docstore, p.docIds, Convert(p))
    {
      assert d in out.0 || d in out.1 || d in out.2;
      assert TaggedWithOneOf(d, p.idKey, p.docIds);
    }
  }

  /** With the generated ids pairwise distinct, as `uuid4` makes them, the docstore maps
      the i-th id to the i-th converted document. */
  lemma ParentsStored(fileName: string, documents: seq<ParsedDoc>, uuid: nat -> string, old_docstore: map<string, LcDoc>)
    requires forall i, j :: 0 <= i < j < |documents| ==> uuid(i) != uuid(j)
    ensures var p := ProcessorFor(fileName, documents, uuid);
            var store := PutAll(old_docstore, p.docIds, Convert(p));
            forall i :: 0 <= i < |documents| ==>
              uuid(i) in store && store[uuid(i)] == Convert(p)[i] == LcDoc(documents[i].text, map["source" := Str(fileName)])
  {
    var p := ProcessorFor(fileName, documents, uuid);
    PutAllDistinct(old_docstore, p.docIds, Convert(p));
  }

  /** Documents tagged with one of pairwise distinct ids each find, under their tag, the
      value stored for that id. */
  lemma TaggedFindParent(ds: seq<LcDoc>, m: map<string, LcDoc>, ids: seq<string>, vals: seq<LcDoc>)
    requires |ids| == |vals|
    requires forall i, j :: 0 <= i < j < |ids| ==> ids[i] != ids[j]
    requires forall d :: d in ds ==> TaggedWithOneOf(d, IdKey, ids)
    ensures forall d :: d in ds ==>
              exists i :: 0 <= i < |ids| && IdKey in d.metadata && d.metadata[IdKey] == Str(ids[i])
                          && ids[i] in PutAll(m, ids, vals) && PutAll(m, ids, vals)[ids[i]] == vals[i]
  {
    PutAllDistinct(m, ids, vals);
    forall d | d in ds
      ensures exists i :: 0 <= i < |ids| && IdKey in d.metadata && d.metadata[IdKey] == Str(ids[i])
                          && ids[i] in PutAll(m, ids, vals) && PutAll(m, ids, vals)[ids[i]] == vals[i]
    {
      var i :| 0 <= i < |ids| && ids[i] == d.metadata[IdKey].s;
      assert d.metadata[IdKey] == Str(ids[i]);
    }
  }

  /** With the generated ids pairwise distinct, as `uuid4` makes them, the id every indexed
      document carries is the id of one parsed document, and the docstore holds that
      document's converted form under it; the i-th summary carries the i-th id. */
  lemma IndexedVectorsFindParent(fileName: string, documents: seq<ParsedDoc>, uuid: nat -> string,
                                 split: (LcDoc, nat) -> seq<LcDoc>, summarize: string -> Result<string>,
                                 ask: string -> Result<seq<string>>, old_docstore: map<string, LcDoc>)
    requires Process(ProcessorFor(fileName, documents, uuid), split, summarize, ask).Ok?
    requires forall i, j :: 0 <= i < j < |documents| ==> uuid(i) != uuid(j)
    ensures var p := ProcessorFor(fileName, documents, uuid);
            var out := Process(p, split, summarize, ask).value;
            var store := PutAll(old_docstore, p.docIds, Convert(p));
            && |out.1| == |documents|
            && (forall i :: 0 <= i < |out.1| ==> out.1[i].metadata == map[IdKey := Str(uuid(i))])
            && (forall d :: d in out.0 + out.1 + out.2 ==>
                  exists i :: 0 <= i < |documents| && IdKey in d.metadata && d.metadata[IdKey] == Str(p.docIds[i])
                              && p.docIds[i] in store && store[p.docIds[i]] == Convert(p)[i])
  {
    var p := ProcessorFor(fileName, documents, uuid);
    var out := Process(p, split, summarize, ask).value;
    ProcessTagged(p, split, summarize, ask);
    assert out.1 == GenerateSummaries(p, Convert(p), summarize).value;
    var all := out.0 + out.1 + out.2;
    forall d | d in all
      ensures TaggedWithOneOf(d, IdKey, p.docIds)
    {
      assert d in out.0 || d in out.1 || d in out.2;
    }
    TaggedFindParent(all, old_docstore, p.docIds, Convert(p));
  }
}
