/** Indexer.index (app/core/builder/index.py): parse the uploaded file, index it into
    the knowledge graph, then into the vector store, in that order. */
module Indexer {
  import opened Wrappers
  import opened Docs
  import KnowledgeGraphIndexer
  import VectorStoreIndexer

  /** An uploaded file: `filename` is the attribute when the object has one. */
  datatype UploadFile = UploadFile(filename: Option<string>, name: string)

  /** `file.filename if hasattr(file, 'filename') else file.name`. */
  function FileName(file: UploadFile): (r: string)
    ensures file.filename.Some? ==> r == file.filename.value
    ensures file.filename.None? ==> r == file.name
  {
    if file.filename.Some? then file.filename.value else file.name
  }

  /** `index(file, index_name)`: a parse failure propagates before anything is
      indexed; the graph indexer's verdict is ignored; a vector-indexing failure
      propagates (after the graph index was persisted) with the vector stores
      unchanged; otherwise the vector stores hold the indexed file and the result is True. */
  method Index(disk: KnowledgeGraphIndexer.DiskStore, stores: VectorStoreIndexer.VectorStores,
               file: UploadFile, indexName: string,
               parse: UploadFile -> Result<seq<ParsedDoc>>,
               build: seq<ParsedDoc> -> Result<KnowledgeGraphIndexer.GraphIndex>,
               insert: (KnowledgeGraphIndexer.GraphIndex, seq<ParsedDoc>) -> Result<KnowledgeGraphIndexer.GraphIndex>,
               persist: (string, KnowledgeGraphIndexer.GraphIndex) -> Result<()>,
               uuid: nat -> string, split: (LcDoc, nat) -> seq<LcDoc>,
               summarize: string -> Result<string>, ask: string -> Result<seq<string>>,
               backend: VectorStoreIndexer.VectorBackend)
    returns (r: Result<bool>)
    modifies disk, stores
    ensures parse(file).Err? ==>
              && r == Err(parse(file).error)
              && disk.persisted == old(disk.persisted)
              && stores.vectors == old(stores.vectors) && stores.docstores == old(stores.docstores)
    ensures parse(file).Ok? ==>
              var documents := parse(file).value;
              var graph := KnowledgeGraphIndexer.Saved(old(disk.persisted), indexName, documents, build, insert, persist);
              var vector := VectorStoreIndexer.Indexing(old(stores.vectors), old(stores.docstores), FileName(file), indexName,
                                                        documents, uuid, split, summarize, ask, backend);
              && disk.persisted == (if graph.Ok? then graph.value else old(disk.persisted))
              && (vector.Err? ==> r == Err(vector.error)
                                  && stores.vectors == old(stores.vectors) && stores.docstores == old(stores.docstores))
              && (vector.Ok? ==> r == Ok(true) && (stores.vectors, stores.docstores) == vector.value)
    ensures r.Ok? ==> r.value
  {
    var documents :- parse(file);
    var fileName := FileName(file);
    var _ := KnowledgeGraphIndexer.Index(disk, indexName, documents, build, insert, persist);
    var vector := VectorStoreIndexer.Index(stores, fileName, indexName, documents, uuid, split, summarize, ask, backend);
    if vector.Err? {
      return Err(vector.error);
    }
    r := Ok(true);
  }
}
