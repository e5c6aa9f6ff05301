/** KnowledgeGraphIndexer (app/core/builder/indexer/knowledge_graph_indexer.py):
    load the project's property-graph index from disk, insert the sub-documents into
    it or build a new one from them, and persist the result; every failure becomes
    `False`. Building and inserting (LLM path extraction) and writing the folder are
    parameters. */
module KnowledgeGraphIndexer {
  import opened Wrappers
  import opened Docs
  import BasicPreprocessor

  /** The storage folder graph indexes are persisted under. */
  const IndexSource := "knowledge_graph"

  /** A property-graph index, seen through the documents it was built from. */
  datatype GraphIndex = GraphIndex(docs: seq<ParsedDoc>)

  /** What a storage folder holds: an index `load_index` can read back, or one it
      cannot (a corrupt or incompatible folder), on which it raises. */
  datatype Stored = Readable(index: GraphIndex) | Unreadable

  /** Persisted indexes by (indexing source, index name), i.e. by folder. */
  class DiskStore {
    var persisted: map<(string, string), Stored>

    constructor ()
      ensures persisted == map[]
    {
      persisted := map[];
    }
  }

  /** What `get_index_from_storage` finds: the index of a readable folder, or `None`
      for the `False` returned when the folder is missing or `load_index` raises. */
  function Loaded(persisted: map<(string, string), Stored>, indexName: string): Option<GraphIndex>
  {
    var key := (IndexSource, indexName);
    if key in persisted && persisted[key].Readable? then Some(persisted[key].index) else None
  }

  /** `get_index_from_storage(index_name)`. */
  method GetIndexFromStorage(disk: DiskStore, indexName: string) returns (r: Option<GraphIndex>)
    ensures r.Some? <==> (IndexSource, indexName) in disk.persisted && disk.persisted[(IndexSource, indexName)].Readable?
    ensures r.Some? ==> r.value == disk.persisted[(IndexSource, indexName)].index
  {
    var key := (IndexSource, indexName);
    if key in disk.persisted && disk.persisted[key].Readable? {
      r := Some(disk.persisted[key].index);
    } else {
      r := None;
    }
  }

  /** The index `index` ends up with: the loaded one with the sub-documents inserted,
      or a new one built from them when nothing could be loaded. */
  function Outcome(persisted: map<(string, string), Stored>, indexName: string, documents: seq<ParsedDoc>,
                   build: seq<ParsedDoc> -> Result<GraphIndex>,
                   insert: (GraphIndex, seq<ParsedDoc>) -> Result<GraphIndex>): Result<GraphIndex>
  {
    var subDocs := BasicPreprocessor.SubDocsOf(documents, BasicPreprocessor.DefaultSeparator);
    match Loaded(persisted, indexName)
    case Some(loaded) => insert(loaded, subDocs)
    case None => build(subDocs)
  }

  /** The folders after `index`: the outcome persisted under ("knowledge_graph",
      index_name), or the error of building, inserting or persisting. */
  function Saved(persisted: map<(string, string), Stored>, indexName: string, documents: seq<ParsedDoc>,
                 build: seq<ParsedDoc> -> Result<GraphIndex>,
                 insert: (GraphIndex, seq<ParsedDoc>) -> Result<GraphIndex>,
                 persist: (string, GraphIndex) -> Result<()>): Result<map<(string, string), Stored>>
  {
    var index :- Outcome(persisted, indexName, documents, build, insert);
    var _ :- persist(indexName, index);
    Ok(persisted[(IndexSource, indexName) := Readable(index)])
  }

  /** After a successful save the index loads back as the outcome, and every other
      folder is as it was. */
  lemma SavedLoads(persisted: map<(string, string), Stored>, indexName: string, documents: seq<ParsedDoc>,
                   build: seq<ParsedDoc> -> Result<GraphIndex>,
                   insert: (GraphIndex, seq<ParsedDoc>) -> Result<GraphIndex>,
                   persist: (string, GraphIndex) -> Result<()>)
    requires Saved(persisted, indexName, documents, build, insert, persist).Ok?
    ensures var after := Saved(persisted, indexName, documents, build, insert, persist).value;
            && Outcome(persisted, indexName, documents, build, insert).Ok?
            && Loaded(after, indexName) == Some(Outcome(persisted, indexName, documents, build, insert).value)
            && forall key :: key != (IndexSource, indexName) ==>
                 (key in after <==> key in persisted) && (key in persisted ==> after[key] == persisted[key])
  {
  }

  /** A folder that cannot be loaded is treated as absent: a new index is built from
      the sub-documents, and a successful save replaces the folder with a readable one. */
  lemma UnreadableRebuilt(persisted: map<(string, string), Stored>, indexName: string, documents: seq<ParsedDoc>,
                          build: seq<ParsedDoc> -> Result<GraphIndex>,
                          insert: (GraphIndex, seq<ParsedDoc>) -> Result<GraphIndex>,
                          persist: (string, GraphIndex) -> Result<()>)
    requires (IndexSource, indexName) in persisted && persisted[(IndexSource, indexName)] == Unreadable
    ensures Outcome(persisted, indexName, documents, build, insert)
            == build(BasicPreprocessor.SubDocsOf(documents, BasicPreprocessor.DefaultSeparator))
    ensures Saved(persisted, indexName, documents, build, insert, persist).Ok? ==>
              Saved(persisted, indexName, documents, build, insert, persist).value[(IndexSource, indexName)].Readable?
  {
  }

  /** `index(index_name, documents)`: True after persisting under
      ("knowledge_graph", index_name); False, with the folders unchanged, when
      building, inserting or persisting raises. */
  method Index(disk: DiskStore, indexName: string, documents: seq<ParsedDoc>,
               build: seq<ParsedDoc> -> Result<GraphIndex>,
               insert: (GraphIndex, seq<ParsedDoc>) -> Result<GraphIndex>,
               persist: (string, GraphIndex) -> Result<()>)
    returns (ok: bool)
    modifies disk
    ensures var saved := Saved(old(disk.persisted), indexName, documents, build, insert, persist);
            && (ok <==> saved.Ok?)
            && (ok ==> disk.persisted == saved.value)
            && (!ok ==> disk.persisted == old(disk.persisted))
  {
    var loaded := GetIndexFromStorage(disk, indexName);
    var split := BasicPreprocessor.SplitDocsBySeparator(documents);
    if split.Err? {
      return false;
    }
    var subDocs := split.value;
    var index: Result<GraphIndex>;
    if loaded.Some? {
      index := insert(loaded.value, subDocs);
    } else {
      index := build(subDocs);
    }
    if index.Err? {
      return false;
    }
    var written := persist(indexName, index.value);
    if written.Err? {
      return false;
    }
    disk.persisted := disk.persisted[(IndexSource, indexName) := Readable(index.value)];
    ok := true;
  }
}
