/** The document objects that flow through indexing and retrieval. */
module Docs {
  import opened Wrappers

  /** A parsed document (llama_index `Document`): its text and metadata. */
  datatype ParsedDoc = ParsedDoc(text: string, metadata: map<string, string>)

  /** A value in a LangChain document's metadata. Retrieval stores a similarity score
      and the list of matching child documents next to the string entries. */
  datatype MetaValue = Str(s: string) | Score(score: real) | SubDocs(docs: seq<LcDoc>)

  /** A LangChain `Document`: `page_content` and `metadata`. */
  datatype LcDoc = LcDoc(pageContent: string, metadata: map<string, MetaValue>)

  /** A retrieved node as the text-combining helpers see it: its `text` attribute and
      its `page_content` attribute, each `None` when the object has no such attribute. */
  datatype SourceNode = SourceNode(text: Option<string>, pageContent: Option<string>)

  /** A LangChain document has `page_content` and no `text`. */
  function AsSourceNode(d: LcDoc): SourceNode
  {
    SourceNode(None, Some(d.pageContent))
  }

  /** The key under which chunks, summaries and questions name their parent document. */
  const IdKey := "doc_id"
}
