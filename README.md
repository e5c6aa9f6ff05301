# Cortex core in Dafny

Cortex is a document question-answering and chat service. This project models the
deterministic logic that sits between its LLM, vector-store and MongoDB calls, and proves
properties of that logic. Four parts are covered:

- **Indexing.** Documents are split on `"\n---\n"`. The multi-vector preprocessor tags
  chunks, summaries and hypothetical questions with their parent's id. A vector store and a
  docstore receive them, and a knowledge-graph index is loaded, extended and persisted.
- **Retrieval and reasoning.**
  - The sparse retriever filters by score (0.45), batches by ten and de-duplicates by node
    id.
  - The vector retriever filters by score (0.7), groups by `doc_id` and attaches sub-docs
    to their parents.
  - The graph retriever truncates to five nodes.
  - The reasoning engine decomposes a query, retrieves per sub-query, composes one
    reasoning step per sub-query and asks for a final answer. The thinking composer numbers
    the steps from 1.
- **The conversation agent.** `decide_route` builds a message window and asks the router
  LLM. `route_tools` dispatches the first tool call (knowledge search or table operator) or
  stores the plain reply. Each path stores exactly one message.
- **Chat and memory.** `process_chat_message` stores the user's message, runs the agent on
  the conversation's thread, and applies the memory-consolidation trigger
  (`len(messages) - last_update_count > 2`). The observer builds the recall string and saves
  one recall memory. The Mongo-backed services work on an in-memory database.

**How the model is laid out:**
- There is one Dafny module per source file.
- The three Mongo collections are the fields of the class `Store.Db`. Each is a sequence
  in insertion order.
- Object ids are a natural-number counter in `Db.nextId`.
- LLMs, embeddings, vector searches and the document parser are function-valued
  parameters that return `Result`, so an exception they raise propagates as `Err`.
- The text splitter, the tokenizer, uuids and the clock are parameters that cannot fail,
  so their exceptions are not modelled.
- Python exceptions raised by the code itself are `Error` values: `KeyError`,
  `TypeError`, `AttributeError` and so on.

**Modules:**
- Helper modules:
  - `Wrappers`: `Result`, `Option` and the error values.
  - `Text`: Python `str.split`, `str.join` and `str.strip`.
  - `Decimal`: the text form of an id.
  - `ODicts`: insertion-ordered dictionaries, as Python's are.
  - `PyRepr`: `str()` of a list of dicts, with each string shown as `repr` shows it.
  - `Seqs`: filter, flatten and take.
  - `Docs` and `ChatMessages`: the document and chat-message records.
- Source modules:
  - `BasicPreprocessor`, `MultiVectorLangchain`, `VectorStoreIndexer`,
    `KnowledgeGraphIndexer` and `Indexer`;
  - `SparseRetriever`, `VectorRetriever`, `KnowledgeGraphRetriever`, `QueryEngine`,
    `ReasoningEngine`, `ThinkingComposer` and `ReasoningClasses`;
  - `Brain`, `Tools`, `Observer`, `MemoryFunctions` and `CortexUtils`;
  - `Models`, `Store`, `ConversationService`, `MemoryService` and `DocumentService`;
  - `Chat`.

Where the code has a defect, the model does what the code does. The five defects that stop
an operation outright are listed under "Findings". Each has an as-written member and a
corrected member, and the rest of the model builds on the corrected one. Other defects are
modelled as written and are not corrected:
- An unknown tool name leaves `tool_output` unbound.
- `output_table` is never persisted.
- The table tool passes the conversation record as `input_text`.
- The detailed memory search raises `KeyError` on records without a summary.
- `decide_route` duplicates the newest message when there are at most four.

## Model

| member | source | states |
|---|---|---|
| BasicPreprocessor.Chunks | app/core/builder/preprocessors/basic.py:9-15 | One sub-document per piece of `doc.text.split(separator)`, in order, each with the parent's metadata |
| BasicPreprocessor.SplitDocsBySeparator | app/core/builder/preprocessors/basic.py:4-20 | An empty document list gives `[]`. Otherwise an empty separator re-raises split's ValueError, and any other separator gives each document's chunks, document by document |
| BasicPreprocessor.SubDocsConcat | app/core/builder/preprocessors/basic.py:8-15 | The output is document-major: splitting `a + b` gives the sub-docs of `a` followed by those of `b` |
| BasicPreprocessor.SubDocsKeepMetadata | app/core/builder/preprocessors/basic.py:11-14 | Every sub-doc carries the metadata of a document it came from |
| BasicPreprocessor.ChunksRoundTrip | app/core/builder/preprocessors/basic.py:9 | Joining a document's chunks with the separator gives its text back |
| BasicPreprocessor.ChunkCount | app/core/builder/preprocessors/basic.py:9 | A text with n separator occurrences gives n + 1 chunks; a text without one gives the document itself |
| BasicPreprocessor.SplitDocsAsWritten | app/core/builder/preprocessors/basic.py:11-20 | As written, the function succeeds exactly when there are no documents (`Document` and `logger` are unbound) |
| BasicPreprocessor.AsWrittenLosesChunks | app/core/builder/preprocessors/basic.py:11-20 | A one-document input: the as-written function fails while the corrected one gives its two chunks |
| Text.JoinSplit | app/core/builder/preprocessors/basic.py:9 | `sep.join(s.split(sep)) == s` for every non-empty separator |
| Text.SplitPiecesAreSeparatorFree | app/core/builder/preprocessors/basic.py:9 | No piece of a split contains the separator |
| Text.SplitCount | app/core/builder/preprocessors/basic.py:9 | A split has one piece more than the separator's non-overlapping occurrences |
| Text.SplitSingle | app/core/builder/preprocessors/basic.py:9 | A split gives `[s]` exactly when the separator does not occur, and at least two pieces otherwise |
| PyRepr.Escaped | app/cortex/brain.py:68 | `repr` writes a character either as itself or as an escape of two to four characters |
| PyRepr.DecodeEscaped | app/cortex/brain.py:68 | Reading back one written character, whatever follows, gives that character first |
| PyRepr.DecodeBody | app/cortex/brain.py:68 | The written characters of a string, between either quote, read back as the string |
| PyRepr.UnquoteQuote | app/cortex/brain.py:68 | Every string `repr` writes in a table cell reads back as that string. `repr` picks its quote and escapes the quote, backslashes and control characters |
| PyRepr.PlainQuoted | app/cortex/brain.py:68 | Printable ASCII without quotes or backslashes is shown between single quotes, unchanged |
| PyRepr.DoubleQuoted | app/cortex/brain.py:68 | A printable ASCII string with an apostrophe but no double quote or backslash, such as `O'Neil`, is shown between double quotes, unchanged |
| PyRepr.DictOfOne | app/cortex/brain.py:68 | A one-entry dict is shown as its quoted key and quoted value, separated by `: `, between braces |
| MultiVectorLangchain.FirstUnknown | app/core/builder/preprocessors/multivector_langchain.py:9 | The first keyword that `__init__` does not accept, or none when all are accepted |
| MultiVectorLangchain.BindKeywords | app/core/builder/preprocessors/multivector_langchain.py:9-14 | The constructor binds exactly when the keywords are precisely its five parameters |
| MultiVectorLangchain.Convert | app/core/builder/preprocessors/multivector_langchain.py:16-22 | One document per input, with `page_content = doc.text` and metadata `{"source": filepath}` |
| MultiVectorLangchain.Tag | app/core/builder/preprocessors/multivector_langchain.py:31-32 | Every chunk keeps its content and gets `metadata[id_key] = id`, all other metadata unchanged |
| MultiVectorLangchain.ChunksOf | app/core/builder/preprocessors/multivector_langchain.py:28-33 | Entry i is the split of document i, tagged with `doc_ids[i]` |
| MultiVectorLangchain.SplitIntoSmallerChunks | app/core/builder/preprocessors/multivector_langchain.py:24-34 | The chunks are the tagged splits flattened in document order; more documents than ids is an IndexError |
| MultiVectorLangchain.ChunksTagged | app/core/builder/preprocessors/multivector_langchain.py:28-33 | Every chunk is tagged with one of the document ids |
| MultiVectorLangchain.GenerateSummaries | app/core/builder/preprocessors/multivector_langchain.py:36-49 | One summary per document, and summary i holds only `{id_key: doc_ids[i]}`. It succeeds whenever every summary call does and there are enough ids |
| MultiVectorLangchain.QuestionDocs | app/core/builder/preprocessors/multivector_langchain.py:69 | One document per question, in order, tagged only with the given id |
| MultiVectorLangchain.QuestionPieces | app/core/builder/preprocessors/multivector_langchain.py:67-70 | Entry i holds as many documents as document i has questions; with an id, they are its questions tagged with `doc_ids[i]` |
| MultiVectorLangchain.QuestionsTagged | app/core/builder/preprocessors/multivector_langchain.py:65-72 | When every document with questions has an id, every flattened question is tagged with one of the document ids |
| MultiVectorLangchain.GenerateHypotheticalQuestions | app/core/builder/preprocessors/multivector_langchain.py:51-72 | The loop computes exactly the question list of the specification function: the flattened tagged questions, or IndexError when a document past the ids has a question |
| MultiVectorLangchain.QuestionlessDocumentNeedsNoId | app/core/builder/preprocessors/multivector_langchain.py:67-70 | A document without an id but with no questions reads no id: one id, two documents, questions `["q"]` and `[]` give the single tagged question |
| MultiVectorLangchain.ProcessDocuments | app/core/builder/preprocessors/multivector_langchain.py:74-80 | The method computes `(chunks, summaries, questions)` from the converted documents, as the specification function does |
| MultiVectorLangchain.ProcessTagged | app/core/builder/preprocessors/multivector_langchain.py:74-80 | Every chunk, summary and question produced is tagged with one of the document ids |
| VectorStoreIndexer.DocIds | app/core/builder/indexer/vector_store_indexer.py:23 | Exactly one id per input document, in order: the i-th call of the generator names document i |
| VectorStoreIndexer.PutAll | app/core/builder/indexer/vector_store_indexer.py:47-48 | `mset` adds exactly the given keys and leaves every other entry unchanged |
| VectorStoreIndexer.PutAllDistinct | app/core/builder/indexer/vector_store_indexer.py:47-48 | With distinct keys, key i maps to value i |
| VectorStoreIndexer.Indexing | app/core/builder/indexer/vector_store_indexer.py:18-55 | What indexing leaves: a processing, connection or embedding error is the outcome; otherwise the index's vectors gain chunks, then summaries, then questions, and its docstore maps `doc_ids[i]` to converted document i |
| VectorStoreIndexer.IndexingFrame | app/core/builder/indexer/vector_store_indexer.py:41-48 | Indexing touches only the named index: other indexes are unchanged, the old vectors stay a prefix, and docstore entries under ids not regenerated are kept |
| VectorStoreIndexer.Index | app/core/builder/indexer/vector_store_indexer.py:18-55 | Any error (processing, connecting to the index, embedding) is re-raised with both stores unchanged. Otherwise both stores become what `Indexing` says |
| VectorStoreIndexer.IndexedVectorsResolve | app/core/builder/indexer/vector_store_indexer.py:35-48 | Every vector added carries, under "doc_id", an id that is a key of the docstore after `mset` |
| VectorStoreIndexer.ParentsStored | app/core/builder/indexer/vector_store_indexer.py:23-48 | With pairwise distinct uuids, the docstore holds under the i-th uuid the i-th document converted, with its text and `{"source": file_name}` |
| VectorStoreIndexer.TaggedFindParent | app/core/builder/indexer/vector_store_indexer.py:47-48 | A document tagged with one of pairwise distinct keys finds, under its tag, the value `mset` stored for that key |
| VectorStoreIndexer.IndexedVectorsFindParent | app/core/builder/indexer/vector_store_indexer.py:23-48 | With pairwise distinct uuids, every chunk, summary and question added carries the id of some document i, and the docstore holds document i's converted form under that id; summary i carries exactly the i-th id |
| VectorStoreIndexer.IndexAsWritten | app/core/builder/indexer/vector_store_indexer.py:26-32 | As written, indexing always fails with the constructor's TypeError |
| VectorStoreIndexer.KeywordsAsWrittenRefused | app/core/builder/indexer/vector_store_indexer.py:26-32 | The keywords as written are refused with a TypeError naming `file_name` |
| VectorStoreIndexer.KeywordsCorrectedBind | app/core/builder/indexer/vector_store_indexer.py:26-32 | The corrected keywords, `filepath` and `gemini_llm` in place of `file_name` and `model`, bind |
| KnowledgeGraphIndexer.GetIndexFromStorage | app/core/builder/indexer/knowledge_graph_indexer.py:38-44 | An index is returned exactly when a readable one was persisted under `("knowledge_graph", name)`, and it is that index; a missing or unreadable folder (the `load_index` exception) gives none, standing for `False` |
| KnowledgeGraphIndexer.Saved | app/core/builder/indexer/knowledge_graph_indexer.py:21-36 | The folders after indexing: the loaded index with the sub-docs inserted, or a new one built from them, written under the name; an error from building, inserting or `persist_index` is an error |
| KnowledgeGraphIndexer.SavedLoads | app/core/storage/disk_store.py:13-32 | After a successful save, loading the name gives back the index just built or extended, and every other folder is unchanged |
| KnowledgeGraphIndexer.UnreadableRebuilt | app/core/builder/indexer/knowledge_graph_indexer.py:23-30 | An unreadable stored index is treated as missing: a new index is built from the sub-docs, and a successful save makes the folder readable |
| KnowledgeGraphIndexer.Index | app/core/builder/indexer/knowledge_graph_indexer.py:21-36 | The method returns True exactly when loading-or-creating, inserting and `persist_index` succeed, and the folders then are `Saved`'s; on any failure it returns False and the folders are unchanged |
| Indexer.FileName | app/core/builder/index.py:13 | `file.filename` if present, else `file.name` |
| Indexer.Index | app/core/builder/index.py:11-17 | A parse error is re-raised with nothing indexed. Otherwise graph indexing runs first and its result is ignored, then vector indexing runs: its error propagates with the vector stores unchanged, and on success they become what `VectorStoreIndexer.Indexing` says for the parsed documents and True is returned |
| SparseRetriever.FilterByScore | app/core/reasoner/retrievers/sparse_retriever.py:65-68 | Exactly the candidates with `score >= threshold` survive; a `None` score makes the comparison raise |
| SparseRetriever.FilterByScoreConcat | app/core/reasoner/retrievers/sparse_retriever.py:63-68 | Filtering vector hits followed by keyword hits keeps that order: it is the filter of each part, concatenated |
| SparseRetriever.Batches | app/core/reasoner/retrievers/sparse_retriever.py:71-74 | Every batch is non-empty and of at most the batch size; there are no batches exactly when there are no survivors |
| SparseRetriever.BatchesFlatten | app/core/reasoner/retrievers/sparse_retriever.py:71-74 | The batches concatenate to the filtered list |
| SparseRetriever.FirstWins | app/core/reasoner/retrievers/sparse_retriever.py:94-103 | The result is a well-formed insertion-ordered dict |
| SparseRetriever.ProcessBatch | app/core/reasoner/retrievers/sparse_retriever.py:94-103 | The loop builds exactly the first-wins dict of the batch |
| SparseRetriever.FirstWinsKeys | app/core/reasoner/retrievers/sparse_retriever.py:97-100 | The keys are the readable node ids, de-duplicated in first-seen order |
| SparseRetriever.FirstWinsValue | app/core/reasoner/retrievers/sparse_retriever.py:99-100 | The first readable node with an id supplies that id's text |
| SparseRetriever.FirstWinsAbsent | app/core/reasoner/retrievers/sparse_retriever.py:98-102 | An id no readable node has is not a key; unreadable nodes are skipped |
| SparseRetriever.MapFirstWins | app/core/reasoner/retrievers/sparse_retriever.py:76-79 | One first-wins dict per batch, in batch order |
| SparseRetriever.Merge | app/core/reasoner/retrievers/sparse_retriever.py:81-83 | Folding the dicts with `update` gives a well-formed dict |
| SparseRetriever.MergeKeys | app/core/reasoner/retrievers/sparse_retriever.py:81-88 | The returned ids are all readable ids across batches, distinct, in first-seen order |
| SparseRetriever.MergeValue | app/core/reasoner/retrievers/sparse_retriever.py:81-83 | An id's text comes from the last batch that holds it |
| SparseRetriever.MergeBatches | app/core/reasoner/retrievers/sparse_retriever.py:76-83 | Processing every batch and folding the dicts with `update` gives the merged first-wins dicts of the batches, in batch order |
| SparseRetriever.Retrieve | app/core/reasoner/retrievers/sparse_retriever.py:51-92 | The method computes the specification's `(ids, combined_text)` and re-raises retrieval errors |
| SparseRetriever.RetrievalShape | app/core/reasoner/retrievers/sparse_retriever.py:57-88 | The returned ids are the distinct readable ids of the filtered candidates, first occurrence winning, and the text is the kept text of each, in the same order, joined by single spaces |
| SparseRetriever.NonBlankTexts | app/core/reasoner/retrievers/sparse_retriever.py:107-110 | Exactly the present texts that are non-blank after `strip()`, with Python's full `isspace` set |
| SparseRetriever.ProcessNodesAllBlank | app/core/reasoner/retrievers/sparse_retriever.py:105-110 | Nodes whose texts are all missing or blank join to `""` |
| Text.StripEmptyIffBlank | app/core/reasoner/retrievers/sparse_retriever.py:109 | `s.strip()` is empty exactly when every character of `s` is whitespace in Python's sense (ASCII controls `\t`-`\r` and `\x1c`-`\x1f`, space, `\x85`, `\xa0` and the Unicode spaces and separators) |
| VectorRetriever.Kept | app/core/reasoner/retrievers/vector_retriever.py:36-41 | The kept pairs are never more than the search results |
| VectorRetriever.KeptSound | app/core/reasoner/retrievers/vector_retriever.py:36-41 | Every kept chunk comes from a result with `score >= threshold` and a truthy `doc_id`, and has `metadata["score"]` set to that score |
| VectorRetriever.KeptComplete | app/core/reasoner/retrievers/vector_retriever.py:36-41 | Every result with `score >= threshold` and a truthy `doc_id` is kept |
| VectorRetriever.Group | app/core/reasoner/retrievers/vector_retriever.py:35-41 | Grouping gives a well-formed insertion-ordered dict |
| VectorRetriever.GroupKeys | app/core/reasoner/retrievers/vector_retriever.py:35-45 | Groups are keyed by `doc_id` in first-appearance order |
| VectorRetriever.GroupValues | app/core/reasoner/retrievers/vector_retriever.py:41 | A `doc_id` has a group exactly when some kept chunk has it, and its group is those chunks in input order |
| VectorRetriever.Parents | app/core/reasoner/retrievers/vector_retriever.py:44-49 | At most one parent per group |
| VectorRetriever.ParentsMembers | app/core/reasoner/retrievers/vector_retriever.py:44-49 | Each returned parent is a docstore entry carrying its group as `sub_docs`, and every group with a parent is returned |
| VectorRetriever.RetrieveWithThreshold | app/core/reasoner/retrievers/vector_retriever.py:22-55 | The loops compute the parents of the groups of kept chunks |
| VectorRetriever.GroupHits | app/core/reasoner/retrievers/vector_retriever.py:34-41 | The first loop builds exactly the grouping of the kept chunks by parent id |
| VectorRetriever.CollectParents | app/core/reasoner/retrievers/vector_retriever.py:44-49 | The second loop builds exactly the stored parents of the groups, in group order |
| VectorRetriever.RetrievedParents | app/core/reasoner/retrievers/vector_retriever.py:43-49 | A parent is returned exactly for each `doc_id` that has kept chunks and a docstore entry, with those chunks as `sub_docs` |
| VectorRetriever.ProcessSourceNodes | app/core/reasoner/retrievers/vector_retriever.py:80-97 | The loop joins, with single spaces, each node's `text`, else its `page_content`, skipping nodes with neither |
| VectorRetriever.NodeTextsConcat | app/core/reasoner/retrievers/vector_retriever.py:90-95 | The collected texts follow node order: the texts of a concatenation are the texts of each part, concatenated |
| VectorRetriever.NodeTextsOfDocs | app/core/reasoner/retrievers/vector_retriever.py:72 | The combined text of the returned parents holds exactly their page contents, in order |
| VectorRetriever.Retrieve | app/core/reasoner/retrievers/vector_retriever.py:57-78 | The method searches with `k = max_results` and returns only the combined text of the kept parents; search errors are re-raised |
| KnowledgeGraphRetriever.NodeTexts | app/core/reasoner/retrievers/knowledge_graph_retriever.py:31-38 | At most one text per node |
| KnowledgeGraphRetriever.NodeTextsMembers | app/core/reasoner/retrievers/knowledge_graph_retriever.py:31-38 | The texts are exactly those of the nodes that have one |
| KnowledgeGraphRetriever.NodeTextsAllPresent | app/core/reasoner/retrievers/knowledge_graph_retriever.py:31-38 | When every node has a text, text i is node i's text |
| KnowledgeGraphRetriever.ProcessSourceNodes | app/core/reasoner/retrievers/knowledge_graph_retriever.py:21-41 | The loop joins the node texts with single spaces |
| KnowledgeGraphRetriever.Retrieval | app/core/reasoner/retrievers/knowledge_graph_retriever.py:43-74 | A missing index fails on `property_graph_store`, and a search error is re-raised. Otherwise the result is the text of the first `max_results` nodes |
| KnowledgeGraphRetriever.Retrieve | app/core/reasoner/retrievers/knowledge_graph_retriever.py:43-74 | The method computes the specification's retrieval |
| QueryEngine.SubQueryResults | app/core/reasoner/query_engine.py:71-81 | One result per sub-query, in order, with the sub-query verbatim and its graph hint. The call succeeds exactly when every hint call does, and otherwise fails with one hint call's error |
| QueryEngine.ProcessSubqueries | app/core/reasoner/query_engine.py:71-81 | The loop computes the specification's results |
| QueryEngine.SubQueryResultsPrefix | app/core/reasoner/query_engine.py:76-79 | The first failing hint call decides the error: later sub-queries cannot change it |
| QueryEngine.ProcessQuery | app/core/reasoner/query_engine.py:83-88 | The decomposer's sub-queries are passed through unchanged; its error is re-raised |
| ReasoningEngine.ContextsOk | app/core/reasoner/resoning_engine.py:35-49 | A successful retrieval holds one context per sub-query, in order, each the sub-query's own retrieval |
| ReasoningEngine.ContextsError | app/core/reasoner/resoning_engine.py:36-46 | A failure is the first failing sub-query's error, all earlier ones having succeeded |
| ReasoningEngine.SendSubqueriesToRetrievers | app/core/reasoner/resoning_engine.py:30-49 | The loop computes the specification's contexts |
| ReasoningEngine.RetrieveContext | app/core/reasoner/resoning_engine.py:38-46 | One loop step: the vector then the graph retrieval of the sub-query, packed as its context; the first failure is re-raised |
| ReasoningEngine.ContextsPrefix | app/core/reasoner/resoning_engine.py:36-46 | A failure in a prefix is the failure of the whole list |
| ReasoningEngine.Steps | app/core/reasoner/resoning_engine.py:54-67 | One step per context, in order, with `query = subquery`, `properties = graph_query` and the composed context; a failure is one composition's error |
| ReasoningEngine.StepsPrefix | app/core/reasoner/resoning_engine.py:55-65 | A failure in a prefix is the failure of the whole list |
| ReasoningEngine.ComposeSubqueries | app/core/reasoner/resoning_engine.py:51-67 | The loop computes the specification's steps |
| ReasoningEngine.StepsFollowSubqueries | app/core/reasoner/resoning_engine.py:84-86 | Step N asks the Nth decomposed sub-query and carries its graph hint. Its context is composed from what the retrievers on the user's index found for it |
| ReasoningEngine.Reason | app/core/reasoner/resoning_engine.py:84-87 | The method computes the steps and the final answer of the reasoning pipeline |
| ReasoningEngine.StartReasoningAsWritten | app/core/reasoner/resoning_engine.py:75-91 | As written, `start_reasoning` always fails: with the pipeline's error, or else on the missing `get_table_from_output` |
| ReasoningEngine.StartReasoning | app/core/reasoner/resoning_engine.py:82-91 | `ThinkingOutput.reasoning` is exactly the composed steps, `final_answer` is the composed answer, and the table is derived from that answer |
| ThinkingComposer.Blocks | app/core/reasoner/composers/thinking_composer.py:44-51 | One block per step, and block i is numbered `first + i` |
| ThinkingComposer.BlocksConcat | app/core/reasoner/composers/thinking_composer.py:44-51 | Numbering continues across a concatenation of step lists |
| ThinkingComposer.BlockNumber | app/core/reasoner/composers/thinking_composer.py:45-50 | Two blocks with different numbers differ |
| ThinkingComposer.BlocksNumbered | app/core/reasoner/composers/thinking_composer.py:44-46 | Blocks numbered from 1 are pairwise distinct |
| ThinkingComposer.FormatReasoningSteps | app/core/reasoner/composers/thinking_composer.py:39-52 | The loop joins the blocks, numbered from 1, with `"\n"` |
| ThinkingComposer.ThinkingPromptFields | app/core/reasoner/composers/thinking_composer.py:54-62 | The prompt holds the original query and the formatted steps verbatim |
| ThinkingComposer.GenerateThinkingContext | app/core/reasoner/composers/thinking_composer.py:54-62 | The template filled with the query and the formatted steps |
| ThinkingComposer.Think | app/core/reasoner/composers/thinking_composer.py:74-90 | The content of exactly one model call on the thinking context |
| CortexUtils.GraphConfig | app/cortex/_utils.py:31-36 | The `GraphConfig` dict holds exactly `delay`, `model`, `thread_id` and `user_id`, in that order |
| CortexUtils.EnsureConfigurable | app/cortex/_utils.py:26-37 | A missing `thread_id` or `user_id` is a KeyError, in that order, and otherwise the result succeeds, is a well-formed dict and carries both ids unchanged |
| CortexUtils.EnsureConfigurableFields | app/cortex/_utils.py:26-37 | `delay` defaults to 60 and `model` to the settings' model, and the four fields join the keys in field order |
| CortexUtils.EnsureConfigurableKeeps | app/cortex/_utils.py:26-37 | The result has exactly the configured keys plus the four fields, and every other configured entry keeps its value |
| CortexUtils.EnsureConfigurableIdempotent | app/cortex/_utils.py:26-37 | Applying `ensure_configurable` to its own result changes nothing |
| ChatMessages.Arg | app/cortex/brain.py:119 | The value of a tool-call argument is present exactly when the key is |
| ChatMessages.TruncateShort | app/cortex/observer.py:124 | A conversation of at most 2048 tokens is not cut |
| MemoryFunctions.SearchMemory | app/cortex/memory_functions.py:25-57 | The query filters on the user and `type == "recall"`, and its error is re-raised. No match gives None in either mode. Otherwise brief mode gives one payload per match, in order, and detailed mode gives `[]`, or a KeyError on a record missing a field |
| MemoryFunctions.BriefPayloads | app/cortex/memory_functions.py:51 | The brief list has one payload per match, and payload i is match i's |
| MemoryFunctions.LoadMemories | app/cortex/memory_functions.py:59-84 | As evidently intended, calling `search_memory` directly: a configuration error is re-raised; otherwise the result is the search on the truncated conversation for the configured user, under the `recall_memories` key only |
| MemoryFunctions.LoadMemoriesAsWritten | app/cortex/memory_functions.py:69-81 | As written, loading always fails: a configuration error is re-raised, and otherwise `search_memory.invoke` raises AttributeError, since `search_memory` is a plain function |
| Observer.RecallRecord | app/cortex/observer.py:25-41 | The record's id and path are the user's and thread's insert path; its metadata holds the memory, `type = "recall"` and the user id |
| Observer.SaveOutcome | app/cortex/observer.py:22-47 | An embedding or upsert error is re-raised; otherwise exactly one recall record is upserted and the answer is True |
| Observer.SaveRecallMemory | app/cortex/observer.py:13-47 | The method computes the specification's outcome |
| Observer.ObserverAsWritten | app/cortex/observer.py:119-136 | As written: the truncated search, then `len(None)` fails when nothing is found; otherwise the builder runs, the recall memory is saved and the summary and title are returned |
| Observer.Observe | app/cortex/observer.py:119-136 | The corrected observer: no recall memory found is an empty list |
| Observer.FirstRecallMemory | app/cortex/observer.py:127-128 | For a user with no recall memory, the as-written observer fails while the corrected one saves and answers |
| Observer.ObservationAgrees | app/cortex/observer.py:127-136 | Whenever the search finds something, both versions agree |
| Models.ParseKind | app/data_layer/models/conversation.py:10 | Exactly the four literal message types parse; anything else fails validation |
| Models.NewMessage | app/data_layer/models/conversation.py:7-15 | A message is built exactly for the four types, with the given sender and content; the id and time come from the stamp, and the optional `reasoning` and `table` extras are carried as given |
| Models.NewConversation | app/data_layer/models/conversation.py:17-28 | No id, the given user and messages, both times now, no title, summary or highlight, an empty table and empty metadata |
| Models.ParseObjectId | app/data_layer/services/conversation_service.py:31 | Text that parses as an id is that id's text form |
| Models.ParseSerializedId | app/data_layer/models/conversation.py:30-32 | The text of an id parses back to the id |
| Models.SerializedNoneInvalid | app/data_layer/models/conversation.py:30-32 | The text of a missing id is not a valid id |
| Decimal.ParseShow | app/data_layer/models/conversation.py:30-32 | The text form of an id reads back as that id |
| Decimal.ShowInjective | app/data_layer/models/conversation.py:30-32 | Distinct ids have distinct text forms |
| Models.NewMemory | app/data_layer/models/memory.py:5-12 | A memory with no id, the given conversation, user and summary, an empty title and highlights, and count 0 |
| Store.Db.constructor | app/data_layer/services/conversation_service.py:14-17 | The collections start empty |
| Store.FindConversation | app/data_layer/services/conversation_service.py:73 | The first conversation with the id, or none has it |
| Store.FindMemory | app/data_layer/services/memory_service.py:26-27 | The first memory with the id, or none has it |
| Store.FindMemoryOf | app/data_layer/services/memory_service.py:40 | The first memory of the conversation, or none belongs to it |
| Store.FindMemoryItself | app/data_layer/services/memory_service.py:26-27 | With distinct ids, looking up a stored memory's id finds that memory |
| ConversationService.PushMessage | app/data_layer/services/conversation_service.py:33-34 | The message is appended at the end and `last_updated` is set; nothing else changes |
| ConversationService.Returned | app/data_layer/services/conversation_service.py:42-43 | The returned conversation carries the message's table when it has one; nothing else differs from the stored one |
| ConversationService.StoreOutcome | app/data_layer/services/conversation_service.py:20-57 | With an id: a malformed id fails and an unknown one is a ValueError, both storing nothing; otherwise the message is pushed onto that conversation only. Without an id: one new conversation holding the message is added under a fresh id |
| ConversationService.StoredAppends | app/data_layer/services/conversation_service.py:27-37 | Storing under a non-empty id adds no conversation and changes exactly one, by appending the message |
| ConversationService.StoreMessage | app/data_layer/services/conversation_service.py:20-57 | The method computes the specification's outcome and leaves memories and documents unchanged |
| ConversationService.OfUser | app/data_layer/services/conversation_service.py:63-64 | Exactly the conversations of the user |
| ConversationService.GetUserConversations | app/data_layer/services/conversation_service.py:59-66 | The stored conversations of the user, read without change |
| ConversationService.GetConversation | app/data_layer/services/conversation_service.py:68-79 | A malformed id fails, an absent id gives none (standing for `False`), and a present id gives its conversation |
| MemoryService.InsertMemory | app/data_layer/services/memory_service.py:17-33 | A new memory is appended with a fresh id. Otherwise the record with the memory's id is overwritten; with no such record, `Memory(**None)` is a TypeError and nothing changes |
| MemoryService.MemoryOf | app/data_layer/services/memory_service.py:40-46 | A stored memory of the conversation, and none exactly when the conversation has none |
| MemoryService.GetMemoryForConversation | app/data_layer/services/memory_service.py:35-46 | The method reads the conversation's memory |
| MemoryService.OfUser | app/data_layer/services/memory_service.py:52-53 | Exactly the memories of the user |
| MemoryService.GetUserMemories | app/data_layer/services/memory_service.py:48-55 | The stored memories of the user |
| DocumentService.InsertDocument | app/data_layer/services/document_service.py:20-26 | Exactly one record is appended, with the fresh id, and it is returned; nothing else changes |
| DocumentService.OfUser | app/data_layer/services/document_service.py:32-33 | Exactly the documents of the user |
| DocumentService.GetUserDocuments | app/data_layer/services/document_service.py:28-35 | The stored documents of the user, read without change |
| Tools.ToolArgs | app/cortex/tools.py:13-19 | Both tool arguments are present exactly when the call binds, and then they are their values |
| Tools.UpdateIn | app/cortex/tools.py:34-41 | A malformed thread id fails, and a missing conversation fails on `output_table`. Otherwise the update receives the conversation as input text, its output table and the instruction. The message is `("cortex", internal_knowledge, "**Updated table**")` with the new table |
| Tools.Prepare | app/cortex/tools.py:31-41 | Argument and configuration errors come first; otherwise the update runs on the configured thread and user |
| Tools.TableOperationAppends | app/cortex/tools.py:42-47 | A successful table operation stores its message exactly once, appended to the configured thread, and returns it |
| Tools.TableOperator | app/cortex/tools.py:19-47 | The method computes the specification's outcome and leaves memories and documents unchanged |
| Brain.Window | app/cortex/brain.py:91-93 | The window ends with the newest message. With five or more messages it is the first four plus the newest; with at most four, all of them plus the newest again |
| Brain.WindowOfFive | app/cortex/brain.py:91-93 | With exactly five messages the window is the whole list |
| Brain.Decide | app/cortex/brain.py:82-104 | A missing `thread_id` is a KeyError and an empty list an IndexError. Otherwise the window is kept, and the router's decision is appended as the last message when it succeeds |
| Brain.DecideRoute | app/cortex/brain.py:82-104 | The node updates the state's messages as `Decide` says and leaves `output` alone |
| Brain.FormatThoughtOutput | app/cortex/brain.py:62-69 | `"Answer: " + content`, followed by `"\nTable:\n"` and the table only when the table is non-empty |
| Brain.RemoveEmptyMessages | app/cortex/brain.py:79-80 | Exactly the messages with non-empty content |
| Brain.Thought | app/cortex/brain.py:45-54 | A reasoning error is re-raised. Otherwise the message is `internal_knowledge` from `cortex`, with the final answer, the steps and the table |
| Brain.KnowledgeSearchAppends | app/cortex/brain.py:55-60 | A successful search stores its message exactly once, appended to the configured thread |
| Brain.InternalKnowledgeSearch | app/cortex/brain.py:41-60 | The method computes the specification's outcome and leaves memories and documents unchanged |
| Brain.Reply | app/cortex/brain.py:142-146 | The reply is the `from_conversation` message from `cortex` holding the content |
| Brain.ToolOutcome | app/cortex/brain.py:118-131 | `KnowledgeSearch` and `TableOperator` dispatch to their tools; any other name leaves `tool_output` unbound |
| Brain.CallTool | app/cortex/brain.py:118-131 | The dispatch computes `ToolOutcome` and leaves memories and documents unchanged |
| Brain.ReplyOutcome | app/cortex/brain.py:140-152 | A missing `user_id`, then a missing `thread_id`, is a KeyError. Otherwise the reply is stored |
| Brain.RouteTools | app/cortex/brain.py:106-156 | With a tool call, the decision is popped and only the first call runs. Its formatted output is appended as one AI message and becomes `output`. Without one, the reply is stored once and becomes `output` |
| Brain.Run | app/cortex/brain.py:158-165 | The graph runs `decide` then `call_tool`, once each. A decide failure stops the run with the database unchanged. Otherwise a tool or store error is re-raised with the output unchanged, and success returns with the output and the messages as the taken path leaves them |
| Chat.LastThree | app/services/chat.py:57 | `messages[-3:]`: the last three messages, or all of them when there are fewer |
| Chat.MemoryPlan | app/services/chat.py:54-73 | An existing memory is consolidated from the last three messages exactly when more than two arrived since its count; the summary is replaced and the count grows by three. Without one, a memory is created from all messages exactly when there are more than two, starting at count three |
| Chat.MemoryPlanFields | app/services/chat.py:57-72 | An update keeps the record, conversation, user, title and highlights; a new memory has empty highlights and count three |
| Chat.UpdateMemory | app/services/chat.py:50-73 | At most one memory write, as the plan says: an insert under the fresh id, or an overwrite of the found record |
| Chat.PayloadMessage | app/services/chat.py:19-23 | A missing `sender`, `type` or `content` is a KeyError, in that order; otherwise the message is built |
| Chat.RunConfig | app/services/chat.py:33-38 | The configuration holds the user id and the conversation id's text as `thread_id` |
| Chat.Received | app/services/chat.py:19-31 | The user's message is stored before anything else. A named conversation keeps its id; without a name, the message opens a conversation under the fresh id |
| Brain.Checkpointed | app/cortex/brain.py:160-170 | The thread after a run is the thread before it plus the last message the nodes left; a run that left nothing leaves the thread as it was |
| Chat.TurnMemory | app/services/chat.py:50-73 | Each answered turn adds two messages to the thread, so a conversation's first turn writes no memory and, with two or more earlier messages and no memory yet, the memory step runs: a memory is planned or the observer's error is raised |
| Chat.ProcessChatMessage | app/services/chat.py:17-75 | An error in storing the user's message leaves every collection unchanged. A successful turn returns the conversation id's text and writes at most one memory |

## Left out

- LLM, embedding and vector-search calls and the document parser are parameters that return a `Result`. The text splitter (`RecursiveCharacterTextSplitter`), the tokenizer, `uuid4` and the clock are parameters that cannot fail, so their exceptions are not modelled. Prompt texts are modelled only as far as the code fills them in.
- VectorStoreIndexer.IndexedVectorsFindParent: that `uuid4` gives pairwise distinct ids is taken as a hypothesis, not proved. Without it, `VectorStoreIndexer.IndexedVectorsResolve` still holds: every vector names an id the docstore holds.
- Brain.FormatThoughtOutput: the table is a list of string-to-string dicts, so a non-string cell value (a number, `None`) is not modelled. `repr` escapes non-printable characters above U+00FF as `\u`/`\U`; the model writes them as they are, because Unicode's printable classes are not modelled.
- Brain.ToolOutcome: the tool-call arguments are string-to-string dicts, so non-string arguments are not modelled. Non-printable characters above U+00FF are written unescaped, as in `Brain.FormatThoughtOutput`.
- KnowledgeGraphIndexer.Index: a folder that a failed `persist` leaves partly written is not modelled. A failed persist leaves the folders as they were.
- Object ids are a natural-number counter, and their text form is decimal rather than 24 hexadecimal digits. `insert_memory` and `insert_document` store the id itself rather than its string.
- The SQLite checkpointer (app/cortex/brain.py:167-170) is not modelled: the thread's earlier messages are the `history` parameter of `Chat.ProcessChatMessage`. The nodes edit one message list directly, and the thread the `add_messages` reducer leaves is `Brain.Checkpointed`, which `Chat.ProcessChatMessage` passes to the memory step.
- VectorStoreIndexer.Index: the docstore write cannot fail in the model. The docstore is a `LocalFileStore` (app/core/common/multivector_retriever.py:36), and the file system is abstracted to a map, so an `OSError` from `mset`, raised after the vectors were added, is not modelled. Connecting to the vector index and embedding can fail, through the `VectorBackend` parameter.
- Thread-pool and `chain.batch` concurrency are not modelled: each order-preserving parallel map is a sequential loop.
- `query_index` and `stream_response` (streaming generators) are not modelled.
- The construction of retrievers, indexes and storage adapters is not modelled: Pinecone, the disk store and the multi-vector retriever builder are maps and parameters.
- HTTP routes and app wiring are not modelled, including `Chat.process_chat_payload` and `process_get_all_conversations`. Settings, logging and the `_constants` keys are left out: the insert path of a recall memory is a parameter.
- The prompt wrapper `composer.py` and the table LLM in `table_operator.py` are parameters. `compose_table` is a `tableOf` parameter in the corrected `start_reasoning`.
- Logging is left out, including the `thread_id` lookup that `route_tools` logs at its end (app/cortex/brain.py:154).
- Chat.ProcessChatMessage: in the successful case its contract states the returned id and the bound on memory writes only. What the agent and the memory step do is stated by `Brain.Run` and `Chat.UpdateMemory`, and is not restated here.
- The thread id in the agent's configuration is the conversation id's text. The source passes an `ObjectId`, which the services convert with `ObjectId(...)`, so the behaviour is the same.
- A payload whose `conversation_id` is explicitly `None` is not modelled: the payload is a map from field to text, and an absent field stands for `None`.
- Non-string `doc_id` values in vector metadata are not modelled: `doc_id` is text, and the empty text stands for a falsy value.
- The vector retriever's `doc.metadata` mutations are modelled on values. The parent returned carries `score` and `sub_docs`, but aliasing between the search results and the docstore's documents is not modelled.

## Findings

| source | as written | input that shows it | evidently intended | confidence | as-written member | corrected member |
|---|---|---|---|---|---|---|
| app/core/builder/preprocessors/basic.py:11-20 | `Document` and `logger` are used but never imported, so any document raises NameError and the handler raises another | one document with text `"a\n---\nb"` | return its two chunks `"a"` and `"b"` with the document's metadata | high, not executed | BasicPreprocessor.AsWrittenLosesChunks | BasicPreprocessor.SplitDocsBySeparator |
| app/core/builder/indexer/vector_store_indexer.py:26-32 | `MultiVectorLangchain` is built with `file_name` and `model`, but its `__init__` takes `filepath` and `gemini_llm`, so indexing always raises TypeError | any file name, index name and documents | build the preprocessor with `filepath` and `gemini_llm` and index its output | high, not executed | VectorStoreIndexer.KeywordsAsWrittenRefused | VectorStoreIndexer.Index |
| app/cortex/observer.py:127-128 | `search_memory` returns `None` when nothing matches, so `len(recall_memories)` raises TypeError and no first recall memory is ever saved | a user with no recall memories | treat no match as an empty list and save the new recall memory | high, not executed | Observer.FirstRecallMemory | Observer.Observe |
| app/core/reasoner/resoning_engine.py:75-91 | `compose_table` calls `Composer.get_table_from_output`, which does not exist, so every reasoning run raises AttributeError | any query whose reasoning succeeds | derive the table from the final answer | high, not executed | ReasoningEngine.StartReasoningAsWritten | ReasoningEngine.StartReasoning |
| app/cortex/memory_functions.py:78 | `search_memory` is a plain function (the `tool` decorator is imported but not applied), so `search_memory.invoke` raises AttributeError and loading memories always fails | any configuration holding `thread_id` and `user_id` | call `search_memory(user_id, convo_str)` and return its result under `recall_memories` | high, not executed | MemoryFunctions.LoadMemoriesAsWritten | MemoryFunctions.LoadMemories |
