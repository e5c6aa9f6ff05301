/** MultiVectorLangchain (app/core/builder/preprocessors/multivector_langchain.py):
    turns parsed documents into LangChain documents and derives the three kinds of
    vectors (chunks, summaries, hypothetical questions), each tagged with the id of
    the document it came from. The text splitter and the two LLM chains are
    parameters. */
module MultiVectorLangchain {
  import opened Wrappers
  import opened Docs
  import Seqs

  /** The keyword parameters `__init__` accepts, all required. */
  const InitParams: seq<string> := ["documents", "doc_ids", "filepath", "gemini_llm", "id_key"]

  /** Chunk size the recursive character splitter is built with. */
  const ChunkSize := 400

  /** The first keyword, in call order, that `__init__` does not accept. */
  function FirstUnknown(keywords: seq<string>): (r: Option<string>)
    ensures r.Some? ==> r.value in keywords && r.value !in InitParams
    ensures r.None? ==> forall k :: k in keywords ==> k in InitParams
    decreases |keywords|
  {
    if |keywords| == 0 then None
    else if keywords[0] !in InitParams then Some(keywords[0])
    else FirstUnknown(keywords[1..])
  }

  /** The TypeError message for an unknown keyword `k`. */
  function UnexpectedKeyword(k: string): string
  {
    "__init__() got an unexpected keyword argument '" + k + "'"
  }

  /** Python's binding of keyword arguments to `__init__`: an unknown keyword is a
      TypeError naming it, and so is a required parameter left without a value. */
  function BindKeywords(keywords: seq<string>): (r: Result<()>)
    ensures r.Ok? <==> (forall k :: k in keywords ==> k in InitParams) && (forall p :: p in InitParams ==> p in keywords)
  {
    match FirstUnknown(keywords)
    case Some(k) => Err(TypeError(UnexpectedKeyword(k)))
    case None =>
      if exists p :: p in InitParams && p !in keywords then Err(TypeError("__init__() missing a required argument"))
      else Ok(())
  }

  /** `d.metadata[idKey]` is one of `ids`. */
  predicate TaggedWithOneOf(d: LcDoc, idKey: string, ids: seq<string>)
  {
    idKey in d.metadata && d.metadata[idKey].Str? && d.metadata[idKey].s in ids
  }

  /** The processor's state as `__init__` stores it; the LLM is passed to the chains. */
  datatype Processor = Processor(documents: seq<ParsedDoc>, docIds: seq<string>, filepath: string, idKey: string)

  /** `convert_to_langchain_docs`: one document per input, its text as page content and
      the file path as its only metadata. */
  function Convert(p: Processor): (r: seq<LcDoc>)
    ensures |r| == |p.documents|
    ensures forall i :: 0 <= i < |r| ==> r[i] == LcDoc(p.documents[i].text, map["source" := Str(p.filepath)])
  {
    seq(|p.documents|, i requires 0 <= i < |p.documents| => LcDoc(p.documents[i].text, map["source" := Str(p.filepath)]))
  }

  /** Documents `ds` with `metadata[idKey] = id` set on each. */
  function Tag(ds: seq<LcDoc>, idKey: string, id: string): (r: seq<LcDoc>)
    ensures |r| == |ds|
    ensures forall i :: 0 <= i < |r| ==> r[i] == ds[i].(metadata := ds[i].metadata[idKey := Str(id)])
  {
    seq(|ds|, i requires 0 <= i < |ds| => ds[i].(metadata := ds[i].metadata[idKey := Str(id)]))
  }

  /** The chunks of the first `n` documents, tagged, document by document. */
  function ChunksOf(p: Processor, lcDocs: seq<LcDoc>, split: (LcDoc, nat) -> seq<LcDoc>, n: nat): (r: seq<seq<LcDoc>>)
    requires n <= |lcDocs| && n <= |p.docIds|
    ensures |r| == n
    ensures forall i :: 0 <= i < n ==> r[i] == Tag(split(lcDocs[i], ChunkSize), p.idKey, p.docIds[i])
  {
    seq(n, i requires 0 <= i < n => Tag(split(lcDocs[i], ChunkSize), p.idKey, p.docIds[i]))
  }

  /** `split_into_smaller_chunks`: each document is split on its own, every piece gets
      the document's id under `id_key`, and the pieces are appended in document order.
      A document without an id is an IndexError. */
  method SplitIntoSmallerChunks(p: Processor, lcDocs: seq<LcDoc>, split: (LcDoc, nat) -> seq<LcDoc>)
    returns (r: Result<seq<LcDoc>>)
    ensures |lcDocs| <= |p.docIds| ==> r == Ok(Seqs.Flatten(ChunksOf(p, lcDocs, split, |lcDocs|)))
    ensures |lcDocs| > |p.docIds| ==> r == Err(IndexError)
  {
    var documentChunks: seq<LcDoc> := [];
    for i := 0 to |lcDocs|
      invariant i <= |p.docIds|
      invariant documentChunks == Seqs.Flatten(ChunksOf(p, lcDocs, split, i))
    {
      if i >= |p.docIds| {
        return Err(IndexError);
      }
      var id := p.docIds[i];
      var subDocs := split(lcDocs[i], ChunkSize);
      var tagged := Tag(subDocs, p.idKey, id);
      assert ChunksOf(p, lcDocs, split, i + 1)[..i] == ChunksOf(p, lcDocs, split, i);
      documentChunks := documentChunks + tagged;
    }
    r := Ok(documentChunks);
  }

  /** `generate_summaries`: one summary per document, in order; the i-th is a new
      document whose metadata holds only the i-th id. */
  function GenerateSummaries(p: Processor, lcDocs: seq<LcDoc>, summarize: string -> Result<string>): (r: Result<seq<LcDoc>>)
    ensures r.Ok? ==> |r.value| == |lcDocs| <= |p.docIds|
    ensures r.Ok? ==> forall i :: 0 <= i < |lcDocs| ==>
              summarize(lcDocs[i].pageContent) == Ok(r.value[i].pageContent)
              && r.value[i].metadata == map[p.idKey := Str(p.docIds[i])]
    ensures (forall i :: 0 <= i < |lcDocs| ==> summarize(lcDocs[i].pageContent).Ok?) && |lcDocs| <= |p.docIds| ==> r.Ok?
  {
    var f := (d: LcDoc) => summarize(d.pageContent);
    var m := MapAll(lcDocs, f);
    if m.Err? then
      assert !forall i :: 0 <= i < |lcDocs| ==> f(lcDocs[i]).Ok? by {
        if forall i :: 0 <= i < |lcDocs| ==> f(lcDocs[i]).Ok? {
          MapAllTotal(lcDocs, f);
        }
      }
      Err(m.error)
    else
      MapAllOk(lcDocs, f);
      var summaries := m.value;
      if |summaries| > |p.docIds| then Err(IndexError)
      else Ok(seq(|summaries|, i requires 0 <= i < |summaries| => LcDoc(summaries[i], map[p.idKey := Str(p.docIds[i])])))
  }

  /** The question documents of one document. */
  function QuestionDocs(questions: seq<string>, idKey: string, id: string): (r: seq<LcDoc>)
    ensures |r| == |questions|
    ensures forall j :: 0 <= j < |r| ==> r[j] == LcDoc(questions[j], map[idKey := Str(id)])
  {
    seq(|questions|, j requires 0 <= j < |questions| => LcDoc(questions[j], map[idKey := Str(id)]))
  }

  /** Every question list of the first `n` documents that has no id is empty: the
      comprehension reads `doc_ids[i]` once per question, so only those lists are safe. */
  predicate IdsForQuestions(lists: seq<seq<string>>, ids: seq<string>, n: nat)
    requires n <= |lists|
  {
    forall i :: |ids| <= i < n ==> lists[i] == []
  }

  /** The question documents of the first `n` documents, document by document; a
      document past the ids contributes nothing, having no questions. */
  function QuestionPieces(lists: seq<seq<string>>, idKey: string, ids: seq<string>, n: nat): (r: seq<seq<LcDoc>>)
    requires n <= |lists| && IdsForQuestions(lists, ids, n)
    ensures |r| == n
    ensures forall i :: 0 <= i < n ==> |r[i]| == |lists[i]|
    ensures forall i :: 0 <= i < n && i < |ids| ==> r[i] == QuestionDocs(lists[i], idKey, ids[i])
  {
    seq(n, i requires 0 <= i < n => if i < |ids| then QuestionDocs(lists[i], idKey, ids[i]) else [])
  }

  /** The question chain applied to one document: the LLM asked about its page content. */
  function Asking(ask: string -> Result<seq<string>>): (f: LcDoc -> Result<seq<string>>)
    ensures forall d :: f(d) == ask(d.pageContent)
  {
    (d: LcDoc) => ask(d.pageContent)
  }

  /** One more document extends the flattened questions by its own, if it has any. */
  lemma QuestionPiecesStep(lists: seq<seq<string>>, idKey: string, ids: seq<string>, i: nat)
    requires i < |lists| && IdsForQuestions(lists, ids, i + 1)
    ensures lists[i] == [] ==>
              Seqs.Flatten(QuestionPieces(lists, idKey, ids, i + 1)) == Seqs.Flatten(QuestionPieces(lists, idKey, ids, i))
    ensures lists[i] != [] ==>
              && i < |ids|
              && Seqs.Flatten(QuestionPieces(lists, idKey, ids, i + 1))
                 == Seqs.Flatten(QuestionPieces(lists, idKey, ids, i)) + QuestionDocs(lists[i], idKey, ids[i])
  {
    assert QuestionPieces(lists, idKey, ids, i + 1)[..i] == QuestionPieces(lists, idKey, ids, i);
  }

  /** The question documents `generate_hypothetical_questions` returns: the question
      lists of all documents, flattened in document order, each question tagged with
      its document's id. A question whose document has no id is an IndexError. */
  function Questions(p: Processor, lcDocs: seq<LcDoc>, ask: string -> Result<seq<string>>): (r: Result<seq<LcDoc>>)
  {
    var lists :- MapAll(lcDocs, Asking(ask));
    if !IdsForQuestions(lists, p.docIds, |lists|) then Err(IndexError)
    else Ok(Seqs.Flatten(QuestionPieces(lists, p.idKey, p.docIds, |lists|)))
  }

  /** `generate_hypothetical_questions`: one LLM call per document, then a loop
      extending the result with each document's tagged questions. */
  method GenerateHypotheticalQuestions(p: Processor, lcDocs: seq<LcDoc>, ask: string -> Result<seq<string>>)
    returns (r: Result<seq<LcDoc>>)
    ensures r == Questions(p, lcDocs, ask)
  {
    var lists :- MapAll(lcDocs, Asking(ask));
    var questionDocs: seq<LcDoc> := [];
    for i := 0 to |lists|
      invariant IdsForQuestions(lists, p.docIds, i)
      invariant questionDocs == Seqs.Flatten(QuestionPieces(lists, p.idKey, p.docIds, i))
    {
      if lists[i] != [] && i >= |p.docIds| {
        assert !IdsForQuestions(lists, p.docIds, |lists|);
        return Err(IndexError);
      }
      QuestionPiecesStep(lists, p.idKey, p.docIds, i);
      if lists[i] != [] {
        questionDocs := questionDocs + QuestionDocs(lists[i], p.idKey, p.docIds[i]);
      }
    }
    r := Ok(questionDocs);
  }

  /** A document without an id is harmless when it has no questions: with one id and
      two documents, the first asked one question and the second none, the result is
      the first document's question. */
  lemma QuestionlessDocumentNeedsNoId(p: Processor, ask: string -> Result<seq<string>>)
    requires p.docIds == ["a"] && ask("x") == Ok(["q"]) && ask("y") == Ok([])
    ensures Questions(p, [LcDoc("x", map[]), LcDoc("y", map[])], ask) == Ok([LcDoc("q", map[p.idKey := Str("a")])])
  {
    var docs := [LcDoc("x", map[]), LcDoc("y", map[])];
    var f := Asking(ask);
    var none: seq<seq<string>> := [];
    var rest := docs[1..];
    assert |rest| == 1 && rest[0] == LcDoc("y", map[]) && rest[1..] == [];
    assert f(docs[0]) == Ok(["q"]) && f(rest[0]) == Ok([]);
    assert MapAll(rest[1..], f) == Ok(none);
    assert MapAll(rest, f) == Ok([[]] + none);
    assert MapAll(docs, f) == Ok([["q"]] + ([[]] + none));
    var lists: seq<seq<string>> := [["q"], []];
    assert [["q"]] + ([[]] + none) == lists;
    var pieces := QuestionPieces(lists, p.idKey, p.docIds, 2);
    var q := LcDoc("q", map[p.idKey := Str("a")]);
    assert pieces[0] == QuestionDocs(["q"], p.idKey, "a");
    assert |pieces[0]| == 1 && pieces[0][0] == q;
    assert pieces[0] == [q];
    assert |pieces[1]| == 0;
    assert pieces[..1][..0] == [];
    assert Seqs.Flatten(pieces[..1]) == [q];
    assert pieces[..2][..1] == pieces[..1];
    assert Seqs.Flatten(pieces) == [q];
    assert IdsForQuestions(lists, p.docIds, 2);
  }

  /** What `process_documents` returns: chunks, summaries and questions of the
      converted documents, or the first exception raised on the way. */
  function Process(p: Processor, split: (LcDoc, nat) -> seq<LcDoc>,
                   summarize: string -> Result<string>, ask: string -> Result<seq<string>>): Result<(seq<LcDoc>, seq<LcDoc>, seq<LcDoc>)>
  {
    var lcDocs := Convert(p);
    if |lcDocs| > |p.docIds| then Err(IndexError)
    else
      var summaries :- GenerateSummaries(p, lcDocs, summarize);
      var questions :- Questions(p, lcDocs, ask);
      Ok((Seqs.Flatten(ChunksOf(p, lcDocs, split, |lcDocs|)), summaries, questions))
  }

  /** `process_documents`: convert, then chunks, summaries and questions in that order. */
  method ProcessDocuments(p: Processor, split: (LcDoc, nat) -> seq<LcDoc>,
                          summarize: string -> Result<string>, ask: string -> Result<seq<string>>)
    returns (r: Result<(seq<LcDoc>, seq<LcDoc>, seq<LcDoc>)>)
    ensures r == Process(p, split, summarize, ask)
  {
    var lcDocs := Convert(p);
    var chunks :- SplitIntoSmallerChunks(p, lcDocs, split);
    var summaries :- GenerateSummaries(p, lcDocs, summarize);
    var questions :- GenerateHypotheticalQuestions(p, lcDocs, ask);
    r := Ok((chunks, summaries, questions));
  }

  /** Every chunk, summary and question names, under `id_key`, the id of one of the
      documents; summaries are one per document. */
  lemma ProcessTagged(p: Processor, split: (LcDoc, nat) -> seq<LcDoc>,
                      summarize: string -> Result<string>, ask: string -> Result<seq<string>>)
    requires Process(p, split, summarize, ask).Ok?
    ensures var out := Process(p, split, summarize, ask).value;
            && |out.1| == |p.documents|
            && forall d :: d in out.0 || d in out.1 || d in out.2 ==> TaggedWithOneOf(d, p.idKey, p.docIds)
  {
    var lcDocs := Convert(p);
    ChunksTagged(p, lcDocs, split);
    var lists := MapAll(lcDocs, Asking(ask)).value;
    QuestionsTagged(p, lists);
    var summaries := GenerateSummaries(p, lcDocs, summarize).value;
    forall d | d in summaries ensures TaggedWithOneOf(d, p.idKey, p.docIds) {
      var i :| 0 <= i < |summaries| && summaries[i] == d;
    }
  }

  /** Every chunk names, under `id_key`, one of the processor's ids. */
  lemma ChunksTagged(p: Processor, lcDocs: seq<LcDoc>, split: (LcDoc, nat) -> seq<LcDoc>)
    requires |lcDocs| <= |p.docIds|
    ensures forall d :: d in Seqs.Flatten(ChunksOf(p, lcDocs, split, |lcDocs|)) ==>
              TaggedWithOneOf(d, p.idKey, p.docIds)
  {
    var pieces := ChunksOf(p, lcDocs, split, |lcDocs|);
    forall d: LcDoc | d in Seqs.Flatten(pieces)
      ensures TaggedWithOneOf(d, p.idKey, p.docIds)
    {
      var i := Seqs.FlattenSource(pieces, d);
      var j :| 0 <= j < |pieces[i]| && pieces[i][j] == d;
      assert d.metadata[p.idKey] == Str(p.docIds[i]);
    }
  }

  /** Every question names, under `id_key`, one of the processor's ids. */
  lemma QuestionsTagged(p: Processor, lists: seq<seq<string>>)
    requires IdsForQuestions(lists, p.docIds, |lists|)
    ensures forall d :: d in Seqs.Flatten(QuestionPieces(lists, p.idKey, p.docIds, |lists|)) ==>
              TaggedWithOneOf(d, p.idKey, p.docIds)
  {
    var pieces := QuestionPieces(lists, p.idKey, p.docIds, |lists|);
    forall d: LcDoc | d in Seqs.Flatten(pieces)
      ensures TaggedWithOneOf(d, p.idKey, p.docIds)
    {
      var i := Seqs.FlattenSource(pieces, d);
      var j :| 0 <= j < |pieces[i]| && pieces[i][j] == d;
      assert i < |p.docIds|;
      assert d.metadata[p.idKey] == Str(p.docIds[i]);
    }
  }
}
