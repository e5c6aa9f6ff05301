/** BasicPreprocessor.split_docs_by_separator
    (app/core/builder/preprocessors/basic.py). */
module BasicPreprocessor {
  import opened Wrappers
  import opened Docs
  import Text

  const DefaultSeparator := "\n---\n"

  /** The sub-documents of one document: one per piece of `doc.text.split(sep)`,
      each with the parent's metadata. */
  function Chunks(doc: ParsedDoc, sep: string): (r: seq<ParsedDoc>)
    requires sep != ""
    ensures |r| == |Text.Split(doc.text, sep)|
    ensures forall i :: 0 <= i < |r| ==> r[i] == ParsedDoc(Text.Split(doc.text, sep)[i], doc.metadata)
  {
    var pieces := Text.Split(doc.text, sep);
    seq(|pieces|, i requires 0 <= i < |pieces| => ParsedDoc(pieces[i], doc.metadata))
  }

  /** All sub-documents, document by document. */
  function SubDocsOf(docs: seq<ParsedDoc>, sep: string): seq<ParsedDoc>
    requires sep != ""
    decreases |docs|
  {
    if |docs| == 0 then [] else SubDocsOf(docs[..|docs| - 1], sep) + Chunks(docs[|docs| - 1], sep)
  }

  /** `split_docs_by_separator(docs, separator)` with the missing imports supplied:
      Python refuses an empty separator with a ValueError, raised at the first document. */
  method SplitDocsBySeparator(docs: seq<ParsedDoc>, separator: string := DefaultSeparator)
    returns (r: Result<seq<ParsedDoc>>)
    ensures separator == "" && |docs| > 0 ==> r == Err(ValueError("empty separator"))
    ensures separator != "" ==> r == Ok(SubDocsOf(docs, separator))
    ensures |docs| == 0 ==> r == Ok([])
  {
    var subDocs: seq<ParsedDoc> := [];
    for k := 0 to |docs|
      invariant separator != "" ==> subDocs == SubDocsOf(docs[..k], separator)
      invariant k == 0 ==> subDocs == []
      invariant separator == "" ==> k == 0
    {
      if separator == "" {
        return Err(ValueError("empty separator"));
      }
      var doc := docs[k];
      var docChunks := Text.Split(doc.text, separator);
      for j := 0 to |docChunks|
        invariant subDocs == SubDocsOf(docs[..k], separator) + Chunks(doc, separator)[..j]
      {
        subDocs := subDocs + [ParsedDoc(docChunks[j], doc.metadata)];
        assert Chunks(doc, separator)[..j + 1] == Chunks(doc, separator)[..j] + [ParsedDoc(docChunks[j], doc.metadata)];
      }
      assert docs[..k + 1][..k] == docs[..k];
      assert Chunks(doc, separator)[..|docChunks|] == Chunks(doc, separator);
    }
    assert docs[..|docs|] == docs;
    r := Ok(subDocs);
  }

  /** Output is document-major: the sub-documents of a concatenation are those of
      each part, in order. */
  lemma {:induction false} SubDocsConcat(a: seq<ParsedDoc>, b: seq<ParsedDoc>, sep: string)
    requires sep != ""
    ensures SubDocsOf(a + b, sep) == SubDocsOf(a, sep) + SubDocsOf(b, sep)
    decreases |b|
  {
    if |b| == 0 {
      assert a + b == a;
    } else {
      var init := b[..|b| - 1];
      var last := Chunks(b[|b| - 1], sep);
      SubDocsConcat(a, init, sep);
      assert (a + b)[..|a + b| - 1] == a + init;
      assert (a + b)[|a + b| - 1] == b[|b| - 1];
      calc {
        SubDocsOf(a + b, sep);
        SubDocsOf(a + init, sep) + last;
        (SubDocsOf(a, sep) + SubDocsOf(init, sep)) + last;
        SubDocsOf(a, sep) + (SubDocsOf(init, sep) + last);
        SubDocsOf(a, sep) + SubDocsOf(b, sep);
      }
    }
  }

  /** Every sub-document carries the metadata of some input document unchanged. */
  lemma {:induction false} SubDocsKeepMetadata(docs: seq<ParsedDoc>, sep: string)
    requires sep != ""
    ensures forall s :: s in SubDocsOf(docs, sep) ==> exists d :: d in docs && s.metadata == d.metadata
    decreases |docs|
  {
    if |docs| > 0 {
      var init := docs[..|docs| - 1];
      SubDocsKeepMetadata(init, sep);
      forall s | s in SubDocsOf(docs, sep)
        ensures exists d :: d in docs && s.metadata == d.metadata
      {
        if s in SubDocsOf(init, sep) {
          var d :| d in init && s.metadata == d.metadata;
          assert d in docs;
        } else {
          assert docs[|docs| - 1] in docs;
        }
      }
    }
  }

  /** Joining one document's chunk texts with the separator gives its text back. */
  lemma ChunksRoundTrip(doc: ParsedDoc, sep: string)
    requires sep != ""
    ensures Text.Join(sep, seq(|Chunks(doc, sep)|, i requires 0 <= i < |Chunks(doc, sep)| => Chunks(doc, sep)[i].text)) == doc.text
  {
    var texts := seq(|Chunks(doc, sep)|, i requires 0 <= i < |Chunks(doc, sep)| => Chunks(doc, sep)[i].text);
    assert texts == Text.Split(doc.text, sep);
    Text.JoinSplit(doc.text, sep);
  }

  /** A text with n separator occurrences gives n + 1 chunks (empty ones included);
      without a separator the document becomes one chunk with its whole text. */
  lemma ChunkCount(doc: ParsedDoc, sep: string)
    requires sep != ""
    ensures |Chunks(doc, sep)| == Text.Count(doc.text, sep) + 1
    ensures !Text.Occurs(doc.text, sep) ==> Chunks(doc, sep) == [doc]
  {
    Text.SplitCount(doc.text, sep);
    Text.SplitSingle(doc.text, sep);
  }

  /** The function as written: `Document` and `logger` are never imported, so building
      the first sub-document raises NameError, and logging it in the handler raises
      NameError for `logger`. Only an empty input gets through. */
  function SplitDocsAsWritten(docs: seq<ParsedDoc>, separator: string := DefaultSeparator): (r: Result<seq<ParsedDoc>>)
    ensures r.Ok? <==> |docs| == 0
  {
    if |docs| == 0 then Ok([]) else Err(NameError("logger"))
  }

  /** A document with one separator loses both of its chunks as written. */
  lemma AsWrittenLosesChunks()
    ensures var doc := ParsedDoc("a" + DefaultSeparator + "b", map[]);
            && SplitDocsAsWritten([doc]).Err?
            && |SubDocsOf([doc], DefaultSeparator)| == 2
  {
    var doc := ParsedDoc("a" + DefaultSeparator + "b", map[]);
    assert doc.text[0..5][0] == 'a';
    assert !Text.OccursAt(doc.text, DefaultSeparator, 0);
    assert doc.text[1..6] == DefaultSeparator;
    assert Text.OccursAt(doc.text, DefaultSeparator, 1);
    assert |doc.text| == 7;
    assert Text.CountFrom(doc.text, DefaultSeparator, 6) == 0;
    assert Text.CountFrom(doc.text, DefaultSeparator, 1) == 1;
    assert Text.Count(doc.text, DefaultSeparator) == 1;
    ChunkCount(doc, DefaultSeparator);
    assert [doc][..0] == [];
  }
}
