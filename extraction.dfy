/** Turning the document-analysis result into one plain-text body: the paragraph
    contents joined with single spaces, and the two handlers' policies for a result
    without paragraphs. */
module Extraction {
  import opened Wrappers
  import opened Text
  import opened Responses

  /** The analysis model both upload handlers ask for. */
  const PrebuiltDocument: string := "prebuilt-document"

  /** What `begin_analyze_document_from_url` is given: a model id and a document URL. */
  datatype AnalyzeRequest = AnalyzeRequest(model: string, documentUrl: string)

  datatype Paragraph = Paragraph(content: string)

  /** The analysis result; `paragraphs` may be absent (`None`) or an empty list. */
  datatype AnalyzeResult = AnalyzeResult(paragraphs: Option<seq<Paragraph>>)

  /** The sentinel body upload-and-ask uses when there is nothing to join. */
  const NoContent: string := "No content found"

  /** The error extract-text reports when there is nothing to join. */
  const NothingExtracted: string := "No text extracted from document"

  /** Python truthiness of `result.paragraphs`: present and non-empty. */
  function HasParagraphs(res: AnalyzeResult): (b: bool)
    ensures b <==> res.paragraphs != None && res.paragraphs != Some([])
  {
    res.paragraphs.Some? && |res.paragraphs.value| > 0
  }

  /** `[p.content for p in paragraphs]`. */
  function Contents(ps: seq<Paragraph>): (r: seq<string>)
    ensures |r| == |ps|
    ensures forall i :: 0 <= i < |ps| ==> r[i] == ps[i].content
  {
    seq(|ps|, i requires 0 <= i < |ps| => ps[i].content)
  }

  // ---------------------------------------------------------------------------
  // `" ".join(parts)`

  function Join(parts: seq<string>): (r: string)
    ensures |parts| == 0 ==> r == ""
    ensures |parts| > 0 ==> OccursAt(parts[0], r, 0)
  {
    if |parts| == 0 then ""
    else if |parts| == 1 then parts[0]
    else parts[0] + " " + Join(parts[1..])
  }

  /** Total number of characters in `parts`. */
  function TotalLength(parts: seq<string>): nat
  {
    if |parts| == 0 then 0 else |parts[0]| + TotalLength(parts[1..])
  }

  /** Where the `i`-th part starts in the joined text: each earlier part plus its separator. */
  function Offset(parts: seq<string>, i: nat): nat
    requires i <= |parts|
  {
    if i == 0 then 0 else |parts[0]| + 1 + Offset(parts[1..], i - 1)
  }

  /** A single part is returned unchanged. */
  lemma JoinSingle(p: string)
    ensures Join([p]) == p
  {
  }

  /** The joined text has the parts' characters plus exactly one separator per
      neighbouring pair. */
  lemma {:induction false} JoinLength(parts: seq<string>)
    requires |parts| > 0
    ensures |Join(parts)| == TotalLength(parts) + |parts| - 1
  {
    if |parts| > 1 {
      JoinLength(parts[1..]);
    }
  }

  /** The layout of the joined text: part `i` sits at `Offset(parts, i)` verbatim and,
      unless it is the last part, is followed by one space. Together with `JoinLength`
      this fixes every character of the result. */
  lemma {:induction false} JoinLayout(parts: seq<string>, i: nat)
    requires i < |parts|
    ensures OccursAt(parts[i], Join(parts), Offset(parts, i))
    ensures i + 1 < |parts| ==>
      Offset(parts, i) + |parts[i]| < |Join(parts)| && Join(parts)[Offset(parts, i) + |parts[i]|] == ' '
    ensures i + 1 == |parts| ==> Offset(parts, i) + |parts[i]| == |Join(parts)|
  {
    if |parts| == 1 {
    } else {
      var head, rest := parts[0] + " ", parts[1..];
      assert Join(parts) == head + Join(rest);
      if i == 0 {
        assert Join(parts)[..|parts[0]|] == parts[0];
      } else {
        JoinLayout(rest, i - 1);
        assert rest[i - 1] == parts[i];
        OccursInRight(parts[i], head, Join(rest), Offset(rest, i - 1));
      }
    }
  }

  /** No leading or trailing separator: the text starts with the first part and ends
      with the last. */
  lemma {:induction false} JoinEdges(parts: seq<string>)
    requires |parts| > 0
    ensures OccursAt(parts[0], Join(parts), 0)
    ensures OccursAt(parts[|parts| - 1], Join(parts), |Join(parts)| - |parts[|parts| - 1]|)
  {
    JoinLayout(parts, 0);
    JoinLayout(parts, |parts| - 1);
  }

  /** Joining two non-empty runs is joining each and putting one space between them. */
  lemma {:induction false} JoinAppend(a: seq<string>, b: seq<string>)
    requires |a| > 0 && |b| > 0
    ensures Join(a + b) == Join(a) + " " + Join(b)
  {
    if |a| == 1 {
      assert (a + b)[1..] == b;
    } else {
      assert (a + b)[1..] == a[1..] + b;
      JoinAppend(a[1..], b);
    }
  }

  // ---------------------------------------------------------------------------
  // The two handlers' policies.

  /** upload-and-ask's document body (the conditional expression of its `full_text`). */
  function UploadBody(res: AnalyzeResult): (r: string)
    ensures HasParagraphs(res) ==> ExtractResponse(res) == Response(Text(r), StatusOk)
    ensures !HasParagraphs(res) ==> r == NoContent
  {
    if HasParagraphs(res) then Join(Contents(res.paragraphs.value)) else NoContent
  }

  /** extract-text's reply once analysis succeeded: the joined text, or a 400 error. */
  function ExtractResponse(res: AnalyzeResult): (r: Response)
    ensures r.body.Text? <==> HasParagraphs(res)
    ensures r.body.Text? ==> r.status == StatusOk
    ensures !r.body.Text? ==> r == Response(Error(NothingExtracted), StatusBadRequest)
  {
    if !HasParagraphs(res) then Response(Error(NothingExtracted), StatusBadRequest)
    else Response(Text(Join(Contents(res.paragraphs.value))), StatusOk)
  }

  /** With paragraphs present, both handlers carry the same body: the contents in
      order, one space apart. */
  lemma BodiesAgreeWithParagraphs(ps: seq<Paragraph>)
    requires |ps| > 0
    ensures UploadBody(AnalyzeResult(Some(ps))) == Join(Contents(ps))
    ensures ExtractResponse(AnalyzeResult(Some(ps))) == Response(Text(Join(Contents(ps))), StatusOk)
  {
  }

  /** On a result with no paragraphs the handlers diverge: upload-and-ask grounds its
      prompt on the sentinel text, extract-text answers 400 and never a text body. */
  lemma EmptyExtractionDiverges(res: AnalyzeResult)
    requires !HasParagraphs(res)
    ensures UploadBody(res) == NoContent
    ensures ExtractResponse(res) == Response(Error(NothingExtracted), StatusBadRequest)
    ensures !ExtractResponse(res).body.Text?
  {
  }

  /** The sentinel is ordinary text: a document whose only paragraph reads
      "No content found" gives the same body as a document with no paragraphs. */
  lemma SentinelIsAmbiguous()
    ensures UploadBody(AnalyzeResult(Some([Paragraph(NoContent)]))) == UploadBody(AnalyzeResult(None))
  {
    assert Contents([Paragraph(NoContent)]) == [NoContent];
  }
}
