/** The fixed instruction templates of `backend.py` and the prompts built from them.
    Each template is an exact copy of the source's triple-quoted literal (line breaks
    as `\n`, indentation and trailing blanks kept), laid out as a sequence of pieces so
    that its section labels are visible as pieces of their own. */
module Prompts {
  import opened Wrappers
  import opened Text

  // Section labels, spelled as in the templates.
  const TechnologySpecs: string := "Technology Specs"
  const ProblemAddressed: string := "Problem being addressed"
  const UserNumbers: string := "User numbers and deployment scale"
  const CurrentSystems: string := "Current systems and pain points"
  const ActionItems: string := "Action Items for proposal team"
  const RequiredIntegrations: string := "Required integrations"
  const BomJustification: string := "If suggesting BOM items, explain why they match the requirements"
  const ComplianceRequirements: string := "Compliance requirements"
  const ConclusiveSummary: string := "conclusive summary"

  /** The placeholder sentence the completion service is told to use for a missing section. */
  const MissingSentence: string := "This document does not contain information on [Missing Section]."

  /** The labels the single-shot (indexed) instruction block lists, in order. */
  const ChatLabels: seq<string> :=
    [TechnologySpecs, ProblemAddressed, UserNumbers, CurrentSystems, ActionItems,
     RequiredIntegrations, BomJustification]

  /** The labels the follow-up instruction block lists, in order. */
  const FollowupLabels: seq<string> :=
    [TechnologySpecs, UserNumbers, CurrentSystems, ActionItems, RequiredIntegrations,
     BomJustification, ComplianceRequirements, ConclusiveSummary]

  // ---------------------------------------------------------------------------
  // The indexed-chat prompt: a fixed head, the user's query, a fixed tail.

  const ChatHead: string :=
    "\n      You are an AI assistant helping users engage with business documents.\n      User query: "

  const ChatTailPieces: seq<string> := [
    "\n\n    Always provide specific, relevant information      \n      First, give a general summary(Include scope & purpose). Then extract , focus on these:\n      - ",
    TechnologySpecs,
    "\n      - ",
    ProblemAddressed,
    "\n        -",
    UserNumbers,
    "\n        -",
    CurrentSystems,
    "\n        - ",
    ActionItems,
    "\n        - ",
    RequiredIntegrations,
    "\n        - ",
    BomJustification,
    "\n        If any section is missing, respond with: \"",
    MissingSentence,
    "\"\n\n        Respond clearly and conversationally.\n    "
  ]

  function ChatTail(): string
  {
    Concat(ChatTailPieces)
  }

  /** The user turn of the indexed chat: the query embedded verbatim in the template. */
  function ChatPrompt(query: string): (p: string)
    ensures OccursAt(query, p, |ChatHead|)
    ensures QueryOf(p) == Some(query)
  {
    var p := ChatHead + query + ChatTail();
    assert p[..|ChatHead|] == ChatHead;
    assert p[|p| - |ChatTail()|..] == ChatTail();
    assert p[|ChatHead|..|p| - |ChatTail()|] == query;
    p
  }

  /** Reads the embedded query back out of an indexed-chat prompt. */
  function QueryOf(p: string): Option<string>
  {
    var h, t := |ChatHead|, |ChatTail()|;
    if h + t <= |p| && p[..h] == ChatHead && p[|p| - t..] == ChatTail()
    then Some(p[h..|p| - t])
    else None
  }

  /** Different queries always give different prompts. */
  lemma ChatPromptInjective(q1: string, q2: string)
    requires ChatPrompt(q1) == ChatPrompt(q2)
    ensures q1 == q2
  {
    assert Some(q1) == QueryOf(ChatPrompt(q1)) == QueryOf(ChatPrompt(q2)) == Some(q2);
  }

  /** Whatever the query, the prompt lists every single-shot label and the
      missing-section sentence. */
  lemma ChatPromptListsLabels(query: string)
    ensures forall l :: l in ChatLabels ==> Contains(ChatPrompt(query), l)
    ensures Contains(ChatPrompt(query), MissingSentence)
  {
    ConcatContainsPieces(ChatTailPieces);
    forall l | l in ChatLabels + [MissingSentence]
      ensures Contains(ChatPrompt(query), l)
    {
      assert l in ChatTailPieces;
      ContainsInConcat(ChatHead + query, ChatTail(), l);
    }
    assert MissingSentence in ChatLabels + [MissingSentence];
  }

  // ---------------------------------------------------------------------------
  // The upload-and-ask prompt: the document body, then the question.

  const UploadHead: string := "\n        The user uploaded this document:\n        "
  const UploadMiddle: string := "\n\n        They asked:\n        "
  const AnswerFromDocument: string := "Please answer using only the document's contents."
  const UploadTail: string := "\n\n        " + AnswerFromDocument + "\n        "

  /** The user turn of upload-and-ask: the body at a fixed offset, the question after it,
      and the instruction to answer only from the document. */
  function UploadPrompt(body: string, question: string): (p: string)
    ensures OccursAt(body, p, |UploadHead|)
    ensures OccursAt(question, p, |UploadHead| + |body| + |UploadMiddle|)
    ensures Contains(p, AnswerFromDocument)
    ensures QuestionOf(body, p) == Some(question)
  {
    var p := UploadHead + body + UploadMiddle + question + UploadTail;
    var q0 := |UploadHead| + |body| + |UploadMiddle|;
    assert p[|UploadHead|..|UploadHead| + |body|] == body;
    assert p[q0..q0 + |question|] == question;
    assert p[..q0] == UploadHead + body + UploadMiddle;
    assert p[|p| - |UploadTail|..] == UploadTail;
    assert p[|p| - |UploadTail| + 10..|p| - |UploadTail| + 10 + |AnswerFromDocument|] == AnswerFromDocument;
    assert OccursAt(AnswerFromDocument, p, |p| - |UploadTail| + 10);
    p
  }

  /** Reads the question back out of an upload-and-ask prompt built on `body`. */
  function QuestionOf(body: string, p: string): Option<string>
  {
    var h, t := |UploadHead| + |body| + |UploadMiddle|, |UploadTail|;
    if h + t <= |p| && p[..h] == UploadHead + body + UploadMiddle && p[|p| - t..] == UploadTail
    then Some(p[h..|p| - t])
    else None
  }

  // ---------------------------------------------------------------------------
  // The follow-up instruction block (`prompt_intro`).

  const FollowupPieces: seq<string> := [
    "\n\n        You are an AI assistant analyzing uploaded business documents.\n        First, summarize key content(include problem trying to solve/address). Then extract:\n        - ",
    TechnologySpecs,
    "\n        -",
    UserNumbers,
    "\n        -",
    CurrentSystems,
    "\n        - ",
    ActionItems,
    "\n        - ",
    RequiredIntegrations,
    "\n        - ",
    BomJustification,
    "\n        - ",
    ComplianceRequirements,
    "\n        -",
    ConclusiveSummary,
    "\n        If any section is missing, respond with: \"",
    MissingSentence,
    "\"\n        Respond clearly and conversationally.\n\n        "
  ]

  /** The follow-up block; it lists every follow-up label and the missing-section sentence. */
  function PromptIntro(): (r: string)
    ensures forall l :: l in FollowupLabels ==> Contains(r, l)
    ensures Contains(r, MissingSentence)
  {
    ConcatContainsPieces(FollowupPieces);
    assert forall l :: l in FollowupLabels ==> l in FollowupPieces;
    Concat(FollowupPieces)
  }

  /** The follow-up list adds compliance requirements and a conclusive summary to the
      single-shot list, keeps every other single-shot label, and drops exactly
      "Problem being addressed". */
  lemma FollowupLabelsVersusChatLabels()
    ensures ComplianceRequirements in FollowupLabels && ComplianceRequirements !in ChatLabels
    ensures ConclusiveSummary in FollowupLabels && ConclusiveSummary !in ChatLabels
    ensures ProblemAddressed in ChatLabels && ProblemAddressed !in FollowupLabels
    ensures forall l :: l in ChatLabels && l != ProblemAddressed ==> l in FollowupLabels
  {
  }
}
