/** The three completion requests the backend composes: indexed chat (bound to the
    search index), upload-and-ask, and follow-up chat over a caller-held history. */
module Requests {
  import opened Wrappers
  import opened Text
  import opened Deployment
  import opened Completion
  import opened Prompts

  const SearchSystemText: string := "You answer using Azure Cognitive Search."
  const DocumentSystemText: string := "You are an AI document assistant."
  const SearchSourceKind: string := "AzureCognitiveSearch"

  /** `extension_config`: the configured index as the single data source. */
  function SearchExtension(cfg: Settings): (e: ExtensionConfig)
    ensures |e.dataSources| == 1
    ensures e.dataSources[0].kind == SearchSourceKind
    ensures e.dataSources[0].parameters == SearchParameters(cfg.searchEndpoint, cfg.searchKey, cfg.searchIndex)
  {
    ExtensionConfig([DataSource(SearchSourceKind, SearchParameters(cfg.searchEndpoint, cfg.searchKey, cfg.searchIndex))])
  }

  /** The indexed-chat request: a fixed system turn, a user turn from which the query
      reads back verbatim, and exactly one search data source carrying the configured
      endpoint, key and index name. */
  function IndexedRequest(cfg: Settings, query: string): (r: ChatRequest)
    ensures r.model == cfg.deployment
    ensures |r.messages| == 2
    ensures r.messages[0] == Message(SystemRole, SearchSystemText)
    ensures r.messages[1].role == UserRole && QueryOf(r.messages[1].content) == Some(query)
    ensures r.extraBody.Some? && |r.extraBody.value.dataSources| == 1
    ensures r.extraBody.value.dataSources[0].kind == SearchSourceKind
    ensures r.extraBody.value.dataSources[0].parameters ==
              SearchParameters(cfg.searchEndpoint, cfg.searchKey, cfg.searchIndex)
  {
    ChatRequest(cfg.deployment,
      [Message(SystemRole, SearchSystemText), Message(UserRole, ChatPrompt(query))],
      Some(SearchExtension(cfg)))
  }

  /** The indexed-chat user turn lists every single-shot label and the placeholder
      sentence, whatever the query. */
  lemma IndexedRequestListsLabels(cfg: Settings, query: string)
    ensures forall l :: l in ChatLabels ==> Contains(IndexedRequest(cfg, query).messages[1].content, l)
    ensures Contains(IndexedRequest(cfg, query).messages[1].content, MissingSentence)
  {
    ChatPromptListsLabels(query);
  }

  /** The upload-and-ask request: a fixed system turn, then a user turn holding the
      document body before the question; no search extension. */
  function UploadRequest(cfg: Settings, body: string, question: string): (r: ChatRequest)
    ensures r.model == cfg.deployment && r.extraBody.None?
    ensures |r.messages| == 2
    ensures r.messages[0] == Message(SystemRole, DocumentSystemText)
    ensures r.messages[1].role == UserRole
    ensures var p := r.messages[1].content;
      && OccursAt(body, p, |UploadHead|)
      && OccursAt(question, p, |UploadHead| + |body| + |UploadMiddle|)
      && QuestionOf(body, p) == Some(question)
      && Contains(p, AnswerFromDocument)
  {
    var p := UploadPrompt(body, question);
    ChatRequest(cfg.deployment, [Message(SystemRole, DocumentSystemText), Message(UserRole, p)], None)
  }

  /** `[{system, prompt_intro}, {system, doc_text}] + chat_history`. */
  function FollowupMessages(doc: string, history: seq<Message>): (r: seq<Message>)
    ensures |r| == 2 + |history|
    ensures r[0] == Message(SystemRole, PromptIntro())
    ensures r[1] == Message(SystemRole, doc)
    ensures r[2..] == history
  {
    [Message(SystemRole, PromptIntro()), Message(SystemRole, doc)] + history
  }

  /** Recovers the document and the history from a follow-up turn sequence. */
  function SplitFollowup(msgs: seq<Message>): Option<(string, seq<Message>)>
  {
    if |msgs| >= 2 && msgs[0] == Message(SystemRole, PromptIntro()) && msgs[1].role == SystemRole
    then Some((msgs[1].content, msgs[2..]))
    else None
  }

  lemma FollowupRoundTrip(doc: string, history: seq<Message>)
    ensures SplitFollowup(FollowupMessages(doc, history)) == Some((doc, history))
  {
  }

  /** With no history, exactly the two system turns are sent. */
  lemma FollowupEmptyHistory(doc: string)
    ensures FollowupMessages(doc, []) == [Message(SystemRole, PromptIntro()), Message(SystemRole, doc)]
  {
  }

  /** Composition commutes with appending to the history: replaying `h1 + h2` is
      replaying `h1` and then `h2`. */
  lemma FollowupAppend(doc: string, h1: seq<Message>, h2: seq<Message>)
    ensures FollowupMessages(doc, h1 + h2) == FollowupMessages(doc, h1) + h2
  {
  }

  /** The two leading turns depend on the document only, never on the history. */
  lemma FollowupPrefixIndependent(doc: string, h1: seq<Message>, h2: seq<Message>)
    ensures FollowupMessages(doc, h1)[..2] == FollowupMessages(doc, h2)[..2]
  {
  }

  /** The follow-up request: the composed turns, plain client, no search extension. */
  function FollowupRequest(cfg: Settings, doc: string, history: seq<Message>): (r: ChatRequest)
    ensures r.model == cfg.deployment && r.extraBody.None?
    ensures SplitFollowup(r.messages) == Some((doc, history))
    ensures forall l :: l in FollowupLabels ==> Contains(r.messages[0].content, l)
    ensures Contains(r.messages[0].content, MissingSentence)
  {
    FollowupRoundTrip(doc, history);
    ChatRequest(cfg.deployment, FollowupMessages(doc, history), None)
  }
}
