/** The four request handlers of `backend.py`, each a function of its already-parsed
    inputs, the deployment settings, and the external services it calls. Every service
    call yields an `Outcome`: `Err(msg)` stands for the exception it raised, `msg` for
    `str(e)`. */
module Handlers {
  import opened Wrappers
  import opened Deployment
  import opened Responses
  import opened Completion
  import opened Extraction
  import opened Storage
  import opened Requests

  /** The external collaborators, passed in instead of process-wide clients. */
  datatype Services = Services(
    store: string -> Outcome<()>,                  // upload_blob under the given blob name
    blobUrl: string -> string,                     // blob_client.url of the named blob
    sign: GrantRequest -> Outcome<string>,         // generate_blob_sas
    analyze: AnalyzeRequest -> Outcome<AnalyzeResult>, // begin_analyze_document_from_url(...).result()
    complete: ChatRequest -> Outcome<string>,      // client: first choice's message content
    completeIndexed: ChatRequest -> Outcome<string> // client_with_extensions: likewise
  )

  const InsightsErrorPrefix: string := "Error retrieving insights: "

  // ---------------------------------------------------------------------------
  // Indexed chat.

  /** `chatbot_query`: the answer, or the failure folded into the answer text. */
  function ChatbotQuery(cfg: Settings, svc: Services, userInput: string): (r: string)
    ensures svc.completeIndexed(IndexedRequest(cfg, userInput)).Ok? ==>
              r == svc.completeIndexed(IndexedRequest(cfg, userInput)).value
    ensures svc.completeIndexed(IndexedRequest(cfg, userInput)).Err? ==>
              r == InsightsErrorPrefix + svc.completeIndexed(IndexedRequest(cfg, userInput)).msg
  {
    match svc.completeIndexed(IndexedRequest(cfg, userInput))
    case Ok(answer) => answer
    case Err(m) => InsightsErrorPrefix + m
  }

  /** The chat route: `message` defaults to the empty string, and the reply is always
      a `{response}` body with status 200, never an error shape. */
  function Chat(cfg: Settings, svc: Services, message: Option<string>): (r: Response)
    ensures r.status == StatusOk && r.body.Reply?
    ensures message.Some? ==> r.body.response == ChatbotQuery(cfg, svc, message.value)
    ensures message.None? ==> r.body.response == ChatbotQuery(cfg, svc, "")
  {
    Response(Reply(ChatbotQuery(cfg, svc, message.GetOr(""))), StatusOk)
  }

  /** A failed indexed completion reaches the caller as ordinary reply text. */
  lemma ChatFailureIsInBand(cfg: Settings, svc: Services, message: string, m: string)
    requires svc.completeIndexed(IndexedRequest(cfg, message)) == Err(m)
    ensures Chat(cfg, svc, Some(message)) == Response(Reply(InsightsErrorPrefix + m), StatusOk)
  {
  }

  // ---------------------------------------------------------------------------
  // The upload steps shared by upload-and-ask and extract-text.

  /** Store the file as `<id>_<name>`, request a read-only grant on that blob expiring
      ten minutes after `now`, and analyse the document through the granted URL. The
      first failing step's message is the result. */
  function StoreAndAnalyze(cfg: Settings, svc: Services, id: string, now: int, fileName: string)
    : (r: Outcome<AnalyzeResult>)
    ensures var name := BlobName(id, fileName);
      && (svc.store(name).Err? ==> r == Err(svc.store(name).msg))
      && (svc.store(name).Ok? && svc.sign(GrantFor(cfg, name, now)).Err? ==>
            r == Err(svc.sign(GrantFor(cfg, name, now)).msg))
      && (svc.store(name).Ok? && svc.sign(GrantFor(cfg, name, now)).Ok? ==>
            r == svc.analyze(AnalyzeRequest(PrebuiltDocument,
                   SasUrl(svc.blobUrl(name), svc.sign(GrantFor(cfg, name, now)).value))))
  {
    var name := BlobName(id, fileName);
    var _ :- svc.store(name);
    var token :- svc.sign(GrantFor(cfg, name, now));
    svc.analyze(AnalyzeRequest(PrebuiltDocument, SasUrl(svc.blobUrl(name), token)))
  }

  // ---------------------------------------------------------------------------
  // Upload and ask once.

  /** The answer upload-and-ask obtains: a failed upload step's message, or whatever the
      completion service returns for the prompt grounded on the document body. */
  function AnswerFromUpload(cfg: Settings, svc: Services, id: string, now: int, fileName: string, question: string)
    : (r: Outcome<string>)
    ensures var sa := StoreAndAnalyze(cfg, svc, id, now, fileName);
      && (sa.Err? ==> r == Err(sa.msg))
      && (sa.Ok? ==> r == svc.complete(UploadRequest(cfg, UploadBody(sa.value), question)))
  {
    var res :- StoreAndAnalyze(cfg, svc, id, now, fileName);
    svc.complete(UploadRequest(cfg, UploadBody(res), question))
  }

  /** upload-and-ask: an `{answer}` with 200, or an `{error}` with 500; nothing else. */
  function UploadAndAsk(cfg: Settings, svc: Services, id: string, now: int, fileName: string, question: string)
    : (r: Response)
    ensures (r.status == StatusOk && r.body.Answer?) || (r.status == StatusServerError && r.body.Error?)
  {
    match AnswerFromUpload(cfg, svc, id, now, fileName, question)
    case Ok(answer) => Response(Answer(answer), StatusOk)
    case Err(m) => Response(Error(m), StatusServerError)
  }

  /** The three outcomes of upload-and-ask: a failed upload step, a failed completion
      (both `{error: msg}` with 500), or the completion's answer with 200. */
  lemma UploadAndAskOutcomes(cfg: Settings, svc: Services, id: string, now: int, fileName: string, question: string)
    ensures var sa := StoreAndAnalyze(cfg, svc, id, now, fileName);
            var r := UploadAndAsk(cfg, svc, id, now, fileName, question);
      && (sa.Err? ==> r == Response(Error(sa.msg), StatusServerError))
      && (sa.Ok? ==>
            var c := svc.complete(UploadRequest(cfg, UploadBody(sa.value), question));
            && (c.Err? ==> r == Response(Error(c.msg), StatusServerError))
            && (c.Ok? ==> r == Response(Answer(c.value), StatusOk)))
  {
  }

  // ---------------------------------------------------------------------------
  // Extract text.

  /** extract-text: the joined text with 200, "No text extracted from document" with
      400 when analysis found no paragraphs, or the failing step's message with 500. */
  function ExtractText(cfg: Settings, svc: Services, id: string, now: int, fileName: string): (r: Response)
    ensures r.status == StatusOk || r.status == StatusBadRequest || r.status == StatusServerError
    ensures r.body.Text? <==> r.status == StatusOk
    ensures r.status == StatusBadRequest ==> r.body == Error(NothingExtracted)
    ensures var sa := StoreAndAnalyze(cfg, svc, id, now, fileName);
      && (sa.Err? ==> r == Response(Error(sa.msg), StatusServerError))
      && (sa.Ok? ==> r == ExtractResponse(sa.value))
  {
    match StoreAndAnalyze(cfg, svc, id, now, fileName)
    case Err(m) => Response(Error(m), StatusServerError)
    case Ok(res) => ExtractResponse(res)
  }

  /** On the same uploaded document, extract-text answers 400 exactly when upload-and-ask
      would ground its prompt on the sentinel "No content found". */
  lemma ExtractAndUploadDiverge(cfg: Settings, svc: Services, id: string, now: int, fileName: string, question: string, res: AnalyzeResult)
    requires StoreAndAnalyze(cfg, svc, id, now, fileName) == Ok(res)
    requires !HasParagraphs(res)
    ensures ExtractText(cfg, svc, id, now, fileName) == Response(Error(NothingExtracted), StatusBadRequest)
    ensures AnswerFromUpload(cfg, svc, id, now, fileName, question) ==
              svc.complete(UploadRequest(cfg, NoContent, question))
  {
    EmptyExtractionDiverges(res);
  }

  // ---------------------------------------------------------------------------
  // Follow-up chat.

  /** `str(KeyError(key))`. */
  function MissingKey(key: string): (r: string)
    ensures |r| == |key| + 2
    ensures r[0] == '\'' && r[|r| - 1] == '\'' && r[1..|r| - 1] == key
  {
    "'" + key + "'"
  }

  /** followup_chat: `doc` is looked up before `history`; a missing key or a failed
      completion is an `{error}` with 500, otherwise the answer with 200. */
  function FollowupChat(cfg: Settings, svc: Services, doc: Option<string>, history: Option<seq<Message>>)
    : (r: Response)
    ensures (r.status == StatusOk && r.body.Answer?) || (r.status == StatusServerError && r.body.Error?)
    ensures doc.None? ==> r == Response(Error("'doc'"), StatusServerError)
    ensures doc.Some? && history.None? ==> r == Response(Error("'history'"), StatusServerError)
    ensures doc.Some? && history.Some? ==>
      var c := svc.complete(FollowupRequest(cfg, doc.value, history.value));
      && (c.Err? ==> r == Response(Error(c.msg), StatusServerError))
      && (c.Ok? ==> r == Response(Answer(c.value), StatusOk))
  {
    match (doc, history)
    case (None, _) => Response(Error(MissingKey("doc")), StatusServerError)
    case (Some(_), None) => Response(Error(MissingKey("history")), StatusServerError)
    case (Some(d), Some(h)) =>
      match svc.complete(FollowupRequest(cfg, d, h))
      case Ok(answer) => Response(Answer(answer), StatusOk)
      case Err(m) => Response(Error(m), StatusServerError)
  }
}
