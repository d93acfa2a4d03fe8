# ThinkTank-Bot backend: a Dafny model of its value-building rules

The ThinkTank-Bot backend is a small Flask service. It answers questions about business
documents using Azure OpenAI, either against a pre-built search index or against a file
the caller uploads. Nearly all of the code hands work to Azure SDKs. This project models
the part the code decides itself, as pure functions over explicit inputs:

- the paragraph join and the two empty-result policies (the `"No content found"` sentinel
  in upload-and-ask, the 400 error in extract-text);
- the fixed instruction templates and the prompts built from them. Each template is copied
  character for character from the source: line breaks become `\n`, and indentation and
  trailing blanks are kept;
- the three completion requests: indexed chat with its one search data source,
  upload-and-ask, and follow-up chat, which sends two system turns and then the caller's
  history;
- the blob name `<uuid>_<file name>` and the read-only access grant (SAS) that expires ten
  minutes after issue;
- each handler's mapping of a failed external call to its reply. Chat folds the failure
  into its reply text. The other handlers return `{error}` with status 500.

Each external service is a field of the `Handlers.Services` datatype, holding a total
function. Every field except `blobUrl` returns `Ok(value)` or `Err(msg)`, where `msg` is
the raised exception's `str(e)`. `blobUrl` reads a client property and always returns a
plain string. The services are: storing the blob, the blob's URL, signing the
grant, document analysis (submit and wait for the result), and the two completion
clients. The uuid and the current time are parameters. Time is an integer count of
seconds, so the grant lifetime is 600.

Modules: `Wrappers` (Option, Outcome), `Text` (substring facts, template concatenation),
`Deployment` (settings), `Responses` (JSON bodies and statuses), `Completion` (turns and
request shapes), `Prompts` (templates), `Extraction` (paragraph join and the empty-result
policies), `Storage` (blob name, grant), `Requests` (the three completion requests) and
`Handlers` (the four route handlers).

Two details of the code are worth knowing:

- the follow-up template's summary line mentions the problem being addressed, but the
  template has no "Problem being addressed" bullet, unlike the single-shot template
  (backend.py:233-241; `Prompts.FollowupLabelsVersusChatLabels`);
- the code keeps no flag for an empty extraction. Upload-and-ask puts the sentinel text
  in the body, so the body cannot be told apart from a document whose only paragraph
  reads "No content found" (backend.py:157; `Extraction.SentinelIsAmbiguous`).

## Model

| member | source | states |
|---|---|---|
| `Extraction.Contents` | backend.py:157 | the list of paragraph contents has one entry per paragraph, in order |
| `Extraction.HasParagraphs` | backend.py:210 | Python truthiness of `result.paragraphs`: true exactly when the list is neither absent (`None`) nor empty |
| `Extraction.Join` | backend.py:157 | `" ".join`: the empty list gives "", and a non-empty list's result starts with its first part (the full layout is in `JoinLayout`) |
| `Extraction.JoinLayout` | backend.py:157 | in the joined body, part i appears verbatim at offset Offset(parts, i), and every part except the last is followed by exactly one space; the last part ends the text |
| `Extraction.JoinLength` | backend.py:213 | the joined text is as long as all parts together plus one separator per pair of neighbours |
| `Extraction.JoinEdges` | backend.py:157 | no leading or trailing separator: the body starts with the first paragraph and ends with the last |
| `Extraction.JoinSingle` | backend.py:157 | a single paragraph is returned unchanged |
| `Extraction.JoinAppend` | backend.py:157 | joining two non-empty runs equals joining each, with one space between them |
| `Extraction.UploadBody` | backend.py:157 | with paragraphs, the body is exactly the text extract-text would return with 200; without, it is the sentinel "No content found" |
| `Extraction.ExtractResponse` | backend.py:210-215 | a text body exactly when paragraphs are present (status 200); otherwise the error "No text extracted from document" with status 400 |
| `Extraction.BodiesAgreeWithParagraphs` | backend.py:157 | with paragraphs present, upload-and-ask and extract-text carry the same body, the contents joined in order |
| `Extraction.EmptyExtractionDiverges` | backend.py:210-211 | with no paragraphs, whether absent or an empty list, upload-and-ask uses "No content found" (line 157) while extract-text answers 400 and never a text body |
| `Extraction.SentinelIsAmbiguous` | backend.py:157 | a lone paragraph "No content found" gives the same upload body as a document with no paragraphs |
| `Prompts.ChatPrompt` | backend.py:96-112 | the query sits verbatim right after the fixed head, and `QueryOf` reads it back exactly |
| `Prompts.ChatPromptInjective` | backend.py:98 | distinct queries give distinct prompts |
| `Prompts.ChatPromptListsLabels` | backend.py:101-109 | for every query, the prompt contains all seven single-shot labels and the missing-section sentence |
| `Prompts.UploadPrompt` | backend.py:160-168 | the document body sits at a fixed offset, the question follows the body, `QuestionOf` recovers the question, and the prompt contains the instruction to answer only from the document |
| `Prompts.PromptIntro` | backend.py:230-245 | the follow-up instruction block contains all eight follow-up labels and the missing-section sentence |
| `Prompts.FollowupLabelsVersusChatLabels` | backend.py:233-242 | the follow-up list adds "Compliance requirements" and "conclusive summary", keeps every other single-shot label and lacks "Problem being addressed" |
| `Requests.SearchExtension` | backend.py:82-93 | `extension_config` has exactly one data source, of type AzureCognitiveSearch, with the configured endpoint, key and index name |
| `Requests.IndexedRequest` | backend.py:82-124 | exactly two turns: the fixed system text, then a user turn from which the query reads back verbatim; exactly one data source of type AzureCognitiveSearch with the configured endpoint, key and index name; the configured deployment as model |
| `Requests.IndexedRequestListsLabels` | backend.py:120-122 | whatever the query, the user turn of the indexed request lists every single-shot label and the placeholder sentence |
| `Requests.UploadRequest` | backend.py:171-178 | the fixed system turn "You are an AI document assistant." is followed by a user turn that holds the body and then the recoverable question, plus the answer-from-document instruction; no search extension |
| `Requests.FollowupMessages` | backend.py:248-251 | length 2 + the history's length; turn 0 is the system instruction block, turn 1 is the system document turn, and the rest is the history verbatim and in order |
| `Requests.FollowupRoundTrip` | backend.py:248-251 | the document and the history are recovered exactly from the composed turns |
| `Requests.FollowupEmptyHistory` | backend.py:248-251 | with an empty history, exactly the two system turns are sent |
| `Requests.FollowupAppend` | backend.py:248-251 | composing with h1 + h2 equals composing with h1 and then appending h2 |
| `Requests.FollowupPrefixIndependent` | backend.py:248-251 | the two leading turns do not depend on the history |
| `Requests.FollowupRequest` | backend.py:254-259 | sends the composed turns to the plain client with the configured model; the turns split back into document and history, and the first one lists every follow-up label |
| `Storage.BlobName` | backend.py:139 | the name is the identifier, then '_', then the original file name, each at its fixed position |
| `Storage.BlobNameRoundTrip` | backend.py:139 | for a canonical 36-character uuid, the name splits back into identifier and file name |
| `Storage.DistinctIdsDistinctNames` | backend.py:190 | two uploads of the same file name under different uuids get different blob names |
| `Storage.BlobNameInjective` | backend.py:139 | with canonical uuids, equal blob names mean equal identifiers and equal file names |
| `Storage.GrantFor` | backend.py:144-151 | the grant names the configured account and container and the stored blob; it carries read permission only (no write, no delete) and expires 600 seconds after now, so strictly later |
| `Storage.SasUrl` | backend.py:152 | the access URL is the blob URL, then '?', then the token, each at its fixed position |
| `Handlers.ChatbotQuery` | backend.py:114-128 | the indexed completion's answer, or "Error retrieving insights: " + the failure's message |
| `Handlers.Chat` | backend.py:76-78 | always a `{response}` body with status 200, never an error shape; the reply is `chatbot_query` of the caller's message, or of "" when the message is missing |
| `Handlers.ChatFailureIsInBand` | backend.py:127-128 | a failed indexed completion reaches the caller as the reply "Error retrieving insights: " + msg with 200 |
| `Handlers.StoreAndAnalyze` | backend.py:139-156 | a failed store or grant signing gives that step's message; otherwise the analysis is run with model "prebuilt-document" on the blob URL, then "?", then the signed token (line 152) |
| `Handlers.AnswerFromUpload` | backend.py:155-181 | a failed upload step gives its message; otherwise the result is the completion service's outcome for the upload request grounded on the document body |
| `Handlers.UploadAndAsk` | backend.py:133-184 | either `{answer}` with 200 or `{error}` with 500, nothing else |
| `Handlers.UploadAndAskOutcomes` | backend.py:181-184 | a failed upload step or a failed completion gives `{error: msg}` with 500; otherwise the completion's answer with 200 |
| `Handlers.ExtractText` | backend.py:187-219 | status is 200, 400 or 500; the body is text exactly when the status is 200; 400 carries "No text extracted from document"; an upstream failure gives its message with 500 |
| `Handlers.ExtractAndUploadDiverge` | backend.py:210-211 | for the same analysed document without paragraphs, extract-text answers 400 while upload-and-ask asks the completion service about the sentinel body |
| `Handlers.MissingKey` | backend.py:226-227 | `str(KeyError(key))`: the key between two single quotes |
| `Handlers.FollowupChat` | backend.py:223-263 | a missing "doc" key gives `{error: "'doc'"}` with 500 and is checked before "history"; a failed completion gives `{error: msg}` with 500; otherwise the answer with 200 |

## Left out

- HTTP routing, form and JSON parsing, and `jsonify` serialisation. Handlers take
  already-parsed values. The exceptions: chat's default of "" for a missing message, and
  follow-up's `KeyError` text for a missing "doc" or "history". A missing upload field
  (`request.files["file"]`, `request.form["question"]`) raises a web-framework error whose
  text depends on the framework version. It is not modelled.
- The health-check route returns a constant string. It is not modelled.
- Environment loading and client construction. The settings are one `Settings` value, and
  a missing environment variable (`None`) is not modelled.
- The blob upload, the SAS signing, the document-analysis submit and wait, and the
  completion calls are external SDK and network calls. Each is an opaque function in
  `Services`. The uploaded file's bytes are not modelled: the store function sees only
  the blob name. Whether the storage service refuses a grant for a missing blob, or
  rejects an expired one, is that service's behaviour.
- `Storage.IsUuidText`: it constrains only length, hyphen positions and hex digits, not the
  version-4 and variant digits of `uuid4()`. Global uniqueness of uuids is not claimed.
  Only "distinct uuids give distinct names" is proved.
- `temperature=0.5` and `max_tokens=1000` are sampling constants sent to the remote
  service, so requests omit them.
- No model covers whether the completion service actually emits the missing-section
  sentence. The code only sends it as instruction text.
- `str()` of a non-string query, question or file name, a `None` file name, and a `None`
  message content in a completion are not modelled. Inputs and answers are strings.
- `Handlers.FollowupChat`: takes `doc` as a string and `history` as a list of `{role,
  content}` string turns, which is narrower than the JSON the route accepts. It does not
  model the `TypeError` (500 with its message) raised at line 251 when `history` is present
  but not a list, such as a string, an object or null. It cannot represent turns with
  other keys or non-string values, which the source forwards unchanged. It cannot
  represent a `doc` given as JSON null, which the source forwards as the content of the
  second system turn.
- Debug `print` calls (logging only).
