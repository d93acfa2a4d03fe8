/** The JSON bodies and HTTP status codes the handlers return. */
module Responses {

  /** `{"response": ...}`, `{"answer": ...}`, `{"text": ...}` or `{"error": ...}`. */
  datatype Body =
    | Reply(response: string)
    | Answer(answer: string)
    | Text(text: string)
    | Error(error: string)

  datatype Response = Response(body: Body, status: int)

  /** Flask's default status for a plain `jsonify(...)` return. */
  const StatusOk: int := 200
  const StatusBadRequest: int := 400
  const StatusServerError: int := 500
}
