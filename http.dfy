/**
 * The Open WebUI HTTP API as both scripts use it. The server is not modelled:
 * each reply is an input, and each request a script sends is recorded as a
 * `Call`, so that what a run sends can be stated and compared.
 */
module Http {
  import opened Values
  import opened Paths

  /** A response: its status code, and its body as `r.json()` decodes it (None: not JSON). */
  datatype Response = Response(code: int, body: Option<Json>)

  /** What `session.get`/`session.post` gives: a response, or the exception the client raised. */
  type Reply = Result<Response>

  /** `r.raise_for_status()`: client and server errors (codes 400 to 599) raise. */
  function RaiseForStatus(reply: Reply): (r: Result<Response>)
    ensures r.Ok? <==> reply.Ok? && !(400 <= reply.value.code < 600)
    ensures r.Ok? ==> r.value == reply.value
    ensures reply.Ok? && 400 <= reply.value.code < 600 ==> r == Err(HttpError(reply.value.code))
  {
    match reply
    case Err(e) => Err(e)
    case Ok(resp) => if 400 <= resp.code < 600 then Err(HttpError(resp.code)) else Ok(resp)
  }

  /** `r.raise_for_status()` followed by `r.json()`. */
  function CheckedJson(reply: Reply): (r: Result<Json>)
    ensures r.Ok? <==> RaiseForStatus(reply).Ok? && reply.value.body.Some?
    ensures r.Ok? ==> r.value == reply.value.body.value
  {
    match RaiseForStatus(reply)
    case Err(e) => Err(e)
    case Ok(resp) => if resp.body.Some? then Ok(resp.body.value) else Err(NotJson)
  }

  /** The requests the two scripts send, one constructor per endpoint; `base` is the base URL used. */
  datatype Call =
    | ListKnowledge(base: string)                      // GET  {base}/api/v1/knowledge/
    | CreateKnowledge(base: string, name: string)      // POST {base}/api/v1/knowledge/create
    | UploadFile(base: string, path: Path)             // POST {base}/api/v1/files/
    | ProcessStatus(base: string, fileId: Json)        // GET  {base}/api/v1/files/{file_id}/process/status
    | AddFile(base: string, kbId: Json, fileId: Json)  // POST {base}/api/v1/knowledge/{kb_id}/file/add
    | ChatCompletion(base: string, model: string, question: string, collectionId: Json) // POST {base}/api/chat/completions
}
