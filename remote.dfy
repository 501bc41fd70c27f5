/**
 * The three remote operations as oracle replies, and the rules by which
 * the code turns a reply into success or failure. `initiatePart` and
 * `mergePartNew` go through the shared axios instance of
 * src/utils/http.js, whose response interceptor rejects when the payload's
 * `code` is not 200; `uploadPartNew` uses plain axios and checks
 * `res.data.code` itself.
 */
module Remote {
  import opened Wrappers

  /** The payload's success sentinel. */
  const SuccessCode: int := 200

  /** `content` of a payload; only `uploadId` is read. */
  datatype Content = Content(uploadId: string)

  /** `res.data`: the JSON body the backend sends. */
  datatype Payload = Payload(code: int, chnDesc: string, content: Content)

  /** The axios response object: the HTTP status and the body under `data`. */
  datatype HttpResponse = HttpResponse(status: nat, data: Payload)

  /**
   * What the transport did with a request: axios rejected it (network
   * error, timeout, HTTP status outside 2xx, cancellation), or it came back.
   */
  datatype Reply = Rejected(reason: string) | Answered(response: HttpResponse)

  datatype Error =
    | TransportError(reason: string)   // an axios rejection, passed on as it is
    | StatusError(message: string)     // http.js: `new Error(res.chnDesc || 'Error')`
    | PartRejected(data: Payload)      // uploadChunk: `reject(res.data)`

  /**
   * A request through the http.js instance: a rejection is passed on, a
   * payload whose code is not 200 becomes an Error carrying `chnDesc` (or
   * 'Error' when that is empty), and anything else resolves with the
   * whole response object.
   */
  function Http(reply: Reply): (r: Result<HttpResponse, Error>)
    ensures r.Ok? <==> reply.Answered? && reply.response.data.code == SuccessCode
    ensures r.Ok? ==> r.value == reply.response
    ensures reply.Rejected? ==> r == Err(TransportError(reply.reason))
    ensures reply.Answered? && reply.response.data.code != SuccessCode ==>
              r == Err(StatusError(if reply.response.data.chnDesc != "" then reply.response.data.chnDesc else "Error"))
    ensures r.Err? && r.error.StatusError? ==> r.error.message != ""
  {
    match reply
    case Rejected(reason) => Err(TransportError(reason))
    case Answered(response) =>
      if response.data.code != SuccessCode then
        Err(StatusError(if response.data.chnDesc != "" then response.data.chnDesc else "Error"))
      else Ok(response)
  }

  /**
   * How the promise of `uploadChunk` settles: `reject(res.data)` runs
   * before `resolve(res.data)`, and the first call wins, so a payload whose
   * code is not 200 rejects with that payload; a transport rejection is
   * passed on by the `catch`.
   */
  function PartResult(reply: Reply): (r: Result<Payload, Error>)
    ensures r.Ok? <==> reply.Answered? && reply.response.data.code == SuccessCode
    ensures r.Ok? ==> r.value == reply.response.data
    ensures reply.Rejected? ==> r == Err(TransportError(reply.reason))
    ensures reply.Answered? && reply.response.data.code != SuccessCode ==>
              r == Err(PartRejected(reply.response.data))
  {
    match reply
    case Rejected(reason) => Err(TransportError(reason))
    case Answered(response) =>
      if response.data.code != SuccessCode then Err(PartRejected(response.data))
      else Ok(response.data)
  }

  /**
   * The upload identifier `initChunk` obtains, read as the code evidently
   * intends, from the body's `content`. None means the promise of
   * `initChunk` never settles: the `await` inside `new Promise(async resolve
   * => ...)` throws into a promise nobody observes, and `resolve` is never
   * reached, so a failed initiate hangs the session instead of reaching the
   * `catch`.
   */
  function InitUploadId(reply: Reply): (id: Option<string>)
    ensures id.Some? <==> Http(reply).Ok?
    ensures id.Some? ==> id.value == reply.response.data.content.uploadId
  {
    match Http(reply)
    case Err(_) => None
    case Ok(response) => Some(response.data.content.uploadId)
  }

  /**
   * The `content` member of an axios response object. The object's members
   * are `data`, `status`, `statusText`, `headers`, `config` and `request`;
   * the backend's `content` sits one level down, in `data`.
   */
  function EnvelopeContent(response: HttpResponse): Option<Content>
  {
    None
  }

  /**
   * `initChunk` as written: `const { content } = await $http.post(...)`
   * destructures the response object that the http.js interceptor resolves
   * with, so `content` is undefined and `content.uploadId` throws before
   * `resolve`: the promise never settles, whatever the backend answers.
   */
  function InitUploadIdAsWritten(reply: Reply): (id: Option<string>)
  {
    match Http(reply)
    case Err(_) => None
    case Ok(response) =>
      match EnvelopeContent(response)
      case None => None
      case Some(content) => Some(content.uploadId)
  }

  /**
   * The discrepancy: for a successful initiate the intended reading yields
   * the upload identifier, while the code as written never settles.
   */
  lemma InitiateAsWrittenNeverSettles(reply: Reply)
    requires reply.Answered? && reply.response.data.code == SuccessCode
    ensures InitUploadIdAsWritten(reply) == None
    ensures InitUploadId(reply) == Some(reply.response.data.content.uploadId)
  {
  }
}
