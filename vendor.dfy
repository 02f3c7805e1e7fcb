/** What the server's `makeRequest` hands back from the vendor API (server.js:36-79): either an
    HTTP response with a status and a parsed JSON body, or a transport failure, which the
    source reports as `{status: 0, body: null, error: error.message}`. Only the body fields the
    handlers read are kept; an absent or falsy string field is "". */
module Vendor {
  import opened JsStrings

  /** `body.data`: the payload object of a vendor reply. */
  datatype Data = Data(
    token: string,
    accessToken: string,
    refId: string,
    amount: string,
    newPromotionalBalance: string,
    description: string,
    balanceLogRefNo: string)

  /** The parsed JSON body. `success` is None when the field is absent. */
  datatype Body = Body(
    success: Option<bool>,
    message: string,
    token: string,
    accessToken: string,
    data: Option<Data>)

  datatype Reply =
    | Response(code: nat, body: Option<Body>)
    | TransportError(message: string)

  /** `result.status`: 0 after a transport failure. */
  function Status(r: Reply): nat
  {
    match r
    case Response(code, _) => code
    case TransportError(_) => 0
  }

  /** `result.body`: null after a transport failure. */
  function BodyOf(r: Reply): Option<Body>
  {
    match r
    case Response(_, body) => body
    case TransportError(_) => None
  }

  /** `result.error`: "" (falsy) for an HTTP response. A transport failure with an empty
      message is falsy too, and the handlers then fall through to the status checks. */
  function ErrorText(r: Reply): string
  {
    match r
    case Response(_, _) => ""
    case TransportError(m) => m
  }

  /** `result.body?.message`, "" when absent. */
  function BodyMessage(r: Reply): string
  {
    match BodyOf(r)
    case Some(b) => b.message
    case None => ""
  }

  /** `result.body?.message || fallback`. */
  function MessageOr(r: Reply, fallback: string): (m: string)
    ensures fallback != "" ==> m != ""
    ensures BodyMessage(r) != "" ==> m == BodyMessage(r)
  {
    Or(BodyMessage(r), fallback)
  }

  /** `result.body?.data`, None when absent. */
  function DataOf(r: Reply): Option<Data>
  {
    match BodyOf(r)
    case Some(b) => b.data
    case None => None
  }

  /** `result.status === 200 && result.body && result.body.success`. */
  predicate IsOkSuccess(r: Reply)
  {
    Status(r) == 200 && BodyOf(r).Some? && BodyOf(r).value.success == Some(true)
  }

  /** The text `HTTP <status>` the batch handlers use. */
  function HttpStatusText(status: nat): (t: string)
    ensures |t| > 5 && t[..5] == "HTTP " && t[5..] == NatToString(status)
  {
    "HTTP " + NatToString(status)
  }
}
