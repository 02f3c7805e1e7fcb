/** What the front end gets back from the server through `src/services/api.js`: the call
    either throws (network failure, or a reply that is not JSON) or returns the parsed JSON.
    Only the fields the forms read are kept; an absent or null string field is "". */
module ClientApi {

  datatype Call<+T> = Threw(message: string) | Returned(value: T)

  /** The JSON object the single-request endpoints answer with. */
  datatype Json = Json(
    success: bool,
    error: string,
    message: string,
    bearerToken: string,
    newUser: bool,
    refId: string,
    amount: string,
    newPromotionalBalance: string)

  /** `'Error: ' + err.message`, the status most forms show when the call throws. */
  function ErrorStatus(message: string): string
  {
    "Error: " + message
  }
}
