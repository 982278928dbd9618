/**
 * The front end's view of the network: the requests it sends and the replies
 * it receives.  Every reply is an input of the model.
 */
module Http {
  import opened Wrappers
  import opened JsValues

  datatype HttpMethod = GET | POST | PUT | DELETE

  /** One `fetch`: the verb, the URL, the JSON payload, and the bearer token sent with it. */
  datatype Fetch = Fetch(verb: HttpMethod, url: string, body: Option<JsValue>, bearer: Option<string>)

  /**
   * One `fetch` exchange as seen by the caller: either `fetch` rejected (a network
   * failure, with its message) or a response arrived with a status and a body.
   */
  datatype Exchange =
    | NetworkError(message: string)
    | Response(status: int, statusText: string, body: Parsed)

  /** `response.ok`. */
  predicate IsOk(status: int) { 200 <= status <= 299 }

  /** A response with an ok status. */
  predicate Succeeded(reply: Exchange) { reply.Response? && IsOk(reply.status) }
}
