/**
 * The shared request helper: URL joining, the bearer header taken from the
 * session's `authToken` slot, the per-verb default for whether a request is
 * authenticated, the rule that turns a response body into a value, and the
 * rule that turns a failed response into an error message.
 */
module ApiService {
  import opened Wrappers
  import opened Text
  import opened JsValues
  import opened Storage
  import opened Http
  import Config

  const JSON_CONTENT_TYPE: string := "application/json"

  /** `base` without one trailing `/`. */
  function StripTrailingSlash(base: string): (r: string)
    ensures EndsWith(base, "/") ==> r + "/" == base
    ensures !EndsWith(base, "/") ==> r == base
  {
    if EndsWith(base, "/") then base[..|base| - 1] else base
  }

  /** `ApiService.getApiUrl`: the base without one trailing `/`, a single `/`, the path without one leading `/`. */
  function GetApiUrl(apiUrl: string, path: string): (url: string)
    ensures !EndsWith(apiUrl, "/") ==> StartsWith(url, apiUrl + "/")
    ensures EndsWith(apiUrl, "/") ==> StartsWith(url, apiUrl)
    ensures EndsWith(url, Config.StripLeadingSlash(path))
    ensures |url| == |StripTrailingSlash(apiUrl)| + 1 + |Config.StripLeadingSlash(path)|
  {
    StripTrailingSlash(apiUrl) + "/" + Config.StripLeadingSlash(path)
  }

  /** A leading slash on the endpoint makes no difference. */
  lemma GetApiUrlLeadingSlash(apiUrl: string, path: string)
    requires !StartsWith(path, "/")
    ensures GetApiUrl(apiUrl, "/" + path) == GetApiUrl(apiUrl, path)
  {
    assert StartsWith("/" + path, "/");
    assert ("/" + path)[1..] == path;
  }

  /**
   * The two `getApiUrl` helpers agree unless the configured base ends in `/`;
   * then the configuration module's URL keeps the doubled slash and is one
   * character longer.
   */
  lemma GetApiUrlVersusConfig(c: Config.AppConfig, path: string)
    ensures !EndsWith(c.apiUrl, "/") ==> Config.GetApiUrl(c, path) == GetApiUrl(c.apiUrl, path)
    ensures EndsWith(c.apiUrl, "/") ==>
      && |Config.GetApiUrl(c, path)| == |GetApiUrl(c.apiUrl, path)| + 1
      && Config.GetApiUrl(c, path)[|c.apiUrl| - 1..|c.apiUrl| + 1] == "//"
  {
  }

  /**
   * `getAuthHeaders`: always the JSON content type; in a browser, also a bearer
   * header when the `authToken` slot holds a non-empty string.
   */
  method GetAuthHeaders(store: LocalStorage, inBrowser: bool) returns (headers: map<string, string>)
    ensures "Content-Type" in headers && headers["Content-Type"] == JSON_CONTENT_TYPE
    ensures "Authorization" in headers <==> inBrowser && HasTruthy(store.items, AUTH_TOKEN)
    ensures "Authorization" in headers ==> headers["Authorization"] == "Bearer " + store.items[AUTH_TOKEN]
    ensures headers.Keys <= {"Content-Type", "Authorization"}
  {
    headers := map["Content-Type" := JSON_CONTENT_TYPE];
    if inBrowser {
      var authToken := GetItem(store.items, AUTH_TOKEN);
      if authToken.Some? && authToken.value != "" {
        headers := headers["Authorization" := "Bearer " + authToken.value];
      }
    }
  }

  /** Whether a verb's helper authenticates when the caller does not say: `get`/`post` no, `put`/`delete` yes. */
  function DefaultAuthenticated(m: HttpMethod): (r: bool)
    ensures r <==> m in {PUT, DELETE}
  {
    match m
    case GET => false
    case POST => false
    case PUT => true
    case DELETE => true
  }

  /**
   * What arrived for a request: the status line, the content type, the body text,
   * and what `JSON.parse` makes of that text.
   */
  datatype RawResponse = RawResponse(
    status: int,
    statusText: string,
    contentType: Option<string>,
    text: string,
    json: Parsed)

  datatype Transport = Unreachable(message: string) | Delivered(response: RawResponse)

  /** A call of one of the verb helpers: the verb, the endpoint, the payload and the `authenticated` flag. */
  datatype Call = Call(verb: HttpMethod, endpoint: string, body: Option<JsValue>, authenticated: bool)

  /** A call that leaves `authenticated` at the verb's default. */
  function DefaultCall(verb: HttpMethod, endpoint: string, body: Option<JsValue>): (c: Call)
    ensures c.authenticated <==> verb in {PUT, DELETE}
  {
    Call(verb, endpoint, body, DefaultAuthenticated(verb))
  }

  datatype Request = Request(verb: HttpMethod, url: string, headers: map<string, string>, body: Option<JsValue>)

  /** The settled promise of a helper call: the data, or the thrown error's message and `status` property. */
  datatype ApiResult = Ok(data: JsValue) | Failed(message: string, status: Option<int>)

  /** `parseResponse`: JSON is parsed, an empty JSON body is `{}`, anything else is returned as text. */
  function ParseResponse(r: RawResponse): (result: ApiResult)
    ensures r.contentType.Some? && Contains(r.contentType.value, JSON_CONTENT_TYPE) && r.text == "" ==>
      result == Ok(Obj([]))
    ensures (r.contentType.None? || !Contains(r.contentType.value, JSON_CONTENT_TYPE)) ==>
      result == Ok(Str(r.text))
    ensures r.contentType.Some? && Contains(r.contentType.value, JSON_CONTENT_TYPE) && r.text != "" && r.json.Json? ==>
      result == Ok(r.json.value)
    ensures r.contentType.Some? && Contains(r.contentType.value, JSON_CONTENT_TYPE) && r.text != "" && r.json.NotJson? ==>
      result == Failed(r.json.message, None)
    ensures result.Failed? ==> result.status.None? && r.json.NotJson? && r.text != ""
  {
    if r.contentType.Some? && Contains(r.contentType.value, JSON_CONTENT_TYPE) then
      if r.text == "" then Ok(Obj([]))
      else
        match r.json
        case Json(v) => Ok(v)
        case NotJson(m) => Failed(m, None)
    else Ok(Str(r.text))
  }

  /**
   * `handleError`: the message is the body's `detail`, else its `message`, else
   * its `error`, else `HTTP error <status>`; a body that cannot be read as an
   * object gives the status text.  The status is attached in every case.
   */
  function HandleError(r: RawResponse): (e: ApiResult)
    ensures e.Failed? && e.status == Some(r.status)
    ensures (r.json.NotJson? || r.json.value in {Null, Undefined}) ==> e.message == r.statusText
    ensures r.json.Json? && r.json.value !in {Null, Undefined} ==>
      var d := r.json.value;
      e.message ==
        if Truthy(Prop(d, "detail")) then ToStr(Prop(d, "detail"))
        else if Truthy(Prop(d, "message")) then ToStr(Prop(d, "message"))
        else if Truthy(Prop(d, "error")) then ToStr(Prop(d, "error"))
        else "HTTP error " + IntToDecimal(r.status)
  {
    var message :=
      match r.json
      case NotJson(_) => r.statusText
      case Json(d) =>
        if d.Null? || d.Undefined? then r.statusText
        else if Truthy(Prop(d, "detail")) then ToStr(Prop(d, "detail"))
        else if Truthy(Prop(d, "message")) then ToStr(Prop(d, "message"))
        else if Truthy(Prop(d, "error")) then ToStr(Prop(d, "error"))
        else "HTTP error " + IntToDecimal(r.status);
    Failed(message, Some(r.status))
  }

  /** The shared body of `get`, `post`, `put` and `delete`. */
  method Send(m: HttpMethod, endpoint: string, data: Option<JsValue>, authenticated: bool,
              apiUrl: string, store: LocalStorage, inBrowser: bool, transport: Transport)
    returns (sent: Request, result: ApiResult)
    ensures sent.verb == m && sent.url == GetApiUrl(apiUrl, endpoint) && sent.body == data
    ensures "Authorization" in sent.headers <==> authenticated && inBrowser && HasTruthy(store.items, AUTH_TOKEN)
    ensures "Content-Type" in sent.headers && sent.headers["Content-Type"] == JSON_CONTENT_TYPE
    ensures transport.Unreachable? ==> result == Failed(transport.message, None)
    ensures transport.Delivered? && !IsOk(transport.response.status) ==> result == HandleError(transport.response)
    ensures transport.Delivered? && IsOk(transport.response.status) ==> result == ParseResponse(transport.response)
  {
    var url := GetApiUrl(apiUrl, endpoint);
    var headers: map<string, string>;
    if authenticated {
      headers := GetAuthHeaders(store, inBrowser);
    } else {
      headers := map["Content-Type" := JSON_CONTENT_TYPE];
    }
    sent := Request(m, url, headers, data);
    match transport {
      case Unreachable(message) =>
        result := Failed(message, None);
      case Delivered(response) =>
        if !IsOk(response.status) {
          result := HandleError(response);
        } else {
          result := ParseResponse(response);
        }
    }
  }

  method Get(endpoint: string, apiUrl: string, store: LocalStorage, inBrowser: bool, transport: Transport,
             authenticated: bool := DefaultAuthenticated(GET))
    returns (sent: Request, result: ApiResult)
    ensures sent.verb == GET && sent.url == GetApiUrl(apiUrl, endpoint) && sent.body.None?
    ensures "Authorization" in sent.headers <==> authenticated && inBrowser && HasTruthy(store.items, AUTH_TOKEN)
    ensures transport.Unreachable? ==> result == Failed(transport.message, None)
    ensures transport.Delivered? && !IsOk(transport.response.status) ==> result == HandleError(transport.response)
    ensures transport.Delivered? && IsOk(transport.response.status) ==> result == ParseResponse(transport.response)
  {
    sent, result := Send(GET, endpoint, None, authenticated, apiUrl, store, inBrowser, transport);
  }

  method Post(endpoint: string, data: JsValue, apiUrl: string, store: LocalStorage, inBrowser: bool,
              transport: Transport, authenticated: bool := DefaultAuthenticated(POST))
    returns (sent: Request, result: ApiResult)
    ensures sent.verb == POST && sent.url == GetApiUrl(apiUrl, endpoint) && sent.body == Some(data)
    ensures "Authorization" in sent.headers <==> authenticated && inBrowser && HasTruthy(store.items, AUTH_TOKEN)
    ensures transport.Unreachable? ==> result == Failed(transport.message, None)
    ensures transport.Delivered? && !IsOk(transport.response.status) ==> result == HandleError(transport.response)
    ensures transport.Delivered? && IsOk(transport.response.status) ==> result == ParseResponse(transport.response)
  {
    sent, result := Send(POST, endpoint, Some(data), authenticated, apiUrl, store, inBrowser, transport);
  }

  method Put(endpoint: string, data: JsValue, apiUrl: string, store: LocalStorage, inBrowser: bool,
             transport: Transport, authenticated: bool := DefaultAuthenticated(PUT))
    returns (sent: Request, result: ApiResult)
    ensures sent.verb == PUT && sent.url == GetApiUrl(apiUrl, endpoint) && sent.body == Some(data)
    ensures "Authorization" in sent.headers <==> authenticated && inBrowser && HasTruthy(store.items, AUTH_TOKEN)
    ensures transport.Unreachable? ==> result == Failed(transport.message, None)
    ensures transport.Delivered? && !IsOk(transport.response.status) ==> result == HandleError(transport.response)
    ensures transport.Delivered? && IsOk(transport.response.status) ==> result == ParseResponse(transport.response)
  {
    sent, result := Send(PUT, endpoint, Some(data), authenticated, apiUrl, store, inBrowser, transport);
  }

  method Delete(endpoint: string, apiUrl: string, store: LocalStorage, inBrowser: bool, transport: Transport,
                authenticated: bool := DefaultAuthenticated(DELETE))
    returns (sent: Request, result: ApiResult)
    ensures sent.verb == DELETE && sent.url == GetApiUrl(apiUrl, endpoint) && sent.body.None?
    ensures "Authorization" in sent.headers <==> authenticated && inBrowser && HasTruthy(store.items, AUTH_TOKEN)
    ensures transport.Unreachable? ==> result == Failed(transport.message, None)
    ensures transport.Delivered? && !IsOk(transport.response.status) ==> result == HandleError(transport.response)
    ensures transport.Delivered? && IsOk(transport.response.status) ==> result == ParseResponse(transport.response)
  {
    sent, result := Send(DELETE, endpoint, None, authenticated, apiUrl, store, inBrowser, transport);
  }
}
