/** The browser's request helper (`apiRequest` in the API client): header
    assembly, tolerant JSON reading, and the error value a failed request
    throws. `fetch` is replaced by its outcome, and `JSON.parse` by a
    parameter that yields `None` where it would throw. */
module ApiClient {
  import opened Wrappers
  import opened Text

  const JsonContentType := "application/json"
  const NetworkErrorText := "Network error. Please check your connection."
  const DevBaseUrl := "/api"
  const ProdBaseUrl := "http://localhost:8000"

  /** `${BASE_URL}${endpoint}`: the development proxy or the server's address. */
  function RequestUrl(dev: bool, endpoint: string): (url: string)
    ensures dev ==> url == DevBaseUrl + endpoint
    ensures !dev ==> url == ProdBaseUrl + endpoint
  {
    (if dev then DevBaseUrl else ProdBaseUrl) + endpoint
  }

  /** `safeJsonParse`: an empty body or one that is not JSON reads as `{}`. */
  function SafeJsonParse<T>(text: string, parse: string -> Option<T>, emptyObject: T): (v: T)
    ensures text == "" ==> v == emptyObject
    ensures text != "" && parse(text).None? ==> v == emptyObject
    ensures text != "" && parse(text).Some? ==> v == parse(text).value
  {
    if text == "" then emptyObject
    else match parse(text)
      case None => emptyObject
      case Some(v) => v
  }

  /** One FastAPI validation error: the string entries of its `loc` (none when `loc` is
      absent or not an array) and its `msg` (`None` when missing). */
  datatype ValidationItem = ValidationItem(loc: seq<string>, msg: Option<string>)

  /** `detail` of an error body: absent, a string, a list of validation errors, or any
      other JSON value. */
  datatype Detail = NoDetail | DetailText(text: string) | DetailList(items: seq<ValidationItem>) | DetailOther

  /** `{ detail?: any; message?: string }` */
  datatype ErrorBody = ErrorBody(message: Option<string>, detail: Detail)

  /** The value `apiRequest` throws: an `ApiError`, or any other error passed on untouched. */
  datatype Thrown = ApiError(message: string, status: int, detail: Detail) | Rethrown(name: string, text: string)

  /** The error message: `message`, else a string `detail`, else the first validation error's
      `msg`, else "HTTP <status>: <statusText>". */
  function ErrorMessage(body: ErrorBody, status: nat, statusText: string): (m: string)
    ensures Truthy(body.message) ==> m == body.message.value
    ensures !Truthy(body.message) && body.detail.DetailText? && body.detail.text != "" ==> m == body.detail.text
    ensures !Truthy(body.message) && body.detail.DetailList? && |body.detail.items| > 0 && Truthy(body.detail.items[0].msg)
      ==> m == body.detail.items[0].msg.value
    ensures !Truthy(body.message)
      && !(body.detail.DetailText? && body.detail.text != "")
      && !(body.detail.DetailList? && |body.detail.items| > 0 && Truthy(body.detail.items[0].msg))
      ==> m == "HTTP " + NatToString(status) + ": " + statusText
  {
    var chosen :=
      if Truthy(body.message) then body.message
      else match body.detail
        case DetailText(t) => Some(t)
        case DetailList(items) => if |items| > 0 && Truthy(items[0].msg) then items[0].msg else body.message
        case _ => body.message;
    if Truthy(chosen) then chosen.value else "HTTP " + NatToString(status) + ": " + statusText
  }

  /** What `fetch` did: it threw (`isTypeError` and the error's message), or answered. */
  datatype FetchOutcome =
    | Threw(isTypeError: bool, name: string, text: string)
    | Answered(ok: bool, status: nat, statusText: string, body: string)

  /** `apiRequest`'s result: the parsed body, or what it throws. */
  function Request<T>(outcome: FetchOutcome, parse: string -> Option<T>, emptyObject: T,
                      parseError: string -> Option<ErrorBody>): (r: Result<T, Thrown>)
    ensures outcome.Threw? && outcome.isTypeError && outcome.text == "Failed to fetch" ==>
      r == Failure(ApiError(NetworkErrorText, 0, NoDetail))
    ensures outcome.Threw? && !(outcome.isTypeError && outcome.text == "Failed to fetch") ==>
      r == Failure(Rethrown(outcome.name, outcome.text))
    ensures outcome.Answered? && !outcome.ok ==>
      r.Failure? && r.error.ApiError? && r.error.status == outcome.status
      && r.error.detail == SafeJsonParse(outcome.body, parseError, ErrorBody(None, NoDetail)).detail
      && r.error.message == ErrorMessage(SafeJsonParse(outcome.body, parseError, ErrorBody(None, NoDetail)),
                                         outcome.status, outcome.statusText)
    ensures outcome.Answered? && outcome.ok ==> r == Success(SafeJsonParse(outcome.body, parse, emptyObject))
  {
    match outcome
    case Threw(isTypeError, name, text) =>
      if isTypeError && text == "Failed to fetch" then Failure(ApiError(NetworkErrorText, 0, NoDetail))
      else Failure(Rethrown(name, text))
    case Answered(ok, status, statusText, body) =>
      if !ok then
        var e := SafeJsonParse(body, parseError, ErrorBody(None, NoDetail));
        Failure(ApiError(ErrorMessage(e, status, statusText), status, e.detail))
      else Success(SafeJsonParse(body, parse, emptyObject))
  }

  /** The headers sent: "Content-Type: application/json" overlaid by the caller's headers,
      then the bearer token when one is stored, then Content-Type removed for form data. */
  method BuildHeaders(token: Option<string>, callerHeaders: map<string, string>, isFormData: bool)
    returns (headers: map<string, string>)
    ensures "Authorization" in headers <==> Truthy(token) || "Authorization" in callerHeaders
    ensures Truthy(token) ==> headers["Authorization"] == "Bearer " + token.value
    ensures "Content-Type" in headers <==> !isFormData
    ensures !isFormData ==>
      headers["Content-Type"] == (if "Content-Type" in callerHeaders then callerHeaders["Content-Type"] else JsonContentType)
    ensures forall k :: k in callerHeaders && k != "Authorization" && k != "Content-Type" ==>
      k in headers && headers[k] == callerHeaders[k]
    ensures forall k :: k in headers ==> k in callerHeaders || k == "Authorization" || k == "Content-Type"
  {
    headers := map["Content-Type" := JsonContentType] + callerHeaders;
    if Truthy(token) {
      headers := headers["Authorization" := "Bearer " + token.value];
    }
    if isFormData {
      headers := headers - {"Content-Type"};
    }
  }
}
