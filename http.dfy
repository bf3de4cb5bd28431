/**
 * Multipart form entries, the requests the handlers send, and what comes back.
 * `fetch`, `request.formData()`, `response.json()` and `NextResponse.json`
 * are not executed: their outcomes are values of these types.
 */
module Http {
  import opened Wrappers
  import opened Js

  /** An uploaded file: its name, media type and bytes. */
  datatype Blob = Blob(name: string, mediaType: string, bytes: seq<int>)

  /** The value of one form entry: a file or a plain string. */
  datatype FormValue = FileEntry(file: Blob) | TextEntry(text: string)

  type Form = seq<(string, FormValue)>

  /** `formData.get(name)`: the value of the first entry with that name, or `null`. */
  function FormGet(form: Form, name: string): (r: Option<FormValue>)
    ensures r.None? <==> forall i :: 0 <= i < |form| ==> form[i].0 != name
    ensures r.Some? ==> exists i :: 0 <= i < |form| && form[i] == (name, r.value) &&
                                    (forall j :: 0 <= j < i ==> form[j].0 != name)
  {
    if form == [] then None
    else if form[0].0 == name then Some(form[0].1)
    else FormGet(form[1..], name)
  }

  /** `!!value` for a form entry: a file is truthy, a string when it is not empty. */
  predicate FormTruthy(v: Option<FormValue>) {
    match v
    case None => false
    case Some(FileEntry(_)) => true
    case Some(TextEntry(t)) => t != ""
  }

  /** The body of an incoming request as `request.formData()` reads it. */
  datatype Incoming = Form(fields: Form) | Unreadable(message: string)

  /** A POST request with a multipart body. */
  datatype Request = Request(url: string, form: Form)

  /** What `response.json()` yields: a JSON value, or the message of the error it throws. */
  datatype Body = Parsed(json: Json) | Unparsable(message: string)

  /** The outcome of a `fetch`: an answer (with `response.ok` and `response.statusText`), or a rejection. */
  datatype Reply = Answered(ok: bool, statusText: string, body: Body) | Rejected(message: string)

  /** What a route handler returns: `NextResponse.json(body, { status })`. */
  datatype Response = Response(status: int, body: Json)

  /** A handler's run: the upstream request it sent, if any, and its response. */
  datatype Exchange = Exchange(sent: Option<Request>, response: Response)

  function ErrorBody(message: string): Json {
    JObj(map["error" := JStr(message)])
  }

  /** A body of the form `{ error: message }` with a non-empty message. */
  predicate IsErrorBody(j: Json) {
    j.JObj? && j.members.Keys == {"error"} && j.members["error"].JStr? && j.members["error"].s != ""
  }

  /** The reply a browser `fetch` gets for a route's response. */
  function Delivered(r: Response, statusText: string): Reply {
    Answered(200 <= r.status <= 299, statusText, Parsed(r.body))
  }
}
