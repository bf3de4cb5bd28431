/**
 * The upload endpoint: it forwards the received file to Telegraph and answers
 * with the public URL of the hosted copy, or with an error.
 */
module UploadRoute {
  import opened Wrappers
  import opened Js
  import opened Http

  const Endpoint := "https://telegra.ph/upload"
  const Host := "https://telegra.ph"

  const NoFile := "没有文件"
  const HostFailed := "上传图床失败"
  const BadShape := "图床返回格式异常"
  const Fallback := "上传失败"

  function UrlBody(url: string): Json {
    JObj(map["url" := JStr(url)])
  }

  /** The `src` of the first element when Telegraph's answer has the shape `[{ src: ... }]`. */
  function HostedPath(result: Json): Option<Json> {
    if !Truthy(Some(result)) then None
    else
      var first := First(result);
      if !Truthy(first) then None
      else match Member(first.value, "src")
        case Normal(src) => if Truthy(src) then src else None
        case Throw(_) => None
  }

  /** The 500 response of the `catch` block. */
  function Caught(message: string): Response {
    Response(500, ErrorBody(CaughtMessage(message, Fallback)))
  }

  /** The handler `POST`, given the incoming body and Telegraph's reply. */
  function Post(incoming: Incoming, telegraph: Reply): (x: Exchange)
    ensures x.response.status == 200 || x.response.status == 400 || x.response.status == 500
    ensures x.response.status == 200 ==> x.response.body.JObj? && x.response.body.members.Keys == {"url"}
    ensures x.response.status != 200 ==> IsErrorBody(x.response.body)
  {
    match incoming
    case Unreadable(m) => Exchange(None, Caught(m))
    case Form(fields) =>
      var file := FormGet(fields, "file");
      if !FormTruthy(file) then Exchange(None, Response(400, ErrorBody(NoFile)))
      else
        var sent := Some(Request(Endpoint, [("file", file.value)]));
        match telegraph
        case Rejected(m) => Exchange(sent, Caught(m))
        case Answered(ok, _, body) =>
          if !ok then Exchange(sent, Caught(HostFailed))
          else match body
            case Unparsable(m) => Exchange(sent, Caught(m))
            case Parsed(result) =>
              match HostedPath(result)
              case Some(src) =>
                // The template literal converts `src` to a string, and that may throw.
                (match ToStr(src)
                 case Throw(m) => Exchange(sent, Caught(m))
                 case Normal(path) => Exchange(sent, Response(200, UrlBody(Host + path))))
              case None => Exchange(sent, Caught(BadShape))
  }

  /** A form without a usable `file` entry is refused with 400 before anything is sent upstream. */
  lemma MissingFile(fields: Form, telegraph: Reply)
    requires !FormTruthy(FormGet(fields, "file"))
    ensures Post(Form(fields), telegraph) == Exchange(None, Response(400, ErrorBody(NoFile)))
  {
  }

  /** Otherwise exactly one request goes to Telegraph, its form holding one field `file` with the received value. */
  lemma ForwardsFile(fields: Form, telegraph: Reply)
    requires FormTruthy(FormGet(fields, "file"))
    ensures Post(Form(fields), telegraph).sent == Some(Request(Endpoint, [("file", FormGet(fields, "file").value)]))
  {
  }

  /** A failed Telegraph response is reported as 500 "上传图床失败". */
  lemma HostNotOk(fields: Form, statusText: string, body: Body)
    requires FormTruthy(FormGet(fields, "file"))
    ensures Post(Form(fields), Answered(false, statusText, body)).response == Response(500, ErrorBody(HostFailed))
  {
  }

  /** An array whose first element has a non-empty `src` string yields the full URL on the Telegraph host. */
  lemma HostedUrl(fields: Form, statusText: string, src: string, element: map<string, Json>, rest: seq<Json>)
    requires FormTruthy(FormGet(fields, "file"))
    requires "src" in element && element["src"] == JStr(src) && src != ""
    ensures Post(Form(fields), Answered(true, statusText, Parsed(JArr([JObj(element)] + rest)))).response
            == Response(200, UrlBody("https://telegra.ph" + src))
  {
  }

  /**
   * A successful answer is the URL when it has the shape and its `src` has a
   * string form, 500 with the TypeError's message when `src` has none, and
   * 500 "图床返回格式异常" without the shape.
   */
  lemma ShapeDecides(fields: Form, statusText: string, result: Json)
    requires FormTruthy(FormGet(fields, "file"))
    ensures var r := Post(Form(fields), Answered(true, statusText, Parsed(result))).response;
            (HostedPath(result).Some? && !Unconvertible(HostedPath(result).value) ==>
               r == Response(200, UrlBody(Host + ToStr(HostedPath(result).value).value))) &&
            (HostedPath(result).Some? && Unconvertible(HostedPath(result).value) ==>
               r == Response(500, ErrorBody(NotPrimitive))) &&
            (HostedPath(result).None? ==> r == Response(500, ErrorBody(BadShape)))
  {
  }

  /** A `src` that is an object with its own `toString` cannot be put in the template literal. */
  lemma UnconvertibleSource(fields: Form, statusText: string, src: map<string, Json>, rest: seq<Json>)
    requires FormTruthy(FormGet(fields, "file"))
    requires "toString" in src
    ensures Post(Form(fields), Answered(true, statusText, Parsed(JArr([JObj(map["src" := JObj(src)])] + rest)))).response
            == Response(500, ErrorBody(NotPrimitive))
  {
  }

  /** `null`, `[]`, `[{}]` and `[{ src: "" }]` are all malformed answers. */
  lemma MalformedAnswers()
    ensures HostedPath(JNull).None?
    ensures HostedPath(JArr([])).None?
    ensures HostedPath(JArr([JObj(map[])])).None?
    ensures HostedPath(JArr([JObj(map["src" := JStr("")])])).None?
  {
  }

  /** A `src` that is present, truthy and has a string form is the only way to a 200, and then the URL starts with the host. */
  lemma SuccessNeedsSource(incoming: Incoming, telegraph: Reply)
    ensures var x := Post(incoming, telegraph);
            x.response.status == 200 <==>
              incoming.Form? && FormTruthy(FormGet(incoming.fields, "file")) &&
              telegraph.Answered? && telegraph.ok && telegraph.body.Parsed? &&
              HostedPath(telegraph.body.json).Some? && !Unconvertible(HostedPath(telegraph.body.json).value)
    ensures var x := Post(incoming, telegraph);
            x.response.status == 200 ==>
              (x.sent.Some? && x.response.body.members["url"].JStr? &&
               |Host| <= |x.response.body.members["url"].s| &&
               x.response.body.members["url"].s[..|Host|] == Host)
  {
  }

  /** An error thrown with an empty message is reported as "上传失败". */
  lemma EmptyMessageDefault(fields: Form)
    requires FormTruthy(FormGet(fields, "file"))
    ensures Post(Form(fields), Rejected("")).response == Response(500, ErrorBody(Fallback))
    ensures Post(Unreadable(""), Rejected("")).response == Response(500, ErrorBody(Fallback))
  {
  }
}
