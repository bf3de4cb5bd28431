/**
 * The inline search endpoint: it forwards the received file to SauceNAO with
 * the configured API key and passes SauceNAO's JSON answer back unchanged.
 */
module SearchRoute {
  import opened Wrappers
  import opened Js
  import opened Http

  const Endpoint := "https://saucenao.com/search.php"

  const NoFile := "没有上传文件"
  const NoApiKey := "API Key 未配置"
  const Fallback := "搜索失败"

  /** The form sent to SauceNAO: the file, the key, JSON output (type 2) and at most three results. */
  function SauceForm(file: FormValue, apiKey: string): Form {
    [("file", file), ("api_key", TextEntry(apiKey)), ("output_type", TextEntry("2")), ("numres", TextEntry("3"))]
  }

  function Caught(message: string): Response {
    Response(500, ErrorBody(CaughtMessage(message, Fallback)))
  }

  /** The handler `POST`, given the incoming body, `SAUCENAO_API_KEY` and SauceNAO's reply. */
  function Post(incoming: Incoming, apiKey: Option<string>, sauce: Reply): (x: Exchange)
    ensures x.response.status == 200 || x.response.status == 400 || x.response.status == 500
    ensures x.response.status != 200 ==> IsErrorBody(x.response.body)
    ensures x.response.status == 200 <==> x.sent.Some? && sauce.Answered? && sauce.ok && sauce.body.Parsed?
    ensures x.response.status == 200 ==> x.response.body == sauce.body.json
  {
    match incoming
    case Unreadable(m) => Exchange(None, Caught(m))
    case Form(fields) =>
      var file := FormGet(fields, "file");
      if !FormTruthy(file) then Exchange(None, Response(400, ErrorBody(NoFile)))
      else if apiKey.None? || apiKey.value == "" then Exchange(None, Response(500, ErrorBody(NoApiKey)))
      else
        var sent := Some(Request(Endpoint, SauceForm(file.value, apiKey.value)));
        match sauce
        case Rejected(m) => Exchange(sent, Caught(m))
        case Answered(ok, statusText, body) =>
          if !ok then Exchange(sent, Caught("SauceNAO Error: " + statusText))
          else match body
            case Unparsable(m) => Exchange(sent, Caught(m))
            case Parsed(data) => Exchange(sent, Response(200, data))
  }

  /** A form without a usable `file` entry is refused with 400, whatever the key, before anything is sent. */
  lemma MissingFile(fields: Form, apiKey: Option<string>, sauce: Reply)
    requires !FormTruthy(FormGet(fields, "file"))
    ensures Post(Form(fields), apiKey, sauce) == Exchange(None, Response(400, ErrorBody(NoFile)))
  {
  }

  /** With a file but an absent or empty key the answer is 500 "API Key 未配置", and nothing is sent. */
  lemma MissingKey(fields: Form, apiKey: Option<string>, sauce: Reply)
    requires FormTruthy(FormGet(fields, "file"))
    requires apiKey.None? || apiKey.value == ""
    ensures Post(Form(fields), apiKey, sauce) == Exchange(None, Response(500, ErrorBody(NoApiKey)))
  {
  }

  /** A request goes out exactly when file and key are present; its fields are, in order, file, api_key, output_type, numres. */
  lemma OutgoingForm(fields: Form, apiKey: Option<string>, sauce: Reply)
    ensures var x := Post(Form(fields), apiKey, sauce);
            x.sent.Some? <==> FormTruthy(FormGet(fields, "file")) && apiKey.Some? && apiKey.value != ""
    ensures var x := Post(Form(fields), apiKey, sauce);
            x.sent.Some? ==>
              x.sent.value.url == Endpoint &&
              |x.sent.value.form| == 4 &&
              x.sent.value.form[0] == ("file", FormGet(fields, "file").value) &&
              x.sent.value.form[1] == ("api_key", TextEntry(apiKey.value)) &&
              x.sent.value.form[2] == ("output_type", TextEntry("2")) &&
              x.sent.value.form[3] == ("numres", TextEntry("3"))
  {
  }

  /** A failed SauceNAO response is reported as 500 "SauceNAO Error: " followed by its status text. */
  lemma UpstreamNotOk(fields: Form, key: string, statusText: string, body: Body)
    requires FormTruthy(FormGet(fields, "file")) && key != ""
    ensures Post(Form(fields), Some(key), Answered(false, statusText, body)).response
            == Response(500, ErrorBody("SauceNAO Error: " + statusText))
  {
  }

  /** A successful SauceNAO answer is passed through unchanged with status 200. */
  lemma PassThrough(fields: Form, key: string, statusText: string, data: Json)
    requires FormTruthy(FormGet(fields, "file")) && key != ""
    ensures Post(Form(fields), Some(key), Answered(true, statusText, Parsed(data))).response == Response(200, data)
  {
  }

  /** An error thrown with an empty message is reported as 500 "搜索失败". */
  lemma EmptyMessageDefault(fields: Form, key: string)
    requires FormTruthy(FormGet(fields, "file")) && key != ""
    ensures Post(Form(fields), Some(key), Rejected("")).response == Response(500, ErrorBody(Fallback))
  {
  }
}
