/**
 * The image search button: its state, the two handlers that change it, the
 * redirect timer, and the button's own guard. The handlers are specified by
 * functions on a snapshot of the state (`Ui`); the class runs them as
 * successive field updates, as the component does with its state setters.
 */
module SearchButton {
  import opened Wrappers
  import opened Js
  import opened Http
  import opened Engines

  const Requesting := "正在请求 SauceNAO..."
  const Done := "搜索完成！"
  const NoMatch := "未找到相似图片"
  const SearchFailed := "搜索出错"
  const Uploading := "1/2 正在上传图片生成链接..."
  const Redirecting := "2/2 正在跳转搜索引擎..."
  const UploadFailed := "图片上传失败，无法生成链接"
  const RequestFailed := "请求失败"

  const SearchApi := "/api/search"
  const UploadApi := "/api/upload"

  /**
   * A snapshot of the component's state. `result` is `None` for `undefined`
   * and for the `null` it starts with and is cleared to; a first search result
   * that is itself `null` is `Some(JNull)` (falsy either way). `scheduled`
   * holds the targets of the redirect timers that have been set and have not
   * fired yet.
   */
  datatype Ui = Ui(
    loading: bool,
    result: Value,
    error: string,
    statusMsg: string,
    selectedEngine: string,
    selectedFile: Option<Blob>,
    scheduled: seq<string>)

  /** The state before any interaction. */
  function Initial(): Ui {
    Ui(false, None, "", "", DefaultEngineId, None, [])
  }

  /** `handleFileChange`: a chosen file replaces the selection and clears result, error and status. */
  function FileChanged(u: Ui, file: Option<Blob>): Ui {
    if file.None? then u
    else u.(selectedFile := file, result := None, error := "", statusMsg := "")
  }

  /** The `<select>`'s change handler. */
  function EngineSelected(u: Ui, id: string): Ui {
    u.(selectedEngine := id)
  }

  /**
   * The message of what `throw new Error(data.error || d)` throws: the new
   * Error's message, or the TypeError raised by reading a member of a `null`
   * `data` or by converting an `error` that has no string form.
   */
  function Rejection(data: Json, d: string): string {
    match Member(data, "error")
    case Throw(m) => m
    case Normal(e) =>
      match ErrorMessage(Or(e, d))
      case Throw(m) => m
      case Normal(text) => text
  }

  /**
   * The `try` block of the inline branch after its request: `Normal(Some(v))`
   * when there are results (`v` is `data.results[0]`), `Normal(None)` when
   * there are none, `Throw(m)` when it throws.
   */
  function InlineAnswer(reply: Reply): Completion<Option<Value>> {
    match reply
    case Rejected(m) => Throw(m)
    case Answered(_, _, Unparsable(m)) => Throw(m)
    case Answered(ok, _, Parsed(data)) =>
      if !ok then Throw(Rejection(data, SearchFailed))
      else match Member(data, "results")
        case Throw(m) => Throw(m)
        case Normal(results) =>
          if Truthy(results) && HasPositiveLength(results.value) then Normal(Some(First(results.value)))
          else Normal(None)
  }

  /** The `try` block of the redirect branch after the upload: `uploadData.url`, or what it throws. */
  function UploadedUrl(reply: Reply): Completion<Json> {
    match reply
    case Rejected(m) => Throw(m)
    case Answered(_, _, Unparsable(m)) => Throw(m)
    case Answered(ok, _, Parsed(data)) =>
      if !ok then Throw(Rejection(data, UploadFailed))
      else match Member(data, "url")
        case Throw(m) => Throw(m)
        case Normal(url) => if Truthy(url) then Normal(url.value) else Throw(Rejection(data, UploadFailed))
  }

  /** The `catch` block. */
  function Caught(u: Ui, message: string): Ui {
    u.(error := CaughtMessage(message, RequestFailed), loading := false)
  }

  /** One run of `handleSearch`: the new state, the request it sent and the redirect target it built. */
  datatype SearchStep = SearchStep(ui: Ui, sent: Option<Request>, target: Option<string>)

  /**
   * `handleSearch`, run to completion on a snapshot of the state; `reply` is
   * the outcome of the one request it sends, if it sends one.
   */
  function Searched(u: Ui, reply: Reply): SearchStep {
    if u.selectedFile.None? then SearchStep(u, None, None)
    else match Find(ENGINES, u.selectedEngine)
      case None => SearchStep(u, None, None)
      case Some(engine) => Run(u, BranchOf(engine), reply)
  }

  /** The part of `handleSearch` after the engine is found, for the branch the engine takes. */
  function Run(u: Ui, branch: Branch, reply: Reply): SearchStep
    requires u.selectedFile.Some?
  {
    var started := u.(loading := true, error := "", result := None);
    var form := [("file", FileEntry(u.selectedFile.value))];
    match branch
    case Inline =>
      var s := started.(statusMsg := Requesting);
      var next :=
        match InlineAnswer(reply)
        case Throw(m) => Caught(s, m)
        case Normal(Some(first)) => s.(result := first, statusMsg := Done, loading := false)
        case Normal(None) => s.(error := NoMatch, loading := false);
      SearchStep(next, Some(Request(SearchApi, form)), None)
    case Redirect(template) =>
      var s := started.(statusMsg := Uploading);
      var sent := Some(Request(UploadApi, form));
      (match UploadedUrl(reply)
       case Throw(m) => SearchStep(Caught(s, m), sent, None)
       case Normal(imageUrl) =>
         // encodeURIComponent converts the URL to a string first, and that may throw.
         var r := s.(statusMsg := Redirecting);
         (match ToStr(imageUrl)
          case Throw(m) => SearchStep(Caught(r, m), sent, None)
          case Normal(url) =>
            var target := BuildTarget(template, url);
            SearchStep(r.(scheduled := r.scheduled + [target]), sent, Some(target))))
    case Neither => SearchStep(started, None, None)
  }

  /** The callback of the oldest redirect timer: it opens its target and clears `loading` and the status. */
  function TimerFired(u: Ui): Ui
    requires u.scheduled != []
  {
    u.(loading := false, statusMsg := "", scheduled := u.scheduled[1..])
  }

  /** The button is disabled while no file is chosen or a search is loading. */
  predicate SearchEnabled(u: Ui) {
    u.selectedFile.Some? && !u.loading
  }

  /** A click on the button. */
  function Clicked(u: Ui, reply: Reply): SearchStep {
    if SearchEnabled(u) then Searched(u, reply) else SearchStep(u, None, None)
  }

  /** Loading exactly while one redirect timer is pending. */
  predicate Settled(u: Ui) {
    (u.loading <==> u.scheduled != []) && |u.scheduled| <= 1
  }

  class ImageSearchButton {
    var loading: bool
    var result: Value
    var error: string
    var statusMsg: string
    var selectedEngine: string
    var selectedFile: Option<Blob>
    var scheduled: seq<string>

    function State(): Ui
      reads this
    {
      Ui(loading, result, error, statusMsg, selectedEngine, selectedFile, scheduled)
    }

    ghost predicate Valid()
      reads this
    {
      Settled(State())
    }

    constructor ()
      ensures State() == Initial() && Valid()
      ensures selectedEngine == "saucenao_api" && !loading && result.None? && error == "" && statusMsg == ""
    {
      loading := false;
      result := None;
      error := "";
      statusMsg := "";
      selectedEngine := DefaultEngineId;
      selectedFile := None;
      scheduled := [];
    }

    method HandleFileChange(file: Option<Blob>)
      modifies this
      ensures State() == FileChanged(old(State()), file)
      ensures file.None? ==> unchanged(this)
      ensures file.Some? ==> selectedFile == file && result.None? && error == "" && statusMsg == ""
      ensures loading == old(loading) && scheduled == old(scheduled) && selectedEngine == old(selectedEngine)
      ensures Valid() <==> old(Valid())
    {
      if file.None? {
        return;
      }
      selectedFile := file;
      result := None;
      error := "";
      statusMsg := "";
    }

    method SelectEngine(id: string)
      modifies this
      ensures State() == EngineSelected(old(State()), id)
      ensures Valid() <==> old(Valid())
    {
      selectedEngine := id;
    }

    method HandleSearch(reply: Reply) returns (sent: Option<Request>, target: Option<string>)
      modifies this
      ensures SearchStep(State(), sent, target) == Searched(old(State()), reply)
    {
      sent, target := None, None;
      if selectedFile.None? {
        return;
      }
      var found := Find(ENGINES, selectedEngine);
      if found.None? {
        return;
      }
      sent, target := RunBranch(BranchOf(found.value), reply);
    }

    /** The body of the `try`: start loading, then run the engine's branch with the request's outcome. */
    method RunBranch(branch: Branch, reply: Reply) returns (sent: Option<Request>, target: Option<string>)
      requires selectedFile.Some?
      modifies this
      ensures SearchStep(State(), sent, target) == Run(old(State()), branch, reply)
    {
      loading := true;
      error := "";
      result := None;
      match branch {
        case Inline =>
          sent := SearchInline(reply);
          target := None;
        case Redirect(template) =>
          sent, target := UploadAndRedirect(template, reply);
        case Neither =>
          sent, target := None, None;
      }
    }

    /** Mode A: send the file to the search route and show the first result. */
    method SearchInline(reply: Reply) returns (sent: Option<Request>)
      requires selectedFile.Some? && loading && error == "" && result.None?
      modifies this
      ensures SearchStep(State(), sent, None) == Run(old(State()), Inline, reply)
    {
      statusMsg := Requesting;
      sent := Some(Request(SearchApi, [("file", FileEntry(selectedFile.value))]));
      match InlineAnswer(reply) {
        case Throw(m) =>
          error := CaughtMessage(m, RequestFailed);
          loading := false;
        case Normal(Some(first)) =>
          result := first;
          statusMsg := Done;
          loading := false;
        case Normal(None) =>
          error := NoMatch;
          loading := false;
      }
    }

    /** Mode B: upload the file, then schedule the engine's page for the hosted URL. */
    method UploadAndRedirect(template: string, reply: Reply) returns (sent: Option<Request>, target: Option<string>)
      requires selectedFile.Some? && loading && error == "" && result.None?
      modifies this
      ensures SearchStep(State(), sent, target) == Run(old(State()), Redirect(template), reply)
    {
      statusMsg := Uploading;
      sent := Some(Request(UploadApi, [("file", FileEntry(selectedFile.value))]));
      target := None;
      match UploadedUrl(reply) {
        case Throw(m) =>
          error := CaughtMessage(m, RequestFailed);
          loading := false;
        case Normal(imageUrl) =>
          statusMsg := Redirecting;
          match ToStr(imageUrl) {
            case Throw(m) =>
              error := CaughtMessage(m, RequestFailed);
              loading := false;
            case Normal(url) =>
              var built := BuildTarget(template, url);
              scheduled := scheduled + [built];
              target := Some(built);
          }
      }
    }

    method FireRedirectTimer() returns (navigated: string)
      requires scheduled != []
      modifies this
      ensures navigated == old(scheduled[0])
      ensures State() == TimerFired(old(State()))
      ensures old(Valid()) ==> Valid()
    {
      navigated := scheduled[0];
      loading := false;
      statusMsg := "";
      scheduled := scheduled[1..];
    }

    method Click(reply: Reply) returns (sent: Option<Request>, target: Option<string>)
      requires Valid()
      modifies this
      ensures SearchStep(State(), sent, target) == Clicked(old(State()), reply)
      ensures Valid()
    {
      if selectedFile.None? || loading {
        return None, None;
      }
      ghost var before := State();
      sent, target := HandleSearch(reply);
      ClickKeepsSettled(before, reply);
    }
  }

  /** With no file, or an id missing from the table, `handleSearch` changes nothing and sends nothing. */
  lemma SearchIgnored(u: Ui, reply: Reply)
    requires u.selectedFile.None? || forall e :: e in ENGINES ==> e.id != u.selectedEngine
    ensures Searched(u, reply) == SearchStep(u, None, None)
  {
  }

  /** Once the engine is found, `handleSearch` runs the branch that engine takes. */
  lemma SearchedRuns(u: Ui, reply: Reply)
    requires u.selectedFile.Some? && Find(ENGINES, u.selectedEngine).Some?
    ensures var e := Find(ENGINES, u.selectedEngine).value;
            Searched(u, reply) == Run(u, BranchOf(e), reply) &&
            ((e.kind == "api" && BranchOf(e) == Inline) ||
             (e.kind == "url" && e.urlTemplate.Some? && BranchOf(e) == Redirect(e.urlTemplate.value)))
  {
    LookupBranch(u.selectedEngine);
  }

  /** For every engine of the table exactly one branch runs: the request goes to the route its kind names. */
  lemma EveryEngineBranches(u: Ui, reply: Reply, e: Engine)
    requires u.selectedFile.Some? && e in ENGINES && u.selectedEngine == e.id
    ensures Searched(u, reply).sent == Some(Request(if e.kind == "api" then SearchApi else UploadApi,
                                                    [("file", FileEntry(u.selectedFile.value))]))
  {
    FindsEveryEngine(e);
    SearchedRuns(u, reply);
    RunSends(u, BranchOf(e), reply);
  }

  /** Each branch sends the file, under `file`, to its own route. */
  lemma RunSends(u: Ui, b: Branch, reply: Reply)
    requires u.selectedFile.Some? && b != Neither
    ensures Run(u, b, reply).sent == Some(Request(if b.Inline? then SearchApi else UploadApi,
                                                  [("file", FileEntry(u.selectedFile.value))]))
  {
  }

  /** Either branch ends loading, unless it scheduled a redirect timer for the target it built. */
  lemma RunSettles(u: Ui, b: Branch, reply: Reply)
    requires u.selectedFile.Some? && b != Neither
    ensures var st := Run(u, b, reply);
            (st.ui.loading <==> st.target.Some?) &&
            (st.target.Some? ==> st.ui.scheduled == u.scheduled + [st.target.value]) &&
            (st.target.None? ==> st.ui.scheduled == u.scheduled)
  {
  }

  /** No engine of the table leaves `loading` set unless a redirect timer was scheduled for its target. */
  lemma NeverStuck(u: Ui, reply: Reply)
    requires u.selectedFile.Some? && Find(ENGINES, u.selectedEngine).Some?
    ensures var st := Searched(u, reply);
            (st.ui.loading <==> st.target.Some?) &&
            (st.target.Some? ==> st.ui.scheduled == u.scheduled + [st.target.value]) &&
            (st.target.None? ==> st.ui.scheduled == u.scheduled)
  {
    SearchedRuns(u, reply);
    RunSettles(u, BranchOf(Find(ENGINES, u.selectedEngine).value), reply);
  }

  /** An ok inline search with a non-empty `results` array shows its first element. */
  lemma InlineFound(u: Ui, statusText: string, data: map<string, Json>, items: seq<Json>)
    requires u.selectedFile.Some? && u.selectedEngine == "saucenao_api"
    requires "results" in data && data["results"] == JArr(items) && items != []
    ensures var st := Searched(u, Answered(true, statusText, Parsed(JObj(data))));
            st.ui == u.(result := Some(items[0]), statusMsg := Done, loading := false, error := "") &&
            st.target.None?
  {
  }

  /**
   * An ok inline search whose data is not `null` but has no `results` that are
   * truthy with a positive `length` reports "未找到相似图片", not a failure.
   */
  lemma InlineNoMatch(u: Ui, statusText: string, data: Json)
    requires u.selectedFile.Some? && u.selectedEngine == "saucenao_api"
    requires data != JNull
    requires data.JObj? && "results" in data.members ==>
               !Truthy(Some(data.members["results"])) || !HasPositiveLength(data.members["results"])
    ensures var st := Searched(u, Answered(true, statusText, Parsed(data)));
            st.ui == u.(result := None, statusMsg := Requesting, loading := false, error := NoMatch) &&
            st.target.None?
  {
  }

  /** Missing, `null`, `""`, `0`, `false`, `[]` and `{}` results, and data that is not an object, are all no match. */
  lemma NoMatchAnswers(statusText: string)
    ensures InlineAnswer(Answered(true, statusText, Parsed(JObj(map[])))) == Normal(None)
    ensures InlineAnswer(Answered(true, statusText, Parsed(JObj(map["results" := JNull])))) == Normal(None)
    ensures InlineAnswer(Answered(true, statusText, Parsed(JObj(map["results" := JStr("")])))) == Normal(None)
    ensures InlineAnswer(Answered(true, statusText, Parsed(JObj(map["results" := JNum(0)])))) == Normal(None)
    ensures InlineAnswer(Answered(true, statusText, Parsed(JObj(map["results" := JBool(false)])))) == Normal(None)
    ensures InlineAnswer(Answered(true, statusText, Parsed(JObj(map["results" := JArr([])])))) == Normal(None)
    ensures InlineAnswer(Answered(true, statusText, Parsed(JObj(map["results" := JObj(map[])])))) == Normal(None)
    ensures InlineAnswer(Answered(true, statusText, Parsed(JArr([JNum(1)])))) == Normal(None)
    ensures InlineAnswer(Answered(true, statusText, Parsed(JStr("results")))) == Normal(None)
  {
  }

  /** An ok inline search whose data is `null` fails with the TypeError of reading `results`. */
  lemma NullData(statusText: string)
    ensures InlineAnswer(Answered(true, statusText, Parsed(JNull))) == Throw(NullRead("results"))
  {
  }

  /**
   * The message of what a branch threw after its request, if it threw: the
   * inline answer, the upload, or the conversion of the uploaded URL to a
   * string.
   */
  function StageFailure(b: Branch, reply: Reply): Option<string> {
    match b
    case Inline => if InlineAnswer(reply).Throw? then Some(InlineAnswer(reply).message) else None
    case Redirect(_) =>
      (match UploadedUrl(reply)
       case Throw(m) => Some(m)
       case Normal(url) => if ToStr(url).Throw? then Some(ToStr(url).message) else None)
    case Neither => None
  }

  /** The status shown when the branch threw: the one set before the step that threw. */
  function FailedStatus(b: Branch, reply: Reply): string {
    if b.Inline? then Requesting
    else if UploadedUrl(reply).Throw? then Uploading
    else Redirecting
  }

  lemma RunFails(u: Ui, b: Branch, reply: Reply)
    requires u.selectedFile.Some? && StageFailure(b, reply).Some?
    ensures var st := Run(u, b, reply);
            st.ui == u.(loading := false, result := None,
                        error := CaughtMessage(StageFailure(b, reply).value, RequestFailed),
                        statusMsg := FailedStatus(b, reply)) &&
            st.target.None?
  {
  }

  /**
   * Every failure, of either branch and for every engine of the table, ends in
   * the same state: not loading, no result, the caught message as the error
   * (never empty), nothing scheduled.
   */
  lemma FailureState(u: Ui, reply: Reply)
    requires u.selectedFile.Some? && Find(ENGINES, u.selectedEngine).Some?
    requires StageFailure(BranchOf(Find(ENGINES, u.selectedEngine).value), reply).Some?
    ensures var b := BranchOf(Find(ENGINES, u.selectedEngine).value);
            var st := Searched(u, reply);
            st.ui == u.(loading := false, result := None,
                        error := CaughtMessage(StageFailure(b, reply).value, RequestFailed),
                        statusMsg := FailedStatus(b, reply)) &&
            st.ui.error != "" && st.target.None?
  {
    SearchedRuns(u, reply);
    RunFails(u, BranchOf(Find(ENGINES, u.selectedEngine).value), reply);
  }

  /**
   * A failed search shows the route's `error` converted to a string when it is
   * truthy, the TypeError's text when it has no string form, and "搜索出错"
   * when it is missing or falsy.
   */
  lemma SearchErrorText(data: map<string, Json>, statusText: string)
    ensures "error" in data && Truthy(Some(data["error"])) && !Unconvertible(data["error"]) ==>
            InlineAnswer(Answered(false, statusText, Parsed(JObj(data)))) == Throw(ToStr(data["error"]).value)
    ensures "error" in data && Unconvertible(data["error"]) ==>
            InlineAnswer(Answered(false, statusText, Parsed(JObj(data)))) == Throw(NotPrimitive)
    ensures "error" !in data || !Truthy(Some(data["error"])) ==>
            InlineAnswer(Answered(false, statusText, Parsed(JObj(data)))) == Throw(SearchFailed)
  {
  }

  /**
   * A failed upload, or an ok one whose `url` is missing or falsy, shows the
   * route's `error` in the same way, with "图片上传失败，无法生成链接" as the default.
   */
  lemma UploadErrorText(ok: bool, data: map<string, Json>, statusText: string)
    requires !ok || "url" !in data || !Truthy(Some(data["url"]))
    ensures "error" in data && Truthy(Some(data["error"])) && !Unconvertible(data["error"]) ==>
            UploadedUrl(Answered(ok, statusText, Parsed(JObj(data)))) == Throw(ToStr(data["error"]).value)
    ensures "error" in data && Unconvertible(data["error"]) ==>
            UploadedUrl(Answered(ok, statusText, Parsed(JObj(data)))) == Throw(NotPrimitive)
    ensures "error" !in data || !Truthy(Some(data["error"])) ==>
            UploadedUrl(Answered(ok, statusText, Parsed(JObj(data)))) == Throw(UploadFailed)
  {
  }

  /** The upload yields a URL exactly when it answered ok with an object whose `url` is truthy. */
  lemma UploadedUrlCases(reply: Reply)
    ensures UploadedUrl(reply).Normal? <==>
              reply.Answered? && reply.ok && reply.body.Parsed? &&
              reply.body.json.JObj? && "url" in reply.body.json.members &&
              Truthy(Some(reply.body.json.members["url"]))
    ensures UploadedUrl(reply).Normal? ==> UploadedUrl(reply).value == reply.body.json.members["url"]
  {
  }

  lemma RunRedirects(u: Ui, template: string, reply: Reply)
    requires u.selectedFile.Some?
    ensures var st := Run(u, Redirect(template), reply);
            (st.target.Some? <==> UploadedUrl(reply).Normal? && !Unconvertible(UploadedUrl(reply).value)) &&
            (st.target.Some? ==>
               st.target.value == BuildTarget(template, ToStr(UploadedUrl(reply).value).value) &&
               st.ui == u.(loading := true, error := "", result := None, statusMsg := Redirecting,
                           scheduled := u.scheduled + [st.target.value]))
  {
  }

  /**
   * An uploaded `url` with no string form (an object with its own `toString`)
   * makes `encodeURIComponent` throw: the run fails with the TypeError's
   * message under the second step's status, and nothing is scheduled.
   */
  lemma UnconvertibleUrl(u: Ui, template: string, statusText: string, data: map<string, Json>)
    requires u.selectedFile.Some?
    requires "url" in data && Unconvertible(data["url"]) && Truthy(Some(data["url"]))
    ensures var st := Run(u, Redirect(template), Answered(true, statusText, Parsed(JObj(data))));
            st.ui == u.(loading := false, result := None, error := NotPrimitive, statusMsg := Redirecting) &&
            st.target.None?
  {
  }

  /**
   * A redirect target is built, and handed to a timer, exactly when the upload
   * answered ok with a truthy `url` that has a string form; it is then the
   * template with the encoded URL in place of `{url}`.
   */
  lemma NavigatesOnlyAfterUpload(u: Ui, reply: Reply, e: Engine)
    requires u.selectedFile.Some? && e in ENGINES && u.selectedEngine == e.id && e.kind == "url"
    ensures var st := Searched(u, reply);
            st.target.Some? <==>
              reply.Answered? && reply.ok && reply.body.Parsed? &&
              reply.body.json.JObj? && "url" in reply.body.json.members &&
              Truthy(Some(reply.body.json.members["url"])) && !Unconvertible(reply.body.json.members["url"])
    ensures var st := Searched(u, reply);
            st.target.Some? ==>
              e.urlTemplate.Some? &&
              st.target.value == BuildTarget(e.urlTemplate.value, ToStr(reply.body.json.members["url"]).value) &&
              st.ui.statusMsg == Redirecting && st.ui.loading && st.ui.error == "" && st.ui.result.None?
  {
    FindsEveryEngine(e);
    SearchedRuns(u, reply);
    RunRedirects(u, e.urlTemplate.value, reply);
    UploadedUrlCases(reply);
  }

  /** With the button's guard, the state stays settled under every event. */
  lemma ClickKeepsSettled(u: Ui, reply: Reply)
    requires Settled(u)
    ensures Settled(Clicked(u, reply).ui)
  {
    if SearchEnabled(u) && Find(ENGINES, u.selectedEngine).Some? {
      NeverStuck(u, reply);
    }
  }

  lemma TimerKeepsSettled(u: Ui)
    requires Settled(u) && u.scheduled != []
    ensures Settled(TimerFired(u)) && !TimerFired(u).loading
  {
  }
}
