/**
 * The button talking to the two routes: a route's response, as the browser's
 * `fetch` delivers it, is the reply the button's handler receives.
 */
module Flow {
  import opened Wrappers
  import opened Js
  import opened Http
  import opened Engines
  import opened SearchButton
  import UploadRoute
  import SearchRoute
  import Uri

  /** Whatever error a route answers with is what the button shows. */
  lemma RouteErrorShown(r: Response, statusText: string, b: Branch)
    requires (r.status == 400 || r.status == 500) && IsErrorBody(r.body)
    requires b != Neither
    ensures StageFailure(b, Delivered(r, statusText)) == Some(r.body.members["error"].s)
  {
    assert r.body.members["error"] == JStr(r.body.members["error"].s);
  }

  /** Every error response of the upload route surfaces unchanged as the button's error. */
  lemma UploadErrorReachesUser(u: Ui, incoming: Incoming, telegraph: Reply, statusText: string)
    requires u.selectedFile.Some? && Find(ENGINES, u.selectedEngine).Some?
    requires Find(ENGINES, u.selectedEngine).value.kind == "url"
    requires UploadRoute.Post(incoming, telegraph).response.status != 200
    ensures var r := UploadRoute.Post(incoming, telegraph).response;
            var st := Searched(u, Delivered(r, statusText));
            st.ui.error == r.body.members["error"].s && !st.ui.loading && st.target.None?
  {
    var r := UploadRoute.Post(incoming, telegraph).response;
    SearchedRuns(u, Delivered(r, statusText));
    var b := BranchOf(Find(ENGINES, u.selectedEngine).value);
    RouteErrorShown(r, statusText, b);
    FailureState(u, Delivered(r, statusText));
  }

  /** Every error response of the search route surfaces unchanged as the button's error. */
  lemma SearchErrorReachesUser(u: Ui, incoming: Incoming, apiKey: Option<string>, sauce: Reply, statusText: string)
    requires u.selectedFile.Some? && u.selectedEngine == "saucenao_api"
    requires SearchRoute.Post(incoming, apiKey, sauce).response.status != 200
    ensures var r := SearchRoute.Post(incoming, apiKey, sauce).response;
            var st := Searched(u, Delivered(r, statusText));
            st.ui.error == r.body.members["error"].s && !st.ui.loading && st.ui.result.None?
  {
    var r := SearchRoute.Post(incoming, apiKey, sauce).response;
    RouteErrorShown(r, statusText, Inline);
    FailureState(u, Delivered(r, statusText));
  }

  /**
   * An image Telegraph hosts at `src` sends the browser to the engine's
   * template with the encoded "https://telegra.ph" + src in place of `{url}`,
   * and decoding that segment gives the hosted URL back.
   */
  lemma HostedImageReachesEngine(u: Ui, e: Engine, fields: Form, telegraphStatus: string, src: string,
                                 element: map<string, Json>, rest: seq<Json>, statusText: string)
    requires u.selectedFile.Some? && e in ENGINES && e.kind == "url" && u.selectedEngine == e.id
    requires FormTruthy(FormGet(fields, "file"))
    requires "src" in element && element["src"] == JStr(src) && src != ""
    ensures var r := UploadRoute.Post(Form(fields), Answered(true, telegraphStatus, Parsed(JArr([JObj(element)] + rest)))).response;
            var st := Searched(u, Delivered(r, statusText));
            var t := e.urlTemplate.value;
            var url := "https://telegra.ph" + src;
            st.target == Some(Before(t) + Uri.Encode(url) + After(t)) &&
            Uri.Decode(st.target.value[|Before(t)|..|Before(t)| + |Uri.Encode(url)|]) == Some(url)
  {
    UploadRoute.HostedUrl(fields, telegraphStatus, src, element, rest);
    UrlReachesEngine(u, e, "https://telegra.ph" + src, statusText);
  }

  /** The upload route's `{url}` answer makes a "url" engine's target hold the encoded URL, which decodes back. */
  lemma UrlReachesEngine(u: Ui, e: Engine, url: string, statusText: string)
    requires u.selectedFile.Some? && e in ENGINES && e.kind == "url" && u.selectedEngine == e.id
    requires url != ""
    ensures var st := Searched(u, Delivered(Response(200, UploadRoute.UrlBody(url)), statusText));
            var t := e.urlTemplate.value;
            st.target == Some(Before(t) + Uri.Encode(url) + After(t)) &&
            Uri.Decode(st.target.value[|Before(t)|..|Before(t)| + |Uri.Encode(url)|]) == Some(url)
  {
    FindsEveryEngine(e);
    SearchedRuns(u, Delivered(Response(200, UploadRoute.UrlBody(url)), statusText));
    UrlTemplateWellFormed(e);
    RunReachesTarget(u, e.urlTemplate.value, url, statusText);
  }

  /** The same for the redirect branch of any well-formed template. */
  lemma RunReachesTarget(u: Ui, t: string, url: string, statusText: string)
    requires u.selectedFile.Some? && WellFormedTemplate(t) && url != ""
    ensures var st := Run(u, Redirect(t), Delivered(Response(200, UploadRoute.UrlBody(url)), statusText));
            st.target == Some(Before(t) + Uri.Encode(url) + After(t)) &&
            Uri.Decode(st.target.value[|Before(t)|..|Before(t)| + |Uri.Encode(url)|]) == Some(url)
  {
    var reply := Delivered(Response(200, UploadRoute.UrlBody(url)), statusText);
    assert UploadedUrl(reply) == Normal(JStr(url));
    RunRedirects(u, t, reply);
    RedirectTarget(t, url);
  }

  /** SauceNAO's first result, passed through the search route, is what the button displays. */
  lemma SauceResultDisplayed(u: Ui, fields: Form, key: string, sauceStatus: string,
                             data: map<string, Json>, items: seq<Json>, statusText: string)
    requires u.selectedFile.Some? && u.selectedEngine == "saucenao_api"
    requires FormTruthy(FormGet(fields, "file")) && key != ""
    requires "results" in data && data["results"] == JArr(items) && items != []
    ensures var r := SearchRoute.Post(Form(fields), Some(key), Answered(true, sauceStatus, Parsed(JObj(data)))).response;
            var st := Searched(u, Delivered(r, statusText));
            st.ui.result == Some(items[0]) && st.ui.statusMsg == Done && !st.ui.loading && st.ui.error == ""
  {
    SearchRoute.PassThrough(fields, key, sauceStatus, JObj(data));
    InlineFound(u, statusText, data, items);
  }
}
