/**
 * The catalogue of search engines the button offers, the lookup by id, and the
 * construction of a redirect target from an engine's URL template.
 */
module Engines {
  import opened Wrappers
  import opened Template
  import Uri

  /** One catalogue entry; `kind` is "api" (results shown in place) or "url" (redirect). */
  datatype Engine = Engine(id: string, name: string, kind: string, urlTemplate: Option<string>)

  const Placeholder := "{url}"

  const ENGINES: seq<Engine> := [
    Engine("saucenao_api", "SauceNAO (站内直显)", "api", None),
    Engine("google_lens", "Google Lens (以图搜图)", "url", Some("https://lens.google.com/upload?url={url}")),
    Engine("yandex_url", "Yandex (高清大图)", "url", Some("https://yandex.com/images/search?rpt=imageview&url={url}")),
    Engine("ascii2d_url", "Ascii2d (色调搜索)", "url", Some("https://ascii2d.net/search/url/{url}")),
    Engine("saucenao_url", "SauceNAO (跳转官网)", "url", Some("https://saucenao.com/search.php?db=999&url={url}")),
    Engine("iqdb_url", "IQDB (多站聚合)", "url", Some("https://iqdb.org/?url={url}"))
  ]

  /** The engine selected when the button is first shown: `ENGINES[0].id`. */
  const DefaultEngineId := ENGINES[0].id

  /** `engines.find(e => e.id === id)`: the first entry with that id. */
  function Find(engines: seq<Engine>, id: string): (r: Option<Engine>)
    ensures r.Some? ==> r.value in engines && r.value.id == id
    ensures r.Some? ==> exists i :: 0 <= i < |engines| && engines[i] == r.value &&
                                    forall j :: 0 <= j < i ==> engines[j].id != id
    ensures r.None? ==> forall e :: e in engines ==> e.id != id
  {
    if engines == [] then None
    else if engines[0].id == id then Some(engines[0])
    else Find(engines[1..], id)
  }

  /** `template.replace("{url}", encodeURIComponent(imageUrl))`. */
  function BuildTarget(template: string, imageUrl: string): string {
    ReplaceFirst(template, Placeholder, Uri.Encode(imageUrl))
  }

  /** Which branch of the search handler an engine takes. */
  datatype Branch = Inline | Redirect(template: string) | Neither

  function BranchOf(e: Engine): Branch {
    if e.kind == "api" then Inline
    else if e.kind == "url" && e.urlTemplate.Some? && e.urlTemplate.value != "" then Redirect(e.urlTemplate.value)
    else Neither
  }

  /** The text of a template before its first `{url}`. */
  function Before(template: string): string {
    match IndexOf(template, Placeholder)
    case None => template
    case Some(p) => template[..p]
  }

  /** The text of a template after its first `{url}`. */
  function After(template: string): string {
    match IndexOf(template, Placeholder)
    case None => ""
    case Some(p) => template[p + |Placeholder|..]
  }

  /** A template holds `{url}` exactly once, and no other brace. */
  predicate WellFormedTemplate(t: string) {
    && Count(t, Placeholder) == 1
    && IndexOf(t, Placeholder) == Some(|Before(t)|)
    && t == Before(t) + Placeholder + After(t)
    && '{' !in Before(t) && '}' !in Before(t)
    && '{' !in After(t) && '}' !in After(t)
  }

  /** Engine ids are pairwise distinct, and the initial selection is "saucenao_api". */
  lemma IdsDistinct()
    ensures forall i, j :: 0 <= i < j < |ENGINES| ==> ENGINES[i].id != ENGINES[j].id
    ensures DefaultEngineId == "saucenao_api"
  {
  }

  /** With distinct ids, looking up an entry's id finds that entry. */
  lemma FindsEveryEngine(e: Engine)
    requires e in ENGINES
    ensures Find(ENGINES, e.id) == Some(e)
  {
    IdsDistinct();
  }

  lemma ShapedTemplate(before: string, after: string)
    requires NoBraces(before) && NoBraces(after)
    ensures WellFormedTemplate(before + Placeholder + after)
  {
    SinglePlaceholder(before, Placeholder, after);
    var t := before + Placeholder + after;
    assert t[..|before|] == before;
    assert t[|before| + |Placeholder|..] == after;
  }

  predicate NoBraces(s: string) {
    '{' !in s && '}' !in s
  }

  lemma GoogleLensTemplate()
    ensures ENGINES[1].urlTemplate == Some("https://lens.google.com/upload?url=" + Placeholder)
    ensures NoBraces("https://lens.google.com/upload?url=")
  {
    var t, before := ENGINES[1].urlTemplate.value, "https://lens.google.com/upload?url=";
    assert |t| == |before + Placeholder|;
    forall k | 0 <= k < |t|
      ensures t[k] == (before + Placeholder)[k]
    {
    }
    assert t == before + Placeholder;
  }

  lemma NoBracesJoin(a: string, b: string)
    requires NoBraces(a) && NoBraces(b)
    ensures NoBraces(a + b)
  {
  }

  lemma YandexHost()
    ensures NoBraces("https://yandex.com/")
  {
  }

  lemma YandexPath()
    ensures NoBraces("images/search")
  {
  }

  lemma YandexQuery()
    ensures NoBraces("?rpt=imageview&url=")
  {
  }

  lemma YandexSplit()
    ensures "https://yandex.com/images/search?rpt=imageview&url=" == "https://yandex.com/" + "images/search" + "?rpt=imageview&url="
  {
    var before := "https://yandex.com/images/search?rpt=imageview&url=";
    var host, path, query := "https://yandex.com/", "images/search", "?rpt=imageview&url=";
    assert |before| == |host + path + query|;
    forall k | 0 <= k < |before|
      ensures before[k] == (host + path + query)[k]
    {
    }
  }

  lemma YandexPrefix()
    ensures NoBraces("https://yandex.com/images/search?rpt=imageview&url=")
  {
    YandexHost();
    YandexPath();
    YandexQuery();
    YandexSplit();
    NoBracesJoin("https://yandex.com/", "images/search");
    NoBracesJoin("https://yandex.com/" + "images/search", "?rpt=imageview&url=");
  }

  lemma YandexTemplate()
    ensures ENGINES[2].urlTemplate == Some("https://yandex.com/images/search?rpt=imageview&url=" + Placeholder)
    ensures NoBraces("https://yandex.com/images/search?rpt=imageview&url=")
  {
    var t, before := ENGINES[2].urlTemplate.value, "https://yandex.com/images/search?rpt=imageview&url=";
    YandexPrefix();
    assert |t| == |before + Placeholder|;
    forall k | 0 <= k < |t|
      ensures t[k] == (before + Placeholder)[k]
    {
    }
    assert t == before + Placeholder;
  }

  lemma Ascii2dTemplate()
    ensures ENGINES[3].urlTemplate == Some("https://ascii2d.net/search/url/" + Placeholder)
    ensures NoBraces("https://ascii2d.net/search/url/")
  {
    var t, before := ENGINES[3].urlTemplate.value, "https://ascii2d.net/search/url/";
    assert |t| == |before + Placeholder|;
    forall k | 0 <= k < |t|
      ensures t[k] == (before + Placeholder)[k]
    {
    }
    assert t == before + Placeholder;
  }

  lemma SauceNaoTemplate()
    ensures ENGINES[4].urlTemplate == Some("https://saucenao.com/search.php?db=999&url=" + Placeholder)
    ensures NoBraces("https://saucenao.com/search.php?db=999&url=")
  {
    var t, before := ENGINES[4].urlTemplate.value, "https://saucenao.com/search.php?db=999&url=";
    assert |t| == |before + Placeholder|;
    forall k | 0 <= k < |t|
      ensures t[k] == (before + Placeholder)[k]
    {
    }
    assert t == before + Placeholder;
  }

  lemma IqdbTemplate()
    ensures ENGINES[5].urlTemplate == Some("https://iqdb.org/?url=" + Placeholder)
    ensures NoBraces("https://iqdb.org/?url=")
  {
    var t, before := ENGINES[5].urlTemplate.value, "https://iqdb.org/?url=";
    assert |t| == |before + Placeholder|;
    forall k | 0 <= k < |t|
      ensures t[k] == (before + Placeholder)[k]
    {
    }
    assert t == before + Placeholder;
  }

  /** The template of entry `i`, for every "url" entry. */
  lemma EntryTemplate(i: nat)
    requires 1 <= i < |ENGINES|
    ensures ENGINES[i].kind == "url" && ENGINES[i].urlTemplate.Some?
    ensures WellFormedTemplate(ENGINES[i].urlTemplate.value)
  {
    if i == 1 {
      GoogleLensTemplate();
      ShapedTemplate("https://lens.google.com/upload?url=", "");
    } else if i == 2 {
      YandexTemplate();
      ShapedTemplate("https://yandex.com/images/search?rpt=imageview&url=", "");
    } else if i == 3 {
      Ascii2dTemplate();
      ShapedTemplate("https://ascii2d.net/search/url/", "");
    } else if i == 4 {
      SauceNaoTemplate();
      ShapedTemplate("https://saucenao.com/search.php?db=999&url=", "");
    } else {
      IqdbTemplate();
      ShapedTemplate("https://iqdb.org/?url=", "");
    }
    var t := ENGINES[i].urlTemplate.value;
    assert t + "" == t;
  }

  /**
   * The table agrees with the handler's two branches: the "api" engine has no
   * template, every "url" engine has one holding `{url}` exactly once, so every
   * entry takes exactly one branch.
   */
  lemma TableConsistent()
    ensures forall e :: e in ENGINES && e.kind == "api" ==> e.urlTemplate.None?
    ensures forall e :: e in ENGINES ==> e.kind == "api" || e.kind == "url"
    ensures forall e :: e in ENGINES && e.kind == "url" ==> e.urlTemplate.Some? && WellFormedTemplate(e.urlTemplate.value)
    ensures forall e :: e in ENGINES ==> BranchOf(e) != Neither
  {
    forall e | e in ENGINES
      ensures e.kind == "api" ==> e.urlTemplate.None?
      ensures e.kind == "api" || e.kind == "url"
      ensures e.kind == "url" ==> e.urlTemplate.Some? && WellFormedTemplate(e.urlTemplate.value)
      ensures BranchOf(e) != Neither
    {
      var i :| 0 <= i < |ENGINES| && ENGINES[i] == e;
      if i > 0 {
        EntryTemplate(i);
      }
    }
  }

  /** Whatever id is found in the table, its engine takes the inline branch or a redirect. */
  lemma LookupBranch(id: string)
    requires Find(ENGINES, id).Some?
    ensures var e := Find(ENGINES, id).value;
            (e.kind == "api" && BranchOf(e) == Inline) ||
            (e.kind == "url" && e.urlTemplate.Some? && BranchOf(e) == Redirect(e.urlTemplate.value))
  {
    var e := Find(ENGINES, id).value;
    var i :| 0 <= i < |ENGINES| && ENGINES[i] == e;
    if i > 0 {
      EntryTemplate(i);
    }
  }

  /**
   * The redirect target is the text before `{url}`, the encoded image URL and
   * the text after it; no brace (so no `{url}`) is left in it, and
   * percent-decoding the inserted segment gives back the image URL.
   */
  lemma RedirectTarget(t: string, imageUrl: string)
    requires WellFormedTemplate(t)
    ensures BuildTarget(t, imageUrl) == Before(t) + Uri.Encode(imageUrl) + After(t)
    ensures var target := BuildTarget(t, imageUrl);
            var k := |Before(t)|;
            k + |Uri.Encode(imageUrl)| <= |target| &&
            Uri.Decode(target[k..k + |Uri.Encode(imageUrl)|]) == Some(imageUrl)
    ensures '{' !in BuildTarget(t, imageUrl) && '}' !in BuildTarget(t, imageUrl)
    ensures Count(BuildTarget(t, imageUrl), Placeholder) == 0
  {
    var enc := Uri.Encode(imageUrl);
    Uri.EncodeHasNoSpecials(imageUrl);
    var p := |Before(t)|;
    ReplaceFirstLiteral(t, Placeholder, enc, p);
    assert t[..p] == Before(t);
    assert t[p + |Placeholder|..] == After(t);
    var target := BuildTarget(t, imageUrl);
    assert target[p..p + |enc|] == enc;
    Uri.DecodeEncode(imageUrl);
    CountAbsentHead(target, Placeholder);
  }

  /** Every "url" engine of the table has a well-formed template. */
  lemma UrlTemplateWellFormed(e: Engine)
    requires e in ENGINES && e.kind == "url"
    ensures e.urlTemplate.Some? && WellFormedTemplate(e.urlTemplate.value)
    ensures BranchOf(e) == Redirect(e.urlTemplate.value)
  {
    var i :| 0 <= i < |ENGINES| && ENGINES[i] == e;
    assert i != 0;
    EntryTemplate(i);
  }

  /** Every "url" engine of the table yields a target of that shape for every image URL. */
  lemma EngineRedirectTarget(e: Engine, imageUrl: string)
    requires e in ENGINES && e.kind == "url"
    ensures e.urlTemplate.Some? && BranchOf(e) == Redirect(e.urlTemplate.value)
    ensures BuildTarget(e.urlTemplate.value, imageUrl) == Before(e.urlTemplate.value) + Uri.Encode(imageUrl) + After(e.urlTemplate.value)
    ensures '{' !in BuildTarget(e.urlTemplate.value, imageUrl)
  {
    UrlTemplateWellFormed(e);
    RedirectTarget(e.urlTemplate.value, imageUrl);
  }
}
