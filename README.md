# Image search button and its two API routes, modelled in Dafny

The system lets a user pick an image and search for similar images in one of
two ways. An inline engine (SauceNAO via the API) sends the file to the
search route, which forwards it with an API key to SauceNAO and passes the
JSON answer back; the first match is then displayed. A redirect engine
(Google Lens, Yandex, Ascii2d, SauceNAO's web page, IQDB) first sends the
file to the upload route, which hosts it on Telegraph and answers with its
public URL. The button then builds the engine's search URL by putting the
percent-encoded image URL in place of the template's `{url}` and opens it
after a short timer.

The model covers:

- the engine catalogue, the lookup by id and the redirect-target builder
  (`engines.dfy`);
- `String.prototype.replace` with a string pattern, including the `$`
  patterns of GetSubstitution (`template.dfy`);
- `encodeURIComponent` / `decodeURIComponent` as section 19.2.6 of ECMA-262
  defines them: full UTF-8 and percent-encoding as in section 2.1 of RFC 3986
  (`uri.dfy`);
- the button's state and its handlers (`search_button.dfy`): the class
  `ImageSearchButton` updates its fields the way the component calls its
  state setters, and each method is tied to a function on a snapshot of the
  state, about which the lemmas are stated;
- the upload route and the search route as pure functions from the incoming
  form, the environment and the upstream reply to the request sent upstream
  and the response (`upload_route.dfy`, `search_route.dfy`);
- the JSON values and the JavaScript evaluation rules the handlers depend on
  (`js.dfy`): truthiness, member reads that throw on `null`, `String(x)`,
  `x || d` and `new Error(x).message`;
- forms, requests, replies and responses (`http.dfy`);
- the button fed with the routes' responses (`flow.dfy`).

Network calls, `request.formData()`, `response.json()` and
`NextResponse.json` are not executed. Their outcomes are parameters: a
`Reply` is an answer (`ok`, `statusText`, a parsed or unparsable body) or a
rejection with a message. An `Incoming` body is a form or the message of the
error that reading it throws. `SAUCENAO_API_KEY` is an `Option<string>`.

Behaviour the code does not have, and so the model does not have either:

- an unknown engine id makes `handleSearch` return silently instead of
  failing with a configuration error;
- "no match" is shown through the `error` field;
- there is exactly one upload host (Telegraph) and no fallback chain;
- there is no tagging of in-flight requests against stale results.

## Model

| member | source | states |
|---|---|---|
| Uri.DecodeEncode | src/components/ImageSearchButton.tsx:113 | percent-decoding the `encodeURIComponent` encoding of any string gives the string back |
| Uri.Utf8RoundTrip | src/components/ImageSearchButton.tsx:113 | the UTF-8 octets of every code point decode to that code point, and the lead octet's leading ones give their number |
| Uri.EncodeHasNoSpecials | src/components/ImageSearchButton.tsx:113 | the encoding of any string contains no `{`, `}` or `$` |
| Uri.EncodeAlphabet | src/components/ImageSearchButton.tsx:113 | every character of an encoding is one of A-Z a-z 0-9 - _ . ! ~ * ' ( ) or `%` |
| Uri.EncodeUnescaped | src/components/ImageSearchButton.tsx:113 | a string made only of unescaped characters is its own encoding |
| Template.IndexOfFrom | src/components/ImageSearchButton.tsx:113 | the position found is a match, no earlier position matches, and `None` means no position matches |
| Template.SubstituteLiteral | src/components/ImageSearchButton.tsx:113 | a replacement without `$` is inserted literally by GetSubstitution |
| Template.ReplaceFirstLiteral | src/components/ImageSearchButton.tsx:113 | `replace` with such a replacement gives the text before the first match, the replacement, then the text after it |
| Template.SinglePlaceholder | src/components/ImageSearchButton.tsx:11-40 | prefix + pattern + suffix, with the pattern's first character nowhere else, holds the pattern once and it is found right after the prefix |
| Template.CountAbsentHead | src/components/ImageSearchButton.tsx:113 | a pattern whose first character is absent from a string does not occur in it |
| Engines.Find | src/components/ImageSearchButton.tsx:66 | the engine found is the first entry with the requested id; `None` means no entry has it |
| Engines.IdsDistinct | src/components/ImageSearchButton.tsx:6-48 | the ids of the six entries are pairwise distinct and the initial selection `ENGINES[0].id` is "saucenao_api" |
| Engines.FindsEveryEngine | src/components/ImageSearchButton.tsx:66 | looking up any entry's id finds that entry |
| Engines.TableConsistent | src/components/ImageSearchButton.tsx:8-40 | the "api" entry has no template, every other entry is "url" with a template holding `{url}` exactly once and no other brace, so no entry takes neither branch |
| Engines.UrlTemplateWellFormed | src/components/ImageSearchButton.tsx:11-40 | every "url" entry has a well-formed template and takes the redirect branch with it |
| Engines.LookupBranch | src/components/ImageSearchButton.tsx:66-95 | an engine found by id takes the inline branch ("api") or the redirect branch with its template ("url") |
| Engines.RedirectTarget | src/components/ImageSearchButton.tsx:113 | the target is the text before `{url}`, the encoded image URL, then the text after it; it has no brace and no `{url}` left; decoding the inserted segment gives back the image URL |
| Engines.EngineRedirectTarget | src/components/ImageSearchButton.tsx:109-113 | for every "url" entry and every image URL, the target has that shape and no `{` |
| Http.FormGet | src/app/api/upload/route.ts:7 | `formData.get` gives the value of the first entry with the name, or `null` exactly when no entry has it |
| UploadRoute.Post | src/app/api/upload/route.ts:4-42 | the status is 200, 400 or 500; a 200 body has exactly the key `url`; any other body has exactly the key `error` with a non-empty message |
| UploadRoute.MissingFile | src/app/api/upload/route.ts:9-11 | no truthy `file` entry gives 400 `{error: '没有文件'}` and no upstream request |
| UploadRoute.ForwardsFile | src/app/api/upload/route.ts:14-22 | otherwise one request goes to https://telegra.ph/upload whose form has the single field `file` holding the received value |
| UploadRoute.HostNotOk | src/app/api/upload/route.ts:24-26 | a non-ok Telegraph response gives 500 `{error: '上传图床失败'}` |
| UploadRoute.HostedUrl | src/app/api/upload/route.ts:31-33 | an array whose first element has a non-empty `src` string gives 200 `{url: "https://telegra.ph" + src}` |
| UploadRoute.ShapeDecides | src/app/api/upload/route.ts:28-36 | an ok answer gives the URL when it has the `[{src}]` shape and `src` has a string form; 500 with the TypeError's text when `src` has none; 500 `{error: '图床返回格式异常'}` without the shape |
| UploadRoute.UnconvertibleSource | src/app/api/upload/route.ts:31-32 | a `src` that is an object with its own `toString` makes the template literal throw: 500 `{error: "Cannot convert object to primitive value"}` |
| UploadRoute.MalformedAnswers | src/app/api/upload/route.ts:31-35 | `null`, `[]`, `[{}]` and `[{src: ""}]` do not have that shape |
| UploadRoute.SuccessNeedsSource | src/app/api/upload/route.ts:5-36 | status 200 happens exactly when a file was forwarded and Telegraph answered ok with that shape and a `src` with a string form; the URL then starts with https://telegra.ph |
| UploadRoute.EmptyMessageDefault | src/app/api/upload/route.ts:38-40 | an error thrown with an empty message is reported as 500 `{error: '上传失败'}` |
| SearchRoute.Post | src/app/api/search/route.ts:3-39 | the status is 200, 400 or 500; status 200 happens exactly when a request was sent and SauceNAO answered ok with JSON, and its body is that JSON unchanged; every other body is `{error}` with a non-empty message |
| SearchRoute.MissingFile | src/app/api/search/route.ts:8-10 | no truthy `file` entry gives 400 `{error: '没有上传文件'}` whatever the key, and nothing is sent |
| SearchRoute.MissingKey | src/app/api/search/route.ts:12-15 | with a file, an absent or empty key gives 500 `{error: 'API Key 未配置'}` and nothing is sent |
| SearchRoute.OutgoingForm | src/app/api/search/route.ts:17-26 | a request is sent exactly when file and key are present; it goes to https://saucenao.com/search.php with the fields file, api_key = key, output_type = '2', numres = '3', in that order |
| SearchRoute.UpstreamNotOk | src/app/api/search/route.ts:28-30 | a non-ok SauceNAO response gives 500 `{error: "SauceNAO Error: " + statusText}` |
| SearchRoute.PassThrough | src/app/api/search/route.ts:32-33 | an ok answer is returned unchanged with status 200 |
| SearchRoute.EmptyMessageDefault | src/app/api/search/route.ts:35-37 | an error thrown with an empty message gives 500 `{error: '搜索失败'}` |
| Js.ToStr | src/app/api/upload/route.ts:32 | `String(x)` throws exactly on an object with its own `toString` (or an array holding one), always with "Cannot convert object to primitive value", and is the identity on strings |
| Js.Joined | src/components/ImageSearchButton.tsx:113 | joining the parts of an array throws exactly when one part threw, and then with that part's error |
| Js.CaughtMessage | src/components/ImageSearchButton.tsx:125 | `err.message || d` is the message when it is not empty and never empty when `d` is not |
| SearchButton.ImageSearchButton.constructor | src/components/ImageSearchButton.tsx:44-49 | not loading, no result, empty error and status, engine "saucenao_api", no file |
| SearchButton.ImageSearchButton.HandleFileChange | src/components/ImageSearchButton.tsx:53-61 | no file changes nothing; a file becomes the selection and clears result, error and status; loading and the engine are untouched |
| SearchButton.ImageSearchButton.SelectEngine | src/components/ImageSearchButton.tsx:148-150 | only the selected engine changes |
| SearchButton.ImageSearchButton.HandleSearch | src/components/ImageSearchButton.tsx:64-128 | the new state, the request sent and the target built are those of `Searched` on the old state |
| SearchButton.ImageSearchButton.RunBranch | src/components/ImageSearchButton.tsx:69-127 | the new state, the request sent and the target built are those of `Run` for the engine's branch on the old state |
| SearchButton.ImageSearchButton.SearchInline | src/components/ImageSearchButton.tsx:75-92 | once loading has started, the new state and the request sent are those of `Run` for the inline branch |
| SearchButton.ImageSearchButton.UploadAndRedirect | src/components/ImageSearchButton.tsx:95-121 | once loading has started, the new state, the request sent and the target built are those of `Run` for the redirect branch |
| SearchButton.ImageSearchButton.FireRedirectTimer | src/components/ImageSearchButton.tsx:116-120 | hands the oldest scheduled target to navigation, clears loading and status, and keeps the state settled |
| SearchButton.ImageSearchButton.Click | src/components/ImageSearchButton.tsx:159-161 | a disabled button (no file, or loading) does nothing; otherwise it runs the handler; the state stays settled (loading exactly while one redirect is pending) |
| SearchButton.SearchIgnored | src/components/ImageSearchButton.tsx:65-67 | with no file or an id absent from the table, nothing changes and no request is sent |
| SearchButton.SearchedRuns | src/components/ImageSearchButton.tsx:66-95 | once the engine is found, the handler runs the inline branch for "api" and the redirect branch with the template for "url" |
| SearchButton.RunSends | src/components/ImageSearchButton.tsx:77-80 | the inline branch sends the file under `file` to /api/search, the redirect branch to /api/upload |
| SearchButton.EveryEngineBranches | src/components/ImageSearchButton.tsx:75-102 | every table engine sends exactly one request, to /api/search for "api" and /api/upload for "url", carrying the file under `file` |
| SearchButton.RunSettles | src/components/ImageSearchButton.tsx:69-127 | after either branch, loading is set exactly when a redirect target was built, and then that target is scheduled |
| SearchButton.NeverStuck | src/components/ImageSearchButton.tsx:69-127 | for every engine of the table, loading stays set only when a redirect timer was scheduled for the target built |
| SearchButton.InlineFound | src/components/ImageSearchButton.tsx:85-91 | an ok answer with non-empty `results` sets result to `results[0]`, status to "搜索完成！", loading off, error empty |
| SearchButton.InlineNoMatch | src/components/ImageSearchButton.tsx:85-91 | an ok answer whose data is not `null` and whose `results` are not truthy with a positive `length` sets error to "未找到相似图片", leaves result null and turns loading off |
| SearchButton.NoMatchAnswers | src/components/ImageSearchButton.tsx:85-90 | missing, `null`, `""`, `0`, `false`, `[]` and `{}` results, and data that is not an object, are no match |
| SearchButton.NullData | src/components/ImageSearchButton.tsx:85 | an ok answer whose data is `null` throws the TypeError of reading `results` |
| SearchButton.RunFails | src/components/ImageSearchButton.tsx:123-127 | a throw in either branch leaves loading off, result null, the caught message as error, and the status set before the step that threw |
| SearchButton.FailureState | src/components/ImageSearchButton.tsx:123-127 | for every engine of the table every failure ends in that state, with a non-empty error and no target |
| SearchButton.SearchErrorText | src/components/ImageSearchButton.tsx:83 | a non-ok search throws the response's `error` converted to a string when it is truthy, the TypeError's text when it has no string form, and "搜索出错" when it is missing or falsy |
| SearchButton.UploadErrorText | src/components/ImageSearchButton.tsx:105-107 | a non-ok upload, or an ok one whose `url` is missing or falsy, throws the response's `error` in the same way, with "图片上传失败，无法生成链接" when it is missing or falsy |
| SearchButton.UploadedUrlCases | src/components/ImageSearchButton.tsx:102-109 | the upload yields an image URL exactly when the answer is ok and an object with a truthy `url`, and it is that `url` |
| SearchButton.RunRedirects | src/components/ImageSearchButton.tsx:109-120 | the redirect branch builds a target exactly when the upload yields a URL with a string form; the target is the template with the URL substituted, and it is scheduled with loading on |
| SearchButton.UnconvertibleUrl | src/components/ImageSearchButton.tsx:109-113 | an uploaded `url` that is an object with its own `toString` makes `encodeURIComponent` throw: loading off, the TypeError's text as error, status "2/2 正在跳转搜索引擎...", nothing scheduled |
| SearchButton.NavigatesOnlyAfterUpload | src/components/ImageSearchButton.tsx:102-113 | for a "url" engine of the table, a target is built exactly after an ok upload with a truthy `url` that has a string form, and it is the template with that URL substituted |
| SearchButton.ClickKeepsSettled | src/components/ImageSearchButton.tsx:159-161 | with the button's guard, a click keeps loading set exactly while a single redirect is pending |
| SearchButton.TimerKeepsSettled | src/components/ImageSearchButton.tsx:116-120 | the timer's callback keeps that invariant and turns loading off |
| Flow.RouteErrorShown | src/components/ImageSearchButton.tsx:83 | a route's error response makes either branch throw exactly the route's `error` text |
| Flow.UploadErrorReachesUser | src/app/api/upload/route.ts:38-40 | every error response of the upload route shows up unchanged as the button's error, with loading off and no target |
| Flow.SearchErrorReachesUser | src/app/api/search/route.ts:35-37 | every error response of the search route shows up unchanged as the button's error, with loading off and no result |
| Flow.HostedImageReachesEngine | src/app/api/upload/route.ts:31-33 | a Telegraph `src` leads to the engine's target holding the encoded "https://telegra.ph" + src, and decoding that segment gives the hosted URL back |
| Flow.UrlReachesEngine | src/components/ImageSearchButton.tsx:102-113 | the upload route's 200 `{url}` answer makes every "url" engine's target its template with the encoded URL in place of `{url}`, and decoding that segment gives the URL back |
| Flow.RunReachesTarget | src/components/ImageSearchButton.tsx:109-113 | the same for the redirect branch of any template holding `{url}` once and no other brace |
| Flow.SauceResultDisplayed | src/app/api/search/route.ts:32-33 | SauceNAO's first result, passed through the search route, is displayed with status "搜索完成！" |

## Left out

- JSX rendering, CSS classes, the `URL.createObjectURL` preview and `console.error` are not modelled.
- `window.open` is not modelled. The target it would open is what `FireRedirectTimer` returns.
- The 500 ms delay is not modelled. `scheduled` holds the targets of timers that have not fired, in the order they fire.
- React's batching of state updates and closure capture are not modelled. `handleSearch` reads one snapshot of the file and the engine and runs to completion with the outcome of its request.
- Concurrent runs interleaving at the `await` points are not modelled, for the same reason.
- Floating-point JSON numbers are not modelled: the model's numbers are integers.
- JSON objects are maps, so duplicate keys and key order are not modelled.
- Member reads are exact only for keys that no built-in prototype defines. That holds for every key the code reads (`error`, `results`, `url`, `src`).
- Js.HasPositiveLength: an object's `length` member that is a string, array or object is treated as not positive. JavaScript would convert it with ToNumber, which throws a TypeError for an object with its own `toString`.
- Js.ToStr: integers are exact. JavaScript rounds those above 2^53 in magnitude to a double, and from 10^21 on writes them in exponent form ("1e+21").
- Js.First: `s[0]` on a string gives its first code point. JavaScript strings are UTF-16, and `s[0]` gives a code unit.
- Lone surrogates do not exist in the model, because Dafny's `char` is a Unicode scalar value. So `encodeURIComponent`'s URIError on them is not modelled.
- The text of the TypeError thrown when reading a member of `null` follows V8's wording. Other engines word it differently.
- A Blob appended to a FormData becomes a File named "blob". This renaming is not modelled: the entry is forwarded as received.
- HTTP status texts are not modelled beyond SauceNAO's, which the search route copies into its message.
