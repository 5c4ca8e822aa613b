# stgin-swag handler, modelled in Dafny

`stgin-swag` serves the Swagger UI through the stgin web framework.
`WrapHandler` and `CustomWrapHandler` return a stgin API: a closure that
answers one request with one `stgin.Status`. The closure does the following:

- It refuses every method but GET with 405.
- It runs a fixed regular expression on the request URL. When nothing matches,
  it answers 404 "Not Found".
- The first time a URL matches, it stores group 1 in the webdav handler: the
  longest text, on that line, after which an asset name occurs. It does this
  once and never again (`sync.Once`). This is not always the mount prefix. For
  `/swagger/oauth2-redirect.html` it is `/swagger`, because that alternative
  carries its own leading slash. An asset name later in the URL, for example
  in the query string of `/swagger/index.html?u=doc.json`, takes over both the
  match and the stored text.
- It picks a content type from the asset name's extension.
- It dispatches on the asset name:
  - `index.html` is the page rendered from a template through an in-memory byte
    sink. A rendering error gives 500.
  - `doc.json` is the description document read from the swag registry and
    decoded as JSON. A missing or undecodable document gives 500.
  - Every other recognised name gets an empty 200.

The configuration is a `Config` record. `WrapHandler` fills it with defaults and
then runs each option setter on it in place. `CustomWrapHandler` then replaces
an empty instance name with `"swagger"` and an empty title with
`"Swagger UI"`. `DisablingWrapHandler` and `DisablingCustomWrapHandler` return a
closure that always answers 404 with an empty body when a named environment
variable is non-empty.

Modules:

- `Matching` (matching.dfy) covers `regexp.FindStringSubmatch` on this one pattern.
  - `LeftmostFirst` states Go's leftmost-first semantics declaratively. The
    earliest start wins, then the longest greedy `(.*)` that cannot cross a
    newline, then the first alternative in listed order.
  - `ScanFrom`, `LastFrom` and `FirstFrom` form a backtracking scan that is
    proved to find exactly that match.
  - A consequence: the four `.map` names can never be reported. Each is listed
    after the name it extends, so that name wins at the same position.
- `MediaTypes` (media_types.dfy) covers `filepath.Ext` and the content-type switch.
- `Options` (options.dfy) covers:
  - the `Config` record as a class updated in place;
  - the seven option setters, and their effect as functions on values;
  - the defaults, the fallbacks and `toSwaggerConfig`.
- `Swag` (swag.dfy) covers:
  - the aggregator `sink`;
  - the closure as the class `SwaggerApi`, which holds the `once` flag and whose
    `Handle` method changes the webdav handler's prefix;
  - the pure reference `Respond`/`Dispatch` that `Handle` is proved against;
  - the four wrapper constructors.
- `TestRequests` (test_requests.dfy) covers the requests of `TestWrapHandler` for
  `/swagger/index.html` and `/swagger/favicon-16x16.png`. It shows how the
  matcher splits their URLs and what the handler answers.

Several calls lie outside this model. Each is passed in as a parameter:

- The template execution, `swag.ReadDoc` and `json.Unmarshal` are the three
  functions of `Collaborators`. Each gives its outcome or `None` for an error.
- `os.Getenv` is the `getenv` argument of the disabling wrappers.

Places where the code differs from the documented behaviour (the model follows
the code):

- Static assets get no content type. The content type is computed for every
  asset, but only `index.html` uses it. Every other recognised name gets
  `stgin.Ok(stgin.Empty())` (swagger.go:237), with no content type and no
  bytes. The tests at swagger_test.go:46-56 expect `image/png`,
  `text/css; charset=utf-8` and `application/javascript` headers.
  `StaticAsset` states what the code does, and `FaviconServedEmpty` states it
  for the test's own URL.
- The webdav handler is never called. Its `Prefix` is written, but no request
  is delegated to it. Nothing in the code serves the static files.
- The pattern is not anchored at the end, so any text may follow an asset name.
  It is not limited to a query string. The redirect page's alternative is
  `/oauth2-redirect.html`, with its leading slash. Because group 1 is greedy,
  an asset name later in the URL (for example in the query) takes over the
  match: `/swagger/index.html?u=doc.json` is answered as `doc.json`, and on a
  first request its stored prefix is `/swagger/index.html?u=`.
- The `.map` names appear in the pattern but are shadowed, as stated above.

## Model

| member | source | states |
|---|---|---|
| Matching.FirstFrom | swagger.go:176 | the alternative found from k on is a prefix of the text, and no earlier-listed one from k on is |
| Matching.AltAt | swagger.go:176 | the alternation at position i picks the first listed name that occurs there, and fails exactly when none does |
| Matching.LineEnd | swagger.go:176 | the greedy `.*` started at p stops at the first newline after p, or at the end of the text |
| Matching.LastFrom | swagger.go:176 | backtracking the greedy group finds the last position in [p, i] where some name occurs, or reports that none occurs there |
| Matching.ScanFrom | swagger.go:176 | among matches starting at p or later, the result has the earliest start, the longest first group and the first-listed alternative; None only when there is no such match |
| Matching.NoCandidateBeyondLine | swagger.go:176 | a match starting at p ends its first group within p's line |
| Matching.Find | swagger.go:176-183 | the match found is the leftmost-first match, and there is none exactly when no asset name occurs in the URL |
| Matching.FindStringSubmatch | swagger.go:183-189 | nil exactly when the URL contains no asset name; otherwise group 1 is the URL from the leftmost-first match start to its split, group 2 is the alternative chosen there, and group 1 followed by group 2 is the URL from the match start |
| Matching.SpanSplits | swagger.go:183-189 | a match cuts the URL into the text before it, group 1, group 2 and the rest |
| Matching.NewlineFreeUrl | swagger.go:183-189 | for a URL without newlines the match starts at 0, the prefix is the longest one followed by an asset name, and the name is the first listed one found there |
| Matching.SourceMapsFollowTheirFile | swagger.go:176 | each `.map` alternative comes right after the name it extends |
| Matching.MapAlternativesNeverChosen | swagger.go:176 | the asset reported is never one of the `.map` names |
| Matching.AssetsHaveDots | swagger.go:176 | every alternative contains a dot |
| Matching.DotlessUrlNotMatched | swagger.go:183-187 | a URL without a dot is not matched, so the request gets 404 |
| Matching.UnknownPathNotMatched | swagger_test.go:58 | `/swagger/notfound` is not matched |
| Matching.DotOfAsset | swagger.go:176 | a URL in which some alternative occurs contains a dot |
| Matching.Heads | swagger.go:176 | every alternative begins with one of five two-character heads |
| Matching.FirstChar | swagger.go:176 | an alternative found at position i begins with the URL's character there |
| Matching.NoAssetFrom | swagger.go:176 | where no head occurs from position i on, no alternative occurs there |
| Matching.MatchAt | swagger.go:183-189 | a newline-free URL with name k at p, no earlier-listed name at p and none after p gives group 1 = the URL up to p and group 2 = name k |
| TestRequests.IndexRequestMatched | swagger_test.go:32 | `/swagger/index.html` is split into `/swagger/` and `index.html` |
| TestRequests.IndexRequestServed | swagger_test.go:32-36 | GET `/swagger/index.html` answers 200 with the HTML content type and the rendered bytes when rendering succeeds |
| TestRequests.FaviconRequestMatched | swagger_test.go:46 | `/swagger/favicon-16x16.png` is split into `/swagger/` and `favicon-16x16.png` |
| TestRequests.FaviconServedEmpty | swagger_test.go:46-48 | GET `/swagger/favicon-16x16.png` answers an empty 200 with no content type, whatever the collaborators do, where the test expects `image/png` |
| TestRequests.QueryRequestMatched | swagger.go:176-192 | `/swagger/index.html?u=doc.json` is split into `/swagger/index.html?u=` and `doc.json`: the greedy group 1 lets the later name in the query take over the match and the stored prefix |
| MediaTypes.Ext | swagger.go:195 | `filepath.Ext` gives a result no longer than the path, and a non-empty one starts with a dot; ExtFinds characterises it fully |
| MediaTypes.ExtBefore | swagger.go:195 | the backward scan from position n gives a result no longer than the path, starting with a dot when non-empty; ExtBeforeFinds characterises it for every n the scan reaches from Ext |
| MediaTypes.ExtBeforeFinds | swagger.go:195 | the backward scan returns the suffix that starts at the last dot after the last slash, or "" when every dot has a slash after it |
| MediaTypes.ExtFinds | swagger.go:195 | `filepath.Ext` is the suffix starting at the final element's last dot, and "" exactly when every dot is followed by a slash |
| MediaTypes.ExtOfSuffix | swagger.go:195 | a path ending in a dot-led suffix with no further dot or slash has exactly that extension |
| MediaTypes.MediaType | swagger.go:194-206 | the switch gives a media type only to a genuine extension (a dot followed by no further dot or slash) |
| MediaTypes.ContentType | swagger.go:194-206 | an asset path gets a content type only when its extension is a genuine one; ContentTypeOfSuffix gives the value for a path that ends in a genuine extension (which may be "", as for `.map`) |
| MediaTypes.ContentTypeOfSuffix | swagger.go:194-206 | the content type of such a path is the switch's value for its extension |
| Options.Assign | swagger.go:62-111 | a setter writes its own field with its argument and leaves every other field unchanged |
| Options.ApplyAll | swagger.go:126-128 | after the option loop the last option's value holds in its field; LaterSetterWins, UnsetFieldKept and ApplyAllAppend give the rest |
| Options.Defaults | swagger.go:115-124 | the record WrapHandler starts from; FallbacksIdempotent shows it needs no fallback |
| Options.ApplyAllAppend | swagger.go:126-128 | running two option lists one after the other is running their concatenation |
| Options.LaterSetterWins | swagger.go:126-128 | an option's value survives unless a later option writes the same field |
| Options.UnsetFieldKept | swagger.go:126-128 | a field no option writes keeps its initial value |
| Options.WithFallbacks | swagger.go:165-171 | the instance name and title become non-empty; a non-empty one is kept, an empty one becomes "swagger" or "Swagger UI"; all other fields are kept |
| Options.FallbacksIdempotent | swagger.go:165-171 | applying the fallbacks twice equals applying them once, and the defaults are left unchanged by them |
| Options.FallbacksAfterOptions | swagger.go:114-131 | the fallbacks leave a WrapHandler configuration unchanged unless an option set the instance name to "" |
| Options.ToSwaggerConfig | swagger.go:46-59 | every displayed field is copied unchanged, and the template input carries the fixed client-side OAuth2 redirect expression |
| Options.ToSwaggerConfigKeepsAllButInstanceName | swagger.go:46-59 | two configurations give the same template input exactly when they agree on every field except the instance name |
| Options.Config.constructor | swagger.go:115-124 | a composite literal holds exactly the given field values |
| Options.Config.Apply | swagger.go:62-111 | calling a setter's closure on the record changes it to the setter's effect on its old value |
| Options.Config.ApplyFallbacks | swagger.go:165-171 | the record is updated in place to the fallbacks of its old value |
| Swag.Sink.constructor | swagger.go:208 | the aggregator starts empty |
| Swag.Sink.Write | swagger.go:153-156 | Write appends all of p, reports len(p) and no error |
| Swag.WebdavHandler.constructor | swagger.go:190-192 | the webdav handler holds the Prefix the closure writes once |
| Swag.Dispatch | swagger.go:194-237 | the response for a recognised name is a 200 or the generic 500, and a 500 only for index.html or doc.json |
| Swag.AssetContentType | swagger.go:194-206 | each alternative gets its extension's media type; only the `.map` names get none |
| Swag.PageContentType | swagger.go:194-206 | index.html and the redirect page are HTML |
| Swag.DocumentContentType | swagger.go:194-206 | doc.json is JSON |
| Swag.IconContentType | swagger.go:194-206 | the two favicons are image/png |
| Swag.StylesheetContentType | swagger.go:194-206 | swagger-ui.css is CSS; its source map gets no content type |
| Swag.ScriptContentType | swagger.go:194-206 | swagger-ui.js is JavaScript; its source map gets no content type |
| Swag.BundleContentType | swagger.go:194-206 | the bundle is JavaScript; its source map gets no content type |
| Swag.PresetContentType | swagger.go:194-206 | the standalone preset is JavaScript; its source map gets no content type |
| Swag.MatchedAssetHasContentType | swagger.go:183-206 | the content type the switch computes is non-empty for every asset name the matcher can report |
| Swag.IndexPage | swagger.go:209-222 | index.html is a 500 when rendering fails; otherwise a 200 HTML entity holding the bytes the template wrote, in order |
| Swag.DescriptionDocument | swagger.go:223-235 | doc.json is a 500 exactly when the registry has no document under the instance name or the document does not decode; otherwise a 200 with the decoded document |
| Swag.StaticAsset | swagger.go:237 | every other recognised name is an empty 200, whatever the collaborators do |
| Swag.Accepted | swagger.go:179-187 | a request goes past the checks exactly when it is a GET and its URL contains an asset name |
| Swag.Respond | swagger.go:178-239 | non-GET gives 405; a GET gives the 404 exactly when its URL names no asset; an accepted request gets the dispatch on the matched name |
| Swag.SwaggerApi.constructor | swagger.go:163 | a new closure holds its Config and webdav handler, and its once flag is not yet set |
| Swag.SwaggerApi.Handle | swagger.go:178-239 | the response is Respond's for the current Config; the first accepted request stores its prefix in the webdav handler; any later or rejected request leaves the prefix as it was |
| Swag.SwaggerApi.Serve | swagger.go:194-237 | serving through the sink gives Dispatch's response; the loop keeps the sink equal to the concatenation of the writes so far |
| Swag.TwoRequests | swagger.go:190-192 | after two requests on a fresh closure whose first is accepted, the prefix is the first request's, whatever the second is |
| Swag.CustomWrapHandler | swagger.go:162-178 | the Config is updated in place to its fallbacks, and a fresh closure over it and the webdav handler is returned |
| Swag.WrapHandler | swagger.go:114-131 | the closure's Config is the defaults updated by each option in order, then the fallbacks |
| Swag.Disabled | swagger.go:246-248 | a disabled handler answers 404 with an empty body |
| Swag.Call | swagger.go:244-263 | calling a wrapper's result gives the disabled 404, or the live closure's response with its once flag and webdav prefix updated as Handle updates them |
| Swag.DisablingWrapHandler | swagger.go:244-252 | off exactly when the variable is non-empty; otherwise a fresh closure whose Config equals the defaults |
| Swag.DisablingCustomWrapHandler | swagger.go:256-263 | off, with the Config untouched, exactly when the variable is non-empty; otherwise CustomWrapHandler's result |

## Left out

- Template rendering (`html/template`, its escaping and the text of
  `swaggerIndexTpl`) is not modelled. It is abstracted as the sequence of writes
  the template issues, or a failure. So the index body containing `doc.json`
  is not stated.
- `swag.ReadDoc`, `json.Unmarshal` and the JSON re-encoding done by
  `stgin.Json` are not modelled. The first two are the `readDoc` and
  `unmarshal` collaborators. A decoded document is a map from top-level keys to
  the JSON text of their values. The content type `stgin.Json` sets is outside
  this model.
- `sync.Once` is modelled sequentially, as a boolean flag. Concurrent first
  requests are not modelled.
- Error logging through `slogger` is left out, since it does not affect any
  response.
- `os.Getenv` becomes the `getenv` function argument.
- The regex compile at swagger.go:176 and the template parse at swagger.go:174
  are treated as succeeding, and the ignored parse error is not modelled. The
  pattern is modelled for this pattern only, not for regular expressions in
  general.
- Group 0 of the match, and the trailing `[?|.]*` that only extends it, are not
  modelled. The handler reads only groups 1 and 2, and the trailing class never
  decides whether or how those match.
- MediaTypes.ExtFinds: only `/` is a path separator (Unix `filepath`). The
  Windows separators are not modelled.
- Options.Assign: only the seven setters the package exports are modelled.
  Arbitrary user-written `func(*Config)` options are not.
- Strings are sequences of characters. The UTF-8 byte view that Go's regexp and
  `filepath.Ext` work on is not modelled.
- The webdav handler is reduced to its `Prefix` field, since the code never
  calls it.
- Swag.CustomWrapHandler / Swag.SwaggerApi.Handle: the `Config` and
  `WebdavHandler` parameters are non-null class references, so the nil
  `*Config` and nil `*webdav.Handler` that Go accepts are excluded. So are their
  panics: a nil config panics at swagger.go:165. A nil handler panics inside
  `once.Do` at swagger.go:191 on the first accepted GET, after which the
  `sync.Once` counts as done and no prefix is ever written.
- `TestServedOnPrefix`'s helper `ServedOnPrefix` is not part of this model.
