/**
 * The request handler built by CustomWrapHandler (swagger.go:134-263): the
 * byte sink the index template writes into, the one-time capture of the
 * mount prefix into the webdav handler, the dispatch on the asset name, and
 * the wrappers that build or disable the handler.
 */
module Swag {
  import opened Wrappers
  import opened Matching
  import opened MediaTypes
  import opened Options

  newtype byte = x: int | 0 <= x < 256

  /** A decoded description document: its top-level keys, each with its value's JSON text. */
  type JsonObject = map<string, string>

  /** The response bodies the handler produces. */
  datatype Body =
    | Empty                                            // stgin.Empty()
    | Text(text: string)                               // stgin.Text(...)
    | Entity(contentType: string, bytes: seq<byte>)    // the responseEntity of swagger.go:136-145
    | Json(doc: JsonObject)                            // stgin.Json(&docMap)

  /** A stgin.Status: an HTTP status code with its body. */
  datatype Status = Status(code: int, body: Body)

  const MethodGet := "GET"

  const MethodNotAllowed := Status(405, Empty)
  const NotFound := Status(404, Text("Not Found"))
  const InternalServerError := Status(500, Text("internal server error"))

  /** A request as the handler sees it. */
  datatype Request = Request(verb: string, url: string)

  /**
   * The code the handler calls but that is not part of this model, as the
   * outcomes it gives:
   * render    — executing the parsed index template on a SwaggerConfig: the
   *             writes it issues to the sink, or None when it fails;
   * readDoc   — swag.ReadDoc on an instance name: the document text, or None;
   * unmarshal — json.Unmarshal of that text into a map, or None on failure.
   */
  datatype Collaborators = Collaborators(
    render: SwaggerConfig -> Option<seq<seq<byte>>>,
    readDoc: string -> Option<string>,
    unmarshal: string -> Option<JsonObject>)

  /** The bytes of a sequence of writes, in order. */
  function Concat(writes: seq<seq<byte>>): seq<byte>
    decreases |writes|
  {
    if writes == [] then [] else Concat(writes[..|writes| - 1]) + writes[|writes| - 1]
  }

  /** The aggregator sink of swagger.go:149-156: an append-only byte buffer. */
  class Sink {
    var bytes: seq<byte>

    constructor ()
      ensures bytes == []
    {
      bytes := [];
    }

    /** io.Writer: append all of p, report its length and no error. */
    method Write(p: seq<byte>) returns (n: int, err: Option<string>)
      modifies this
      ensures bytes == old(bytes) + p
      ensures n == |p| && err == None
    {
      bytes := bytes + p;
      n, err := |p|, None;
    }
  }

  /** webdav.Handler, reduced to the one field this code writes. */
  class WebdavHandler {
    var prefix: string

    constructor (prefix: string)
      ensures this.prefix == prefix
    {
      this.prefix := prefix;
    }
  }

  /** The response for a recognised asset name (swagger.go:194-237). */
  function Dispatch(cfg: ConfigValue, path: string, env: Collaborators): (st: Status)
    ensures st.code == 200 || st == InternalServerError
    ensures st == InternalServerError ==> path == "index.html" || path == "doc.json"
  {
    var contentType := ContentType(path);
    if path == "index.html" then
      match env.render(ToSwaggerConfig(cfg))
      case None => InternalServerError
      case Some(writes) => Status(200, Entity(contentType, Concat(writes)))
    else if path == "doc.json" then
      match env.readDoc(cfg.instanceName)
      case None => InternalServerError
      case Some(doc) =>
        match env.unmarshal(doc)
        case None => InternalServerError
        case Some(docMap) => Status(200, Json(docMap))
    else Status(200, Empty)
  }

  /** The content type of each asset name, in the order of Assets. */
  const AssetTypes: seq<string> := [
    "text/html; charset=utf-8",          // index.html
    "application/json; charset=utf-8",   // doc.json
    "image/png",                         // favicon-16x16.png
    "image/png",                         // favicon-32x32.png
    "text/html; charset=utf-8",          // /oauth2-redirect.html
    "text/css; charset=utf-8",           // swagger-ui.css
    "",                                  // swagger-ui.css.map
    "application/javascript",            // swagger-ui.js
    "",                                  // swagger-ui.js.map
    "application/javascript",            // swagger-ui-bundle.js
    "",                                  // swagger-ui-bundle.js.map
    "application/javascript",            // swagger-ui-standalone-preset.js
    ""                                   // swagger-ui-standalone-preset.js.map
  ]

  /** The switch gives each asset name the media type of its extension; only the maps get none. */
  lemma AssetContentType(k: nat)
    requires k < |Assets|
    ensures ContentType(Assets[k]) == AssetTypes[k]
    ensures ContentType(Assets[k]) == "" <==> IsSourceMap(Assets[k])
  {
    if k == 0 || k == 4 { PageContentType(k); }
    else if k == 1 { DocumentContentType(); }
    else if k < 4 { IconContentType(k); }
    else if k < 7 { StylesheetContentType(k); }
    else if k < 9 { ScriptContentType(k); }
    else if k < 11 { BundleContentType(k); }
    else { PresetContentType(k); }
  }

  /** The index page and the OAuth2 redirect page. */
  lemma PageContentType(k: nat)
    requires k == 0 || k == 4
    ensures ContentType(Assets[k]) == AssetTypes[k]
    ensures AssetTypes[k] == "" <==> IsSourceMap(Assets[k])
  {
    if k == 0 {
      ContentTypeOfSuffix("index.html", ".html");
    } else {
      ContentTypeOfSuffix("/oauth2-redirect.html", ".html");
    }
  }

  /** The description document. */
  lemma DocumentContentType()
    ensures ContentType(Assets[1]) == AssetTypes[1]
    ensures AssetTypes[1] == "" <==> IsSourceMap(Assets[1])
  {
    ContentTypeOfSuffix("doc.json", ".json");
  }

  /** The two icons. */
  lemma IconContentType(k: nat)
    requires k == 2 || k == 3
    ensures ContentType(Assets[k]) == AssetTypes[k]
    ensures AssetTypes[k] == "" <==> IsSourceMap(Assets[k])
  {
    match k
    case 2 => ContentTypeOfSuffix("favicon-16x16.png", ".png");
    case _ => ContentTypeOfSuffix("favicon-32x32.png", ".png");
  }

  /** The stylesheet and its source map. */
  lemma StylesheetContentType(k: nat)
    requires k == 5 || k == 6
    ensures ContentType(Assets[k]) == AssetTypes[k]
    ensures AssetTypes[k] == "" <==> IsSourceMap(Assets[k])
  {
    match k
    case 5 => ContentTypeOfSuffix("swagger-ui.css", ".css");
    case _ => ContentTypeOfSuffix("swagger-ui.css.map", ".map");
  }

  /** The main script and its source map. */
  lemma ScriptContentType(k: nat)
    requires k == 7 || k == 8
    ensures ContentType(Assets[k]) == AssetTypes[k]
    ensures AssetTypes[k] == "" <==> IsSourceMap(Assets[k])
  {
    match k
    case 7 => ContentTypeOfSuffix("swagger-ui.js", ".js");
    case _ => ContentTypeOfSuffix("swagger-ui.js.map", ".map");
  }

  /** The bundle and its source map. */
  lemma BundleContentType(k: nat)
    requires k == 9 || k == 10
    ensures ContentType(Assets[k]) == AssetTypes[k]
    ensures AssetTypes[k] == "" <==> IsSourceMap(Assets[k])
  {
    match k
    case 9 => ContentTypeOfSuffix("swagger-ui-bundle.js", ".js");
    case _ => ContentTypeOfSuffix("swagger-ui-bundle.js.map", ".map");
  }

  /** The standalone preset and its source map. */
  lemma PresetContentType(k: nat)
    requires k == 11 || k == 12
    ensures ContentType(Assets[k]) == AssetTypes[k]
    ensures AssetTypes[k] == "" <==> IsSourceMap(Assets[k])
  {
    match k
    case 11 => ContentTypeOfSuffix("swagger-ui-standalone-preset.js", ".js");
    case _ => ContentTypeOfSuffix("swagger-ui-standalone-preset.js.map", ".map");
  }

  /**
   * The content type the switch computes is non-empty for every name the
   * matcher can report; only the index.html response carries it.
   */
  lemma MatchedAssetHasContentType(url: string)
    requires ContainsAsset(url)
    ensures ContentType(FindStringSubmatch(url).value.asset) != ""
  {
    var m := Find(url).value;
    MapAlternativesNeverChosen(url);
    AssetContentType(m.alt);
  }

  /**
   * index.html: the rendered page as HTML when the template succeeds, a 500
   * with a generic message when it fails (swagger.go:210-222).
   */
  lemma IndexPage(cfg: ConfigValue, env: Collaborators)
    ensures env.render(ToSwaggerConfig(cfg)).None? ==> Dispatch(cfg, "index.html", env) == InternalServerError
    ensures env.render(ToSwaggerConfig(cfg)).Some? ==>
      Dispatch(cfg, "index.html", env)
        == Status(200, Entity("text/html; charset=utf-8", Concat(env.render(ToSwaggerConfig(cfg)).value)))
  {
    AssetContentType(0);
  }

  /**
   * doc.json: a 500 when the registry has no document under the instance
   * name or the document does not decode, otherwise the decoded document
   * as JSON (swagger.go:223-235).
   */
  lemma DescriptionDocument(cfg: ConfigValue, env: Collaborators)
    ensures Dispatch(cfg, "doc.json", env) == InternalServerError
      <==> env.readDoc(cfg.instanceName).None? || env.unmarshal(env.readDoc(cfg.instanceName).value).None?
    ensures Dispatch(cfg, "doc.json", env) != InternalServerError ==>
      Dispatch(cfg, "doc.json", env) == Status(200, Json(env.unmarshal(env.readDoc(cfg.instanceName).value).value))
  {
  }

  /** Every other recognised asset gets an empty 200, whatever the collaborators do (swagger.go:237). */
  lemma StaticAsset(cfg: ConfigValue, path: string, env: Collaborators)
    requires path in Assets && path != "index.html" && path != "doc.json"
    ensures Dispatch(cfg, path, env) == Status(200, Empty)
  {
  }

  /** The request was a GET whose URL the matcher accepts: one that names an asset. */
  predicate Accepted(req: Request)
    ensures Accepted(req) <==> req.verb == MethodGet && ContainsAsset(req.url)
  {
    req.verb == MethodGet && FindStringSubmatch(req.url).Some?
  }

  /** The response of the handler closure to one request (swagger.go:178-239). */
  function Respond(cfg: ConfigValue, req: Request, env: Collaborators): (st: Status)
    ensures req.verb != MethodGet ==> st == MethodNotAllowed
    ensures req.verb == MethodGet ==> (st == NotFound <==> !ContainsAsset(req.url))
    ensures Accepted(req) ==> st == Dispatch(cfg, FindStringSubmatch(req.url).value.asset, env)
  {
    if req.verb != MethodGet then MethodNotAllowed
    else
      match FindStringSubmatch(req.url)
      case None => NotFound
      case Some(m) => Dispatch(cfg, m.asset, env)
  }

  /**
   * The closure returned by CustomWrapHandler: the Config it points to, the
   * webdav handler whose Prefix it sets, and the done flag of its sync.Once.
   */
  class SwaggerApi {
    const config: Config
    const webdav: WebdavHandler
    var once: bool

    constructor (config: Config, webdav: WebdavHandler)
      ensures this.config == config && this.webdav == webdav && !once
    {
      this.config := config;
      this.webdav := webdav;
      once := false;
    }

    /**
     * Serve one request. The first accepted request stores its prefix in the
     * webdav handler; no request after it changes that prefix again.
     */
    method Handle(req: Request, env: Collaborators) returns (st: Status)
      modifies this, webdav
      ensures st == Respond(config.Value(), req, env)
      ensures once == (old(once) || Accepted(req))
      ensures !old(once) && Accepted(req) ==> webdav.prefix == FindStringSubmatch(req.url).value.prefix
      ensures old(once) || !Accepted(req) ==> webdav.prefix == old(webdav.prefix)
    {
      if req.verb != MethodGet {
        return MethodNotAllowed;
      }
      var matches := FindStringSubmatch(req.url);
      if matches.None? {
        return NotFound;
      }
      var path := matches.value.asset;
      if !once {
        webdav.prefix := matches.value.prefix;
        once := true;
      }
      st := Serve(path, env);
    }

    /** The switch on the asset name (swagger.go:194-237), reading the Config as it is now. */
    method Serve(path: string, env: Collaborators) returns (st: Status)
      ensures st == Dispatch(config.Value(), path, env)
    {
      var contentType := ContentType(path);
      var aggregator := new Sink();
      if path == "index.html" {
        var rendered := env.render(ToSwaggerConfig(config.Value()));
        if rendered.None? {
          return InternalServerError;
        }
        var writes := rendered.value;
        for i := 0 to |writes|
          invariant aggregator.bytes == Concat(writes[..i])
        {
          assert writes[..i + 1][..i] == writes[..i];
          var _, _ := aggregator.Write(writes[i]);
        }
        assert writes[..|writes|] == writes;
        return Status(200, Entity(contentType, aggregator.bytes));
      } else if path == "doc.json" {
        var doc := env.readDoc(config.instanceName);
        if doc.None? {
          return InternalServerError;
        }
        var docMap := env.unmarshal(doc.value);
        if docMap.None? {
          return InternalServerError;
        }
        return Status(200, Json(docMap.value));
      }
      return Status(200, Empty);
    }
  }

  /**
   * Two requests in a row on a fresh handler: whatever the second one is,
   * even a request under another prefix, the prefix stays the first one's.
   */
  method TwoRequests(api: SwaggerApi, first: Request, second: Request, env: Collaborators)
    returns (r1: Status, r2: Status)
    requires !api.once && Accepted(first)
    modifies api, api.webdav
    ensures r1 == Respond(api.config.Value(), first, env)
    ensures r2 == Respond(api.config.Value(), second, env)
    ensures api.once && api.webdav.prefix == FindStringSubmatch(first.url).value.prefix
  {
    r1 := api.Handle(first, env);
    r2 := api.Handle(second, env);
  }

  /** CustomWrapHandler: fill in the fallbacks, then build the closure. */
  method CustomWrapHandler(config: Config, webdav: WebdavHandler) returns (api: SwaggerApi)
    modifies config
    ensures config.Value() == WithFallbacks(old(config.Value()))
    ensures fresh(api) && api.config == config && api.webdav == webdav && !api.once
  {
    config.ApplyFallbacks();
    api := new SwaggerApi(config, webdav);
  }

  /** WrapHandler: the defaults, updated by each option in turn, then CustomWrapHandler. */
  method WrapHandler(webdav: WebdavHandler, options: seq<Setter>) returns (api: SwaggerApi)
    ensures fresh(api) && fresh(api.config) && api.webdav == webdav && !api.once
    ensures api.config.Value() == WithFallbacks(ApplyAll(Defaults, options))
  {
    var config := new Config(Defaults);
    for i := 0 to |options|
      invariant config.Value() == ApplyAll(Defaults, options[..i])
    {
      assert options[..i + 1][..i] == options[..i];
      config.Apply(options[i]);
    }
    assert options[..|options|] == options;
    api := CustomWrapHandler(config, webdav);
  }

  /** What a wrapper returns: the disabled closure, or a live handler. */
  datatype Api = Off | On(handler: SwaggerApi)

  /** The closure that stands in for a disabled handler (swagger.go:246-248, 258-260). */
  function Disabled(req: Request): (st: Status)
    ensures st.code == 404 && st.body == Empty
  {
    Status(404, Empty)
  }

  /** Calling whichever closure a wrapper returned. */
  method Call(api: Api, req: Request, env: Collaborators) returns (st: Status)
    modifies if api.On? then {api.handler, api.handler.webdav} else {}
    ensures api.Off? ==> st == Disabled(req)
    ensures api.On? ==> st == Respond(api.handler.config.Value(), req, env)
    ensures api.On? ==> api.handler.once == (old(api.handler.once) || Accepted(req))
    ensures api.On? && !old(api.handler.once) && Accepted(req) ==>
      api.handler.webdav.prefix == FindStringSubmatch(req.url).value.prefix
    ensures api.On? && (old(api.handler.once) || !Accepted(req)) ==>
      api.handler.webdav.prefix == old(api.handler.webdav.prefix)
  {
    match api
    case Off => st := Disabled(req);
    case On(h) => st := h.Handle(req, env);
  }

  /**
   * DisablingWrapHandler: off when the environment variable is set to
   * anything non-empty, otherwise WrapHandler with no options.
   */
  method DisablingWrapHandler(webdav: WebdavHandler, envName: string, getenv: string -> string)
    returns (api: Api)
    ensures api.Off? <==> getenv(envName) != ""
    ensures api.On? ==> fresh(api.handler) && fresh(api.handler.config) && !api.handler.once
    ensures api.On? ==> api.handler.webdav == webdav && api.handler.config.Value() == Defaults
  {
    if getenv(envName) != "" {
      return Off;
    }
    var h := WrapHandler(webdav, []);
    FallbacksIdempotent(Defaults);
    return On(h);
  }

  /**
   * DisablingCustomWrapHandler: off, leaving the Config untouched, when the
   * environment variable is non-empty; otherwise CustomWrapHandler.
   */
  method DisablingCustomWrapHandler(config: Config, webdav: WebdavHandler, envName: string,
                                    getenv: string -> string)
    returns (api: Api)
    modifies config
    ensures api.Off? <==> getenv(envName) != ""
    ensures api.Off? ==> config.Value() == old(config.Value())
    ensures api.On? ==> fresh(api.handler) && api.handler.config == config && api.handler.webdav == webdav
    ensures api.On? ==> !api.handler.once && config.Value() == WithFallbacks(old(config.Value()))
  {
    if getenv(envName) != "" {
      return Off;
    }
    var h := CustomWrapHandler(config, webdav);
    return On(h);
  }
}
