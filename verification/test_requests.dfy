/**
 * The requests of TestWrapHandler (swagger_test.go:29-60) on a handler
 * mounted at /swagger: how the matcher splits their URLs and what the
 * handler answers.
 */
module TestRequests {
  import opened Wrappers
  import opened Matching
  import opened Options
  import opened Swag

  const IndexPath := "/swagger/index.html"
  const FaviconPath := "/swagger/favicon-16x16.png"
  const QueryPath := "/swagger/index.html?u=doc.json"

  lemma IndexUrl()
    ensures MountedAt(IndexPath, 9, 0) && IndexPath[..9] == "/swagger/"
  {
    assert forall j :: 0 <= j < |IndexPath| ==> IndexPath[j] != '\n';
    assert NoHeadFrom(IndexPath, 10);
    assert AssetAt(IndexPath, 9, 0);
  }

  /** The index page's URL: group 1 is the mount prefix, group 2 is index.html. */
  lemma IndexRequestMatched()
    ensures FindStringSubmatch(IndexPath) == Some(Submatch("/swagger/", "index.html"))
  {
    IndexUrl();
    MatchAt(IndexPath, 9, 0);
  }

  /** GET /swagger/index.html is the rendered page, as HTML, when rendering succeeds. */
  lemma IndexRequestServed(cfg: ConfigValue, env: Collaborators)
    requires env.render(ToSwaggerConfig(cfg)).Some?
    ensures Respond(cfg, Request(MethodGet, IndexPath), env)
      == Status(200, Entity("text/html; charset=utf-8", Concat(env.render(ToSwaggerConfig(cfg)).value)))
  {
    IndexRequestMatched();
    IndexPage(cfg, env);
  }

  lemma FaviconNoNewline()
    ensures forall j :: 0 <= j < |FaviconPath| ==> FaviconPath[j] != '\n'
  {
  }

  lemma FaviconNoHead()
    ensures NoHeadFrom(FaviconPath, 10)
  {
  }

  lemma FaviconNameAt()
    ensures AssetAt(FaviconPath, 9, 2) && !AssetAt(FaviconPath, 9, 0) && !AssetAt(FaviconPath, 9, 1)
  {
    assert AssetAt(FaviconPath, 9, 2);
    forall j | 0 <= j < 2 && AssetAt(FaviconPath, 9, j) ensures false {
      FirstChar(FaviconPath, 9, j);
    }
  }

  lemma FaviconUrl()
    ensures MountedAt(FaviconPath, 9, 2) && FaviconPath[..9] == "/swagger/"
  {
    FaviconNoNewline();
    FaviconNoHead();
    FaviconNameAt();
  }

  lemma FaviconName()
    ensures Assets[2] == "favicon-16x16.png"
  {
  }

  /** The small icon's URL: group 1 is the mount prefix, group 2 is favicon-16x16.png. */
  lemma FaviconRequestMatched()
    ensures FindStringSubmatch(FaviconPath) == Some(Submatch("/swagger/", "favicon-16x16.png"))
  {
    FaviconUrl();
    FaviconName();
    MatchAt(FaviconPath, 9, 2);
  }

  /**
   * GET /swagger/favicon-16x16.png is an empty 200 with no content type,
   * whatever the collaborators do.
   */
  lemma FaviconServedEmpty(cfg: ConfigValue, env: Collaborators)
    ensures Respond(cfg, Request(MethodGet, FaviconPath), env) == Status(200, Empty)
  {
    FaviconRequestMatched();
    FaviconName();
    StaticAsset(cfg, Assets[2], env);
  }

  lemma QueryNoNewline()
    ensures forall j :: 0 <= j < |QueryPath| ==> QueryPath[j] != '\n'
  {
  }

  lemma QueryNoHead()
    ensures NoHeadFrom(QueryPath, 23)
  {
  }

  lemma QueryNameAt()
    ensures AssetAt(QueryPath, 22, 1) && !AssetAt(QueryPath, 22, 0)
    ensures QueryPath[..22] == "/swagger/index.html?u="
  {
    assert AssetAt(QueryPath, 22, 1);
    if AssetAt(QueryPath, 22, 0) {
      FirstChar(QueryPath, 22, 0);
    }
  }

  lemma DocumentName()
    ensures Assets[1] == "doc.json"
  {
  }

  /**
   * A URL whose query names another asset: group 1 is greedy, so the later
   * name doc.json is the match, and everything in front of it is the prefix.
   */
  lemma QueryRequestMatched()
    ensures FindStringSubmatch(QueryPath) == Some(Submatch("/swagger/index.html?u=", "doc.json"))
  {
    QueryNoNewline();
    QueryNoHead();
    QueryNameAt();
    DocumentName();
    MatchAt(QueryPath, 22, 1);
  }
}
