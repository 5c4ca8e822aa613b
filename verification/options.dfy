/**
 * Configuration of the handler (swagger.go:22-131, 165-171): the Config
 * record that option setters update in place, the defaults WrapHandler
 * starts from, the fallbacks CustomWrapHandler applies, and the copy handed
 * to the index template.
 */
module Options {

  /** The value of a Config record (swagger.go:34-44). */
  datatype ConfigValue = ConfigValue(
    url: string,
    docExpansion: string,
    instanceName: string,
    title: string,
    defaultModelsExpandDepth: int,
    deepLinking: bool,
    persistAuthorization: bool,
    oauth2DefaultClientId: string)

  /** The fields of a Config record. */
  datatype Field =
    | UrlField | DocExpansionField | InstanceNameField | TitleField
    | DepthField | DeepLinkingField | PersistAuthorizationField | ClientIdField

  /** c and d hold the same value in field f. */
  predicate Agree(c: ConfigValue, d: ConfigValue, f: Field) {
    match f
    case UrlField => c.url == d.url
    case DocExpansionField => c.docExpansion == d.docExpansion
    case InstanceNameField => c.instanceName == d.instanceName
    case TitleField => c.title == d.title
    case DepthField => c.defaultModelsExpandDepth == d.defaultModelsExpandDepth
    case DeepLinkingField => c.deepLinking == d.deepLinking
    case PersistAuthorizationField => c.persistAuthorization == d.persistAuthorization
    case ClientIdField => c.oauth2DefaultClientId == d.oauth2DefaultClientId
  }

  /** The option setters of swagger.go:62-111, one per exported constructor. */
  datatype Setter =
    | URL(url: string)
    | DocExpansion(docExpansion: string)
    | DeepLinking(deepLinking: bool)
    | DefaultModelsExpandDepth(depth: int)
    | InstanceName(name: string)
    | PersistAuthorization(persistAuthorization: bool)
    | Oauth2DefaultClientID(clientId: string)

  /** The field a setter writes. */
  function FieldOf(s: Setter): Field {
    match s
    case URL(_) => UrlField
    case DocExpansion(_) => DocExpansionField
    case DeepLinking(_) => DeepLinkingField
    case DefaultModelsExpandDepth(_) => DepthField
    case InstanceName(_) => InstanceNameField
    case PersistAuthorization(_) => PersistAuthorizationField
    case Oauth2DefaultClientID(_) => ClientIdField
  }

  /** c holds, in the setter's field, the value the setter writes. */
  predicate Holds(c: ConfigValue, s: Setter) {
    match s
    case URL(v) => c.url == v
    case DocExpansion(v) => c.docExpansion == v
    case DeepLinking(v) => c.deepLinking == v
    case DefaultModelsExpandDepth(v) => c.defaultModelsExpandDepth == v
    case InstanceName(v) => c.instanceName == v
    case PersistAuthorization(v) => c.persistAuthorization == v
    case Oauth2DefaultClientID(v) => c.oauth2DefaultClientId == v
  }

  /** The effect of calling one setter's closure on a Config. */
  function Assign(c: ConfigValue, s: Setter): (r: ConfigValue)
    ensures Holds(r, s)
    ensures forall f :: f != FieldOf(s) ==> Agree(r, c, f)
  {
    match s
    case URL(v) => c.(url := v)
    case DocExpansion(v) => c.(docExpansion := v)
    case DeepLinking(v) => c.(deepLinking := v)
    case DefaultModelsExpandDepth(v) => c.(defaultModelsExpandDepth := v)
    case InstanceName(v) => c.(instanceName := v)
    case PersistAuthorization(v) => c.(persistAuthorization := v)
    case Oauth2DefaultClientID(v) => c.(oauth2DefaultClientId := v)
  }

  /** The setters applied one after another, in order. */
  function ApplyAll(c: ConfigValue, options: seq<Setter>): (r: ConfigValue)
    decreases |options|
    ensures options != [] ==> Holds(r, options[|options| - 1])
  {
    if options == [] then c
    else Assign(ApplyAll(c, options[..|options| - 1]), options[|options| - 1])
  }

  /** Applying a concatenation is applying one list after the other. */
  lemma {:induction false} ApplyAllAppend(c: ConfigValue, a: seq<Setter>, b: seq<Setter>)
    ensures ApplyAll(c, a + b) == ApplyAll(ApplyAll(c, a), b)
    decreases |b|
  {
    if b == [] {
      assert a + b == a;
    } else {
      var n := |b| - 1;
      assert (a + b)[..|a + b| - 1] == a + b[..n];
      ApplyAllAppend(c, a, b[..n]);
    }
  }

  /** A setter's value survives when no later setter writes the same field. */
  lemma {:induction false} LaterSetterWins(c: ConfigValue, options: seq<Setter>, i: nat)
    requires i < |options|
    requires forall j :: i < j < |options| ==> FieldOf(options[j]) != FieldOf(options[i])
    ensures Holds(ApplyAll(c, options), options[i])
    decreases |options|
  {
    var n := |options| - 1;
    if i < n {
      var init := options[..n];
      LaterSetterWins(c, init, i);
      assert Agree(ApplyAll(c, options), ApplyAll(c, init), FieldOf(options[i]));
    }
  }

  /** A field that no setter writes keeps the value it started with. */
  lemma {:induction false} UnsetFieldKept(c: ConfigValue, options: seq<Setter>, f: Field)
    requires forall j :: 0 <= j < |options| ==> FieldOf(options[j]) != f
    ensures Agree(ApplyAll(c, options), c, f)
    decreases |options|
  {
    if options != [] {
      var n := |options| - 1;
      UnsetFieldKept(c, options[..n], f);
      assert Agree(ApplyAll(c, options), ApplyAll(c, options[..n]), f);
    }
  }

  /** swag.Name, the default instance name of the description registry. */
  const SwagName := "swagger"

  const DefaultTitle := "Swagger UI"

  /** The record WrapHandler starts from (swagger.go:115-124). */
  const Defaults := ConfigValue(
    url := "doc.json",
    docExpansion := "list",
    instanceName := SwagName,
    title := DefaultTitle,
    defaultModelsExpandDepth := 1,
    deepLinking := true,
    persistAuthorization := false,
    oauth2DefaultClientId := "")

  /** CustomWrapHandler's replacement of an empty instance name and an empty title. */
  function WithFallbacks(c: ConfigValue): (r: ConfigValue)
    ensures r.instanceName != "" && r.title != ""
    ensures c.instanceName != "" ==> r.instanceName == c.instanceName
    ensures c.title != "" ==> r.title == c.title
    ensures c.instanceName == "" ==> r.instanceName == SwagName
    ensures c.title == "" ==> r.title == DefaultTitle
    ensures forall f :: f != InstanceNameField && f != TitleField ==> Agree(r, c, f)
  {
    c.(instanceName := if c.instanceName == "" then SwagName else c.instanceName,
       title := if c.title == "" then DefaultTitle else c.title)
  }

  /** Applying the fallbacks twice is applying them once; the defaults need none. */
  lemma FallbacksIdempotent(c: ConfigValue)
    ensures WithFallbacks(WithFallbacks(c)) == WithFallbacks(c)
    ensures WithFallbacks(Defaults) == Defaults
  {
  }

  /**
   * Fallbacks change a configuration built by WrapHandler only when a setter
   * explicitly wrote an empty instance name (no setter writes the title).
   */
  lemma {:induction false} FallbacksAfterOptions(options: seq<Setter>)
    requires forall j :: 0 <= j < |options| ==> options[j] != InstanceName("")
    ensures WithFallbacks(ApplyAll(Defaults, options)) == ApplyAll(Defaults, options)
    decreases |options|
  {
    if options != [] {
      FallbacksAfterOptions(options[..|options| - 1]);
    }
  }

  /** The record handed to the index template (swagger.go:22-31). */
  datatype SwaggerConfig = SwaggerConfig(
    url: string,
    docExpansion: string,
    title: string,
    oauth2RedirectUrl: string,
    defaultModelsExpandDepth: int,
    deepLinking: bool,
    persistAuthorization: bool,
    oauth2DefaultClientId: string)

  /**
   * The client-side expression for the OAuth2 redirect page: the current
   * page's directory followed by /oauth2-redirect.html.
   */
  const Oauth2RedirectUrl :=
    "`${window.location.protocol}//${window.location.host}$"
    + "{window.location.pathname.split('/').slice(0, window.location.pathname.split('/').length - 1).join('/')}"
    + "/oauth2-redirect.html`"

  /** Config.toSwaggerConfig: every displayed field copied, the redirect URL fixed. */
  function ToSwaggerConfig(c: ConfigValue): (r: SwaggerConfig)
    ensures r.oauth2RedirectUrl == Oauth2RedirectUrl
    ensures r.url == c.url && r.docExpansion == c.docExpansion && r.title == c.title
    ensures r.defaultModelsExpandDepth == c.defaultModelsExpandDepth
    ensures r.deepLinking == c.deepLinking && r.persistAuthorization == c.persistAuthorization
    ensures r.oauth2DefaultClientId == c.oauth2DefaultClientId
  {
    SwaggerConfig(
      url := c.url,
      docExpansion := c.docExpansion,
      title := c.title,
      oauth2RedirectUrl := Oauth2RedirectUrl,
      defaultModelsExpandDepth := c.defaultModelsExpandDepth,
      deepLinking := c.deepLinking,
      persistAuthorization := c.persistAuthorization,
      oauth2DefaultClientId := c.oauth2DefaultClientId)
  }

  /**
   * The template input loses exactly the instance name: two configurations
   * give the same input if and only if they agree on every other field.
   */
  lemma ToSwaggerConfigKeepsAllButInstanceName(c: ConfigValue, d: ConfigValue)
    ensures ToSwaggerConfig(c) == ToSwaggerConfig(d) <==> c.(instanceName := "") == d.(instanceName := "")
  {
  }

  /** A Config record, updated in place through its pointer. */
  class Config {
    var url: string
    var docExpansion: string
    var instanceName: string
    var title: string
    var defaultModelsExpandDepth: int
    var deepLinking: bool
    var persistAuthorization: bool
    var oauth2DefaultClientId: string

    /** The record's current value. */
    function Value(): ConfigValue
      reads this
    {
      ConfigValue(url, docExpansion, instanceName, title, defaultModelsExpandDepth,
                  deepLinking, persistAuthorization, oauth2DefaultClientId)
    }

    /** A composite literal Config{...}. */
    constructor (v: ConfigValue)
      ensures Value() == v
    {
      url := v.url;
      docExpansion := v.docExpansion;
      instanceName := v.instanceName;
      title := v.title;
      defaultModelsExpandDepth := v.defaultModelsExpandDepth;
      deepLinking := v.deepLinking;
      persistAuthorization := v.persistAuthorization;
      oauth2DefaultClientId := v.oauth2DefaultClientId;
    }

    /** Calling a setter's closure on this record: exactly one field is written. */
    method Apply(s: Setter)
      modifies this
      ensures Value() == Assign(old(Value()), s)
    {
      match s
      case URL(v) => url := v;
      case DocExpansion(v) => docExpansion := v;
      case DeepLinking(v) => deepLinking := v;
      case DefaultModelsExpandDepth(v) => defaultModelsExpandDepth := v;
      case InstanceName(v) => instanceName := v;
      case PersistAuthorization(v) => persistAuthorization := v;
      case Oauth2DefaultClientID(v) => oauth2DefaultClientId := v;
    }

    /** The two in-place replacements at the start of CustomWrapHandler. */
    method ApplyFallbacks()
      modifies this
      ensures Value() == WithFallbacks(old(Value()))
    {
      if instanceName == "" {
        instanceName := SwagName;
      }
      if title == "" {
        title := DefaultTitle;
      }
    }
  }
}
