/**
 Codex's `config.toml` as a document, and the patches that switch it between modes.

 A document maps keys to items; comments and layout are not part of the model. Errors are those of
 the source: a `model_providers` or `http_headers` entry that is not a table, and a blank secret.
 */
module CodexConfig {
  import opened Wrappers
  import opened Text

  datatype Item =
    | Str(s: string)
    | Bool(b: bool)
    | Other(text: string)                       // numbers, dates, arrays
    | Inline(entries: map<string, Item>)
    | Table(entries: map<string, Item>)

  type Doc = map<string, Item>

  const PROVIDER := "cm"
  const AGGREGATE := "cm_aggregate"
  const OPENAI := "openai"
  const CATALOG_KEY := "model_catalog_json"

  function Get(doc: Doc, key: string): Option<Item> {
    if key in doc then Some(doc[key]) else None
  }

  /** `Item::as_str`. */
  function StringOf(doc: Doc, key: string): Option<string> {
    match Get(doc, key)
    case Some(Str(s)) => Some(s)
    case _ => None
  }

  function Pointer(doc: Doc): Option<Item> {
    Get(doc, CATALOG_KEY)
  }

  function ItemOf(value: Option<string>): Option<Item> {
    if value.Some? then Some(Str(value.value)) else None
  }

  /** Puts a remembered pointer back, or removes the entry. */
  function WithPointer(doc: Doc, previous: Option<string>): (r: Doc)
    ensures Pointer(r) == ItemOf(previous)
  {
    if previous.Some? then doc[CATALOG_KEY := Str(previous.value)] else doc - {CATALOG_KEY}
  }

  /** The provider tables, created if there is no entry at all. */
  function Providers(doc: Doc): Result<map<string, Item>> {
    match Get(doc, "model_providers")
    case None => Ok(map[])
    case Some(Table(entries)) => Ok(entries)
    case Some(_) => Err
  }

  /** The providers can be read: they are in a table, or there is no entry yet. */
  predicate ProvidersFit(doc: Doc) {
    "model_providers" in doc ==> doc["model_providers"].Table?
  }

  lemma ProvidersExactly(doc: Doc)
    ensures Providers(doc).Ok? <==> ProvidersFit(doc)
    ensures ProvidersFit(doc) ==>
              Providers(doc).value == if "model_providers" in doc then doc["model_providers"].entries else map[]
  {
  }

  function WithProviders(doc: Doc, providers: map<string, Item>): Doc {
    doc["model_providers" := Table(providers)]
  }

  // ----- one provider's table -----

  /** The trimmed token replaces every other way of authenticating. */
  function WithBearer(provider: map<string, Item>, token: string): Result<map<string, Item>> {
    if Trim(token) == [] then Err
    else
      var rest := provider - {"env_key", "env_key_instructions", "auth", "aws"};
      Ok(rest["experimental_bearer_token" := Str(Trim(token))])
  }

  function WithHeader(provider: map<string, Item>, name: string, value: string): Result<map<string, Item>> {
    match Get(provider, "http_headers")
    case None => Ok(provider["http_headers" := Table(map[name := Str(value)])])
    case Some(Table(entries)) => Ok(provider["http_headers" := Table(entries[name := Str(value)])])
    case Some(Inline(entries)) => Ok(provider["http_headers" := Inline(entries[name := Str(value)])])
    case Some(_) => Err
  }

  function Header(provider: map<string, Item>, name: string): Option<string> {
    match Get(provider, "http_headers")
    case Some(Table(entries)) => StringOf(entries, name)
    case Some(Inline(entries)) => StringOf(entries, name)
    case _ => None
  }

  // ----- the patches -----

  function CompatibilityProvider(): map<string, Item> {
    map["name" := Str("OpenAI compatibility"), "wire_api" := Str("responses"), "requires_openai_auth" := Bool(true)]
  }

  /** Here the managed path is compared as text. */
  function PatchForDirect(doc: Doc, managed: string, previous: Option<string>): Result<Doc> {
    match Providers(doc)
    case Err => Err
    case Ok(providers) =>
      var patched := WithProviders(doc - {"model_provider"},
                                   providers[PROVIDER := Table(CompatibilityProvider())] - {AGGREGATE});
      Ok(if StringOf(doc, CATALOG_KEY) == Some(managed) then WithPointer(patched, previous) else patched)
  }

  /** `same_path`, with path normalisation given as a function. */
  predicate PointsTo(norm: string -> string, doc: Doc, managed: string) {
    StringOf(doc, CATALOG_KEY).Some? && norm(StringOf(doc, CATALOG_KEY).value) == norm(managed)
  }

  function RestorePrevious(norm: string -> string, doc: Doc, managed: string, previous: Option<string>): Doc {
    if PointsTo(norm, doc, managed) then WithPointer(doc, previous) else doc
  }

  datatype Auth = Bearer | CustomHeader(name: string, bearer: bool)
  datatype Aggregate = Aggregate(baseUrl: string, providerName: string, auth: Auth, userAgent: Option<string>)

  function WithAggregateHeaders(keyed: map<string, Item>, aggregate: Aggregate, secret: string):
    Result<map<string, Item>>
  {
    var authed :=
      match aggregate.auth
      case Bearer => Ok(keyed)
      case CustomHeader(name, bearer) =>
        WithHeader(keyed["requires_openai_auth" := Bool(false)], name, if bearer then "Bearer " + Trim(secret)
                   else Trim(secret));
    if authed.Err? || aggregate.userAgent.None? then authed
    else WithHeader(authed.value, "User-Agent", aggregate.userAgent.value)
  }

  function AggregateBase(aggregate: Aggregate): map<string, Item> {
    map["name" := Str(aggregate.providerName), "base_url" := Str(aggregate.baseUrl),
        "wire_api" := Str("responses"), "supports_websockets" := Bool(false)]
  }

  function AggregateProvider(aggregate: Aggregate, secret: string): Result<map<string, Item>> {
    match WithBearer(AggregateBase(aggregate), secret)
    case Err => Err
    case Ok(keyed) => WithAggregateHeaders(keyed, aggregate, secret)
  }

  function PatchForAggregate(norm: string -> string, doc: Doc, aggregate: Aggregate, secret: string, managed: string,
                             previous: Option<string>, model: string): Result<Doc>
  {
    var restored := RestorePrevious(norm, doc, managed, previous);
    var pointed := restored["model_provider" := Str(AGGREGATE)][CATALOG_KEY := Str(managed)]["model" := Str(model)];
    match Providers(pointed)
    case Err => Err
    case Ok(providers) =>
      match AggregateProvider(aggregate, secret)
      case Err => Err
      case Ok(provider) => Ok(WithProviders(pointed, providers[AGGREGATE := Table(provider)]))
  }

  /** The entries of the `cm` table before its header is set. */
  function Keyed(bearer: map<string, Item>, baseUrl: string, websockets: bool): map<string, Item> {
    bearer["base_url" := Str(baseUrl)]["wire_api" := Str("responses")]["supports_websockets" := Bool(websockets)]
  }

  /** The user's own entries in an existing `cm` table are kept. */
  function GatewayProvider(existing: Option<Item>, baseUrl: string, websockets: bool,
                           secret: string): Result<map<string, Item>> {
    var entries := if existing.Some? && existing.value.Table? then existing.value.entries else map[];
    match WithBearer(entries["name" := Str(PROVIDER)]["requires_openai_auth" := Bool(true)], secret)
    case Err => Err
    case Ok(keyed) =>
      WithHeader(Keyed(keyed, baseUrl, websockets), "x-openai-actor-authorization", "local-image-extension")
  }

  function PatchForGateway(doc: Doc, baseUrl: string, managed: string, websockets: bool, secret: string): Result<Doc> {
    var pointed := doc["model_provider" := Str(PROVIDER)][CATALOG_KEY := Str(managed)];
    match Providers(pointed)
    case Err => Err
    case Ok(providers) =>
      match GatewayProvider(Get(providers, PROVIDER), baseUrl, websockets, secret)
      case Err => Err
      case Ok(provider) => Ok(WithProviders(pointed, providers[PROVIDER := Table(provider)]))
  }

  function PatchForManagedCatalog(doc: Doc, managed: string): Doc {
    doc[CATALOG_KEY := Str(managed)]
  }

  // ----- recognising a mode -----

  function TrimEndSlashes(s: string): (t: string)
    ensures t <= s
    ensures t == [] || t[|t| - 1] != '/'
  {
    if s == [] || s[|s| - 1] != '/' then s else TrimEndSlashes(s[..|s| - 1])
  }

  predicate EndsWith(s: string, suffix: string) {
    |suffix| <= |s| && s[|s| - |suffix|..] == suffix
  }

  function GatewayBaseUrl(value: Option<string>): string {
    var text := TrimEndSlashes(Normalize(value).GetOr("http://localhost:48760/v1"));
    if EndsWith(text, "/v1") then text else text + "/v1"
  }

  /** The provider id and what its table says, if both can be read. */
  function ActiveProvider(doc: Doc): (string, map<string, Item>) {
    var id := Normalize(StringOf(doc, "model_provider")).GetOr(OPENAI);
    match Providers(doc)
    case Ok(providers) => (id, if id in providers && providers[id].Table? then providers[id].entries else map[])
    case Err => (id, map[])
  }

  datatype Detected = Detected(providerId: string, baseUrl: string, websockets: bool)

  /** A gateway is either the `cm` provider, or any provider with a token and this service's address. */
  function DetectGateway(isService: string -> bool, doc: Doc): Option<Detected> {
    var (id, provider) := ActiveProvider(doc);
    var own, root := Normalize(StringOf(provider, "base_url")), Normalize(StringOf(doc, "base_url"));
    var baseUrl := if own.Some? then own else root;
    var websockets := "supports_websockets" in provider && provider["supports_websockets"] == Bool(true);
    if id == PROVIDER then Some(Detected(id, GatewayBaseUrl(baseUrl), websockets))
    else if Normalize(StringOf(provider, "experimental_bearer_token")).None?
            && Normalize(StringOf(doc, "experimental_bearer_token")).None? then None
    else if baseUrl.Some? && isService(baseUrl.value) then Some(Detected(id, GatewayBaseUrl(baseUrl), websockets))
    else None
  }

  predicate IsAggregate(doc: Doc) {
    && StringOf(doc, "model_provider").Some? && Trim(StringOf(doc, "model_provider").value) == AGGREGATE
    && Providers(doc).Ok? && AGGREGATE in Providers(doc).value && Providers(doc).value[AGGREGATE].Table?
    && Normalize(StringOf(Providers(doc).value[AGGREGATE].entries, "base_url")).Some?
  }

  /**
   The provider in use: its trimmed name, or "openai" if there is none, and the entries of its
   table, if it has one.
   */
  ghost predicate InUse(doc: Doc, id: string, entries: map<string, Item>) {
    && id == (if Says(doc, "model_provider") then Trim(doc["model_provider"].s) else "openai")
    && entries == (if "model_providers" in doc && doc["model_providers"].Table? && id in doc["model_providers"].entries
                      && doc["model_providers"].entries[id].Table?
                   then doc["model_providers"].entries[id].entries else map[])
  }

  /** There is a text under the key, and it is not blank. */
  predicate Says(entries: map<string, Item>, key: string) {
    key in entries && entries[key].Str? && Trim(entries[key].s) != []
  }

  /**
   A gateway is in use exactly if the provider is `cm`, or it has a token and this service's address;
   token and address may also stand outside the provider's table, whose own address comes first.
   */
  lemma DetectsExactly(isService: string -> bool, doc: Doc, id: string, entries: map<string, Item>)
    requires InUse(doc, id, entries)
    ensures var r, at := DetectGateway(isService, doc), if Says(entries, "base_url") then entries else doc;
            && (r.Some? <==>
                || id == "cm"
                || ((Says(entries, "experimental_bearer_token") || Says(doc, "experimental_bearer_token"))
                    && Says(at, "base_url") && isService(Trim(at["base_url"].s))))
            && (r.Some? ==>
                  && r.value.providerId == id
                  && r.value.baseUrl == GatewayBaseUrl(if Says(at, "base_url") then Some(at["base_url"].s) else None)
                  && (r.value.websockets
                      <==> "supports_websockets" in entries && entries["supports_websockets"] == Bool(true)))
  {
    hide Trim, TrimEndSlashes, EndsWith;
    InUseIs(doc, id, entries);
    hide ActiveProvider, InUse;
    SaysIs(entries, "base_url");
    SaysIs(doc, "base_url");
    SaysIs(entries, "experimental_bearer_token");
    SaysIs(doc, "experimental_bearer_token");
    hide Normalize, StringOf, Says;
  }

  lemma InUseIs(doc: Doc, id: string, entries: map<string, Item>)
    requires InUse(doc, id, entries)
    ensures ActiveProvider(doc) == (id, entries)
  {
    hide Trim;
  }

  lemma SaysIs(entries: map<string, Item>, key: string)
    ensures Normalize(StringOf(entries, key)).Some? <==> Says(entries, key)
    ensures Says(entries, key) ==>
              && Normalize(StringOf(entries, key)) == Some(Trim(entries[key].s))
              && GatewayBaseUrl(Some(Trim(entries[key].s))) == GatewayBaseUrl(Some(entries[key].s))
  {
    if Says(entries, key) {
      TrimIdempotent(entries[key].s);
    }
    hide Trim, TrimEndSlashes, EndsWith;
  }

  /** Direct-aggregate mode is in use exactly if its provider is chosen and has a table with an address. */
  lemma AggregateExactly(doc: Doc)
    ensures IsAggregate(doc) <==>
              && Says(doc, "model_provider") && Trim(doc["model_provider"].s) == "cm_aggregate"
              && "model_providers" in doc && doc["model_providers"].Table?
              && "cm_aggregate" in doc["model_providers"].entries
              && doc["model_providers"].entries["cm_aggregate"].Table?
              && Says(doc["model_providers"].entries["cm_aggregate"].entries, "base_url")
  {
    hide Trim;
  }

  // ----- what the patches keep and establish -----

  ghost predicate SameExcept(a: map<string, Item>, b: map<string, Item>, keys: set<string>) {
    forall k :: k !in keys ==> Get(a, k) == Get(b, k)
  }

  /** The provider tables of two documents agree except for the named one. */
  ghost predicate SameProviders(a: Doc, b: Doc, ids: set<string>) {
    Providers(a).Ok? && Providers(b).Ok? && SameExcept(Providers(a).value, Providers(b).value, ids)
  }

  /** The remembered pointer replaces a pointer to the managed catalog, and only that. */
  lemma RestoreView(norm: string -> string, doc: Doc, managed: string, previous: Option<string>)
    ensures var after := RestorePrevious(norm, doc, managed, previous);
            && SameExcept(doc, after, {CATALOG_KEY})
            && Pointer(after) == (match Pointer(doc)
                                  case Some(Str(text)) =>
                                    if norm(text) == norm(managed) then ItemOf(previous) else Pointer(doc)
                                  case _ => Pointer(doc))
  {
  }

  /** Direct mode: both managed providers lose their credentials, and the pointer is put back if it is ours. */
  lemma DirectPatch(doc: Doc, managed: string, previous: Option<string>)
    ensures PatchForDirect(doc, managed, previous).Ok? <==> Providers(doc).Ok?
    ensures PatchForDirect(doc, managed, previous).Ok? ==>
              var after := PatchForDirect(doc, managed, previous).value;
              && SameExcept(doc, after, {"model_provider", "model_providers", CATALOG_KEY})
              && SameProviders(doc, after, {PROVIDER, AGGREGATE})
              && Pointer(after) == (if StringOf(doc, CATALOG_KEY) == Some(managed) then ItemOf(previous)
                                    else Pointer(doc))
              && "model_provider" !in after && !IsAggregate(after)
              && AGGREGATE !in Providers(after).value
              && Get(Providers(after).value, PROVIDER) == Some(Table(CompatibilityProvider()))
  {
    hide Trim;
  }

  /** Nothing but the token authenticates. */
  predicate NoOtherAuth(provider: map<string, Item>) {
    && Get(provider, "env_key").None? && Get(provider, "env_key_instructions").None?
    && Get(provider, "auth").None? && Get(provider, "aws").None?
  }

  lemma BearerView(provider: map<string, Item>, token: string)
    ensures WithBearer(provider, token).Ok? <==> Trim(token) != []
    ensures WithBearer(provider, token).Ok? ==>
              var r := WithBearer(provider, token).value;
              && StringOf(r, "experimental_bearer_token") == Some(Trim(token))
              && NoOtherAuth(r)
              && SameExcept(provider, r,
                            {"env_key", "env_key_instructions", "auth", "aws", "experimental_bearer_token"})
  {
    hide Trim;
  }

  predicate TakesHeaders(provider: map<string, Item>) {
    "http_headers" in provider ==> provider["http_headers"].Table? || provider["http_headers"].Inline?
  }

  lemma HeaderView(provider: map<string, Item>, name: string, value: string)
    ensures WithHeader(provider, name, value).Ok? <==> TakesHeaders(provider)
    ensures WithHeader(provider, name, value).Ok? ==>
              var r := WithHeader(provider, name, value).value;
              && Header(r, name) == Some(value)
              && (forall other :: other != name ==> Header(r, other) == Header(provider, other))
              && SameExcept(provider, r, {"http_headers"})
  {
  }

  function TableOf(existing: Option<Item>): map<string, Item> {
    if existing.Some? && existing.value.Table? then existing.value.entries else map[]
  }

  const GATEWAY_KEYS := {"name", "requires_openai_auth", "base_url", "wire_api", "supports_websockets",
                         "experimental_bearer_token",
                         "env_key", "env_key_instructions", "auth", "aws", "http_headers"}

  lemma KeyedView(existing: Option<Item>, baseUrl: string, websockets: bool, secret: string)
    ensures var start := TableOf(existing)["name" := Str(PROVIDER)]["requires_openai_auth" := Bool(true)];
            && (WithBearer(start, secret).Ok? <==> Trim(secret) != [])
            && (WithBearer(start, secret).Ok? ==>
                  var keyed := Keyed(WithBearer(start, secret).value, baseUrl, websockets);
                  && StringOf(keyed, "experimental_bearer_token") == Some(Trim(secret))
                  && StringOf(keyed, "base_url") == Some(baseUrl)
                     && Get(keyed, "supports_websockets") == Some(Bool(websockets))
                  && NoOtherAuth(keyed) && SameExcept(TableOf(existing), keyed, GATEWAY_KEYS)
                  && Get(keyed, "http_headers") == Get(TableOf(existing), "http_headers"))
  {
    hide Trim, WithBearer;
    var start := TableOf(existing)["name" := Str(PROVIDER)]["requires_openai_auth" := Bool(true)];
    BearerView(start, secret);
    if WithBearer(start, secret).Ok? {
      var bearer := WithBearer(start, secret).value;
      assert Get(start, "http_headers") == Get(bearer, "http_headers")
          == Get(Keyed(bearer, baseUrl, websockets), "http_headers");
      KeepAlso(TableOf(existing), start, bearer);
      KeepAlso(TableOf(existing), bearer, Keyed(bearer, baseUrl, websockets));
    }
  }

  /** In the provider's own table: the token and address are as given, nothing else authenticates, the rest stays. */
  lemma GatewayProviderView(existing: Option<Item>, baseUrl: string, websockets: bool, secret: string)
    ensures GatewayProvider(existing, baseUrl, websockets, secret).Ok?
            <==> Trim(secret) != [] && TakesHeaders(TableOf(existing))
    ensures GatewayProvider(existing, baseUrl, websockets, secret).Ok? ==>
              var r := GatewayProvider(existing, baseUrl, websockets, secret).value;
              && StringOf(r, "experimental_bearer_token") == Some(Trim(secret))
              && StringOf(r, "base_url") == Some(baseUrl)
              && Get(r, "supports_websockets") == Some(Bool(websockets))
              && Header(r, "x-openai-actor-authorization") == Some("local-image-extension")
              && NoOtherAuth(r)
              && SameExcept(TableOf(existing), r, GATEWAY_KEYS)
              && (forall name :: name != "x-openai-actor-authorization" ==>
                  Header(r, name) == Header(TableOf(existing), name))
  {
    hide Trim, WithBearer, WithHeader;
    var start := TableOf(existing)["name" := Str(PROVIDER)]["requires_openai_auth" := Bool(true)];
    KeyedView(existing, baseUrl, websockets, secret);
    if WithBearer(start, secret).Ok? {
      var keyed := Keyed(WithBearer(start, secret).value, baseUrl, websockets);
      HeaderView(keyed, "x-openai-actor-authorization", "local-image-extension");
      if TakesHeaders(keyed) {
        KeepAlso(TableOf(existing), keyed,
                 WithHeader(keyed, "x-openai-actor-authorization", "local-image-extension").value);
      }
    }
  }

  /** Changing only keys the gateway owns, once more. */
  lemma KeepAlso(a: map<string, Item>, b: map<string, Item>, c: map<string, Item>)
    ensures SameExcept(a, b, GATEWAY_KEYS) && SameExcept(b, c, GATEWAY_KEYS) ==> SameExcept(a, c, GATEWAY_KEYS)
  {
  }

  /** Gateway mode: only the `cm` table, the provider choice and the pointer change. */
  lemma GatewayPatch(doc: Doc, baseUrl: string, managed: string, websockets: bool, secret: string)
    ensures PatchForGateway(doc, baseUrl, managed, websockets, secret).Ok? <==>
              && Providers(doc).Ok?
              && GatewayProvider(Get(Providers(doc).value, PROVIDER), baseUrl, websockets, secret).Ok?
    ensures PatchForGateway(doc, baseUrl, managed, websockets, secret).Ok? ==>
              var after := PatchForGateway(doc, baseUrl, managed, websockets, secret).value;
              && SameExcept(doc, after, {"model_provider", "model_providers", CATALOG_KEY})
              && SameProviders(doc, after, {PROVIDER})
              && Pointer(after) == Some(Str(managed)) && StringOf(after, "model_provider") == Some(PROVIDER)
              && Get(Providers(after).value, PROVIDER)
                 == Some(Table(GatewayProvider(Get(Providers(doc).value, PROVIDER), baseUrl, websockets, secret).value))
  {
    hide GatewayProvider;
  }

  lemma TrimStays(s: string)
    requires s != [] && !IsSpace(s[0]) && !IsSpace(s[|s| - 1])
    ensures Trim(s) == s && Normalize(Some(s)) == Some(s)
  {
  }

  lemma TrimmedNames()
    ensures Normalize(Some(PROVIDER)) == Some(PROVIDER) && Trim(AGGREGATE) == AGGREGATE
  {
    TrimStays(PROVIDER);
    TrimStays(AGGREGATE);
  }

  lemma {:induction false} TrimEndSlashesStays(s: string)
    requires s == [] || s[|s| - 1] != '/'
    ensures TrimEndSlashes(s) == s
  {
  }

  lemma GatewayBaseUrlShape(value: Option<string>)
    ensures var url := GatewayBaseUrl(value);
            |url| >= 3 && !IsSpace(url[0]) && EndsWith(url, "/v1") && url[|url| - 1] == '1'
  {
    var text := TrimEndSlashes(Normalize(value).GetOr("http://localhost:48760/v1"));
    var url := GatewayBaseUrl(value);
    assert url[|url| - 3..] == "/v1";
    assert url[|url| - 1] == url[|url| - 3..][2];
  }

  /** A gateway address is its own normal form. */
  lemma GatewayBaseUrlStays(value: Option<string>)
    ensures var url := GatewayBaseUrl(value);
            Normalize(Some(url)) == Some(url) && GatewayBaseUrl(Some(url)) == url
  {
    GatewayBaseUrlShape(value);
    var url := GatewayBaseUrl(value);
    TrimStays(url);
    TrimEndSlashesStays(url);
    hide Normalize;
  }

  /**
   The address is the given one, or the default if there is none, without white space around it and
   without the slashes at its end, and with "/v1" added unless it ends so already.
   */
  lemma GatewayBaseUrlView(value: Option<string>) returns (n: nat)
    ensures var text := if value.None? || Trim(value.value) == [] then "http://localhost:48760/v1"
                        else Trim(value.value);
            && n <= |text| && (forall i :: n <= i < |text| ==> text[i] == '/') && (n == 0 || text[n - 1] != '/')
            && GatewayBaseUrl(value) == (if n >= 3 && text[n - 3..n] == "/v1" then text[..n] else text[..n] + "/v1")
  {
    hide Trim;
    var text := Normalize(value).GetOr("http://localhost:48760/v1");
    n := |TrimEndSlashes(text)|;
    OnlySlashes(text);
    assert TrimEndSlashes(text) == text[..n];
    if n >= 3 {
      assert text[..n][n - 3..] == text[n - 3..n];
    }
  }

  lemma {:induction false} OnlySlashes(s: string)
    ensures forall i :: |TrimEndSlashes(s)| <= i < |s| ==> s[i] == '/'
  {
    if s != [] && s[|s| - 1] == '/' {
      OnlySlashes(s[..|s| - 1]);
    }
  }

  lemma ActiveProviderView(doc: Doc, provider: map<string, Item>)
    requires StringOf(doc, "model_provider") == Some(PROVIDER)
    requires Providers(doc).Ok? && Get(Providers(doc).value, PROVIDER) == Some(Table(provider))
    ensures ActiveProvider(doc) == (PROVIDER, provider)
  {
    hide Normalize;
    TrimmedNames();
  }

  lemma DetectOwn(isService: string -> bool, doc: Doc, provider: map<string, Item>, url: string, websockets: bool)
    requires ActiveProvider(doc) == (PROVIDER, provider)
    requires StringOf(provider, "base_url") == Some(url)
    requires Get(provider, "supports_websockets") == Some(Bool(websockets))
    requires Normalize(Some(url)) == Some(url) && GatewayBaseUrl(Some(url)) == url
    ensures DetectGateway(isService, doc) == Some(Detected(PROVIDER, url, websockets))
  {
    hide ActiveProvider, Normalize, GatewayBaseUrl;
  }

  /** What gateway mode writes is recognised as gateway mode, with the same address and transport. */
  lemma GatewayIsDetected(isService: string -> bool, doc: Doc, requested: Option<string>, managed: string,
                          websockets: bool, secret: string)
    requires PatchForGateway(doc, GatewayBaseUrl(requested), managed, websockets, secret).Ok?
    ensures var after := PatchForGateway(doc, GatewayBaseUrl(requested), managed, websockets, secret).value;
            DetectGateway(isService, after) == Some(Detected(PROVIDER, GatewayBaseUrl(requested), websockets))
  {
    hide PatchForGateway, GatewayProvider, Normalize, GatewayBaseUrl, SameExcept, Header, Trim, ActiveProvider;
    hide Providers, DetectGateway;
    var baseUrl := GatewayBaseUrl(requested);
    GatewayPatch(doc, baseUrl, managed, websockets, secret);
    var after := PatchForGateway(doc, baseUrl, managed, websockets, secret).value;
    var provider := GatewayProvider(Get(Providers(doc).value, PROVIDER), baseUrl, websockets, secret).value;
    GatewayProviderView(Get(Providers(doc).value, PROVIDER), baseUrl, websockets, secret);
    ActiveProviderView(after, provider);
    GatewayBaseUrlStays(requested);
    DetectOwn(isService, after, provider, baseUrl, websockets);
  }

  /** What of the headers a table without any gets from an aggregate API. */
  ghost predicate AggregateHeaders(r: map<string, Item>, aggregate: Aggregate, secret: string) {
    && (forall name :: Header(r, name).Some? ==>
          (aggregate.auth.CustomHeader? && name == aggregate.auth.name)
          || (aggregate.userAgent.Some? && name == "User-Agent"))
    && (aggregate.userAgent.Some? ==> Header(r, "User-Agent") == aggregate.userAgent)
    && (aggregate.auth.CustomHeader? && (aggregate.userAgent.None? || aggregate.auth.name != "User-Agent") ==>
          Header(r, aggregate.auth.name)
          == Some(if aggregate.auth.bearer then "Bearer " + Trim(secret) else Trim(secret)))
  }

  lemma AggregateHeadersView(keyed: map<string, Item>, aggregate: Aggregate, secret: string)
    requires Get(keyed, "http_headers").None?
    ensures var r := WithAggregateHeaders(keyed, aggregate, secret);
            && r.Ok? && SameExcept(keyed, r.value, {"requires_openai_auth", "http_headers"})
            && Get(r.value, "requires_openai_auth")
               == (if aggregate.auth.Bearer? then Get(keyed, "requires_openai_auth") else Some(Bool(false)))
            && AggregateHeaders(r.value, aggregate, secret)
  {
    hide Trim, WithHeader;
    var authed := keyed;
    if aggregate.auth.CustomHeader? {
      var open := keyed["requires_openai_auth" := Bool(false)];
      var value := if aggregate.auth.bearer then "Bearer " + Trim(secret) else Trim(secret);
      assert TakesHeaders(open) by { assert Get(open, "http_headers").None?; }
      HeaderView(open, aggregate.auth.name, value);
      authed := WithHeader(open, aggregate.auth.name, value).value;
      assert TakesHeaders(authed) by { AfterHeader(open, aggregate.auth.name, value); }
    } else {
      assert TakesHeaders(keyed) by { assert Get(keyed, "http_headers").None?; }
    }
    if aggregate.userAgent.Some? {
      HeaderView(authed, "User-Agent", aggregate.userAgent.value);
    }
  }

  lemma AggregateProviderView(aggregate: Aggregate, secret: string)
    ensures AggregateProvider(aggregate, secret).Ok? <==> Trim(secret) != []
    ensures AggregateProvider(aggregate, secret).Ok? ==>
              var r := AggregateProvider(aggregate, secret).value;
              && StringOf(r, "base_url") == Some(aggregate.baseUrl)
              && StringOf(r, "experimental_bearer_token") == Some(Trim(secret))
              && StringOf(r, "name") == Some(aggregate.providerName) && StringOf(r, "wire_api") == Some("responses")
              && Get(r, "supports_websockets") == Some(Bool(false))
              && Get(r, "requires_openai_auth") == (if aggregate.auth.Bearer? then None else Some(Bool(false)))
              && NoOtherAuth(r) && AggregateHeaders(r, aggregate, secret)
  {
    hide Trim, WithBearer, WithAggregateHeaders, AggregateHeaders, SameExcept, NoOtherAuth, AggregateBase;
    var base := AggregateBase(aggregate);
    AggregateBaseView(aggregate);
    BearerView(base, secret);
    if Trim(secret) != [] {
      var keyed := WithBearer(base, secret).value;
      KeptByBearer(base, keyed);
      AggregateHeadersView(keyed, aggregate, secret);
      KeptByHeaders(base, keyed, WithAggregateHeaders(keyed, aggregate, secret).value);
    }
  }

  lemma AggregateBaseView(aggregate: Aggregate)
    ensures var base := AggregateBase(aggregate);
            && Get(base, "name") == Some(Str(aggregate.providerName))
            && Get(base, "base_url") == Some(Str(aggregate.baseUrl)) && Get(base, "wire_api") == Some(Str("responses"))
            && Get(base, "supports_websockets") == Some(Bool(false)) && Get(base, "requires_openai_auth").None?
            && Get(base, "http_headers").None?
  {
  }

  lemma KeptByBearer(base: map<string, Item>, keyed: map<string, Item>)
    requires SameExcept(base, keyed, {"env_key", "env_key_instructions", "auth", "aws", "experimental_bearer_token"})
    ensures Get(keyed, "http_headers") == Get(base, "http_headers")
  {
  }

  lemma KeptByHeaders(base: map<string, Item>, keyed: map<string, Item>, r: map<string, Item>)
    requires SameExcept(base, keyed, {"env_key", "env_key_instructions", "auth", "aws", "experimental_bearer_token"})
    requires SameExcept(keyed, r, {"requires_openai_auth", "http_headers"}) && NoOtherAuth(keyed)
    ensures forall k :: k in {"name", "base_url", "wire_api", "supports_websockets"} ==> Get(r, k) == Get(base, k)
    ensures Get(r, "experimental_bearer_token") == Get(keyed, "experimental_bearer_token") && NoOtherAuth(r)
    ensures Get(keyed, "requires_openai_auth") == Get(base, "requires_openai_auth")
  {
  }

  lemma AfterHeader(provider: map<string, Item>, name: string, value: string)
    ensures WithHeader(provider, name, value).Ok? ==> TakesHeaders(WithHeader(provider, name, value).value)
  {
  }

  /** Direct-aggregate mode: nothing outside its own table, the choices and the pointer changes. */
  lemma AggregatePatch(norm: string -> string, doc: Doc, aggregate: Aggregate, secret: string, managed: string,
                       previous: Option<string>, model: string)
    ensures PatchForAggregate(norm, doc, aggregate, secret, managed, previous, model).Ok? <==>
              Providers(doc).Ok? && AggregateProvider(aggregate, secret).Ok?
    ensures PatchForAggregate(norm, doc, aggregate, secret, managed, previous, model).Ok? ==>
              var after := PatchForAggregate(norm, doc, aggregate, secret, managed, previous, model).value;
              && SameExcept(doc, after, {"model_provider", "model_providers", "model", CATALOG_KEY})
              && SameProviders(doc, after, {AGGREGATE})
              && Get(Providers(after).value, AGGREGATE) == Some(Table(AggregateProvider(aggregate, secret).value))
              && Pointer(after) == Some(Str(managed)) && StringOf(after, "model") == Some(model)
              && StringOf(after, "model_provider") == Some(AGGREGATE)
  {
    hide AggregateProvider;
    var restored := RestorePrevious(norm, doc, managed, previous);
    assert SameExcept(doc, restored, {CATALOG_KEY});
    assert Get(restored, "model_providers") == Get(doc, "model_providers");
    hide RestorePrevious;
  }

  /** What direct-aggregate mode writes is recognised as that mode, given a nonblank address. */
  lemma AggregateIsDetected(norm: string -> string, doc: Doc, aggregate: Aggregate, secret: string, managed: string,
                            previous: Option<string>, model: string)
    requires PatchForAggregate(norm, doc, aggregate, secret, managed, previous, model).Ok?
    ensures IsAggregate(PatchForAggregate(norm, doc, aggregate, secret, managed, previous, model).value)
            <==> Trim(aggregate.baseUrl) != []
  {
    AggregatePatch(norm, doc, aggregate, secret, managed, previous, model);
    AggregateProviderView(aggregate, secret);
    TrimmedNames();
    hide PatchForAggregate, AggregateProvider, SameExcept, Header, Trim;
  }

  // ----- there and back -----

  /**
   Gateway mode and then direct mode, with the pointer remembered as the source remembers it: the
   document gets back every entry but the provider choice and the two managed providers, except
   that a pointer that is not a string is lost.
   */
  lemma GatewayThenDirect(doc: Doc, baseUrl: string, managed: string, websockets: bool, secret: string)
    requires PatchForGateway(doc, baseUrl, managed, websockets, secret).Ok?
    ensures var gateway := PatchForGateway(doc, baseUrl, managed, websockets, secret).value;
            var back := PatchForDirect(gateway, managed, StringOf(doc, CATALOG_KEY));
            && back.Ok?
            && SameExcept(doc, back.value, {"model_provider", "model_providers", CATALOG_KEY})
            && SameProviders(doc, back.value, {PROVIDER, AGGREGATE})
            && (Pointer(back.value) == Pointer(doc) <==> CATALOG_KEY !in doc || doc[CATALOG_KEY].Str?)
  {
    GatewayPatch(doc, baseUrl, managed, websockets, secret);
    var gateway := PatchForGateway(doc, baseUrl, managed, websockets, secret).value;
    DirectPatch(gateway, managed, StringOf(doc, CATALOG_KEY));
    hide PatchForGateway, PatchForDirect, GatewayProvider;
  }

  /** Applying the same gateway twice changes nothing more. */
  lemma GatewayTwice(doc: Doc, baseUrl: string, managed: string, websockets: bool, secret: string)
    requires PatchForGateway(doc, baseUrl, managed, websockets, secret).Ok?
    ensures var once := PatchForGateway(doc, baseUrl, managed, websockets, secret).value;
            PatchForGateway(once, baseUrl, managed, websockets, secret) == Ok(once)
  {
    hide GatewayProvider;
    GatewayProviderTwice(Get(Providers(doc).value, PROVIDER), baseUrl, websockets, secret);
    var once := PatchForGateway(doc, baseUrl, managed, websockets, secret).value;
    assert once["model_provider" := Str(PROVIDER)][CATALOG_KEY := Str(managed)] == once;
    var providers := Providers(once).value;
    assert providers[PROVIDER := providers[PROVIDER]] == providers;
    assert WithProviders(once, providers) == once;
  }

  lemma GatewayProviderTwice(existing: Option<Item>, baseUrl: string, websockets: bool, secret: string)
    requires GatewayProvider(existing, baseUrl, websockets, secret).Ok?
    ensures var once := GatewayProvider(existing, baseUrl, websockets, secret).value;
            GatewayProvider(Some(Table(once)), baseUrl, websockets, secret) == Ok(once)
  {
    var once := GatewayProvider(existing, baseUrl, websockets, secret).value;
    GatewayProviderView(existing, baseUrl, websockets, secret);
    assert once["name" := Str(PROVIDER)]["requires_openai_auth" := Bool(true)] == once by {
      NamedAlready(existing, baseUrl, websockets, secret);
    }
    BearerTwice(once, secret);
    assert Keyed(once, baseUrl, websockets) == once by {
      NamedAlready(existing, baseUrl, websockets, secret);
    }
    HeaderTwice(once, "x-openai-actor-authorization", "local-image-extension");
    hide WithBearer, WithHeader, Trim, Header;
  }

  lemma NamedAlready(existing: Option<Item>, baseUrl: string, websockets: bool, secret: string)
    requires GatewayProvider(existing, baseUrl, websockets, secret).Ok?
    ensures var once := GatewayProvider(existing, baseUrl, websockets, secret).value;
            && Get(once, "name") == Some(Str(PROVIDER)) && Get(once, "requires_openai_auth") == Some(Bool(true))
            && Get(once, "base_url") == Some(Str(baseUrl)) && Get(once, "wire_api") == Some(Str("responses"))
            && Get(once, "supports_websockets") == Some(Bool(websockets))
  {
    hide Trim;
  }

  lemma BearerTwice(provider: map<string, Item>, secret: string)
    requires StringOf(provider, "experimental_bearer_token") == Some(Trim(secret)) && Trim(secret) != []
    requires NoOtherAuth(provider)
    ensures WithBearer(provider, secret) == Ok(provider)
  {
    hide Trim;
    assert provider - {"env_key", "env_key_instructions", "auth", "aws"} == provider;
    assert provider["experimental_bearer_token" := Str(Trim(secret))] == provider;
  }

  lemma HeaderTwice(provider: map<string, Item>, name: string, value: string)
    requires Header(provider, name) == Some(value)
    ensures WithHeader(provider, name, value) == Ok(provider)
  {
    match provider["http_headers"]
    case Table(entries) =>
      assert Get(entries, name) == Some(Str(value));
      assert entries[name := Str(value)] == entries;
      assert provider["http_headers" := Table(entries)] == provider;
      assert WithHeader(provider, name, value) == Ok(provider);
    case Inline(entries) =>
      assert Get(entries, name) == Some(Str(value));
      assert entries[name := Str(value)] == entries;
      assert provider["http_headers" := Inline(entries)] == provider;
      assert WithHeader(provider, name, value) == Ok(provider);
    case _ =>
  }
}
