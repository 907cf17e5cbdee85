/** The base router: three logical bases resolved to origin URLs from the
    deployment environment, and one client instance per distinct origin,
    created on first use and memoised by URL. */
module BaseRouter {
  import opened JsValues
  import opened HttpTypes

  datatype BaseKey = Auth | Api | ApiV1

  /** The deployment's base-URL variables (`VITE_AUTH_BASE_URL`,
      `VITE_API_BASE_URL`, `VITE_USER_API_BASE_URL`); `None` when unset. */
  datatype Env = Env(authBaseUrl: Option<string>, apiBaseUrl: Option<string>, userApiBaseUrl: Option<string>)

  const FALLBACK_BASE_URL := "https://example.com"

  /** The default headers of every client instance. */
  const JSON_HEADERS: Headers := map["Content-Type" := "application/json", "Accept" := "application/json"]

  function ApiBaseUrl(env: Env): string {
    OrElse(env.apiBaseUrl, FALLBACK_BASE_URL)
  }

  function AuthBaseUrl(env: Env): string {
    OrElse(env.authBaseUrl, OrElse(env.apiBaseUrl, FALLBACK_BASE_URL))
  }

  function UserApiBaseUrl(env: Env): string {
    OrElse(env.userApiBaseUrl, ApiBaseUrl(env))
  }

  /** The origin a base resolves to: its own variable when set, else the
      API origin (for `auth` and `apiV1`) or the fallback. Never empty,
      since every unset or empty variable falls through to a non-empty
      default. */
  function BaseUrl(env: Env, base: BaseKey): (url: string)
    ensures url != ""
    ensures url == FALLBACK_BASE_URL || Some(url) in {env.authBaseUrl, env.apiBaseUrl, env.userApiBaseUrl}
    ensures base == Auth && Truthy(env.authBaseUrl) ==> url == env.authBaseUrl.value
    ensures base == Api && Truthy(env.apiBaseUrl) ==> url == env.apiBaseUrl.value
    ensures base == ApiV1 && Truthy(env.userApiBaseUrl) ==> url == env.userApiBaseUrl.value
    ensures base == Api && !Truthy(env.apiBaseUrl) ==> url == FALLBACK_BASE_URL
  {
    match base
    case Auth => AuthBaseUrl(env)
    case Api => ApiBaseUrl(env)
    case ApiV1 => UserApiBaseUrl(env)
  }

  /** `apiV1` reuses the API origin unless its own variable is set. */
  lemma ApiV1DefaultsToApi(env: Env)
    requires !Truthy(env.userApiBaseUrl)
    ensures BaseUrl(env, ApiV1) == BaseUrl(env, Api)
  {
  }

  /** `auth` falls back to the API origin unless its own variable is set. */
  lemma AuthDefaultsToApi(env: Env)
    requires !Truthy(env.authBaseUrl)
    ensures BaseUrl(env, Auth) == BaseUrl(env, Api)
  {
  }

  /** With nothing configured, all three bases share the fallback origin. */
  lemma UnconfiguredSharesOneOrigin(base: BaseKey)
    ensures BaseUrl(Env(None, None, None), base) == FALLBACK_BASE_URL
  {
  }

  /** A client instance created by `createAxios`; `id` is its identity. */
  datatype Client = Client(id: nat, baseUrl: string)

  /** `instanceCache` together with the identity counter of `createAxios`. */
  class InstanceCache {
    const env: Env
    var instances: map<string, Client>
    var nextId: nat

    /** Each cached client serves the URL it is stored under, and no two
        cached URLs share a client. */
    ghost predicate Valid()
      reads this
    {
      && (forall url :: url in instances ==> instances[url].baseUrl == url && instances[url].id < nextId)
      && (forall u, v :: u in instances && v in instances && u != v ==> instances[u].id != instances[v].id)
    }

    constructor (env: Env)
      ensures Valid() && this.env == env && instances == map[] && nextId == 0
    {
      this.env := env;
      instances := map[];
      nextId := 0;
    }

    /** `getInstanceFor`: the cached client of the base's URL, or a new one
        that is then cached. A call adds at most one entry and never
        replaces one. */
    method GetInstanceFor(base: BaseKey) returns (client: Client)
      requires Valid()
      modifies this
      ensures Valid()
      ensures var url := BaseUrl(env, base);
        && client.baseUrl == url
        && url in instances && instances[url] == client
        && (url in old(instances) ==> client == old(instances)[url] && instances == old(instances) && nextId == old(nextId))
        && (url !in old(instances) ==>
              instances == old(instances)[url := client] && nextId == old(nextId) + 1 &&
              forall u :: u in old(instances) ==> old(instances)[u].id != client.id)
    {
      var url := BaseUrl(env, base);
      if url in instances {
        return instances[url];
      }
      client := Client(nextId, url);
      instances := instances[url := client];
      nextId := nextId + 1;
    }
  }

  /** Resolving two bases that map to the same URL, in either order and
      including the same base twice, yields the identical client. */
  method ResolveTwice(cache: InstanceCache, first: BaseKey, second: BaseKey) returns (c1: Client, c2: Client)
    requires cache.Valid()
    modifies cache
    ensures cache.Valid()
    ensures BaseUrl(cache.env, first) == BaseUrl(cache.env, second) ==> c1 == c2
    ensures BaseUrl(cache.env, first) != BaseUrl(cache.env, second) ==> c1.id != c2.id
  {
    c1 := cache.GetInstanceFor(first);
    c2 := cache.GetInstanceFor(second);
  }
}
