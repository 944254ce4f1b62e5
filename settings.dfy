/**
 * The settings store and the credential resolvers built on it.
 *
 * The store is a flat string-to-string map persisted by the storage library.
 * Opening it seeds five keys with defaults taken from the environment, under
 * whatever the persisted file already holds; `Set`, `Delete` and `Clear`
 * change it in place. The environment is an explicit map: a variable that is
 * not in the map is unset.
 */
module Settings {
  import opened Base

  type Env = map<string, string>

  const AccessTokenKey := "accessToken"
  const BaseUrlKey := "baseUrl"
  const DomainKey := "domain"
  const ClientIdKey := "clientId"
  const ClientSecretKey := "clientSecret"

  const AccessTokenVar := "BIAPI_ACCESS_TOKEN"
  const BaseUrlVar := "BIAPI_BASE_URL"
  const DomainVar := "BIAPI_DOMAIN"
  const ClientIdVar := "BIAPI_CLIENT_ID"
  const ClientSecretVar := "BIAPI_CLIENT_SECRET"

  const DefaultBaseUrl := "https://demo.biapi.pro/2.0"
  const DefaultDomain := "demo"

  const MissingTokenMessage :=
    "Access token not configured. Set it with: biapi config set accessToken <your-token>\n"
    + "Or set BIAPI_ACCESS_TOKEN environment variable.\n"
    + "Get your token from your Budgea API provider."

  /** `process.env[name] || fallback` */
  function EnvOr(env: Env, name: string, fallback: string): string
  {
    if Truthy(Lookup(env, name)) then env[name] else fallback
  }

  /** The defaults the store is seeded with. */
  function Defaults(env: Env): (d: map<string, string>)
    ensures d.Keys == {AccessTokenKey, BaseUrlKey, DomainKey, ClientIdKey, ClientSecretKey}
    ensures Truthy(Lookup(env, AccessTokenVar)) ==> d[AccessTokenKey] == env[AccessTokenVar]
    ensures !Truthy(Lookup(env, AccessTokenVar)) ==> d[AccessTokenKey] == ""
    ensures Truthy(Lookup(env, BaseUrlVar)) ==> d[BaseUrlKey] == env[BaseUrlVar]
    ensures !Truthy(Lookup(env, BaseUrlVar)) ==> d[BaseUrlKey] == DefaultBaseUrl
    ensures Truthy(Lookup(env, DomainVar)) ==> d[DomainKey] == env[DomainVar]
    ensures !Truthy(Lookup(env, DomainVar)) ==> d[DomainKey] == DefaultDomain
    ensures Truthy(Lookup(env, ClientIdVar)) ==> d[ClientIdKey] == env[ClientIdVar]
    ensures !Truthy(Lookup(env, ClientIdVar)) ==> d[ClientIdKey] == ""
    ensures Truthy(Lookup(env, ClientSecretVar)) ==> d[ClientSecretKey] == env[ClientSecretVar]
    ensures !Truthy(Lookup(env, ClientSecretVar)) ==> d[ClientSecretKey] == ""
    ensures d[BaseUrlKey] != "" && d[DomainKey] != ""
  {
    map[
      AccessTokenKey := EnvOr(env, AccessTokenVar, ""),
      BaseUrlKey := EnvOr(env, BaseUrlVar, DefaultBaseUrl),
      DomainKey := EnvOr(env, DomainVar, DefaultDomain),
      ClientIdKey := EnvOr(env, ClientIdVar, ""),
      ClientSecretKey := EnvOr(env, ClientSecretVar, "")
    ]
  }

  /**
   * What a freshly opened store holds: the seeded defaults, overridden by
   * whatever the persisted file already holds.
   */
  function Seeded(env: Env, persisted: map<string, string>): (entries: map<string, string>)
    ensures entries.Keys == Defaults(env).Keys + persisted.Keys
    ensures forall k :: k in persisted ==> entries[k] == persisted[k]
    ensures forall k :: k in Defaults(env) && k !in persisted ==> entries[k] == Defaults(env)[k]
  {
    Defaults(env) + persisted
  }

  // ---------------------------------------------------------------------
  // The store's history, as values: what a sequence of `setConfig`,
  // `deleteConfig` and `clearConfig` calls on ONE opened store leaves
  // behind. Every CLI invocation opens the store afresh (`Seeded`), so
  // across invocations a deleted seeded key comes back as its default
  // (`ReopenRestoresDeletedDefault`).
  // ---------------------------------------------------------------------

  datatype Edit = SetKey(key: string, value: string) | DeleteKey(key: string) | ClearAll

  /** One edit applied to the entries; `ClearAll` brings back the seeded defaults. */
  function Apply(entries: map<string, string>, defaults: map<string, string>, e: Edit): map<string, string>
  {
    match e
    case SetKey(k, v) => entries[k := v]
    case DeleteKey(k) => entries - {k}
    case ClearAll => defaults
  }

  /** The edits applied one after the other, oldest first. */
  function Replay(entries: map<string, string>, defaults: map<string, string>, edits: seq<Edit>): map<string, string>
    decreases |edits|
  {
    if edits == [] then entries else Replay(Apply(entries, defaults, edits[0]), defaults, edits[1..])
  }

  /**
   * Reference reading of a key after a history, newest edit first: the last
   * edit that touches the key decides (a set gives its value, a delete gives
   * nothing, a clear gives the default); with none, the starting entry stands.
   */
  function LastWrite(entries: map<string, string>, defaults: map<string, string>, edits: seq<Edit>, k: string): Option<string>
    decreases |edits|
  {
    if edits == [] then Lookup(entries, k)
    else
      var last, earlier := edits[|edits| - 1], edits[..|edits| - 1];
      match last
      case SetKey(k', v) => if k' == k then Some(v) else LastWrite(entries, defaults, earlier, k)
      case DeleteKey(k') => if k' == k then None else LastWrite(entries, defaults, earlier, k)
      case ClearAll => Lookup(defaults, k)
  }

  lemma {:induction false} ReplaySnoc(entries: map<string, string>, defaults: map<string, string>, edits: seq<Edit>, e: Edit)
    ensures Replay(entries, defaults, edits + [e]) == Apply(Replay(entries, defaults, edits), defaults, e)
    decreases |edits|
  {
    if edits == [] {
      assert edits + [e] == [e];
      assert [e][1..] == [];
    } else {
      assert (edits + [e])[0] == edits[0];
      assert (edits + [e])[1..] == edits[1..] + [e];
      ReplaySnoc(Apply(entries, defaults, edits[0]), defaults, edits[1..], e);
    }
  }

  /** Replaying a history gives, for every key, what the last edit touching it says. */
  lemma {:induction false} ReplayIsLastWrite(entries: map<string, string>, defaults: map<string, string>, edits: seq<Edit>, k: string)
    ensures Lookup(Replay(entries, defaults, edits), k) == LastWrite(entries, defaults, edits, k)
    decreases |edits|
  {
    if edits != [] {
      var last, earlier := edits[|edits| - 1], edits[..|edits| - 1];
      assert earlier + [last] == edits;
      ReplaySnoc(entries, defaults, earlier, last);
      ReplayIsLastWrite(entries, defaults, earlier, k);
    }
  }

  /** A key that no edit names, in a history without a clear, keeps its starting entry. */
  lemma UntouchedKeyKeepsEntry(entries: map<string, string>, defaults: map<string, string>, edits: seq<Edit>, k: string)
    requires forall i :: 0 <= i < |edits| ==> !edits[i].ClearAll? && edits[i].key != k
    ensures Lookup(Replay(entries, defaults, edits), k) == Lookup(entries, k)
  {
    ReplayIsLastWrite(entries, defaults, edits, k);
    UntouchedLastWrite(entries, defaults, edits, k);
  }

  lemma {:induction false} UntouchedLastWrite(entries: map<string, string>, defaults: map<string, string>, edits: seq<Edit>, k: string)
    requires forall i :: 0 <= i < |edits| ==> !edits[i].ClearAll? && edits[i].key != k
    ensures LastWrite(entries, defaults, edits, k) == Lookup(entries, k)
    decreases |edits|
  {
    if edits != [] {
      var earlier := edits[..|edits| - 1];
      assert forall i :: 0 <= i < |earlier| ==> earlier[i] == edits[i];
      UntouchedLastWrite(entries, defaults, earlier, k);
    }
  }

  /** After a clear, every value set or deleted before it is gone: the store holds the defaults again. */
  lemma ClearForgetsHistory(entries: map<string, string>, defaults: map<string, string>, edits: seq<Edit>)
    ensures Replay(entries, defaults, edits + [ClearAll]) == defaults
  {
    ReplaySnoc(entries, defaults, edits, ClearAll);
  }

  /**
   * Across invocations, `config delete` of a seeded key does not stick: the
   * next invocation opens the store again and reads the key as its default.
   */
  lemma ReopenRestoresDeletedDefault(env: Env, entries: map<string, string>, defaults: map<string, string>, edits: seq<Edit>, k: string)
    requires k in Defaults(env)
    ensures Lookup(Replay(entries, defaults, edits + [DeleteKey(k)]), k) == None
    ensures Lookup(Seeded(env, Replay(entries, defaults, edits + [DeleteKey(k)])), k) == Some(Defaults(env)[k])
  {
    ReplaySnoc(entries, defaults, edits, DeleteKey(k));
  }

  // ---------------------------------------------------------------------
  // The store object.
  // ---------------------------------------------------------------------

  class ConfigStore {
    /** What the store holds now (the persisted file's contents). */
    var entries: map<string, string>
    /** The defaults computed when this store was opened; `Clear` restores them. */
    const defaults: map<string, string>

    /**
     * Opening the store: the seeded defaults, overridden by whatever the
     * persisted file already holds (`persisted` is empty on the first run).
     */
    constructor Open(env: Env, persisted: map<string, string>)
      ensures defaults == Defaults(env)
      ensures entries == Seeded(env, persisted)
    {
      defaults := Defaults(env);
      entries := Seeded(env, persisted);
    }

    /** `getConfig(key)`: the stored value, or `undefined` exactly when the key is not stored. */
    function Get(key: string): (v: Option<string>)
      reads this
      ensures v.None? <==> key !in entries
      ensures v.Some? ==> v.value == entries[key]
    {
      Lookup(entries, key)
    }

    /** `getAllConfig()`: the whole store, agreeing with `Get` on every key. */
    function All(): (all: map<string, string>)
      reads this
      ensures forall k :: Lookup(all, k) == Get(k)
    {
      entries
    }

    /** `setConfig(key, value)` */
    method Set(key: string, value: string)
      modifies this
      ensures entries == Apply(old(entries), defaults, SetKey(key, value))
      ensures Get(key) == Some(value)
      ensures forall k :: k != key ==> Get(k) == old(Get(k))
    {
      entries := entries[key := value];
    }

    /** `deleteConfig(key)` */
    method Delete(key: string)
      modifies this
      ensures entries == Apply(old(entries), defaults, DeleteKey(key))
      ensures Get(key) == None
      ensures forall k :: k != key ==> Get(k) == old(Get(k))
    {
      entries := entries - {key};
    }

    /** `clearConfig()` */
    method Clear()
      modifies this
      ensures entries == Apply(old(entries), defaults, ClearAll)
      ensures forall k :: Get(k) == Lookup(defaults, k)
    {
      entries := defaults;
    }
  }

  // ---------------------------------------------------------------------
  // Credential resolution: store first, then the environment.
  // ---------------------------------------------------------------------

  /** `getAccessToken()`: fails exactly when neither the store nor the environment has a non-empty token. */
  function AccessToken(store: ConfigStore, env: Env): (r: Result<string, CliError>)
    reads store
    ensures r.Ok? <==> Truthy(store.Get(AccessTokenKey)) || Truthy(Lookup(env, AccessTokenVar))
    ensures r.Ok? ==> r.value != ""
    ensures Truthy(store.Get(AccessTokenKey)) ==> r == Ok(store.entries[AccessTokenKey])
    ensures !Truthy(store.Get(AccessTokenKey)) && Truthy(Lookup(env, AccessTokenVar)) ==> r == Ok(env[AccessTokenVar])
    ensures r.Err? ==> r.error == ConfigurationError(MissingTokenMessage)
  {
    var token := Or(store.Get(AccessTokenKey), Lookup(env, AccessTokenVar));
    if !Truthy(token) then Err(ConfigurationError(MissingTokenMessage)) else Ok(token.value)
  }

  /** `getBaseUrl()`: store, else environment, else the demo URL; never empty. */
  function BaseUrl(store: ConfigStore, env: Env): (url: string)
    reads store
    ensures url != ""
    ensures Truthy(store.Get(BaseUrlKey)) ==> url == store.entries[BaseUrlKey]
    ensures !Truthy(store.Get(BaseUrlKey)) && Truthy(Lookup(env, BaseUrlVar)) ==> url == env[BaseUrlVar]
    ensures !Truthy(store.Get(BaseUrlKey)) && !Truthy(Lookup(env, BaseUrlVar)) ==> url == DefaultBaseUrl
  {
    Or(Or(store.Get(BaseUrlKey), Lookup(env, BaseUrlVar)), Some(DefaultBaseUrl)).value
  }

  datatype Credentials = Credentials(clientId: Option<string>, clientSecret: Option<string>)

  /**
   * `getClientCredentials()`: each field on its own, the stored value when
   * non-empty, else the environment variable as it is (possibly unset or empty).
   */
  function ClientCredentials(store: ConfigStore, env: Env): (c: Credentials)
    reads store
    ensures Truthy(store.Get(ClientIdKey)) ==> c.clientId == Some(store.entries[ClientIdKey])
    ensures !Truthy(store.Get(ClientIdKey)) ==> c.clientId == Lookup(env, ClientIdVar)
    ensures Truthy(store.Get(ClientSecretKey)) ==> c.clientSecret == Some(store.entries[ClientSecretKey])
    ensures !Truthy(store.Get(ClientSecretKey)) ==> c.clientSecret == Lookup(env, ClientSecretVar)
  {
    Credentials(
      Or(store.Get(ClientIdKey), Lookup(env, ClientIdVar)),
      Or(store.Get(ClientSecretKey), Lookup(env, ClientSecretVar)))
  }
}
