/**
 * `biapi config list|set|get|delete|clear`: what each subcommand does to the
 * store and what it shows. Colours are not modelled; shown text is plain.
 */
module ConfigCommands {
  import opened Base
  import opened Settings

  /** The keys `config list` masks. */
  const SecretKeys := {AccessTokenKey, ClientSecretKey}

  const MaskMarker := "***"
  const EchoMarker := "..."

  /** `value.substring(0, 10) + '***'`: how `config list` shows a non-empty secret. */
  function Mask(secret: string): (shown: string)
    ensures |shown| == Min(10, |secret|) + 3 <= 13
  {
    Prefix(secret, 10) + MaskMarker
  }

  /** The mask shows nothing past the tenth character: secrets that agree there look the same. */
  lemma MaskRevealsOnlyTenCharacters(a: string, b: string)
    requires |a| >= 10 && |b| >= 10 && a[..10] == b[..10]
    ensures Mask(a) == Mask(b)
  {
  }

  /** The shown prefix is the secret's own beginning, cut at ten characters. */
  lemma MaskKeepsPrefix(secret: string)
    ensures Mask(secret)[..Min(10, |secret|)] == secret[..Min(10, |secret|)]
    ensures Mask(secret)[Min(10, |secret|)..] == MaskMarker
  {
  }

  /**
   * `config list`: a copy of the store in which a non-empty access token and
   * client secret are masked; every other entry, and an empty secret, is shown
   * as it is. The store itself is only read.
   */
  method List(store: ConfigStore) returns (shown: map<string, string>)
    ensures shown.Keys == store.entries.Keys
    ensures forall k :: k in shown && k !in SecretKeys ==> shown[k] == store.entries[k]
    ensures forall k :: k in shown && k in SecretKeys && store.entries[k] == "" ==> shown[k] == ""
    ensures forall k :: k in shown && k in SecretKeys && store.entries[k] != "" ==> shown[k] == Mask(store.entries[k])
  {
    var masked := store.All();
    if Truthy(Lookup(masked, AccessTokenKey)) {
      masked := masked[AccessTokenKey := Mask(masked[AccessTokenKey])];
    }
    if Truthy(Lookup(masked, ClientSecretKey)) {
      masked := masked[ClientSecretKey := Mask(masked[ClientSecretKey])];
    }
    shown := masked;
  }

  datatype GetReport = NotFound(message: string) | Found(value: string)

  /** `config get key`: "not found" exactly when the key is absent, the stored value otherwise. */
  function Get(store: ConfigStore, key: string): (r: GetReport)
    reads store
    ensures r.NotFound? <==> key !in store.All()
    ensures r.NotFound? ==> r.message == "Key \"" + key + "\" not found"
    ensures r.Found? ==> r.value == store.entries[key]
  {
    match Lookup(store.All(), key)
    case None => NotFound("Key \"" + key + "\" not found")
    case Some(v) => Found(v)
  }

  /** The value part of the `config set` echo: `value.substring(0, 20) + '...'`. */
  function Abbreviate(value: string): string
  {
    Prefix(value, 20) + EchoMarker
  }

  /** The echo never shows more than 20 characters of the value, and shows all of a short one. */
  lemma AbbreviateBounds(value: string)
    ensures |Abbreviate(value)| == Min(20, |value|) + 3
    ensures |value| <= 20 ==> Abbreviate(value) == value + EchoMarker
    ensures Abbreviate(value)[..Min(20, |value|)] == value[..Min(20, |value|)]
  {
  }

  /** `config set key value`: stores the whole value; the echo shows it abbreviated. */
  method Set(store: ConfigStore, key: string, value: string) returns (echo: string)
    modifies store
    ensures store.entries == old(store.entries)[key := value]
    ensures echo == "\U{2713} Set " + key + " = " + Abbreviate(value)
  {
    store.Set(key, value);
    echo := "\U{2713} Set " + key + " = " + Abbreviate(value);
  }

  /** `config delete key` */
  method Delete(store: ConfigStore, key: string) returns (echo: string)
    modifies store
    ensures store.entries == old(store.entries) - {key}
    ensures echo == "\U{2713} Deleted " + key
  {
    store.Delete(key);
    echo := "\U{2713} Deleted " + key;
  }

  /** `config clear` */
  method Clear(store: ConfigStore) returns (echo: string)
    modifies store
    ensures store.entries == store.defaults
    ensures echo == "\U{2713} Configuration cleared"
  {
    store.Clear();
    echo := "\U{2713} Configuration cleared";
  }
}
