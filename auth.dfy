/**
 * Bearer-token headers and the token format check.
 */
module Auth {
  import opened Base
  import opened Settings

  const AuthorizationHeader := "Authorization"
  const AcceptHeader := "Accept"
  const ContentTypeHeader := "Content-Type"
  const JsonMediaType := "application/json"
  const BearerPrefix := "Bearer "

  /** `getAuthHeaders()`: the three headers, or the token resolver's failure. */
  function AuthHeaders(store: ConfigStore, env: Env): (r: Result<map<string, string>, CliError>)
    reads store
    ensures r.Ok? <==> AccessToken(store, env).Ok?
    ensures r.Err? ==> r.error == AccessToken(store, env).error
    ensures r.Ok? ==> r.value.Keys == {AuthorizationHeader, AcceptHeader, ContentTypeHeader}
    ensures r.Ok? ==> r.value[AuthorizationHeader] == BearerPrefix + AccessToken(store, env).value
    ensures r.Ok? ==> r.value[AuthorizationHeader] != BearerPrefix
    ensures r.Ok? ==> r.value[AcceptHeader] == JsonMediaType && r.value[ContentTypeHeader] == JsonMediaType
  {
    match AccessToken(store, env)
    case Err(e) => Err(e)
    case Ok(token) =>
      Ok(map[
        AuthorizationHeader := BearerPrefix + token,
        AcceptHeader := JsonMediaType,
        ContentTypeHeader := JsonMediaType
      ])
  }

  /** An argument of any JavaScript type, as far as the format check distinguishes it. */
  datatype Argument = AString(s: string) | NotAString

  /**
   * `validateTokenFormat(token)`: a string of at least 20 UTF-16 code units.
   * Any string of 20 characters passes; a passing string has at least 10
   * characters (each character is one or two code units).
   */
  function ValidTokenFormat(token: Argument): (valid: bool)
    ensures valid ==> token.AString? && |token.s| >= 10
    ensures token.AString? && |token.s| >= 20 ==> valid
  {
    token.AString? && Utf16Length(token.s) >= 20
  }

  /** The boundary of the format check: 19 code units are rejected, 20 accepted, a non-string never. */
  lemma TokenFormatBoundary(token: Argument)
    ensures token.AString? && Utf16Length(token.s) == 19 ==> !ValidTokenFormat(token)
    ensures token.AString? && Utf16Length(token.s) == 20 ==> ValidTokenFormat(token)
    ensures token == NotAString ==> !ValidTokenFormat(token)
  {
  }

  /** For a token of Basic-Multilingual-Plane characters (any ASCII token), the check is "at least 20 characters". */
  lemma BmpTokenFormat(s: string)
    requires InBmp(s)
    ensures ValidTokenFormat(AString(s)) <==> |s| >= 20
  {
    BmpUtf16Length(s);
  }

  /** A character outside the Basic Multilingual Plane counts twice: 19 characters can pass. */
  lemma SurrogatePairCountsTwice()
    ensures |"aaaaaaaaaaaaaaaaaa\U{1F600}"| == 19
    ensures ValidTokenFormat(AString("aaaaaaaaaaaaaaaaaa\U{1F600}"))
  {
    var ascii, emoji := "aaaaaaaaaaaaaaaaaa", "\U{1F600}";
    assert ascii + emoji == "aaaaaaaaaaaaaaaaaa\U{1F600}";
    BmpUtf16Length(ascii);
    Utf16LengthAppend(ascii, emoji);
  }

  /**
   * A well-formed token kept in the store is what every request is authorized
   * with, whatever the environment says.
   */
  lemma StoredTokenAuthorizes(store: ConfigStore, env: Env)
    requires AccessTokenKey in store.entries
    requires ValidTokenFormat(AString(store.entries[AccessTokenKey]))
    ensures AuthHeaders(store, env).Ok?
    ensures AuthHeaders(store, env).value[AuthorizationHeader] == BearerPrefix + store.entries[AccessTokenKey]
  {
  }
}
