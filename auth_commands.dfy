/**
 * `biapi auth init|jwt|revoke`: the request each subcommand issues.
 */
module AuthCommands {
  import opened Base
  import opened Settings
  import opened Requests
  import opened Routes

  const DefaultExpire := "true"
  const MissingCredentialsMessage := "Client credentials required. Set BIAPI_CLIENT_ID and BIAPI_CLIENT_SECRET"

  /**
   * `auth init`: POST /auth/init. The client id and secret go into the body
   * only when both resolve to non-empty values; otherwise the body is empty.
   */
  method Init(store: ConfigStore, env: Env) returns (r: Request)
    ensures r.verb == POST && r.path == Path(AuthInit) && r.params == map[]
    ensures r.body.Fields?
    ensures var c := ClientCredentials(store, env);
      if Truthy(c.clientId) && Truthy(c.clientSecret) then
        r.body.fields == map["client_id" := Text(c.clientId.value), "client_secret" := Text(c.clientSecret.value)]
      else
        r.body.fields == map[]
  {
    var creds := ClientCredentials(store, env);
    var data: map<string, Value> := map[];
    if Truthy(creds.clientId) && Truthy(creds.clientSecret) {
      data := data["client_id" := Text(creds.clientId.value)];
      data := data["client_secret" := Text(creds.clientSecret.value)];
    }
    r := PostRequest(Path(AuthInit), Fields(data));
  }

  /**
   * `auth jwt [--user-id id] [--expire bool] [--scope scope]`: fails before any
   * request unless both client credentials resolve to non-empty values; then
   * POST /auth/jwt with the credentials, `expire` (true exactly for the string
   * 'true', the default), and `id_user` / `scope` only when given and non-empty.
   */
  method Jwt(store: ConfigStore, env: Env, userId: Option<string>, expire: Option<string>, scope: Option<string>)
    returns (r: Result<Request, CliError>)
    ensures var c := ClientCredentials(store, env);
      r.Err? <==> !Truthy(c.clientId) || !Truthy(c.clientSecret)
    ensures r.Err? ==> r.error == ConfigurationError(MissingCredentialsMessage)
    ensures r.Ok? ==> r.value.verb == POST && r.value.path == Path(AuthJwt) && r.value.params == map[]
    ensures r.Ok? ==> var c := ClientCredentials(store, env);
      && r.value.body.Fields?
      && var data := r.value.body.fields;
      && data.Keys <= {"client_id", "client_secret", "expire", "id_user", "scope"}
      && Lookup(data, "client_id") == Some(Text(c.clientId.value))
      && Lookup(data, "client_secret") == Some(Text(c.clientSecret.value))
      && Lookup(data, "expire") == Some(Boolean(OrDefault(expire, DefaultExpire) == "true"))
      && Lookup(data, "id_user") == (if Truthy(userId) then Some(ParsedInt(userId.value)) else None)
      && Lookup(data, "scope") == TextIfGiven(scope)
  {
    var creds := ClientCredentials(store, env);
    if !Truthy(creds.clientId) || !Truthy(creds.clientSecret) {
      return Err(ConfigurationError(MissingCredentialsMessage));
    }
    var data := map[
      "client_id" := Text(creds.clientId.value),
      "client_secret" := Text(creds.clientSecret.value),
      "expire" := Boolean(OrDefault(expire, DefaultExpire) == "true")
    ];
    if Truthy(userId) {
      data := data["id_user" := ParsedInt(userId.value)];
    }
    if Truthy(scope) {
      data := data["scope" := Text(scope.value)];
    }
    r := Ok(PostRequest(Path(AuthJwt), Fields(data)));
  }

  /** `auth revoke`: DELETE /auth/token, no query and no body. */
  method Revoke() returns (r: Request)
    ensures r == Request(DELETE, Path(AuthToken), map[], NoBody)
  {
    r := DeleteRequest(Path(AuthToken));
  }
}
