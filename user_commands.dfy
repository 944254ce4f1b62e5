/**
 * `biapi users me|list|delete`: the request each subcommand issues.
 */
module UserCommands {
  import opened Base
  import opened Requests
  import opened Routes

  const DefaultLimit := "50"
  const DefaultOffset := "0"

  /** `users me [--expand e]`: GET /users/me, `expand` only when given and non-empty. */
  method Me(expand: Option<string>) returns (r: Request)
    ensures r.verb == GET && r.path == Path(Routes.Me) && r.body == NoBody
    ensures r.params.Keys <= {"expand"}
    ensures Lookup(r.params, "expand") == TextIfGiven(expand)
  {
    var params: map<string, Value> := map[];
    if Truthy(expand) {
      params := params["expand" := Text(expand.value)];
    }
    r := GetRequest(Path(Routes.Me), params);
  }

  /** `users list`: GET /users with exactly `limit` and `offset` (defaults '50' and '0'). */
  method List(limit: Option<string>, offset: Option<string>) returns (r: Request)
    ensures r.verb == GET && r.path == Path(Users) && r.body == NoBody
    ensures r.params.Keys == {"limit", "offset"}
    ensures r.params["limit"] == ParsedInt(OrDefault(limit, DefaultLimit))
    ensures r.params["offset"] == ParsedInt(OrDefault(offset, DefaultOffset))
  {
    var params := map[
      "limit" := ParsedInt(OrDefault(limit, DefaultLimit)),
      "offset" := ParsedInt(OrDefault(offset, DefaultOffset))
    ];
    r := GetRequest(Path(Users), params);
  }

  /** `users delete`: DELETE /users/me, no query and no body. */
  method Delete() returns (r: Request)
    ensures r == Request(DELETE, Path(Routes.Me), map[], NoBody)
  {
    r := DeleteRequest(Path(Routes.Me));
  }
}
