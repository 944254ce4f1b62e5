/**
 * `biapi banks list|get|search`: the request each subcommand issues.
 */
module BankCommands {
  import opened Base
  import opened Requests
  import opened Routes

  const DefaultLimit := "50"
  const DefaultOffset := "0"
  const DefaultExpand := "fields"
  const DefaultSearchLimit := "20"

  /**
   * `banks list`: GET /banks with `limit` and `offset` always (defaults '50'
   * and '0') and `expand` (default 'fields') unless it was given empty.
   */
  method List(limit: Option<string>, offset: Option<string>, expand: Option<string>) returns (r: Request)
    ensures r.verb == GET && r.path == Path(Banks) && r.body == NoBody
    ensures r.params.Keys <= {"limit", "offset", "expand"}
    ensures Lookup(r.params, "limit") == Some(ParsedInt(OrDefault(limit, DefaultLimit)))
    ensures Lookup(r.params, "offset") == Some(ParsedInt(OrDefault(offset, DefaultOffset)))
    ensures Lookup(r.params, "expand") == TextIfGiven(Some(OrDefault(expand, DefaultExpand)))
    ensures expand.None? ==> Lookup(r.params, "expand") == Some(Text(DefaultExpand))
  {
    var params := map[
      "limit" := ParsedInt(OrDefault(limit, DefaultLimit)),
      "offset" := ParsedInt(OrDefault(offset, DefaultOffset))
    ];
    var expanded := OrDefault(expand, DefaultExpand);
    if expanded != "" {
      params := params["expand" := Text(expanded)];
    }
    r := GetRequest(Path(Banks), params);
  }

  /** `banks get <id>`: GET on the bank, `expand` (default 'fields') unless it was given empty. */
  method Get(id: string, expand: Option<string>) returns (r: Request)
    ensures r.verb == GET && r.path == Path(Bank(id)) && r.body == NoBody
    ensures r.params.Keys <= {"expand"}
    ensures Lookup(r.params, "expand") == TextIfGiven(Some(OrDefault(expand, DefaultExpand)))
    ensures expand.None? ==> Lookup(r.params, "expand") == Some(Text(DefaultExpand))
  {
    var params: map<string, Value> := map[];
    var expanded := OrDefault(expand, DefaultExpand);
    if expanded != "" {
      params := params["expand" := Text(expanded)];
    }
    r := GetRequest(Path(Bank(id)), params);
  }

  /** `banks search <query>`: GET /banks with exactly `search` and `limit` (default '20'), no offset. */
  method Search(query: string, limit: Option<string>) returns (r: Request)
    ensures r.verb == GET && r.path == Path(Banks) && r.body == NoBody
    ensures r.params.Keys == {"search", "limit"}
    ensures r.params["search"] == Text(query)
    ensures r.params["limit"] == ParsedInt(OrDefault(limit, DefaultSearchLimit))
  {
    var params := map["search" := Text(query), "limit" := ParsedInt(OrDefault(limit, DefaultSearchLimit))];
    r := GetRequest(Path(Banks), params);
  }
}
