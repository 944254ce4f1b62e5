/**
 * `biapi connections list|get|create|update|delete|sync`: the request each
 * subcommand issues. Reading and parsing the `--file` argument is not
 * modelled: its outcome is an input, a parsed document or the error text.
 */
module ConnectionCommands {
  import opened Base
  import opened Requests
  import opened Routes

  const DefaultExpand := "accounts"
  const SyncFormat := "json"

  /** `connections list`: GET /users/me/connections, `expand` (default 'accounts') unless it was given empty. */
  method List(expand: Option<string>) returns (r: Request)
    ensures r.verb == GET && r.path == Path(Connections) && r.body == NoBody
    ensures r.params.Keys <= {"expand"}
    ensures Lookup(r.params, "expand") == TextIfGiven(Some(OrDefault(expand, DefaultExpand)))
    ensures expand.None? ==> Lookup(r.params, "expand") == Some(Text(DefaultExpand))
  {
    var params: map<string, Value> := map[];
    var expanded := OrDefault(expand, DefaultExpand);
    if expanded != "" {
      params := params["expand" := Text(expanded)];
    }
    r := GetRequest(Path(Connections), params);
  }

  /** `connections get <id>`: GET on the connection, `expand` only when given and non-empty. */
  method Get(id: string, expand: Option<string>) returns (r: Request)
    ensures r.verb == GET && r.path == Path(Connection(id)) && r.body == NoBody
    ensures r.params.Keys <= {"expand"}
    ensures Lookup(r.params, "expand") == TextIfGiven(expand)
  {
    var params: map<string, Value> := map[];
    if Truthy(expand) {
      params := params["expand" := Text(expand.value)];
    }
    r := GetRequest(Path(Connection(id)), params);
  }

  /** `connections create --file f`: POST the parsed file, unchanged; an unreadable file stops the command first. */
  method Create(file: Result<Json, string>) returns (r: Result<Request, CliError>)
    ensures r.Err? <==> file.Err?
    ensures file.Err? ==> r.error == InputError(file.error)
    ensures file.Ok? ==> r.value == Request(POST, Path(Connections), map[], Document(file.value))
  {
    if file.Err? {
      return Err(InputError(file.error));
    }
    r := Ok(PostRequest(Path(Connections), Document(file.value)));
  }

  /**
   * `connections update <id> --file f`: POST (not PUT) the parsed file,
   * unchanged, to the connection; an unreadable file stops the command first.
   */
  method Update(id: string, file: Result<Json, string>) returns (r: Result<Request, CliError>)
    ensures r.Err? <==> file.Err?
    ensures file.Err? ==> r.error == InputError(file.error)
    ensures file.Ok? ==> r.value == Request(POST, Path(Connection(id)), map[], Document(file.value))
  {
    if file.Err? {
      return Err(InputError(file.error));
    }
    r := Ok(PostRequest(Path(Connection(id)), Document(file.value)));
  }

  /** `connections delete <id>`: DELETE on the connection. */
  method Delete(id: string) returns (r: Request)
    ensures r == Request(DELETE, Path(Connection(id)), map[], NoBody)
  {
    r := DeleteRequest(Path(Connection(id)));
  }

  /** `connections sync <id>`: PUT on the connection with an empty body; the result is always shown as JSON. */
  method Sync(id: string) returns (r: Request, format: string)
    ensures r == Request(PUT, Path(Connection(id)), map[], Fields(map[]))
    ensures format == SyncFormat
  {
    r := PutRequest(Path(Connection(id)), Fields(map[]));
    format := SyncFormat;
  }
}
