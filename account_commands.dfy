/**
 * `biapi accounts list|get|update|delete`: the request each subcommand issues.
 */
module AccountCommands {
  import opened Base
  import opened Requests
  import opened Routes

  /** `accounts list [--expand e]`: GET /users/me/accounts, `expand` only when given and non-empty. */
  method List(expand: Option<string>) returns (r: Request)
    ensures r.verb == GET && r.path == Path(Accounts) && r.body == NoBody
    ensures r.params.Keys <= {"expand"}
    ensures Lookup(r.params, "expand") == TextIfGiven(expand)
  {
    var params: map<string, Value> := map[];
    if Truthy(expand) {
      params := params["expand" := Text(expand.value)];
    }
    r := GetRequest(Path(Accounts), params);
  }

  /** `accounts get <id> [--expand e]`: GET on the account, `expand` only when given and non-empty. */
  method Get(id: string, expand: Option<string>) returns (r: Request)
    ensures r.verb == GET && r.path == Path(Account(id)) && r.body == NoBody
    ensures r.params.Keys <= {"expand"}
    ensures Lookup(r.params, "expand") == TextIfGiven(expand)
  {
    var params: map<string, Value> := map[];
    if Truthy(expand) {
      params := params["expand" := Text(expand.value)];
    }
    r := GetRequest(Path(Account(id)), params);
  }

  /**
   * `accounts update <id> [--name n] [--disabled b]`: PUT on the account.
   * `name` only when non-empty; `disabled` whenever the flag is present, true
   * exactly for the string 'true' and false for any other string.
   */
  method Update(id: string, name: Option<string>, disabled: Option<string>) returns (r: Request)
    ensures r.verb == PUT && r.path == Path(Account(id)) && r.params == map[]
    ensures r.body.Fields? && r.body.fields.Keys <= {"name", "disabled"}
    ensures Lookup(r.body.fields, "name") == TextIfGiven(name)
    ensures ("disabled" in r.body.fields) <==> disabled.Some?
    ensures "disabled" in r.body.fields ==> (r.body.fields["disabled"] == Boolean(true) <==> disabled.value == "true")
    ensures "disabled" in r.body.fields ==> r.body.fields["disabled"].Boolean?
  {
    var data: map<string, Value> := map[];
    if Truthy(name) {
      data := data["name" := Text(name.value)];
    }
    if disabled.Some? {
      data := data["disabled" := Boolean(disabled.value == "true")];
    }
    r := PutRequest(Path(Account(id)), Fields(data));
  }

  /** `accounts delete <id>`: DELETE on the account. */
  method Delete(id: string) returns (r: Request)
    ensures r == Request(DELETE, Path(Account(id)), map[], NoBody)
  {
    r := DeleteRequest(Path(Account(id)));
  }
}
