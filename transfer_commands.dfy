/**
 * `biapi transfers list|get|create|execute|cancel`: the request each subcommand issues.
 */
module TransferCommands {
  import opened Base
  import opened Requests
  import opened Routes

  const DefaultLimit := "50"
  const DefaultOffset := "0"

  /** `transfers list`: GET /users/me/transfers with exactly `limit` and `offset` (defaults '50' and '0'). */
  method List(limit: Option<string>, offset: Option<string>) returns (r: Request)
    ensures r.verb == GET && r.path == Path(Transfers) && r.body == NoBody
    ensures r.params.Keys == {"limit", "offset"}
    ensures r.params["limit"] == ParsedInt(OrDefault(limit, DefaultLimit))
    ensures r.params["offset"] == ParsedInt(OrDefault(offset, DefaultOffset))
  {
    var params := map[
      "limit" := ParsedInt(OrDefault(limit, DefaultLimit)),
      "offset" := ParsedInt(OrDefault(offset, DefaultOffset))
    ];
    r := GetRequest(Path(Transfers), params);
  }

  /** `transfers get <id>`: GET on the transfer, without a query. */
  method Get(id: string) returns (r: Request)
    ensures r == Request(GET, Path(Transfer(id)), map[], NoBody)
  {
    r := GetRequest(Path(Transfer(id)), map[]);
  }

  /**
   * `transfers create --account a --recipient r --amount x --label l [--exec-date d]`:
   * POST under the account's recipient; `amount` and `label` always,
   * `exec_date` exactly when given and non-empty.
   */
  method Create(account: string, recipient: string, amount: string, labelText: string, execDate: Option<string>)
    returns (r: Request)
    ensures r.verb == POST && r.path == Path(RecipientTransfers(account, recipient)) && r.params == map[]
    ensures r.body.Fields? && r.body.fields.Keys <= {"amount", "label", "exec_date"}
    ensures Lookup(r.body.fields, "amount") == Some(ParsedFloat(amount))
    ensures Lookup(r.body.fields, "label") == Some(Text(labelText))
    ensures Lookup(r.body.fields, "exec_date") == TextIfGiven(execDate)
  {
    var data := map["amount" := ParsedFloat(amount), "label" := Text(labelText)];
    if Truthy(execDate) {
      data := data["exec_date" := Text(execDate.value)];
    }
    r := PostRequest(Path(RecipientTransfers(account, recipient)), Fields(data));
  }

  /** `transfers execute <id> [--password p]`: PUT on the transfer with `validated: true`, `password` only when given and non-empty. */
  method Execute(id: string, password: Option<string>) returns (r: Request)
    ensures r.verb == PUT && r.path == Path(Transfer(id)) && r.params == map[]
    ensures r.body.Fields? && r.body.fields.Keys <= {"validated", "password"}
    ensures Lookup(r.body.fields, "validated") == Some(Boolean(true))
    ensures Lookup(r.body.fields, "password") == TextIfGiven(password)
  {
    var data := map["validated" := Boolean(true)];
    if Truthy(password) {
      data := data["password" := Text(password.value)];
    }
    r := PutRequest(Path(Transfer(id)), Fields(data));
  }

  /** `transfers cancel <id>`: DELETE on the transfer. */
  method Cancel(id: string) returns (r: Request)
    ensures r == Request(DELETE, Path(Transfer(id)), map[], NoBody)
  {
    r := DeleteRequest(Path(Transfer(id)));
  }
}
