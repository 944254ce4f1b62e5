/**
 * `biapi transactions list|get|update|delete`: the request each subcommand issues.
 */
module TransactionCommands {
  import opened Base
  import opened Requests
  import opened Routes

  const DefaultLimit := "100"
  const DefaultOffset := "0"

  /**
   * `transactions list`: GET on the account's transactions when `--account` is
   * given and non-empty, else on all of the user's transactions. `limit` and `offset` are
   * always sent (defaults '100' and '0'); `min_date`, `max_date` and `expand`
   * only when given and non-empty.
   */
  method List(account: Option<string>, minDate: Option<string>, maxDate: Option<string>,
              limit: Option<string>, offset: Option<string>, expand: Option<string>)
    returns (r: Request)
    ensures r.verb == GET && r.body == NoBody
    ensures r.path == if Truthy(account) then Path(AccountTransactions(account.value)) else Path(Transactions)
    ensures r.params.Keys <= {"limit", "offset", "min_date", "max_date", "expand"}
    ensures Lookup(r.params, "limit") == Some(ParsedInt(OrDefault(limit, DefaultLimit)))
    ensures Lookup(r.params, "offset") == Some(ParsedInt(OrDefault(offset, DefaultOffset)))
    ensures Lookup(r.params, "min_date") == TextIfGiven(minDate)
    ensures Lookup(r.params, "max_date") == TextIfGiven(maxDate)
    ensures Lookup(r.params, "expand") == TextIfGiven(expand)
  {
    var params := map[
      "limit" := ParsedInt(OrDefault(limit, DefaultLimit)),
      "offset" := ParsedInt(OrDefault(offset, DefaultOffset))
    ];
    if Truthy(minDate) {
      params := params["min_date" := Text(minDate.value)];
    }
    if Truthy(maxDate) {
      params := params["max_date" := Text(maxDate.value)];
    }
    if Truthy(expand) {
      params := params["expand" := Text(expand.value)];
    }
    var endpoint := if Truthy(account) then Path(AccountTransactions(account.value)) else Path(Transactions);
    r := GetRequest(endpoint, params);
  }

  /** `transactions get <id>`: GET on the transaction, `expand` only when given and non-empty. */
  method Get(id: string, expand: Option<string>) returns (r: Request)
    ensures r.verb == GET && r.path == Path(Transaction(id)) && r.body == NoBody
    ensures r.params.Keys <= {"expand"}
    ensures Lookup(r.params, "expand") == TextIfGiven(expand)
  {
    var params: map<string, Value> := map[];
    if Truthy(expand) {
      params := params["expand" := Text(expand.value)];
    }
    r := GetRequest(Path(Transaction(id)), params);
  }

  /**
   * `transactions update <id>`: PUT on the transaction. `comment` is sent
   * whenever the flag is present, even empty; `id_category` only for a
   * non-empty `--category`.
   */
  method Update(id: string, comment: Option<string>, category: Option<string>) returns (r: Request)
    ensures r.verb == PUT && r.path == Path(Transaction(id)) && r.params == map[]
    ensures r.body.Fields? && r.body.fields.Keys <= {"comment", "id_category"}
    ensures Lookup(r.body.fields, "comment") == if comment.Some? then Some(Text(comment.value)) else None
    ensures Lookup(r.body.fields, "id_category") == if Truthy(category) then Some(ParsedInt(category.value)) else None
  {
    var data: map<string, Value> := map[];
    if comment.Some? {
      data := data["comment" := Text(comment.value)];
    }
    if Truthy(category) {
      data := data["id_category" := ParsedInt(category.value)];
    }
    r := PutRequest(Path(Transaction(id)), Fields(data));
  }

  /** `transactions delete <id>`: DELETE on the transaction. */
  method Delete(id: string) returns (r: Request)
    ensures r == Request(DELETE, Path(Transaction(id)), map[], NoBody)
  {
    r := DeleteRequest(Path(Transaction(id)));
  }
}
