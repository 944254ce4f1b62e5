/**
 * The shape of one API call as the command layer hands it to the HTTP helper
 * (`get`, `post`, `put`, `del`). Only the request is modelled: what the helper
 * then does on the wire, and the response, are not.
 */
module Requests {
  import opened Base

  /** A JSON document read from a file and passed through untouched. */
  datatype Json =
    | JNull
    | JBool(b: bool)
    | JNumber(literal: string)
    | JString(s: string)
    | JArray(items: seq<Json>)
    | JObject(members: map<string, Json>)

  /**
   * A value the command layer puts into a query or a body.
   * `parseInt` and `parseFloat` are left uninterpreted: `ParsedInt(t)` stands
   * for `parseInt(t)` and `ParsedFloat(t)` for `parseFloat(t)`.
   */
  datatype Value =
    | Text(s: string)
    | Boolean(b: bool)
    | ParsedInt(text: string)
    | ParsedFloat(text: string)

  datatype Body =
    | NoBody                               // `get(path, params)` and `del(path)`
    | Fields(fields: map<string, Value>)   // an object literal built by the command
    | Document(doc: Json)                  // a parsed file, sent as it is

  datatype Verb = GET | POST | PUT | DELETE

  datatype Request = Request(verb: Verb, path: string, params: map<string, Value>, body: Body)

  /** `get(path, params)`; a call without params sends the same empty query as `{}`. */
  function GetRequest(path: string, params: map<string, Value>): Request
  {
    Request(GET, path, params, NoBody)
  }

  /** `post(path, data)` */
  function PostRequest(path: string, body: Body): Request
  {
    Request(POST, path, map[], body)
  }

  /** `put(path, data)` */
  function PutRequest(path: string, body: Body): Request
  {
    Request(PUT, path, map[], body)
  }

  /** `del(path)` */
  function DeleteRequest(path: string): Request
  {
    Request(DELETE, path, map[], NoBody)
  }

  /** The entry `if (options.x) params.key = options.x` contributes: present only for a truthy option. */
  function TextIfGiven(o: Option<string>): Option<Value>
  {
    if Truthy(o) then Some(Text(o.value)) else None
  }
}
