/** JSON-RPC 2.0 envelopes: the request object of section 4 and the
    response object of section 5 of the JSON-RPC 2.0 Specification, as
    records with optional members and as the JSON objects they stand for. */
module JsonRpc {
  import opened Wrappers
  import opened JsonValues

  const JSON_RPC_VERSION := "2.0"

  /** A request object: version, method name, named parameters and id. */
  datatype Request = Request(jsonrpc: string, methodName: string, params: map<string, Json>, id: string)

  /** A response object: version, the echoed id (null when absent), and a
      `result` member or an `error` member, each when present. */
  datatype Response = Response(jsonrpc: string, id: Option<string>, result: Option<Json>,
                               error: Option<map<string, Json>>)

  /** Section 4: the version is exactly "2.0". */
  predicate WellFormedRequest(r: Request)
  {
    r.jsonrpc == JSON_RPC_VERSION
  }

  /** Section 5: the version is exactly "2.0", and exactly one of `result`
      and `error` is a member. */
  predicate WellFormedResponse(r: Response)
  {
    r.jsonrpc == JSON_RPC_VERSION && (r.result.Some? <==> r.error.None?)
  }

  /** `build_request(method, params, id)`: an absent or empty parameter
      object becomes the empty object, and an absent id becomes `freshId`,
      standing for a newly generated UUID text; a given id, even the empty
      text, is kept. */
  function BuildRequest(methodName: string, params: Option<map<string, Json>>, id: Option<string>,
                        freshId: string): (r: Request)
    ensures WellFormedRequest(r) && r.methodName == methodName
    ensures params.None? ==> r.params == map[]
    ensures params.Some? ==> r.params == params.value
    ensures id.Some? ==> r.id == id.value
    ensures id.None? ==> r.id == freshId
  {
    var p := if params.None? || params.value == map[] then map[] else params.value;
    var i := if id.None? then freshId else id.value;
    Request(JSON_RPC_VERSION, methodName, p, i)
  }

  /** `build_response(result, id, error)`: a given error object, even an
      empty one, makes an error response without `result`; otherwise the
      response carries `result`, which may be null, and no `error`. */
  function BuildResponse(result: Json, id: Option<string>, error: Option<map<string, Json>>): (r: Response)
    ensures WellFormedResponse(r) && r.id == id
    ensures r.error == error
    ensures error.None? ==> r.result == Some(result)
  {
    if error.Some? then Response(JSON_RPC_VERSION, id, None, error)
    else Response(JSON_RPC_VERSION, id, Some(result), None)
  }

  // ----- the JSON objects the builders return -----

  /** The request as a JSON object. */
  function RequestObject(r: Request): (o: map<string, Json>)
    ensures o.Keys == {"jsonrpc", "method", "params", "id"}
  {
    map["jsonrpc" := JString(r.jsonrpc), "method" := JString(r.methodName),
        "params" := JObject(r.params), "id" := JString(r.id)]
  }

  /** The id member of a response: the id text, or null. */
  function IdValue(id: Option<string>): Json
  {
    match id
    case None => JNull
    case Some(s) => JString(s)
  }

  /** The response as a JSON object; `result` and `error` are members only
      when present. */
  function ResponseObject(r: Response): (o: map<string, Json>)
    ensures {"jsonrpc", "id"} <= o.Keys <= {"jsonrpc", "id", "result", "error"}
    ensures ("result" in o <==> r.result.Some?) && ("error" in o <==> r.error.Some?)
  {
    var base := map["jsonrpc" := JString(r.jsonrpc), "id" := IdValue(r.id)];
    var withResult := if r.result.Some? then base["result" := r.result.value] else base;
    if r.error.Some? then withResult["error" := JObject(r.error.value)] else withResult
  }

  /** Reads a request back from a JSON object. */
  function ParseRequest(o: map<string, Json>): Option<Request>
  {
    if "jsonrpc" in o && "method" in o && "params" in o && "id" in o
       && o["jsonrpc"].JString? && o["method"].JString? && o["params"].JObject? && o["id"].JString?
    then Some(Request(o["jsonrpc"].s, o["method"].s, o["params"].members, o["id"].s))
    else None
  }

  /** Reads a response back from a JSON object. */
  function ParseResponse(o: map<string, Json>): Option<Response>
  {
    if "jsonrpc" in o && "id" in o && o["jsonrpc"].JString? && (o["id"].JNull? || o["id"].JString?)
       && ("error" in o ==> o["error"].JObject?)
    then
      var id := if o["id"].JNull? then None else Some(o["id"].s);
      var result := if "result" in o then Some(o["result"]) else None;
      var error := if "error" in o then Some(o["error"].members) else None;
      Some(Response(o["jsonrpc"].s, id, result, error))
    else None
  }

  /** A request reads back from its JSON object unchanged. */
  lemma RequestRoundTrip(r: Request)
    ensures ParseRequest(RequestObject(r)) == Some(r)
  {
  }

  /** A response reads back from its JSON object unchanged. */
  lemma ResponseRoundTrip(r: Response)
    ensures ParseResponse(ResponseObject(r)) == Some(r)
  {
    var o := ResponseObject(r);
    assert o["jsonrpc"] == JString(r.jsonrpc) && o["id"] == IdValue(r.id);
    assert r.result.Some? ==> o["result"] == r.result.value;
  }

  /** Every built response object has exactly one of the members `result`
      and `error`, the version "2.0" and the given id. */
  lemma ResponseObjectMembers(result: Json, id: Option<string>, error: Option<map<string, Json>>)
    ensures var o := ResponseObject(BuildResponse(result, id, error));
      ("result" in o <==> "error" !in o) && ("error" in o <==> error.Some?)
      && o["jsonrpc"] == JString(JSON_RPC_VERSION) && o["id"] == IdValue(id)
  {
    var r := BuildResponse(result, id, error);
    var o := ResponseObject(r);
    assert o["jsonrpc"] == JString(r.jsonrpc) && o["id"] == IdValue(r.id);
  }

  /** Every built request object has the version "2.0", the method, a
      parameter object and a text id. */
  lemma RequestObjectMembers(methodName: string, params: Option<map<string, Json>>, id: Option<string>, freshId: string)
    ensures var o := RequestObject(BuildRequest(methodName, params, id, freshId));
      o["jsonrpc"] == JString(JSON_RPC_VERSION) && o["method"] == JString(methodName)
      && o["params"].JObject? && o["id"].JString?
  {
  }
}
