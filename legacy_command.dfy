/**
 * The command of the root lineage (Command.php). It forwards the path and the
 * parameters the query builder compiled to the connection; `queryOne()` appends
 * the value of a single primary key to the path but, unlike the `src/` command,
 * leaves the filter as it is. The connection's `get`, `post`, `put` and `delete`
 * send one request through the transport and answer the decoded body, or false
 * for a status that is not OK; its `head` answers the response headers whatever
 * the status.
 */
module LegacyCommand {
  import opened Php
  import opened Http
  import RestCommand

  /** The connection's answer: the decoded body of an OK response, false otherwise. */
  function DataOf(resp: Response): (v: Value)
    ensures !IsOk(resp) ==> v == Bool(false)
    ensures IsOk(resp) ==> v == resp.data
  {
    if IsOk(resp) then resp.data else Bool(false)
  }

  /** What `$db->$method(…)` returns: `head()` the response headers whatever the status, the others `DataOf`. */
  function ReplyOf(m: Method, resp: Response): Reply
  {
    if m == HEAD then HeaderCollection(resp.headers) else Data(DataOf(resp))
  }

  /** The primary-key value `queryOne()` appends, when there is one to append. */
  function FoldedKey(primaryKey: Option<seq<string>>, params: Entries): Option<Value>
  {
    if primaryKey.Some? && |primaryKey.value| == 1 && Isset(params, StrKey("filter")) then
      var filter := GetOr(params, StrKey("filter"), Null);
      var k := StrKey(primaryKey.value[0]);
      if filter.Arr? && Isset(filter.entries, k) && !GetOr(filter.entries, k, Null).Arr? then Some(GetOr(filter.entries, k, Null))
      else None
    else None
  }

  /** The path after `queryOne()`: `/$value` appended when a single primary key is set in the filter to a non-array value. */
  function FoldedPath(primaryKey: Option<seq<string>>, path: string, params: Entries): string
  {
    match FoldedKey(primaryKey, params)
    case Some(v) => path + "/" + StrVal(v)
    case None => path
  }

  class Command {
    const transport: Transport
    /** The record class's declared key, or None when the class is empty or does not exist. */
    const primaryKey: Option<seq<string>>
    var pathInfo: string
    var queryParams: Entries

    constructor(transport: Transport, primaryKey: Option<seq<string>>, pathInfo: string, queryParams: Entries)
      ensures this.transport == transport && this.primaryKey == primaryKey
      ensures this.pathInfo == pathInfo && this.queryParams == queryParams
    {
      this.transport := transport;
      this.primaryKey := primaryKey;
      this.pathInfo := pathInfo;
      this.queryParams := queryParams;
    }

    /** `$this->db->$method($path, $data)`: one request, answered by the transport. */
    method Call(m: Method, path: string, data: Entries) returns (r: Reply)
      modifies transport
      ensures transport.log == old(transport.log) + [ClientRequest(m, path, data)]
      ensures r == ReplyOf(m, transport.respond(old(transport.log), ClientRequest(m, path, data)))
    {
      var resp := transport.Send(ClientRequest(m, path, data));
      if m == HEAD {
        return HeaderCollection(resp.headers);
      }
      r := Data(DataOf(resp));
    }

    /** `queryInternal($method)`: path and parameters go to the connection unchanged. */
    method QueryInternal(m: Method) returns (r: Reply)
      modifies transport
      ensures transport.log == old(transport.log) + [ClientRequest(m, pathInfo, queryParams)]
      ensures r == ReplyOf(m, transport.respond(old(transport.log), ClientRequest(m, pathInfo, queryParams)))
    {
      r := Call(m, pathInfo, queryParams);
    }

    /** `queryAll()`. */
    method QueryAll() returns (r: Value)
      modifies transport
      ensures transport.log == old(transport.log) + [ClientRequest(GET, pathInfo, queryParams)]
      ensures r == DataOf(transport.respond(old(transport.log), ClientRequest(GET, pathInfo, queryParams)))
    {
      var reply := QueryInternal(GET);
      r := reply.value;
    }

    /** `queryOne()`: the key's value joins the path; the parameters, filter included, are sent as they were. */
    method QueryOne() returns (r: Value)
      modifies this`pathInfo, transport
      ensures pathInfo == FoldedPath(primaryKey, old(pathInfo), queryParams)
      ensures queryParams == old(queryParams)
      ensures transport.log == old(transport.log) + [ClientRequest(GET, pathInfo, queryParams)]
      ensures r == DataOf(transport.respond(old(transport.log), ClientRequest(GET, pathInfo, queryParams)))
    {
      if primaryKey.Some? && |primaryKey.value| == 1 && Isset(queryParams, StrKey("filter")) {
        var key := StrKey(primaryKey.value[0]);
        var filter := GetOr(queryParams, StrKey("filter"), Null);
        if filter.Arr? && Isset(filter.entries, key) && !GetOr(filter.entries, key, Null).Arr? {
          pathInfo := pathInfo + "/" + StrVal(GetOr(filter.entries, key, Null));
        }
      }
      var reply := QueryInternal(GET);
      r := reply.value;
    }

    /** `execute($method)`. */
    method Execute(m: Method) returns (r: Reply)
      modifies transport
      ensures transport.log == old(transport.log) + [ClientRequest(m, pathInfo, queryParams)]
      ensures r == ReplyOf(m, transport.respond(old(transport.log), ClientRequest(m, pathInfo, queryParams)))
    {
      r := QueryInternal(m);
    }

    /** `insert($model, $columns)`: a POST of the columns to the model's path. */
    method Insert(model: string, columns: Entries) returns (r: Value)
      modifies this`pathInfo, transport
      ensures pathInfo == model
      ensures transport.log == old(transport.log) + [ClientRequest(POST, model, columns)]
      ensures r == DataOf(transport.respond(old(transport.log), ClientRequest(POST, model, columns)))
    {
      pathInfo := model;
      var reply := Call(POST, pathInfo, columns);
      r := reply.value;
    }

    /** `update($model, $data, $id)`: a PUT of the data to the model's path, with `/$id` for a truthy id. */
    method Update(model: string, data: Entries, id: Value) returns (r: Value)
      modifies this`pathInfo, transport
      ensures pathInfo == RestCommand.ElementPath(model, id)
      ensures transport.log == old(transport.log) + [ClientRequest(PUT, pathInfo, data)]
      ensures r == DataOf(transport.respond(old(transport.log), ClientRequest(PUT, pathInfo, data)))
    {
      pathInfo := model;
      if Truthy(id) {
        pathInfo := pathInfo + "/" + StrVal(id);
      }
      var reply := Call(PUT, pathInfo, data);
      r := reply.value;
    }

    /** `delete($model, $id)`: a DELETE with no data to the model's path, with `/$id` for a truthy id. */
    method Delete(model: string, id: Value) returns (r: Value)
      modifies this`pathInfo, transport
      ensures pathInfo == RestCommand.ElementPath(model, id)
      ensures transport.log == old(transport.log) + [ClientRequest(DELETE, pathInfo, [])]
      ensures r == DataOf(transport.respond(old(transport.log), ClientRequest(DELETE, pathInfo, [])))
    {
      pathInfo := model;
      if Truthy(id) {
        pathInfo := pathInfo + "/" + StrVal(id);
      }
      var reply := Call(DELETE, pathInfo, []);
      r := reply.value;
    }
  }

  // --------------------------------------------------------------- lemmas

  /**
   * `execute('head')` sends the parameters as the headers of a HEAD request with
   * no URL parameters and no body, and answers the response headers even for a
   * status that is not OK, where any other method answers false.
   */
  lemma HeadAnswersHeaders(path: string, data: Entries, resp: Response)
    ensures var req := ClientRequest(HEAD, path, data);
      req.headers == data && req.query == [] && req.body == []
    ensures ReplyOf(HEAD, resp) == HeaderCollection(resp.headers)
    ensures !IsOk(resp) ==> forall m :: m != HEAD ==> ReplyOf(m, resp) == Data(Bool(false))
  {
  }

  /** Only HEAD carries data in its headers; GET in the URL, POST, PUT and DELETE in the body. */
  lemma CallDataPlacement(m: Method, path: string, data: Entries)
    requires data != []
    ensures var req := ClientRequest(m, path, data);
      (req.query == data <==> m == GET) && (req.body == data <==> m != GET && m != HEAD) && (req.headers == data <==> m == HEAD)
  {
  }

  /** A single key set in the filter to a scalar is appended to the path, whatever its truthiness. */
  lemma FoldAppendsScalarKey(pk: string, path: string, params: Entries, filter: Entries, v: Value)
    requires Get(params, StrKey("filter")) == Some(Arr(filter))
    requires Get(filter, StrKey(pk)) == Some(v) && v != Null && !v.Arr?
    ensures FoldedPath(Some([pk]), path, params) == path + "/" + StrVal(v)
  {
  }

  /** A composite key, a missing filter, or a key that is unset or an array in the filter leaves the path alone. */
  lemma FoldLeavesPath(primaryKey: Option<seq<string>>, path: string, params: Entries)
    requires primaryKey.None? || |primaryKey.value| != 1 || !Isset(params, StrKey("filter"))
      || (var filter := GetOr(params, StrKey("filter"), Null);
          filter.Arr? && (!Isset(filter.entries, StrKey(primaryKey.value[0])) || GetOr(filter.entries, StrKey(primaryKey.value[0]), Null).Arr?))
    ensures FoldedPath(primaryKey, path, params) == path
  {
  }

  /** The path grows exactly when a key value is folded, and then by `/` and that value's text. */
  lemma FoldedPathExtends(primaryKey: Option<seq<string>>, path: string, params: Entries)
    ensures FoldedKey(primaryKey, params).Some? <==> FoldedPath(primaryKey, path, params) != path
    ensures FoldedKey(primaryKey, params).Some? ==>
      FoldedPath(primaryKey, path, params)[..|path|] == path
      && FoldedPath(primaryKey, path, params)[|path|..] == "/" + StrVal(FoldedKey(primaryKey, params).value)
  {
    if FoldedKey(primaryKey, params).Some? {
      var p := FoldedPath(primaryKey, path, params);
      assert |p| > |path|;
    }
  }

  /**
   * With a key value of 0 this command asks for `rest-models/0` and keeps the
   * filter, while the `src/` command keeps `rest-models` and drops the key from it.
   */
  lemma ZeroKeyDiffersFromSrc()
    ensures var params := [(StrKey("filter"), Single("id", Int(0)))];
      FoldedPath(Some(["id"]), "rest-models", params) == "rest-models/0"
      && RestCommand.FoldPrimaryKey(Some(["id"]), "rest-models", params) == ("rest-models", [(StrKey("filter"), Arr([]))])
  {
    var filter := [(StrKey("id"), Int(0))];
    var params := [(StrKey("filter"), Arr(filter))];
    assert Get(params, StrKey("filter")) == Some(Arr(filter));
    assert Get(filter, StrKey("id")) == Some(Int(0));
    assert StrVal(Int(0)) == [DigitChar(0)] == "0";
    assert "rest-models" + "/" + "0" == "rest-models/0";
    assert Delete(filter, StrKey("id")) == [];
    assert Put(params, StrKey("filter"), Arr([])) == [(StrKey("filter"), Arr([]))];
  }
}
