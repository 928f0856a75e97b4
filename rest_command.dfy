/**
 * The command of the `src/` lineage (src/Command.php): it holds the path and the
 * parameters a query builder compiled, folds a single primary key into the path,
 * unwraps the `filter` parameter when the connection does not use the filter
 * keyword, consults the query cache, sends the request and stores the result.
 */
module RestCommand {
  import opened Php
  import opened Http
  import opened RestConnection

  /** `__CLASS__` of the command, the first element of every cache key. */
  const CommandClass: string := "simialbi\\yii2\\rest\\Command"

  /** `getCacheKey($method)`: the class, the method, the path and the parameters. */
  function CacheKey(m: Method, path: string, params: Entries): (key: Value)
    ensures key.Arr? && |key.entries| == 4
    ensures key.entries[1].1 == Str(MethodName(m)) && key.entries[2].1 == Str(path) && key.entries[3].1 == Arr(params)
  {
    List([Str(CommandClass), Str(MethodName(m)), Str(path), Arr(params)])
  }

  /** `$model`, followed by `/$id` when the id is truthy: the path of `update()` and `delete()`. */
  function ElementPath(model: string, id: Value): string
  {
    if Truthy(id) then model + "/" + StrVal(id) else model
  }

  /**
   * The path and parameters after the primary-key folding of `queryOne()`: with a
   * single primary key and a set `filter` parameter, the key is removed from the
   * filter, and its value, when truthy, is appended to the path.
   */
  function FoldPrimaryKey(primaryKey: Option<seq<string>>, path: string, params: Entries): (r: (string, Entries))
    ensures FilterIsArray(params) ==> FilterIsArray(r.1)
  {
    if primaryKey.Some? && |primaryKey.value| == 1 && Isset(params, StrKey("filter")) then
      var filter := GetOr(params, StrKey("filter"), Null);
      if filter.Arr? then
        var (current, rest) := Remove(filter.entries, StrKey(primaryKey.value[0]), Null);
        PutGet(params, StrKey("filter"), Arr(rest), StrKey("filter"));
        (if Truthy(current) then path + "/" + StrVal(current) else path, Put(params, StrKey("filter"), Arr(rest)))
      else (path, params)
    else (path, params)
  }

  /** The `filter` parameter is absent or an array, as `array_merge` needs when it is unwrapped. */
  predicate FilterIsArray(params: Entries)
  {
    GetOr(params, StrKey("filter"), Arr([])).Arr?
  }

  /** Without the filter keyword, the entries of `filter` are merged into the top level of the parameters. */
  function UnwrapFilter(useFilterKeyword: bool, params: Entries): Entries
    requires !useFilterKeyword ==> FilterIsArray(params)
  {
    if useFilterKeyword then params
    else
      var (filter, rest) := Remove(params, StrKey("filter"), Arr([]));
      Merge(rest, filter.entries)
  }

  /** A stored array `[$result]` is served only when its entry 0 is set, that is, not null. */
  predicate IsHit(stored: seq<Reply>)
  {
    |stored| > 0 && stored[0] != Data(Null)
  }

  /** The position of the last `c` in `s` (`strrpos`), or None when there is none. */
  function LastIndex(s: string, c: char): (r: Option<nat>)
    ensures r.None? <==> !Contains(s, c)
    ensures r.Some? ==> r.value < |s| && s[r.value] == c && forall j :: r.value < j < |s| ==> s[j] != c
  {
    if s == [] then None
    else if s[|s| - 1] == c then Some(|s| - 1)
    else
      var r := LastIndex(s[..|s| - 1], c);
      assert forall j :: 0 <= j < |s| - 1 ==> s[..|s| - 1][j] == s[j];
      r
  }

  /**
   * `keyExists($key, $r)` followed by `$r[$key]`: the entry of an array, or the
   * first value of a header of the collection, whose name is matched ignoring case.
   */
  function EntryAt(r: Reply, key: string): Option<Value>
  {
    match r
    case Data(v) => if v.Arr? then Get(v.entries, StrKey(key)) else None
    case HeaderCollection(h) =>
      match Header(h, key)
      case Some(s) => Some(Str(s))
      case None => None
  }

  /**
   * `ArrayHelper::getValue($r, $key, [])`: the entry named `key`; failing that,
   * when the key holds a '.', the entry named by what follows the last '.' in
   * the value the part before it reads; failing that, [].
   */
  function ValueAt(r: Reply, key: string): Value
    decreases |key|
  {
    match EntryAt(r, key)
    case Some(v) => v
    case None =>
      match LastIndex(key, '.')
      case None => Arr([])
      case Some(p) =>
        match EntryAt(Data(ValueAt(r, key[..p])), key[p + 1..])
        case Some(v) => v
        case None => Arr([])
  }

  /** The result after `itemsProperty` is applied: the value the property's path reads in the reply, else []. */
  function Items(itemsProperty: string, result: Outcome<Reply>): Outcome<Reply>
  {
    if IsEmpty(Str(itemsProperty)) || result.Err? then result
    else Ok(Data(ValueAt(result.value, itemsProperty)))
  }

  /** `$db->$method($path, $params)`: GET and HEAD put the parameters in the URL, the others in the body. */
  function QueryOf(m: Method, params: Entries): Entries
  {
    if m == GET || m == HEAD then params else []
  }

  function BodyOf(m: Method, params: Entries): Entries
  {
    if m == GET || m == HEAD then [] else params
  }

  function DataReply(o: Outcome<Value>): (r: Outcome<Reply>)
    ensures r.Ok? <==> o.Ok?
    ensures r.Ok? ==> r.value == Data(o.value)
    ensures r.Err? ==> r.thrown == o.thrown
  {
    match o
    case Ok(v) => Ok(Data(v))
    case Err(t) => Err(t)
  }

  function HeadReply(o: Outcome<seq<(string, string)>>): (r: Outcome<Reply>)
    ensures r.Ok? <==> o.Ok?
    ensures r.Ok? ==> r.value == HeaderCollection(o.value)
    ensures r.Err? ==> r.thrown == o.thrown
  {
    match o
    case Ok(h) => Ok(HeaderCollection(h))
    case Err(t) => Err(t)
  }

  /** What `$db->$method($path, $params)` answers after `log`: `head()` gives the header collection, the others data. */
  function Replied(db: Connection, m: Method, path: string, params: Entries, log: seq<Request>): Outcome<Reply>
  {
    if m == HEAD then HeadReply(db.HeadAnswer(path, params, log))
    else DataReply(db.Answer(m, path, QueryOf(m, params), BodyOf(m, params), log))
  }

  /** The contents of the cache component, or nothing when there is none. */
  function StoreOf(c: Cache?): map<Value, seq<Reply>>
    reads c
  {
    if c == null then map[] else c.store
  }

  /**
   * What `queryInternal()` does once the path and parameters are final: with cache
   * settings and a hit, the cached result is returned and nothing is sent; otherwise
   * the request is sent, `itemsProperty` applied, and with cache settings a result
   * that did not throw is stored wrapped in a one-element list.
   */
  predicate Served(db: Connection, m: Method, path: string, params: Entries, info: Option<CacheInfo>,
                   store: map<Value, seq<Reply>>, log: seq<Request>,
                   store': map<Value, seq<Reply>>, log': seq<Request>, r: Outcome<Reply>)
  {
    var key := CacheKey(m, path, params);
    if info.Some? && key in store && IsHit(store[key]) then
      r == Ok(store[key][0]) && log' == log && store' == store
    else
      var out := Items(db.itemsProperty, Replied(db, m, path, params, log));
      r == out
      && log' == db.Sent(m, path, QueryOf(m, params), BodyOf(m, params), log)
      && store' == if info.Some? && out.Ok? then store[key := [out.value]] else store
  }

  class Command {
    const db: Connection
    /** The record class; `primaryKey` is its declared key, or None when the class is empty or does not exist. */
    const modelClass: string
    const primaryKey: Option<seq<string>>
    var pathInfo: string
    var queryParams: Entries
    var queryCacheDuration: Option<int>
    var queryCacheDependency: Option<Dependency>

    constructor(db: Connection, modelClass: string, primaryKey: Option<seq<string>>, pathInfo: string, queryParams: Entries)
      ensures this.db == db && this.modelClass == modelClass && this.primaryKey == primaryKey
      ensures this.pathInfo == pathInfo && this.queryParams == queryParams
      ensures queryCacheDuration == None && queryCacheDependency == None
    {
      this.db := db;
      this.modelClass := modelClass;
      this.primaryKey := primaryKey;
      this.pathInfo := pathInfo;
      this.queryParams := queryParams;
      queryCacheDuration := None;
      queryCacheDependency := None;
    }

    /** `cache($duration, $dependency)`: a missing duration takes the connection's default. */
    method Cache(duration: Option<int>, dependency: Option<Dependency>)
      modifies this`queryCacheDuration, this`queryCacheDependency
      ensures queryCacheDuration == Some(if duration.None? then db.queryCacheDuration else duration.value)
      ensures queryCacheDependency == dependency
    {
      queryCacheDuration := Some(if duration.None? then db.queryCacheDuration else duration.value);
      queryCacheDependency := dependency;
    }

    /** `noCache()`: a negative duration, which `getQueryCacheInfo` turns into no cache settings. */
    method NoCache()
      modifies this`queryCacheDuration
      ensures queryCacheDuration == Some(-1)
      ensures db.GetQueryCacheInfo(queryCacheDuration, queryCacheDependency) == None
    {
      queryCacheDuration := Some(-1);
    }

    /**
     * `queryInternal($method)`: pluralise the path, unwrap the filter, then answer
     * from the cache or from the server as `Served` describes.
     */
    method QueryInternal(m: Method) returns (r: Outcome<Reply>)
      requires !db.useFilterKeyword ==> FilterIsArray(queryParams)
      modifies this`pathInfo, this`queryParams, db.transport, db.queryCache
      ensures pathInfo == db.PluralisedPath(old(pathInfo))
      ensures queryParams == UnwrapFilter(db.useFilterKeyword, old(queryParams))
      ensures Served(db, m, pathInfo, queryParams, db.GetQueryCacheInfo(queryCacheDuration, queryCacheDependency),
                     old(StoreOf(db.queryCache)), old(db.transport.log), StoreOf(db.queryCache), db.transport.log, r)
    {
      if db.usePluralisation && !Contains(pathInfo, '/') {
        pathInfo := db.pluralize(pathInfo);
      }
      if !db.useFilterKeyword {
        var (filter, rest) := Remove(queryParams, StrKey("filter"), Arr([]));
        queryParams := Merge(rest, filter.entries);
      }
      r := Serve(m);
    }

    /** The cache lookup, the request and the cache store of `queryInternal()`, for the final path and parameters. */
    method Serve(m: Method) returns (r: Outcome<Reply>)
      modifies db.transport, db.queryCache
      ensures Served(db, m, pathInfo, queryParams, db.GetQueryCacheInfo(queryCacheDuration, queryCacheDependency),
                     old(StoreOf(db.queryCache)), old(db.transport.log), StoreOf(db.queryCache), db.transport.log, r)
    {
      var info := db.GetQueryCacheInfo(queryCacheDuration, queryCacheDependency);
      var key := CacheKey(m, pathInfo, queryParams);
      if info.Some? {
        var stored := info.value.cache.Get(key);
        if stored.Some? && |stored.value| > 0 && stored.value[0] != Data(Null) {
          return Ok(stored.value[0]);
        }
      }
      var result := Fetch(m);
      if info.Some? && result.Ok? {
        info.value.cache.Set(key, [result.value], info.value.duration, info.value.dependency);
      }
      r := result;
    }

    /** The request of `queryInternal()` with `itemsProperty` applied to its answer. */
    method Fetch(m: Method) returns (r: Outcome<Reply>)
      modifies db.transport
      ensures db.transport.log == db.Sent(m, pathInfo, QueryOf(m, queryParams), BodyOf(m, queryParams), old(db.transport.log))
      ensures r == Items(db.itemsProperty, Replied(db, m, pathInfo, queryParams, old(db.transport.log)))
    {
      r := Send(m);
      if Truthy(Str(db.itemsProperty)) && r.Ok? {
        r := Ok(Data(ValueAt(r.value, db.itemsProperty)));
      }
    }

    /** `$this->db->$method($this->pathInfo, $this->queryParams)`. */
    method Send(m: Method) returns (r: Outcome<Reply>)
      modifies db.transport
      ensures db.transport.log == db.Sent(m, pathInfo, QueryOf(m, queryParams), BodyOf(m, queryParams), old(db.transport.log))
      ensures r == Replied(db, m, pathInfo, queryParams, old(db.transport.log))
    {
      match m {
        case GET =>
          var v := db.Get(pathInfo, queryParams);
          r := DataReply(v);
        case HEAD =>
          var h := db.Head(pathInfo, queryParams);
          r := HeadReply(h);
        case POST =>
          var v := db.Post(pathInfo, queryParams);
          r := DataReply(v);
        case PUT =>
          var v := db.Put(pathInfo, queryParams);
          r := DataReply(v);
        case DELETE =>
          var v := db.Delete(pathInfo, queryParams);
          r := DataReply(v);
      }
    }

    /** `queryAll()`. */
    method QueryAll() returns (r: Outcome<Reply>)
      requires !db.useFilterKeyword ==> FilterIsArray(queryParams)
      modifies this`pathInfo, this`queryParams, db.transport, db.queryCache
      ensures pathInfo == db.PluralisedPath(old(pathInfo))
      ensures queryParams == UnwrapFilter(db.useFilterKeyword, old(queryParams))
      ensures Served(db, GET, pathInfo, queryParams, db.GetQueryCacheInfo(queryCacheDuration, queryCacheDependency),
                     old(StoreOf(db.queryCache)), old(db.transport.log), StoreOf(db.queryCache), db.transport.log, r)
    {
      r := QueryInternal(GET);
    }

    /** `queryOne()`: fold a single primary key into the path, then query as `queryAll()` does. */
    method QueryOne() returns (r: Outcome<Reply>)
      requires !db.useFilterKeyword ==> FilterIsArray(queryParams)
      modifies this`pathInfo, this`queryParams, db.transport, db.queryCache
      ensures var (path, params) := FoldPrimaryKey(primaryKey, old(pathInfo), old(queryParams));
        pathInfo == db.PluralisedPath(path) && queryParams == UnwrapFilter(db.useFilterKeyword, params)
      ensures Served(db, GET, pathInfo, queryParams, db.GetQueryCacheInfo(queryCacheDuration, queryCacheDependency),
                     old(StoreOf(db.queryCache)), old(db.transport.log), StoreOf(db.queryCache), db.transport.log, r)
    {
      var (path, params) := FoldPrimaryKey(primaryKey, pathInfo, queryParams);
      pathInfo, queryParams := path, params;
      r := QueryInternal(GET);
    }

    /** `execute($method)`. */
    method Execute(m: Method) returns (r: Outcome<Reply>)
      requires !db.useFilterKeyword ==> FilterIsArray(queryParams)
      modifies this`pathInfo, this`queryParams, db.transport, db.queryCache
      ensures pathInfo == db.PluralisedPath(old(pathInfo))
      ensures queryParams == UnwrapFilter(db.useFilterKeyword, old(queryParams))
      ensures Served(db, m, pathInfo, queryParams, db.GetQueryCacheInfo(queryCacheDuration, queryCacheDependency),
                     old(StoreOf(db.queryCache)), old(db.transport.log), StoreOf(db.queryCache), db.transport.log, r)
    {
      r := QueryInternal(m);
    }

    /** `insert($model, $columns)`: a POST of the columns to the model's path, bypassing the cache. */
    method Insert(model: string, columns: Entries) returns (r: Outcome<Value>)
      modifies this`pathInfo, db.transport
      ensures pathInfo == model
      ensures db.transport.log == db.Sent(POST, model, [], columns, old(db.transport.log))
      ensures r == db.Answer(POST, model, [], columns, old(db.transport.log))
    {
      pathInfo := model;
      r := db.Post(pathInfo, columns);
    }

    /** `update($model, $data, $id)`: a PUT of the data to the element's path. */
    method Update(model: string, data: Entries, id: Value) returns (r: Outcome<Value>)
      modifies this`pathInfo, db.transport
      ensures pathInfo == ElementPath(model, id)
      ensures db.transport.log == db.Sent(PUT, pathInfo, [], data, old(db.transport.log))
      ensures r == db.Answer(PUT, pathInfo, [], data, old(db.transport.log))
    {
      pathInfo := model;
      if Truthy(id) {
        pathInfo := pathInfo + "/" + StrVal(id);
      }
      r := db.Put(pathInfo, data);
    }

    /** `delete($model, $id)`: a DELETE with no data to the element's path. */
    method Delete(model: string, id: Value) returns (r: Outcome<Value>)
      modifies this`pathInfo, db.transport
      ensures pathInfo == ElementPath(model, id)
      ensures db.transport.log == db.Sent(DELETE, pathInfo, [], [], old(db.transport.log))
      ensures r == db.Answer(DELETE, pathInfo, [], [], old(db.transport.log))
    {
      pathInfo := model;
      if Truthy(id) {
        pathInfo := pathInfo + "/" + StrVal(id);
      }
      r := db.Delete(pathInfo, []);
    }
  }

  // --------------------------------------------------------------- lemmas

  /**
   * With a single primary key and a truthy value for it in the filter, the value
   * moves into the path and out of the filter; every other filter entry stays.
   */
  lemma FoldMovesKeyIntoPath(pk: string, path: string, params: Entries, filter: Entries, id: Value)
    requires Get(params, StrKey("filter")) == Some(Arr(filter))
    requires Get(filter, StrKey(pk)) == Some(id) && Truthy(id)
    ensures var (path', params') := FoldPrimaryKey(Some([pk]), path, params);
      path' == path + "/" + StrVal(id)
      && Get(params', StrKey("filter")) == Some(Arr(Delete(filter, StrKey(pk))))
      && forall k :: k != StrKey(pk) ==> Get(Delete(filter, StrKey(pk)), k) == Get(filter, k)
  {
    PutGet(params, StrKey("filter"), Arr(Delete(filter, StrKey(pk))), StrKey("filter"));
    forall k | k != StrKey(pk)
      ensures Get(Delete(filter, StrKey(pk)), k) == Get(filter, k)
    {
      DeleteGet(filter, StrKey(pk), k);
    }
  }

  /** A falsy key value (such as 0) is removed from the filter all the same, but the path stays the collection's. */
  lemma FoldDropsFalsyKey(pk: string, path: string, params: Entries, filter: Entries, id: Value)
    requires Get(params, StrKey("filter")) == Some(Arr(filter))
    requires Get(filter, StrKey(pk)) == Some(id) && !Truthy(id)
    ensures var (path', params') := FoldPrimaryKey(Some([pk]), path, params);
      path' == path && Get(params', StrKey("filter")) == Some(Arr(Delete(filter, StrKey(pk))))
      && StrKey(pk) !in KeysOf(Delete(filter, StrKey(pk)))
  {
    PutGet(params, StrKey("filter"), Arr(Delete(filter, StrKey(pk))), StrKey("filter"));
  }

  /** A composite key, or no filter, leaves path and parameters as they are. */
  lemma FoldNeedsSingleKeyAndFilter(primaryKey: Option<seq<string>>, path: string, params: Entries)
    requires primaryKey.None? || |primaryKey.value| != 1 || !Isset(params, StrKey("filter"))
    ensures FoldPrimaryKey(primaryKey, path, params) == (path, params)
  {
  }

  /** `RestModel::findOne(1)` and `where(['id' => 1])->one()` fold into `rest-models/1` with an empty filter. */
  lemma FindOneByIdFoldsIntoPath()
    ensures FoldPrimaryKey(Some(["id"]), "rest-models", [(StrKey("filter"), Single("id", Int(1)))])
         == ("rest-models/1", [(StrKey("filter"), Arr([]))])
  {
    var filter := [(StrKey("id"), Int(1))];
    var params := [(StrKey("filter"), Arr(filter))];
    assert Get(params, StrKey("filter")) == Some(Arr(filter));
    assert Get(filter, StrKey("id")) == Some(Int(1));
    assert Delete(filter, StrKey("id")) == [];
    assert Put(params, StrKey("filter"), Arr([])) == [(StrKey("filter"), Arr([]))];
    assert StrVal(Int(1)) == [DigitChar(1)] == "1";
    assert "rest-models" + "/" + "1" == "rest-models/1";
  }

  /** Unwrapping merges the filter's entries in place of the `filter` parameter, string keys overwriting. */
  lemma UnwrapFilterMergesEntries(params: Entries, s: string)
    requires FilterIsArray(params) && s != "filter"
    ensures var f := GetOr(params, StrKey("filter"), Arr([])).entries;
      var u := UnwrapFilter(false, params);
      Get(u, StrKey("filter")) == LastGet(f, StrKey("filter"))
      && Get(u, StrKey(s)) == if StrKey(s) in KeysOf(f) then LastGet(f, StrKey(s)) else LastGet(Delete(params, StrKey("filter")), StrKey(s))
  {
    var f := GetOr(params, StrKey("filter"), Arr([])).entries;
    var rest := Delete(params, StrKey("filter"));
    MergeOverwrites(rest, f, "filter");
    MergeOverwrites(rest, f, s);
    if StrKey("filter") !in KeysOf(f) {
      LastGetDeleted(rest, StrKey("filter"));
    }
  }

  lemma LastGetDeleted(es: Entries, k: Key)
    requires k !in KeysOf(es)
    ensures LastGet(es, k) == None
  {
    forall i | 0 <= i < |es|
      ensures es[i].0 != k
    {
      assert KeysOf(es)[i] == es[i].0;
    }
  }

  /** With the filter keyword off, `filter[name]=John` is sent as `name=John`. */
  lemma UnwrapFilterWithoutKeyword()
    ensures UnwrapFilter(false, [(StrKey("filter"), Single("name", Str("John")))]) == [(StrKey("name"), Str("John"))]
  {
  }

  /** The cache stores `[result]`, which is served again only when the result is not null; a header collection always is. */
  lemma StoredResultIsHit(v: Reply)
    ensures IsHit([v]) <==> v != Data(Null)
    ensures v.HeaderCollection? ==> IsHit([v])
  {
  }

  /**
   * A result stored by one call is served by the next call with the same key and
   * cache settings, without a request: this holds for a `false` result of a failed
   * request too.
   */
  lemma SecondCallServedFromCache(db: Connection, m: Method, path: string, params: Entries, info: Option<CacheInfo>,
                                  store0: map<Value, seq<Reply>>, log0: seq<Request>,
                                  store1: map<Value, seq<Reply>>, log1: seq<Request>, r1: Outcome<Reply>,
                                  store2: map<Value, seq<Reply>>, log2: seq<Request>, r2: Outcome<Reply>)
    requires info.Some?
    requires Served(db, m, path, params, info, store0, log0, store1, log1, r1)
    requires Served(db, m, path, params, info, store1, log1, store2, log2, r2)
    requires r1.Ok? && r1.value != Data(Null)
    ensures r2 == r1 && log2 == log1 && store2 == store1
  {
    var key := CacheKey(m, path, params);
    if key in store0 && IsHit(store0[key]) {
      assert store1 == store0;
    } else {
      assert store1[key] == [r1.value];
    }
  }

  /**
   * `execute('head')` outside test mode sends the parameters in the URL of a HEAD
   * request without an Authorization header, and answers the response's header
   * collection, whatever the status, unless exceptions are on and the status is
   * not OK.
   */
  lemma HeadRepliesHeaders(db: Connection, path: string, params: Entries, log: seq<Request>)
    requires !db.isTestMode
    ensures var req := db.RequestFor(HEAD, path, params, []);
      var resp := db.transport.respond(log, req);
      db.Sent(HEAD, path, QueryOf(HEAD, params), BodyOf(HEAD, params), log) == log + [req]
      && req.query == params && req.body == [] && Get(req.headers, StrKey("Authorization")).None?
      && (Replied(db, HEAD, path, params, log).Err? <==> !IsOk(resp) && db.enableExceptions)
      && (Replied(db, HEAD, path, params, log).Ok? ==> Replied(db, HEAD, path, params, log).value == HeaderCollection(resp.headers))
  {
  }

  /** In test mode a HEAD command has no response to read headers from, and throws without sending anything. */
  lemma HeadInTestModeThrows(db: Connection, path: string, params: Entries, log: seq<Request>)
    requires db.isTestMode
    ensures Replied(db, HEAD, path, params, log).Err?
    ensures db.Sent(HEAD, path, QueryOf(HEAD, params), BodyOf(HEAD, params), log) == log
  {
  }

  /** Every value `getValue` reads from a header collection is a header's text or the default []. */
  lemma {:induction false} HeaderValueShape(h: seq<(string, string)>, key: string)
    ensures ValueAt(HeaderCollection(h), key).Str? || ValueAt(HeaderCollection(h), key) == Arr([])
    decreases |key|
  {
    if EntryAt(HeaderCollection(h), key).None? && LastIndex(key, '.').Some? {
      var p := LastIndex(key, '.').value;
      HeaderValueShape(h, key[..p]);
    }
  }

  /**
   * `itemsProperty` applied to a HEAD reply reads the header it names, matched
   * ignoring case, or [] when there is no such header, a '.' in the name included.
   */
  lemma ItemsOfHeaders(itemsProperty: string, h: seq<(string, string)>)
    requires Truthy(Str(itemsProperty))
    ensures Items(itemsProperty, Ok(HeaderCollection(h))) ==
      Ok(Data(match Header(h, itemsProperty) case Some(s) => Str(s) case None => Arr([])))
  {
    if Header(h, itemsProperty).None? {
      match LastIndex(itemsProperty, '.')
      case None =>
      case Some(p) =>
        HeaderValueShape(h, itemsProperty[..p]);
    }
  }

  /** A property name without '.' reads the entry of that name in an array result, or [] without one. */
  lemma ItemsFlatKey(itemsProperty: string, v: Value)
    requires Truthy(Str(itemsProperty)) && !Contains(itemsProperty, '.')
    ensures Items(itemsProperty, Ok(Data(v))) ==
      Ok(Data(if v.Arr? then GetOr(v.entries, StrKey(itemsProperty), Arr([])) else Arr([])))
  {
  }

  /** With `itemsProperty` `data.items`, a result `{data: {items: x}}` is replaced by x. */
  lemma ItemsDottedPath(x: Value)
    ensures Items("data.items", Ok(Data(Single("data", Single("items", x))))) == Ok(Data(x))
  {
    var key := "data.items";
    var r := Data(Single("data", Single("items", x)));
    assert key[4] == '.' && key[..4] == "data" && key[5..] == "items";
    assert forall j :: 4 < j < |key| ==> key[j] != '.';
    assert LastIndex(key, '.') == Some(4);
    assert EntryAt(r, key).None?;
    assert EntryAt(r, "data") == Some(Single("items", x));
    assert ValueAt(r, "data") == Single("items", x);
  }

  /** The paths of `update()` and `delete()`: the model alone when the id is falsy, `model/id` otherwise. */
  lemma ElementPathShape(model: string, id: Value)
    ensures !Truthy(id) ==> ElementPath(model, id) == model
    ensures Truthy(id) ==> ElementPath(model, id)[..|model|] == model && ElementPath(model, id)[|model|..] == "/" + StrVal(id)
  {
  }
}
