/**
 * The query of the root lineage (ActiveQuery.php). It keeps the selected
 * fields, the conditions, the limit and the offset, sends them under a `query`
 * data key to the record class's collection URL, and turns the answer into
 * records: a list body gives one record per element, an associative body is
 * either unwrapped from the collection envelope (with the pagination envelope
 * remembered) or taken as one record. `count()` answers from the remembered
 * pagination, from a header of a HEAD request, or from one probing sub-query
 * that is flagged so that it cannot probe again.
 */
module LegacyActiveQuery {
  import opened Php
  import opened Http
  import opened LegacyActiveRecord

  /** `$selectFieldsKey`. */
  const SelectFieldsKey: string := "fields"
  /** `$responseHeaders['totalCount']`. */
  const TotalCountHeader: string := "X-Pagination-Total-Count"

  datatype UrlType = Base | Api | Collection | Element

  /** The records `populate` returns: a list of them, or a single one. */
  datatype Models = ManyRecords(records: seq<Record>) | OneRecord(record: Record)
  {
    function Objects(): seq<Record>
    {
      if ManyRecords? then records else [record]
    }
  }

  /** What the body holds for the records: a list of elements, or the element of a single record. */
  datatype Shape = ListOf(elements: seq<Value>) | OneOf(element: Value)

  predicate EndsWithSlash(s: string)
  {
    |s| > 0 && s[|s| - 1] == '/'
  }

  /** `trailingSlash($s, $add)`: make sure there is a trailing slash, or remove one. */
  function TrailingSlash(s: string, add: bool): string
  {
    if EndsWithSlash(s) then (if add then s else s[..|s| - 1])
    else (if add then s + "/" else s)
  }

  /** `getUrl($type, $id)`. */
  function Url(cls: ModelClass, t: UrlType, id: string): string
  {
    match t
    case Api => TrailingSlash(cls.apiUrl, true)
    case Collection => TrailingSlash(cls.resourceName, false)
    case Element => TrailingSlash(cls.resourceName, true) + TrailingSlash(id, false)
    case Base => ""
  }

  /** `is_numeric($v) ? (int) $v : $v`. */
  function Numeric(v: Value): Value
  {
    if IsNumeric(v) then Int(IntCast(v)) else v
  }

  /** The conditions copied entry by entry, numeric values cast to integers. */
  function WhereParams(where: Entries): Entries
  {
    if where == [] then []
    else
      var (k, v) := where[|where| - 1];
      Put(WhereParams(where[..|where| - 1]), k, Numeric(v))
  }

  /** `buildQueryParams()`: the conditions, then the fields, the limit and the offset when present. */
  function QueryParams(cls: ModelClass, where: Entries, select: Entries, limit: Option<int>, offset: Option<int>): Entries
  {
    var q0 := WhereParams(where);
    var q1 := if |select| > 0 then Put(q0, StrKey(SelectFieldsKey), Str(Implode(",", StrVals(ValuesOf(select))))) else q0;
    var q2 := if limit.Some? then Put(q1, StrKey(cls.limitKey), Int(limit.value)) else q1;
    if offset.Some? then Put(q2, StrKey(cls.offsetKey), Int(offset.value)) else q2
  }

  /** The value `setPagination` stores for a server-side name: the value when set, else null. */
  function PageValue(source: Entries, name: string): Value
  {
    if Isset(source, StrKey(name)) then GetOr(source, StrKey(name), Null) else Null
  }

  /** `setPagination($source)`: every mapped key written in turn. */
  function Paginated(p: Entries, keys: seq<(string, string)>, source: Entries): Entries
  {
    if keys == [] then p
    else
      var (key, name) := keys[|keys| - 1];
      Put(Paginated(p, keys[..|keys| - 1], source), StrKey(key), PageValue(source, name))
  }

  /** The server-side name of the last mapping for `key`. */
  function LastName(keys: seq<(string, string)>, key: string): Option<string>
  {
    if keys == [] then None
    else if keys[|keys| - 1].0 == key then Some(keys[|keys| - 1].1)
    else LastName(keys[..|keys| - 1], key)
  }

  /** The count the remembered pagination gives. */
  function TotalCount(p: Entries): int
  {
    if Isset(p, StrKey("totalCount")) then IntCast(GetOr(p, StrKey("totalCount"), Null)) else 0
  }

  /** `(int) $count` for the header value, null when the header is missing. */
  function HeaderCount(header: Option<string>): int
  {
    if header.Some? then IntCastString(header.value) else 0
  }

  /** The exception `populate` throws for a status of 400 or more: the body, or its `message`. */
  function HttpError(data: Value): Thrown
  {
    Thrown("HttpException", if data.Str? then data.s else if data.Arr? then StrVal(GetOr(data.entries, StrKey("message"), Null)) else "")
  }

  const PaginationTypeError: Thrown := Thrown("TypeError", "setPagination(): Argument #1 ($pagination) must be of type array")
  const ElementsTypeError: Thrown := Thrown("TypeError", "createModels(): Argument #1 ($elements) must be of type array")

  /** The pagination data `populate` finds: in an associative collection body, under the pagination envelope. */
  function PaginationData(cls: ModelClass, data: Value, asCollection: bool): Option<Value>
  {
    if data.Arr? && IsAssociative(data) && asCollection then
      var rest := if Truthy(Str(cls.collectionEnvelope)) then Delete(data.entries, StrKey(cls.collectionEnvelope)) else data.entries;
      if Truthy(Str(cls.paginationEnvelope)) && Isset(rest, StrKey(cls.paginationEnvelope))
      then Some(GetOr(rest, StrKey(cls.paginationEnvelope), Null))
      else None
    else None
  }

  /** The elements `populate` turns into records. */
  function ElementsOf(cls: ModelClass, data: Value, asCollection: bool): Outcome<Shape>
  {
    if !data.Arr? then Ok(ListOf([]))
    else if !IsAssociative(data) then Ok(ListOf(ValuesOf(data.entries)))
    else if asCollection then
      var elements := if Truthy(Str(cls.collectionEnvelope)) then GetOr(data.entries, StrKey(cls.collectionEnvelope), Arr([])) else Arr([]);
      if elements.Arr? then Ok(ListOf(ValuesOf(elements.entries))) else Err(ElementsTypeError)
    else Ok(OneOf(data))
  }

  /** Each record was built from the matching element, as `new $modelClass(ArrayHelper::toArray($element))`. */
  predicate Built(cls: ModelClass, models: seq<Record>, elements: seq<Value>)
    reads models
  {
    |models| == |elements|
    && forall i :: 0 <= i < |models| ==> models[i].cls == cls && models[i].attributes == Admitted(cls, ToArray(elements[i]))
  }

  /**
   * `populate($response, $asCollection)`, from the pagination `p0` before to the
   * pagination `p1` after and the result `r`.
   */
  predicate Populated(cls: ModelClass, p0: Entries, resp: Response, asCollection: bool, p1: Entries, r: Outcome<Models>)
    reads if r.Ok? then r.value.Objects() else []
  {
    if resp.status >= 400 then r == Err(HttpError(resp.data)) && p1 == p0
    else
      var pd := PaginationData(cls, resp.data, asCollection);
      if pd.Some? && !pd.value.Arr? then r == Err(PaginationTypeError) && p1 == p0
      else
        p1 == (if pd.Some? then Paginated(p0, cls.paginationEnvelopeKeys, pd.value.entries) else p0)
        && match ElementsOf(cls, resp.data, asCollection)
           case Err(e) => r == Err(e)
           case Ok(ListOf(es)) => r.Ok? && r.value.ManyRecords? && Built(cls, r.value.records, es)
           case Ok(OneOf(e)) => r.Ok? && r.value.OneRecord? && Built(cls, [r.value.record], [e])
  }

  /** The count the probing sub-query ends with: the remembered total of its pagination, or 0. */
  function ProbeCount(cls: ModelClass, p0: Entries, resp: Response): Outcome<int>
  {
    if resp.status >= 400 then Err(HttpError(resp.data))
    else
      var pd := PaginationData(cls, resp.data, true);
      if pd.Some? && !pd.value.Arr? then Err(PaginationTypeError)
      else
        var p1 := if pd.Some? then Paginated(p0, cls.paginationEnvelopeKeys, pd.value.entries) else p0;
        match ElementsOf(cls, resp.data, true)
        case Err(e) => Err(e)
        case Ok(_) => Ok(if Truthy(Arr(p1)) then TotalCount(p1) else 0)
  }

  class ActiveQuery {
    const cls: ModelClass
    const transport: Transport
    var select: Entries
    /** The conditions; a query without any holds none. */
    var where: Entries
    var limit: Option<int>
    var offset: Option<int>
    /** The remembered pagination; a query that has none holds an empty array. */
    var pagination: Entries
    var subQuery: bool
    /** `$responseHeaders['totalCount']`: the header `count()` reads. */
    const totalCountHeader: string

    constructor(cls: ModelClass, transport: Transport)
      ensures this.cls == cls && this.transport == transport && totalCountHeader == TotalCountHeader
      ensures select == [] && where == [] && limit.None? && offset.None? && pagination == [] && !subQuery
    {
      this.cls := cls;
      this.transport := transport;
      totalCountHeader := TotalCountHeader;
      select := [];
      where := [];
      limit := None;
      offset := None;
      pagination := [];
      subQuery := false;
    }

    /** `clone $this`. */
    method Clone() returns (q: ActiveQuery)
      ensures fresh(q)
      ensures q.cls == cls && q.transport == transport && q.select == select && q.where == where
      ensures q.limit == limit && q.offset == offset && q.pagination == pagination && q.subQuery == subQuery
    {
      q := new ActiveQuery(cls, transport);
      q.select, q.where, q.limit, q.offset, q.pagination, q.subQuery := select, where, limit, offset, pagination, subQuery;
    }

    function Params(): Entries
      reads this
    {
      QueryParams(cls, where, select, limit, offset)
    }

    /**
     * The HEAD request `count()` makes. The client's `head()` takes headers as its
     * second argument, so the query parameters, under `query`, travel as a header
     * and the URL carries none.
     */
    function HeadRequest(): (r: Request)
      reads this
      ensures r.verb == HEAD && r.url == Url(cls, Collection, "")
      ensures r.headers == [(StrKey("query"), Arr(Params()))] && r.query == [] && r.body == []
    {
      ClientRequest(HEAD, Url(cls, Collection, ""), [(StrKey("query"), Arr(Params()))])
    }

    /** The request of the probing sub-query: limit 1, offset 0. */
    function ProbeRequest(): Request
      reads this
    {
      ClientRequest(GET, Url(cls, Collection, ""), [(StrKey("query"), Arr(QueryParams(cls, where, select, Some(1), Some(0))))])
    }

    /** How `count()` ends when it asks the server, from the transport log `log` before to `log'` after. */
    predicate CountedByServer(log: seq<Request>, log': seq<Request>, r: Outcome<int>)
      reads this
    {
      var header := Header(transport.respond(log, HeadRequest()).headers, totalCountHeader);
      if header == Some("") && Truthy(Str(cls.paginationEnvelope)) then
        log' == log + [HeadRequest(), ProbeRequest()]
        && r == ProbeCount(cls, pagination, transport.respond(log + [HeadRequest()], ProbeRequest()))
      else
        log' == log + [HeadRequest()] && r == Ok(HeaderCount(header))
    }

    method Select(fields: Entries)
      modifies this`select
      ensures select == fields
    {
      select := fields;
    }

    method Where(conditions: Entries)
      modifies this`where
      ensures where == conditions
    {
      where := conditions;
    }

    /** `limit($limit)`: the value cast to an integer. */
    method Limit(v: Value)
      modifies this`limit
      ensures limit == Some(IntCast(v))
    {
      limit := Some(IntCast(v));
    }

    /** `offset($offset)`: the value cast to an integer. */
    method Offset(v: Value)
      modifies this`offset
      ensures offset == Some(IntCast(v))
    {
      offset := Some(IntCast(v));
    }

    method SetSubQueryFlag()
      modifies this`subQuery
      ensures subQuery
    {
      subQuery := true;
    }

    /** `buildQueryParams()`. */
    method BuildQueryParams() returns (query: Entries)
      ensures query == Params()
    {
      query := [];
      var i := 0;
      while i < |where|
        invariant 0 <= i <= |where|
        invariant query == WhereParams(where[..i])
      {
        assert where[..i + 1][..i] == where[..i];
        var (key, val) := where[i];
        query := Put(query, key, if IsNumeric(val) then Int(IntCast(val)) else val);
        i := i + 1;
      }
      assert where[..|where|] == where;
      if |select| > 0 {
        query := Put(query, StrKey(SelectFieldsKey), Str(Implode(",", StrVals(ValuesOf(select)))));
      }
      if limit.Some? {
        query := Put(query, StrKey(cls.limitKey), Int(limit.value));
      }
      if offset.Some? {
        query := Put(query, StrKey(cls.offsetKey), Int(offset.value));
      }
    }

    /** `setPagination($source)`. */
    method SetPagination(source: Entries)
      modifies this`pagination
      ensures pagination == Paginated(old(pagination), cls.paginationEnvelopeKeys, source)
    {
      var keys := cls.paginationEnvelopeKeys;
      var i := 0;
      while i < |keys|
        invariant 0 <= i <= |keys|
        invariant pagination == Paginated(old(pagination), keys[..i], source)
      {
        assert keys[..i + 1][..i] == keys[..i];
        var (key, name) := keys[i];
        pagination := Put(pagination, StrKey(key), if Isset(source, StrKey(name)) then GetOr(source, StrKey(name), Null) else Null);
        i := i + 1;
      }
      assert keys[..|keys|] == keys;
    }

    /** `createModels($elements)`: one new record per element, in order. */
    method CreateModels(elements: seq<Value>) returns (models: seq<Record>)
      ensures Built(cls, models, elements)
      ensures forall m :: m in models ==> fresh(m)
    {
      models := [];
      var i := 0;
      while i < |elements|
        invariant 0 <= i <= |elements|
        invariant Built(cls, models, elements[..i])
        invariant forall m :: m in models ==> fresh(m)
      {
        var model := new Record(cls, ToArray(elements[i]));
        models := models + [model];
        i := i + 1;
      }
      assert elements[..|elements|] == elements;
    }

    /** `populate($response, $asCollection)`. */
    method Populate(resp: Response, asCollection: bool) returns (r: Outcome<Models>)
      modifies this`pagination
      ensures Populated(cls, old(pagination), resp, asCollection, pagination, r)
      ensures r.Ok? ==> forall m :: m in r.value.Objects() ==> fresh(m)
    {
      var data := resp.data;
      if resp.status >= 400 {
        return Err(HttpError(data));
      }
      if !data.Arr? {
        return Ok(ManyRecords([]));
      }
      if !IsAssociative(data) {
        var models := CreateModels(ValuesOf(data.entries));
        return Ok(ManyRecords(models));
      }
      if !asCollection {
        var models := CreateModels([data]);
        assert models[0] in models;
        return Ok(OneRecord(models[0]));
      }
      var elements := Arr([]);
      var rest := data.entries;
      if Truthy(Str(cls.collectionEnvelope)) {
        elements, rest := GetOr(rest, StrKey(cls.collectionEnvelope), Arr([])), Delete(rest, StrKey(cls.collectionEnvelope));
      }
      if Truthy(Str(cls.paginationEnvelope)) && Isset(rest, StrKey(cls.paginationEnvelope)) {
        var source := GetOr(rest, StrKey(cls.paginationEnvelope), Null);
        if !source.Arr? {
          return Err(PaginationTypeError);
        }
        SetPagination(source.entries);
      }
      if !elements.Arr? {
        return Err(ElementsTypeError);
      }
      var models := CreateModels(ValuesOf(elements.entries));
      r := Ok(ManyRecords(models));
    }

    /** `request($method, $url, $data)`. */
    method Request(m: Method, url: string, data: Entries) returns (resp: Response)
      modifies transport
      ensures transport.log == old(transport.log) + [ClientRequest(m, url, data)]
      ensures resp == transport.respond(old(transport.log), ClientRequest(m, url, data))
    {
      resp := transport.Send(ClientRequest(m, url, data));
    }

    /** `all()`: GET the collection with the query parameters under `query`, and populate a collection. */
    method All() returns (r: Outcome<Models>)
      modifies this`pagination, transport
      ensures var req := ClientRequest(GET, Url(cls, Collection, ""), [(StrKey("query"), Arr(Params()))]);
        transport.log == old(transport.log) + [req]
        && Populated(cls, old(pagination), transport.respond(old(transport.log), req), true, pagination, r)
      ensures r.Ok? ==> forall m :: m in r.value.Objects() ==> fresh(m)
    {
      var params := BuildQueryParams();
      var resp := Request(GET, Url(cls, Collection, ""), [(StrKey("query"), Arr(params))]);
      r := Populate(resp, true);
    }

    /** `one()`: as `all()` with the limit key set to 1 beside `query`, populated as a single record. */
    method One() returns (r: Outcome<Models>)
      modifies this`pagination, transport
      ensures var req := ClientRequest(GET, Url(cls, Collection, ""), Put([(StrKey("query"), Arr(Params()))], StrKey(cls.limitKey), Int(1)));
        transport.log == old(transport.log) + [req]
        && Populated(cls, old(pagination), transport.respond(old(transport.log), req), false, pagination, r)
      ensures r.Ok? ==> forall m :: m in r.value.Objects() ==> fresh(m)
    {
      var params := BuildQueryParams();
      var resp := Request(GET, Url(cls, Collection, ""), Put([(StrKey("query"), Arr(params))], StrKey(cls.limitKey), Int(1)));
      r := Populate(resp, false);
    }

    /** The clone `count()` probes with: flagged as a sub-query, offset 0, limit 1. */
    method ProbeQuery() returns (query: ActiveQuery)
      ensures fresh(query)
      ensures query.cls == cls && query.transport == transport && query.pagination == pagination && query.subQuery
      ensures query.select == select && query.where == where && query.limit == Some(1) && query.offset == Some(0)
    {
      query := Clone();
      query.SetSubQueryFlag();
      query.Offset(Int(0));
      query.Limit(Int(1));
    }

    /** The page the probing sub-query fetches, and what it leaves for that sub-query's `count()`. */
    method ProbeAll(query: ActiveQuery) returns (all: Outcome<Models>)
      requires query != this && query.cls == cls && query.transport == transport
      requires query.Params() == QueryParams(cls, where, select, Some(1), Some(0))
      modifies query`pagination, transport
      ensures transport.log == old(transport.log) + [ProbeRequest()]
      ensures var outcome := ProbeCount(cls, old(query.pagination), transport.respond(old(transport.log), ProbeRequest()));
        if all.Err? then outcome == Err(all.thrown)
        else outcome == Ok(if Truthy(Arr(query.pagination)) then TotalCount(query.pagination) else 0)
    {
      ghost var req := ProbeRequest();
      assert ClientRequest(GET, Url(cls, Collection, ""), [(StrKey("query"), Arr(query.Params()))]) == req;
      ghost var log0 := transport.log;
      ghost var p0 := query.pagination;
      all := query.All();
      ProbeOutcome(cls, p0, transport.respond(log0, req), query.pagination, all);
    }

    /**
     * The probing sub-query of `count()`: a flagged clone with offset 0 and limit 1
     * fetches one page, and its own `count()` reads the pagination that page left.
     */
    method Probe() returns (r: Outcome<int>)
      requires !subQuery
      modifies transport
      decreases 1
      ensures transport.log == old(transport.log) + [ProbeRequest()]
      ensures r == ProbeCount(cls, pagination, transport.respond(old(transport.log), ProbeRequest()))
    {
      var query := ProbeQuery();
      assert query.Params() == QueryParams(cls, where, select, Some(1), Some(0));
      var all := ProbeAll(query);
      if all.Err? {
        return Err(all.thrown);
      }
      r := query.Count();
    }

    /** The HEAD request of `count()` and the count header of its answer. */
    method HeadCount() returns (count: Option<string>)
      modifies transport
      ensures transport.log == old(transport.log) + [HeadRequest()]
      ensures count == Header(transport.respond(old(transport.log), HeadRequest()).headers, totalCountHeader)
    {
      var params := BuildQueryParams();
      var resp := Request(HEAD, Url(cls, Collection, ""), [(StrKey("query"), Arr(params))]);
      count := Header(resp.headers, totalCountHeader);
    }

    /** The part of `count()` that asks the server: the HEAD request, then the probe when its count header is empty. */
    method ServerCount() returns (r: Outcome<int>)
      requires !subQuery
      modifies transport
      decreases 2
      ensures CountedByServer(old(transport.log), transport.log, r)
    {
      ghost var log0 := transport.log;
      var count := HeadCount();
      ghost var log1 := transport.log;
      assert log1 == log0 + [HeadRequest()];
      if count == Some("") && Truthy(Str(cls.paginationEnvelope)) {
        r := Probe();
        assert transport.log == log1 + [ProbeRequest()];
        return;
      }
      r := Ok(HeaderCount(count));
    }

    /**
     * `count()`: the remembered total; 0 for a sub-query; else the count header of
     * a HEAD request, and when that header is empty while there is a pagination
     * envelope, the count of the probing sub-query.
     */
    method Count() returns (r: Outcome<int>)
      modifies transport
      decreases if subQuery then 0 else 3
      ensures Truthy(Arr(pagination)) ==> r == Ok(TotalCount(pagination)) && transport.log == old(transport.log)
      ensures !Truthy(Arr(pagination)) && subQuery ==> r == Ok(0) && transport.log == old(transport.log)
      ensures !Truthy(Arr(pagination)) && !subQuery ==> CountedByServer(old(transport.log), transport.log, r)
    {
      if Truthy(Arr(pagination)) {
        return Ok(if Isset(pagination, StrKey("totalCount")) then IntCast(GetOr(pagination, StrKey("totalCount"), Null)) else 0);
      }
      if subQuery {
        return Ok(0);
      }
      r := ServerCount();
    }

    /** `create($model)`: POST the record's attributes to the collection, populated as a single record. */
    method Create(model: Record) returns (r: Outcome<Models>)
      modifies this`pagination, transport
      ensures var req := ClientRequest(POST, Url(cls, Collection, ""), KeyValues(model.attributes, model.cls.validAttributes));
        transport.log == old(transport.log) + [req]
        && Populated(cls, old(pagination), transport.respond(old(transport.log), req), false, pagination, r)
      ensures r.Ok? ==> forall m :: m in r.value.Objects() ==> fresh(m)
    {
      var attributes := KeyValues(model.attributes, model.cls.validAttributes);
      var resp := Request(POST, Url(cls, Collection, ""), attributes);
      r := Populate(resp, false);
    }

    /** `update($model)`: PUT the record's attributes to its element URL, populated as a single record. */
    method Update(model: Record) returns (r: Outcome<Models>)
      modifies this`pagination, transport
      ensures var req := ClientRequest(PUT, Url(cls, Element, StrVal(PrimaryKeyOf(model.cls, model.attributes, false))),
                                    KeyValues(model.attributes, model.cls.validAttributes));
        transport.log == old(transport.log) + [req]
        && Populated(cls, old(pagination), transport.respond(old(transport.log), req), false, pagination, r)
      ensures r.Ok? ==> forall m :: m in r.value.Objects() ==> fresh(m)
    {
      var id := model.GetPrimaryKey(false);
      var attributes := KeyValues(model.attributes, model.cls.validAttributes);
      var resp := Request(PUT, Url(cls, Element, StrVal(id)), attributes);
      r := Populate(resp, false);
    }

    /** `$model->save()`, with this query standing for the one `find()` creates: None is the `false` of other scenarios. */
    method Save(model: Record) returns (r: Option<Outcome<Models>>)
      modifies this`pagination, transport
      ensures SaveActionOf(model.scenario) == NotSaved <==> r.None?
      ensures model.scenario == ScenarioDefault ==> r.None? && transport.log == old(transport.log)
      ensures r.Some? ==> |transport.log| == |old(transport.log)| + 1
      ensures SaveActionOf(model.scenario) == NotSaved ==> transport.log == old(transport.log)
      ensures SaveActionOf(model.scenario) == CreateRecord ==>
        var req := ClientRequest(POST, Url(cls, Collection, ""), KeyValues(model.attributes, model.cls.validAttributes));
        transport.log == old(transport.log) + [req]
        && r.Some? && Populated(cls, old(pagination), transport.respond(old(transport.log), req), false, pagination, r.value)
      ensures SaveActionOf(model.scenario) == UpdateRecord ==>
        var req := ClientRequest(PUT, Url(cls, Element, StrVal(PrimaryKeyOf(model.cls, model.attributes, false))),
                                 KeyValues(model.attributes, model.cls.validAttributes));
        transport.log == old(transport.log) + [req]
        && r.Some? && Populated(cls, old(pagination), transport.respond(old(transport.log), req), false, pagination, r.value)
      ensures r.Some? && r.value.Ok? ==> forall m :: m in r.value.value.Objects() ==> fresh(m)
    {
      if model.scenario == ScenarioCreate {
        var created := Create(model);
        return Some(created);
      }
      if model.scenario == ScenarioUpdate {
        var updated := Update(model);
        return Some(updated);
      }
      r := None;
    }
  }

  // --------------------------------------------------------------- lemmas

  /** What a populated probe page tells `count()`: its error, or the total it remembered. */
  lemma ProbeOutcome(cls: ModelClass, p0: Entries, resp: Response, p1: Entries, r: Outcome<Models>)
    requires Populated(cls, p0, resp, true, p1, r)
    ensures r.Err? ==> ProbeCount(cls, p0, resp) == Err(r.thrown)
    ensures r.Ok? ==> ProbeCount(cls, p0, resp) == Ok(if Truthy(Arr(p1)) then TotalCount(p1) else 0)
  {
  }

  /** Adding a trailing slash: the text is kept, exactly one slash ends it, and adding again changes nothing. */
  lemma SlashAdded(s: string)
    ensures var t := TrailingSlash(s, true);
      EndsWithSlash(t) && t[..|s|] == s && |t| <= |s| + 1 && TrailingSlash(t, true) == t
  {
  }

  /** Removing a trailing slash takes off at most one, and adding one back gives what adding to the original gives. */
  lemma SlashRemoved(s: string)
    ensures var t := TrailingSlash(s, false);
      t == s[..|t|] && |s| - 1 <= |t| && (!EndsWithSlash(t) ==> TrailingSlash(t, true) == TrailingSlash(s, true))
      && (!EndsWithSlash(t) || (|s| >= 2 && s[|s| - 2] == '/'))
  {
  }

  /** An element URL is the collection URL, a slash, and the id without its trailing slash. */
  lemma ElementUnderCollection(cls: ModelClass, id: string)
    ensures Url(cls, Element, id) == Url(cls, Collection, "") + "/" + TrailingSlash(id, false)
  {
    var c := cls.resourceName;
    if EndsWithSlash(c) {
      assert c[..|c| - 1] + "/" == c;
    }
  }

  /** Each condition reaches the parameters with its last value, cast to an integer when numeric. */
  lemma {:induction false} WhereParamsGet(where: Entries, k: Key)
    ensures Get(WhereParams(where), k) == match LastGet(where, k) case None => None case Some(v) => Some(Numeric(v))
  {
    if where != [] {
      var init := where[..|where| - 1];
      var (kk, v) := where[|where| - 1];
      var nv := Numeric(v);
      assert where == init + [(kk, v)];
      assert WhereParams(where) == Put(WhereParams(init), kk, nv);
      WhereParamsGet(init, k);
      LastGetAppend(init, kk, v, k);
      PutGet(WhereParams(init), kk, nv, k);
    }
  }

  /** The offset key wins over the limit key, which wins over the fields key, which wins over the conditions. */
  lemma QueryParamsGet(cls: ModelClass, where: Entries, select: Entries, limit: Option<int>, offset: Option<int>, k: Key)
    ensures Get(QueryParams(cls, where, select, limit, offset), k) ==
      if offset.Some? && k == StrKey(cls.offsetKey) then Some(Int(offset.value))
      else if limit.Some? && k == StrKey(cls.limitKey) then Some(Int(limit.value))
      else if |select| > 0 && k == StrKey(SelectFieldsKey) then Some(Str(Implode(",", StrVals(ValuesOf(select)))))
      else match LastGet(where, k) case None => None case Some(v) => Some(Numeric(v))
  {
    var q0 := WhereParams(where);
    var q1 := if |select| > 0 then Put(q0, StrKey(SelectFieldsKey), Str(Implode(",", StrVals(ValuesOf(select))))) else q0;
    var q2 := if limit.Some? then Put(q1, StrKey(cls.limitKey), Int(limit.value)) else q1;
    WhereParamsGet(where, k);
    if |select| > 0 {
      PutGet(q0, StrKey(SelectFieldsKey), Str(Implode(",", StrVals(ValuesOf(select)))), k);
    }
    if limit.Some? {
      PutGet(q1, StrKey(cls.limitKey), Int(limit.value), k);
    }
    if offset.Some? {
      PutGet(q2, StrKey(cls.offsetKey), Int(offset.value), k);
    }
  }

  /** A mapped key holds the value under its server-side name, or null; an unmapped key keeps its old value. */
  lemma {:induction false} PaginatedGet(p: Entries, keys: seq<(string, string)>, source: Entries, key: string)
    ensures Get(Paginated(p, keys, source), StrKey(key)) ==
      match LastName(keys, key) case None => Get(p, StrKey(key)) case Some(name) => Some(PageValue(source, name))
  {
    if keys != [] {
      var (k, name) := keys[|keys| - 1];
      PaginatedGet(p, keys[..|keys| - 1], source, key);
      PutGet(Paginated(p, keys[..|keys| - 1], source), StrKey(k), PageValue(source, name), StrKey(key));
    }
  }

  /** Under the default mapping `totalCount` is read from the server's `total`. */
  lemma LastNameTotal()
    ensures LastName(DefaultPaginationEnvelopeKeys, "totalCount") == Some("total")
  {
    var k1 := [("totalCount", "total")];
    var k2 := k1 + [("pageCount", "pages")];
    var k3 := k2 + [("currPage", "offset")];
    var k4 := k3 + [("perPageCount", "limit")];
    var k5 := k4 + [("links", "links")];
    assert DefaultPaginationEnvelopeKeys == k5;
    assert LastName(k1, "totalCount") == Some("total");
    assert k2[..|k2| - 1] == k1;
    assert LastName(k2, "totalCount") == Some("total");
    assert k3[..|k3| - 1] == k2;
    assert LastName(k3, "totalCount") == Some("total");
    assert k4[..|k4| - 1] == k3;
    assert LastName(k4, "totalCount") == Some("total");
    assert k5[..|k5| - 1] == k4;
  }

  /** With the default mapping, the count remembered after a page is the server's `total`, or 0 without one. */
  lemma TotalCountAfterEnvelope(p: Entries, source: Entries)
    ensures TotalCount(Paginated(p, DefaultPaginationEnvelopeKeys, source)) ==
      if Isset(source, StrKey("total")) then IntCast(GetOr(source, StrKey("total"), Null)) else 0
  {
    LastNameTotal();
    PaginatedGet(p, DefaultPaginationEnvelopeKeys, source, "totalCount");
  }

  /** A count header reads as its leading integer; a missing one as 0. */
  lemma HeaderCountExamples()
    ensures HeaderCount(Some("42")) == 42
    ensures HeaderCount(None) == 0
    ensures HeaderCount(Some("")) == 0
  {
    IntCastOfIntToString(42);
    assert IntToString(42) == "42";
  }

  /** An associative collection body is unwrapped from the collection envelope; without an envelope it gives no records. */
  lemma EnvelopeElements(cls: ModelClass, data: Value, items: Entries)
    requires IsAssociative(data)
    ensures Truthy(Str(cls.collectionEnvelope)) && Get(data.entries, StrKey(cls.collectionEnvelope)) == Some(Arr(items)) ==>
      ElementsOf(cls, data, true) == Ok(ListOf(ValuesOf(items)))
    ensures !Truthy(Str(cls.collectionEnvelope)) ==> ElementsOf(cls, data, true) == Ok(ListOf([]))
    ensures ElementsOf(cls, data, false) == Ok(OneOf(data))
  {
  }

  /** A list body gives one record per element whatever `asCollection` says, so `one()` can return a list. */
  lemma ListBodyIsCollection(cls: ModelClass, data: Value, asCollection: bool)
    requires data.Arr? && !IsAssociative(data)
    ensures ElementsOf(cls, data, asCollection) == Ok(ListOf(ValuesOf(data.entries)))
    ensures PaginationData(cls, data, asCollection).None?
  {
  }

  /** An error status throws HttpException with the text body, or with the body's `message`. */
  lemma ErrorMessage(msg: string)
    ensures HttpError(Str(msg)).message == msg
    ensures HttpError(Single("message", Str(msg))).message == msg
  {
  }

  /**
   * A probe answered with `{items: [], _meta: {total: n}}`, for any two distinct
   * non-empty envelope names in place of `items` and `_meta`, counts `n` under the
   * default mapping.
   */
  lemma ProbeReadsEnvelopeTotal(cls: ModelClass, n: int)
    requires Truthy(Str(cls.collectionEnvelope)) && Truthy(Str(cls.paginationEnvelope))
    requires cls.collectionEnvelope != cls.paginationEnvelope
    requires cls.paginationEnvelopeKeys == DefaultPaginationEnvelopeKeys
    ensures ProbeCount(cls, [], Response(200, [], Arr([(StrKey(cls.collectionEnvelope), Arr([])),
                                                       (StrKey(cls.paginationEnvelope), Single("total", Int(n)))]), "")) == Ok(n)
  {
    var source := [(StrKey("total"), Int(n))];
    assert Single("total", Int(n)) == Arr(source);
    var data := Arr([(StrKey(cls.collectionEnvelope), Arr([])), (StrKey(cls.paginationEnvelope), Arr(source))]);
    EnvelopeSplit(cls, source);
    ProbeCountPage(cls, [], Response(200, [], data, ""), source);
    var p1 := Paginated([], DefaultPaginationEnvelopeKeys, source);
    assert Get(source, StrKey("total")) == Some(Int(n));
    TotalCountAfterEnvelope([], source);
    assert p1 != [] by {
      PaginatedGet([], DefaultPaginationEnvelopeKeys, source, "totalCount");
      LastNameTotal();
    }
  }

  /** A probe page that carries a pagination array: the count is what the remembered pagination gives. */
  lemma ProbeCountPage(cls: ModelClass, p0: Entries, resp: Response, source: Entries)
    requires resp.status < 400 && PaginationData(cls, resp.data, true) == Some(Arr(source))
    requires ElementsOf(cls, resp.data, true).Ok?
    ensures var p1 := Paginated(p0, cls.paginationEnvelopeKeys, source);
      ProbeCount(cls, p0, resp) == Ok(if Truthy(Arr(p1)) then TotalCount(p1) else 0)
  {
  }

  /** A body holding an empty collection and a pagination array under the two envelopes. */
  lemma EnvelopeSplit(cls: ModelClass, source: Entries)
    requires Truthy(Str(cls.collectionEnvelope)) && Truthy(Str(cls.paginationEnvelope))
    requires cls.collectionEnvelope != cls.paginationEnvelope
    ensures var data := Arr([(StrKey(cls.collectionEnvelope), Arr([])), (StrKey(cls.paginationEnvelope), Arr(source))]);
      PaginationData(cls, data, true) == Some(Arr(source)) && ElementsOf(cls, data, true) == Ok(ListOf([]))
  {
    var items := StrKey(cls.collectionEnvelope);
    var meta := (StrKey(cls.paginationEnvelope), Arr(source));
    var entries := [(items, Arr([])), meta];
    assert IsAssociative(Arr(entries));
    assert Get(entries, items) == Some(Arr([]));
    assert Delete(entries, items) == [meta] by {
      assert entries[1..] == [meta];
      assert Delete([meta], items) == [meta] + Delete([], items);
    }
    assert Get([meta], meta.0) == Some(Arr(source));
  }



}
