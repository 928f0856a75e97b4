/**
 * The query builder of the `src/` lineage (src/QueryBuilder.php): it compiles a
 * query's select, from, join, where, orderBy, limit and offset into the REST
 * clauses `fields`, `pathInfo`, `expand`, `filter`, `sort`, `per-page` and
 * `page`, takes `pathInfo` out, and drops the clauses that are falsy.
 */
module RestQueryBuilder {
  import opened Php
  import Conditions

  /** PHP's `SORT_DESC`. */
  const SortDesc: int := 3

  /** The direction of one orderBy column: a sort flag, or an Expression whose text is used as is. */
  datatype Direction = Sort(flag: int) | ByExpression(expression: string)

  /**
   * The parts of a query the builder reads. `where` is None when the condition
   * is empty, not an array or an Expression; otherwise it is the condition object
   * the framework creates from the array. `limit` and `offset` are integers or null.
   */
  datatype Query = Query(
    modelClass: string,
    select: Value,
    from: Value,
    join: seq<Value>,
    where: Option<Conditions.Condition>,
    orderBy: seq<(string, Direction)>,
    limit: Option<int>,
    offset: Option<int>)

  /** What `build()` returns. */
  datatype Compiled = Compiled(modelClass: string, pathInfo: Value, queryParams: Entries)

  /** The names a compiled query's parameters can have. */
  const ParamNames: set<Key> := {StrKey("fields"), StrKey("expand"), StrKey("filter"), StrKey("sort"), StrKey("per-page"), StrKey("page")}

  /** `buildSelect($columns)`: the column values comma-joined, or '' for an empty or non-array selection. */
  function BuildSelect(columns: Value): string
  {
    if columns.Arr? && columns.entries != [] then Implode(",", StrVals(ValuesOf(columns.entries))) else ""
  }

  /** `buildFrom($tables)`: a string trimmed, anything else ''. */
  function BuildFrom(tables: Value): string
  {
    if tables.Str? then Trim(tables.s) else ""
  }

  /** What one join entry contributes to `expand`: nothing when empty, element [1] of an array, else itself. */
  function JoinName(join: Value): seq<string>
  {
    if IsEmpty(join) then []
    else if join.Arr? then [StrVal(GetOr(join.entries, IntKey(1), Null))]
    else [StrVal(join)]
  }

  function JoinNames(joins: seq<Value>): seq<string>
  {
    if joins == [] then [] else JoinNames(joins[..|joins| - 1]) + JoinName(joins[|joins| - 1])
  }

  /** One `sort` term: an Expression's text, or the name with '-' in front for SORT_DESC. */
  function OrderTerm(name: string, direction: Direction): string
  {
    match direction
    case ByExpression(e) => e
    case Sort(flag) => (if flag == SortDesc then "-" else "") + name
  }

  function OrderTerms(columns: seq<(string, Direction)>): (r: seq<string>)
    ensures |r| == |columns|
    ensures forall i :: 0 <= i < |columns| ==> r[i] == OrderTerm(columns[i].0, columns[i].1)
  {
    if columns == [] then []
    else OrderTerms(columns[..|columns| - 1]) + [OrderTerm(columns[|columns| - 1].0, columns[|columns| - 1].1)]
  }

  /** `buildWhere($condition)`: [] for a condition that is empty, not an array or an Expression. */
  function BuildWhere(where: Option<Conditions.Condition>): (r: Outcome<Value>)
    ensures r.Ok? ==> r.value.Arr?
    ensures where.None? ==> r == Ok(Arr([]))
  {
    if where.None? then Ok(Arr([])) else Conditions.Build(where.value)
  }

  /**
   * The ceiling of `o / l`. The source computes it in floating point with `ceil`;
   * for the integer operands here it is exact.
   */
  function CeilDiv(o: int, l: int): (q: int)
    requires l != 0
    ensures l > 0 ==> (q - 1) * l < o <= q * l
    ensures l < 0 ==> q * l <= o < (q - 1) * l
  {
    if l > 0 then
      var q := -((-o) / l);
      CeilDivBounds(-o, l);
      q
    else
      var q := -(o / (-l));
      CeilDivBounds(o, -l);
      q
  }

  /** Euclidean division by a positive divisor brackets the dividend. */
  lemma CeilDivBounds(a: int, d: int)
    requires d > 0
    ensures (a / d) * d <= a < (a / d + 1) * d
  {
  }

  /**
   * `buildLimit($limit, $offset)`: `per-page` is the limit as text when it is 0 or
   * more; `page` is `ceil(offset / limit) + 1` when the offset is above 0, which
   * divides by zero when the limit is null or 0.
   */
  function BuildLimit(limit: Option<int>, offset: Option<int>): Outcome<Entries>
  {
    var perPage := if limit.Some? && limit.value >= 0 then [(StrKey("per-page"), Str(IntToString(limit.value)))] else [];
    if offset.Some? && offset.value > 0 then
      var divisor := if limit.Some? then limit.value else 0;
      if divisor == 0 then Err(Thrown("DivisionByZeroError", "Division by zero"))
      else Ok(perPage + [(StrKey("page"), Int(CeilDiv(offset.value, divisor) + 1))])
    else Ok(perPage)
  }

  /** The five clauses of `build()`, with the built filter, before the limit clauses are merged in. */
  function Clauses(q: Query, filter: Value): Entries
  {
    [(StrKey("fields"), Str(BuildSelect(q.select))),
     (StrKey("pathInfo"), Str(BuildFrom(q.from))),
     (StrKey("expand"), Str(Implode(",", JoinNames(q.join)))),
     (StrKey("filter"), filter),
     (StrKey("sort"), Str(Implode(",", OrderTerms(q.orderBy))))]
  }

  /**
   * The result `build()` specifies: pathInfo taken out of the merged clauses, the
   * rest filtered. The clauses are built in order, so an exception building the
   * filter comes before one computing the page.
   */
  function Compile(q: Query): Outcome<Compiled>
  {
    match BuildWhere(q.where)
    case Err(e) => Err(e)
    case Ok(filter) =>
      match BuildLimit(q.limit, q.offset)
      case Err(e) => Err(e)
      case Ok(limits) =>
        var (pathInfo, rest) := Remove(Merge(Clauses(q, filter), limits), StrKey("pathInfo"), Null);
        Ok(Compiled(q.modelClass, pathInfo, Filter(rest)))
  }

  /** `buildJoin($joins)`. */
  method BuildJoin(joins: seq<Value>) returns (r: string)
    ensures r == Implode(",", JoinNames(joins))
  {
    if joins == [] {
      return "";
    }
    var expand: seq<string> := [];
    var i := 0;
    while i < |joins|
      invariant 0 <= i <= |joins|
      invariant expand == JoinNames(joins[..i])
    {
      var join := joins[i];
      assert joins[..i + 1][..i] == joins[..i];
      if IsEmpty(join) {
        i := i + 1;
        continue;
      }
      if join.Arr? {
        expand := expand + [StrVal(GetOr(join.entries, IntKey(1), Null))];
        i := i + 1;
        continue;
      }
      expand := expand + [StrVal(join)];
      i := i + 1;
    }
    assert joins[..|joins|] == joins;
    r := Implode(",", expand);
  }

  /** `buildOrderBy($columns)`. */
  method BuildOrderBy(columns: seq<(string, Direction)>) returns (r: string)
    ensures r == Implode(",", OrderTerms(columns))
  {
    if columns == [] {
      return "";
    }
    var orders: seq<string> := [];
    var i := 0;
    while i < |columns|
      invariant 0 <= i <= |columns|
      invariant orders == OrderTerms(columns[..i])
    {
      var (name, direction) := columns[i];
      assert columns[..i + 1][..i] == columns[..i];
      match direction {
        case ByExpression(e) =>
          orders := orders + [e];
        case Sort(flag) =>
          orders := orders + [(if flag == SortDesc then "-" else "") + name];
      }
      i := i + 1;
    }
    assert columns[..|columns|] == columns;
    r := Implode(",", orders);
  }

  /** `build($query)`. */
  method Build(q: Query) returns (r: Outcome<Compiled>)
    ensures r == Compile(q)
  {
    var expand := BuildJoin(q.join);
    var sort := BuildOrderBy(q.orderBy);
    var filter := BuildWhere(q.where);
    if filter.Err? {
      return Err(filter.thrown);
    }
    var clauses := [(StrKey("fields"), Str(BuildSelect(q.select))),
                    (StrKey("pathInfo"), Str(BuildFrom(q.from))),
                    (StrKey("expand"), Str(expand)),
                    (StrKey("filter"), filter.value),
                    (StrKey("sort"), Str(sort))];
    var limits := BuildLimit(q.limit, q.offset);
    if limits.Err? {
      return Err(limits.thrown);
    }
    clauses := Merge(clauses, limits.value);
    var (pathInfo, rest) := Remove(clauses, StrKey("pathInfo"), Null);
    r := Ok(Compiled(q.modelClass, pathInfo, Filter(rest)));
  }

  // --------------------------------------------------------------- lemmas

  /** The limit clauses have distinct string keys, none of them a clause name. */
  lemma MergedClauses(q: Query, filter: Value, limits: Entries)
    requires BuildLimit(q.limit, q.offset) == Ok(limits)
    ensures Merge(Clauses(q, filter), limits) == Clauses(q, filter) + limits
    ensures forall e :: e in limits ==> e.0 in {StrKey("per-page"), StrKey("page")}
  {
    LimitKeys(q.limit, q.offset);
    MergeKeyed(Clauses(q, filter), limits);
  }

  /** Merging the five named clauses with limit clauses appends the latter. */
  lemma MergeKeyed(c: Entries, limits: Entries)
    requires |c| == 5 && c[0].0 == StrKey("fields") && c[1].0 == StrKey("pathInfo") && c[2].0 == StrKey("expand")
      && c[3].0 == StrKey("filter") && c[4].0 == StrKey("sort")
    requires |limits| <= 2 && forall i :: 0 <= i < |limits| ==> limits[i].0 == StrKey("per-page") || limits[i].0 == StrKey("page")
    requires |limits| == 2 ==> limits[0].0 == StrKey("per-page") && limits[1].0 == StrKey("page")
    ensures Merge(c, limits) == c + limits
  {
    assert MergeInto([], c) == c by {
      ClauseKeysDistinct(c);
      MergeIntoFresh([], c);
    }
    forall i, j | 0 <= i < |limits| && 0 <= j < |c|
      ensures limits[i].0 != c[j].0
    {
      assert limits[i].0 == StrKey("per-page") || limits[i].0 == StrKey("page");
    }
    forall i, j | 0 <= i < j < |limits|
      ensures limits[i].0 != limits[j].0
    {
      assert i == 0 && j == 1;
    }
    MergeIntoFresh(c, limits);
  }

  /** The limit clauses: per-page, then page, each at most once. */
  lemma LimitKeys(limit: Option<int>, offset: Option<int>)
    requires BuildLimit(limit, offset).Ok?
    ensures var l := BuildLimit(limit, offset).value;
      |l| <= 2
      && (forall i :: 0 <= i < |l| ==> l[i].0 == StrKey("per-page") || l[i].0 == StrKey("page"))
      && (|l| == 2 ==> l[0].0 == StrKey("per-page") && l[1].0 == StrKey("page"))
  {
  }

  /** Five clauses named fields, pathInfo, expand, filter and sort, all different. */
  lemma ClauseKeysDistinct(c: Entries)
    requires |c| == 5 && c[0].0 == StrKey("fields") && c[1].0 == StrKey("pathInfo") && c[2].0 == StrKey("expand")
      && c[3].0 == StrKey("filter") && c[4].0 == StrKey("sort")
    ensures forall i :: 0 <= i < |c| ==> c[i].0.StrKey?
    ensures forall i, j :: 0 <= i < j < |c| ==> c[i].0 != c[j].0
  {
    assert "fields"[2] != "expand"[2] && "fields"[2] != "filter"[2] && "expand"[2] != "filter"[2];
  }

  /**
   * Exactly the entries of the clauses and limit clauses that are not `pathInfo`
   * and are truthy end up in `queryParams`; `pathInfo` is returned separately.
   */
  lemma CompiledParams(q: Query)
    requires Compile(q).Ok?
    ensures BuildWhere(q.where).Ok? && BuildLimit(q.limit, q.offset).Ok?
    ensures var limits := BuildLimit(q.limit, q.offset).value;
      var c := Compile(q).value;
      c.pathInfo == Str(BuildFrom(q.from))
      && forall e :: e in c.queryParams <==> e in Clauses(q, BuildWhere(q.where).value) + limits && e.0 != StrKey("pathInfo") && Truthy(e.1)
  {
    var limits := BuildLimit(q.limit, q.offset).value;
    var filter := BuildWhere(q.where).value;
    MergedClauses(q, filter, limits);
    var merged := Clauses(q, filter) + limits;
    assert Get(merged, StrKey("pathInfo")) == Some(Str(BuildFrom(q.from))) by {
      assert merged[0].0 != StrKey("pathInfo") && merged[1] == (StrKey("pathInfo"), Str(BuildFrom(q.from)));
    }
    forall e
      ensures e in Filter(Delete(merged, StrKey("pathInfo"))) <==> e in merged && e.0 != StrKey("pathInfo") && Truthy(e.1)
    {
      FilterKeepsTruthy(Delete(merged, StrKey("pathInfo")), e);
      DeleteKeeps(merged, StrKey("pathInfo"), e);
    }
  }

  /** `pathInfo` never appears among the parameters, whose names come from the six clause names only. */
  lemma ParamsNames(q: Query)
    requires Compile(q).Ok?
    ensures StrKey("pathInfo") !in KeysOf(Compile(q).value.queryParams)
    ensures forall e :: e in Compile(q).value.queryParams ==> e.0 in ParamNames && Truthy(e.1)
  {
    var params := Compile(q).value.queryParams;
    forall e | e in params
      ensures e.0 in ParamNames && e.0 != StrKey("pathInfo") && Truthy(e.1)
    {
      ParamName(q, e);
    }
    forall i | 0 <= i < |params|
      ensures KeysOf(params)[i] != StrKey("pathInfo")
    {
      assert params[i] in params;
    }
  }

  /** One parameter: a truthy clause or limit clause other than `pathInfo`. */
  lemma ParamName(q: Query, e: (Key, Value))
    requires Compile(q).Ok? && e in Compile(q).value.queryParams
    ensures e.0 in ParamNames && e.0 != StrKey("pathInfo") && Truthy(e.1)
  {
    CompiledParams(q);
    LimitKeys(q.limit, q.offset);
    assert e in Clauses(q, BuildWhere(q.where).value) + BuildLimit(q.limit, q.offset).value;
  }

  /** A non-empty filter, and a non-empty sort, reach the parameters under their names; an empty one is dropped. */
  lemma FilterAndSortKept(q: Query)
    requires Compile(q).Ok?
    ensures BuildWhere(q.where).Ok?
    ensures var params := Compile(q).value.queryParams;
      ((StrKey("filter"), BuildWhere(q.where).value) in params <==> BuildWhere(q.where).value != Arr([]))
      && ((StrKey("sort"), Str(Implode(",", OrderTerms(q.orderBy)))) in params <==> Truthy(Str(Implode(",", OrderTerms(q.orderBy)))))
  {
    CompiledParams(q);
    var f := (StrKey("filter"), BuildWhere(q.where).value);
    var o := (StrKey("sort"), Str(Implode(",", OrderTerms(q.orderBy))));
    assert Clauses(q, f.1)[3] == f && Clauses(q, f.1)[4] == o;
    ClauseKept(q, f);
    ClauseKept(q, o);
  }

  /** A clause other than `pathInfo` reaches the parameters exactly when it is truthy. */
  lemma ClauseKept(q: Query, e: (Key, Value))
    requires Compile(q).Ok?
    requires BuildWhere(q.where).Ok? && e in Clauses(q, BuildWhere(q.where).value) && e.0 != StrKey("pathInfo")
    ensures e in Compile(q).value.queryParams <==> Truthy(e.1)
  {
    CompiledParams(q);
  }

  /**
   * `build()` throws exactly when building the filter or computing the page
   * throws, and the filter's exception is the one that surfaces.
   */
  lemma CompileErrors(q: Query)
    ensures Compile(q).Err? <==> BuildWhere(q.where).Err? || BuildLimit(q.limit, q.offset).Err?
    ensures BuildWhere(q.where).Err? ==> Compile(q) == Err(BuildWhere(q.where).thrown)
    ensures BuildWhere(q.where).Ok? && BuildLimit(q.limit, q.offset).Err? ==> Compile(q) == Err(BuildLimit(q.limit, q.offset).thrown)
  {
  }

  /** The page computation divides by the limit: with an offset above 0 it fails exactly when the limit is null or 0. */
  lemma LimitErrors(limit: Option<int>, offset: Option<int>)
    ensures BuildLimit(limit, offset).Err? <==> offset.Some? && offset.value > 0 && (limit.None? || limit.value == 0)
    ensures offset.None? || offset.value <= 0 ==>
      BuildLimit(limit, offset).value == if limit.Some? && limit.value >= 0 then [(StrKey("per-page"), Str(IntToString(limit.value)))] else []
  {
  }

  /** Limit 10 with offset 25 asks for page 4, rounding the page up. */
  lemma CeilPageExample()
    ensures BuildLimit(Some(10), Some(25)) == Ok([(StrKey("per-page"), Str("10")), (StrKey("page"), Int(4))])
  {
    assert CeilDiv(25, 10) == 3;
    assert NatToString(1) == ['1'];
    assert NatToString(10) == NatToString(1) + [DigitChar(0)];
    assert IntToString(10) == "10";
    var perPage := [(StrKey("per-page"), Str(IntToString(10)))];
    var page := [(StrKey("page"), Int(CeilDiv(25, 10) + 1))];
    assert BuildLimit(Some(10), Some(25)) == Ok(perPage + page);
    assert perPage == [(StrKey("per-page"), Str("10"))];
    assert page == [(StrKey("page"), Int(4))];
    assert perPage + page == [(StrKey("per-page"), Str("10")), (StrKey("page"), Int(4))];
  }

  /**
   * With a positive limit the page starts at the first multiple of the limit at or
   * after the offset: an aligned offset gets the page starting there, and an
   * unaligned one gets a page that starts past the offset, so the rows between
   * are never requested.
   */
  lemma PageStart(l: int, o: int)
    requires l > 0 && o > 0
    ensures var page := BuildLimit(Some(l), Some(o)).value[|BuildLimit(Some(l), Some(o)).value| - 1].1.i;
      o <= (page - 1) * l < o + l
      && (o % l == 0 ==> (page - 1) * l == o)
      && (o % l != 0 ==> (page - 1) * l > o)
  {
    var q := CeilDiv(o, l);
    assert BuildLimit(Some(l), Some(o)).value[|BuildLimit(Some(l), Some(o)).value| - 1].1.i - 1 == q;
    CeilFacts(o, l, q);
  }

  lemma CeilFacts(o: int, l: int, q: int)
    requires l > 0 && (q - 1) * l < o <= q * l
    ensures q * l < o + l
    ensures o % l == 0 ==> q * l == o
    ensures o % l != 0 ==> q * l > o
  {
    assert (q - 1) * l == q * l - l;
    var k := o / l;
    assert o == k * l + o % l;
    if o % l == 0 {
      MulLess(q - 1, k, l);
      MulLess(k - 1, q, l);
      assert (k - 1) * l == k * l - l;
    } else if q * l == o {
      // q * l == k * l + o % l with 0 < o % l < l is impossible for integers
      assert (q - k) * l == o % l;
      if q - k <= 0 {
        MulLess(0, q - k, l);
      } else {
        MulLess(0, 1, l);
        MulAtLeast(1, q - k, l);
      }
    }
  }

  lemma MulLess(a: int, b: int, l: int)
    requires l > 0 && a * l < b * l
    ensures a < b
  {
    if a >= b {
      MulAtLeast(b, a, l);
    }
  }

  lemma MulAtLeast(a: int, b: int, l: int)
    requires l > 0 && a <= b
    ensures a * l <= b * l
  {
    assert b * l == a * l + (b - a) * l;
  }

  /** `fields` lists the selected column names in order, so splitting it at ',' gives them back. */
  lemma SelectRoundTrip(names: seq<string>)
    requires names != []
    requires forall i :: 0 <= i < |names| ==> !Contains(names[i], ',')
    ensures SplitOn(BuildSelect(List(seq(|names|, i requires 0 <= i < |names| => Str(names[i])))), ',') == names
  {
    var cols := List(seq(|names|, i requires 0 <= i < |names| => Str(names[i])));
    assert StrVals(ValuesOf(cols.entries)) == names;
    SplitImplode(names, ',');
  }

  /** Relation names joined with `joinWith` appear in `expand` in order, so splitting it at ',' gives them back. */
  lemma ExpandRoundTrip(names: seq<string>)
    requires names != []
    requires forall i :: 0 <= i < |names| ==> Truthy(Str(names[i])) && !Contains(names[i], ',')
    ensures SplitOn(Implode(",", JoinNames(seq(|names|, i requires 0 <= i < |names| => Str(names[i])))), ',') == names
  {
    JoinNamesOfRelations(names);
    SplitImplode(names, ',');
  }

  lemma {:induction false} JoinNamesOfRelations(names: seq<string>)
    requires forall i :: 0 <= i < |names| ==> Truthy(Str(names[i]))
    ensures JoinNames(seq(|names|, i requires 0 <= i < |names| => Str(names[i]))) == names
  {
    if names != [] {
      var joins := seq(|names|, i requires 0 <= i < |names| => Str(names[i]));
      var init := names[..|names| - 1];
      JoinNamesOfRelations(init);
      assert joins[..|joins| - 1] == seq(|init|, i requires 0 <= i < |init| => Str(init[i]));
      assert names == init + [names[|names| - 1]];
    }
  }

  /** The parameter a `sort` term stands for: a leading '-' means descending. */
  function SortField(term: string): (string, bool)
  {
    if term != [] && term[0] == '-' then (term[1..], true) else (term, false)
  }

  /** `sort` lists the ordered columns with their directions, so a client can read both back. */
  lemma SortRoundTrip(columns: seq<(string, Direction)>)
    requires columns != []
    requires forall i :: 0 <= i < |columns| ==>
      columns[i].1.Sort? && (columns[i].0 == [] || columns[i].0[0] != '-') && !Contains(columns[i].0, ',')
    ensures var terms := SplitOn(Implode(",", OrderTerms(columns)), ',');
      |terms| == |columns|
      && forall i :: 0 <= i < |columns| ==> SortField(terms[i]) == (columns[i].0, columns[i].1.flag == SortDesc)
  {
    var terms := OrderTerms(columns);
    forall i | 0 <= i < |terms|
      ensures !Contains(terms[i], ',') && SortField(terms[i]) == (columns[i].0, columns[i].1.flag == SortDesc)
    {
      SortTermRoundTrip(columns[i].0, columns[i].1.flag);
    }
    SplitImplode(terms, ',');
  }

  /** One sort term: no comma is added, and the name and direction read back. */
  lemma SortTermRoundTrip(name: string, flag: int)
    requires (name == [] || name[0] != '-') && !Contains(name, ',')
    ensures var term := OrderTerm(name, Sort(flag));
      !Contains(term, ',') && SortField(term) == (name, flag == SortDesc)
  {
    var term := OrderTerm(name, Sort(flag));
    if flag == SortDesc {
      assert term == "-" + name;
      assert term[0] == '-' && term[1..] == name;
      assert forall j :: 1 <= j < |term| ==> term[j] == name[j - 1];
    } else {
      assert term == name;
    }
  }


  /** `pathInfo` is the table name without surrounding white space, and building it again changes nothing. */
  lemma FromTrimmed(tables: Value)
    ensures BuildFrom(Str(BuildFrom(tables))) == BuildFrom(tables)
    ensures !tables.Str? ==> BuildFrom(tables) == ""
  {
    if tables.Str? {
      TrimIdempotent(tables.s);
    }
  }
}
