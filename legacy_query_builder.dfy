/**
 * The query builder of the root lineage (QueryBuilder.php). The clause builders
 * for select, from, join, orderBy and limit are the same code as in the `src/`
 * lineage; what differs is the condition compiler, which reads the raw condition
 * array (operator format with AND and IN only, or hash format), and the pruning of
 * clauses, which removes only '', empty arrays and null.
 */
module LegacyQueryBuilder {
  import opened Php
  import RestQueryBuilder

  /** The query as this builder reads it: the condition is the raw array (or any other value). */
  datatype Query = Query(
    modelClass: string,
    select: Value,
    from: Value,
    join: seq<Value>,
    where: Value,
    orderBy: seq<(string, RestQueryBuilder.Direction)>,
    limit: Option<int>,
    offset: Option<int>)

  datatype Compiled = Compiled(modelClass: string, pathInfo: Value, queryParams: Entries)

  // ------------------------------------------------------- PHP helpers

  /** The entries of an array after `array_shift`: the first entry gone, integer keys renumbered from 0. */
  function Renumber(es: Entries, next: int): (r: Entries)
    ensures |r| == |es|
    ensures forall i :: 0 <= i < |es| ==> r[i].1 == es[i].1 && (r[i].0.StrKey? <==> es[i].0.StrKey?)
    ensures forall i :: 0 <= i < |es| && es[i].0.StrKey? ==> r[i].0 == es[i].0
  {
    if es == [] then []
    else if es[0].0.IntKey? then [(IntKey(next), es[0].1)] + Renumber(es[1..], next + 1)
    else [es[0]] + Renumber(es[1..], next)
  }

  function Shift(es: Entries): (r: Entries)
    requires es != []
    ensures |r| == |es| - 1 && forall i :: 0 <= i < |r| ==> r[i].1 == es[i + 1].1
  {
    Renumber(es[1..], 0)
  }

  /** `str_replace($search, $replace, $s)` for one search string; an empty search string replaces nothing. */
  function ReplaceAll(s: string, search: string, replace: string): string
    decreases |s|
  {
    if search == [] || |s| < |search| then s
    else if s[..|search|] == search then replace + ReplaceAll(s[|search|..], search, replace)
    else [s[0]] + ReplaceAll(s[1..], search, replace)
  }

  /** `str_replace(array_keys($params), array_values($params), $s)`: each pair replaced in turn. */
  function Substitute(params: Entries, s: string): string
  {
    if params == [] then s
    else Substitute(params[1..], ReplaceAll(s, KeyText(params[0].0), StrVal(params[0].1)))
  }

  /** The array key a value becomes: null is '', a boolean 0 or 1; an array is not a valid key. */
  function ArrayKey(v: Value): Option<Key>
  {
    match v
    case Null => Some(StrKey(""))
    case Bool(b) => Some(IntKey(if b then 1 else 0))
    case Int(i) => Some(IntKey(i))
    case Str(s) => Some(StrKey(s))
    case Arr(_) => None
  }

  /** `$column[0]`: the first character of a string, element 0 of an array, and null for anything else. */
  function FirstOf(column: Value): Value
  {
    match column
    case Str(s) => Str(if s == [] then "" else [s[0]])
    case Arr(es) => GetOr(es, IntKey(0), Null)
    case _ => Null
  }

  // -------------------------------------------------- condition compiler

  /** The upper-cased operator of an operator-format condition. */
  function OperatorOf(c: Value): string
    requires c.Arr?
  {
    ToUpper(StrVal(GetOr(c.entries, IntKey(0), Null)))
  }

  predicate IsOperatorFormat(c: Value)
  {
    c.Arr? && Isset(c.entries, IntKey(0))
  }

  /** `buildHashCondition`: every non-array value, placeholders substituted, under its attribute. */
  function HashParts(es: Entries, params: Entries): Entries
  {
    if es == [] then []
    else
      var parts := HashParts(es[..|es| - 1], params);
      var (attribute, value) := es[|es| - 1];
      if value.Arr? then parts else Put(parts, attribute, Str(Substitute(params, StrVal(value))))
  }

  /** `buildInCondition`: `{operands[0][0]: {in: values}}`, with [-1] standing in for no values. */
  function InCondition(operands: Entries): Outcome<Entries>
  {
    var values := GetOr(operands, IntKey(1), Null);
    match ArrayKey(FirstOf(GetOr(operands, IntKey(0), Null)))
    case None => Err(Thrown("TypeError", "Illegal offset type"))
    case Some(k) => Ok([(k, Single("in", if IsEmpty(values) then List([Int(-1)]) else values))])
  }

  /** `buildCondition($condition)`: [] for an empty or non-array condition; AND and IN in operator format; hash format otherwise. */
  function Condition(c: Value, params: Entries): Outcome<Entries>
    decreases c, 2
  {
    if !c.Arr? || c.entries == [] then Ok([])
    else if IsOperatorFormat(c) then
      var op := OperatorOf(c);
      if op == "AND" then AndFrom(c, params, 0, [])
      else if op == "IN" then InCondition(Shift(c.entries))
      else Err(Thrown("NotSupportedException", op + " is not supported."))
    else Ok(HashParts(c.entries, params))
  }

  /** `buildAndCondition`: the operands' results merged in from the `i`-th on, starting from `acc`. */
  function AndFrom(c: Value, params: Entries, i: nat, acc: Entries): Outcome<Entries>
    requires c.Arr? && c.entries != [] && i <= |Shift(c.entries)|
    decreases c, 1, |Shift(c.entries)| - i
  {
    var operands := Shift(c.entries);
    if i == |operands| then Ok(acc)
    else
      assert operands[i].1 == c.entries[i + 1].1;
      match Condition(operands[i].1, params)
      case Err(e) => Err(e)
      case Ok(part) => AndFrom(c, params, i + 1, Merge(acc, part))
  }

  /** `buildHashCondition($condition)`. */
  method BuildHashCondition(condition: Entries, params: Entries) returns (parts: Entries)
    ensures parts == HashParts(condition, params)
  {
    parts := [];
    var i := 0;
    while i < |condition|
      invariant 0 <= i <= |condition|
      invariant parts == HashParts(condition[..i], params)
    {
      var (attribute, value) := condition[i];
      assert condition[..i + 1][..i] == condition[..i];
      if !value.Arr? {
        parts := Put(parts, attribute, Str(Substitute(params, StrVal(value))));
      }
      i := i + 1;
    }
    assert condition[..|condition|] == condition;
  }

  /** `buildCondition($condition)`. */
  method BuildCondition(c: Value, params: Entries) returns (r: Outcome<Entries>)
    ensures r == Condition(c, params)
    decreases c, 2
  {
    if !c.Arr? || c.entries == [] {
      return Ok([]);
    }
    if IsOperatorFormat(c) {
      var operator := ToUpper(StrVal(GetOr(c.entries, IntKey(0), Null)));
      if operator != "AND" && operator != "IN" {
        return Err(Thrown("NotSupportedException", operator + " is not supported."));
      }
      if operator == "AND" {
        r := BuildAndCondition(c, params);
      } else {
        r := InCondition(Shift(c.entries));
      }
    } else {
      var parts := BuildHashCondition(c.entries, params);
      r := Ok(parts);
    }
  }

  /** `buildAndCondition($operator, $operands)` for the operands of `c`. */
  method BuildAndCondition(c: Value, params: Entries) returns (r: Outcome<Entries>)
    requires c.Arr? && c.entries != []
    ensures r == AndFrom(c, params, 0, [])
    decreases c, 1
  {
    var operands := Shift(c.entries);
    var andResult: Entries := [];
    var i := 0;
    while i < |operands|
      invariant 0 <= i <= |operands|
      invariant AndFrom(c, params, i, andResult) == AndFrom(c, params, 0, [])
    {
      assert operands[i].1 == c.entries[i + 1].1;
      var part := BuildCondition(operands[i].1, params);
      if part.Err? {
        return Err(part.thrown);
      }
      andResult := Merge(andResult, part.value);
      i := i + 1;
    }
    r := Ok(andResult);
  }

  // ---------------------------------------------------------- build

  /** A clause the pruning loop removes: '', an empty array or null. */
  predicate IsBlank(v: Value)
  {
    v == Str("") || v == Arr([]) || v == Null
  }

  function Prune(es: Entries): Entries
  {
    if es == [] then []
    else
      var kept := Prune(es[..|es| - 1]);
      if IsBlank(es[|es| - 1].1) then kept else kept + [es[|es| - 1]]
  }

  function Clauses(q: Query, filter: Entries): Entries
  {
    [(StrKey("fields"), Str(RestQueryBuilder.BuildSelect(q.select))),
     (StrKey("pathInfo"), Str(RestQueryBuilder.BuildFrom(q.from))),
     (StrKey("expand"), Str(Implode(",", RestQueryBuilder.JoinNames(q.join)))),
     (StrKey("filter"), Arr(filter)),
     (StrKey("sort"), Str(Implode(",", RestQueryBuilder.OrderTerms(q.orderBy))))]
  }

  /** The clauses merged with the limit clauses, pruned, with `pathInfo` taken out. */
  function Assemble(q: Query, filter: Entries, limits: Entries): Compiled
  {
    var (pathInfo, rest) := Remove(Prune(Merge(Clauses(q, filter), limits)), StrKey("pathInfo"), Null);
    Compiled(q.modelClass, pathInfo, rest)
  }

  /** The result `build()` specifies. */
  function Compile(q: Query, params: Entries): Outcome<Compiled>
  {
    match Condition(q.where, params)
    case Err(e) => Err(e)
    case Ok(filter) =>
      match RestQueryBuilder.BuildLimit(q.limit, q.offset)
      case Err(e) => Err(e)
      case Ok(limits) => Ok(Assemble(q, filter, limits))
  }

  /**
   * `build($query, $params)`. `params` are the bound parameters the clauses see:
   * the source merges the given ones with the query's own, and its only caller,
   * `Query::createCommand()`, passes none, so they are the query's parameters.
   */
  method Build(q: Query, params: Entries) returns (r: Outcome<Compiled>)
    ensures r == Compile(q, params)
  {
    var expand := RestQueryBuilder.BuildJoin(q.join);
    var filter := BuildCondition(q.where, params);
    if filter.Err? {
      return Err(filter.thrown);
    }
    var sort := RestQueryBuilder.BuildOrderBy(q.orderBy);
    var clauses := [(StrKey("fields"), Str(RestQueryBuilder.BuildSelect(q.select))),
                    (StrKey("pathInfo"), Str(RestQueryBuilder.BuildFrom(q.from))),
                    (StrKey("expand"), Str(expand)),
                    (StrKey("filter"), Arr(filter.value)),
                    (StrKey("sort"), Str(sort))];
    var limits := RestQueryBuilder.BuildLimit(q.limit, q.offset);
    if limits.Err? {
      return Err(limits.thrown);
    }
    clauses := Merge(clauses, limits.value);
    var kept: Entries := [];
    var i := 0;
    while i < |clauses|
      invariant 0 <= i <= |clauses|
      invariant kept == Prune(clauses[..i])
    {
      assert clauses[..i + 1][..i] == clauses[..i];
      if !IsBlank(clauses[i].1) {
        kept := kept + [clauses[i]];
      }
      i := i + 1;
    }
    assert clauses[..|clauses|] == clauses;
    var (pathInfo, rest) := Remove(kept, StrKey("pathInfo"), Null);
    r := Ok(Compiled(q.modelClass, pathInfo, rest));
  }

  // --------------------------------------------------------------- lemmas

  /** Pruning removes exactly the blank entries: 0, "0" and false survive. */
  lemma {:induction false} PruneKeeps(es: Entries, e: (Key, Value))
    ensures e in Prune(es) <==> e in es && !IsBlank(e.1)
  {
    if es != [] {
      PruneKeeps(es[..|es| - 1], e);
      assert es == es[..|es| - 1] + [es[|es| - 1]];
    }
  }

  /** The limit clauses do not collide with the five clause names, so array_merge appends them. */
  lemma MergedClauses(q: Query, filter: Entries, limits: Entries)
    requires RestQueryBuilder.BuildLimit(q.limit, q.offset) == Ok(limits)
    ensures Merge(Clauses(q, filter), limits) == Clauses(q, filter) + limits
    ensures forall e :: e in limits ==> e.0 in {StrKey("per-page"), StrKey("page")}
  {
    RestQueryBuilder.LimitKeys(q.limit, q.offset);
    RestQueryBuilder.MergeKeyed(Clauses(q, filter), limits);
  }

  /**
   * The parameters are the merged clauses without `pathInfo` and without the blank
   * ones; `pathInfo` is returned apart, and is null when the table name was blank.
   */
  lemma AssembledParams(q: Query, filter: Entries, limits: Entries)
    requires RestQueryBuilder.BuildLimit(q.limit, q.offset) == Ok(limits)
    ensures var c := Assemble(q, filter, limits);
      var from := RestQueryBuilder.BuildFrom(q.from);
      c.pathInfo == (if from == "" then Null else Str(from))
      && forall e :: e in c.queryParams <==> e in Clauses(q, filter) + limits && e.0 != StrKey("pathInfo") && !IsBlank(e.1)
  {
    MergedClauses(q, filter, limits);
    var c := Clauses(q, filter);
    var merged := c + limits;
    RestQueryBuilder.ClauseKeysDistinct(c);
    forall i | 0 <= i < |merged| && i != 1
      ensures merged[i].0 != StrKey("pathInfo")
    {
      if i >= 5 {
        assert merged[i] == limits[i - 5];
      } else {
        assert merged[i] == c[i];
      }
    }
    PrunedWithout(merged, StrKey("pathInfo"), 1);
  }

  /** Pruning, then taking out the one entry with key `k`: that entry's value unless blank, and the other non-blank entries. */
  lemma PrunedWithout(es: Entries, k: Key, j: nat)
    requires j < |es| && es[j].0 == k && forall i :: 0 <= i < |es| && i != j ==> es[i].0 != k
    ensures var (v, rest) := Remove(Prune(es), k, Null);
      v == (if IsBlank(es[j].1) then Null else es[j].1)
      && forall e :: e in rest <==> e in es && e.0 != k && !IsBlank(e.1)
  {
    var pruned := Prune(es);
    forall e
      ensures e in Delete(pruned, k) <==> e in es && e.0 != k && !IsBlank(e.1)
    {
      PruneKeeps(es, e);
      DeleteKeeps(pruned, k, e);
    }
    PruneFirstKey(es, k, j);
  }

  /** `build()`'s parameters and `pathInfo`, for a query whose condition and limits compile. */
  lemma CompiledParams(q: Query, params: Entries)
    requires Compile(q, params).Ok?
    ensures var filter := Condition(q.where, params).value;
      var limits := RestQueryBuilder.BuildLimit(q.limit, q.offset).value;
      var c := Compile(q, params).value;
      var from := RestQueryBuilder.BuildFrom(q.from);
      c.pathInfo == (if from == "" then Null else Str(from))
      && forall e :: e in c.queryParams <==> e in Clauses(q, filter) + limits && e.0 != StrKey("pathInfo") && !IsBlank(e.1)
  {
    AssembledParams(q, Condition(q.where, params).value, RestQueryBuilder.BuildLimit(q.limit, q.offset).value);
  }

  /** Pruning a sequence whose only `k` entry sits at position `j` leaves that entry's fate to its value. */
  lemma {:induction false} PruneFirstKey(es: Entries, k: Key, j: nat)
    requires j < |es| && es[j].0 == k && forall i :: 0 <= i < |es| && i != j ==> es[i].0 != k
    ensures Get(Prune(es), k) == if IsBlank(es[j].1) then None else Some(es[j].1)
  {
    var p := Prune(es);
    forall i | 0 <= i < |p|
      ensures p[i].0 == k ==> p[i] == es[j]
    {
      PruneKeeps(es, p[i]);
      assert p[i] in p;
      var m :| 0 <= m < |es| && es[m] == p[i];
    }
    PruneKeeps(es, es[j]);
    if !IsBlank(es[j].1) {
      var m :| 0 <= m < |p| && p[m] == es[j];
      GetFinds(p, k, m);
    }
  }

  lemma {:induction false} GetFinds(es: Entries, k: Key, m: nat)
    requires m < |es| && es[m].0 == k && forall i :: 0 <= i < |es| && es[i].0 == k ==> es[i] == es[m]
    ensures Get(es, k) == Some(es[m].1)
  {
    if es[0].0 != k {
      GetFinds(es[1..], k, m - 1);
    }
  }

  /** A limit of 0 is sent as per-page "0" here, where the `src/` builder drops it. */
  lemma ZeroLimitKept(q: Query, params: Entries)
    requires q.limit == Some(0) && q.offset.None? && Condition(q.where, params).Ok?
    ensures Compile(q, params).Ok? && (StrKey("per-page"), Str("0")) in Compile(q, params).value.queryParams
  {
    var filter := Condition(q.where, params).value;
    var e := (StrKey("per-page"), Str("0"));
    assert RestQueryBuilder.BuildLimit(q.limit, q.offset) == Ok([e]);
    assert Compile(q, params) == Ok(Assemble(q, filter, [e]));
    AssembledParams(q, filter, [e]);
    assert e in Clauses(q, filter) + [e] && !IsBlank(e.1);
  }

  /** Only AND and IN exist, in any letter case; every other operator throws NotSupportedException. */
  lemma OperatorDispatch(c: Value, params: Entries)
    requires IsOperatorFormat(c)
    ensures OperatorOf(c) != "AND" && OperatorOf(c) != "IN" ==>
      Condition(c, params) == Err(Thrown("NotSupportedException", OperatorOf(c) + " is not supported."))
    ensures OperatorOf(c) == "IN" ==> Condition(c, params) == InCondition(Shift(c.entries))
  {
  }

  /** `['or', …]` is not supported. */
  lemma OrIsNotSupported(a: Value, b: Value)
    ensures Condition(Arr([(IntKey(0), Str("or")), (IntKey(1), a), (IntKey(2), b)]), []) == Err(Thrown("NotSupportedException", "OR" + " is not supported."))
  {
    var c := Arr([(IntKey(0), Str("or")), (IntKey(1), a), (IntKey(2), b)]);
    assert ToUpper("or") == [UpperChar('o')] + ToUpper("r");
    OperatorNamed(c, "or", "OR");
    OperatorDispatch(c, []);
  }

  /** A condition led by the word `w` at key 0 is in operator format, with `w` upper-cased as its operator. */
  lemma OperatorNamed(c: Value, w: string, upper: string)
    requires c.Arr? && |c.entries| > 0 && c.entries[0] == (IntKey(0), Str(w)) && ToUpper(w) == upper
    ensures IsOperatorFormat(c) && OperatorOf(c) == upper
  {
    assert Get(c.entries, IntKey(0)) == Some(Str(w));
  }

  /** An empty condition, or one that is not an array, gives no filter. */
  lemma EmptyConditionIsEmptyFilter(c: Value, params: Entries)
    requires IsEmpty(c) || !c.Arr?
    ensures Condition(c, params) == Ok([])
  {
  }

  /** The hash form keeps exactly the attributes whose value is not an array, in order, placeholders substituted. */
  lemma {:induction false} HashKeepsScalars(es: Entries, params: Entries, k: Key)
    requires forall i, j :: 0 <= i < j < |es| ==> es[i].0 != es[j].0
    ensures Get(HashParts(es, params), k) ==
      match Get(es, k)
      case None => None
      case Some(v) => if v.Arr? then None else Some(Str(Substitute(params, StrVal(v))))
  {
    if es != [] {
      var init := es[..|es| - 1];
      var (attribute, value) := es[|es| - 1];
      HashKeepsScalars(init, params, k);
      assert es == init + [(attribute, value)];
      AppendGet(init, attribute, value);
      if !value.Arr? {
        PutGet(HashParts(init, params), attribute, Str(Substitute(params, StrVal(value))), k);
      }
    }
  }

  /** Without bound parameters a scalar value reaches the filter as its text. */
  lemma NoParamsNoSubstitution(s: string)
    ensures Substitute([], s) == s
  {
  }

  /** A bound placeholder is replaced by its value's text. */
  lemma PlaceholderReplaced()
    ensures Substitute([(StrKey(":id"), Int(5))], ":id") == "5"
  {
    assert ReplaceAll(":id", ":id", "5") == "5" + ReplaceAll("", ":id", "5");
    assert StrVal(Int(5)) == [DigitChar(5)] == "5";
  }

  /** `search` occurs in `s` at position `i`. */
  predicate OccursAt(s: string, search: string, i: int)
  {
    0 <= i && i + |search| <= |s| && s[i..i + |search|] == search
  }

  /** Text that does not contain the search string is left as it is. */
  lemma {:induction false} ReplaceAbsent(s: string, search: string, replace: string)
    requires forall i :: !OccursAt(s, search, i)
    ensures ReplaceAll(s, search, replace) == s
    decreases |s|
  {
    if search != [] && |s| >= |search| {
      assert !OccursAt(s, search, 0);
      assert s[0..|search|] == s[..|search|];
      forall i
        ensures !OccursAt(s[1..], search, i)
      {
        if 0 <= i && i + |search| <= |s[1..]| {
          assert s[1..][i..i + |search|] == s[i + 1..i + 1 + |search|];
          assert !OccursAt(s, search, i + 1);
        }
      }
      ReplaceAbsent(s[1..], search, replace);
    }
  }

  /** `array_shift` of a list of two or three values renumbers the rest from 0. */
  lemma ShiftList(x0: Value, x1: Value, x2: Value)
    ensures Shift([(IntKey(0), x0), (IntKey(1), x1)]) == [(IntKey(0), x1)]
    ensures Shift([(IntKey(0), x0), (IntKey(1), x1), (IntKey(2), x2)]) == [(IntKey(0), x1), (IntKey(1), x2)]
  {
    var last := [(IntKey(2), x2)];
    assert Renumber(last, 1) == [(IntKey(1), x2)] + Renumber(last[1..], 2);
    var rest := [(IntKey(1), x1)] + last;
    assert rest[1..] == last;
    assert Renumber(rest, 0) == [(IntKey(0), x1)] + Renumber(last, 1);
    var three := [(IntKey(0), x0)] + rest;
    assert three[1..] == rest;
    var one := [(IntKey(1), x1)];
    assert Renumber(one, 0) == [(IntKey(0), x1)] + Renumber(one[1..], 1);
    var two := [(IntKey(0), x0)] + one;
    assert two[1..] == one;
  }

  /** IN keys the result by `operands[0][0]`: for a string column that is its first character. */
  lemma InStringColumnUsesFirstCharacter(column: string, values: Value)
    requires !IsEmpty(values)
    ensures Condition(Arr([(IntKey(0), Str("in")), (IntKey(1), Str(column)), (IntKey(2), values)]), [])
         == Ok([(StrKey(if column == [] then "" else [column[0]]), Single("in", values))])
  {
    var c := Arr([(IntKey(0), Str("in")), (IntKey(1), Str(column)), (IntKey(2), values)]);
    assert ToUpper("in") == [UpperChar('i')] + ToUpper("n");
    OperatorNamed(c, "in", "IN");
    OperatorDispatch(c, []);
    ShiftList(Str("in"), Str(column), values);
    var operands := [(IntKey(0), Str(column)), (IntKey(1), values)];
    assert GetOr(operands, IntKey(0), Null) == Str(column);
    assert operands[1..] == [(IntKey(1), values)];
    assert Get(operands[1..], IntKey(1)) == Some(values);
    assert GetOr(operands, IntKey(1), Null) == values;
  }

  /** IN with a one-column array and no values gives `{column: {in: [-1]}}`, a filter no row matches by id. */
  lemma InWithoutValues(column: string)
    ensures Condition(Arr([(IntKey(0), Str("IN")), (IntKey(1), Arr([(IntKey(0), Str(column))]))]), [])
         == Ok([(StrKey(column), Single("in", List([Int(-1)])))])
  {
    var c := Arr([(IntKey(0), Str("IN")), (IntKey(1), Arr([(IntKey(0), Str(column))]))]);
    assert ToUpper("IN") == [UpperChar('I')] + ToUpper("N");
    OperatorNamed(c, "IN", "IN");
    OperatorDispatch(c, []);
    ShiftList(Str("IN"), Arr([(IntKey(0), Str(column))]), Null);
    var operands := [(IntKey(0), Arr([(IntKey(0), Str(column))]))];
    assert GetOr(operands, IntKey(0), Null) == Arr([(IntKey(0), Str(column))]);
    assert GetOr(operands, IntKey(1), Null) == Null;
  }

  lemma {:induction false} HashPartsUnique(es: Entries, params: Entries)
    ensures UniqueKeys(HashParts(es, params))
  {
    if es != [] {
      HashPartsUnique(es[..|es| - 1], params);
      var (attribute, value) := es[|es| - 1];
      if !value.Arr? {
        PutUnique(HashParts(es[..|es| - 1], params), attribute, Str(Substitute(params, StrVal(value))));
      }
    }
  }

  /** `['and', a, b]` with two hash-format operands merges their parts, the first operand's before the second's. */
  lemma AndOfTwoHashes(a: Entries, b: Entries, params: Entries)
    requires a != [] && b != [] && !Isset(a, IntKey(0)) && !Isset(b, IntKey(0))
    ensures Condition(Arr([(IntKey(0), Str("and")), (IntKey(1), Arr(a)), (IntKey(2), Arr(b))]), params)
         == Ok(Merge(Merge([], HashParts(a, params)), HashParts(b, params)))
  {
    var c := Arr([(IntKey(0), Str("and")), (IntKey(1), Arr(a)), (IntKey(2), Arr(b))]);
    assert ToUpper("and") == [UpperChar('a')] + ToUpper("nd");
    OperatorNamed(c, "and", "AND");
    ShiftList(Str("and"), Arr(a), Arr(b));
    var operands := Shift(c.entries);
    assert operands[0].1 == Arr(a) && operands[1].1 == Arr(b);
    var ha := HashParts(a, params);
    var hb := HashParts(b, params);
    assert AndFrom(c, params, 0, []) == AndFrom(c, params, 1, Merge([], ha));
    assert AndFrom(c, params, 1, Merge([], ha)) == AndFrom(c, params, 2, Merge(Merge([], ha), hb));
  }

  /** AND merges left to right, so for an attribute both operands set the later operand's value wins. */
  lemma AndLaterOperandWins(a: Entries, b: Entries, params: Entries, s: string)
    requires a != [] && b != [] && !Isset(a, IntKey(0)) && !Isset(b, IntKey(0))
    ensures var ha := HashParts(a, params);
      var hb := HashParts(b, params);
      var r := Condition(Arr([(IntKey(0), Str("and")), (IntKey(1), Arr(a)), (IntKey(2), Arr(b))]), params);
      r.Ok? && Get(r.value, StrKey(s)) == if StrKey(s) in KeysOf(hb) then Get(hb, StrKey(s)) else Get(ha, StrKey(s))
  {
    AndOfTwoHashes(a, b, params);
    var ha := HashParts(a, params);
    var hb := HashParts(b, params);
    HashPartsUnique(a, params);
    HashPartsUnique(b, params);
    LastGetUnique(ha, StrKey(s));
    LastGetUnique(hb, StrKey(s));
    var m := Merge([], ha);
    MergeOverwrites(m, hb, s);
    MergeOverwrites([], ha, s);
    MergeIntoUnique(MergeInto([], []), ha);
    LastGetUnique(m, StrKey(s));
    if StrKey(s) !in KeysOf(ha) {
      assert Get(ha, StrKey(s)) == None by {
        forall i | 0 <= i < |ha|
          ensures ha[i].0 != StrKey(s)
        {
          assert KeysOf(ha)[i] == ha[i].0;
        }
      }
    }
  }
}
