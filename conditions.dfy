/**
 * The condition builders of the `src/` lineage (the classes under src/conditions).
 * They lower a condition tree, as the framework's condition classes hold it,
 * into the nested filter map the REST API receives: `{column: {token: value}}`
 * leaves, `{not: …}`, `{AND|OR: [parts]}` and the always-false sentinel `{0: 1}`.
 *
 * A positional or hash array that the framework parses into a condition object
 * (createConditionFromArray) is represented by the condition it parses into.
 */
module Conditions {
  import opened Php

  datatype Junction = And | Or

  /** `getOperator()` of the framework's AndCondition and OrCondition. */
  function JunctionWord(j: Junction): string
  {
    match j
    case And => "AND"
    case Or => "OR"
  }

  /** The value of a simple condition: a bound value, or an expression object. */
  datatype Operand = Lit(value: Value) | Expr(condition: Condition)

  /** The value of one hash entry: a plain value (arrays included), a sub-query object, or an expression object. */
  datatype HashValue = Plain(value: Value) | SubQuery | Nested(condition: Condition)

  /** The column of an IN condition: a name, an array of names, or a Traversable object. */
  datatype InColumn = Column(name: string) | Columns(names: seq<string>) | ColumnIterator

  /** The values of an IN condition after the framework's `buildValues`, or a sub-query object. */
  datatype InValues = Built(values: seq<Value>) | SubQueryValues

  /** What the framework's `parseOperator` reads from a LIKE operator: the and/or word and the NOT flag. */
  datatype LikeOperator = LikeOperator(junction: Junction, negated: bool)

  /** One LIKE value: a bound value or an expression object. */
  datatype LikeItem = Bound(value: Value) | Expression(condition: Condition)

  /** The value of a LIKE condition: a single non-array value, or an array of values. */
  datatype LikeValue = One(item: LikeItem) | Many(items: seq<LikeItem>)

  /** An operand of AND/OR: a condition (array or object) or a raw string. */
  datatype ConjOperand = Sub(condition: Condition) | Text(text: string)

  /** The operand of NOT: an array the framework parses, a condition object, or a string. */
  datatype NotOperand = ArrayForm(condition: Condition) | ObjectForm(condition: Condition) | TextForm(text: string)

  datatype Condition =
    | Simple(column: string, operator: string, operand: Operand)
    | Hash(entries: seq<(string, HashValue)>)
    | In(inOperator: string, inColumn: InColumn, values: InValues)
    | Between(betweenOperator: string, betweenColumn: string, start: Value, end: Value)
    | Like(likeOperator: LikeOperator, likeColumn: string, likeValue: LikeValue)
    | Conjunction(junction: Junction, operands: seq<ConjOperand>)
    | Not(notOperand: NotOperand)

  // ------------------------------------------------------- simple condition

  /**
   * `filterControls` (src/conditions/SimpleConditionBuilder.php:19-32): the token of
   * an operator. An operator outside the table reads as null, which PHP turns into
   * the key "".
   */
  function Token(op: string): string
  {
    if op == "AND" then "and"
    else if op == "OR" then "or"
    else if op == "NOT" then "not"
    else if op == "<" then "lt"
    else if op == ">" then "gt"
    else if op == "<=" then "lte"
    else if op == ">=" then "gte"
    else if op == "=" then "eq"
    else if op == "!=" then "neq"
    else if op == "IN" then "in"
    else if op == "NOT IN" then "nin"
    else if op == "LIKE" then "like"
    else ""
  }

  /** The operator a filter token stands for: the table read backwards. */
  function OperatorOf(token: string): Option<string>
  {
    if token == "and" then Some("AND")
    else if token == "or" then Some("OR")
    else if token == "not" then Some("NOT")
    else if token == "lt" then Some("<")
    else if token == "gt" then Some(">")
    else if token == "lte" then Some("<=")
    else if token == "gte" then Some(">=")
    else if token == "eq" then Some("=")
    else if token == "neq" then Some("!=")
    else if token == "in" then Some("IN")
    else if token == "nin" then Some("NOT IN")
    else if token == "like" then Some("LIKE")
    else None
  }

  /** `{column: {token: value}}`. */
  function SimpleOf(column: string, op: string, v: Value): Value
  {
    Single(column, Single(Token(op), v))
  }

  /** The always-false sentinel `[0 => 1]`. */
  function AlwaysFalse(): Value
  {
    Arr([(IntKey(0), Int(1))])
  }

  // ---------------------------------------------------------- the compiler

  /**
   * The first exception among `outs`, in order, or all their values: how a
   * builder's foreach over its parts ends.
   */
  function Collect(outs: seq<Outcome<Value>>): (r: Outcome<seq<Value>>)
    ensures r.Ok? <==> forall i :: 0 <= i < |outs| ==> outs[i].Ok?
    ensures r.Ok? ==> |r.value| == |outs| && forall i :: 0 <= i < |outs| ==> r.value[i] == outs[i].value
    ensures r.Err? ==> exists k :: 0 <= k < |outs| && outs[k] == Err(r.thrown) && forall j :: 0 <= j < k ==> outs[j].Ok?
  {
    if outs == [] then Ok([])
    else match outs[0]
      case Err(e) => Err(e)
      case Ok(v) =>
        match Collect(outs[1..])
        case Err(e) =>
          assert exists k :: 0 <= k < |outs[1..]| && outs[1..][k] == Err(e) && forall j :: 0 <= j < k ==> outs[1..][j].Ok?;
          var k :| 0 <= k < |outs[1..]| && outs[1..][k] == Err(e) && forall j :: 0 <= j < k ==> outs[1..][j].Ok?;
          assert outs[k + 1] == Err(e) && forall j :: 0 <= j < k + 1 ==> outs[j].Ok?;
          Err(e)
        case Ok(vs) => Ok([v] + vs)
  }

  /** One hash entry whose value is plain: arrays go to an IN condition object, which `buildCondition` turns into []. */
  function PlainPart(column: string, v: Value): (r: Value)
    ensures r.Arr?
  {
    if v.Arr? then Arr([]) else Single(column, v)
  }

  function HashPart(column: string, h: HashValue): (r: Outcome<Value>)
    ensures r.Ok? ==> r.value.Arr?
    decreases h, 0
  {
    match h
    case Plain(v) => Ok(PlainPart(column, v))
    case SubQuery => Ok(Arr([]))
    case Nested(e) =>
      match Build(e)
      case Err(t) => Err(t)
      case Ok(b) => Ok(Single(column, b))
  }

  /** The parts HashConditionBuilder collects, one per hash entry and in entry order. */
  function HashParts(c: Condition): (parts: seq<Outcome<Value>>)
    requires c.Hash?
    ensures |parts| == |c.entries|
    ensures forall i :: 0 <= i < |parts| ==> parts[i] == HashPart(c.entries[i].0, c.entries[i].1)
    decreases c, 1
  {
    seq(|c.entries|, i requires 0 <= i < |c.entries| => HashPart(c.entries[i].0, c.entries[i].1))
  }

  /** `count($parts) === 1 ? $parts[0] : $parts`. */
  function Unwrap(parts: seq<Value>): Value
  {
    if |parts| == 1 then parts[0] else List(parts)
  }

  /** The value one AND/OR operand builds to: a condition's built map, or the string as it is. */
  function OperandPart(o: ConjOperand): (r: Outcome<Value>)
    ensures o.Sub? && r.Ok? ==> r.value.Arr?
    ensures o.Text? ==> r == Ok(Str(o.text))
    decreases o, 0
  {
    match o
    case Sub(x) => Build(x)
    case Text(s) => Ok(Str(s))
  }

  function OperandParts(c: Condition): (parts: seq<Outcome<Value>>)
    requires c.Conjunction?
    ensures |parts| == |c.operands|
    ensures forall i :: 0 <= i < |parts| ==> parts[i] == OperandPart(c.operands[i])
    decreases c, 1
  {
    seq(|c.operands|, i requires 0 <= i < |c.operands| => OperandPart(c.operands[i]))
  }

  /** Drops the parts that are the empty string (`$condition !== ''`). */
  function DropBlank(parts: seq<Value>): (r: seq<Value>)
    ensures Str("") !in r
  {
    if parts == [] then []
    else if parts[0] == Str("") then DropBlank(parts[1..])
    else [parts[0]] + DropBlank(parts[1..])
  }

  /** ConjunctionConditionBuilder::buildExpressionsFrom: the parts in order without '', or the first exception. */
  function ExpressionsFrom(c: Condition): Outcome<seq<Value>>
    requires c.Conjunction?
    decreases c, 2
  {
    match Collect(OperandParts(c))
    case Err(t) => Err(t)
    case Ok(parts) => Ok(DropBlank(parts))
  }

  /** What ConjunctionConditionBuilder::build returns for the parts it collected. */
  function ConjunctionOf(j: Junction, parts: seq<Value>): Value
  {
    if parts == [] then Arr([])
    else if |parts| == 1 then List(parts)
    else Single(JunctionWord(j), List(parts))
  }

  /** The placeholder one LIKE value contributes: an array contributes its first element. */
  function LikeTerm(item: LikeItem): Outcome<Value>
    decreases item, 0
  {
    match item
    case Bound(v) => Ok(if v.Arr? then Reset(v.entries) else v)
    case Expression(e) =>
      match Build(e)
      case Err(t) => Err(t)
      case Ok(b) => Ok(Reset(b.entries))
  }

  /** The placeholders of a LIKE condition, after a non-array value is wrapped into a list. */
  function LikeTerms(c: Condition): (terms: seq<Outcome<Value>>)
    requires c.Like?
    ensures |terms| == |LikeItems(c.likeValue)|
    ensures forall i :: 0 <= i < |terms| ==> terms[i] == LikeTerm(LikeItems(c.likeValue)[i])
    decreases c, 1
  {
    var xs := LikeItems(c.likeValue);
    seq(|xs|, i requires 0 <= i < |xs| => LikeTerm(xs[i]))
  }

  /** `if (!is_array($values)) $values = [$values]`. */
  function LikeItems(v: LikeValue): (xs: seq<LikeItem>)
    ensures v.One? ==> xs == [v.item]
    ensures v.Many? ==> xs == v.items
  {
    match v
    case One(x) => [x]
    case Many(xs) => xs
  }

  /** The and/or word `parseOperator` returns: the junction with a blank on each side. */
  function AndOr(j: Junction): string
  {
    " " + JunctionWord(j) + " "
  }

  /**
   * LikeConditionBuilder::build once every placeholder is known. No values: [] for
   * NOT LIKE, and otherwise the sentinel `[0 => 1]` handed to `buildCondition`, which
   * reads 1 as an operator without operands. One value: its part. Two or more: the
   * and/or word is put in front of the parts and the array handed to
   * `buildCondition`, which reads the word as an unknown operator; with two parts
   * the operator's builder is handed an array as column, which PHP refuses as an
   * array key, and with more parts the operator lacks its two operands.
   */
  function BuildLike(op: LikeOperator, column: string, terms: seq<Value>): Outcome<Value>
  {
    if terms == [] then
      if op.negated then Ok(Arr([])) else Err(Thrown("InvalidArgumentException", "Operator '1' requires two operands."))
    else if |terms| == 1 then Ok(Single(column, Single("like", terms[0])))
    else if |terms| == 2 then Err(Thrown("TypeError", "Illegal offset type"))
    else Err(Thrown("InvalidArgumentException", "Operator '" + AndOr(op.junction) + "' requires two operands."))
  }

  /** InConditionBuilder::build (src/conditions/InConditionBuilder.php:25-65). */
  function BuildIn(op: string, column: InColumn, values: InValues): (r: Value)
    ensures r.Arr?
  {
    if column == Columns([]) then AlwaysFalse()
    else if values.SubQueryValues? then Arr([])
    else if column.ColumnIterator? || (column.Columns? && |column.names| > 1) then Arr([])
    else
      var name := if column.Columns? then column.names[0] else column.name;
      var vs := values.values;
      if vs == [] then AlwaysFalse()
      else if |vs| > 1 then Single(name, Single(if op == "IN" then "in" else "nin", List(vs)))
      else if op == "IN" then Single(name, vs[0])
      else Single("not", PlainPart(name, vs[0]))
  }

  /** BetweenConditionBuilder::build (src/conditions/BetweenConditionBuilder.php:27-50). */
  function BuildBetween(op: string, column: string, start: Value, end: Value): (r: Value)
    ensures r.Arr?
  {
    if op == "BETWEEN" then Single(column, Arr([(StrKey("gt"), start), (StrKey("lt"), end)]))
    else ConjunctionOf(Or, [SimpleOf(column, "<", start), SimpleOf(column, ">", end)])
  }

  /** `buildExpression`: the filter map a condition object builds to, or the exception building it throws. */
  function Build(c: Condition): (r: Outcome<Value>)
    ensures r.Ok? ==> r.value.Arr?
    decreases c, 3
  {
    match c
    case Simple(col, op, Lit(v)) => Ok(SimpleOf(col, op, v))
    case Simple(col, op, Expr(e)) =>
      (match Build(e)
       case Err(t) => Err(t)
       case Ok(b) => Ok(Single(col, Single(Token(op), b))))
    case Hash(_) =>
      (match Collect(HashParts(c))
       case Err(t) => Err(t)
       case Ok(parts) => Ok(Unwrap(parts)))
    case In(op, col, vals) => Ok(BuildIn(op, col, vals))
    case Between(op, col, s, e) => Ok(BuildBetween(op, col, s, e))
    case Like(op, col, _) =>
      (match Collect(LikeTerms(c))
       case Err(t) => Err(t)
       case Ok(terms) => BuildLike(op, col, terms))
    case Conjunction(j, _) =>
      (match ExpressionsFrom(c)
       case Err(t) => Err(t)
       case Ok(parts) => Ok(ConjunctionOf(j, parts)))
    case Not(ArrayForm(x)) =>
      if x == Hash([]) then Ok(Arr([]))
      else
        (match Build(x)
         case Err(t) => Err(t)
         case Ok(b) => Ok(Single("not", b)))
    case Not(ObjectForm(_)) => Ok(Single("not", Arr([])))
    case Not(TextForm(s)) => if IsEmpty(Str(s)) then Ok(Arr([])) else Ok(Single("not", Arr([])))
  }

  // ------------------------------------------------- the builders' loops

  /** Every outcome before `i` succeeded and `i` threw, so the foreach stops with that exception. */
  lemma CollectStopsAt(outs: seq<Outcome<Value>>, i: int)
    requires 0 <= i < |outs| && outs[i].Err?
    requires forall j :: 0 <= j < i ==> outs[j].Ok?
    ensures Collect(outs) == Err(outs[i].thrown)
  {
    var k :| 0 <= k < |outs| && outs[k] == Err(Collect(outs).thrown) && forall j :: 0 <= j < k ==> outs[j].Ok?;
    assert k == i;
  }

  /** Every outcome succeeded with the values in `vs`. */
  lemma CollectAll(outs: seq<Outcome<Value>>, vs: seq<Value>)
    requires |vs| == |outs| && forall j :: 0 <= j < |outs| ==> outs[j] == Ok(vs[j])
    ensures Collect(outs) == Ok(vs)
  {
    assert Collect(outs).value == vs;
  }

  /** HashConditionBuilder::build: the foreach appending one part per entry, then the unwrap. */
  method BuildHashCondition(c: Condition) returns (r: Outcome<Value>)
    requires c.Hash?
    ensures r == Build(c)
  {
    var parts: seq<Value> := [];
    var i := 0;
    while i < |c.entries|
      invariant 0 <= i <= |c.entries| && |parts| == i
      invariant forall j :: 0 <= j < i ==> HashParts(c)[j] == Ok(parts[j])
    {
      var (column, value) := c.entries[i];
      if value.Plain? && value.value.Arr? {
        parts := parts + [Arr([])];
      } else if value.SubQuery? {
        parts := parts + [Arr([])];
      } else if value.Plain? && value.value == Null {
        parts := parts + [Single(column, Null)];
      } else if value.Nested? {
        var built := Build(value.condition);
        if built.Err? {
          CollectStopsAt(HashParts(c), i);
          return Err(built.thrown);
        }
        parts := parts + [Single(column, built.value)];
      } else {
        parts := parts + [Single(column, value.value)];
      }
      i := i + 1;
    }
    CollectAll(HashParts(c), parts);
    r := Ok(if |parts| == 1 then parts[0] else List(parts));
  }

  /** Dropping '' from a longer list drops it from the new last part alone. */
  lemma {:induction false} DropBlankAppend(parts: seq<Value>, p: Value)
    ensures DropBlank(parts + [p]) == DropBlank(parts) + (if p == Str("") then [] else [p])
  {
    if parts != [] {
      assert (parts + [p])[1..] == parts[1..] + [p];
      DropBlankAppend(parts[1..], p);
    } else {
      assert DropBlank([p]) == (if p == Str("") then [] else [p]) + DropBlank([]);
    }
  }

  /** ConjunctionConditionBuilder::buildExpressionsFrom: build each operand in order, dropping ''. */
  method BuildExpressionsFrom(c: Condition) returns (r: Outcome<seq<Value>>)
    requires c.Conjunction?
    ensures r == ExpressionsFrom(c)
  {
    ghost var built: seq<Value> := [];
    var parts: seq<Value> := [];
    var i := 0;
    while i < |c.operands|
      invariant 0 <= i <= |c.operands| && |built| == i
      invariant forall j :: 0 <= j < i ==> OperandParts(c)[j] == Ok(built[j])
      invariant parts == DropBlank(built)
    {
      var part := OperandPart(c.operands[i]);
      if part.Err? {
        CollectStopsAt(OperandParts(c), i);
        return Err(part.thrown);
      }
      DropBlankAppend(built, part.value);
      built := built + [part.value];
      if part.value != Str("") {
        parts := parts + [part.value];
      }
      i := i + 1;
    }
    CollectAll(OperandParts(c), built);
    r := Ok(parts);
  }

  /** ConjunctionConditionBuilder::build. */
  method BuildConjunctionCondition(c: Condition) returns (r: Outcome<Value>)
    requires c.Conjunction?
    ensures r == Build(c)
  {
    var parts := BuildExpressionsFrom(c);
    if parts.Err? {
      return Err(parts.thrown);
    }
    if parts.value == [] {
      return Ok(Arr([]));
    }
    if |parts.value| == 1 {
      return Ok(List(parts.value));
    }
    r := Ok(Single(JunctionWord(c.junction), List(parts.value)));
  }

  /** LikeConditionBuilder::build: normalise, one part per value, then unwrap or hand the parts to `buildCondition`. */
  method BuildLikeCondition(c: Condition) returns (r: Outcome<Value>)
    requires c.Like?
    ensures r == Build(c)
  {
    var values := if c.likeValue.One? then [c.likeValue.item] else c.likeValue.items;
    if values == [] {
      CollectAll(LikeTerms(c), []);
      if c.likeOperator.negated {
        return Ok(Arr([]));
      }
      return Err(Thrown("InvalidArgumentException", "Operator '1' requires two operands."));
    }
    var terms: seq<Value> := [];
    var parts: seq<Value> := [];
    var i := 0;
    while i < |values|
      invariant 0 <= i <= |values| && |terms| == i && |parts| == i
      invariant forall j :: 0 <= j < i ==> LikeTerms(c)[j] == Ok(terms[j])
      invariant forall j :: 0 <= j < i ==> parts[j] == Single(c.likeColumn, Single("like", terms[j]))
    {
      var term := LikeTerm(values[i]);
      if term.Err? {
        CollectStopsAt(LikeTerms(c), i);
        return Err(term.thrown);
      }
      terms := terms + [term.value];
      parts := parts + [Single(c.likeColumn, Single("like", term.value))];
      i := i + 1;
    }
    CollectAll(LikeTerms(c), terms);
    if |parts| == 1 {
      return Ok(parts[0]);
    }
    if |parts| == 2 {
      return Err(Thrown("TypeError", "Illegal offset type"));
    }
    r := Err(Thrown("InvalidArgumentException", "Operator '" + AndOr(c.likeOperator.junction) + "' requires two operands."));
  }

  // --------------------------------------------------------------- lemmas

  /** The table is a bijection between its twelve operators and their tokens: reading a token back gives the operator. */
  lemma TokenRoundTrip(op: string, token: string)
    ensures Token(op) != "" ==> OperatorOf(Token(op)) == Some(op)
    ensures OperatorOf(token) == Some(op) ==> Token(op) == token
    ensures Token(op) == "" <==> op !in {"AND", "OR", "NOT", "<", ">", "<=", ">=", "=", "!=", "IN", "NOT IN", "LIKE"}
  {
  }

  /**
   * A simple condition builds to one column key holding one token key, with the
   * value bound as given (null stays null); an expression value that throws
   * makes the condition throw the same.
   */
  lemma SimpleShape(column: string, op: string, x: Operand)
    ensures x.Expr? && Build(x.condition).Err? ==> Build(Simple(column, op, x)) == Build(x.condition)
    ensures x.Lit? || Build(x.condition).Ok? ==>
      var r := Build(Simple(column, op, x)).value;
      KeysOf(r.entries) == [StrKey(column)] &&
      r.entries[0].1.Arr? && KeysOf(r.entries[0].1.entries) == [StrKey(Token(op))] &&
      r.entries[0].1.entries[0].1 == (if x.Lit? then x.value else Build(x.condition).value)
  {
  }

  /**
   * Each hash entry yields exactly one part, in order: [] for an array or sub-query
   * value, otherwise a map keyed by the column, or the exception of a nested
   * expression.
   */
  lemma HashPartsPerEntry(c: Condition, i: int)
    requires c.Hash? && 0 <= i < |c.entries|
    ensures var (column, h) := c.entries[i];
      var p := HashParts(c)[i];
      (p == Ok(Arr([])) <==> (h.SubQuery? || (h.Plain? && h.value.Arr?))) &&
      (p.Ok? && p != Ok(Arr([])) ==> KeysOf(p.value.entries) == [StrKey(column)]) &&
      (h.Plain? && !h.value.Arr? ==> p == Ok(Single(column, h.value))) &&
      (h.Nested? ==> (p.Err? == Build(h.condition).Err? &&
                      (p.Err? ==> p.thrown == Build(h.condition).thrown) &&
                      (p.Ok? ==> p.value == Single(column, Build(h.condition).value))))
  {
  }

  /**
   * A hash with one entry builds to that entry's part; otherwise, when no entry
   * throws, to the list of parts (an empty hash to []); the first entry that
   * throws makes the whole condition throw.
   */
  lemma HashUnwrap(c: Condition)
    requires c.Hash?
    ensures |c.entries| == 1 ==> Build(c) == HashPart(c.entries[0].0, c.entries[0].1)
    ensures |c.entries| != 1 && (forall i :: 0 <= i < |c.entries| ==> HashParts(c)[i].Ok?) ==>
      Build(c) == Ok(List(seq(|c.entries|, i requires 0 <= i < |c.entries| => HashParts(c)[i].value)))
    ensures c.entries == [] ==> Build(c) == Ok(Arr([]))
    ensures forall i :: 0 <= i < |c.entries| && HashParts(c)[i].Err? && (forall j :: 0 <= j < i ==> HashParts(c)[j].Ok?) ==>
      Build(c) == HashParts(c)[i]
  {
    if |c.entries| == 1 {
      if HashParts(c)[0].Err? {
        CollectStopsAt(HashParts(c), 0);
      } else {
        CollectAll(HashParts(c), [HashParts(c)[0].value]);
      }
    }
    if |c.entries| != 1 && (forall i :: 0 <= i < |c.entries| ==> HashParts(c)[i].Ok?) {
      CollectAll(HashParts(c), seq(|c.entries|, i requires 0 <= i < |c.entries| => HashParts(c)[i].value));
    }
    forall i | 0 <= i < |c.entries| && HashParts(c)[i].Err? && (forall j :: 0 <= j < i ==> HashParts(c)[j].Ok?)
      ensures Build(c) == HashParts(c)[i]
    {
      CollectStopsAt(HashParts(c), i);
    }
  }

  /** `where(['id' => [1, 2]])`: an array value is handed to buildCondition as an object, so the whole filter is []. */
  lemma HashArrayValueDropped(column: string, values: seq<Value>)
    ensures Build(Hash([(column, Plain(List(values)))])) == Ok(Arr([]))
  {
    CollectAll(HashParts(Hash([(column, Plain(List(values)))])), [Arr([])]);
  }

  /** The sentinel, the dropped cases and the unwrapping of a one-column array. */
  lemma InSpecialCases(op: string, column: InColumn, values: InValues)
    ensures column == Columns([]) ==> BuildIn(op, column, values) == AlwaysFalse()
    ensures column != Columns([]) && values.SubQueryValues? ==> BuildIn(op, column, values) == Arr([])
    ensures column.Columns? && |column.names| > 1 ==> BuildIn(op, column, values) == Arr([])
    ensures column != Columns([]) && values == Built([]) && !column.ColumnIterator? && !(column.Columns? && |column.names| > 1)
      ==> BuildIn(op, column, values) == AlwaysFalse()
    ensures forall n :: column == Columns([n]) ==> BuildIn(op, column, values) == BuildIn(op, Column(n), values)
  {
  }

  /** Several values give `{column: {in|nin: values}}`; one value gives equality for IN. */
  lemma InValuesShape(op: string, name: string, vs: seq<Value>)
    ensures |vs| > 1 ==> (BuildIn(op, Column(name), Built(vs)) ==
      Single(name, Single(if op == "IN" then "in" else "nin", List(vs))))
    ensures |vs| == 1 && op == "IN" ==> BuildIn(op, Column(name), Built(vs)) == Single(name, vs[0])
  {
  }

  /** One value with a negated operator is what building `['not', [column => value]]` gives. */
  lemma InSingleNegatedIsNot(op: string, name: string, v: Value)
    requires op != "IN"
    ensures Build(In(op, Column(name), Built([v]))) == Build(Not(ArrayForm(Hash([(name, Plain(v))]))))
  {
    CollectAll(HashParts(Hash([(name, Plain(v))])), [PlainPart(name, v)]);
  }

  /** BETWEEN gives one column key with strict bounds, as given. */
  lemma BetweenShape(column: string, start: Value, end: Value)
    ensures Build(Between("BETWEEN", column, start, end)).Ok?
    ensures var r := Build(Between("BETWEEN", column, start, end)).value;
      KeysOf(r.entries) == [StrKey(column)] &&
      Get(r.entries[0].1.entries, StrKey("gt")) == Some(start) &&
      Get(r.entries[0].1.entries, StrKey("lt")) == Some(end)
  {
  }

  /** Any other operator gives what building `['or', ['<', column, start], ['>', column, end]]` gives. */
  lemma BetweenNegatedIsOr(op: string, column: string, start: Value, end: Value)
    requires op != "BETWEEN"
    ensures Build(Between(op, column, start, end)) ==
      Build(Conjunction(Or, [Sub(Simple(column, "<", Lit(start))), Sub(Simple(column, ">", Lit(end)))]))
  {
    var c := Conjunction(Or, [Sub(Simple(column, "<", Lit(start))), Sub(Simple(column, ">", Lit(end)))]);
    var parts := [SimpleOf(column, "<", start), SimpleOf(column, ">", end)];
    assert Build(Simple(column, "<", Lit(start))) == Ok(parts[0]);
    assert Build(Simple(column, ">", Lit(end))) == Ok(parts[1]);
    assert OperandParts(c)[0] == OperandPart(c.operands[0]) == Ok(parts[0]);
    assert OperandParts(c)[1] == OperandPart(c.operands[1]) == Ok(parts[1]);
    CollectAll(OperandParts(c), parts);
    NoBlanks(parts);
  }

  /** A single non-array LIKE value builds as the one-element list holding it. */
  lemma LikeWrapsSingleValue(op: LikeOperator, column: string, x: LikeItem)
    ensures Build(Like(op, column, One(x))) == Build(Like(op, column, Many([x])))
  {
    assert LikeTerms(Like(op, column, Many([x]))) == LikeTerms(Like(op, column, One(x)));
  }

  /**
   * No values: [] for NOT LIKE; otherwise the sentinel `[0 => 1]` is handed to
   * `buildCondition`, which throws because it reads 1 as an operator without its
   * two operands.
   */
  lemma LikeNoValues(op: LikeOperator, column: string)
    ensures Build(Like(op, column, Many([]))) ==
      if op.negated then Ok(Arr([])) else Err(Thrown("InvalidArgumentException", "Operator '1' requires two operands."))
  {
    CollectAll(LikeTerms(Like(op, column, Many([]))), []);
  }

  /**
   * One value gives `{column: {like: term}}`, or the exception of an expression
   * value; the NOT of NOT LIKE is not carried into the part.
   */
  lemma LikeOneValue(op: LikeOperator, column: string, x: LikeItem)
    ensures LikeTerm(x).Ok? ==> Build(Like(op, column, One(x))) == Ok(Single(column, Single("like", LikeTerm(x).value)))
    ensures LikeTerm(x).Err? ==> Build(Like(op, column, One(x))) == LikeTerm(x)
    ensures Build(Like(op, column, One(x))) == Build(Like(LikeOperator(op.junction, !op.negated), column, One(x)))
  {
    if LikeTerm(x).Ok? {
      CollectAll(LikeTerms(Like(op, column, One(x))), [LikeTerm(x).value]);
    } else {
      CollectStopsAt(LikeTerms(Like(op, column, One(x))), 0);
    }
  }

  /**
   * Two or more values whose placeholders all build never give a filter: two
   * parts make PHP refuse an array as an array key, more parts make the and/or
   * word an operator without its two operands.
   */
  lemma LikeManyThrows(op: LikeOperator, column: string, xs: seq<LikeItem>)
    requires |xs| >= 2 && forall i :: 0 <= i < |xs| ==> LikeTerm(xs[i]).Ok?
    ensures Build(Like(op, column, Many(xs))).Err?
    ensures |xs| == 2 ==> Build(Like(op, column, Many(xs))).thrown == Thrown("TypeError", "Illegal offset type")
    ensures |xs| > 2 ==>
      Build(Like(op, column, Many(xs))).thrown == Thrown("InvalidArgumentException", "Operator '" + AndOr(op.junction) + "' requires two operands.")
  {
    var c := Like(op, column, Many(xs));
    CollectAll(LikeTerms(c), seq(|xs|, i requires 0 <= i < |xs| => LikeTerm(xs[i]).value));
  }

  /** A LIKE value whose expression throws, after values that build, makes the condition throw the same. */
  lemma LikeFirstFailure(op: LikeOperator, column: string, xs: seq<LikeItem>, i: int)
    requires 0 <= i < |xs| && LikeTerm(xs[i]).Err?
    requires forall j :: 0 <= j < i ==> LikeTerm(xs[j]).Ok?
    ensures Build(Like(op, column, Many(xs))) == LikeTerm(xs[i])
  {
    CollectStopsAt(LikeTerms(Like(op, column, Many(xs))), i);
  }

  lemma {:induction false} NoBlanks(parts: seq<Value>)
    requires forall i :: 0 <= i < |parts| ==> parts[i] != Str("")
    ensures DropBlank(parts) == parts
  {
    if parts != [] {
      NoBlanks(parts[1..]);
    }
  }

  /**
   * Operands that are not '' each yield one part, in order, when none throws; the
   * first operand that throws makes the conjunction throw the same.
   */
  lemma ConjunctionKeepsOrder(j: Junction, ops: seq<ConjOperand>)
    requires forall i :: 0 <= i < |ops| ==> ops[i] != Text("")
    ensures (forall i :: 0 <= i < |ops| ==> OperandPart(ops[i]).Ok?) ==>
      ExpressionsFrom(Conjunction(j, ops)) == Ok(seq(|ops|, i requires 0 <= i < |ops| => OperandPart(ops[i]).value))
    ensures forall i :: 0 <= i < |ops| && OperandPart(ops[i]).Err? && (forall k :: 0 <= k < i ==> OperandPart(ops[k]).Ok?) ==>
      Build(Conjunction(j, ops)) == OperandPart(ops[i])
  {
    var c := Conjunction(j, ops);
    if forall i :: 0 <= i < |ops| ==> OperandPart(ops[i]).Ok? {
      var vs := seq(|ops|, i requires 0 <= i < |ops| => OperandPart(ops[i]).value);
      CollectAll(OperandParts(c), vs);
      forall i | 0 <= i < |vs|
        ensures vs[i] != Str("")
      {
        assert OperandPart(ops[i]).Ok?;
      }
      NoBlanks(vs);
    }
    forall i | 0 <= i < |ops| && OperandPart(ops[i]).Err? && (forall k :: 0 <= k < i ==> OperandPart(ops[k]).Ok?)
      ensures Build(c) == OperandPart(ops[i])
    {
      CollectStopsAt(OperandParts(c), i);
    }
  }

  /** The junction is the key only for two or more parts; one part is returned as a one-element list. */
  lemma ConjunctionShape(j: Junction, parts: seq<Value>)
    ensures parts == [] ==> ConjunctionOf(j, parts) == Arr([])
    ensures |parts| == 1 ==> ConjunctionOf(j, parts) == Arr([(IntKey(0), parts[0])])
    ensures |parts| >= 2 ==> KeysOf(ConjunctionOf(j, parts).entries) == [StrKey(JunctionWord(j))]
  {
  }

  /** NOT gives [] or a one-key map `{not: …}` whose value is the built operand, or the operand's exception. */
  lemma NotShape(operand: NotOperand)
    ensures var r := Build(Not(operand));
      r.Ok? ==> r.value == Arr([]) || KeysOf(r.value.entries) == [StrKey("not")]
    ensures operand == ArrayForm(Hash([])) ==> Build(Not(operand)) == Ok(Arr([]))
    ensures operand.ArrayForm? && operand.condition != Hash([]) ==>
      Build(Not(operand)) == match Build(operand.condition)
        case Ok(b) => Ok(Single("not", b))
        case Err(t) => Err(t)
    ensures !operand.ArrayForm? ==> Build(Not(operand)).Ok?
  {
  }
}
