/**
 * The active query of the `src/` lineage (src/ActiveQuery.php). It collects
 * the relations to join, and turns the rows the server answered into records:
 * one model per row, each populated from its row, with the data of every joined
 * relation taken out of the row and hydrated into related models. The created
 * records are values (`RestActiveRecord.Model`) built by the same constructor
 * and `populateRecord()` rules as `RestActiveRecord.Record`.
 */
module RestActiveQuery {
  import opened Php
  import opened RestActiveRecord

  /** What `populate()` returns: the rows as arrays, or the created models. */
  datatype Populated = Rows(rows: Entries) | Models(models: seq<Model>)

  /** What `one()` returns: null, a row of an array query, or a model. */
  datatype Found = NoRow | FoundRow(row: Value) | FoundModel(model: Model)

  /** The error PHP raises when an array is used as an array key. */
  const IllegalOffset: Thrown := Thrown("TypeError", "Illegal offset type")

  /** The error the record constructor's `array $attributes` raises for a value that is not an array. */
  const NotAnArray: Thrown := Thrown("TypeError", "Argument #1 ($attributes) must be of type array")

  /** What `Component::__call` throws for `getRelations()` on a class that does not declare it. */
  function NoGetRelations(cls: RecordClass): Thrown
  {
    Thrown("UnknownMethodException", "Calling unknown method: " + cls.name + "::getRelations()")
  }

  /** The key `$row[$join]` reads: null is "", a boolean is 0 or 1, and an array is no key at all. */
  function OffsetKey(v: Value): (k: Option<Key>)
    ensures k.None? <==> v.Arr?
  {
    match v
    case Null => Some(StrKey(""))
    case Bool(b) => Some(IntKey(if b then 1 else 0))
    case Int(i) => Some(IntKey(i))
    case Str(s) => Some(StrKey(s))
    case Arr(_) => None
  }

  /** `$model->populateRelation($name, $records)`: the relation is overwritten in place, or appended. */
  function PutRelated(related: seq<(Key, Related)>, k: Key, v: Related): (r: seq<(Key, Related)>)
    ensures (k, v) in r
  {
    if related == [] then [(k, v)]
    else if related[0].0 == k then [(k, v)] + related[1..]
    else [related[0]] + PutRelated(related[1..], k, v)
  }

  /** The models of a list of relation rows: one per row, in order; a row that is not an array throws. */
  function RelatedModels(rc: RecordClass, rs: Entries): (r: Outcome<seq<Model>>)
    ensures r.Ok? <==> forall i :: 0 <= i < |rs| ==> rs[i].1.Arr?
    ensures r.Ok? ==> |r.value| == |rs| && forall i :: 0 <= i < |rs| ==> r.value[i] == Instantiated(rc, rs[i].1.entries)
  {
    if rs == [] then Ok([])
    else
      var init := rs[..|rs| - 1];
      var row := rs[|rs| - 1].1;
      match RelatedModels(rc, init)
      case Err(t) => Err(t)
      case Ok(ms) => if row.Arr? then Ok(ms + [Instantiated(rc, row.entries)]) else Err(NotAnArray)
  }

  /**
   * One pass of the join loop of `createModels()`: the join's data is removed
   * from the row; empty data is skipped; data of a relation the model declares
   * and whose class resolves becomes one related model when associative, else
   * one model per element; data of an undeclared relation populates it with [],
   * since the key is already gone from the row.
   */
  function JoinStep(classes: string -> Option<RecordClass>, m: Model, row: Entries, join: Value): (r: Outcome<(Model, Entries)>)
    ensures r.Ok? ==> OffsetKey(join).Some? && r.value.1 == Delete(row, OffsetKey(join).value)
  {
    match OffsetKey(join)
    case None => Err(IllegalOffset)
    case Some(k) =>
      var (relationRows, rest) := Remove(row, k, Arr([]));
      if IsEmpty(relationRows) then Ok((m, rest))
      else if k in m.cls.relations then
        match classes(m.cls.relations[k])
        case None => Ok((m, rest))
        case Some(rc) =>
          if IsAssociative(relationRows) then
            Ok((m.(related := PutRelated(m.related, k, OneModel(Instantiated(rc, relationRows.entries)))), rest))
          else
            match RelatedModels(rc, if relationRows.Arr? then relationRows.entries else [])
            case Err(t) => Err(t)
            case Ok(ms) => Ok((m.(related := PutRelated(m.related, k, ManyModels(ms))), rest))
      else Ok((m.(related := PutRelated(m.related, k, ManyModels([]))), rest))
  }

  /** The model and what is left of its row after the join loop has run over `joins`. */
  function Joined(classes: string -> Option<RecordClass>, m: Model, row: Entries, joins: Entries): Outcome<(Model, Entries)>
  {
    if joins == [] then Ok((m, row))
    else
      match Joined(classes, m, row, joins[..|joins| - 1])
      case Err(t) => Err(t)
      case Ok(state) => JoinStep(classes, state.0, state.1, joins[|joins| - 1].1)
  }

  /** The model `createModels()` makes of one row: instantiated and populated, then hydrated when `join` is an array. */
  function CreatedModel(cls: RecordClass, classes: string -> Option<RecordClass>, join: Option<Entries>, row: Value): Outcome<Model>
  {
    if !row.Arr? then Err(NotAnArray)
    else if !cls.definesGetRelations then Err(NoGetRelations(cls))
    else if join.None? then Ok(Instantiated(cls, row.entries))
    else
      match Joined(classes, Instantiated(cls, row.entries), row.entries, join.value)
      case Err(t) => Err(t)
      case Ok(state) => Ok(state.0)
  }

  /** `createModels($rows)`: one model per row, in order; the first row that fails stops the loop. */
  function Created(cls: RecordClass, classes: string -> Option<RecordClass>, join: Option<Entries>, rows: Entries): Outcome<seq<Model>>
  {
    if rows == [] then Ok([])
    else
      match Created(cls, classes, join, rows[..|rows| - 1])
      case Err(t) => Err(t)
      case Ok(ms) =>
        match CreatedModel(cls, classes, join, rows[|rows| - 1].1)
        case Err(t) => Err(t)
        case Ok(m) => Ok(ms + [m])
  }

  /** The rows `one()` hands to `populate()`: a row with an entry 0 is a list of rows, any other is wrapped. */
  function OneRows(row: Entries): Entries
  {
    if Isset(row, IntKey(0)) then row else [(IntKey(0), Arr(row))]
  }

  /** `reset($models) ?: null` over what `populate()` returned. */
  function FirstFound(p: Populated): Found
  {
    match p
    case Rows(rs) => if Truthy(Reset(rs)) then FoundRow(Reset(rs)) else NoRow
    case Models(ms) => if ms == [] then NoRow else FoundModel(ms[0])
  }

  class ActiveQuery {
    const modelClass: RecordClass
    /**
     * The class a relation's class name resolves to (`class_exists`, retried in
     * the namespace of the model class), or None when there is none.
     */
    const classes: string -> Option<RecordClass>
    /** `ArrayHelper::index($rows, $indexBy)`. */
    const index: (Entries, Value) -> Entries
    /** The relations to join: null or an array. */
    var join: Option<Entries>
    var asArray: bool
    var indexBy: Value

    constructor(modelClass: RecordClass, classes: string -> Option<RecordClass>, index: (Entries, Value) -> Entries,
                asArray: bool, indexBy: Value)
      ensures this.modelClass == modelClass && this.classes == classes && this.index == index
      ensures join == None && this.asArray == asArray && this.indexBy == indexBy
    {
      this.modelClass := modelClass;
      this.classes := classes;
      this.index := index;
      join := None;
      this.asArray := asArray;
      this.indexBy := indexBy;
    }

    /** `joinWith($with)`: an array of relations is merged into `join`, anything else is appended to it. */
    method JoinWith(with: Value)
      modifies this`join
      ensures with.Arr? ==> join == Some(Merge(OrEmpty(old(join)), with.entries))
      ensures !with.Arr? ==> join == Some(Push(OrEmpty(old(join)), with))
    {
      if with.Arr? {
        join := Some(Merge(OrEmpty(join), with.entries));
      } else {
        join := Some(Push(OrEmpty(join), with));
      }
    }

    /** `with(...$args)`: all arguments, as one list, go to `joinWith()`. */
    method With(args: seq<Value>)
      modifies this`join
      ensures join == Some(Merge(OrEmpty(old(join)), ListEntries(args)))
    {
      JoinWith(List(args));
    }

    /** `via($relationName, $callable)`: never supported. */
    method Via(relationName: string) returns (r: Outcome<()>)
      ensures r.Err? && r.thrown.exceptionClass == "NotSupportedException"
    {
      r := Err(Thrown("NotSupportedException", "Via relations are not supported in rest applications"));
    }

    /** What `populate($rows)` returns with the query's current settings. */
    function PopulateOf(rows: Entries): Outcome<Populated>
      reads this
    {
      if rows == [] then Ok(Rows([]))
      else if asArray then Ok(Rows(if Truthy(indexBy) then index(rows, indexBy) else rows))
      else
        match Created(modelClass, classes, join, rows)
        case Err(t) => Err(t)
        case Ok(ms) => Ok(Models(ms))
    }

    /** `populate($rows)`: [] for no rows; the rows themselves (indexed when asked) for an array query; else models. */
    method Populate(rows: Entries) returns (r: Outcome<Populated>)
      ensures r == PopulateOf(rows)
    {
      if rows == [] {
        return Ok(Rows([]));
      }
      if asArray {
        if Truthy(indexBy) {
          return Ok(Rows(index(rows, indexBy)));
        }
        return Ok(Rows(rows));
      }
      var models := CreateModels(rows);
      if models.Err? {
        return Err(models.thrown);
      }
      r := Ok(Models(models.value));
    }

    /** `one()` for the row the command fetched: null for an empty row, else the first record of its population. */
    method One(row: Value) returns (r: Outcome<Found>)
      requires IsEmpty(row) || row.Arr?
      ensures IsEmpty(row) ==> r == Ok(NoRow)
      ensures !IsEmpty(row) ==>
        match PopulateOf(OneRows(row.entries))
        case Err(t) => r == Err(t)
        case Ok(p) => r == Ok(FirstFound(p))
    {
      if IsEmpty(row) {
        return Ok(NoRow);
      }
      var rows := if Isset(row.entries, IntKey(0)) then row.entries else [(IntKey(0), row)];
      var models := Populate(rows);
      if models.Err? {
        return Err(models.thrown);
      }
      r := Ok(FirstFound(models.value));
    }

    /** `createModels($rows)`. */
    method CreateModels(rows: Entries) returns (r: Outcome<seq<Model>>)
      ensures r == Created(modelClass, classes, join, rows)
    {
      var models: seq<Model> := [];
      var i := 0;
      while i < |rows|
        invariant 0 <= i <= |rows|
        invariant Created(modelClass, classes, join, rows[..i]) == Ok(models)
      {
        CreatedNext(modelClass, classes, join, rows, i);
        var model := CreateModel(rows[i].1);
        if model.Err? {
          CreatedStopsAtError(modelClass, classes, join, rows, i + 1);
          return Err(model.thrown);
        }
        models := models + [model.value];
        i := i + 1;
      }
      assert rows[..|rows|] == rows;
      r := Ok(models);
    }

    /** One pass of the `createModels()` loop. */
    method CreateModel(row: Value) returns (r: Outcome<Model>)
      ensures r == CreatedModel(modelClass, classes, join, row)
    {
      if !row.Arr? {
        return Err(NotAnArray);
      }
      var model := Instantiated(modelClass, row.entries);
      if !modelClass.definesGetRelations {
        return Err(NoGetRelations(modelClass));
      }
      if join.Some? {
        var hydrated := Hydrate(model, row.entries);
        if hydrated.Err? {
          return Err(hydrated.thrown);
        }
        model := hydrated.value;
      }
      r := Ok(model);
    }

    /** The join loop of `createModels()` for one model and its row. */
    method Hydrate(model: Model, row: Entries) returns (r: Outcome<Model>)
      requires join.Some?
      ensures match Joined(classes, model, row, join.value)
        case Err(t) => r == Err(t)
        case Ok(state) => r == Ok(state.0)
    {
      var joins := join.value;
      var m := model;
      var rest := row;
      var i := 0;
      while i < |joins|
        invariant 0 <= i <= |joins|
        invariant Joined(classes, model, row, joins[..i]) == Ok((m, rest))
      {
        JoinedNext(classes, model, row, joins, i);
        var next := JoinPass(m, rest, joins[i].1);
        if next.Err? {
          JoinedStopsAtError(classes, model, row, joins, i + 1);
          return Err(next.thrown);
        }
        m, rest := next.value.0, next.value.1;
        i := i + 1;
      }
      assert joins[..|joins|] == joins;
      r := Ok(m);
    }

    /** One pass of the join loop: the join's data leaves the row and, unless empty, populates the relation. */
    method JoinPass(m: Model, row: Entries, join: Value) returns (r: Outcome<(Model, Entries)>)
      ensures r == JoinStep(classes, m, row, join)
    {
      var key := OffsetKey(join);
      if key.None? {
        return Err(IllegalOffset);
      }
      var k := key.value;
      var relationRows := GetOr(row, k, Arr([]));
      var rest := Delete(row, k);
      if IsEmpty(relationRows) {
        return Ok((m, rest));
      }
      if k !in m.cls.relations {
        return Ok((m.(related := PutRelated(m.related, k, ManyModels([]))), rest));
      }
      var relationClass := classes(m.cls.relations[k]);
      if relationClass.None? {
        return Ok((m, rest));
      }
      var rc := relationClass.value;
      if IsAssociative(relationRows) {
        return Ok((m.(related := PutRelated(m.related, k, OneModel(Instantiated(rc, relationRows.entries)))), rest));
      }
      var populatedRows := RelatedList(rc, if relationRows.Arr? then relationRows.entries else []);
      if populatedRows.Err? {
        return Err(populatedRows.thrown);
      }
      r := Ok((m.(related := PutRelated(m.related, k, ManyModels(populatedRows.value))), rest));
    }

    /** The inner loop of `createModels()` over the rows of a relation that is not associative. */
    method RelatedList(rc: RecordClass, rs: Entries) returns (r: Outcome<seq<Model>>)
      ensures r == RelatedModels(rc, rs)
    {
      var populatedRows: seq<Model> := [];
      var i := 0;
      while i < |rs|
        invariant 0 <= i <= |rs|
        invariant RelatedModels(rc, rs[..i]) == Ok(populatedRows)
      {
        assert rs[..i + 1][..i] == rs[..i];
        var relationRow := rs[i].1;
        if !relationRow.Arr? {
          RelatedStopsAtError(rc, rs, i + 1);
          return Err(NotAnArray);
        }
        populatedRows := populatedRows + [Instantiated(rc, relationRow.entries)];
        i := i + 1;
      }
      assert rs[..|rs|] == rs;
      r := Ok(populatedRows);
    }
  }

  // --------------------------------------------------------------- lemmas

  /** Once the models of a prefix of the rows throw, so do the models of all the rows. */
  lemma {:induction false} CreatedStopsAtError(cls: RecordClass, classes: string -> Option<RecordClass>, join: Option<Entries>, rows: Entries, n: nat)
    requires n <= |rows| && Created(cls, classes, join, rows[..n]).Err?
    ensures Created(cls, classes, join, rows) == Created(cls, classes, join, rows[..n])
    decreases |rows| - n
  {
    if n < |rows| {
      assert rows[..n + 1][..n] == rows[..n];
      CreatedStopsAtError(cls, classes, join, rows, n + 1);
    } else {
      assert rows[..n] == rows;
    }
  }

  /** One more join on a prefix of the joins is one more pass of the loop. */
  lemma JoinedNext(classes: string -> Option<RecordClass>, m: Model, row: Entries, joins: Entries, i: nat)
    requires i < |joins| && Joined(classes, m, row, joins[..i]).Ok?
    ensures var state := Joined(classes, m, row, joins[..i]).value;
      Joined(classes, m, row, joins[..i + 1]) == JoinStep(classes, state.0, state.1, joins[i].1)
  {
    assert joins[..i + 1][..i] == joins[..i];
  }

  /** Once the join loop throws on a prefix of the joins, it throws the same for all of them. */
  lemma {:induction false} JoinedStopsAtError(classes: string -> Option<RecordClass>, m: Model, row: Entries, joins: Entries, n: nat)
    requires n <= |joins| && Joined(classes, m, row, joins[..n]).Err?
    ensures Joined(classes, m, row, joins) == Joined(classes, m, row, joins[..n])
    decreases |joins| - n
  {
    if n < |joins| {
      assert joins[..n + 1][..n] == joins[..n];
      JoinedStopsAtError(classes, m, row, joins, n + 1);
    } else {
      assert joins[..n] == joins;
    }
  }

  /** Once a relation row that is not an array is met, the list of related models throws. */
  lemma {:induction false} RelatedStopsAtError(rc: RecordClass, rs: Entries, n: nat)
    requires n <= |rs| && RelatedModels(rc, rs[..n]).Err?
    ensures RelatedModels(rc, rs) == RelatedModels(rc, rs[..n])
    decreases |rs| - n
  {
    if n < |rs| {
      assert rs[..n + 1][..n] == rs[..n];
      RelatedStopsAtError(rc, rs, n + 1);
    } else {
      assert rs[..n] == rs;
    }
  }

  /** The join loop only fills relations: the class, attributes and old attributes of the model stay as they were. */
  lemma {:induction false} JoinedKeepsRecord(classes: string -> Option<RecordClass>, m: Model, row: Entries, joins: Entries)
    requires Joined(classes, m, row, joins).Ok?
    ensures var m' := Joined(classes, m, row, joins).value.0;
      m'.cls == m.cls && m'.attributes == m.attributes && m'.oldAttributes == m.oldAttributes
  {
    if joins != [] {
      JoinedKeepsRecord(classes, m, row, joins[..|joins| - 1]);
    }
  }

  /** One more row for `createModels()` is one more pass of its loop. */
  lemma CreatedNext(cls: RecordClass, classes: string -> Option<RecordClass>, join: Option<Entries>, rows: Entries, i: nat)
    requires i < |rows| && Created(cls, classes, join, rows[..i]).Ok?
    ensures Created(cls, classes, join, rows[..i + 1])
      == match CreatedModel(cls, classes, join, rows[i].1)
         case Err(t) => Err(t)
         case Ok(m) => Ok(Created(cls, classes, join, rows[..i]).value + [m])
  {
    assert rows[..i + 1][..i] == rows[..i];
  }

  /** One more row for `createModels()` is one more model after those of the earlier rows. */
  lemma CreatedLast(cls: RecordClass, classes: string -> Option<RecordClass>, join: Option<Entries>, rows: Entries)
    requires rows != [] && Created(cls, classes, join, rows).Ok?
    ensures var init := rows[..|rows| - 1];
      var ms := Created(cls, classes, join, rows).value;
      Created(cls, classes, join, init).Ok?
      && CreatedModel(cls, classes, join, rows[|rows| - 1].1).Ok?
      && ms == Created(cls, classes, join, init).value + [CreatedModel(cls, classes, join, rows[|rows| - 1].1).value]
  {
  }

  /**
   * `createModels()` makes exactly one model per row, in row order, each
   * populated from its own row; without joins nothing else is done to it.
   */
  lemma {:induction false} CreatedPerRow(cls: RecordClass, classes: string -> Option<RecordClass>, join: Option<Entries>, rows: Entries)
    requires Created(cls, classes, join, rows).Ok?
    ensures rows != [] ==> cls.definesGetRelations
    ensures var ms := Created(cls, classes, join, rows).value;
      |ms| == |rows|
      && forall i :: 0 <= i < |rows| ==>
        rows[i].1.Arr?
        && ms[i].cls == cls
        && ms[i].attributes == Instantiated(cls, rows[i].1.entries).attributes
        && ms[i].oldAttributes == Some(ms[i].attributes)
        && (join.None? ==> ms[i] == Instantiated(cls, rows[i].1.entries))
  {
    if rows != [] {
      var init := rows[..|rows| - 1];
      var row := rows[|rows| - 1].1;
      CreatedLast(cls, classes, join, rows);
      CreatedPerRow(cls, classes, join, init);
      if join.Some? {
        JoinedKeepsRecord(classes, Instantiated(cls, row.entries), row.entries, join.value);
      }
      var ms := Created(cls, classes, join, rows).value;
      var prev := Created(cls, classes, join, init).value;
      assert ms[|init|] == CreatedModel(cls, classes, join, row).value;
      forall i | 0 <= i < |init|
        ensures rows[i] == init[i] && ms[i] == prev[i]
      {
      }
    }
  }

  /**
   * Without joins, rows that are all arrays give their models when the class
   * declares `getRelations()`; a row that is not an array throws, and so does any
   * row of a class without `getRelations()`.
   */
  lemma {:induction false} CreatedWithoutJoin(cls: RecordClass, classes: string -> Option<RecordClass>, rows: Entries)
    ensures Created(cls, classes, None, rows).Ok? <==>
      (forall i :: 0 <= i < |rows| ==> rows[i].1.Arr?) && (rows == [] || cls.definesGetRelations)
  {
    if rows != [] {
      var init := rows[..|rows| - 1];
      CreatedWithoutJoin(cls, classes, init);
      assert forall i :: 0 <= i < |init| ==> init[i] == rows[i];
    }
  }

  /**
   * A class that does not declare `getRelations()` yields no models: its first row,
   * once instantiated, throws UnknownMethodException, joins or not.
   */
  lemma NoGetRelationsThrows(cls: RecordClass, classes: string -> Option<RecordClass>, join: Option<Entries>, rows: Entries)
    requires rows != [] && rows[0].1.Arr? && !cls.definesGetRelations
    ensures Created(cls, classes, join, rows) == Err(NoGetRelations(cls))
  {
    assert rows[..1][..0] == [];
    CreatedStopsAtError(cls, classes, join, rows, 1);
  }

  /** After the join loop no joined key is left in the row: each relation's data is consumed once. */
  lemma {:induction false} JoinedRemovesKeys(classes: string -> Option<RecordClass>, m: Model, row: Entries, joins: Entries, j: nat)
    requires Joined(classes, m, row, joins).Ok? && j < |joins|
    ensures OffsetKey(joins[j].1).Some?
    ensures Get(Joined(classes, m, row, joins).value.1, OffsetKey(joins[j].1).value) == None
  {
    var init := joins[..|joins| - 1];
    var last := joins[|joins| - 1].1;
    assert Joined(classes, m, row, init).Ok?;
    var state := Joined(classes, m, row, init).value;
    assert Joined(classes, m, row, joins) == JoinStep(classes, state.0, state.1, last);
    var k := OffsetKey(last).value;
    if j < |init| {
      assert init[j] == joins[j];
      JoinedRemovesKeys(classes, m, row, init, j);
    }
    DeleteGet(state.1, k, OffsetKey(joins[j].1).value);
  }

  /**
   * What one pass of the join loop does with the data `d` found under the join's key:
   * empty data is skipped; an undeclared relation is populated with []; a
   * declared relation whose class does not resolve is skipped; associative data
   * becomes one model, and a list of arrays one model per element.
   */
  lemma JoinStepCases(classes: string -> Option<RecordClass>, m: Model, row: Entries, join: Value, k: Key)
    requires OffsetKey(join) == Some(k)
    ensures var d := GetOr(row, k, Arr([]));
      var r := JoinStep(classes, m, row, join);
      (IsEmpty(d) ==> r == Ok((m, Delete(row, k))))
      && (!IsEmpty(d) && k !in m.cls.relations ==> r == Ok((m.(related := PutRelated(m.related, k, ManyModels([]))), Delete(row, k))))
      && (!IsEmpty(d) && k in m.cls.relations && classes(m.cls.relations[k]).None? ==> r == Ok((m, Delete(row, k))))
      && (!IsEmpty(d) && k in m.cls.relations && classes(m.cls.relations[k]).Some? && IsAssociative(d) ==>
            r == Ok((m.(related := PutRelated(m.related, k, OneModel(Instantiated(classes(m.cls.relations[k]).value, d.entries)))), Delete(row, k))))
  {
  }

  /**
   * A non-associative list of arrays under a declared, resolving relation becomes
   * one related model per element, in order.
   */
  lemma JoinStepList(classes: string -> Option<RecordClass>, m: Model, row: Entries, join: Value, k: Key, rc: RecordClass)
    requires OffsetKey(join) == Some(k) && k in m.cls.relations && classes(m.cls.relations[k]) == Some(rc)
    requires var d := GetOr(row, k, Arr([])); d.Arr? && d.entries != [] && !IsAssociative(d)
    requires var d := GetOr(row, k, Arr([])); forall i :: 0 <= i < |d.entries| ==> d.entries[i].1.Arr?
    ensures var d := GetOr(row, k, Arr([]));
      exists ms: seq<Model> ::
        JoinStep(classes, m, row, join) == Ok((m.(related := PutRelated(m.related, k, ManyModels(ms))), Delete(row, k)))
        && |ms| == |d.entries|
        && forall i :: 0 <= i < |ms| ==> ms[i] == Instantiated(rc, d.entries[i].1.entries)
  {
    var d := GetOr(row, k, Arr([]));
    var ms := RelatedModels(rc, d.entries).value;
    assert JoinStep(classes, m, row, join) == Ok((m.(related := PutRelated(m.related, k, ManyModels(ms))), Delete(row, k)));
  }

  /**
   * `one()` on a single row (no entry 0) populates it as the only row and answers
   * its model, or throws for a class without `getRelations()`.
   */
  lemma OneWrapsRow(cls: RecordClass, classes: string -> Option<RecordClass>, row: Entries)
    requires !Isset(row, IntKey(0))
    ensures OneRows(row) == [(IntKey(0), Arr(row))]
    ensures cls.definesGetRelations ==> Created(cls, classes, None, OneRows(row)) == Ok([Instantiated(cls, row)])
    ensures !cls.definesGetRelations ==> Created(cls, classes, None, OneRows(row)) == Err(NoGetRelations(cls))
    ensures FirstFound(Models([Instantiated(cls, row)])) == FoundModel(Instantiated(cls, row))
  {
    var rows := [(IntKey(0), Arr(row))];
    assert rows[..0] == [];
    assert Created(cls, classes, None, rows[..0]) == Ok([]);
    assert [] + [Instantiated(cls, row)] == [Instantiated(cls, row)];
  }

  /** `one()` on a row with an entry 0 takes the row as a list of rows and answers the model of its first entry. */
  lemma OneTakesFirstOfList(cls: RecordClass, classes: string -> Option<RecordClass>, join: Option<Entries>, row: Entries)
    requires Isset(row, IntKey(0)) && Created(cls, classes, join, row).Ok?
    ensures OneRows(row) == row
    ensures var ms := Created(cls, classes, join, row).value;
      FirstFound(Models(ms)).FoundModel? && row[0].1.Arr?
      && FirstFound(Models(ms)).model.attributes == Instantiated(cls, row[0].1.entries).attributes
  {
    CreatedPerRow(cls, classes, join, row);
  }

  /** Merging integer-keyed entries keeps the earlier entries and appends the new values in order. */
  lemma {:induction false} MergeIntoIntegerKeys(acc: Entries, es: Entries)
    requires forall i :: 0 <= i < |es| ==> es[i].0.IntKey?
    ensures var r := MergeInto(acc, es);
      |r| == |acc| + |es| && r[..|acc|] == acc
      && forall j :: 0 <= j < |es| ==> r[|acc| + j].1 == es[j].1
    decreases |es|
  {
    if es != [] {
      var acc' := Push(acc, es[0].1);
      IntegerKeysRest(es);
      MergeIntoFirst(acc, es);
      MergeIntoIntegerKeys(acc', es[1..]);
      var r := MergeInto(acc, es);
      assert r[..|acc'|] == acc';
      assert r[..|acc|] == acc by {
        assert r[..|acc|] == r[..|acc'|][..|acc|];
      }
      forall j | 0 <= j < |es|
        ensures r[|acc| + j].1 == es[j].1
      {
        if j == 0 {
          assert r[|acc|] == r[..|acc'|][|acc|];
        } else {
          assert r[|acc'| + (j - 1)].1 == es[1..][j - 1].1;
        }
      }
    }
  }

  /** The rest of an integer-keyed array is integer-keyed. */
  lemma IntegerKeysRest(es: Entries)
    requires es != [] && forall i :: 0 <= i < |es| ==> es[i].0.IntKey?
    ensures forall i :: 0 <= i < |es[1..]| ==> es[1..][i].0.IntKey?
  {
    forall i | 0 <= i < |es[1..]|
      ensures es[1..][i].0.IntKey?
    {
      assert es[1..][i] == es[i + 1];
    }
  }

  /** `array_merge` appends an integer-keyed first entry with `$a[] = $v`. */
  lemma MergeIntoFirst(acc: Entries, es: Entries)
    requires es != [] && es[0].0.IntKey?
    ensures MergeInto(acc, es) == MergeInto(Push(acc, es[0].1), es[1..])
  {
  }

  /**
   * `with('a', 'b')` on a list of joins appends the relations in argument order
   * after those already there.
   */
  lemma WithAppendsInOrder(join: Entries, args: seq<Value>)
    requires forall i :: 0 <= i < |join| ==> join[i].0.IntKey?
    ensures var r := Merge(join, ListEntries(args));
      |r| == |join| + |args|
      && (forall i :: 0 <= i < |join| ==> r[i].1 == join[i].1)
      && forall j :: 0 <= j < |args| ==> r[|join| + j].1 == args[j]
  {
    var es := ListEntries(args);
    var none: Entries := [];
    MergeIntoIntegerKeys(none, join);
    var m0 := MergeInto(none, join);
    assert |m0| == |join|;
    MergeIntoIntegerKeys(m0, es);
    var r := MergeInto(m0, es);
    assert r[..|m0|] == m0;
    forall i | 0 <= i < |join|
      ensures r[i].1 == join[i].1
    {
      assert r[i] == r[..|m0|][i];
      assert m0[|none| + i].1 == join[i].1;
    }
    forall j | 0 <= j < |args|
      ensures r[|join| + j].1 == args[j]
    {
      assert r[|m0| + j].1 == es[j].1;
    }
  }
}
