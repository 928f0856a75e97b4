/**
 * The record of the `src/` lineage (src/ActiveRecord.php), built on yii's
 * BaseActiveRecord. A record holds its current attributes and its old
 * attributes: the values last known to be stored on the server, or null for a
 * record that is not stored yet. The constructor decides whether the input is
 * already stored; insert, update and delete send one request through a fresh
 * command and keep the old attributes in step with what was sent.
 */
module RestActiveRecord {
  import opened Php
  import opened Http
  import opened RestConnection
  import RestCommand
  import LegacyActiveRecord

  /** The static side of a record class. */
  datatype RecordClass = RecordClass(
    name: string,
    /** `attributes()`: the declared attribute names. */
    attributeNames: seq<string>,
    /** `primaryKey()` of the concrete class; the base class answers null, which its callers loop over like []. */
    primaryKey: seq<string>,
    /** `modelName()`: the pluralised, dashed base name of the class. */
    modelName: string,
    /**
     * Whether the concrete class declares `getRelations()`. Neither this class nor
     * yii's BaseActiveRecord does, so without it the call reaches `Component::__call`.
     */
    definesGetRelations: bool,
    /** What `getRelations()` answers: relation name to the class name of the related records. */
    relations: map<Key, string>)

  /**
   * A record as a value: the state `createModels()` leaves in each model it
   * creates, with the relations `populateRelation()` filled in.
   */
  datatype Model = Model(cls: RecordClass, attributes: Entries, oldAttributes: Option<Entries>, related: seq<(Key, Related)>)

  /** The value of a populated relation: one related record, or a list of them. */
  datatype Related = OneModel(model: Model) | ManyModels(models: seq<Model>)

  /** A name `setAttribute()` accepts: a string on the declared list (`in_array` is strict, so no integer matches). */
  predicate Declared(cls: RecordClass, name: Value)
  {
    name.Str? && name.s in cls.attributeNames
  }

  predicate AllDeclared(cls: RecordClass, es: Entries)
  {
    forall i :: 0 <= i < |es| ==> Declared(cls, KeyName(es[i].0))
  }

  /** A key as the value `foreach ($a as $name => …)` binds to `$name`. */
  function KeyName(k: Key): Value
  {
    match k
    case IntKey(i) => Int(i)
    case StrKey(s) => Str(s)
  }

  /** The attributes after `setAttribute($name, $value)`: a declared name is written, any other is ignored. */
  function Assigned(cls: RecordClass, attributes: Entries, name: Value, value: Value): Entries
  {
    if Declared(cls, name) then Put(attributes, StrKey(name.s), value) else attributes
  }

  /** The attributes after `setAttribute($name, $value)` for each entry of `es` in turn. */
  function AssignAll(cls: RecordClass, attributes: Entries, es: Entries): Entries
  {
    if es == [] then attributes
    else
      var (k, v) := es[|es| - 1];
      Assigned(cls, AssignAll(cls, attributes, es[..|es| - 1]), KeyName(k), v)
  }

  /** The assignment a constructor entry makes: an integer key names the attribute by its value, set to null. */
  function EntryAssignment(e: (Key, Value)): (Value, Value)
  {
    if e.0.IntKey? then (e.1, Null) else (KeyName(e.0), e.1)
  }

  /** The attributes the constructor leaves: each entry's assignment in turn, starting from none. */
  function Constructed(cls: RecordClass, input: Entries): Entries
  {
    if input == [] then []
    else
      var (name, value) := EntryAssignment(input[|input| - 1]);
      Assigned(cls, Constructed(cls, input[..|input| - 1]), name, value)
  }

  /** Every primary-key name is set (and not null) in the input. */
  predicate KeysSet(keys: seq<string>, input: Entries)
  {
    forall i :: 0 <= i < |keys| ==> Isset(input, StrKey(keys[i]))
  }

  /** Whether a constructor entry assigns the attribute named `n`. */
  predicate Names(e: (Key, Value), n: string)
  {
    EntryAssignment(e).0 == Str(n)
  }

  /** The value the last entry naming `n` assigns, found from the front of the input. */
  function LastNamed(input: Entries, n: string): (r: Option<Value>)
    ensures r.None? <==> forall i :: 0 <= i < |input| ==> !Names(input[i], n)
  {
    if input == [] then None
    else
      var later := LastNamed(input[1..], n);
      if later.Some? then later
      else if Names(input[0], n) then Some(EntryAssignment(input[0]).1)
      else None
  }

  /** `$a[$name] = $value` for each entry of `vs` in turn. */
  function PutAll(es: Entries, vs: Entries): Entries
  {
    if vs == [] then es
    else Put(PutAll(es, vs[..|vs| - 1]), vs[|vs| - 1].0, vs[|vs| - 1].1)
  }

  /** The old attributes as an array: null reads like []. */
  function OrEmpty(o: Option<Entries>): Entries
  {
    if o.Some? then o.value else []
  }

  /**
   * `$changedAttributes` of `updateInternal()`: for each sent name in turn, the
   * old value it had just before its own old value was overwritten.
   */
  function Changed(stored: Entries, vs: Entries): Entries
  {
    if vs == [] then []
    else
      var init := vs[..|vs| - 1];
      var name := vs[|vs| - 1].0;
      Put(Changed(stored, init), name, LegacyActiveRecord.AttributeOf(PutAll(stored, init), name))
  }

  const DbException: string := "yii\\db\\Exception"
  const NoPrimaryKey: string := " does not have a primary key. You should either define a primary key for the corresponding table or override the primaryKey() method."

  /**
   * `getOldPrimaryKey($asArray)` of the framework: a class without a primary key
   * throws; a single key read as a scalar; otherwise a map from every key name
   * to its old value, where unset names read as null.
   */
  function OldPrimaryKey(cls: RecordClass, stored: Option<Entries>, asArray: bool): (r: Outcome<Value>)
    ensures r.Err? <==> cls.primaryKey == []
  {
    if cls.primaryKey == [] then
      Err(Thrown(DbException, cls.name + NoPrimaryKey))
    else if !asArray && |cls.primaryKey| == 1 then Ok(LegacyActiveRecord.AttributeOf(OrEmpty(stored), StrKey(cls.primaryKey[0])))
    else Ok(Arr(LegacyActiveRecord.KeyValues(OrEmpty(stored), cls.primaryKey)))
  }

  /**
   * `instantiate($row)` followed by `populateRecord()`: the constructor's
   * attributes, then every declared column of the row written over them; the
   * old attributes become the attributes and no relation is populated.
   */
  function Instantiated(cls: RecordClass, row: Entries): (m: Model)
  {
    var attributes := AssignAll(cls, Constructed(cls, row), row);
    Model(cls, attributes, Some(attributes), [])
  }

  class Record {
    const cls: RecordClass
    const db: RestConnection.Connection
    var attributes: Entries
    var oldAttributes: Option<Entries>

    /** Every stored attribute name is declared. */
    predicate Valid()
      reads this
    {
      AllDeclared(cls, attributes)
    }

    /** `hasAttribute($name)`: set already, or declared. */
    predicate HasAttribute(name: Value)
      reads this
    {
      (name.Str? && Isset(attributes, StrKey(name.s))) || (name.Int? && Isset(attributes, IntKey(name.i))) || Declared(cls, name)
    }

    /** `getIsNewRecord()`: there are no old attributes. */
    predicate IsNewRecord()
      reads this
    {
      oldAttributes.None?
    }

    /**
     * `new static($attributes)`: the input is taken as already stored, and becomes
     * the old attributes, exactly when every primary-key name is set in it; each
     * entry is assigned, an integer-keyed one setting the attribute its value names
     * to null, and names that are not declared are ignored.
     */
    constructor(cls: RecordClass, db: RestConnection.Connection, input: Entries)
      ensures this.cls == cls && this.db == db
      ensures attributes == Constructed(cls, input)
      ensures oldAttributes.Some? <==> forall key :: key in cls.primaryKey ==> Isset(input, StrKey(key))
      ensures oldAttributes.Some? ==> oldAttributes.value == input
      ensures Valid()
    {
      this.cls := cls;
      this.db := db;
      attributes := [];
      oldAttributes := None;
      new;
      var keys := cls.primaryKey;
      var setOld := true;
      var i := 0;
      while i < |keys|
        invariant 0 <= i <= |keys|
        invariant forall j :: 0 <= j < i ==> Isset(input, StrKey(keys[j]))
      {
        if !Isset(input, StrKey(keys[i])) {
          setOld := false;
          break;
        }
        i := i + 1;
      }
      assert setOld <==> KeysSet(keys, input);
      i := 0;
      while i < |input|
        invariant 0 <= i <= |input|
        invariant attributes == Constructed(cls, input[..i]) && oldAttributes == None
        invariant Valid()
      {
        assert input[..i + 1][..i] == input[..i];
        var (name, value) := input[i];
        if name.IntKey? {
          SetAttribute(value, Null);
        } else {
          SetAttribute(Str(name.s), value);
        }
        i := i + 1;
      }
      assert input[..|input|] == input;
      if setOld {
        oldAttributes := Some(input);
      }
    }

    /** `setAttribute($name, $value)`: the framework throws for an unknown name, and that exception is swallowed. */
    method SetAttribute(name: Value, value: Value)
      requires Valid()
      modifies this`attributes
      ensures Valid()
      ensures attributes == Assigned(cls, old(attributes), name, value)
    {
      HasAttributeIsDeclared(this, name);
      if HasAttribute(name) {
        PutDeclared(cls, attributes, name, value);
        attributes := Put(attributes, StrKey(name.s), value);
      }
    }

    /** `setAttribute($name, $value)` for every entry of `es`, in order. */
    method AssignEntries(es: Entries)
      requires Valid()
      modifies this`attributes
      ensures Valid()
      ensures attributes == AssignAll(cls, old(attributes), es)
    {
      var i := 0;
      while i < |es|
        invariant 0 <= i <= |es|
        invariant attributes == AssignAll(cls, old(attributes), es[..i])
        invariant Valid()
      {
        assert es[..i + 1][..i] == es[..i];
        var (name, value) := es[i];
        SetAttribute(KeyName(name), value);
        i := i + 1;
      }
      assert es[..|es|] == es;
    }

    /**
     * `populateRecord($record, $row)`: the framework writes every declared column
     * of the row and takes the result as the old attributes; the hydration loop
     * that follows runs over `relatedRecords()`, which is always empty.
     */
    method PopulateRecord(row: Entries)
      requires Valid()
      modifies this`attributes, this`oldAttributes
      ensures Valid()
      ensures attributes == AssignAll(cls, old(attributes), row)
      ensures oldAttributes == Some(attributes)
    {
      AssignEntries(row);
      oldAttributes := Some(attributes);
      var names := RelatedRecords();
      assert |names| == 0;
    }

    /** `relatedRecords()`: the private `$_relatedRecords`, which nothing ever fills. */
    function RelatedRecords(): (names: seq<string>)
      ensures names == []
    {
      []
    }

    /**
     * `insertInternal($attributes)` once `beforeSave(true)` has answered `allowed`,
     * with `values` the dirty attributes: a POST of the values to the model name;
     * false when the server answered false, otherwise every declared field of the
     * answer is assigned and the sent values become the old attributes.
     */
    method InsertInternal(allowed: bool, values: Entries) returns (r: Outcome<bool>)
      requires Valid()
      modifies this`attributes, this`oldAttributes, db.transport
      ensures Valid()
      ensures !allowed ==> r == Ok(false) && db.transport.log == old(db.transport.log)
      ensures allowed ==> db.transport.log == db.Sent(POST, cls.modelName, [], values, old(db.transport.log))
      ensures allowed ==> r == InsertOutcome(db.Answer(POST, cls.modelName, [], values, old(db.transport.log)))
      ensures r == Ok(true) ==>
        var data := db.Answer(POST, cls.modelName, [], values, old(db.transport.log)).value;
        attributes == AssignAll(cls, old(attributes), if data.Arr? then data.entries else [])
        && oldAttributes == Some(values)
      ensures r != Ok(true) ==> attributes == old(attributes) && oldAttributes == old(oldAttributes)
    {
      if !allowed {
        return Ok(false);
      }
      var command := new RestCommand.Command(db, "", None, "", []);
      var data := command.Insert(cls.modelName, values);
      if data.Err? {
        return Err(data.thrown);
      }
      if data.value == Bool(false) {
        return Ok(false);
      }
      AssignEntries(if data.value.Arr? then data.value.entries else []);
      oldAttributes := Some(values);
      r := Ok(true);
    }

    /**
     * `updateInternal($attributes)` once `beforeSave(false)` has answered
     * `allowed`, with `values` the dirty attributes. Nothing dirty answers 0 and
     * sends nothing; otherwise the values are PUT to the element path of the old
     * primary key, and then each sent name records its previous old value in
     * `changed` (what `afterSave()` receives) and takes the sent value as its old
     * value, whatever the server answered.
     */
    method UpdateInternal(allowed: bool, values: Entries) returns (r: Outcome<Value>, changed: Entries)
      modifies this`oldAttributes, db.transport
      ensures !allowed || values == [] ==> db.transport.log == old(db.transport.log) && oldAttributes == old(oldAttributes)
      ensures !allowed ==> r == Ok(Bool(false))
      ensures allowed && values == [] ==> r == Ok(Int(0)) && changed == []
      ensures allowed && values != [] ==>
        var id := OldPrimaryKey(cls, old(oldAttributes), false);
        if id.Err? then r == id && db.transport.log == old(db.transport.log) && oldAttributes == old(oldAttributes)
        else
          var path := RestCommand.ElementPath(cls.modelName, id.value);
          db.transport.log == db.Sent(PUT, path, [], values, old(db.transport.log))
          && r == db.Answer(PUT, path, [], values, old(db.transport.log))
          && (r.Err? ==> oldAttributes == old(oldAttributes))
          && (r.Ok? ==> oldAttributes == Some(PutAll(OrEmpty(old(oldAttributes)), values))
                        && changed == Changed(OrEmpty(old(oldAttributes)), values))
    {
      changed := [];
      if !allowed {
        return Ok(Bool(false)), changed;
      }
      if values == [] {
        return Ok(Int(0)), changed;
      }
      var id := OldPrimaryKey(cls, oldAttributes, false);
      if id.Err? {
        return id, changed;
      }
      var command := new RestCommand.Command(db, "", None, "", []);
      r := command.Update(cls.modelName, values, id.value);
      if r.Err? {
        return;
      }
      changed := RecordSent(values);
    }

    /** The loop of `updateInternal()`: every sent value becomes an old value, and the previous ones are collected. */
    method RecordSent(values: Entries) returns (changed: Entries)
      requires values != []
      modifies this`oldAttributes
      ensures oldAttributes == Some(PutAll(OrEmpty(old(oldAttributes)), values))
      ensures changed == Changed(OrEmpty(old(oldAttributes)), values)
    {
      ghost var start := OrEmpty(oldAttributes);
      var stored := OrEmpty(oldAttributes);
      changed := [];
      var i := 0;
      while i < |values|
        invariant 0 <= i <= |values|
        invariant stored == PutAll(start, values[..i])
        invariant changed == Changed(start, values[..i])
        invariant i > 0 ==> oldAttributes == Some(stored)
      {
        assert values[..i + 1][..i] == values[..i];
        var (name, value) := values[i];
        changed := Put(changed, name, LegacyActiveRecord.AttributeOf(stored, name));
        stored := Put(stored, name, value);
        oldAttributes := Some(stored);
        i := i + 1;
      }
      assert values[..|values|] == values;
    }

    /**
     * `delete()` once `beforeDelete()` has answered `allowed`: a DELETE to the
     * element path of the old primary key, after which the record has no old
     * attributes; its answer is returned as it is.
     */
    method Delete(allowed: bool) returns (r: Outcome<Value>)
      modifies this`oldAttributes, db.transport
      ensures !allowed ==> r == Ok(Bool(false)) && db.transport.log == old(db.transport.log) && oldAttributes == old(oldAttributes)
      ensures allowed ==>
        var id := OldPrimaryKey(cls, old(oldAttributes), false);
        if id.Err? then r == id && db.transport.log == old(db.transport.log) && oldAttributes == old(oldAttributes)
        else
          var path := RestCommand.ElementPath(cls.modelName, id.value);
          db.transport.log == db.Sent(DELETE, path, [], [], old(db.transport.log))
          && r == db.Answer(DELETE, path, [], [], old(db.transport.log))
          && (r.Ok? ==> oldAttributes == None)
          && (r.Err? ==> oldAttributes == old(oldAttributes))
    {
      if !allowed {
        return Ok(Bool(false));
      }
      var id := OldPrimaryKey(cls, oldAttributes, false);
      if id.Err? {
        return id;
      }
      var command := new RestCommand.Command(db, "", None, "", []);
      r := command.Delete(cls.modelName, id.value);
      if r.Err? {
        return;
      }
      oldAttributes := None;
    }

    /** `unlinkAll($name, $delete)`: never supported. */
    method UnlinkAll(name: string, delete: bool) returns (r: Outcome<()>)
      ensures r.Err? && r.thrown.exceptionClass == "NotSupportedException"
    {
      r := Err(Thrown("NotSupportedException", "unlinkAll() is not supported by RestClient, use unlink() instead."));
    }
  }

  /** `instantiate($row)` followed by `populateRecord($record, $row)`: a new record in the state `Instantiated` describes. */
  method Instantiate(cls: RecordClass, db: RestConnection.Connection, row: Entries) returns (record: Record)
    ensures fresh(record) && record.cls == cls && record.db == db && record.Valid()
    ensures record.attributes == Instantiated(cls, row).attributes
    ensures record.oldAttributes == Instantiated(cls, row).oldAttributes
  {
    record := new Record(cls, db, row);
    record.PopulateRecord(row);
  }

  /** What `insertInternal()` returns for the command's answer: false for false, true for any other value. */
  function InsertOutcome(data: Outcome<Value>): (r: Outcome<bool>)
    ensures data.Err? <==> r.Err?
    ensures r == Ok(false) <==> data == Ok(Bool(false))
  {
    match data
    case Err(t) => Err(t)
    case Ok(v) => Ok(v != Bool(false))
  }

  // --------------------------------------------------------------- lemmas

  /** Writing a declared name keeps every stored name declared. */
  lemma PutDeclared(cls: RecordClass, es: Entries, name: Value, v: Value)
    requires AllDeclared(cls, es) && Declared(cls, name)
    ensures AllDeclared(cls, Put(es, StrKey(name.s), v))
  {
    var r := Put(es, StrKey(name.s), v);
    forall i | 0 <= i < |r|
      ensures Declared(cls, KeyName(r[i].0))
    {
      assert KeysOf(r)[i] == r[i].0;
      if r[i].0 in KeysOf(es) {
        var j :| 0 <= j < |KeysOf(es)| && KeysOf(es)[j] == r[i].0;
        assert es[j].0 == r[i].0;
      }
    }
  }

  /** While every stored name is declared, `hasAttribute` is exactly being declared. */
  lemma HasAttributeIsDeclared(r: Record, name: Value)
    requires r.Valid()
    ensures r.HasAttribute(name) <==> Declared(r.cls, name)
  {
    if name.Str? && Isset(r.attributes, StrKey(name.s)) {
      var i :| 0 <= i < |r.attributes| && r.attributes[i].0 == StrKey(name.s);
      assert Declared(r.cls, KeyName(r.attributes[i].0));
    }
    if name.Int? {
      forall i | 0 <= i < |r.attributes|
        ensures r.attributes[i].0 != IntKey(name.i)
      {
        assert Declared(r.cls, KeyName(r.attributes[i].0));
      }
    }
  }

  /** Appending an entry makes it the last one naming its attribute. */
  lemma {:induction false} LastNamedAppend(input: Entries, e: (Key, Value), n: string)
    ensures LastNamed(input + [e], n) == if Names(e, n) then Some(EntryAssignment(e).1) else LastNamed(input, n)
  {
    if input != [] {
      assert (input + [e])[1..] == input[1..] + [e];
      LastNamedAppend(input[1..], e, n);
    }
  }

  /**
   * After the constructor a declared attribute holds what the last entry naming
   * it assigned (null when that entry was integer-keyed), and an undeclared name
   * is not stored at all.
   */
  lemma {:induction false} ConstructedGet(cls: RecordClass, input: Entries, n: string)
    ensures Get(Constructed(cls, input), StrKey(n)) == if n in cls.attributeNames then LastNamed(input, n) else None
  {
    if input != [] {
      var init := input[..|input| - 1];
      var e := input[|input| - 1];
      assert input == init + [e];
      ConstructedGet(cls, init, n);
      LastNamedAppend(init, e, n);
      var (name, value) := EntryAssignment(e);
      if Declared(cls, name) {
        PutGet(Constructed(cls, init), StrKey(name.s), value, StrKey(n));
      }
    }
  }

  /** After assigning the entries of `es`, a declared name holds its last value there; every other name reads as before. */
  lemma {:induction false} AssignAllGet(cls: RecordClass, attributes: Entries, es: Entries, n: string)
    ensures Get(AssignAll(cls, attributes, es), StrKey(n)) ==
      if n in cls.attributeNames && LastGet(es, StrKey(n)).Some? then LastGet(es, StrKey(n)) else Get(attributes, StrKey(n))
  {
    if es != [] {
      var init := es[..|es| - 1];
      var (k, v) := es[|es| - 1];
      assert es == init + [(k, v)];
      AssignAllGet(cls, attributes, init, n);
      LastGetAppend(init, k, v, StrKey(n));
      if Declared(cls, KeyName(k)) {
        PutGet(AssignAll(cls, attributes, init), StrKey(KeyName(k).s), v, StrKey(n));
      }
    }
  }

  /**
   * A created model's declared attribute holds the row's value under its own
   * name; a declared name that the row only lists under an integer key is null.
   */
  lemma InstantiatedGet(cls: RecordClass, row: Entries, n: string)
    ensures var m := Instantiated(cls, row);
      m.oldAttributes == Some(m.attributes) && m.related == []
      && Get(m.attributes, StrKey(n)) ==
        if n !in cls.attributeNames then None
        else if LastGet(row, StrKey(n)).Some? then LastGet(row, StrKey(n))
        else LastNamed(row, n)
  {
    ConstructedGet(cls, row, n);
    AssignAllGet(cls, Constructed(cls, row), row, n);
  }

  /** After `$a[$name] = $value` for each sent entry, a sent name holds its last sent value and any other is unchanged. */
  lemma {:induction false} PutAllGet(es: Entries, vs: Entries, k: Key)
    ensures Get(PutAll(es, vs), k) == if LastGet(vs, k).Some? then LastGet(vs, k) else Get(es, k)
  {
    if vs != [] {
      var init := vs[..|vs| - 1];
      var (kk, v) := vs[|vs| - 1];
      assert vs == init + [(kk, v)];
      PutAllGet(es, init, k);
      LastGetAppend(init, kk, v, k);
      PutGet(PutAll(es, init), kk, v, k);
    }
  }

  /**
   * With the unique names of a PHP array, `$changedAttributes` maps exactly the
   * sent names, each to the old value it had before the update.
   */
  lemma {:induction false} ChangedGet(stored: Entries, vs: Entries, k: Key)
    requires UniqueKeys(vs)
    ensures Get(Changed(stored, vs), k) == if Get(vs, k).Some? then Some(LegacyActiveRecord.AttributeOf(stored, k)) else None
  {
    if vs != [] {
      var init := vs[..|vs| - 1];
      var (kk, v) := vs[|vs| - 1];
      assert vs == init + [(kk, v)];
      UniqueLast(init, kk, v);
      ChangedGet(stored, init, k);
      PutGet(Changed(stored, init), kk, LegacyActiveRecord.AttributeOf(PutAll(stored, init), kk), k);
      KeyAppended(init, kk, v, k);
      if k == kk {
        PutAllGet(stored, init, kk);
      }
    }
  }

  /** Dropping the last entry keeps the keys unique, and its key occurs nowhere before it. */
  lemma UniqueLast(init: Entries, k: Key, v: Value)
    requires UniqueKeys(init + [(k, v)])
    ensures UniqueKeys(init)
    ensures LastGet(init, k) == None
  {
    var vs := init + [(k, v)];
    forall i, j | 0 <= i < j < |init|
      ensures init[i].0 != init[j].0
    {
      assert init[i] == vs[i] && init[j] == vs[j];
    }
    forall i | 0 <= i < |init|
      ensures init[i].0 != k
    {
      assert init[i] == vs[i] && vs[|init|].0 == k;
    }
  }

  /** A key is in an array with an entry appended iff it is that entry's key or was there before. */
  lemma KeyAppended(init: Entries, kk: Key, v: Value, k: Key)
    ensures Get(init + [(kk, v)], k).Some? <==> Get(init, k).Some? || k == kk
  {
    var vs := init + [(kk, v)];
    if Get(init, k).Some? {
      var i :| 0 <= i < |init| && init[i].0 == k;
      assert vs[i].0 == k;
    }
    if Get(vs, k).Some? && k != kk {
      var i :| 0 <= i < |vs| && vs[i].0 == k;
      assert init[i].0 == k;
    }
    if k == kk {
      assert vs[|init|].0 == k;
    }
  }

  /**
   * The old attributes an insert records are the sent values: a primary key the
   * server assigns is stored in the attributes but not in the old attributes, so
   * a later update or delete of the record is sent to the bare model path.
   */
  lemma InsertedKeyNotOld(cls: RecordClass, attributes: Entries, values: Entries, id: Value)
    requires |cls.primaryKey| == 1 && cls.primaryKey[0] in cls.attributeNames
    requires Get(values, StrKey(cls.primaryKey[0])) == None
    ensures Get(AssignAll(cls, attributes, [(StrKey(cls.primaryKey[0]), id)]), StrKey(cls.primaryKey[0])) == Some(id)
    ensures OldPrimaryKey(cls, Some(values), false) == Ok(Null)
    ensures RestCommand.ElementPath(cls.modelName, OldPrimaryKey(cls, Some(values), false).value) == cls.modelName
  {
    var key := StrKey(cls.primaryKey[0]);
    AssignAllGet(cls, attributes, [(key, id)], cls.primaryKey[0]);
    assert LastGet([(key, id)], key) == Some(id);
  }

  /** A single stored key with a truthy old value is appended to the model name for update and delete. */
  lemma OldKeyPath(cls: RecordClass, stored: Entries, v: Value)
    requires |cls.primaryKey| == 1 && Get(stored, StrKey(cls.primaryKey[0])) == Some(v) && Truthy(v)
    ensures OldPrimaryKey(cls, Some(stored), false) == Ok(v)
    ensures RestCommand.ElementPath(cls.modelName, OldPrimaryKey(cls, Some(stored), false).value) == cls.modelName + "/" + StrVal(v)
  {
  }
}
