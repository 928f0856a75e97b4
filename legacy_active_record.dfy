/**
 * The record of the root lineage (ActiveRecord.php): a bag of attributes whose
 * names must come from the class's allow-list. The class's static settings
 * (resource name, envelopes, parameter names, primary key, allowed attributes)
 * are one `ModelClass` value.
 */
module LegacyActiveRecord {
  import opened Php

  /** The static properties of a record class. */
  datatype ModelClass = ModelClass(
    name: string,
    apiUrl: string,
    /** `getResourceName()`: the class's base name in dashed form. */
    resourceName: string,
    collectionEnvelope: string,
    paginationEnvelope: string,
    /** Pairs (our key, the server's key) of the pagination envelope, in order. */
    paginationEnvelopeKeys: seq<(string, string)>,
    limitKey: string,
    offsetKey: string,
    primaryKey: seq<string>,
    validAttributes: seq<string>)

  /** The defaults of `$paginationEnvelopeKeys`. */
  const DefaultPaginationEnvelopeKeys: seq<(string, string)> :=
    [("totalCount", "total"), ("pageCount", "pages"), ("currPage", "offset"), ("perPageCount", "limit"), ("links", "links")]

  const ScenarioCreate: string := "create"
  const ScenarioUpdate: string := "update"
  const ScenarioDefault: string := "default"

  /** A name from the allow-list: `in_array` is strict, so an integer key never matches. */
  predicate Allowed(cls: ModelClass, name: Key)
  {
    name.StrKey? && name.s in cls.validAttributes
  }

  predicate AllAllowed(cls: ModelClass, es: Entries)
  {
    forall i :: 0 <= i < |es| ==> Allowed(cls, es[i].0)
  }

  /** `getAttribute($name)`: the value when it is set and not null, else null. */
  function AttributeOf(attributes: Entries, name: Key): (v: Value)
    ensures v != Null ==> Get(attributes, name) == Some(v)
    ensures v == Null <==> !Isset(attributes, name)
  {
    if Isset(attributes, name) then GetOr(attributes, name, Null) else Null
  }

  /** The attributes the constructor keeps from its input: the allowed entries, later ones overwriting. */
  function Admitted(cls: ModelClass, input: Entries): (r: Entries)
    ensures AllAllowed(cls, r)
  {
    if input == [] then []
    else
      var prev := Admitted(cls, input[..|input| - 1]);
      var (k, v) := input[|input| - 1];
      if Allowed(cls, k) then PutAllowed(cls, prev, k, v); Put(prev, k, v) else prev
  }

  /** `$values[$name] = getAttribute($name)` for each name in turn. */
  function KeyValues(attributes: Entries, names: seq<string>): Entries
  {
    if names == [] then []
    else
      var last := names[|names| - 1];
      Put(KeyValues(attributes, names[..|names| - 1]), StrKey(last), AttributeOf(attributes, StrKey(last)))
  }

  /** `getPrimaryKey($asArray)`: one key's value, or a map from every key name to its value. */
  function PrimaryKeyOf(cls: ModelClass, attributes: Entries, asArray: bool): Value
  {
    if !asArray && |cls.primaryKey| == 1 then AttributeOf(attributes, StrKey(cls.primaryKey[0]))
    else Arr(KeyValues(attributes, cls.primaryKey))
  }

  /**
   * The condition `findByCondition($condition)` hands to the query: a condition
   * that is not an associative array is the value of the first primary key.
   */
  function FindCondition(cls: ModelClass, condition: Value): (r: Outcome<Value>)
    ensures r.Ok? ==> IsAssociative(r.value)
    ensures r.Err? <==> !IsAssociative(condition) && cls.primaryKey == []
  {
    if !IsAssociative(condition) then
      if |cls.primaryKey| > 0 then Ok(Single(cls.primaryKey[0], condition))
      else Err(Thrown("InvalidConfigException", "\"" + cls.name + "\" must have a primary key."))
    else Ok(condition)
  }

  datatype SaveAction = CreateRecord | UpdateRecord | NotSaved

  /** Which request `save()` makes in a scenario. */
  function SaveActionOf(scenario: string): SaveAction
  {
    if scenario == ScenarioCreate then CreateRecord
    else if scenario == ScenarioUpdate then UpdateRecord
    else NotSaved
  }

  class Record {
    const cls: ModelClass
    var attributes: Entries
    var scenario: string

    /** Every stored name is allowed. */
    predicate Valid()
      reads this
    {
      AllAllowed(cls, attributes)
    }

    /** `hasAttribute($name)`: set already, or on the allow-list. */
    predicate HasAttribute(name: Key)
      reads this
    {
      Isset(attributes, name) || Allowed(cls, name)
    }

    function GetAttribute(name: Key): Value
      reads this
    {
      AttributeOf(attributes, name)
    }

    /** `new $class($attributes)`: every allowed entry of the input is stored. */
    constructor(cls: ModelClass, input: Entries)
      ensures this.cls == cls && attributes == Admitted(cls, input) && scenario == ScenarioDefault
      ensures Valid()
    {
      this.cls := cls;
      attributes := [];
      scenario := ScenarioDefault;
      new;
      var i := 0;
      while i < |input|
        invariant 0 <= i <= |input|
        invariant attributes == Admitted(cls, input[..i]) && scenario == ScenarioDefault
        invariant Valid()
      {
        var (key, value) := input[i];
        assert input[..i + 1][..i] == input[..i];
        HasAttributeIsAllowed(this, key);
        if HasAttribute(key) {
          var thrown := SetAttribute(key, value);
        }
        i := i + 1;
      }
      assert input[..|input|] == input;
    }

    /** `setAttribute($name, $value)`: stores the value of a known name, and throws for any other. */
    method SetAttribute(name: Key, value: Value) returns (thrown: Option<Thrown>)
      requires Valid()
      modifies this`attributes
      ensures Valid()
      ensures old(HasAttribute(name)) ==> attributes == Put(old(attributes), name, value) && thrown == None
      ensures !old(HasAttribute(name)) ==>
        attributes == old(attributes)
        && thrown == Some(Thrown("InvalidParamException", cls.name + " has no attribute named \"" + KeyText(name) + "\"."))
    {
      if HasAttribute(name) {
        HasAttributeIsAllowed(this, name);
        PutAllowed(cls, attributes, name, value);
        attributes := Put(attributes, name, value);
        thrown := None;
      } else {
        thrown := Some(Thrown("InvalidParamException", cls.name + " has no attribute named \"" + KeyText(name) + "\"."));
      }
    }

    /** `__unset($name)`: a known name is removed; any other goes to the parent component, which is not modelled. */
    method Unset(name: Key) returns (delegated: bool)
      requires Valid()
      modifies this`attributes
      ensures Valid()
      ensures delegated <==> !old(HasAttribute(name))
      ensures !delegated ==> attributes == Delete(old(attributes), name) && GetAttribute(name) == Null
      ensures delegated ==> attributes == old(attributes)
    {
      if HasAttribute(name) {
        DeleteAllowed(cls, attributes, name);
        attributes := Delete(attributes, name);
        DeleteGet(old(attributes), name, name);
        delegated := false;
      } else {
        delegated := true;
      }
    }

    /** `getPrimaryKey($asArray)`. */
    method GetPrimaryKey(asArray: bool) returns (r: Value)
      ensures r == PrimaryKeyOf(cls, attributes, asArray)
    {
      var keys := cls.primaryKey;
      if !asArray && |keys| == 1 {
        return if Isset(attributes, StrKey(keys[0])) then GetOr(attributes, StrKey(keys[0]), Null) else Null;
      }
      var values: Entries := [];
      var i := 0;
      while i < |keys|
        invariant 0 <= i <= |keys|
        invariant values == KeyValues(attributes, keys[..i])
      {
        assert keys[..i + 1][..i] == keys[..i];
        var name := keys[i];
        values := Put(values, StrKey(name), if Isset(attributes, StrKey(name)) then GetOr(attributes, StrKey(name), Null) else Null);
        i := i + 1;
      }
      assert keys[..|keys|] == keys;
      r := Arr(values);
    }

    /** `setScenario($scenario)`. */
    method SetScenario(s: string)
      modifies this`scenario
      ensures scenario == s
    {
      scenario := s;
    }
  }

  // --------------------------------------------------------------- lemmas

  /** Writing an allowed name keeps every stored name allowed. */
  lemma PutAllowed(cls: ModelClass, es: Entries, k: Key, v: Value)
    requires AllAllowed(cls, es) && Allowed(cls, k)
    ensures AllAllowed(cls, Put(es, k, v))
  {
    var r := Put(es, k, v);
    forall i | 0 <= i < |r|
      ensures Allowed(cls, r[i].0)
    {
      assert KeysOf(r)[i] == r[i].0;
      assert r[i].0 in KeysOf(es) + [k];
      if r[i].0 in KeysOf(es) {
        var j :| 0 <= j < |KeysOf(es)| && KeysOf(es)[j] == r[i].0;
        assert es[j].0 == r[i].0;
      }
    }
  }

  /** Removing a name keeps every stored name allowed. */
  lemma DeleteAllowed(cls: ModelClass, es: Entries, k: Key)
    requires AllAllowed(cls, es)
    ensures AllAllowed(cls, Delete(es, k))
  {
    var r := Delete(es, k);
    forall i | 0 <= i < |r|
      ensures Allowed(cls, r[i].0)
    {
      DeleteKeeps(es, k, r[i]);
      var j :| 0 <= j < |es| && es[j] == r[i];
    }
  }

  /** While the record is valid, `hasAttribute` is exactly membership of the allow-list. */
  lemma HasAttributeIsAllowed(r: Record, name: Key)
    requires r.Valid()
    ensures r.HasAttribute(name) <==> Allowed(r.cls, name)
  {
    if Isset(r.attributes, name) {
      var i :| 0 <= i < |r.attributes| && r.attributes[i].0 == name;
    }
  }

  /** The constructor keeps the last value of each allowed name and silently drops every other name. */
  lemma {:induction false} AdmittedGet(cls: ModelClass, input: Entries, k: Key)
    ensures Get(Admitted(cls, input), k) == if Allowed(cls, k) then LastGet(input, k) else None
  {
    if input != [] {
      var init := input[..|input| - 1];
      var (kk, v) := input[|input| - 1];
      assert input == init + [(kk, v)];
      AdmittedGet(cls, init, k);
      LastGetAppend(init, kk, v, k);
      if Allowed(cls, kk) {
        PutGet(Admitted(cls, init), kk, v, k);
      }
    }
  }

  /** Reading back: a stored value is read, every other name reads as before. */
  lemma AttributeOfPut(es: Entries, k: Key, v: Value, k': Key)
    ensures AttributeOf(Put(es, k, v), k') == if k' == k then v else AttributeOf(es, k')
  {
    PutGet(es, k, v, k');
  }

  /** After `__unset` a name reads as null and every other name as before. */
  lemma AttributeOfDelete(es: Entries, k: Key, k': Key)
    ensures AttributeOf(Delete(es, k), k') == if k' == k then Null else AttributeOf(es, k')
  {
    DeleteGet(es, k, k');
  }

  /** The key map has exactly the key names, each with its attribute's value or null. */
  lemma {:induction false} KeyValuesGet(attributes: Entries, names: seq<string>, n: string)
    ensures Get(KeyValues(attributes, names), StrKey(n)) == if n in names then Some(AttributeOf(attributes, StrKey(n))) else None
  {
    if names != [] {
      var init := names[..|names| - 1];
      var last := names[|names| - 1];
      assert names == init + [last];
      KeyValuesGet(attributes, init, n);
      PutGet(KeyValues(attributes, init), StrKey(last), AttributeOf(attributes, StrKey(last)), StrKey(n));
    }
  }

  /** A single key is returned as its value unless an array is asked for; otherwise every key maps to its value. */
  lemma PrimaryKeyShape(cls: ModelClass, attributes: Entries, asArray: bool, n: string)
    ensures !asArray && |cls.primaryKey| == 1 ==> PrimaryKeyOf(cls, attributes, asArray) == AttributeOf(attributes, StrKey(cls.primaryKey[0]))
    ensures asArray || |cls.primaryKey| != 1 ==>
      PrimaryKeyOf(cls, attributes, asArray).Arr?
      && Get(PrimaryKeyOf(cls, attributes, asArray).entries, StrKey(n)) == if n in cls.primaryKey then Some(AttributeOf(attributes, StrKey(n))) else None
  {
    KeyValuesGet(attributes, cls.primaryKey, n);
  }

  /** `findOne(5)` on a class keyed by `id` queries `['id' => 5]`; an associative condition is used as it is. */
  lemma FindByKeyValue(cls: ModelClass, v: Value, condition: Value)
    requires cls.primaryKey != [] && !IsAssociative(v) && IsAssociative(condition)
    ensures FindCondition(cls, v) == Ok(Single(cls.primaryKey[0], v))
    ensures FindCondition(cls, condition) == Ok(condition)
  {
  }
}
