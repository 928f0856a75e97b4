/**
 * PHP values and the array, string and cast primitives that both lineages of
 * the REST client rely on. A PHP array is an ordered map, so it is a sequence
 * of (key, value) pairs; reading a key finds its first occurrence and writing a
 * key overwrites that occurrence in place or appends a new one at the end.
 */
module Php {

  datatype Option<+T> = None | Some(value: T)

  /** An exception: its class and its message. */
  datatype Thrown = Thrown(exceptionClass: string, message: string)

  /** A call either returns a value or throws. */
  datatype Outcome<+T> = Ok(value: T) | Err(thrown: Thrown)

  /** An array key: an integer or a string. */
  datatype Key = IntKey(i: int) | StrKey(s: string)

  datatype Value =
    | Null
    | Bool(b: bool)
    | Int(i: int)
    | Str(s: string)
    | Arr(entries: seq<(Key, Value)>)

  type Entries = seq<(Key, Value)>

  // ---------------------------------------------------------------- arrays

  /** `$a[$k]` when the key exists (array_key_exists), else None. */
  function Get(es: Entries, k: Key): (r: Option<Value>)
    ensures r.None? <==> forall i :: 0 <= i < |es| ==> es[i].0 != k
  {
    if es == [] then None
    else if es[0].0 == k then Some(es[0].1)
    else Get(es[1..], k)
  }

  /** The value at the key's LAST occurrence: what a foreach-assignment loop leaves behind. */
  function LastGet(es: Entries, k: Key): (r: Option<Value>)
    ensures r.None? <==> forall i :: 0 <= i < |es| ==> es[i].0 != k
  {
    if es == [] then None
    else
      var later := LastGet(es[1..], k);
      if later.Some? then later
      else if es[0].0 == k then Some(es[0].1)
      else None
  }

  function KeysOf(es: Entries): (ks: seq<Key>)
    ensures |ks| == |es| && forall i :: 0 <= i < |es| ==> ks[i] == es[i].0
  {
    if es == [] then [] else [es[0].0] + KeysOf(es[1..])
  }

  function ValuesOf(es: Entries): (vs: seq<Value>)
    ensures |vs| == |es| && forall i :: 0 <= i < |es| ==> vs[i] == es[i].1
  {
    if es == [] then [] else [es[0].1] + ValuesOf(es[1..])
  }

  /** `isset($a[$k])`: the key exists and its value is not null. */
  predicate Isset(es: Entries, k: Key)
  {
    Get(es, k).Some? && Get(es, k).value != Null
  }

  /** The value at `$a[$k]`, or `$default` when the key does not exist. */
  function GetOr(es: Entries, k: Key, default: Value): Value
  {
    match Get(es, k)
    case Some(v) => v
    case None => default
  }

  /** `$a[$k] = $v`: overwrite the key in place, or append it at the end. */
  function Put(es: Entries, k: Key, v: Value): (r: Entries)
    ensures KeysOf(r) == if k in KeysOf(es) then KeysOf(es) else KeysOf(es) + [k]
  {
    if es == [] then [(k, v)]
    else if es[0].0 == k then [(k, v)] + es[1..]
    else [es[0]] + Put(es[1..], k, v)
  }

  /** `unset($a[$k])`. */
  function Delete(es: Entries, k: Key): (r: Entries)
    ensures k !in KeysOf(r)
    ensures |r| <= |es|
  {
    if es == [] then []
    else if es[0].0 == k then Delete(es[1..], k)
    else [es[0]] + Delete(es[1..], k)
  }

  /** `ArrayHelper::remove($a, $k, $default)`: the removed value (or the default) and the array left behind. */
  function Remove(es: Entries, k: Key, default: Value): (Value, Entries)
  {
    (GetOr(es, k, default), Delete(es, k))
  }

  /** The key `$a[] = …` uses: one above the largest non-negative integer key, or 0. */
  function NextIndex(es: Entries): (n: nat)
    ensures forall i :: 0 <= i < |es| && es[i].0.IntKey? ==> es[i].0.i < n
  {
    if es == [] then 0
    else
      var rest := NextIndex(es[1..]);
      if es[0].0.IntKey? && es[0].0.i >= rest then es[0].0.i + 1 else rest
  }

  /** `$a[] = $v`. */
  function Push(es: Entries, v: Value): Entries
  {
    es + [(IntKey(NextIndex(es)), v)]
  }

  /** Adds the entries of `es` to `acc` the way array_merge does: integer keys are renumbered, string keys overwrite. */
  function MergeInto(acc: Entries, es: Entries): Entries
    decreases |es|
  {
    if es == [] then acc
    else
      var k := es[0].0;
      var acc' := if k.IntKey? then Push(acc, es[0].1) else Put(acc, k, es[0].1);
      MergeInto(acc', es[1..])
  }

  /** `array_merge($a, $b)`. */
  function Merge(a: Entries, b: Entries): Entries
  {
    MergeInto(MergeInto([], a), b)
  }

  /** The entries of a list: keys 0, 1, 2, … in order. */
  function ListEntries(xs: seq<Value>): (es: Entries)
    ensures |es| == |xs|
    ensures forall i :: 0 <= i < |xs| ==> es[i] == (IntKey(i), xs[i])
  {
    if xs == [] then [] else ListEntries(xs[..|xs| - 1]) + [(IntKey(|xs| - 1), xs[|xs| - 1])]
  }

  function List(xs: seq<Value>): Value
  {
    Arr(ListEntries(xs))
  }

  /** A one-entry array keyed by a string. */
  function Single(k: string, v: Value): Value
  {
    Arr([(StrKey(k), v)])
  }

  /** `reset($a)`: the first value, or false for an empty array. */
  function Reset(es: Entries): Value
  {
    if es == [] then Bool(false) else es[0].1
  }

  /** `array_filter($a)` without a callback: drops every entry whose value is falsy, keeping keys. */
  function Filter(es: Entries): (r: Entries)
    ensures forall i :: 0 <= i < |r| ==> Truthy(r[i].1)
    ensures |r| <= |es|
  {
    if es == [] then []
    else if Truthy(es[0].1) then [es[0]] + Filter(es[1..])
    else Filter(es[1..])
  }

  /** `ArrayHelper::isAssociative($a)`: a non-empty array whose keys are all strings. */
  predicate IsAssociative(v: Value)
  {
    v.Arr? && |v.entries| > 0 && forall i :: 0 <= i < |v.entries| ==> v.entries[i].0.StrKey?
  }

  /** `(array) $v`. */
  function CastArray(v: Value): Entries
  {
    match v
    case Null => []
    case Arr(es) => es
    case _ => [(IntKey(0), v)]
  }

  /** `ArrayHelper::toArray($v)` for values that are not objects. */
  function ToArray(v: Value): Entries
  {
    if v.Arr? then v.entries else [(IntKey(0), v)]
  }

  // ------------------------------------------------------------ truthiness

  /** `empty($v)`. */
  predicate IsEmpty(v: Value)
  {
    match v
    case Null => true
    case Bool(b) => !b
    case Int(i) => i == 0
    case Str(s) => s == "" || s == "0"
    case Arr(es) => es == []
  }

  predicate Truthy(v: Value)
  {
    !IsEmpty(v)
  }

  // --------------------------------------------------------------- strings

  predicate IsDigit(c: char)
  {
    '0' <= c <= '9'
  }

  function DigitChar(d: nat): (c: char)
    requires d < 10
    ensures IsDigit(c) && c as int - '0' as int == d
  {
    (d + '0' as int) as char
  }

  /** The decimal text of a natural number, without leading zeros. */
  function NatToString(n: nat): (s: string)
    ensures |s| > 0 && forall i :: 0 <= i < |s| ==> IsDigit(s[i])
    decreases n
  {
    if n < 10 then [DigitChar(n)] else NatToString(n / 10) + [DigitChar(n % 10)]
  }

  /** `(string) $i` for an integer. */
  function IntToString(i: int): string
  {
    if i < 0 then "-" + NatToString(-i) else NatToString(i)
  }

  /** `(string) $v`; an array converts to the text "Array". */
  function StrVal(v: Value): string
  {
    match v
    case Null => ""
    case Bool(b) => if b then "1" else ""
    case Int(i) => IntToString(i)
    case Str(s) => s
    case Arr(_) => "Array"
  }

  /** Each value converted with `(string)`, as imploding an array does. */
  function StrVals(vs: seq<Value>): (r: seq<string>)
    ensures |r| == |vs| && forall i :: 0 <= i < |vs| ==> r[i] == StrVal(vs[i])
  {
    seq(|vs|, i requires 0 <= i < |vs| => StrVal(vs[i]))
  }

  /** The text of an array key, as `array_keys` and string interpolation give it. */
  function KeyText(k: Key): string
  {
    match k
    case IntKey(i) => IntToString(i)
    case StrKey(s) => s
  }

  /** The number a run of decimal digits spells; a character that is not a digit counts as 0. */
  function DigitsValue(s: string): nat
  {
    if s == [] then 0 else DigitsValue(s[..|s| - 1]) * 10 + DigitValue(s[|s| - 1])
  }

  function DigitValue(c: char): nat
  {
    if IsDigit(c) then c as int - '0' as int else 0
  }

  /** The longest prefix of `s` made of decimal digits. */
  function LeadingDigits(s: string): (d: string)
    ensures |d| <= |s| && AllDigits(d)
  {
    if s != [] && IsDigit(s[0]) then [s[0]] + LeadingDigits(s[1..]) else []
  }

  predicate IsSpace(c: char)
  {
    c == ' ' || c == '\t' || c == '\n' || c == '\r' || c == '\U{B}' || c == '\U{C}'
  }

  function SkipSpace(s: string): string
  {
    if s != [] && IsSpace(s[0]) then SkipSpace(s[1..]) else s
  }

  predicate AllDigits(s: string)
  {
    forall i :: 0 <= i < |s| ==> IsDigit(s[i])
  }

  predicate AllSpace(s: string)
  {
    forall i :: 0 <= i < |s| ==> IsSpace(s[i])
  }

  function Pow10(n: nat): (r: nat)
    ensures r > 0
  {
    if n == 0 then 1 else 10 * Pow10(n - 1)
  }

  /**
   * A decimal numeral as PHP reads one from a string: an optional sign, digits with an optional
   * fraction (at least one digit in all), then an optional exponent.
   */
  datatype Numeral = Numeral(negative: bool, whole: string, fraction: string, exponent: int)

  /** `e` or `E`, an optional sign and at least one digit at the head of `s`: the exponent and its length, or (0, 0) when there is none. */
  function ExponentPrefix(s: string): (r: (int, nat))
    ensures r.1 <= |s|
    ensures r.1 == 0 ==> r.0 == 0
  {
    if s != [] && (s[0] == 'e' || s[0] == 'E') then
      var signed := |s| > 1 && (s[1] == '-' || s[1] == '+');
      var d := LeadingDigits(if signed then s[2..] else s[1..]);
      if d == [] then (0, 0)
      else
        var n: int := DigitsValue(d);
        ((if signed && s[1] == '-' then -n else n), (if signed then 2 else 1) + |d|)
    else (0, 0)
  }

  /** Digits with an optional fraction at the head of `u`: the two digit runs, and how many characters they span with the point. */
  function MantissaPrefix(u: string): (r: (string, string, nat))
    ensures |r.0| + |r.1| <= r.2 <= |u|
  {
    var whole := LeadingDigits(u);
    var v := u[|whole|..];
    if v != [] && v[0] == '.' then
      var fraction := LeadingDigits(v[1..]);
      (whole, fraction, |whole| + 1 + |fraction|)
    else (whole, [], |whole|)
  }

  /** The longest numeral at the head of `t` and the number of characters it spans, or None when `t` does not start with one. */
  function NumeralPrefix(t: string): (r: Option<(Numeral, nat)>)
    ensures r.Some? ==> 0 < r.value.1 <= |t|
    ensures r.Some? ==> r.value.0.whole != [] || r.value.0.fraction != []
  {
    if t != [] && (t[0] == '-' || t[0] == '+') then UnsignedNumeral(t[0] == '-', t[1..], 1)
    else UnsignedNumeral(false, t, 0)
  }

  /** The numeral at the head of `u`, which follows a sign of `sign` characters. */
  function UnsignedNumeral(negative: bool, u: string, sign: nat): (r: Option<(Numeral, nat)>)
    ensures r.Some? ==> 0 < r.value.1 <= sign + |u|
    ensures r.Some? ==> r.value.0.whole != [] || r.value.0.fraction != []
  {
    var m := MantissaPrefix(u);
    if m.0 == [] && m.1 == [] then None
    else
      var e := ExponentPrefix(u[m.2..]);
      Some((Numeral(negative, m.0, m.1, e.0), sign + m.2 + e.1))
  }

  /** The numeral's value rounded toward zero, as `(int)` converts a float. */
  function Truncated(n: Numeral): int
  {
    var m := DigitsValue(n.whole + n.fraction);
    var shift := n.exponent - |n.fraction|;
    var magnitude := if shift >= 0 then m * Pow10(shift) else m / Pow10(-shift);
    if n.negative then -magnitude else magnitude
  }

  /**
   * `(int) $s` for a string: the numeral after leading white space, rounded toward zero;
   * whatever follows it is ignored, and a string that does not start with one gives 0.
   */
  function IntCastString(s: string): int
  {
    match NumeralPrefix(SkipSpace(s))
    case None => 0
    case Some(p) => Truncated(p.0)
  }

  /** `(int) $v`. */
  function IntCast(v: Value): int
  {
    match v
    case Null => 0
    case Bool(b) => if b then 1 else 0
    case Int(i) => i
    case Str(s) => IntCastString(s)
    case Arr(es) => if es == [] then 0 else 1
  }

  /** `is_numeric($v)` for integers and strings. */
  predicate IsNumeric(v: Value)
  {
    match v
    case Int(_) => true
    case Str(s) => IsNumericText(s)
    case _ => false
  }

  /** A numeral with only white space around it. */
  predicate IsNumericText(s: string)
  {
    var t := SkipSpace(s);
    match NumeralPrefix(t)
    case None => false
    case Some(p) => forall i :: p.1 <= i < |t| ==> IsSpace(t[i])
  }

  /** `implode($sep, $parts)`. */
  function Implode(sep: string, parts: seq<string>): string
  {
    if parts == [] then ""
    else if |parts| == 1 then parts[0]
    else parts[0] + sep + Implode(sep, parts[1..])
  }

  /** The characters `trim` removes by default. */
  predicate IsTrimChar(c: char)
  {
    c == ' ' || c == '\t' || c == '\n' || c == '\r' || c == '\0' || c == '\U{B}'
  }

  function TrimLeft(s: string): (r: string)
    ensures r == [] || !IsTrimChar(r[0])
    ensures |r| <= |s| && r == s[|s| - |r|..]
  {
    if s != [] && IsTrimChar(s[0]) then TrimLeft(s[1..]) else s
  }

  function TrimRight(s: string): (r: string)
    ensures r == [] || !IsTrimChar(r[|r| - 1])
    ensures r <= s
  {
    if s != [] && IsTrimChar(s[|s| - 1]) then TrimRight(s[..|s| - 1]) else s
  }

  /** `trim($s)`. */
  function Trim(s: string): string
  {
    TrimRight(TrimLeft(s))
  }

  /** `rtrim($s, $c)` for a single character. */
  function RTrimChar(s: string, c: char): (r: string)
    ensures r <= s
    ensures r == [] || r[|r| - 1] != c
    ensures forall i :: |r| <= i < |s| ==> s[i] == c
  {
    if s != [] && s[|s| - 1] == c then RTrimChar(s[..|s| - 1], c) else s
  }

  function UpperChar(c: char): char
  {
    if 'a' <= c <= 'z' then (c as int - 32) as char else c
  }

  /** `strtoupper($s)` (byte-wise ASCII). */
  function ToUpper(s: string): (r: string)
    ensures |r| == |s| && forall i :: 0 <= i < |s| ==> r[i] == UpperChar(s[i])
  {
    if s == [] then [] else [UpperChar(s[0])] + ToUpper(s[1..])
  }

  /** Whether `needle` occurs in `s` (`strpos($s, $needle) !== false`). */
  predicate Contains(s: string, c: char)
  {
    exists i :: 0 <= i < |s| && s[i] == c
  }

  /** `explode($c, $s)`: the pieces between the occurrences of `c`. */
  function SplitOn(s: string, c: char): (r: seq<string>)
    ensures |r| > 0
  {
    if s == [] then [""]
    else if s[0] == c then [""] + SplitOn(s[1..], c)
    else
      var t := SplitOn(s[1..], c);
      [[s[0]] + t[0]] + t[1..]
  }

  // ---------------------------------------------------------------- lemmas

  /** Writing a key makes it read back, and leaves every other key as it was. */
  lemma {:induction false} PutGet(es: Entries, k: Key, v: Value, k': Key)
    ensures Get(Put(es, k, v), k') == if k' == k then Some(v) else Get(es, k')
  {
    if es != [] && es[0].0 != k {
      PutGet(es[1..], k, v, k');
    }
  }

  /** After `unset` the key is gone and every other key reads as before. */
  lemma {:induction false} DeleteGet(es: Entries, k: Key, k': Key)
    ensures Get(Delete(es, k), k') == if k' == k then None else Get(es, k')
  {
    if es != [] {
      DeleteGet(es[1..], k, k');
    }
  }

  /** The key `$a[] = …` picks is not in use yet, so the pushed value reads back under it. */
  lemma PushGet(es: Entries, v: Value)
    ensures Get(Push(es, v), IntKey(NextIndex(es))) == Some(v)
    ensures forall k :: k != IntKey(NextIndex(es)) ==> Get(Push(es, v), k) == Get(es, k)
  {
    var n := NextIndex(es);
    AppendGet(es, IntKey(n), v);
  }

  lemma {:induction false} AppendGet(es: Entries, k: Key, v: Value)
    requires forall i :: 0 <= i < |es| ==> es[i].0 != k
    ensures Get(es + [(k, v)], k) == Some(v)
    ensures forall k' :: k' != k ==> Get(es + [(k, v)], k') == Get(es, k')
  {
    if es != [] {
      assert (es + [(k, v)])[1..] == es[1..] + [(k, v)];
      AppendGet(es[1..], k, v);
    }
  }

  /** array_merge: a string key reads from the last array that has it, else from the earlier one. */
  lemma {:induction false} MergeIntoStringKey(acc: Entries, es: Entries, s: string)
    ensures Get(MergeInto(acc, es), StrKey(s)) ==
      if StrKey(s) in KeysOf(es) then LastGet(es, StrKey(s)) else Get(acc, StrKey(s))
    decreases |es|
  {
    if es != [] {
      var k := es[0].0;
      var acc' := if k.IntKey? then Push(acc, es[0].1) else Put(acc, k, es[0].1);
      MergeIntoStringKey(acc', es[1..], s);
      if k.IntKey? {
        PushGet(acc, es[0].1);
      } else {
        PutGet(acc, k, es[0].1, StrKey(s));
      }
    }
  }

  /** array_merge with a later string key overwrites the earlier value. */
  lemma MergeOverwrites(a: Entries, b: Entries, s: string)
    ensures StrKey(s) in KeysOf(b) ==> Get(Merge(a, b), StrKey(s)) == LastGet(b, StrKey(s))
    ensures StrKey(s) !in KeysOf(b) ==> Get(Merge(a, b), StrKey(s)) == LastGet(a, StrKey(s))
  {
    MergeIntoStringKey(MergeInto([], a), b, s);
    MergeIntoStringKey([], a, s);
  }

  /** `$a[$k] = $v` for a key the array does not have appends the entry. */
  lemma {:induction false} PutFresh(es: Entries, k: Key, v: Value)
    requires forall i :: 0 <= i < |es| ==> es[i].0 != k
    ensures Put(es, k, v) == es + [(k, v)]
  {
    if es != [] {
      assert es[0].0 != k;
      PutFresh(es[1..], k, v);
      assert [es[0]] + (es[1..] + [(k, v)]) == es + [(k, v)];
    }
  }

  /** array_merge of arrays whose keys are distinct strings is plain concatenation. */
  lemma {:induction false} MergeIntoFresh(acc: Entries, es: Entries)
    requires forall i :: 0 <= i < |es| ==> es[i].0.StrKey?
    requires forall i, j :: 0 <= i < |es| && 0 <= j < |acc| ==> es[i].0 != acc[j].0
    requires forall i, j :: 0 <= i < j < |es| ==> es[i].0 != es[j].0
    ensures MergeInto(acc, es) == acc + es
    decreases |es|
  {
    if es != [] {
      assert es[0].0.StrKey?;
      assert MergeInto(acc, es) == MergeInto(Put(acc, es[0].0, es[0].1), es[1..]);
      assert forall j :: 0 <= j < |acc| ==> acc[j].0 != es[0].0 by {
        forall j | 0 <= j < |acc|
          ensures acc[j].0 != es[0].0
        {
          assert es[0].0 != acc[j].0;
        }
      }
      PutFresh(acc, es[0].0, es[0].1);
      var acc' := acc + [es[0]];
      var rest := es[1..];
      forall i | 0 <= i < |rest|
        ensures rest[i].0.StrKey?
      {
        assert rest[i] == es[i + 1];
      }
      forall i, j | 0 <= i < |rest| && 0 <= j < |acc'|
        ensures rest[i].0 != acc'[j].0
      {
        assert rest[i] == es[i + 1];
        if j < |acc| {
          assert acc'[j] == acc[j];
        } else {
          assert acc'[j] == es[0];
        }
      }
      forall i, j | 0 <= i < j < |rest|
        ensures rest[i].0 != rest[j].0
      {
        assert rest[i] == es[i + 1] && rest[j] == es[j + 1];
      }
      MergeIntoFresh(acc', rest);
      assert MergeInto(acc, es) == MergeInto(acc', rest);
      SplitFirst(acc, es);
    }
  }

  /** Appending an entry makes it the last occurrence of its key. */
  lemma {:induction false} LastGetAppend(es: Entries, k: Key, v: Value, k': Key)
    ensures LastGet(es + [(k, v)], k') == if k' == k then Some(v) else LastGet(es, k')
  {
    if es != [] {
      assert (es + [(k, v)])[1..] == es[1..] + [(k, v)];
      LastGetAppend(es[1..], k, v, k');
    }
  }

  lemma SplitFirst<T>(a: seq<T>, b: seq<T>)
    requires b != []
    ensures (a + [b[0]]) + b[1..] == a + b
  {
  }

  /** An entry survives `unset($a[$k])` exactly when it is not under `$k`. */
  lemma {:induction false} DeleteKeeps(es: Entries, k: Key, e: (Key, Value))
    ensures e in Delete(es, k) <==> e in es && e.0 != k
  {
    if es != [] {
      DeleteKeeps(es[1..], k, e);
    }
  }

  lemma {:induction false} SplitWhole(p: string, c: char)
    requires !Contains(p, c)
    ensures SplitOn(p, c) == [p]
  {
    if p != [] {
      assert !Contains(p[1..], c) by {
        forall i | 0 <= i < |p[1..]|
          ensures p[1..][i] != c
        {
          assert p[1..][i] == p[i + 1];
        }
      }
      SplitWhole(p[1..], c);
      assert p[0] != c;
      assert [p[0]] + p[1..] == p;
    }
  }

  lemma {:induction false} SplitPiece(p: string, c: char, t: string)
    requires !Contains(p, c)
    ensures SplitOn(p + [c] + t, c) == [p] + SplitOn(t, c)
  {
    if p == [] {
      assert p + [c] + t == [c] + t;
      assert ([c] + t)[1..] == t;
    } else {
      assert !Contains(p[1..], c) by {
        forall i | 0 <= i < |p[1..]|
          ensures p[1..][i] != c
        {
          assert p[1..][i] == p[i + 1];
        }
      }
      SplitPiece(p[1..], c, t);
      assert (p + [c] + t)[1..] == p[1..] + [c] + t;
      assert (p + [c] + t)[0] == p[0] && p[0] != c;
      assert [p[0]] + p[1..] == p;
    }
  }

  /** Splitting a joined list of pieces that do not contain the separator gives the pieces back. */
  lemma {:induction false} SplitImplode(parts: seq<string>, c: char)
    requires parts != []
    requires forall i :: 0 <= i < |parts| ==> !Contains(parts[i], c)
    ensures SplitOn(Implode([c], parts), c) == parts
  {
    if |parts| == 1 {
      SplitWhole(parts[0], c);
    } else {
      SplitImplode(parts[1..], c);
      SplitPiece(parts[0], c, Implode([c], parts[1..]));
      assert [parts[0]] + parts[1..] == parts;
    }
  }

  /** No key occurs twice, as in every PHP array. */
  predicate UniqueKeys(es: Entries)
  {
    forall i, j :: 0 <= i < j < |es| ==> es[i].0 != es[j].0
  }

  /** In an array whose keys are unique the first and the last occurrence are the same. */
  lemma {:induction false} LastGetUnique(es: Entries, k: Key)
    requires UniqueKeys(es)
    ensures LastGet(es, k) == Get(es, k)
  {
    if es != [] {
      assert UniqueKeys(es[1..]) by {
        forall i, j | 0 <= i < j < |es[1..]|
          ensures es[1..][i].0 != es[1..][j].0
        {
          assert es[1..][i] == es[i + 1] && es[1..][j] == es[j + 1];
        }
      }
      LastGetUnique(es[1..], k);
      if es[0].0 == k {
        forall i | 0 <= i < |es[1..]|
          ensures es[1..][i].0 != k
        {
          assert es[1..][i] == es[i + 1];
        }
      }
    }
  }

  lemma KeysOfUnique(es: Entries)
    requires UniqueKeys(es)
    ensures forall i, j :: 0 <= i < j < |KeysOf(es)| ==> KeysOf(es)[i] != KeysOf(es)[j]
  {
    var ks := KeysOf(es);
    forall i, j | 0 <= i < j < |ks|
      ensures ks[i] != ks[j]
    {
      assert ks[i] == es[i].0 && ks[j] == es[j].0;
    }
  }

  lemma UniqueOfKeys(es: Entries)
    requires forall i, j :: 0 <= i < j < |KeysOf(es)| ==> KeysOf(es)[i] != KeysOf(es)[j]
    ensures UniqueKeys(es)
  {
    var ks := KeysOf(es);
    forall i, j | 0 <= i < j < |es|
      ensures es[i].0 != es[j].0
    {
      assert ks[i] == es[i].0 && ks[j] == es[j].0;
    }
  }

  /** Assigning into an array keeps its keys unique. */
  lemma PutUnique(es: Entries, k: Key, v: Value)
    requires UniqueKeys(es)
    ensures UniqueKeys(Put(es, k, v))
  {
    KeysOfUnique(es);
    var ks := KeysOf(es);
    var ks' := KeysOf(Put(es, k, v));
    if k !in ks {
      assert ks' == ks + [k];
      forall i, j | 0 <= i < j < |ks'|
        ensures ks'[i] != ks'[j]
      {
        if j == |ks| {
          assert ks'[j] == k && ks'[i] == ks[i];
        }
      }
    }
    UniqueOfKeys(Put(es, k, v));
  }

  /** array_merge keeps the keys of the accumulated array unique. */
  lemma {:induction false} MergeIntoUnique(acc: Entries, es: Entries)
    requires UniqueKeys(acc)
    ensures UniqueKeys(MergeInto(acc, es))
    decreases |es|
  {
    if es != [] {
      var k := es[0].0;
      if k.IntKey? {
        var n := NextIndex(acc);
        assert Push(acc, es[0].1) == acc + [(IntKey(n), es[0].1)];
        assert UniqueKeys(acc + [(IntKey(n), es[0].1)]) by {
          forall i, j | 0 <= i < j < |acc| + 1
            ensures (acc + [(IntKey(n), es[0].1)])[i].0 != (acc + [(IntKey(n), es[0].1)])[j].0
          {
            if j == |acc| {
              assert acc[i].0.IntKey? ==> acc[i].0.i < n;
            }
          }
        }
        MergeIntoUnique(Push(acc, es[0].1), es[1..]);
      } else {
        PutUnique(acc, k, es[0].1);
        MergeIntoUnique(Put(acc, k, es[0].1), es[1..]);
      }
    }
  }

  /** Every value `array_filter` keeps is truthy, and every truthy entry is kept. */
  lemma {:induction false} FilterKeepsTruthy(es: Entries, e: (Key, Value))
    ensures e in Filter(es) <==> e in es && Truthy(e.1)
  {
    if es != [] {
      FilterKeepsTruthy(es[1..], e);
    }
  }

  /** The digits of a number read back to the number. */
  lemma {:induction false} DigitsOfNat(n: nat)
    ensures DigitsValue(NatToString(n)) == n
    decreases n
  {
    if n >= 10 {
      DigitsOfNat(n / 10);
      var s := NatToString(n);
      assert s[..|s| - 1] == NatToString(n / 10);
    }
  }

  lemma {:induction false} LeadingDigitsOfDigits(s: string)
    requires forall i :: 0 <= i < |s| ==> IsDigit(s[i])
    ensures LeadingDigits(s) == s
  {
    if s != [] {
      LeadingDigitsOfDigits(s[1..]);
    }
  }

  /** A run of digits, signed or not, is read as one whole numeral spanning all of it. */
  lemma DigitsNumeral(d: string, negative: bool)
    requires d != [] && AllDigits(d)
    ensures var t := if negative then "-" + d else d;
      NumeralPrefix(t) == Some((Numeral(negative, d, [], 0), |t|))
  {
    LeadingDigitsOfDigits(d);
    assert d[|d|..] == [];
    assert MantissaPrefix(d) == (d, [], |d|);
    if negative {
      assert ("-" + d)[1..] == d;
    } else {
      assert d[0..] == d;
      assert IsDigit(d[0]);
    }
  }

  /** A numeral without fraction or exponent has the value of its digits. */
  lemma TruncatedDigits(d: string, negative: bool)
    requires AllDigits(d)
    ensures Truncated(Numeral(negative, d, [], 0)) == if negative then -(DigitsValue(d) as int) else DigitsValue(d) as int
  {
    assert d + [] == d;
  }

  /** `(int)(string) $i == $i`: casting an integer's text back gives the integer. */
  lemma IntCastOfIntToString(i: int)
    ensures IntCastString(IntToString(i)) == i
  {
    var n: nat := if i < 0 then -i else i;
    var d := NatToString(n);
    var t := IntToString(i);
    assert t == if i < 0 then "-" + d else d;
    DigitsOfNat(n);
    DigitsNumeral(d, i < 0);
    TruncatedDigits(d, i < 0);
    assert SkipSpace(t) == t by {
      assert !IsSpace(t[0]) by {
        if i >= 0 {
          assert IsDigit(d[0]);
        }
      }
    }
  }

  /**
   * A decimal string, with any white space around it and an optional minus sign, is numeric,
   * and `(int)` drops its fraction: the cast rounds toward zero on both sides of it.
   */
  lemma DecimalText(lead: string, negative: bool, w: string, f: string, pad: string)
    requires AllSpace(lead) && AllSpace(pad) && AllDigits(w) && AllDigits(f) && (w != [] || f != [])
    ensures var s := lead + ((if negative then "-" else "") + (w + "." + f + pad));
      IsNumericText(s) && IntCastString(s) == if negative then -(DigitsValue(w) as int) else DigitsValue(w) as int
  {
    DecimalNumeral(lead, negative, w, f, pad);
    TruncatedDropsFraction(negative, w, f);
  }

  lemma DecimalNumeral(lead: string, negative: bool, w: string, f: string, pad: string)
    requires AllSpace(lead) && AllSpace(pad) && AllDigits(w) && AllDigits(f) && (w != [] || f != [])
    ensures var s := lead + ((if negative then "-" else "") + (w + "." + f + pad));
      IsNumericText(s) && IntCastString(s) == Truncated(Numeral(negative, w, f, 0))
  {
    var sign := if negative then "-" else "";
    var x := sign + (w + "." + f + pad);
    DecimalParse(negative, w, f, pad);
    ReadNumeral(lead, x, Numeral(negative, w, f, 0), |sign| + |w| + 1 + |f|);
    SpaceAfter(sign, w + "." + f, pad);
  }

  /** An optionally signed decimal followed by white space is one numeral, ending before the white space. */
  lemma DecimalParse(negative: bool, w: string, f: string, pad: string)
    requires AllSpace(pad) && AllDigits(w) && AllDigits(f) && (w != [] || f != [])
    ensures var sign := if negative then "-" else "";
      var x := sign + (w + "." + f + pad);
      x != [] && !IsSpace(x[0]) && NumeralPrefix(x) == Some((Numeral(negative, w, f, 0), |sign| + |w| + 1 + |f|))
  {
    var sign := if negative then "-" else "";
    var u := w + "." + f + pad;
    var x := sign + u;
    UnsignedDecimal(negative, |sign|, w, f, pad);
    SignedNumeral(sign, negative, u);
  }

  /** A decimal followed by white space, after a sign of `sign` characters. */
  lemma UnsignedDecimal(negative: bool, sign: nat, w: string, f: string, pad: string)
    requires AllSpace(pad) && AllDigits(w) && AllDigits(f) && (w != [] || f != [])
    ensures var u := w + "." + f + pad;
      u != [] && u[0] != '-' && u[0] != '+' && !IsSpace(u[0])
      && UnsignedNumeral(negative, u, sign) == Some((Numeral(negative, w, f, 0), sign + |w| + 1 + |f|))
  {
    var len := |w| + 1 + |f|;
    var u := w + "." + f + pad;
    assert u[0] == if w != [] then w[0] else '.';
    MantissaPoint(w, f, pad);
    assert u[len..] == pad;
    NoExponent(pad);
    UnsignedNumeralOf(u, w, f, len, 0, 0, negative, sign);
  }

  /** White space cannot start an exponent. */
  lemma NoExponent(pad: string)
    requires AllSpace(pad)
    ensures ExponentPrefix(pad) == (0, 0)
  {
    if pad != [] {
      assert IsSpace(pad[0]);
    }
  }

  /** Whatever follows a sign and a head that is white space is white space. */
  lemma SpaceAfter(sign: string, head: string, pad: string)
    requires AllSpace(pad)
    ensures var x := sign + (head + pad);
      forall i :: |sign| + |head| <= i < |x| ==> IsSpace(x[i])
  {
    var x := sign + (head + pad);
    forall i | |sign| + |head| <= i < |x|
      ensures IsSpace(x[i])
    {
      assert x[i] == pad[i - |sign| - |head|];
    }
  }

  /** Digits followed by an exponent `e<n>` are numeric, and `(int)` scales them by ten to the n. */
  lemma ExponentText(w: string, n: nat)
    requires w != [] && AllDigits(w)
    ensures var s := w + ("e" + NatToString(n));
      IsNumericText(s) && IntCastString(s) == DigitsValue(w) * Pow10(n)
  {
    ExponentOfNat(n);
    ExponentNumeral(w, "e" + NatToString(n), n);
    TruncatedScales(w, n);
  }

  /** Digits followed by nothing but an exponent are numeric, and `(int)` reads them as one numeral. */
  lemma ExponentNumeral(w: string, e: string, n: int)
    requires w != [] && AllDigits(w) && e != [] && e[0] == 'e'
    requires ExponentPrefix(e) == (n, |e|)
    ensures IsNumericText(w + e) && IntCastString(w + e) == Truncated(Numeral(false, w, [], n))
  {
    ExponentParse(w, e, n, |e|);
    ReadAll(w + e, Numeral(false, w, [], n));
  }

  /** Digits followed by an exponent form one numeral spanning both. */
  lemma ExponentParse(w: string, e: string, n: int, el: nat)
    requires w != [] && AllDigits(w) && e != [] && !IsDigit(e[0]) && e[0] != '.'
    requires ExponentPrefix(e) == (n, el)
    ensures (w + e)[0] == w[0] && IsDigit(w[0])
    ensures NumeralPrefix(w + e) == Some((Numeral(false, w, [], n), |w| + el))
  {
    PlainNumeral(w, e, n, el);
    SignedNumeral("", false, w + e);
    assert "" + (w + e) == w + e;
  }

  /** Digits followed by text that is neither a digit nor a point: the numeral is the digits, with whatever exponent the text starts with. */
  lemma PlainNumeral(w: string, rest: string, n: int, el: nat)
    requires w != [] && AllDigits(w) && rest != [] && !IsDigit(rest[0]) && rest[0] != '.'
    requires ExponentPrefix(rest) == (n, el)
    ensures UnsignedNumeral(false, w + rest, 0) == Some((Numeral(false, w, [], n), |w| + el))
  {
    MantissaPlain(w, rest);
    UnsignedNumeralOf(w + rest, w, [], |w|, n, el, false, 0);
  }

  lemma ExponentOfNat(n: nat)
    ensures ExponentPrefix("e" + NatToString(n)) == (n, 1 + |NatToString(n)|)
  {
    DigitsOfNat(n);
    ExponentDigits(NatToString(n));
  }

  lemma ExponentDigits(d: string)
    requires d != [] && AllDigits(d)
    ensures ExponentPrefix("e" + d) == (DigitsValue(d) as int, 1 + |d|)
  {
    assert ("e" + d)[1..] == d && IsDigit(d[0]);
    LeadingDigitsOfDigits(d);
  }

  lemma TruncatedScales(w: string, n: nat)
    requires AllDigits(w)
    ensures Truncated(Numeral(false, w, [], n)) == DigitsValue(w) * Pow10(n)
  {
    assert w + [] == w;
  }

  /** Digits followed by other text are not numeric, though `(int)` still reads the digits. */
  lemma TrailingText(w: string, rest: string)
    requires w != [] && AllDigits(w) && rest != []
    requires !IsDigit(rest[0]) && !IsSpace(rest[0]) && rest[0] != '.' && rest[0] != 'e' && rest[0] != 'E'
    ensures !IsNumericText(w + rest) && IntCastString(w + rest) == DigitsValue(w)
  {
    DanglingText(w, rest);
    TruncatedDigits(w, false);
  }

  /** Digits followed by an `e` with no digits after it: the `e` is not an exponent. */
  lemma DanglingExponent(w: string)
    requires w != [] && AllDigits(w)
    ensures !IsNumericText(w + "e") && IntCastString(w + "e") == DigitsValue(w)
  {
    DanglingText(w, "e");
    TruncatedDigits(w, false);
  }

  lemma DanglingText(w: string, rest: string)
    requires w != [] && AllDigits(w) && rest != [] && !IsDigit(rest[0]) && !IsSpace(rest[0]) && rest[0] != '.'
    requires ExponentPrefix(rest) == (0, 0)
    ensures !IsNumericText(w + rest) && IntCastString(w + rest) == Truncated(Numeral(false, w, [], 0))
  {
    ExponentParse(w, rest, 0, 0);
    ReadWhole(w + rest, Numeral(false, w, [], 0), |w|);
    assert (w + rest)[|w|] == rest[0];
  }

  /** A lone point is no numeral at all. */
  lemma LonePoint()
    ensures !IsNumericText(".") && IntCastString(".") == 0
  {
    LeadingDigitsStop("", ".");
    assert "."[0..] == "." && "."[1..] == [];
    assert MantissaPrefix(".") == ("", "", 1);
    assert SkipSpace(".") == ".";
  }

  /** A string whose white space is followed by a numeral casts to that numeral, and is numeric exactly when only white space follows it. */
  lemma ReadNumeral(lead: string, x: string, n: Numeral, len: nat)
    requires AllSpace(lead) && x != [] && !IsSpace(x[0])
    requires NumeralPrefix(x) == Some((n, len))
    ensures IntCastString(lead + x) == Truncated(n)
    ensures IsNumericText(lead + x) <==> forall i :: len <= i < |x| ==> IsSpace(x[i])
  {
    SkipSpaceOver(lead, x);
  }

  /** A string that is one numeral and nothing else is numeric and casts to it. */
  lemma ReadAll(x: string, n: Numeral)
    requires x != [] && !IsSpace(x[0])
    requires NumeralPrefix(x) == Some((n, |x|))
    ensures IsNumericText(x) && IntCastString(x) == Truncated(n)
  {
    ReadWhole(x, n, |x|);
  }

  /** `ReadNumeral` for a string that starts with its numeral. */
  lemma ReadWhole(x: string, n: Numeral, len: nat)
    requires x != [] && !IsSpace(x[0])
    requires NumeralPrefix(x) == Some((n, len))
    ensures IntCastString(x) == Truncated(n)
    ensures IsNumericText(x) <==> forall i :: len <= i < |x| ==> IsSpace(x[i])
  {
    SkipSpaceOver("", x);
    assert "" + x == x;
  }

  /** The numeral after a sign is made of the mantissa and the exponent that follow each other. */
  lemma UnsignedNumeralOf(u: string, w: string, f: string, len: nat, e: int, el: nat, negative: bool, sign: nat)
    requires MantissaPrefix(u) == (w, f, len) && (w != [] || f != []) && len <= |u|
    requires ExponentPrefix(u[len..]) == (e, el)
    ensures UnsignedNumeral(negative, u, sign) == Some((Numeral(negative, w, f, e), sign + len + el))
  {
  }

  /** The numeral at the head of a string is read after its sign. */
  lemma SignedNumeral(sign: string, negative: bool, u: string)
    requires sign == if negative then "-" else ""
    requires u != [] && u[0] != '-' && u[0] != '+'
    ensures (sign + u)[0] == if negative then '-' else u[0]
    ensures NumeralPrefix(sign + u) == UnsignedNumeral(negative, u, |sign|)
  {
    if negative {
      assert (sign + u)[1..] == u;
    } else {
      assert sign + u == u;
    }
  }

  /** Rounding toward zero: the fraction digits of a numeral without exponent are dropped whatever they are. */
  lemma TruncatedDropsFraction(negative: bool, w: string, f: string)
    requires AllDigits(w) && AllDigits(f)
    ensures Truncated(Numeral(negative, w, f, 0)) == if negative then -(DigitsValue(w) as int) else DigitsValue(w) as int
  {
    if f == [] {
      TruncatedDigits(w, negative);
    } else {
      DigitsDropFraction(w, f);
    }
  }

  /** Dividing by ten to the number of trailing digits leaves the leading ones. */
  lemma DigitsDropFraction(w: string, f: string)
    ensures DigitsValue(w + f) / Pow10(|f|) == DigitsValue(w)
  {
    DigitsValueAppend(w, f);
    DigitsValueBelow(f);
    DivOfSum(DigitsValue(w), Pow10(|f|), DigitsValue(f));
  }

  lemma DivOfSum(q: nat, p: nat, r: nat)
    requires 0 <= r < p
    ensures (q * p + r) / p == q
  {
    var k := (q * p + r) / p;
    var m := (q * p + r) % p;
    assert q * p + r == k * p + m && 0 <= m < p;
    if k < q {
      assert (k + 1) * p == k * p + p;
      MulMonotone(k + 1, q, p);
    } else if k > q {
      assert (q + 1) * p == q * p + p;
      MulMonotone(q + 1, k, p);
    }
  }

  lemma MulMonotone(a: int, b: int, p: nat)
    requires a <= b
    ensures a * p <= b * p
  {
    assert b * p - a * p == (b - a) * p;
  }

  /** Reading digits after others shifts the first ones up by as many places. */
  lemma {:induction false} DigitsValueAppend(a: string, b: string)
    ensures DigitsValue(a + b) == DigitsValue(a) * Pow10(|b|) + DigitsValue(b)
  {
    if b == [] {
      assert a + b == a;
    } else {
      var b', c := b[..|b| - 1], b[|b| - 1];
      assert b == b' + [c] && a + b == (a + b') + [c];
      DigitsValueAppend(a, b');
      DigitsValueAppendStep(a, b', c);
    }
  }

  /** One more digit at the end keeps `DigitsValueAppend`'s equation. */
  lemma DigitsValueAppendStep(a: string, b: string, c: char)
    requires DigitsValue(a + b) == DigitsValue(a) * Pow10(|b|) + DigitsValue(b)
    ensures DigitsValue((a + b) + [c]) == DigitsValue(a) * Pow10(|b + [c]|) + DigitsValue(b + [c])
  {
    DigitsValueSnoc(a + b, c);
    DigitsValueSnoc(b, c);
    assert Pow10(|b + [c]|) == 10 * Pow10(|b|);
    ShiftDigits(DigitsValue(a), Pow10(|b|), DigitsValue(b), DigitValue(c));
  }

  lemma ShiftDigits(x: int, y: int, z: int, k: int)
    ensures (x * y + z) * 10 + k == x * (10 * y) + (z * 10 + k)
  {
  }

  lemma DigitsValueSnoc(s: string, c: char)
    ensures DigitsValue(s + [c]) == DigitsValue(s) * 10 + DigitValue(c)
  {
    assert (s + [c])[..|s|] == s;
  }

  /** `n` digits are worth less than ten to the n. */
  lemma {:induction false} DigitsValueBelow(b: string)
    ensures DigitsValue(b) < Pow10(|b|)
  {
    if b != [] {
      DigitsValueBelow(b[..|b| - 1]);
    }
  }

  /** Digits, then a fraction after a point, then text that is not a digit: the mantissa spans the point and the fraction. */
  lemma MantissaPoint(w: string, f: string, rest: string)
    requires AllDigits(w) && AllDigits(f) && (rest == [] || !IsDigit(rest[0]))
    ensures MantissaPrefix(w + "." + f + rest) == (w, f, |w| + 1 + |f|)
  {
    var x := "." + f + rest;
    assert w + "." + f + rest == w + x;
    LeadingDigitsStop(w, x);
    assert (w + x)[|w|..] == x;
    assert x[1..] == f + rest;
    LeadingDigitsStop(f, rest);
  }

  /** Digits, then text that is neither a digit nor a point: the mantissa is the digits alone. */
  lemma MantissaPlain(w: string, rest: string)
    requires AllDigits(w) && (rest == [] || (!IsDigit(rest[0]) && rest[0] != '.'))
    ensures MantissaPrefix(w + rest) == (w, [], |w|) && (w + rest)[|w|..] == rest
  {
    LeadingDigitsStop(w, rest);
    assert (w + rest)[|w|..] == rest;
  }

  /** Leading white space is skipped up to the first other character. */
  lemma {:induction false} SkipSpaceOver(lead: string, x: string)
    requires AllSpace(lead) && (x == [] || !IsSpace(x[0]))
    ensures SkipSpace(lead + x) == x
  {
    if lead != [] {
      assert (lead + x)[1..] == lead[1..] + x;
      SkipSpaceOver(lead[1..], x);
    } else {
      assert lead + x == x;
    }
  }

  /** The digits at the head of a string stop at the first character that is not one. */
  lemma {:induction false} LeadingDigitsStop(w: string, rest: string)
    requires AllDigits(w) && (rest == [] || !IsDigit(rest[0]))
    ensures LeadingDigits(w + rest) == w
  {
    if w != [] {
      assert (w + rest)[1..] == w[1..] + rest;
      LeadingDigitsStop(w[1..], rest);
    }
  }

  /** Trimming twice is trimming once. */
  lemma TrimIdempotent(s: string)
    ensures Trim(Trim(s)) == Trim(s)
  {
    var t := Trim(s);
    assert t == [] || !IsTrimChar(t[0]) by {
      var l := TrimLeft(s);
      if t != [] {
        assert t[0] == l[0];
      }
    }
  }
}
