/**
 * The slice of JavaScript's runtime semantics that the handlers depend on:
 * JSON values as they arrive in request bodies, truthiness, property reads
 * (plain and optional-chained), object spread with one extra key,
 * `String.prototype.includes` and the decimal rendering of a positive integer.
 *
 * Numbers are integers here. A money amount is read as pence and a ticket
 * quantity as a count; JSON cannot carry NaN, so NaN exists only as the
 * failure of a parse.
 */
module Js {
  import opened Wrappers

  datatype Value =
    | Undefined
    | Null
    | Bool(b: bool)
    | Num(n: int)
    | Str(s: string)
    | Arr(items: seq<Value>)
    | Obj(fields: seq<(string, Value)>)

  /** `!!v`: false for undefined, null, false, 0 and the empty string. */
  predicate Truthy(v: Value)
  {
    match v
    case Undefined => false
    case Null => false
    case Bool(b) => b
    case Num(n) => n != 0
    case Str(s) => s != ""
    case Arr(_) => true
    case Obj(_) => true
  }

  /** The keys an object literal holds. */
  function Keys(fields: seq<(string, Value)>): set<string>
  {
    if fields == [] then {} else {fields[0].0} + Keys(fields[1..])
  }

  /** `o[key]` on an object: the value of the first pair with that key, undefined when there is none. */
  function Lookup(fields: seq<(string, Value)>, key: string): (r: Value)
    ensures key !in Keys(fields) ==> r == Undefined
  {
    if fields == [] then Undefined
    else if fields[0].0 == key then fields[0].1
    else Lookup(fields[1..], key)
  }

  /** A key the object holds is read from one of its own pairs. */
  lemma {:induction false} LookupFindsPair(fields: seq<(string, Value)>, key: string)
    requires key in Keys(fields)
    ensures (key, Lookup(fields, key)) in fields
  {
    if fields[0].0 != key {
      LookupFindsPair(fields[1..], key);
    }
  }

  /** The first pair with the key decides: earlier pairs with other keys are skipped. */
  lemma {:induction false} LookupFirstMatch(fields: seq<(string, Value)>, key: string, i: nat)
    requires i < |fields| && fields[i].0 == key
    requires forall j :: 0 <= j < i ==> fields[j].0 != key
    ensures Lookup(fields, key) == fields[i].1
  {
    if i > 0 {
      LookupFirstMatch(fields[1..], key, i - 1);
    }
  }

  /**
   * `v.key`. Reading a property of null or undefined throws a TypeError
   * (None); every other non-object has no such own property here (Some(Undefined)).
   */
  function Get(v: Value, key: string): (r: Option<Value>)
    ensures r.None? <==> v.Null? || v.Undefined?
    ensures v.Obj? ==> r == Some(Lookup(v.fields, key))
  {
    match v
    case Null => None
    case Undefined => None
    case Obj(fields) => Some(Lookup(fields, key))
    case _ => Some(Undefined)
  }

  /** `v?.key`: like `v.key`, except that null and undefined short-circuit to undefined. */
  function OptGet(v: Value, key: string): (r: Value)
    ensures v.Null? || v.Undefined? ==> r == Undefined
    ensures !(v.Null? || v.Undefined?) ==> Some(r) == Get(v, key)
  {
    match Get(v, key)
    case None => Undefined
    case Some(x) => x
  }

  /**
   * The fields of `{...o, [key]: v}`: every pair of `o` in order, with the value
   * at `key` replaced in place when `o` has it, and the pair appended otherwise.
   */
  function With(fields: seq<(string, Value)>, key: string, v: Value): (r: seq<(string, Value)>)
    ensures Keys(r) == Keys(fields) + {key}
    ensures Lookup(r, key) == v
    ensures forall k :: k != key ==> Lookup(r, k) == Lookup(fields, k)
    ensures key !in Keys(fields) ==> r == fields + [(key, v)]
    ensures key in Keys(fields) ==> |r| == |fields|
    ensures key in Keys(fields) ==>
      forall i :: 0 <= i < |fields| ==> r[i].0 == fields[i].0 && (r[i] == fields[i] || r[i] == (key, v))
  {
    if fields == [] then [(key, v)]
    else if fields[0].0 == key then
      assert ([(key, v)] + fields[1..])[1..] == fields[1..];
      [(key, v)] + fields[1..]
    else
      var rest := With(fields[1..], key, v);
      assert ([fields[0]] + rest)[1..] == rest;
      [fields[0]] + rest
  }

  /** `sub` occurs in `s` starting at index `i`. */
  predicate OccursAt(s: string, sub: string, i: nat)
  {
    i + |sub| <= |s| && s[i..i + |sub|] == sub
  }

  /** `s.includes(sub)`. */
  predicate Includes(s: string, sub: string)
  {
    exists i: nat :: i <= |s| && OccursAt(s, sub, i)
  }

  predicate IsDigit(c: char)
  {
    '0' <= c <= '9'
  }

  function DigitChar(d: nat): (c: char)
    requires d < 10
    ensures IsDigit(c)
  {
    ['0', '1', '2', '3', '4', '5', '6', '7', '8', '9'][d]
  }

  /** The decimal text `${n}` of a non-negative integer: digits only, no leading zero. */
  function DecimalText(n: nat): (r: string)
    ensures |r| > 0
    ensures forall i :: 0 <= i < |r| ==> IsDigit(r[i])
    ensures n > 0 ==> r[0] != '0'
    ensures n < 10 ==> |r| == 1
  {
    if n < 10 then [DigitChar(n)]
    else DecimalText(n / 10) + [DigitChar(n % 10)]
  }

  function DigitValue(c: char): (d: nat)
    requires IsDigit(c)
    ensures d < 10
  {
    c as int - '0' as int
  }

  /** Reads a string of digits as a decimal number. */
  function ReadDecimal(s: string): nat
    requires forall i :: 0 <= i < |s| ==> IsDigit(s[i])
  {
    if s == [] then 0 else 10 * ReadDecimal(s[..|s| - 1]) + DigitValue(s[|s| - 1])
  }

  /** The rendered number reads back as the number: `${n}` loses nothing. */
  lemma {:induction false} DecimalTextRoundTrip(n: nat)
    ensures ReadDecimal(DecimalText(n)) == n
  {
    var r := DecimalText(n);
    if n < 10 {
      assert r[..|r| - 1] == [];
    } else {
      DecimalTextRoundTrip(n / 10);
      assert r[..|r| - 1] == DecimalText(n / 10);
    }
  }

  /** Distinct numbers render differently. */
  lemma DecimalTextInjective(m: nat, n: nat)
    requires DecimalText(m) == DecimalText(n)
    ensures m == n
  {
    DecimalTextRoundTrip(m);
    DecimalTextRoundTrip(n);
  }
}
