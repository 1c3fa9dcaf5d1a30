/** JavaScript values as the portal's components see them: the shapes that
    records, answer maps and untyped props take, their truthiness, and the
    numbers that `Math.max` and `Number(...)` produce. Numbers inside records
    are integers; NaN and -Infinity only arise as results of conversions. */
module Js {
  import Text

  datatype Option<+T> = None | Some(value: T) {
    function GetOr(default: T): T {
      match this
      case Some(v) => v
      case None => default
    }
  }

  /** A JavaScript value. `Obj` keys are property names. */
  datatype Json =
    | Undefined
    | Null
    | Bool(b: bool)
    | Num(n: int)
    | Str(s: string)
    | Arr(items: seq<Json>)
    | Obj(fields: map<string, Json>)
  {
    /** Property access is a TypeError on null and undefined. */
    predicate Readable() {
      !Undefined? && !Null?
    }
  }

  /** JavaScript truthiness (`Boolean(v)`). */
  predicate Truthy(v: Json) {
    match v
    case Undefined => false
    case Null => false
    case Bool(b) => b
    case Num(n) => n != 0
    case Str(s) => s != ""
    case Arr(_) => true
    case Obj(_) => true
  }

  /** `a || b` */
  function Or(a: Json, b: Json): (r: Json)
    ensures Truthy(a) ==> r == a
    ensures !Truthy(a) ==> r == b
  {
    if Truthy(a) then a else b
  }

  /** `v[key]` on a readable value: an own property (an object's field, an
      array's or string's index) or undefined. The `length` property and
      inherited properties are not modelled. */
  function Get(v: Json, key: string): (r: Json)
    requires v.Readable()
    ensures v.Obj? && key in v.fields ==> r == v.fields[key]
    ensures v.Obj? && key !in v.fields ==> r == Undefined
    ensures key in SpreadFields(v) ==> r == SpreadFields(v)[key]
    ensures key !in SpreadFields(v) ==> r == Undefined
  {
    if key in SpreadFields(v) then SpreadFields(v)[key] else Undefined
  }

  /** The own enumerable properties that a spread `{...v}` or `Object.keys(v)`
      sees: the fields of an object, the index keys "0", "1", … of an array or
      a string (a string's values are its one-character strings); null,
      undefined, booleans and numbers contribute none. */
  function SpreadFields(v: Json): (m: map<string, Json>)
    ensures v.Obj? ==> m == v.fields
    ensures v.Arr? ==> m == IndexFields(v.items)
    ensures v.Str? ==> m == IndexFields(Chars(v.s))
    ensures !v.Obj? && !v.Arr? && !v.Str? ==> m == map[]
  {
    match v
    case Obj(fields) => fields
    case Arr(items) => IndexFields(items)
    case Str(s) => IndexFields(Chars(s))
    case _ => map[]
  }

  /** An object value found under a spread key is part of the spread value,
      so recursion into it terminates. */
  lemma SpreadObjectsSmaller(v: Json)
    ensures forall k :: k in SpreadFields(v) && SpreadFields(v)[k].Obj? ==> SpreadFields(v)[k] < v
  {
  }

  /** The characters of a string as one-character strings. */
  function Chars(s: string): (r: seq<Json>)
    ensures |r| == |s|
    ensures forall i :: 0 <= i < |s| ==> r[i] == Str([s[i]])
  {
    seq(|s|, i requires 0 <= i < |s| => Str([s[i]]))
  }

  /** The index properties of an array-like value: key `String(i)` holds the
      i-th element (IndexFieldsKeys). */
  function IndexFields(items: seq<Json>): (m: map<string, Json>)
    ensures forall k :: k in m ==> m[k] in items
  {
    if items == [] then map[]
    else
      var n := |items| - 1;
      IndexFields(items[..n])[Text.IntToString(n) := items[n]]
  }

  /** Each index i is a key `String(i)` holding the i-th element. */
  lemma {:induction false} IndexFieldsKeys(items: seq<Json>)
    ensures forall i :: 0 <= i < |items| ==>
      Text.IntToString(i) in IndexFields(items) && IndexFields(items)[Text.IntToString(i)] == items[i]
  {
    if items != [] {
      var n := |items| - 1;
      var m := IndexFields(items[..n]);
      IndexFieldsKeys(items[..n]);
      forall i | 0 <= i < n
        ensures Text.IntToString(i) in m && m[Text.IntToString(i)] == items[i]
      {
        assert items[..n][i] == items[i];
      }
      IndexFieldsStep(items, m);
      assert IndexFields(items) == m[Text.IntToString(n) := items[n]];
    }
  }

  /** Every key is some index's `String(i)`: an array or string has no other
      own enumerable keys. */
  lemma {:induction false} IndexFieldsOnlyIndices(items: seq<Json>, k: string)
    requires k in IndexFields(items)
    ensures exists i :: 0 <= i < |items| && k == Text.IntToString(i)
  {
    var n := |items| - 1;
    if k != Text.IntToString(n) {
      IndexFieldsOnlyIndices(items[..n], k);
      var i :| 0 <= i < n && k == Text.IntToString(i);
    }
  }

  /** Adding the last element under its own key keeps the earlier ones. */
  lemma IndexFieldsStep(items: seq<Json>, m: map<string, Json>)
    requires items != []
    requires forall i :: 0 <= i < |items| - 1 ==> Text.IntToString(i) in m && m[Text.IntToString(i)] == items[i]
    ensures forall i :: 0 <= i < |items| ==>
      Text.IntToString(i) in m[Text.IntToString(|items| - 1) := items[|items| - 1]] &&
      m[Text.IntToString(|items| - 1) := items[|items| - 1]][Text.IntToString(i)] == items[i]
  {
    var n := |items| - 1;
    forall i | 0 <= i < n
      ensures Text.IntToString(i) != Text.IntToString(n)
    {
      IndexKeysDistinct(i, n);
    }
  }

  /** Distinct indices have distinct keys. */
  lemma IndexKeysDistinct(i: nat, j: nat)
    requires i != j
    ensures Text.IntToString(i) != Text.IntToString(j)
  {
    IntToStringNumber(i);
    IntToStringNumber(j);
  }

  /** `Object.values(v).some(x => x === true)`; `None` is the TypeError that
      `Object.values` throws on null or undefined. */
  function SomeValueTrue(v: Json): (r: Option<bool>)
    ensures r.None? <==> !v.Readable()
    ensures v.Obj? ==> r == Some(exists k :: k in v.fields && v.fields[k] == Bool(true))
    ensures v.Arr? ==> r == Some(exists i :: 0 <= i < |v.items| && v.items[i] == Bool(true))
    ensures v.Bool? || v.Num? || v.Str? ==> r == Some(false)
  {
    match v
    case Undefined => None
    case Null => None
    case Obj(m) => Some(exists k :: k in m && m[k] == Bool(true))
    case Arr(items) => Some(exists i :: 0 <= i < |items| && items[i] == Bool(true))
    case _ => Some(false)
  }

  /** A JavaScript number as produced by `Number(...)` and `Math.max`:
      negative infinity, NaN, or an integer. */
  datatype Number = NegInf | NaN | Val(n: int)

  /** A non-empty run of decimal digits. */
  predicate IsDecimal(s: string) {
    s != [] && forall i :: 0 <= i < |s| ==> '0' <= s[i] <= '9'
  }

  /** `Number(v)` for the values the portal stores. Strings convert when they
      are an optionally signed run of decimal digits; any other non-empty
      string, and an array with elements, converts to NaN here (see the README). */
  function ToNumber(v: Json): (r: Number)
    ensures r != NegInf
    ensures v.Num? ==> r == Val(v.n)
    ensures v.Undefined? || v.Obj? ==> r == NaN
    ensures v.Null? || v == Str("") || v == Arr([]) || v == Bool(false) ==> r == Val(0)
  {
    match v
    case Undefined => NaN
    case Null => Val(0)
    case Bool(b) => if b then Val(1) else Val(0)
    case Num(n) => Val(n)
    case Str(s) =>
      if s == "" then Val(0)
      else if IsDecimal(s) then Val(Text.ParseBase(s, 10))
      else if s[0] == '-' && IsDecimal(s[1..]) then Val(0 - Text.ParseBase(s[1..], 10) as int)
      else NaN
    case Arr(items) => if items == [] then Val(0) else NaN
    case Obj(_) => NaN
  }

  /** `Math.max(...xs)`: NaN if any argument is NaN, -Infinity for no argument. */
  function Max(xs: seq<Number>): (r: Number)
    ensures r == NaN <==> NaN in xs
    ensures xs == [] ==> r == NegInf
    ensures r.Val? ==> Val(r.n) in xs && forall i :: 0 <= i < |xs| ==> xs[i].NegInf? || (xs[i].Val? && xs[i].n <= r.n)
    ensures r == NegInf ==> forall i :: 0 <= i < |xs| ==> xs[i] == NegInf
  {
    if xs == [] then NegInf
    else
      var rest := Max(xs[1..]);
      assert xs == [xs[0]] + xs[1..];
      match (xs[0], rest)
      case (NaN, _) => NaN
      case (_, NaN) => NaN
      case (NegInf, _) => rest
      case (Val(a), NegInf) => Val(a)
      case (Val(a), Val(b)) => if a >= b then Val(a) else Val(b)
  }

  /** `x >= k` for a JavaScript number and an integer constant. */
  predicate AtLeast(x: Number, k: int) {
    x.Val? && x.n >= k
  }

  /** `String(n)` converts back with `Number` to n. */
  lemma IntToStringNumber(n: int)
    ensures ToNumber(Str(Text.IntToString(n))) == Val(n)
  {
    var digits := Text.NatToString(if n < 0 then -n else n);
    assert forall k :: 0 <= k < |digits| ==> digits[k] in Text.DIGITS[..10];
    assert IsDecimal(digits);
    if n < 0 {
      var s := Text.IntToString(n);
      assert s[1..] == digits;
      assert !IsDecimal(s) by { assert s[0] == '-'; }
    }
  }
}
