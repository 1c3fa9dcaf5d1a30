/** The shared helpers of src/utils/index.js: class-name joining, numeric
    clamping and percentages, and the recursive merge of plain objects. */
module Utils {
  import opened Js
  import opened Text
  import Seqs

  /** `String(v)`. Array elements that are null or undefined print as "". */
  function Stringify(v: Json): string
    decreases v
  {
    match v
    case Undefined => "undefined"
    case Null => "null"
    case Bool(b) => if b then "true" else "false"
    case Num(n) => IntToString(n)
    case Str(s) => s
    case Arr(items) =>
      Join(seq(|items|, i requires 0 <= i < |items| =>
             if items[i].Readable() then Stringify(items[i]) else ""), ",")
    case Obj(_) => "[object Object]"
  }

  function StringifyAll(vs: seq<Json>): (r: seq<string>)
    ensures |r| == |vs| && forall i :: 0 <= i < |vs| ==> r[i] == Stringify(vs[i])
  {
    seq(|vs|, i requires 0 <= i < |vs| => Stringify(vs[i]))
  }

  /** cn: the truthy arguments, printed and joined by single spaces. */
  function Cn(classes: seq<Json>): string {
    Join(StringifyAll(Seqs.Filter(classes, Truthy)), " ")
  }

  /** A falsy argument anywhere contributes nothing. */
  lemma CnDropsFalsy(before: seq<Json>, x: Json, after: seq<Json>)
    requires !Truthy(x)
    ensures Cn(before + [x] + after) == Cn(before + after)
  {
    Seqs.FilterAppend(before + [x], after, Truthy);
    Seqs.FilterAppend(before, [x], Truthy);
    Seqs.FilterAppend(before, after, Truthy);
    assert Seqs.Filter([x], Truthy) == [];
    assert Seqs.Filter(before, Truthy) + [] == Seqs.Filter(before, Truthy);
  }

  /** Two non-empty class strings come out with one space between them. */
  lemma CnJoinsWithSpace(a: string, b: string)
    requires a != "" && b != ""
    ensures Cn([Str(a), Str(b)]) == a + " " + b
  {
    var xs := [Str(a), Str(b)];
    assert xs[1..] == [Str(b)];
    assert Seqs.Filter([Str(b)], Truthy) == [Str(b)];
    assert Seqs.Filter(xs, Truthy) == xs;
    assert StringifyAll(xs) == [a, b];
    assert [a, b][1..] == [b];
    assert Join([a, b], " ") == a + " " + Join([b], " ");
  }

  /** The default range of clamp and pct. */
  const DEFAULT_MIN: int := 0
  const DEFAULT_MAX: int := 100

  /** `Number(value) || 0`: NaN and 0 both become 0. */
  function NumberOrZero(value: Json): int {
    match ToNumber(value)
    case Val(n) => n
    case _ => 0
  }

  function MathMin(a: int, b: int): int { if a <= b then a else b }
  function MathMax(a: int, b: int): int { if a >= b then a else b }

  /** clamp(value, min, max) = Math.max(min, Math.min(max, Number(value) || 0)). */
  function Clamp(value: Json, min: int, max: int): (r: int)
    ensures min <= max ==> min <= r <= max
    ensures min > max ==> r == min
    ensures min <= NumberOrZero(value) <= max ==> r == NumberOrZero(value)
    ensures ToNumber(value) == NaN ==> r == MathMax(min, MathMin(max, 0))
  {
    MathMax(min, MathMin(max, NumberOrZero(value)))
  }

  /** Clamping a clamped value changes nothing. */
  lemma ClampIdempotent(value: Json, min: int, max: int)
    requires min <= max
    ensures Clamp(Num(Clamp(value, min, max)), min, max) == Clamp(value, min, max)
  {
  }

  /** pct: where the clamped value sits in [min, max], in percent; `None`
      is the NaN of 0/0 when min == max. With min > max the clamp gives min
      and the quotient is (-)0. */
  function Pct(value: Json, min: int, max: int): (r: Option<real>)
    ensures min < max ==> r.Some? && 0.0 <= r.value <= 100.0
    ensures min == max ==> r == None
    ensures min > max ==> r == Some(0.0)
  {
    var c := Clamp(value, min, max);
    if max - min == 0 then None
    else
      var q := (c - min) as real / (max - min) as real;
      if min < max then
        assert 0.0 <= q <= 1.0 by {
          assert (c - min) as real <= (max - min) as real;
        }
        Some(q * 100.0)
      else
        Some(q * 100.0)
  }

  /** The ends of the range are 0% and 100%. */
  lemma PctEnds(min: int, max: int)
    requires min < max
    ensures Pct(Num(min), min, max) == Some(0.0)
    ensures Pct(Num(max), min, max) == Some(100.0)
  {
    var d := (max - min) as real;
    assert Clamp(Num(min), min, max) == min;
    assert Clamp(Num(max), min, max) == max;
    QuotientEnds(d);
  }

  lemma QuotientEnds(d: real)
    requires d > 0.0
    ensures 0.0 / d == 0.0 && d / d == 1.0
  {
  }

  /** `source[k] && typeof source[k] === "object" && !Array.isArray(source[k])`. */
  predicate IsPlainObject(v: Json) {
    v.Obj?
  }

  /** deepMerge(target, source): the target's own fields, then for each key
      of `source || {}` either the recursive merge (plain-object values) or
      the source value. Keys come from a spread and `Object.keys`, so arrays
      and strings contribute their index keys. */
  function DeepMerge(target: Json, source: Json): (r: map<string, Json>)
    decreases source, 2
    ensures r.Keys == SpreadFields(target).Keys + SpreadFields(source).Keys
    ensures forall k :: k in SpreadFields(target) && k !in SpreadFields(source) ==>
      r[k] == SpreadFields(target)[k]
    ensures forall k :: k in SpreadFields(source) && !IsPlainObject(SpreadFields(source)[k]) ==>
      r[k] == SpreadFields(source)[k]
    ensures forall k :: k in SpreadFields(source) && IsPlainObject(SpreadFields(source)[k]) ==>
      r[k] == Obj(DeepMerge(Or(Lookup(SpreadFields(target), k), Obj(map[])), SpreadFields(source)[k]))
  {
    SpreadObjectsSmaller(source);
    MergedMaps(SpreadFields(target), SpreadFields(source), source)
  }

  /** `out[k]`, undefined when absent. */
  function Lookup(m: map<string, Json>, k: string): Json {
    if k in m then m[k] else Undefined
  }

  /** Every object value of `src` is part of `source`. */
  ghost predicate ValuesBelow(src: map<string, Json>, source: Json) {
    forall k :: k in src && src[k].Obj? ==> src[k] < source
  }

  /** The copy `out` of the target with every source key's entry written
      over it; `source` is the value whose keys `src` holds. */
  function MergedMaps(out: map<string, Json>, src: map<string, Json>, ghost source: Json): (r: map<string, Json>)
    requires ValuesBelow(src, source)
    decreases source, 1
    ensures r.Keys == out.Keys + src.Keys
    ensures forall k :: k in out && k !in src ==> r[k] == out[k]
    ensures forall k :: k in src ==> r[k] == MergeEntry(out, src[k], k, source)
  {
    out + map k | k in src :: MergeEntry(out, src[k], k, source)
  }

  /** The value one source key with value `v` leaves in `out`. */
  function MergeEntry(out: map<string, Json>, v: Json, k: string, ghost source: Json): Json
    requires IsPlainObject(v) ==> v < source
    decreases source, 0
  {
    if IsPlainObject(v) then Obj(DeepMerge(Or(Lookup(out, k), Obj(map[])), v)) else v
  }

  /** The entries of `e` whose keys are in `keys`. */
  function Restrict(e: map<string, Json>, keys: set<string>): (r: map<string, Json>)
    ensures r.Keys == e.Keys * keys
    ensures forall k :: k in r ==> r[k] == e[k]
  {
    map k | k in e && k in keys :: e[k]
  }

  /** deepMerge as the source writes it: copy the target, then visit the
      keys of `source || {}` one by one. */
  method DeepMergeLoop(target: Json, source: Json) returns (out: map<string, Json>)
    ensures out == DeepMerge(target, source)
    decreases source, 2
  {
    SpreadObjectsSmaller(source);
    out := MergeLoop(SpreadFields(target), SpreadFields(source), source);
  }

  /** The for-of loop over the source keys. The visiting order does not
      matter. */
  method MergeLoop(tgt: map<string, Json>, src: map<string, Json>, ghost source: Json) returns (out: map<string, Json>)
    requires ValuesBelow(src, source)
    ensures out == MergedMaps(tgt, src, source)
    decreases source, 1
  {
    ghost var entries := map k | k in src :: MergeEntry(tgt, src[k], k, source);
    out := tgt;
    var keys := src.Keys;
    ghost var done: set<string> := {};
    RestrictNone(entries);
    while keys != {}
      invariant keys + done == src.Keys && keys !! done
      invariant out == tgt + Restrict(entries, done)
      decreases keys
    {
      var k :| k in keys;
      LookupUnvisited(tgt, entries, done, k);
      var entry := MergeKey(tgt, out, src[k], k, source);
      RestrictStep(tgt, entries, done, k);
      out := out[k := entry];
      keys := keys - {k};
      done := done + {k};
    }
    RestrictAll(entries, done);
  }

  /** One iteration: `out[k] = deepMerge(out[k] || {}, source[k])` for a
      plain-object value, `out[k] = source[k]` otherwise. */
  method MergeKey(tgt: map<string, Json>, out: map<string, Json>, v: Json, k: string, ghost source: Json) returns (entry: Json)
    requires IsPlainObject(v) ==> v < source
    requires Lookup(out, k) == Lookup(tgt, k)
    ensures entry == MergeEntry(tgt, v, k, source)
    decreases source, 0
  {
    if IsPlainObject(v) {
      var merged := DeepMergeLoop(Or(Lookup(out, k), Obj(map[])), v);
      entry := Obj(merged);
    } else {
      entry := v;
    }
  }

  /** A key not yet visited still reads as the target's value. */
  lemma LookupUnvisited(base: map<string, Json>, e: map<string, Json>, done: set<string>, k: string)
    requires k !in done
    ensures Lookup(base + Restrict(e, done), k) == Lookup(base, k)
  {
  }

  /** Nothing visited: the copy of the target. */
  lemma RestrictNone(e: map<string, Json>)
    ensures Restrict(e, {}) == map[]
  {
  }

  /** Visiting one more key writes its entry over the copy. */
  lemma RestrictStep(base: map<string, Json>, e: map<string, Json>, done: set<string>, k: string)
    requires k in e
    ensures (base + Restrict(e, done))[k := e[k]] == base + Restrict(e, done + {k})
  {
  }

  /** Once every key is visited, all entries are written. */
  lemma RestrictAll(e: map<string, Json>, done: set<string>)
    requires done == e.Keys
    ensures Restrict(e, done) == e
  {
  }

  /** A source without own enumerable keys (null, undefined, a boolean, a
      number, or an empty object, array or string) gives a copy of the target. */
  lemma MergeEmptySource(target: Json, source: Json)
    requires source.Undefined? || source.Null? || source.Bool? || source.Num? ||
             source == Obj(map[]) || source == Arr([]) || source == Str("")
    ensures DeepMerge(target, source) == SpreadFields(target)
  {
  }

  /** An array target spreads its index keys: every index the source does not
      name keeps its element. */
  lemma MergeKeepsArrayIndices(items: seq<Json>, source: Json)
    ensures forall i :: 0 <= i < |items| && Text.IntToString(i) !in SpreadFields(source) ==>
      Text.IntToString(i) in DeepMerge(Arr(items), source) &&
      DeepMerge(Arr(items), source)[Text.IntToString(i)] == items[i]
  {
    IndexFieldsKeys(items);
  }

  /** An array source without object elements merged into `{}` gives its
      index-keyed copy: `deepMerge({}, ["x"])` is `{"0": "x"}`. */
  lemma MergeArrayIntoEmpty(items: seq<Json>)
    requires forall i :: 0 <= i < |items| ==> !items[i].Obj?
    ensures DeepMerge(Obj(map[]), Arr(items)) == IndexFields(items)
  {
    var src := IndexFields(items);
    SpreadObjectsSmaller(Arr(items));
    assert forall k :: k in src ==> !src[k].Obj?;
    MergedPlainValues(src, Arr(items));
  }

  /** Without object values, merging into `{}` copies the source keys. */
  lemma MergedPlainValues(src: map<string, Json>, source: Json)
    requires ValuesBelow(src, source)
    requires forall k :: k in src ==> !src[k].Obj?
    ensures MergedMaps(map[], src, source) == src
  {
  }

  /** Merging an object into an empty object copies it. */
  lemma {:induction false} MergeIntoEmpty(source: Json)
    requires source.Obj?
    ensures DeepMerge(Obj(map[]), source) == source.fields
    decreases source
  {
    var r := DeepMerge(Obj(map[]), source);
    forall k | k in source.fields
      ensures r[k] == source.fields[k]
    {
      var v := source.fields[k];
      assert v < source;
      if IsPlainObject(v) {
        MergeIntoEmpty(v);
      }
    }
  }

  /** Merging an object into itself gives it back. */
  lemma {:induction false} MergeSelf(x: Json)
    requires x.Obj?
    ensures DeepMerge(x, x) == x.fields
    decreases x
  {
    var r := DeepMerge(x, x);
    forall k | k in x.fields
      ensures r[k] == x.fields[k]
    {
      var v := x.fields[k];
      assert v < x;
      if IsPlainObject(v) {
        MergeSelf(v);
      }
    }
  }
}
