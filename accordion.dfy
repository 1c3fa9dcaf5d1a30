/** The accordion of src/components/ui/accordion.jsx: which sections are
    open, in single mode (one value or null) or multiple mode (an array of
    values), held internally or supplied by the parent. */
module Accordion {
  import opened Js
  import Seqs

  /** The state before any toggle: in multiple mode `defaultValue` if it is
      an array, else []; in single mode `defaultValue ?? null`. */
  function InitialState(multiple: bool, defaultValue: Json): (r: Json)
    ensures multiple ==> r.Arr?
    ensures multiple && defaultValue.Arr? ==> r == defaultValue
    ensures !multiple && defaultValue.Readable() ==> r == defaultValue
    ensures !multiple && !defaultValue.Readable() ==> r == Null
  {
    if multiple then (if defaultValue.Arr? then defaultValue else Arr([]))
    else if defaultValue.Readable() then defaultValue
    else Null
  }

  /** Multiple mode: a copy of the current array (or []) with the first
      occurrence of `val` spliced out, or `val` pushed when absent. */
  function ToggleMultiple(current: Json, val: string): (r: seq<Json>)
    ensures var arr := if current.Arr? then current.items else [];
      if Str(val) in arr then
        var i := Seqs.FirstIndex(arr, Str(val));
        r == arr[..i] + arr[i + 1..]
      else r == arr + [Str(val)]
  {
    var arr := if current.Arr? then current.items else [];
    if Str(val) in arr then
      var idx := Seqs.FirstIndex(arr, Str(val));
      arr[..idx] + arr[idx + 1..]
    else arr + [Str(val)]
  }

  /** Single mode: null when `val` is the open one, otherwise `val`. */
  function ToggleSingle(current: Json, val: string): (r: Json)
    ensures current == Str(val) ==> r == Null
    ensures current != Str(val) ==> r == Str(val)
  {
    if current == Str(val) then Null else Str(val)
  }

  function NextValue(multiple: bool, current: Json, val: string): Json {
    if multiple then Arr(ToggleMultiple(current, val)) else ToggleSingle(current, val)
  }

  /** Whether the section with value `itemValue` is open. */
  predicate IsOpen(multiple: bool, current: Json, itemValue: string) {
    if multiple then current.Arr? && Str(itemValue) in current.items
    else current == Str(itemValue)
  }

  /** A multiple-mode toggle changes the count of `val` by one (down when
      present, up when absent) and no other value's count. */
  lemma ToggleChangesOnlyVal(current: Json, val: string)
    requires current.Arr?
    ensures forall x :: x != Str(val) ==>
      multiset(ToggleMultiple(current, val))[x] == multiset(current.items)[x]
    ensures Str(val) in current.items ==>
      multiset(ToggleMultiple(current, val))[Str(val)] == multiset(current.items)[Str(val)] - 1
    ensures Str(val) !in current.items ==>
      multiset(ToggleMultiple(current, val))[Str(val)] == 1
  {
    var arr := current.items;
    if Str(val) in arr {
      var i := Seqs.FirstIndex(arr, Str(val));
      assert arr == arr[..i] + [arr[i]] + arr[i + 1..];
      assert multiset(arr) == multiset(arr[..i]) + multiset{arr[i]} + multiset(arr[i + 1..]);
    } else {
      assert multiset(arr)[Str(val)] == 0;
    }
  }

  /** Toggling an absent value twice restores exactly the original array. */
  lemma ToggleTwiceRestores(arr: seq<Json>, val: string)
    requires Str(val) !in arr
    ensures ToggleMultiple(Arr(ToggleMultiple(Arr(arr), val)), val) == arr
  {
    var once := arr + [Str(val)];
    assert ToggleMultiple(Arr(arr), val) == once;
    var i := Seqs.FirstIndex(once, Str(val));
    assert once[..|arr|] == arr;
    assert i == |arr|;
  }

  /** After a toggle, the toggled section's state flips when it appears at
      most once; every other section keeps its state. */
  lemma ToggleFlipsOnlyItsSection(multiple: bool, current: Json, val: string, other: string)
    requires multiple ==> current.Arr? && multiset(current.items)[Str(val)] <= 1
    requires other != val
    ensures IsOpen(multiple, NextValue(multiple, current, val), val) <==> !IsOpen(multiple, current, val)
    ensures multiple ==>
      (IsOpen(multiple, NextValue(multiple, current, val), other) <==> IsOpen(multiple, current, other))
    ensures !multiple ==> !IsOpen(multiple, NextValue(multiple, current, val), other)
  {
    if multiple {
      ToggleChangesOnlyVal(current, val);
      var next := ToggleMultiple(current, val);
      assert Str(other) != Str(val);
      assert Str(other) in next <==> multiset(next)[Str(other)] > 0;
      assert Str(other) in current.items <==> multiset(current.items)[Str(other)] > 0;
      assert Str(val) in next <==> multiset(next)[Str(val)] > 0;
      assert Str(val) in current.items <==> multiset(current.items)[Str(val)] > 0;
    }
  }

  class AccordionState {
    const multiple: bool
    /** The `value` prop; `Undefined` when the accordion is uncontrolled. */
    const value: Json
    var internal: Json

    predicate Controlled()
      reads this
    {
      value != Undefined
    }

    /** `controlled ? value : internal`. */
    function Current(): Json
      reads this
    {
      if Controlled() then value else internal
    }

    constructor (multiple: bool, defaultValue: Json, value: Json)
      ensures this.multiple == multiple && this.value == value
      ensures internal == InitialState(multiple, defaultValue)
    {
      this.multiple := multiple;
      this.value := value;
      internal := InitialState(multiple, defaultValue);
    }

    /** toggle(val): the next value goes to the parent's `onValueChange` when
        controlled, and into the internal state otherwise. */
    method Toggle(val: string) returns (emitted: Option<Json>)
      modifies this
      ensures old(Controlled()) ==> internal == old(internal) && emitted == Some(NextValue(multiple, old(Current()), val))
      ensures !old(Controlled()) ==> internal == NextValue(multiple, old(Current()), val) && emitted == None
    {
      var current := Current();
      var next: Json;
      if multiple {
        next := Arr(ToggleMultiple(current, val));
      } else {
        next := ToggleSingle(current, val);
      }
      if Controlled() {
        emitted := Some(next);
      } else {
        internal := next;
        emitted := None;
      }
    }

    predicate Open(itemValue: string)
      reads this
    {
      IsOpen(multiple, Current(), itemValue)
    }
  }
}
