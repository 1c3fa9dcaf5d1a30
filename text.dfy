/** String helpers the portal relies on through JavaScript built-ins:
    `String(n)`, `n.toString(16)`, `padStart`, `toLowerCase` (ASCII letters),
    `includes` on strings, `join` and `replace` of the first match. */
module Text {

  /** Digit characters shared by decimal and hexadecimal output. */
  const DIGITS: string := "0123456789abcdef"

  predicate IsDigitIn(c: char, base: nat)
    requires 2 <= base <= 16
  {
    c in DIGITS[..base]
  }

  function DigitValue(c: char): nat {
    if '0' <= c <= '9' then (c - '0') as nat
    else if 'a' <= c <= 'f' then (c - 'a') as nat + 10
    else 0
  }

  lemma DigitValueOfDigit(d: nat)
    requires d < 16
    ensures DigitValue(DIGITS[d]) == d
  {
  }

  /** Digits of `n` in `base`, most significant first, with no leading zero
      except for 0 itself (`n.toString(base)`). */
  function ToBase(n: nat, base: nat): (r: string)
    requires 2 <= base <= 16
    ensures |r| >= 1
    ensures forall i :: 0 <= i < |r| ==> IsDigitIn(r[i], base)
    ensures n < base <==> |r| == 1
    ensures ParseBase(r, base) == n
    decreases n
  {
    if n < base then
      DigitValueOfDigit(n);
      assert ParseBase([DIGITS[n]], base) == ParseBase([], base) * base + n;
      [DIGITS[n]]
    else
      var q, d := n / base, n % base;
      DivModBase(n, base);
      var prefix := ToBase(q, base);
      DigitValueOfDigit(d);
      var r := prefix + [DIGITS[d]];
      assert r[..|r| - 1] == prefix;
      r
  }

  lemma DivModBase(n: nat, base: nat)
    requires 2 <= base <= 16 && n >= base
    ensures n == (n / base) * base + n % base
    ensures n % base < base && 1 <= n / base < n
  {
  }

  /** The value of a string of digits in `base`; the inverse of `ToBase`. */
  function ParseBase(s: string, base: nat): nat
    requires 2 <= base <= 16
  {
    if s == [] then 0 else ParseBase(s[..|s| - 1], base) * base + DigitValue(s[|s| - 1])
  }

  /** `String(n)` for a non-negative integer. */
  function NatToString(n: nat): string {
    ToBase(n, 10)
  }

  /** `String(i)` for an integer. */
  function IntToString(i: int): string {
    if i < 0 then "-" + NatToString(-i) else NatToString(i)
  }

  /** Leading zeros do not change the value of a digit string. */
  lemma {:induction false} ParseLeadingZeros(k: nat, s: string, base: nat)
    requires 2 <= base <= 16
    ensures ParseBase(Repeat('0', k) + s, base) == ParseBase(s, base)
    decreases |s|
  {
    if s == [] {
      ParseZeros(k, base);
      assert Repeat('0', k) + s == Repeat('0', k);
    } else {
      var z := Repeat('0', k);
      assert (z + s)[..|z + s| - 1] == z + s[..|s| - 1];
      ParseLeadingZeros(k, s[..|s| - 1], base);
    }
  }

  lemma {:induction false} ParseZeros(k: nat, base: nat)
    requires 2 <= base <= 16
    ensures ParseBase(Repeat('0', k), base) == 0
  {
    if k > 0 {
      assert Repeat('0', k)[..k - 1] == Repeat('0', k - 1);
      ParseZeros(k - 1, base);
    }
  }

  function Repeat(c: char, k: nat): (r: string)
    ensures |r| == k && forall i :: 0 <= i < k ==> r[i] == c
  {
    seq(k, _ => c)
  }

  /** `s.padStart(width, c)`. */
  function PadStart(s: string, width: nat, c: char): (r: string)
    ensures |s| >= width ==> r == s
    ensures |s| < width ==> |r| == width && r[width - |s|..] == s
    ensures |s| < width ==> forall i :: 0 <= i < width - |s| ==> r[i] == c
  {
    if |s| >= width then s else Repeat(c, width - |s|) + s
  }

  /** A number written with `toString` and padded with zeros still reads back
      as that number. */
  lemma PaddedParses(n: nat, width: nat, base: nat)
    requires 2 <= base <= 16
    ensures ParseBase(PadStart(ToBase(n, base), width, '0'), base) == n
  {
    var s := ToBase(n, base);
    if |s| < width {
      ParseLeadingZeros(width - |s|, s, base);
    }
  }

  /** Padding digits with zeros leaves only digits. */
  lemma PaddedDigits(s: string, width: nat, base: nat)
    requires 2 <= base <= 16
    requires forall i :: 0 <= i < |s| ==> IsDigitIn(s[i], base)
    ensures forall i :: 0 <= i < |PadStart(s, width, '0')| ==> IsDigitIn(PadStart(s, width, '0')[i], base)
  {
    var padded := PadStart(s, width, '0');
    assert IsDigitIn('0', base) by { assert DIGITS[..base][0] == '0'; }
    forall i | 0 <= i < |padded|
      ensures IsDigitIn(padded[i], base)
    {
      var k := |padded| - |s|;
      if i >= k {
        assert padded[i] == s[i - k];
      }
    }
  }

  function LowerChar(c: char): char {
    if 'A' <= c <= 'Z' then (c - 'A' + 'a') as char else c
  }

  /** `s.toLowerCase()` restricted to ASCII letters. */
  function Lower(s: string): (r: string)
    ensures |r| == |s| && forall i :: 0 <= i < |s| ==> r[i] == LowerChar(s[i])
  {
    seq(|s|, i requires 0 <= i < |s| => LowerChar(s[i]))
  }

  /** `s.includes(sub)`: `sub` occurs in `s` at some position. */
  predicate Contains(s: string, sub: string) {
    sub <= s || (s != [] && Contains(s[1..], sub))
  }

  /** `a.toLowerCase().includes(b.toLowerCase())` */
  predicate ContainsIgnoringCase(s: string, sub: string) {
    Contains(Lower(s), Lower(sub))
  }

  /** `items.some(x => x.toLowerCase().includes(term.toLowerCase()))` */
  predicate SomeContainsIgnoringCase(items: seq<string>, term: string) {
    exists i :: 0 <= i < |items| && ContainsIgnoringCase(items[i], term)
  }

  /** `parts.join(sep)` */
  function Join(parts: seq<string>, sep: string): string {
    if parts == [] then ""
    else if |parts| == 1 then parts[0]
    else parts[0] + sep + Join(parts[1..], sep)
  }

  /** Position of the first `c` in `s`, or |s| when there is none. */
  function IndexOf(s: string, c: char): (i: nat)
    ensures i <= |s| && c !in s[..i]
    ensures i < |s| ==> s[i] == c
    ensures i == |s| <==> c !in s
  {
    if s == [] then 0
    else if s[0] == c then 0
    else
      var j := IndexOf(s[1..], c);
      assert s[..j + 1] == [s[0]] + s[1..][..j];
      j + 1
  }

  /** `s.replace(a, b)` with single-character strings: only the first `a` is
      replaced. */
  function ReplaceFirst(s: string, a: char, b: char): (r: string)
    ensures |r| == |s|
    ensures a !in s ==> r == s
    ensures a in s ==> r == s[..IndexOf(s, a)] + [b] + s[IndexOf(s, a) + 1..]
  {
    var i := IndexOf(s, a);
    if i == |s| then s else s[..i] + [b] + s[i + 1..]
  }

  /** Counts the occurrences of one character. */
  function CountChar(s: string, c: char): nat {
    if s == [] then 0 else (if s[0] == c then 1 else 0) + CountChar(s[1..], c)
  }

  lemma {:induction false} CountCharAppend(a: string, b: string, c: char)
    ensures CountChar(a + b, c) == CountChar(a, c) + CountChar(b, c)
  {
    if a == [] {
      assert a + b == b;
    } else {
      assert (a + b)[0] == a[0];
      assert (a + b)[1..] == a[1..] + b;
      CountCharAppend(a[1..], b, c);
    }
  }

  lemma {:induction false} CountCharAbsent(s: string, c: char)
    requires c !in s
    ensures CountChar(s, c) == 0
  {
    if s != [] {
      CountCharAbsent(s[1..], c);
    }
  }

  /** Occurrences of `c` over a list of strings. */
  function CountInAll(parts: seq<string>, c: char): nat {
    if parts == [] then 0 else CountChar(parts[0], c) + CountInAll(parts[1..], c)
  }

  /** Joining with a separator free of `c` adds no occurrence of `c`. */
  lemma {:induction false} CountJoin(parts: seq<string>, sep: string, c: char)
    requires CountChar(sep, c) == 0
    ensures CountChar(Join(parts, sep), c) == CountInAll(parts, c)
  {
    if |parts| == 1 {
      assert parts[1..] == [];
    } else if |parts| > 1 {
      CountJoin(parts[1..], sep, c);
      CountCharAppend(parts[0] + sep, Join(parts[1..], sep), c);
      CountCharAppend(parts[0], sep, c);
    }
  }

  /** A joined list starts with its first part. */
  lemma JoinStartsWith(parts: seq<string>, sep: string)
    requires |parts| >= 1
    ensures parts[0] <= Join(parts, sep)
  {
  }

  /** `String(i)` is made of decimal digits and possibly a leading '-'. */
  lemma IntToStringChars(i: int, c: char)
    requires c !in "-0123456789"
    ensures CountChar(IntToString(i), c) == 0
  {
    var digits := NatToString(if i < 0 then -i else i);
    assert forall k :: 0 <= k < |digits| ==> digits[k] in DIGITS[..10];
    assert c !in digits;
    if i < 0 {
      assert c !in "-" + digits;
    }
    CountCharAbsent(IntToString(i), c);
  }

  /** Numbers from `base` up to `base * base - 1` take exactly two digits. */
  lemma TwoDigits(n: nat, base: nat)
    requires 2 <= base <= 16 && base <= n < base * base
    ensures |ToBase(n, base)| == 2
  {
    DivModBase(n, base);
    QuotientBelow(n, base);
  }

  lemma QuotientBelow(n: nat, base: nat)
    requires 2 <= base && n < base * base
    ensures n / base < base
  {
    var q := n / base;
    assert q * base <= n;
    assert q * base < base * base;
    assert (base - q) * base > 0;
  }
  /** Reads "m:ss" back: the digits before the first ':' count minutes, the
      digits after it seconds. */
  function ParseClock(t: string): nat {
    var i := IndexOf(t, ':');
    ParseBase(t[..i], 10) * 60 + (if i < |t| then ParseBase(t[i + 1..], 10) else 0)
  }

  lemma ClockParses(mins: string, secs: string)
    requires ':' !in mins
    ensures ParseClock(mins + ":" + secs) == ParseBase(mins, 10) * 60 + ParseBase(secs, 10)
  {
    var t := mins + ":" + secs;
    assert t[..|mins|] == mins;
    assert t[|mins|] == ':';
    assert IndexOf(t, ':') == |mins|;
    assert t[|mins| + 1..] == secs;
  }

  /** Written digits, padded or not, hold no ':'. */
  lemma NoColonInDigits(n: nat, width: nat)
    ensures ':' !in PadStart(ToBase(n, 10), width, '0')
  {
    var d := ToBase(n, 10);
    DigitsHaveNoColon(d);
    PaddingAddsNoColon(d, width);
  }

  lemma DigitsHaveNoColon(d: string)
    requires forall i :: 0 <= i < |d| ==> IsDigitIn(d[i], 10)
    ensures ':' !in d
  {
    assert ':' !in DIGITS[..10];
  }

  lemma PaddingAddsNoColon(s: string, width: nat)
    requires ':' !in s
    ensures ':' !in PadStart(s, width, '0')
  {
    if |s| < width {
      assert PadStart(s, width, '0') == Repeat('0', width - |s|) + s;
    }
  }

  /** Values below base * base are written in at most two digits. */
  lemma AtMostTwoDigits(n: nat, base: nat)
    requires 2 <= base <= 16 && n < base * base
    ensures |ToBase(n, base)| <= 2
  {
    if n >= base {
      TwoDigits(n, base);
    }
  }
}
