/** The parts of Python's `str` and `int` behaviour the core relies on,
    over `string` (= `seq<char>`). */
module Strings {
  import opened Wrappers

  /** Index of the first `c` in `s`, or `|s|` when `s` has none (`str.find`
      with "not found" mapped to the length). */
  function IndexOf(s: string, c: char): (i: nat)
    ensures i <= |s|
    ensures i < |s| <==> c in s
    ensures i < |s| ==> s[i] == c
    ensures c !in s[..i]
  {
    if s == [] then 0
    else if s[0] == c then 0
    else
      var j := IndexOf(s[1..], c);
      assert s[..1 + j] == [s[0]] + s[1..][..j];
      1 + j
  }

  /** `s.split(c, 1)[0]`: the text before the first `c`, or all of `s`. */
  function BeforeFirst(s: string, c: char): string
  {
    s[..IndexOf(s, c)]
  }

  /** `s.split(c, 1)[1]`: the text after the first `c`. */
  function AfterFirst(s: string, c: char): string
    requires c in s
  {
    s[IndexOf(s, c) + 1..]
  }

  /** `s.split(c)`: the pieces between the occurrences of `c`. */
  function Split(s: string, c: char): (parts: seq<string>)
    ensures |parts| >= 1 && parts[0] == BeforeFirst(s, c)
    ensures c in s ==> |parts| >= 2 && parts[1] == BeforeFirst(AfterFirst(s, c), c)
    ensures forall k :: 0 <= k < |parts| ==> c !in parts[k]
    decreases |s|
  {
    var i := IndexOf(s, c);
    if i == |s| then [s] else [s[..i]] + Split(s[i + 1..], c)
  }

  /** `c.join(parts)`. */
  function Join(parts: seq<string>, c: char): string
  {
    if parts == [] then []
    else if |parts| == 1 then parts[0]
    else parts[0] + [c] + Join(parts[1..], c)
  }

  lemma {:induction false} IndexOfAfter(a: string, c: char, b: string)
    requires c !in a
    ensures IndexOf(a + [c] + b, c) == |a|
  {
    if a != [] {
      assert (a + [c] + b)[1..] == a[1..] + [c] + b;
      IndexOfAfter(a[1..], c, b);
    }
  }

  /** The first occurrence of `c` in `a + b` is the first one in `b`,
      shifted, when `a` has none. */
  lemma {:induction false} IndexOfConcat(a: string, b: string, c: char)
    requires c !in a
    ensures IndexOf(a + b, c) == |a| + IndexOf(b, c)
  {
    if a != [] {
      assert (a + b)[1..] == a[1..] + b;
      IndexOfConcat(a[1..], b, c);
    } else {
      assert a + b == b;
    }
  }

  /** Splitting a join recovers the pieces when none holds the separator. */
  lemma {:induction false} SplitJoin(parts: seq<string>, c: char)
    requires |parts| >= 1
    requires forall k :: 0 <= k < |parts| ==> c !in parts[k]
    ensures Split(Join(parts, c), c) == parts
  {
    if |parts| > 1 {
      var rest := Join(parts[1..], c);
      var s := Join(parts, c);
      assert s == parts[0] + [c] + rest;
      IndexOfAfter(parts[0], c, rest);
      assert s[..|parts[0]|] == parts[0];
      assert s[|parts[0]| + 1..] == rest;
      SplitJoin(parts[1..], c);
      assert Split(s, c) == [parts[0]] + parts[1..];
    }
  }

  // ---- decimal numbers ----

  predicate IsDigit(ch: char)
  {
    '0' <= ch <= '9'
  }

  predicate IsDigits(s: string)
  {
    forall k :: 0 <= k < |s| ==> IsDigit(s[k])
  }

  function DigitsValue(s: string): nat
    requires IsDigits(s)
  {
    if s == [] then 0
    else 10 * DigitsValue(s[..|s| - 1]) + (s[|s| - 1] as int - '0' as int)
  }

  /** Python's `int(s)` restricted to a plain decimal literal: one or more
      ASCII digits (leading zeros allowed). */
  function ParseNat(s: string): Option<nat>
  {
    if s != [] && IsDigits(s) then Some(DigitsValue(s)) else None
  }

  /** Python's `int(s)` on an optionally signed decimal literal. */
  function ParseInt(s: string): Option<int>
  {
    if s != [] && (s[0] == '+' || s[0] == '-') then
      match ParseNat(s[1..])
      case Some(n) => Some(if s[0] == '-' then -(n as int) else n as int)
      case None => None
    else ParseNat(s)
  }

  /** `str(n)` for a natural number. */
  function NatToString(n: nat): (s: string)
    ensures s != [] && IsDigits(s)
  {
    (if n < 10 then [] else NatToString(n / 10)) + [('0' as int + n % 10) as char]
  }

  lemma {:induction false} NatToStringRoundTrip(n: nat)
    ensures ParseNat(NatToString(n)) == Some(n)
    ensures ParseInt(NatToString(n)) == Some(n)
  {
    var s := NatToString(n);
    var init := if n < 10 then [] else NatToString(n / 10);
    assert s == init + [('0' as int + n % 10) as char];
    assert s[..|s| - 1] == init;
    if n >= 10 {
      NatToStringRoundTrip(n / 10);
    }
    assert DigitsValue(s) == 10 * DigitsValue(init) + n % 10;
  }

  /** A decimal string holds no separator, blank or unit letter. */
  lemma NatToStringHasNo(n: nat, c: char)
    requires !IsDigit(c)
    ensures c !in NatToString(n)
  {
  }

  // ---- case and whitespace ----

  function LowerChar(ch: char): char
  {
    if 'A' <= ch <= 'Z' then (ch as int + 32) as char else ch
  }

  /** `s.lower()` restricted to ASCII letters. */
  function AsciiLower(s: string): string
  {
    seq(|s|, k requires 0 <= k < |s| => LowerChar(s[k]))
  }

  /** The characters Python's `str.isspace` accepts. */
  predicate IsSpace(ch: char)
  {
    var c := ch as int;
    (9 <= c <= 13) || (28 <= c <= 32) || c == 0x85 || c == 0xA0 || c == 0x1680
    || (0x2000 <= c <= 0x200A) || c == 0x2028 || c == 0x2029 || c == 0x202F
    || c == 0x205F || c == 0x3000
  }

  function TrimStart(s: string): string
  {
    if s != [] && IsSpace(s[0]) then TrimStart(s[1..]) else s
  }

  function TrimEnd(s: string): string
  {
    if s != [] && IsSpace(s[|s| - 1]) then TrimEnd(s[..|s| - 1]) else s
  }

  /** `s.strip()`. */
  function Strip(s: string): string
  {
    TrimEnd(TrimStart(s))
  }

  /** `strip` leaves alone a text that neither starts nor ends with a blank. */
  lemma StripUnchanged(s: string)
    requires s != [] && !IsSpace(s[0]) && !IsSpace(s[|s| - 1])
    ensures Strip(s) == s
  {
  }

  /** `s[:n]`. */
  function Take(s: string, n: nat): string
  {
    if |s| <= n then s else s[..n]
  }

  /** `args.index(x)` with "absent" mapped to `|args|`. */
  function IndexOfArg(args: seq<string>, x: string): (i: nat)
    ensures i <= |args|
    ensures i < |args| <==> x in args
    ensures i < |args| ==> args[i] == x
    ensures forall j :: 0 <= j < i ==> args[j] != x
  {
    if args == [] then 0
    else if args[0] == x then 0
    else 1 + IndexOfArg(args[1..], x)
  }
}
