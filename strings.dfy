/** The string functions of the JavaScript runtime that the components call:
    `toLowerCase` (on ASCII letters), `includes`, `trim`, and the decimal
    rendering of a status code inside a template string. */
module Strings {

  predicate IsUpperAscii(c: char)
  {
    'A' <= c <= 'Z'
  }

  function LowerChar(c: char): (r: char)
    ensures IsUpperAscii(c) ==> r as int == c as int + 32
    ensures !IsUpperAscii(c) ==> r == c
    ensures !IsUpperAscii(r)
  {
    if IsUpperAscii(c) then (c as int + 32) as char else c
  }

  /** `s.toLowerCase()` restricted to ASCII letters. */
  function Lower(s: string): (r: string)
    ensures |r| == |s|
    ensures forall i :: 0 <= i < |s| ==> r[i] == LowerChar(s[i])
  {
    seq(|s|, i requires 0 <= i < |s| => LowerChar(s[i]))
  }

  /** `s.includes(t)`: `t` occurs in `s` starting at some position. */
  predicate Includes(s: string, t: string)
    ensures Includes(s, t) ==> |t| <= |s|
    decreases |s|
  {
    |t| <= |s| && (s[..|t|] == t || Includes(s[1..], t))
  }

  /** `t` occurs in `s` at position `i`. */
  predicate OccursAt(s: string, t: string, i: int)
  {
    0 <= i <= |s| - |t| && s[i..i + |t|] == t
  }

  /** The recursive search agrees with "some window of `s` equals `t`". */
  lemma {:induction false} IncludesIff(s: string, t: string)
    ensures Includes(s, t) <==> exists i :: OccursAt(s, t, i)
    decreases |s|
  {
    if |t| <= |s| {
      if s[..|t|] == t {
        assert OccursAt(s, t, 0);
      } else if s != [] {
        IncludesIff(s[1..], t);
        if Includes(s[1..], t) {
          var i :| OccursAt(s[1..], t, i);
          assert s[i + 1..i + 1 + |t|] == s[1..][i..i + |t|];
          assert OccursAt(s, t, i + 1);
        }
        if exists i :: OccursAt(s, t, i) {
          var i :| OccursAt(s, t, i);
          assert i != 0;
          assert s[1..][i - 1..i - 1 + |t|] == s[i..i + |t|];
          assert OccursAt(s[1..], t, i - 1);
        }
      }
    }
  }

  /** The characters `String.prototype.trim` removes, restricted to the
      ASCII whitespace characters, the no-break space and the byte-order mark. */
  predicate IsWhitespace(c: char)
  {
    c == ' ' || c == '\t' || c == '\n' || c == '\r' || c == '\U{000B}' || c == '\U{000C}'
    || c == '\U{00A0}' || c == '\U{FEFF}'
  }

  function TrimStart(s: string): (r: string)
    ensures |r| <= |s| && r == s[|s| - |r|..]
    ensures r != [] ==> !IsWhitespace(r[0])
    ensures forall i :: 0 <= i < |s| - |r| ==> IsWhitespace(s[i])
    decreases |s|
  {
    if s != [] && IsWhitespace(s[0]) then TrimStart(s[1..]) else s
  }

  function TrimEnd(s: string): (r: string)
    ensures |r| <= |s| && r == s[..|r|]
    ensures r != [] ==> !IsWhitespace(r[|r| - 1])
    ensures forall i :: |r| <= i < |s| ==> IsWhitespace(s[i])
    decreases |s|
  {
    if s != [] && IsWhitespace(s[|s| - 1]) then TrimEnd(s[..|s| - 1]) else s
  }

  /** `s.trim()`. */
  function Trim(s: string): (r: string)
    ensures |r| <= |s|
    ensures r != [] ==> !IsWhitespace(r[0]) && !IsWhitespace(r[|r| - 1])
  {
    TrimEnd(TrimStart(s))
  }

  /** Where the result of `trim` starts inside its input. */
  function TrimOffset(s: string): (lo: nat)
    ensures lo <= |s|
  {
    |s| - |TrimStart(s)|
  }

  /** The result of `trim` is the window of its input that starts at
      `TrimOffset`. */
  lemma TrimWindow(s: string)
    ensures TrimOffset(s) + |Trim(s)| <= |s|
    ensures Trim(s) == s[TrimOffset(s)..TrimOffset(s) + |Trim(s)|]
  {
    var a := TrimStart(s);
    var lo := |s| - |a|;
    var r := TrimEnd(a);
    assert a == s[lo..];
    assert r == a[..|r|];
    assert s[lo..][..|r|] == s[lo..lo + |r|];
  }

  /** Whitespace at the end of a suffix is whitespace at the end of the
      whole string. */
  lemma SuffixWhitespace(s: string, lo: nat, a: string, keep: nat)
    requires lo <= |s| && a == s[lo..] && keep <= |a|
    requires forall k :: keep <= k < |a| ==> IsWhitespace(a[k])
    ensures forall i :: lo + keep <= i < |s| ==> IsWhitespace(s[i])
  {
    forall i | lo + keep <= i < |s|
      ensures IsWhitespace(s[i])
    {
      assert a[i - lo] == s[i];
    }
  }

  /** Everything `trim` cuts after the window is whitespace. */
  lemma TrimCutsTrailingWhitespace(s: string)
    ensures forall i :: TrimOffset(s) + |Trim(s)| <= i < |s| ==> IsWhitespace(s[i])
  {
    var a := TrimStart(s);
    var r := TrimEnd(a);
    SuffixWhitespace(s, |s| - |a|, a, |r|);
  }

  /** `trim` removes only leading and trailing whitespace: the result is a
      window of the input, it neither starts nor ends with whitespace, and
      everything cut away is whitespace. */
  lemma TrimSpec(s: string)
    ensures TrimOffset(s) + |Trim(s)| <= |s|
    ensures Trim(s) == s[TrimOffset(s)..TrimOffset(s) + |Trim(s)|]
    ensures forall i :: 0 <= i < TrimOffset(s) ==> IsWhitespace(s[i])
    ensures forall i :: TrimOffset(s) + |Trim(s)| <= i < |s| ==> IsWhitespace(s[i])
    ensures Trim(s) != [] ==> !IsWhitespace(Trim(s)[0]) && !IsWhitespace(Trim(s)[|Trim(s)| - 1])
  {
    TrimWindow(s);
    TrimCutsTrailingWhitespace(s);
    var a := TrimStart(s);
    assert Trim(s) != [] ==> Trim(s)[0] == a[0];
  }

  /** A string trims to empty iff every character of it is whitespace, so a
      blank input is exactly one made of whitespace only. */
  lemma TrimEmptyIff(s: string)
    ensures Trim(s) == "" <==> forall i :: 0 <= i < |s| ==> IsWhitespace(s[i])
  {
    var a := TrimStart(s);
    assert a != [] ==> a[0] == s[|s| - |a|];
    assert forall i :: |s| - |a| <= i < |s| ==> s[i] == a[i - (|s| - |a|)];
  }

  function DigitChar(d: nat): (c: char)
    requires d < 10
    ensures '0' <= c <= '9'
  {
    ('0' as int + d) as char
  }

  /** The decimal digits of `n`, as `${n}` renders a non-negative integer. */
  function NatToString(n: nat): (r: string)
    ensures |r| >= 1
    ensures forall i :: 0 <= i < |r| ==> '0' <= r[i] <= '9'
    decreases n
  {
    if n < 10 then [DigitChar(n)] else NatToString(n / 10) + [DigitChar(n % 10)]
  }

  /** `${n}` for any integer. */
  function IntToString(n: int): (r: string)
    ensures n >= 0 ==> r == NatToString(n)
    ensures n < 0 ==> r == "-" + NatToString(-n)
  {
    if n >= 0 then NatToString(n) else "-" + NatToString(-n)
  }

  /** The value of a string of decimal digits. */
  function DigitsValue(s: string): nat
    requires forall i :: 0 <= i < |s| ==> '0' <= s[i] <= '9'
  {
    if s == [] then 0 else DigitsValue(s[..|s| - 1]) * 10 + (s[|s| - 1] as int - '0' as int)
  }

  /** Rendering a number in decimal loses nothing: its digits read back as
      the number. */
  lemma {:induction false} NatToStringRoundTrip(n: nat)
    ensures DigitsValue(NatToString(n)) == n
    decreases n
  {
    if n >= 10 {
      NatToStringRoundTrip(n / 10);
      var r := NatToString(n);
      assert r[..|r| - 1] == NatToString(n / 10);
    }
  }

  /** A decimal string, optionally led by a minus sign. */
  predicate SignedDecimal(s: string)
  {
    |s| > 0 && (s[0] == '-' || '0' <= s[0] <= '9') && forall i :: 1 <= i < |s| ==> '0' <= s[i] <= '9'
  }

  /** The value of an optionally signed decimal string. */
  function SignedValue(s: string): int
    requires SignedDecimal(s)
  {
    assert forall i :: 0 <= i < |s[1..]| ==> s[1..][i] == s[i + 1];
    if |s| > 0 && s[0] == '-' then -(DigitsValue(s[1..]) as int) else DigitsValue(s)
  }

  /** `${n}` reads back as `n`, negative numbers included, and it starts
      with a minus sign exactly when `n` is negative. */
  lemma IntToStringRoundTrip(n: int)
    ensures SignedDecimal(IntToString(n))
    ensures SignedValue(IntToString(n)) == n
    ensures IntToString(n)[0] == '-' <==> n < 0
  {
    if n >= 0 {
      NatToStringRoundTrip(n);
    } else {
      NatToStringRoundTrip(-n);
      assert IntToString(n)[1..] == NatToString(-n);
    }
  }


  /** The part of `s` before the first `sep`, and the part after it; an
      empty second part when `sep` does not occur. */
  function SplitAtFirst(s: string, sep: char): (r: (string, string))
    ensures sep !in r.0
    ensures sep in s ==> s == r.0 + [sep] + r.1
    ensures sep !in s ==> r == (s, "")
    decreases |s|
  {
    if s == [] then ("", "")
    else if s[0] == sep then ("", s[1..])
    else
      var (a, b) := SplitAtFirst(s[1..], sep);
      assert sep in s <==> sep in s[1..];
      assert [s[0]] + s[1..] == s;
      ([s[0]] + a, b)
  }

  /** Splitting at the first separator undoes joining around one, provided
      the left part holds no separator. */
  lemma {:induction false} SplitAtFirstJoin(a: string, sep: char, b: string)
    requires sep !in a
    ensures SplitAtFirst(a + [sep] + b, sep) == (a, b)
    decreases |a|
  {
    var s := a + [sep] + b;
    if a == [] {
      assert s == [sep] + b;
    } else {
      assert s[0] == a[0] && s[1..] == a[1..] + [sep] + b;
      SplitAtFirstJoin(a[1..], sep, b);
      assert [a[0]] + a[1..] == a;
    }
  }
}
