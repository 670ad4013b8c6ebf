/** The Python string built-ins the simulator relies on: `str.strip()`,
    `str.split(sep)`, `str.startswith`/`str.endswith`, `str(int)` and
    `int(str)`. */
module Text {
  import opened Wrappers

  /** Python's `str.isspace()` for one character. */
  predicate IsSpace(c: char)
  {
    c == ' ' || '\t' <= c <= '\r' || '\U{1C}' <= c <= '\U{1F}' || c == '\U{85}' ||
    c == '\U{A0}' || c == '\U{1680}' || '\U{2000}' <= c <= '\U{200A}' ||
    c == '\U{2028}' || c == '\U{2029}' || c == '\U{202F}' || c == '\U{205F}' ||
    c == '\U{3000}'
  }

  predicate IsDigit(c: char)
  {
    '0' <= c <= '9'
  }

  predicate AllDigits(s: string)
  {
    forall k :: 0 <= k < |s| ==> IsDigit(s[k])
  }

  predicate StartsWith(s: string, prefix: string)
  {
    |prefix| <= |s| && s[..|prefix|] == prefix
  }

  predicate EndsWith(s: string, suffix: string)
  {
    |suffix| <= |s| && s[|s| - |suffix|..] == suffix
  }

  /** `s.lstrip()`: drops the leading whitespace of `s`. */
  function LStrip(s: string): (r: string)
    ensures |r| <= |s|
  {
    if s != [] && IsSpace(s[0]) then LStrip(s[1..]) else s
  }

  /** `lstrip` leaves the suffix of `s` after its maximal run of leading whitespace. */
  lemma {:induction false} LStripSpec(s: string)
    ensures var r := LStrip(s);
      && r == s[|s| - |r|..]
      && (forall k :: 0 <= k < |s| - |r| ==> IsSpace(s[k]))
      && (r != [] ==> !IsSpace(r[0]))
  {
    if s != [] && IsSpace(s[0]) {
      LStripSpec(s[1..]);
    }
  }

  /** `s.rstrip()`: drops the trailing whitespace of `s`. */
  function RStrip(s: string): (r: string)
    ensures |r| <= |s|
  {
    if s != [] && IsSpace(s[|s| - 1]) then RStrip(s[..|s| - 1]) else s
  }

  /** `rstrip` leaves the prefix of `s` before its maximal run of trailing whitespace. */
  lemma {:induction false} RStripSpec(s: string)
    ensures var r := RStrip(s);
      && r == s[..|r|]
      && (forall k :: |r| <= k < |s| ==> IsSpace(s[k]))
      && (r != [] ==> !IsSpace(r[|r| - 1]))
  {
    if s != [] && IsSpace(s[|s| - 1]) {
      RStripSpec(s[..|s| - 1]);
    }
  }

  /** `s.strip()`. */
  function Strip(s: string): string
  {
    LStrip(RStrip(s))
  }

  /** `rstrip` keeps every position up to a non-whitespace character. */
  lemma RStripKeeps(s: string, k: nat)
    requires k < |s| && !IsSpace(s[k])
    ensures k < |RStrip(s)| && RStrip(s)[k] == s[k]
  {
    RStripSpec(s);
  }

  /** `lstrip` keeps every position from a non-whitespace character on. */
  lemma LStripKeeps(s: string, k: nat)
    requires k < |s| && !IsSpace(s[k])
    ensures |s| - |LStrip(s)| <= k && LStrip(s)[k - (|s| - |LStrip(s)|)] == s[k]
  {
    LStripSpec(s);
  }

  /** Stripping only removes whitespace: every other character of `s` survives it. */
  lemma StripKeeps(s: string, c: char)
    requires c in s && !IsSpace(c)
    ensures c in Strip(s)
  {
    var k :| 0 <= k < |s| && s[k] == c;
    RStripKeeps(s, k);
    LStripKeeps(RStrip(s), k);
  }

  /** A string that neither starts nor ends with whitespace is its own strip. */
  lemma StripUntouched(s: string)
    requires s != [] && !IsSpace(s[0]) && !IsSpace(s[|s| - 1])
    ensures Strip(s) == s
  {
  }

  /** A trailing whitespace character makes no difference to the strip. */
  lemma StripTrailing(s: string, c: char)
    requires IsSpace(c)
    ensures Strip(s + [c]) == Strip(s)
  {
    assert (s + [c])[..|s|] == s;
  }

  /** Number of occurrences of `c` in `s`. */
  function Occurrences(s: string, c: char): nat
  {
    multiset(s)[c]
  }

  /** `sep.join(parts)`. */
  function Join(parts: seq<string>, sep: char): string
  {
    if parts == [] then []
    else if |parts| == 1 then parts[0]
    else parts[0] + [sep] + Join(parts[1..], sep)
  }

  /** `s.split(sep)` for a one-character separator. */
  function Split(s: string, sep: char): (r: seq<string>)
    ensures |r| >= 1
  {
    if s == [] then [[]]
    else
      var rest := Split(s[1..], sep);
      if s[0] == sep then [[]] + rest else [[s[0]] + rest[0]] + rest[1..]
  }

  /** There is one more piece than there are separators. */
  lemma {:induction false} SplitCount(s: string, sep: char)
    ensures |Split(s, sep)| == Occurrences(s, sep) + 1
  {
    if s != [] {
      SplitCount(s[1..], sep);
      assert s == [s[0]] + s[1..];
      assert multiset(s) == multiset([s[0]]) + multiset(s[1..]);
    }
  }

  /** The pieces hold no separator, and `sep.join` puts them back together. */
  lemma {:induction false} SplitJoin(s: string, sep: char)
    ensures forall k :: 0 <= k < |Split(s, sep)| ==> sep !in Split(s, sep)[k]
    ensures Join(Split(s, sep), sep) == s
  {
    if s != [] {
      SplitJoin(s[1..], sep);
      var rest := Split(s[1..], sep);
      assert s == [s[0]] + s[1..];
      if s[0] != sep {
        var r := Split(s, sep);
        assert r[1..] == rest[1..];
        assert forall k :: 1 <= k < |r| ==> r[k] == rest[k];
        if |rest| > 1 {
          assert Join(rest, sep) == rest[0] + [sep] + Join(rest[1..], sep);
          assert Join(r, sep) == ([s[0]] + rest[0]) + [sep] + Join(rest[1..], sep);
        }
      } else {
        assert Split(s, sep)[1..] == rest;
      }
    }
  }

  /** A separator-free string is split into itself alone. */
  lemma {:induction false} SplitNone(a: string, sep: char)
    requires sep !in a
    ensures Split(a, sep) == [a]
  {
    if a != [] {
      SplitNone(a[1..], sep);
      assert [a[0]] + a[1..] == a;
    }
  }

  /** Splitting `a + sep + b`, where `a` holds no separator, yields `a` followed by the pieces of `b`. */
  lemma {:induction false} SplitAfter(a: string, sep: char, b: string)
    requires sep !in a
    ensures Split(a + [sep] + b, sep) == [a] + Split(b, sep)
  {
    var s := a + [sep] + b;
    if a == [] {
      assert s[0] == sep && s[1..] == b;
    } else {
      assert s[0] == a[0] && a[0] != sep;
      assert s[1..] == a[1..] + [sep] + b;
      SplitAfter(a[1..], sep, b);
      var rest := Split(s[1..], sep);
      assert rest == [a[1..]] + Split(b, sep);
      assert rest[0] == a[1..] && rest[1..] == Split(b, sep);
      assert [a[0]] + a[1..] == a;
    }
  }

  function DigitChar(d: nat): (c: char)
    requires d < 10
    ensures IsDigit(c) && DigitValue(c) == d
  {
    ('0' as int + d) as char
  }

  function DigitValue(c: char): nat
    requires IsDigit(c)
  {
    (c as int - '0' as int) as nat
  }

  /** `str(n)` for a non-negative integer: its decimal digits, most significant first. */
  function NatToString(n: nat): (r: string)
    ensures r != [] && AllDigits(r)
    ensures |r| > 1 ==> r[0] != '0'
  {
    (if n < 10 then [] else NatToString(n / 10)) + [DigitChar(n % 10)]
  }

  /** `str(n)`. */
  function IntToString(n: int): string
  {
    if n < 0 then "-" + NatToString(-n) else NatToString(n)
  }

  /** The value of a string of decimal digits (leading zeros allowed). */
  function DigitsValue(d: string): nat
    requires AllDigits(d)
  {
    if d == [] then 0 else DigitsValue(d[..|d| - 1]) * 10 + DigitValue(d[|d| - 1])
  }

  /** What `int` accepts once whitespace is stripped: an optional sign and at
      least one digit. */
  function ParseSigned(t: string): (r: Option<int>)
    ensures r.Some? ==> forall k :: 0 <= k < |t| ==> IsDigit(t[k]) || t[k] == '+' || t[k] == '-'
  {
    if t == [] then None
    else if t[0] == '-' || t[0] == '+' then
      var d := t[1..];
      if d != [] && AllDigits(d) then
        assert forall k :: 1 <= k < |t| ==> t[k] == d[k - 1];
        Some(if t[0] == '-' then 0 - DigitsValue(d) as int else DigitsValue(d))
      else None
    else if AllDigits(t) then Some(DigitsValue(t))
    else None
  }

  /** `int(s)` on a string: surrounding whitespace is ignored and the rest must be
      an optional sign followed by digits; anything else raises ValueError,
      modelled as None. An accepted string therefore consists of whitespace,
      signs and digits only. */
  function ParseInt(s: string): (r: Option<int>)
    ensures r.Some? ==> forall k :: 0 <= k < |s| ==> IsSpace(s[k]) || IsDigit(s[k]) || s[k] == '+' || s[k] == '-'
  {
    var t := Strip(s);
    var r := ParseSigned(t);
    assert r.Some? ==> forall k :: 0 <= k < |s| ==> IsSpace(s[k]) || IsDigit(s[k]) || s[k] == '+' || s[k] == '-' by {
      if r.Some? {
        forall k | 0 <= k < |s| ensures IsSpace(s[k]) || IsDigit(s[k]) || s[k] == '+' || s[k] == '-' {
          if !IsSpace(s[k]) {
            StripKeeps(s, s[k]);
            var j :| 0 <= j < |t| && t[j] == s[k];
          }
        }
      }
    }
    r
  }

  /** Reading back the digits that `str` wrote gives the number. */
  lemma {:induction false} DigitsRoundTrip(n: nat)
    ensures DigitsValue(NatToString(n)) == n
  {
    var p := if n < 10 then [] else NatToString(n / 10);
    var s := NatToString(n);
    assert s == p + [DigitChar(n % 10)];
    assert s[..|s| - 1] == p;
    assert DigitsValue(s) == DigitsValue(p) * 10 + n % 10;
    if n >= 10 {
      DigitsRoundTrip(n / 10);
    }
  }

  /** The sign and digits that `str` writes are accepted with their value. */
  lemma SignedRoundTrip(n: int)
    ensures ParseSigned(IntToString(n)) == Some(n)
  {
    var m: nat := if n < 0 then -n else n;
    var s := IntToString(n);
    var d := NatToString(m);
    DigitsRoundTrip(m);
    if n < 0 {
      assert s == "-" + d;
      assert s[0] == '-' && s[1..] == d;
    } else {
      assert s == d && IsDigit(s[0]);
    }
  }

  /** `int(str(n)) == n` for every integer. */
  lemma ParseIntRoundTrip(n: int)
    ensures ParseInt(IntToString(n)) == Some(n)
  {
    var s := IntToString(n);
    assert s[0] == '-' || IsDigit(s[0]);
    StripUntouched(s);
    SignedRoundTrip(n);
  }
}
