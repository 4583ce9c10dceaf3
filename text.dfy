/** The handful of Python `str` operations the integration relies on: `strip`, `split`,
    `replace`, `in`, `lstrip`, and decimal conversion to and from numbers. */
module Text {
  import opened Wrappers

  /** Python's `str.isspace` for one character (also what `\s` matches in a `str` regex). */
  predicate IsSpace(c: char) {
    || c == ' '
    || '\t' <= c <= '\r'
    || '\U{1C}' <= c <= '\U{1F}'
    || c == '\U{85}' || c == '\U{A0}' || c == '\U{1680}'
    || '\U{2000}' <= c <= '\U{200A}'
    || c == '\U{2028}' || c == '\U{2029}' || c == '\U{202F}' || c == '\U{205F}' || c == '\U{3000}'
  }

  predicate IsDigit(c: char) {
    '0' <= c <= '9'
  }

  predicate AllSpace(s: string) {
    forall i :: 0 <= i < |s| ==> IsSpace(s[i])
  }

  predicate AllDigits(s: string) {
    forall i :: 0 <= i < |s| ==> IsDigit(s[i])
  }

  /** `s.lstrip()`: leading whitespace removed. */
  function TrimStart(s: string): (r: string)
    ensures |r| <= |s| && r == s[|s| - |r|..]
    ensures forall i :: 0 <= i < |s| - |r| ==> IsSpace(s[i])
    ensures r == [] || !IsSpace(r[0])
  {
    if s != [] && IsSpace(s[0]) then TrimStart(s[1..]) else s
  }

  /** `s.rstrip()`: trailing whitespace removed. */
  function TrimEnd(s: string): (r: string)
    ensures |r| <= |s| && r == s[..|r|]
    ensures forall i :: |r| <= i < |s| ==> IsSpace(s[i])
    ensures r == [] || !IsSpace(r[|r| - 1])
  {
    if s != [] && IsSpace(s[|s| - 1]) then TrimEnd(s[..|s| - 1]) else s
  }

  /** `s.strip()`: leading and trailing whitespace removed. */
  function Strip(s: string): (r: string)
    ensures |r| <= |s|
    ensures r == [] || (!IsSpace(r[0]) && !IsSpace(r[|r| - 1]))
  {
    TrimEnd(TrimStart(s))
  }

  /** `s.lstrip(c)` for a single character `c`. */
  function LStripChar(s: string, c: char): (r: string)
    ensures |r| <= |s| && r == s[|s| - |r|..]
    ensures forall i :: 0 <= i < |s| - |r| ==> s[i] == c
    ensures r == [] || r[0] != c
  {
    if s != [] && s[0] == c then LStripChar(s[1..], c) else s
  }

  /** `s.rstrip(c)` for a single character `c`. */
  function RStripChar(s: string, c: char): (r: string)
    ensures |r| <= |s| && r == s[..|r|]
    ensures forall i :: |r| <= i < |s| ==> s[i] == c
    ensures r == [] || r[|r| - 1] != c
  {
    if s != [] && s[|s| - 1] == c then RStripChar(s[..|s| - 1], c) else s
  }

  predicate StartsWith(s: string, prefix: string) {
    |prefix| <= |s| && s[..|prefix|] == prefix
  }

  /** Python's `sub in s`. */
  predicate Contains(s: string, sub: string) {
    StartsWith(s, sub) || (s != [] && Contains(s[1..], sub))
  }

  /** Python's `s.replace(pat, rep)`: every non-overlapping occurrence of `pat`, found from
      left to right, is replaced; an empty `pat` inserts `rep` around every character. */
  function ReplaceAll(s: string, pat: string, rep: string): string
    decreases |s|
  {
    if pat == [] then
      (if s == [] then rep else rep + [s[0]] + ReplaceAll(s[1..], pat, rep))
    else if StartsWith(s, pat) then rep + ReplaceAll(s[|pat|..], pat, rep)
    else if s == [] then []
    else [s[0]] + ReplaceAll(s[1..], pat, rep)
  }

  lemma {:induction false} ReplaceAbsent(s: string, pat: string, rep: string)
    requires pat != [] && !Contains(s, pat)
    ensures ReplaceAll(s, pat, rep) == s
    decreases |s|
  {
    if s != [] {
      ReplaceAbsent(s[1..], pat, rep);
    }
  }

  /** No occurrence of `pat` starts at any of the characters of `a` in `a + b`. */
  predicate NoMatchIn(a: string, b: string, pat: string)
    decreases |a|
  {
    a == [] || (!StartsWith(a + b, pat) && NoMatchIn(a[1..], b, pat))
  }

  /** A string without the first character of `pat` holds no start of `pat`. */
  lemma {:induction false} NoFirstChar(a: string, b: string, pat: string)
    requires pat != [] && pat[0] !in a
    ensures NoMatchIn(a, b, pat)
    decreases |a|
  {
    if a != [] {
      assert (a + b)[0] == a[0];
      assert !StartsWith(a + b, pat) by {
        if |pat| <= |a + b| {
          assert (a + b)[..|pat|][0] == a[0];
        }
      }
      assert pat[0] !in a[1..] by {
        forall c | c in a[1..]
          ensures c in a
        {
        }
      }
      NoFirstChar(a[1..], b, pat);
    }
  }

  /** No occurrence of `pat` starts inside `a`, so replacing in `a + b` leaves `a` as it is. */
  lemma {:induction false} ReplaceAfter(a: string, b: string, pat: string, rep: string)
    requires pat != [] && NoMatchIn(a, b, pat)
    ensures ReplaceAll(a + b, pat, rep) == a + ReplaceAll(b, pat, rep)
    decreases |a|
  {
    if a != [] {
      var s := a + b;
      assert s[1..] == a[1..] + b;
      assert ReplaceAll(s, pat, rep) == [s[0]] + ReplaceAll(s[1..], pat, rep);
      ReplaceAfter(a[1..], b, pat, rep);
      assert [s[0]] + (a[1..] + ReplaceAll(b, pat, rep)) == a + ReplaceAll(b, pat, rep);
    } else {
      assert a + b == b;
    }
  }

  /** Replacing a single character by nothing deletes exactly that character. */
  lemma {:induction false} RemoveChar(s: string, c: char)
    ensures c !in ReplaceAll(s, [c], [])
    ensures forall d :: d != c ==> multiset(ReplaceAll(s, [c], []))[d] == multiset(s)[d]
    decreases |s|
  {
    if s != [] {
      RemoveChar(s[1..], c);
      assert s == [s[0]] + s[1..];
      if s[0] == c {
        assert StartsWith(s, [c]);
        assert ReplaceAll(s, [c], []) == ReplaceAll(s[1..], [c], []);
      } else {
        assert !StartsWith(s, [c]);
      }
    }
  }

  /** Python's `s.split(sep)` for a one-character separator. */
  function Split(s: string, sep: char): (r: seq<string>)
    ensures |r| >= 1
    ensures forall i :: 0 <= i < |r| ==> sep !in r[i]
  {
    if s == [] then [[]]
    else
      var rest := Split(s[1..], sep);
      if s[0] == sep then [[]] + rest else [[s[0]] + rest[0]] + rest[1..]
  }

  /** `sep.join(parts)`. */
  function Join(parts: seq<string>, sep: char): string
    requires |parts| >= 1
  {
    if |parts| == 1 then parts[0] else parts[0] + [sep] + Join(parts[1..], sep)
  }

  lemma {:induction false} JoinSplit(s: string, sep: char)
    ensures Join(Split(s, sep), sep) == s
  {
    if s != [] {
      var rest := Split(s[1..], sep);
      JoinSplit(s[1..], sep);
      if s[0] != sep {
        var r := Split(s, sep);
        if |rest| == 1 {
          assert r == [[s[0]] + rest[0]];
        } else {
          assert r[1..] == rest[1..];
          assert Join(rest, sep) == rest[0] + [sep] + Join(rest[1..], sep);
        }
        assert s == [s[0]] + s[1..];
      }
    }
  }

  lemma {:induction false} SplitJoin(parts: seq<string>, sep: char)
    requires |parts| >= 1
    requires forall i :: 0 <= i < |parts| ==> sep !in parts[i]
    ensures Split(Join(parts, sep), sep) == parts
    decreases |parts|, |parts[0]|
  {
    var p := parts[0];
    if p == [] {
      if |parts| > 1 {
        SplitJoin(parts[1..], sep);
        assert Join(parts, sep) == [sep] + Join(parts[1..], sep);
        assert Join(parts, sep)[1..] == Join(parts[1..], sep);
      }
    } else {
      var tail := [p[1..]] + parts[1..];
      assert sep !in tail[0] by { assert forall x :: x in p[1..] ==> x in p; }
      SplitJoin(tail, sep);
      var j := Join(parts, sep);
      if |parts| == 1 {
        assert j == p && j[1..] == Join(tail, sep);
      } else {
        assert j == [p[0]] + (p[1..] + [sep] + Join(parts[1..], sep));
        assert j[1..] == Join(tail, sep);
      }
      assert j[0] == p[0] && j[0] != sep;
      assert [p[0]] + tail[0] == p;
      assert [[p[0]] + tail[0]] + tail[1..] == parts;
    }
  }

  function DigitChar(d: nat): char
    requires d < 10
  {
    ('0' as int + d) as char
  }

  function DigitValue(c: char): nat
    requires IsDigit(c)
  {
    (c as int - '0' as int) as nat
  }

  /** Python's `str(n)` for a natural number: decimal, no leading zeros. */
  function NatToString(n: nat): (r: string)
    ensures |r| >= 1 && AllDigits(r)
    ensures r[0] == '0' ==> n == 0
  {
    if n < 10 then [DigitChar(n)] else NatToString(n / 10) + [DigitChar(n % 10)]
  }

  /** Python's `str(i)` for an integer. */
  function IntToString(i: int): string {
    if i < 0 then "-" + NatToString(-i) else NatToString(i)
  }

  /** The value of a string of decimal digits, the empty string being 0; a character
      that is not a digit counts as 0 (callers check `AllDigits` first). */
  function DigitsValue(s: string): nat {
    if s == [] then 0
    else 10 * DigitsValue(s[..|s| - 1]) + (if IsDigit(s[|s| - 1]) then DigitValue(s[|s| - 1]) else 0)
  }

  lemma {:induction false} DigitsOfNat(n: nat)
    ensures DigitsValue(NatToString(n)) == n
  {
    var r := NatToString(n);
    if n >= 10 {
      DigitsOfNat(n / 10);
      assert r[..|r| - 1] == NatToString(n / 10);
    }
  }

  /** `x` divided by ten `k` times: the value of `k` decimal places. */
  function ScaleDown(x: real, k: nat): real {
    if k == 0 then x else ScaleDown(x, k - 1) / 10.0
  }

  /** Splits an optional leading sign off `t`. */
  function Sign(t: string): (bool, string) {
    if t != [] && (t[0] == '-' || t[0] == '+') then (t[0] == '-', t[1..]) else (false, t)
  }

  /** Python's `int(s)` for a string: whitespace around an optionally signed run of ASCII
      digits. None stands for the ValueError `int` raises. */
  function ParseInt(s: string): Option<int> {
    var (neg, body) := Sign(Strip(s));
    if body != [] && AllDigits(body) then
      Some(if neg then -(DigitsValue(body) as int) else DigitsValue(body))
    else None
  }

  /** Python's `float(s)` for a string written in positional decimal notation: whitespace
      around an optionally signed `digits`, `digits.`, `.digits` or `digits.digits`.
      None stands for the ValueError `float` raises. */
  function ParseFloat(s: string): Option<real> {
    var (neg, body) := Sign(Strip(s));
    var dot := if '.' in body then IndexOf(body, '.') else |body|;
    var whole := body[..dot];
    var frac := if dot < |body| then body[dot + 1..] else [];
    if AllDigits(whole) && AllDigits(frac) && whole + frac != [] then
      var m := DigitsValue(whole) as real + ScaleDown(DigitsValue(frac) as real, |frac|);
      Some(if neg then -m else m)
    else None
  }

  function IndexOf(s: string, c: char): (i: nat)
    requires c in s
    ensures i < |s| && s[i] == c && c !in s[..i]
  {
    if s[0] == c then 0 else 1 + IndexOf(s[1..], c)
  }

  lemma IntToStringShape(i: int)
    ensures Sign(IntToString(i)) == (i < 0, NatToString(if i < 0 then -i else i))
  {
    var n := NatToString(if i < 0 then -i else i);
    assert n[0] != '-' && n[0] != '+' by { assert IsDigit(n[0]); }
    if i < 0 {
      assert IntToString(i)[1..] == n;
    }
  }

  lemma StripDigits(s: string)
    requires s != [] && (AllDigits(s) || (s[0] == '-' && AllDigits(s[1..])))
    ensures Strip(s) == s
  {
    assert !IsSpace(s[0]);
    assert !IsSpace(s[|s| - 1]) by { if |s| > 1 { assert IsDigit(s[1..][|s| - 2]); } }
  }

  /** `int(str(i)) == i`. */
  lemma ParseIntOfString(i: int)
    ensures ParseInt(IntToString(i)) == Some(i)
  {
    var n := if i < 0 then -i else i;
    var t := IntToString(i);
    StripDigits(t);
    IntToStringShape(i);
    DigitsOfNat(n);
  }

  /** `float` of an optionally negated run of digits is its decimal value. */
  lemma ParseFloatOfDigits(t: string, neg: bool, body: string)
    requires body != [] && AllDigits(body) && Strip(t) == t && Sign(t) == (neg, body)
    ensures ParseFloat(t) == Some(if neg then -(DigitsValue(body) as real) else DigitsValue(body) as real)
  {
    assert '.' !in body;
    assert body[..|body|] == body;
    assert body + [] == body;
  }

  /** `float(str(i)) == i` for an integer `i`. */
  lemma ParseFloatOfString(i: int)
    ensures ParseFloat(IntToString(i)) == Some(i as real)
  {
    var n := if i < 0 then -i else i;
    var t := IntToString(i);
    StripDigits(t);
    IntToStringShape(i);
    DigitsOfNat(n);
    ParseFloatOfDigits(t, i < 0, NatToString(n));
  }
}
