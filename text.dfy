/**
  String operations of Python's `str` that the crawler relies on: decimal digits and `int()`,
  `str.split`, `str.split(sep, 1)`, `str.strip()`, `str.startswith` and `str.rsplit('/', 1)[-1]`.
  Strings are sequences of characters.
 */
module Strings {
  import opened Wrappers

  // ---------------------------------------------------------------- digits

  /** A decimal digit ('0' to '9'). */
  predicate IsDigit(c: char) {
    '0' <= c <= '9'
  }

  predicate AllDigits(s: string) {
    forall k :: 0 <= k < |s| ==> IsDigit(s[k])
  }

  function DigitValue(c: char): (d: nat)
    requires IsDigit(c)
    ensures d < 10
  {
    (c as int) - ('0' as int)
  }

  function DigitChar(d: nat): (c: char)
    requires d < 10
    ensures IsDigit(c) && DigitValue(c) == d
  {
    (('0' as int) + d) as char
  }

  /** `int(s)` for a non-empty run of decimal digits (leading zeros allowed). */
  function Value(s: string): nat
    requires AllDigits(s)
    decreases |s|
  {
    if s == [] then 0 else 10 * Value(s[..|s| - 1]) + DigitValue(s[|s| - 1])
  }

  /** `str(n)`: the decimal rendering of a natural number, without leading zeros. */
  function Show(n: nat): (s: string)
    ensures AllDigits(s) && |s| >= 1
    ensures n >= 10 ==> |s| >= 2
  {
    if n < 10 then [DigitChar(n)] else Show(n / 10) + [DigitChar(n % 10)]
  }

  /** Reading back what `Show` renders gives the number again. */
  lemma {:induction false} ValueOfShow(n: nat)
    ensures Value(Show(n)) == n
  {
    if n >= 10 {
      var s := Show(n);
      assert s[..|s| - 1] == Show(n / 10);
      ValueOfShow(n / 10);
    }
  }

  /** `s` without its leading zeros, keeping the last digit: the canonical spelling of its value. */
  function StripLeadingZeros(s: string): (r: string)
    ensures |r| <= |s| && r == s[|s| - |r|..]
    ensures s != [] ==> r != [] && (|r| == 1 || r[0] != '0')
  {
    if |s| > 1 && s[0] == '0' then StripLeadingZeros(s[1..]) else s
  }

  /** A leading zero does not change the value. */
  lemma {:induction false} ValueLeadingZero(t: string)
    requires AllDigits(t)
    ensures AllDigits("0" + t) && Value("0" + t) == Value(t)
  {
    var s := "0" + t;
    if t != [] {
      assert s[..|s| - 1] == "0" + t[..|t| - 1];
      ValueLeadingZero(t[..|t| - 1]);
    }
  }

  /** A digit string that does not start with '0' has a positive value. */
  lemma {:induction false} ValuePositive(s: string)
    requires AllDigits(s) && s != [] && s[0] != '0'
    ensures Value(s) > 0
  {
    if |s| > 1 {
      ValuePositive(s[..|s| - 1]);
    }
  }

  /** Appending a digit to the rendering of a positive number renders ten times it plus the digit. */
  lemma ShowAppendDigit(a: nat, c: char)
    requires a > 0 && IsDigit(c)
    ensures Show(10 * a + DigitValue(c)) == Show(a) + [c]
  {
    var n := 10 * a + DigitValue(c);
    assert n / 10 == a && n % 10 == DigitValue(c);
    assert DigitChar(DigitValue(c)) == c;
  }

  /** Rendering the value of a digit string gives the string back, without its leading zeros. */
  lemma {:induction false} ShowOfValue(s: string)
    requires AllDigits(s) && s != []
    ensures Show(Value(s)) == StripLeadingZeros(s)
    decreases |s|
  {
    if |s| > 1 && s[0] == '0' {
      ValueLeadingZero(s[1..]);
      assert "0" + s[1..] == s;
      ShowOfValue(s[1..]);
    } else {
      ShowOfCanonical(s);
    }
  }

  /** A digit string without leading zeros is the rendering of its value. */
  lemma {:induction false} ShowOfCanonical(s: string)
    requires AllDigits(s) && s != [] && (|s| == 1 || s[0] != '0')
    ensures Show(Value(s)) == s
    decreases |s|
  {
    var init := s[..|s| - 1];
    if |s| > 1 {
      ShowOfCanonical(init);
      ValuePositive(init);
      ShowAppendDigit(Value(init), s[|s| - 1]);
      assert init + [s[|s| - 1]] == s;
    } else {
      assert DigitChar(DigitValue(s[0])) == s[0];
    }
  }

  /** Dropping the last digit of a rendering divides the number by ten. */
  lemma ShowDropLast(n: nat)
    requires n >= 10
    ensures var s := Show(n); AllDigits(s[..|s| - 1]) && Value(s[..|s| - 1]) == n / 10
  {
    var s := Show(n);
    assert s[..|s| - 1] == Show(n / 10);
    ValueOfShow(n / 10);
  }

  /** `str(i)` for any integer: a minus sign before the rendering of a negative number. */
  function ShowInt(i: int): (s: string)
  {
    if i >= 0 then Show(i) else "-" + Show(-i)
  }

  // ---------------------------------------------------------------- whitespace

  /** Python's `str.isspace` on one character. */
  predicate IsSpace(c: char) {
    ('\U{0009}' <= c <= '\U{000D}') || ('\U{001C}' <= c <= '\U{0020}')
    || c == '\U{0085}' || c == '\U{00A0}' || c == '\U{1680}'
    || ('\U{2000}' <= c <= '\U{200A}') || c == '\U{2028}' || c == '\U{2029}'
    || c == '\U{202F}' || c == '\U{205F}' || c == '\U{3000}'
  }

  function TrimStart(s: string): (r: string)
    ensures |r| <= |s| && r == s[|s| - |r|..]
    ensures forall k :: 0 <= k < |s| - |r| ==> IsSpace(s[k])
    ensures r != [] ==> !IsSpace(r[0])
  {
    if s != [] && IsSpace(s[0]) then TrimStart(s[1..]) else s
  }

  function TrimEnd(s: string): (r: string)
    ensures |r| <= |s| && r == s[..|r|]
    ensures forall k :: |r| <= k < |s| ==> IsSpace(s[k])
    ensures r != [] ==> !IsSpace(r[|r| - 1])
  {
    if s != [] && IsSpace(s[|s| - 1]) then TrimEnd(s[..|s| - 1]) else s
  }

  /** `s.strip()`: whitespace removed from both ends, nothing else touched. */
  function Strip(s: string): (r: string)
    ensures |r| <= |s|
    ensures r != [] ==> !IsSpace(r[0]) && !IsSpace(r[|r| - 1])
    ensures (s == [] || (!IsSpace(s[0]) && !IsSpace(s[|s| - 1]))) ==> r == s
    ensures exists i :: StrippedAt(s, i, r)
  {
    TrimmedBoth(s, TrimStart(s), TrimEnd(TrimStart(s)));
    TrimEnd(TrimStart(s))
  }

  /** Whitespace cut from the front of `s` and then from the back of what is left leaves a slice with only whitespace around it. */
  lemma TrimmedBoth(s: string, t: string, r: string)
    requires |t| <= |s| && t == s[|s| - |t|..]
    requires forall k :: 0 <= k < |s| - |t| ==> IsSpace(s[k])
    requires |r| <= |t| && r == t[..|r|]
    requires forall k :: |r| <= k < |t| ==> IsSpace(t[k])
    ensures StrippedAt(s, |s| - |t|, r)
  {
    var i := |s| - |t|;
    SliceOfSuffix(s, i, t, |r|);
    SpacesAfter(s, i, t, |r|);
  }

  lemma SliceOfSuffix(s: string, i: nat, t: string, m: nat)
    requires i <= |s| && t == s[i..] && m <= |t|
    ensures t[..m] == s[i..i + m]
  {
  }

  /** Spaces at the end of a suffix are spaces at the end of the whole. */
  lemma SpacesAfter(s: string, i: nat, t: string, m: nat)
    requires i <= |s| && t == s[i..] && m <= |t|
    requires forall k :: m <= k < |t| ==> IsSpace(t[k])
    ensures forall k :: i + m <= k < |s| ==> IsSpace(s[k])
  {
    forall k | i + m <= k < |s|
      ensures IsSpace(s[k])
    {
      assert s[k] == t[k - i];
    }
  }

  /** `r` is the slice of `s` that starts at `i`, and everything of `s` around that slice is whitespace. */
  predicate StrippedAt(s: string, i: int, r: string) {
    && 0 <= i && i + |r| <= |s| && r == s[i..i + |r|]
    && (forall k :: 0 <= k < i ==> IsSpace(s[k]))
    && (forall k :: i + |r| <= k < |s| ==> IsSpace(s[k]))
  }

  // ---------------------------------------------------------------- splitting

  /** `s.split(sep)` with an explicit separator: always at least one part, empty parts kept. */
  function Split(s: string, sep: char): (parts: seq<string>)
    ensures |parts| >= 1
    ensures forall i :: 0 <= i < |parts| ==> sep !in parts[i]
  {
    if s == [] then [[]]
    else
      var rest := Split(s[1..], sep);
      if s[0] == sep then [[]] + rest else [[s[0]] + rest[0]] + rest[1..]
  }

  /** `sep.join(parts)`. */
  function Join(parts: seq<string>, sep: char): string
    requires |parts| >= 1
  {
    if |parts| == 1 then parts[0] else parts[0] + [sep] + Join(parts[1..], sep)
  }

  /** Joining the parts of a split gives back the original string. */
  lemma {:induction false} JoinSplit(s: string, sep: char)
    ensures Join(Split(s, sep), sep) == s
  {
    if s != [] {
      var rest := Split(s[1..], sep);
      JoinSplit(s[1..], sep);
      if s[0] != sep {
        if |rest| == 1 {
        } else {
          assert rest == [rest[0]] + rest[1..];
          assert Join(rest, sep) == rest[0] + [sep] + Join(rest[1..], sep);
        }
      }
    }
  }

  /** Splitting a join of separator-free parts gives back the parts. */
  lemma {:induction false} SplitJoin(parts: seq<string>, sep: char)
    requires |parts| >= 1
    requires forall i :: 0 <= i < |parts| ==> sep !in parts[i]
    ensures Split(Join(parts, sep), sep) == parts
  {
    if |parts| == 1 {
      SplitNoSep(parts[0], sep);
    } else {
      SplitJoin(parts[1..], sep);
      SplitPrefix(parts[0], Join(parts[1..], sep), sep);
      assert parts == [parts[0]] + parts[1..];
    }
  }

  lemma {:induction false} SplitNoSep(s: string, sep: char)
    requires sep !in s
    ensures Split(s, sep) == [s]
  {
    if s != [] {
      assert s[0] != sep;
      assert sep !in s[1..] by {
        forall x | x in s[1..] ensures x in s { }
      }
      SplitNoSep(s[1..], sep);
      assert [s[0]] + s[1..] == s;
    }
  }

  lemma {:induction false} SplitPrefix(p: string, t: string, sep: char)
    requires sep !in p
    ensures Split(p + [sep] + t, sep) == [p] + Split(t, sep)
  {
    if p == [] {
      assert p + [sep] + t == [sep] + t;
      assert ([sep] + t)[1..] == t;
    } else {
      assert (p + [sep] + t)[1..] == p[1..] + [sep] + t;
      assert sep !in p[1..] by {
        forall x | x in p[1..] ensures x in p { }
      }
      SplitPrefix(p[1..], t, sep);
      assert (p + [sep] + t)[0] == p[0] != sep;
      assert [p[0]] + p[1..] == p;
    }
  }

  /** `s.split(sep, 1)`: the text before the first separator and the rest, or nothing when there is none. */
  function SplitOnce(s: string, sep: char): (r: Option<(string, string)>)
    ensures r.None? <==> sep !in s
    ensures r.Some? ==> r.value.0 + [sep] + r.value.1 == s && sep !in r.value.0
  {
    if s == [] then None
    else if s[0] == sep then Some(([], s[1..]))
    else
      match SplitOnce(s[1..], sep)
      case None => None
      case Some(kv) => Some(([s[0]] + kv.0, kv.1))
  }

  /** `s.rsplit('/', 1)[-1]`: the text after the last '/', or all of `s` when it has none. */
  function LastSegment(s: string): string {
    if s == [] || s[|s| - 1] == '/' then [] else LastSegment(s[..|s| - 1]) + [s[|s| - 1]]
  }

  /** The last segment is the longest '/'-free tail of `s`: a suffix, preceded by a '/' unless it is all of `s`. */
  lemma {:induction false} LastSegmentTail(s: string)
    ensures var r := LastSegment(s);
      && |r| <= |s| && r == s[|s| - |r|..]
      && '/' !in r
      && (|r| < |s| ==> s[|s| - |r| - 1] == '/')
  {
    if s != [] && s[|s| - 1] != '/' {
      var n := |s| - 1;
      var init := s[..n];
      LastSegmentTail(init);
      var r0 := LastSegment(init);
      assert LastSegment(s) == r0 + [s[n]];
      assert r0 == s[n - |r0|..n];
      assert s[n - |r0|..] == s[n - |r0|..n] + [s[n]];
    }
  }

  /** A '/'-free tail after a '/' (or after nothing) is the last segment. */
  lemma {:induction false} LastSegmentAfterSlash(prefix: string, s: string)
    requires prefix == [] || prefix[|prefix| - 1] == '/'
    requires '/' !in s
    ensures LastSegment(prefix + s) == s
  {
    if s != [] {
      var n := |s| - 1;
      assert (prefix + s)[..|prefix + s| - 1] == prefix + s[..n];
      LastSegmentAfterSlash(prefix, s[..n]);
      assert s[..n] + [s[n]] == s;
    } else {
      assert prefix + s == prefix;
    }
  }

  /** `s.startswith(p)`. */
  predicate StartsWith(s: string, p: string) {
    |p| <= |s| && s[..|p|] == p
  }
}
