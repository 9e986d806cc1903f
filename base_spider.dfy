/**
  The helpers every spider shares: the integer scanner `extract_int` (with the value it computes as
  written and the value it was meant to compute), the first-match search `find_classes_exists`
  and `aa2urls`, which reads the `href` of each anchor.
 */
module BaseSpider {
  import opened Wrappers
  import opened Strings

  // ---------------------------------------------------------------- extract_int

  /** The first index at or after `from` that holds a digit, or `|s|` when there is none. */
  function FirstDigitFrom(s: string, from: nat): (i: nat)
    requires from <= |s|
    ensures from <= i <= |s|
    ensures forall k :: from <= k < i ==> !IsDigit(s[k])
    ensures i < |s| ==> IsDigit(s[i])
    decreases |s| - from
  {
    if from == |s| || IsDigit(s[from]) then from else FirstDigitFrom(s, from + 1)
  }

  /** The end of the maximal run of digits that starts at `from`. */
  function RunEnd(s: string, from: nat): (e: nat)
    requires from <= |s|
    ensures from <= e <= |s|
    ensures forall k :: from <= k < e ==> IsDigit(s[k])
    ensures e < |s| ==> !IsDigit(s[e])
    decreases |s| - from
  {
    if from == |s| || !IsDigit(s[from]) then from else RunEnd(s, from + 1)
  }

  /**
    Python's `int()` on the slices `extract_int` can hand it: a run of digits, the empty string,
    or a single character that is not a digit. Only the first parses.
   */
  function ParseInt(s: string): (r: Option<nat>)
    ensures r.Some? <==> s != [] && AllDigits(s)
  {
    if s != [] && AllDigits(s) then Some(Value(s)) else None
  }

  /** What `int()` reads is the number whose decimal rendering is the slice without its leading zeros. */
  lemma ParseIntValue(s: string)
    requires s != [] && AllDigits(s)
    ensures ParseInt(s).Some? && Show(ParseInt(s).value) == StripLeadingZeros(s)
  {
    ShowOfValue(s);
  }

  /** `int()` reads back every number as it is written in decimal. */
  lemma ParseIntShow(n: nat)
    ensures ParseInt(Show(n)) == Some(n)
  {
    ValueOfShow(n);
  }

  /**
    What `extract_int` returns, as written: the value of the first run of digits, except that a
    run of two or more digits that reaches the end of the text loses its last digit (the slice
    ends at the last value of the loop variable, not after it).
   */
  function ExtractIntAsWritten(text: string): (r: Option<nat>)
    ensures r.None? <==> forall k :: 0 <= k < |text| ==> !IsDigit(text[k])
  {
    var i := FirstDigitFrom(text, 0);
    if i == |text| then None
    else
      var e := RunEnd(text, i);
      if e < |text| || e == i + 1 then Some(Value(text[i..e])) else Some(Value(text[i..e - 1]))
  }

  /** What `extract_int` is meant to return: the value of the first maximal run of digits. */
  function ExtractIntIntended(text: string): (r: Option<nat>)
    ensures r.None? <==> forall k :: 0 <= k < |text| ==> !IsDigit(text[k])
  {
    var i := FirstDigitFrom(text, 0);
    if i == |text| then None else Some(Value(text[i..RunEnd(text, i)]))
  }

  /**
    `extract_int(text)`, step by step: the first loop leaves `i` at the first digit (or at the last
    index when there is none), the second leaves `j` at the first non-digit after it, or at the
    last index it visited when the run reaches the end of the text.
   */
  method ExtractInt(text: string) returns (r: Option<nat>)
    ensures r == ExtractIntAsWritten(text)
  {
    var n := |text|;
    var i: int := -1;
    var k := 0;
    ghost var found := false;
    while k < n
      invariant 0 <= k <= n
      invariant i == k - 1
      invariant forall m :: 0 <= m < k ==> !IsDigit(text[m])
    {
      i := k;
      if IsDigit(text[i]) {
        found := true;
        break;
      }
      k := k + 1;
    }
    assert found ==> 0 <= i < n && IsDigit(text[i]) && forall m :: 0 <= m < i ==> !IsDigit(text[m]);
    assert !found ==> i == n - 1 && forall m :: 0 <= m < n ==> !IsDigit(text[m]);
    var j: int := if i >= 0 then n else -1;
    var m := i + 1;
    ghost var stopped := false;
    while m < n
      invariant i + 1 <= m <= n
      invariant j == if m == i + 1 then (if i >= 0 then n else -1) else m - 1
      invariant forall q :: i + 1 <= q < m ==> IsDigit(text[q])
    {
      j := m;
      if !IsDigit(text[j]) {
        stopped := true;
        break;
      }
      m := m + 1;
    }
    assert stopped ==> i + 1 <= j < n && !IsDigit(text[j]) && forall q :: i + 1 <= q < j ==> IsDigit(text[q]);
    assert !stopped ==> m == n && forall q :: i + 1 <= q < n ==> IsDigit(text[q]);
    assert !stopped && i >= 0 ==> j == if i + 1 == n then n else n - 1;
    if i < 0 {
      // text[-1:-1] is the empty string: int('') raises ValueError
      r := None;
    } else {
      r := ParseInt(text[i..j]);
      if !found {
        NoDigitAsWritten(text);
      } else if stopped {
        RunStopsAsWritten(text, i, j);
      } else {
        RunReachesEndAsWritten(text, i, j);
      }
    }
  }

  /** Without a digit the first loop leaves `i` at the last index and `j` at the end: one non-digit character. */
  lemma NoDigitAsWritten(text: string)
    requires text != [] && forall m :: 0 <= m < |text| ==> !IsDigit(text[m])
    ensures ParseInt(text[|text| - 1..|text|]) == ExtractIntAsWritten(text) == None
  {
    assert text[|text| - 1..|text|][0] == text[|text| - 1];
  }

  /** A run that stops before the end of the text is read whole. */
  lemma RunStopsAsWritten(text: string, i: nat, j: nat)
    requires i < j < |text| && IsDigit(text[i]) && !IsDigit(text[j])
    requires forall m :: 0 <= m < i ==> !IsDigit(text[m])
    requires forall q :: i + 1 <= q < j ==> IsDigit(text[q])
    ensures ParseInt(text[i..j]) == ExtractIntAsWritten(text)
  {
    RunEndOf(text, i, j);
    FirstDigitOf(text, i);
  }

  /** A run that reaches the end of the text ends where the second loop's variable last stood. */
  lemma RunReachesEndAsWritten(text: string, i: nat, j: nat)
    requires i < |text| && IsDigit(text[i])
    requires forall m :: 0 <= m < i ==> !IsDigit(text[m])
    requires forall q :: i + 1 <= q < |text| ==> IsDigit(text[q])
    requires j == if i + 1 == |text| then |text| else |text| - 1
    ensures i <= j <= |text|
    ensures ParseInt(text[i..j]) == ExtractIntAsWritten(text)
  {
    RunEndOf(text, i, |text|);
    FirstDigitOf(text, i);
  }

  lemma FirstDigitOf(text: string, i: nat)
    requires i < |text| && IsDigit(text[i]) && forall m :: 0 <= m < i ==> !IsDigit(text[m])
    ensures FirstDigitFrom(text, 0) == i
  {
    FirstDigitAt(text, 0, i);
  }

  lemma {:induction false} FirstDigitAt(text: string, from: nat, i: nat)
    requires from <= i < |text| && IsDigit(text[i]) && forall m :: from <= m < i ==> !IsDigit(text[m])
    ensures FirstDigitFrom(text, from) == i
    decreases i - from
  {
    if from < i {
      FirstDigitAt(text, from + 1, i);
    }
  }

  /** On a digit-free prefix followed by a rendered number that ends the text, as written. */
  lemma ExtractIntAsWrittenAtEnd(prefix: string, n: nat)
    requires forall k :: 0 <= k < |prefix| ==> !IsDigit(prefix[k])
    ensures ExtractIntAsWritten(prefix + Show(n)) == Some(if n < 10 then n else n / 10)
  {
    var s := Show(n);
    var text := prefix + s;
    var p := |prefix|;
    assert forall k :: p <= k < |text| ==> text[k] == s[k - p];
    TrailingRunAsWritten(text, p);
    if n < 10 {
      assert text[p..|text|] == s;
      ValueOfShow(n);
    } else {
      assert text[p..|text| - 1] == s[..|s| - 1];
      ShowDropLast(n);
    }
  }

  /** A text whose first digit starts a run that reaches its end: the last digit of a longer run is lost. */
  lemma TrailingRunAsWritten(text: string, p: nat)
    requires p < |text|
    requires forall k :: 0 <= k < p ==> !IsDigit(text[k])
    requires forall k :: p <= k < |text| ==> IsDigit(text[k])
    ensures ExtractIntAsWritten(text)
      == Some(Value(if |text| == p + 1 then text[p..|text|] else text[p..|text| - 1]))
  {
    FirstDigitOf(text, p);
    RunEndOf(text, p, |text|);
  }

  /** The corrected scanner reads the whole number, wherever it stands after a digit-free prefix. */
  lemma ExtractIntIntendedShow(prefix: string, n: nat, suffix: string)
    requires forall k :: 0 <= k < |prefix| ==> !IsDigit(prefix[k])
    requires suffix == [] || !IsDigit(suffix[0])
    ensures ExtractIntIntended(prefix + Show(n) + suffix) == Some(n)
  {
    var text := prefix + Show(n) + suffix;
    var s := Show(n);
    FirstDigitIsAfter(prefix, s, suffix);
    assert RunEnd(text, |prefix|) == |prefix| + |s| by {
      RunEndOf(text, |prefix|, |prefix| + |s|);
    }
    assert text[|prefix|..|prefix| + |s|] == s;
    ValueOfShow(n);
  }

  /** The as-written scanner agrees with the corrected one whenever a non-digit follows the number. */
  lemma ExtractIntAgreesBeforeNonDigit(prefix: string, n: nat, suffix: string)
    requires forall k :: 0 <= k < |prefix| ==> !IsDigit(prefix[k])
    requires suffix != [] && !IsDigit(suffix[0])
    ensures ExtractIntAsWritten(prefix + Show(n) + suffix) == Some(n)
  {
    var text := prefix + Show(n) + suffix;
    var s := Show(n);
    FirstDigitIsAfter(prefix, s, suffix);
    RunEndOf(text, |prefix|, |prefix| + |s|);
    assert text[|prefix|..|prefix| + |s|] == s;
    ValueOfShow(n);
  }

  /** The smallest input that shows the lost digit: "12" scans as 1. */
  lemma ExtractIntTwelve()
    ensures ExtractIntAsWritten("12") == Some(1)
    ensures ExtractIntIntended("12") == Some(12)
  {
    ExtractIntAsWrittenAtEnd("", 12);
    ExtractIntIntendedShow("", 12, "");
    assert Show(12) == "12";
    assert "" + "12" + "" == "12";
  }

  lemma FirstDigitIsAfter(prefix: string, s: string, suffix: string)
    requires forall k :: 0 <= k < |prefix| ==> !IsDigit(prefix[k])
    requires s != [] && AllDigits(s)
    ensures FirstDigitFrom(prefix + s + suffix, 0) == |prefix|
  {
    var text := prefix + s + suffix;
    assert forall k :: 0 <= k < |prefix| ==> text[k] == prefix[k];
    assert IsDigit(text[|prefix|]);
  }

  lemma RunEndOf(text: string, from: nat, e: nat)
    requires from <= e <= |text|
    requires forall k :: from <= k < e ==> IsDigit(text[k])
    requires e < |text| ==> !IsDigit(text[e])
    ensures RunEnd(text, from) == e
  {
  }

  lemma RunEndAtEnd(text: string, from: nat)
    requires from <= |text|
    requires forall k :: from <= k < |text| ==> IsDigit(text[k])
    ensures RunEnd(text, from) == |text|
  {
    RunEndOf(text, from, |text|);
  }

  // ---------------------------------------------------------------- find_classes_exists

  /** `r` is the least index whose selector matches in `d`, or nothing when none does. */
  ghost predicate IsFirstMatch(d: string -> bool, classes: seq<string>, r: Option<nat>) {
    match r
    case None => forall k :: 0 <= k < |classes| ==> !d(classes[k])
    case Some(i) => i < |classes| && d(classes[i]) && forall k :: 0 <= k < i ==> !d(classes[k])
  }

  /** `find_classes_exists(d, classes)`: `d` answers whether a selector matches anything in the page. */
  method FindClassesExists(d: string -> bool, classes: seq<string>) returns (r: Option<nat>)
    ensures IsFirstMatch(d, classes, r)
    ensures r.None? <==> forall k :: 0 <= k < |classes| ==> !d(classes[k])
  {
    var i := 0;
    while i < |classes|
      invariant 0 <= i <= |classes|
      invariant forall k :: 0 <= k < i ==> !d(classes[k])
    {
      if d(classes[i]) {
        return Some(i);
      }
      i := i + 1;
    }
    return None;
  }

  // ---------------------------------------------------------------- aa2urls

  /** An anchor element, seen through its attributes. */
  type Anchor = map<string, string>

  /** The link attribute of an anchor. */
  const Href := "href"

  /** `a.attrib[key]` of every anchor, in anchor order, or KeyError when an anchor lacks the attribute. */
  function Attrs(aa: seq<Anchor>, key: string): (r: Result<seq<string>>)
    ensures r.Ok? <==> forall k :: 0 <= k < |aa| ==> key in aa[k]
    ensures r.Ok? ==> |r.value| == |aa| && forall k :: 0 <= k < |aa| ==> r.value[k] == aa[k][key]
    ensures r.Err? ==> r.error == KeyError(key)
  {
    if aa == [] then Ok([])
    else
      match Attrs(aa[..|aa| - 1], key)
      case Err(e) => Err(e)
      case Ok(vs) =>
        if key in aa[|aa| - 1] then Ok(vs + [aa[|aa| - 1][key]]) else Err(KeyError(key))
  }

  /** `aa2urls(aa)`: reads `a.attrib['href']` of each anchor in a loop; a missing attribute raises KeyError. */
  method Aa2Urls(aa: seq<Anchor>) returns (r: Result<seq<string>>)
    ensures r == Attrs(aa, Href)
  {
    var urls: seq<string> := [];
    var i := 0;
    while i < |aa|
      invariant 0 <= i <= |aa|
      invariant forall k :: 0 <= k < i ==> Href in aa[k]
      invariant |urls| == i && forall k :: 0 <= k < i ==> urls[k] == aa[k][Href]
    {
      if Href !in aa[i] {
        return Err(KeyError(Href));
      }
      urls := urls + [aa[i][Href]];
      i := i + 1;
    }
    assert urls == Attrs(aa, Href).value;
    return Ok(urls);
  }
}
