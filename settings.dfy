/**
  The crawler's settings that the spiders read: the host every path is resolved against, the
  cities to crawl, and the cookie header, written as one string and turned into a dictionary.
 */
module Settings {
  import opened Wrappers
  import opened Strings

  /** `HOST`. */
  const Host := "http://www.dianping.com"

  /** `CITY_IDS`: the (city id, city name) pairs the food spider starts from. */
  const CityIds: seq<(int, string)> := [(2, "beijing")]

  /** `tuple(p.strip().split('=', 1))`: the key before the first '=' and the rest; None for a 1-tuple. */
  function CookiePair(p: string): (r: Option<(string, string)>)
    ensures r.None? <==> '=' !in Strip(p)
    ensures r.Some? ==> r.value.0 + "=" + r.value.1 == Strip(p) && '=' !in r.value.0
  {
    SplitOnce(Strip(p), '=')
  }

  /** The list comprehension: one (possibly 1-tuple) split per part, in order. */
  function Tuples(parts: seq<string>): (ts: seq<Option<(string, string)>>)
    ensures |ts| == |parts|
    ensures forall k :: 0 <= k < |parts| ==> ts[k] == CookiePair(parts[k])
  {
    seq(|parts|, k requires 0 <= k < |parts| => CookiePair(parts[k]))
  }

  /** `dict(tuples)`: later pairs overwrite earlier ones; a 1-tuple makes it raise ValueError. */
  function Dict(ts: seq<Option<(string, string)>>): (r: Result<map<string, string>>)
    ensures r.Ok? <==> forall k :: 0 <= k < |ts| ==> ts[k].Some?
    ensures r.Err? ==> r.error == ValueError
  {
    if ts == [] then Ok(map[])
    else
      match Dict(ts[..|ts| - 1])
      case Err(e) => Err(e)
      case Ok(m) =>
        match ts[|ts| - 1]
        case None => Err(ValueError)
        case Some(kv) => Ok(m[kv.0 := kv.1])
  }

  /** `dict([tuple(p.strip().split('=', 1)) for p in COOKIES.split(';')])`. */
  function ParseCookies(s: string): Result<map<string, string>> {
    Dict(Tuples(Split(s, ';')))
  }

  /** The parse succeeds exactly when every ';'-separated part, stripped, holds an '='. */
  lemma ParseCookiesOk(s: string)
    ensures ParseCookies(s).Ok? <==> forall p :: p in Split(s, ';') ==> '=' in Strip(p)
  {
    AllPairs(Split(s, ';'));
  }

  /** Every part splits into a pair exactly when every stripped part holds an '='. */
  lemma AllPairs(parts: seq<string>)
    ensures Dict(Tuples(parts)).Ok? <==> forall p :: p in parts ==> '=' in Strip(p)
  {
    var ts := Tuples(parts);
    if Dict(ts).Ok? {
      forall p | p in parts ensures '=' in Strip(p) {
        var k :| 0 <= k < |parts| && parts[k] == p;
        assert ts[k] == CookiePair(p);
      }
    } else {
      var k :| 0 <= k < |ts| && ts[k].None?;
      assert ts[k] == CookiePair(parts[k]);
      assert parts[k] in parts;
    }
  }

  /** The dictionary has exactly the keys of the pairs. */
  lemma {:induction false} DictKeys(ts: seq<Option<(string, string)>>, key: string)
    requires Dict(ts).Ok?
    ensures key in Dict(ts).value <==> exists k :: 0 <= k < |ts| && ts[k].value.0 == key
  {
    if ts != [] {
      var n := |ts| - 1;
      var init := ts[..n];
      DictKeys(init, key);
      if key in Dict(ts).value && key != ts[n].value.0 {
        var k :| 0 <= k < |init| && init[k].value.0 == key;
        assert ts[k] == init[k];
      }
      if exists k :: 0 <= k < |ts| && ts[k].value.0 == key {
        var k :| 0 <= k < |ts| && ts[k].value.0 == key;
        if k < n {
          assert init[k] == ts[k];
        }
      }
    }
  }

  /** A repeated key resolves to the value of its last occurrence. */
  lemma {:induction false} LastOccurrenceWins(ts: seq<Option<(string, string)>>, k: nat)
    requires Dict(ts).Ok? && k < |ts|
    requires forall j :: k < j < |ts| ==> ts[j].value.0 != ts[k].value.0
    ensures ts[k].value.0 in Dict(ts).value
    ensures Dict(ts).value[ts[k].value.0] == ts[k].value.1
  {
    var n := |ts| - 1;
    if k < n {
      var init := ts[..n];
      assert init[k] == ts[k];
      forall j | k < j < |init| ensures init[j].value.0 != init[k].value.0 {
        assert init[j] == ts[j];
      }
      LastOccurrenceWins(init, k);
    }
  }

  /** Splitting a string that ends in the separator gives an empty last part. */
  lemma {:induction false} SplitEndsEmpty(s: string, sep: char)
    ensures |Split(s + [sep], sep)| >= 2
    ensures Split(s + [sep], sep)[|Split(s + [sep], sep)| - 1] == []
  {
    if s == [] {
      assert Split([] + [sep], sep) == [[]] + Split([], sep);
    } else {
      assert (s + [sep])[1..] == s[1..] + [sep];
      SplitEndsEmpty(s[1..], sep);
    }
  }

  /** A trailing ';' leaves an empty part without '=', so the parse raises ValueError. */
  lemma TrailingSemicolonFails(s: string)
    ensures ParseCookies(s + ";") == Err(ValueError)
  {
    SplitEndsEmpty(s, ';');
    var parts := Split(s + ";", ';');
    assert Strip(parts[|parts| - 1]) == [];
    assert Tuples(parts)[|parts| - 1].None?;
  }

  /**
    A cookie string of one part holding an '=' parses to one entry: the stripped text before the
    first '=' maps to everything after it, later '=' signs included.
   */
  lemma OnePart(p: string)
    requires ';' !in p && '=' in Strip(p)
    ensures ParseCookies(p).Ok?
    ensures ParseCookies(p).value == map[CookiePair(p).value.0 := CookiePair(p).value.1]
    ensures CookiePair(p).value.0 + "=" + CookiePair(p).value.1 == Strip(p) && '=' !in CookiePair(p).value.0
  {
    SplitNoSep(p, ';');
    var kv := CookiePair(p).value;
    assert Tuples([p]) == [Some(kv)];
    assert Dict([Some(kv)]) == Ok(map[kv.0 := kv.1]);
  }
}
