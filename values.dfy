/**
  The values the crawler keeps in MongoDB documents and in request meta: JSON-like scalars, the
  `(name, count)` tag tuples, lists and nested dicts.
 */
module Values {
  import opened Wrappers
  import opened Strings

  datatype Value =
    | Null
    | Text(s: string)
    | Number(n: int)
    | Pair(name: string, count: int)  // a `(summaryName, summaryCount)` tuple
    | List(items: seq<Value>)
    | Record(fields: map<string, Value>)

  /** A document or a meta dict: field name to value. */
  type Fields = map<string, Value>

  /** `d[key]`: the value, or KeyError when the key is missing. */
  function Lookup(d: Fields, key: string): (r: Result<Value>)
    ensures r.Ok? <==> key in d
    ensures r.Ok? ==> r.value == d[key]
    ensures r.Err? ==> r.error == KeyError(key)
  {
    if key in d then Ok(d[key]) else Err(KeyError(key))
  }

  /** `'{}'.format(v)` for the scalars the crawler formats into URLs; composite values are not rendered. */
  function Format(v: Value): (r: Result<string>)
    ensures r.Ok? <==> v.Text? || v.Number? || v.Null?
    ensures v.Text? ==> r == Ok(v.s)
    ensures v.Number? ==> r == Ok(ShowInt(v.n))
  {
    match v
    case Text(s) => Ok(s)
    case Number(n) => Ok(ShowInt(n))
    case Null => Ok("None")
    case _ => Err(TypeError)
  }

  /** `v + '...'`: only a string concatenates with a string. */
  function AsText(v: Value): (r: Result<string>)
    ensures r.Ok? <==> v.Text?
    ensures r.Ok? ==> r.value == v.s
  {
    if v.Text? then Ok(v.s) else Err(TypeError)
  }

  /** `extract_int`'s result as stored: the number, or None. */
  function OptionalNumber(o: Option<nat>): (v: Value)
    ensures o.Some? <==> v.Number?
    ensures o.Some? ==> v.n == o.value
    ensures o.None? ==> v == Null
  {
    if o.Some? then Number(o.value) else Null
  }
}
