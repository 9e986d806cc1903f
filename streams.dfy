/**
  The lazy fan-outs of the review and user spiders: every document of a cursor contributes the
  entries of one of its list fields, and every entry becomes one request. Consumed, such a
  generator yields requests until the first exception, which ends it.
 */
module Streams {
  import opened Wrappers
  import opened Values
  import opened Delta

  /** `doc[field]`, iterated: KeyError when it is missing, TypeError when it is not a list. */
  function EntriesOf(doc: Fields, field: string): (r: Result<seq<Value>>)
    ensures r.Ok? <==> field in doc && doc[field].List?
    ensures r.Ok? ==> r.value == doc[field].items
    ensures field !in doc ==> r == Err(KeyError(field))
  {
    if field !in doc then Err(KeyError(field))
    else if doc[field].List? then Ok(doc[field].items)
    else Err(TypeError)
  }

  /** The entries of `field` of the documents whose field is a list, in document order. */
  function Items(docs: seq<Fields>, field: string): seq<Value> {
    if docs == [] then []
    else
      var last := EntriesOf(docs[|docs| - 1], field);
      Items(docs[..|docs| - 1], field) + (if last.Ok? then last.value else [])
  }

  /** The number of entries of `field` over the documents whose field is a list. */
  function TotalEntries(docs: seq<Fields>, field: string): nat {
    |Items(docs, field)|
  }

  /** An entry is an item of `Items` exactly when some document whose field is a list holds it. */
  lemma {:induction false} ItemsMember(docs: seq<Fields>, field: string, x: Value)
    ensures x in Items(docs, field)
      <==> exists k :: 0 <= k < |docs| && EntriesOf(docs[k], field).Ok? && x in EntriesOf(docs[k], field).value
  {
    if docs != [] {
      var init := docs[..|docs| - 1];
      ItemsMember(init, field, x);
      assert forall k :: 0 <= k < |init| ==> init[k] == docs[k];
    }
  }

  /** The position of the first document whose field cannot be iterated, or the number of documents when there is none. */
  function FirstFailure(docs: seq<Fields>, field: string): (m: nat)
    ensures m <= |docs|
    ensures forall k :: 0 <= k < m ==> EntriesOf(docs[k], field).Ok?
    ensures m < |docs| ==> EntriesOf(docs[m], field).Err?
  {
    if docs == [] then 0
    else
      var init := docs[..|docs| - 1];
      var m := FirstFailure(init, field);
      if m < |init| then m
      else if EntriesOf(docs[|docs| - 1], field).Ok? then |docs|
      else |init|
  }

  /**
    The entries of `field` of each document in turn, up to the first document whose field cannot
    be iterated, and the exception it raises.
   */
  function Entries(docs: seq<Fields>, field: string): (out: (seq<Value>, Option<Error>))
    ensures out.1.None? <==> forall k :: 0 <= k < |docs| ==> EntriesOf(docs[k], field).Ok?
  {
    if docs == [] then ([], None)
    else
      var front := Entries(docs[..|docs| - 1], field);
      if front.1.Some? then front
      else
        match EntriesOf(docs[|docs| - 1], field)
        case Err(e) => (front.0, Some(e))
        case Ok(xs) => (front.0 + xs, None)
  }

  /**
    What the chained iteration yields: every entry of the documents before the first one that
    cannot be iterated, in order, and then that document's exception; every entry of every
    document when there is none.
   */
  lemma {:induction false} EntriesUpToFailure(docs: seq<Fields>, field: string)
    ensures var m := FirstFailure(docs, field);
      && Entries(docs, field).0 == Items(docs[..m], field)
      && Entries(docs, field).1 == (if m < |docs| then Some(EntriesOf(docs[m], field).error) else None)
  {
    if docs != [] {
      var init := docs[..|docs| - 1];
      EntriesUpToFailure(init, field);
      var m := FirstFailure(init, field);
      assert init[..m] == docs[..m];
      if m < |init| {
        assert init[m] == docs[m];
      } else {
        assert docs[..|docs|] == docs;
        assert init[..|init|] == init;
      }
    }
  }

  /** Without an exception, the entries are all the items of all the documents. */
  lemma EntriesComplete(docs: seq<Fields>, field: string)
    requires Entries(docs, field).1.None?
    ensures Entries(docs, field).0 == Items(docs, field)
    ensures |Entries(docs, field).0| == TotalEntries(docs, field)
  {
    EntriesUpToFailure(docs, field);
    assert docs[..|docs|] == docs;
  }

  /**
    One request per element, built by `make`, up to the first element `make` raises on: the requests
    are exactly `make`'s results on a prefix of the elements, and an error is the one `make` raises on the next element.
   */
  function Requests<X>(xs: seq<X>, make: X -> Result<Request>): (out: (seq<Request>, Option<Error>))
    ensures |out.0| <= |xs|
    ensures forall k :: 0 <= k < |out.0| ==> make(xs[k]) == Ok(out.0[k])
    ensures out.1.None? <==> |out.0| == |xs|
    ensures out.1.Some? ==> make(xs[|out.0|]) == Err(out.1.value)
  {
    if xs == [] then ([], None)
    else
      var front := Requests(xs[..|xs| - 1], make);
      if front.1.Some? then front
      else
        match make(xs[|xs| - 1])
        case Err(e) => (front.0, Some(e))
        case Ok(r) => (front.0 + [r], None)
  }

  /**
    The chained generators, consumed: the request of every entry of every document, in order, until
    the first exception. Entries are read before they are turned into requests, so an error while
    building the request of an earlier entry comes before an error reading a later document.
   */
  function DocRequests(docs: seq<Fields>, field: string, make: Value -> Result<Request>): (out: (seq<Request>, Option<Error>))
    ensures var xs := Entries(docs, field).0;
      && |out.0| <= |xs|
      && (forall k :: 0 <= k < |out.0| ==> make(xs[k]) == Ok(out.0[k]))
      && (|out.0| < |xs| ==> out.1.Some? && make(xs[|out.0|]) == Err(out.1.value))
      && (|out.0| == |xs| ==> out.1 == Entries(docs, field).1)
    ensures out.1.None? ==> |out.0| == TotalEntries(docs, field)
    ensures out.1.None? ==> forall k :: 0 <= k < |docs| ==> EntriesOf(docs[k], field).Ok?
  {
    var (xs, e1) := Entries(docs, field);
    var (rs, e2) := Requests(xs, make);
    if e1.None? then EntriesComplete(docs, field); (rs, if e2.Some? then e2 else e1)
    else (rs, if e2.Some? then e2 else e1)
  }

  /** Whatever is yielded was built by `make` from an entry of one of the documents. */
  lemma {:induction false} DocRequestsMade(docs: seq<Fields>, field: string, make: Value -> Result<Request>, q: Request)
    requires q in DocRequests(docs, field, make).0
    ensures exists k, x :: 0 <= k < |docs| && EntriesOf(docs[k], field).Ok? && x in EntriesOf(docs[k], field).value && make(x) == Ok(q)
  {
    var xs := Entries(docs, field).0;
    var rs := DocRequests(docs, field, make).0;
    var i :| 0 <= i < |rs| && rs[i] == q;
    var x := xs[i];
    assert make(x) == Ok(q);
    EntriesUpToFailure(docs, field);
    var m := FirstFailure(docs, field);
    ItemsMember(docs[..m], field, x);
    var k :| 0 <= k < m && EntriesOf(docs[..m][k], field).Ok? && x in EntriesOf(docs[..m][k], field).value;
    assert docs[..m][k] == docs[k];
  }
}
