/**
  The checkpoint ledger (`DeltaHelper`): one document per request identity "METHOD URL", holding
  the serialised request and a `finished` flag. `check_request` admits a request (inserting an
  unfinished entry for a new identity, letting an unfinished one through, skipping a finished one),
  `mark_as_finished` flips the flag, and `fetch_unfinished_requests` lists what to resume.
 */
module Delta {
  import opened Wrappers
  import opened Strings
  import opened Values

  // ---------------------------------------------------------------- requests

  /** The spider methods a ledger-backed request can name as its callback or errback. */
  datatype Callback =
    | Parse
    | ParseReviewAll
    | ParseTaggedReviews
    | ParseFollowees
    | ParseFollowers
    | ParseCollections

  /** The method's `__name__`. */
  function CallbackName(c: Callback): string {
    match c
    case Parse => "parse"
    case ParseReviewAll => "parse_review_all"
    case ParseTaggedReviews => "parse_tagged_reviews"
    case ParseFollowees => "parse_followees"
    case ParseFollowers => "parse_followers"
    case ParseCollections => "parse_collections"
  }

  /** `spider.__getattribute__(name)`, over the spider's callbacks; nothing when it has no such method. */
  function LookupCallback(name: string): (c: Option<Callback>)
    ensures c.Some? ==> CallbackName(c.value) == name
    ensures c.None? ==> forall cb: Callback :: CallbackName(cb) != name
  {
    if name == "parse" then Some(Parse)
    else if name == "parse_review_all" then Some(ParseReviewAll)
    else if name == "parse_tagged_reviews" then Some(ParseTaggedReviews)
    else if name == "parse_followees" then Some(ParseFollowees)
    else if name == "parse_followers" then Some(ParseFollowers)
    else if name == "parse_collections" then Some(ParseCollections)
    else None
  }

  /** A scrapy request, with the attributes the ledger keeps. */
  datatype Request = Request(
    url: string,
    httpMethod: string,
    callback: Option<Callback>,
    errback: Option<Callback>,
    priority: int,
    meta: map<string, Value>)

  /** `scrapy.Request(url, callback, priority=...)`: a GET request without errback. */
  function Get(url: string, callback: Callback, priority: int, meta: map<string, Value>): Request {
    Request(url, "GET", Some(callback), None, priority, meta)
  }

  /** `serialized_request_id`: the identity of a request is its method and URL, nothing else. */
  function RequestId(r: Request): string {
    r.httpMethod + " " + r.url
  }

  /** Methods are HTTP tokens: they contain no space. */
  predicate IsToken(m: string) {
    ' ' !in m
  }

  /**
    Two requests share an identity exactly when they share method and URL; meta, callbacks and
    priority play no part.
   */
  lemma {:induction false} RequestIdInjective(r1: Request, r2: Request)
    requires IsToken(r1.httpMethod) && IsToken(r2.httpMethod)
    ensures RequestId(r1) == RequestId(r2) <==> r1.httpMethod == r2.httpMethod && r1.url == r2.url
  {
    if RequestId(r1) == RequestId(r2) {
      var a := SplitOnce(RequestId(r1), ' ');
      SplitAtToken(r1.httpMethod, r1.url);
      SplitAtToken(r2.httpMethod, r2.url);
    }
  }

  lemma {:induction false} SplitAtToken(m: string, u: string)
    requires IsToken(m)
    ensures SplitOnce(m + " " + u, ' ') == Some((m, u))
  {
    if m == [] {
      assert m + " " + u == [' '] + u;
      assert ([' '] + u)[1..] == u;
    } else {
      assert (m + " " + u)[1..] == m[1..] + " " + u;
      assert IsToken(m[1..]) by {
        forall x | x in m[1..] ensures x in m { }
      }
      SplitAtToken(m[1..], u);
      assert [m[0]] + m[1..] == m;
    }
  }

  // ---------------------------------------------------------------- serialisation

  /** A value of a serialised request or of a ledger document. */
  datatype Attr =
    | Str(s: string)
    | Int(i: int)
    | Flag(b: bool)
    | Meta(m: map<string, Value>)
    | Fn(f: Callback)  // a bound method: the only callable attribute
    | Nil

  /** A document: field name to value. */
  type Doc = map<string, Attr>

  /** Python truthiness of a stored value. */
  predicate Truthy(a: Attr) {
    match a
    case Str(s) => s != []
    case Int(i) => i != 0
    case Flag(b) => b
    case Meta(m) => m != map[]
    case Fn(_) => true
    case Nil => false
  }

  function CallableOrNil(c: Option<Callback>): Attr {
    if c.Some? then Fn(c.value) else Nil
  }

  /** `request.__dict__`, in attribute order. */
  function Attributes(r: Request): seq<(string, Attr)> {
    [ ("_url", Str(r.url)), ("method", Str(r.httpMethod)),
      ("callback", CallableOrNil(r.callback)), ("errback", CallableOrNil(r.errback)),
      ("priority", Int(r.priority)), ("_meta", Meta(r.meta)) ]
  }

  /** `k.lstrip('_')`. */
  function LStripUnderscores(k: string): (r: string)
    ensures |r| <= |k| && r == k[|k| - |r|..]
    ensures forall i :: 0 <= i < |k| - |r| ==> k[i] == '_'
    ensures r == [] || r[0] != '_'
  {
    if k != [] && k[0] == '_' then LStripUnderscores(k[1..]) else k
  }

  /** How one attribute is stored: leading underscores dropped from its name, a callable by its name. */
  function StoredKey(k: string): string {
    if StartsWith(k, "_") then LStripUnderscores(k) else k
  }

  function StoredValue(v: Attr): Attr {
    if v.Fn? then Str(CallbackName(v.f)) else v
  }

  /** The dict the serialising loop has built after the attributes `attrs`. */
  function StoredAttributes(attrs: seq<(string, Attr)>): Doc {
    if attrs == [] then map[]
    else
      var last := attrs[|attrs| - 1];
      StoredAttributes(attrs[..|attrs| - 1])[StoredKey(last.0) := StoredValue(last.1)]
  }

  /** The name of a callback as stored, or None. */
  function NameOrNil(c: Option<Callback>): Attr {
    if c.Some? then Str(CallbackName(c.value)) else Nil
  }

  /** The attributes of a request as stored: underscores stripped from names, callables by name. */
  function StoredFields(r: Request): Doc {
    map[
      "url" := Str(r.url), "method" := Str(r.httpMethod),
      "callback" := NameOrNil(r.callback), "errback" := NameOrNil(r.errback),
      "priority" := Int(r.priority), "meta" := Meta(r.meta)]
  }

  /** The serialised form of a request, as `request_serialize` builds it (headers aside). */
  function Serialized(r: Request): (s: Doc)
    ensures "_id" in s && s["_id"] == Str(RequestId(r))
  {
    StoredFields(r)["_id" := Str(RequestId(r))]
  }

  /** `serialized_request_id(serialized)`: '{} {}'.format(method, url). */
  function SerializedRequestId(s: Doc): string
    requires "method" in s && s["method"].Str? && "url" in s && s["url"].Str?
  {
    s["method"].s + " " + s["url"].s
  }

  /**
    `request_serialize(request)`: copy every attribute, stripping leading underscores from its name
    and replacing a callable by its `__name__`, then add the identity under "_id".
   */
  method RequestSerialize(r: Request) returns (s: Doc)
    ensures s == Serialized(r)
    ensures SerializedRequestId(s) == RequestId(r)
  {
    var attrs := Attributes(r);
    s := map[];
    var i := 0;
    while i < |attrs|
      invariant 0 <= i <= |attrs|
      invariant s == StoredAttributes(attrs[..i])
    {
      var k := attrs[i].0;
      var v := attrs[i].1;
      if StartsWith(k, "_") {
        k := LStripUnderscores(k);
      }
      if v.Fn? {
        v := Str(CallbackName(v.f));
      }
      s := s[k := v];
      StoredStep(attrs, i);
      i := i + 1;
    }
    assert attrs[..|attrs|] == attrs;
    SerializedFromStored(r, s);
    s := s["_id" := Str(SerializedRequestId(s))];
  }

  /** Adding the identity to the stored attributes completes the serialised form. */
  lemma SerializedFromStored(r: Request, s: Doc)
    requires s == StoredAttributes(Attributes(r))
    ensures "method" in s && s["method"].Str? && "url" in s && s["url"].Str?
    ensures SerializedRequestId(s) == RequestId(r)
    ensures s["_id" := Str(SerializedRequestId(s))] == Serialized(r)
  {
    StoredAttributesOf(r);
  }

  lemma StoredAttributesOf(r: Request)
    ensures StoredAttributes(Attributes(r)) == StoredFields(r)
  {
    var a := Attributes(r);
    StoredKeys();
    StoredStep(a, 0);
    StoredStep(a, 1);
    StoredStep(a, 2);
    StoredStep(a, 3);
    StoredStep(a, 4);
    StoredStep(a, 5);
    assert a[..6] == a;
    assert a[..0] == [];
  }

  lemma StoredStep(attrs: seq<(string, Attr)>, i: nat)
    requires i < |attrs|
    ensures StoredAttributes(attrs[..i + 1]) == StoredAttributes(attrs[..i])[StoredKey(attrs[i].0) := StoredValue(attrs[i].1)]
  {
    assert attrs[..i + 1][..i] == attrs[..i];
  }

  lemma StoredKeys()
    ensures StoredKey("_url") == "url" && StoredKey("method") == "method"
    ensures StoredKey("callback") == "callback" && StoredKey("errback") == "errback"
    ensures StoredKey("priority") == "priority" && StoredKey("_meta") == "meta"
  {
    StoredKeyUnderscored("url");
    StoredKeyUnderscored("meta");
    StoredKeyPlain("method");
    StoredKeyPlain("callback");
    StoredKeyPlain("errback");
    StoredKeyPlain("priority");
  }

  /** A name without a leading underscore is stored as it is. */
  lemma StoredKeyPlain(k: string)
    requires k != [] && k[0] != '_'
    ensures StoredKey(k) == k
  {
    assert k[..1] != "_";
  }

  /** A name with one leading underscore is stored without it. */
  lemma StoredKeyUnderscored(k: string)
    requires k != [] && k[0] != '_'
    ensures StoredKey("_" + k) == k
  {
    var u := "_" + k;
    assert u[..1] == "_" && u[1..] == k;
  }

  // ---------------------------------------------------------------- deserialisation

  /** The keyword arguments `scrapy.Request(**kwargs)` accepts in this model. */
  const RequestParams: set<string> := {"url", "method", "callback", "errback", "priority", "meta"}

  /** `safe_set_value(key)`: a stored name is looked up on the spider; an unknown name raises. */
  function SetCallable(s: Doc, key: string): Option<Doc> {
    if key in s && s[key] != Nil then
      if s[key].Str? && LookupCallback(s[key].s).Some? then Some(s[key := Fn(LookupCallback(s[key].s).value)])
      else None
    else Some(s)
  }

  /** `safe_del_key(key)`: the key is removed only when it holds something other than None. */
  function DelKey(s: Doc, key: string): Doc {
    if key in s && s[key] != Nil then s - {key} else s
  }

  function CallbackArg(s: Doc, key: string): Option<Option<Callback>> {
    if key !in s || s[key] == Nil then Some(None)
    else if s[key].Fn? then Some(Some(s[key].f))
    else None
  }

  /** `scrapy.Request(**kwargs)`: nothing when an argument is unknown, missing or of the wrong kind. */
  function MakeRequest(kw: Doc): Option<Request> {
    if !(kw.Keys <= RequestParams) || "url" !in kw || !kw["url"].Str? then None
    else if "method" in kw && !kw["method"].Str? then None
    else if "priority" in kw && !kw["priority"].Int? then None
    else if "meta" in kw && !(kw["meta"].Meta? || kw["meta"] == Nil) then None
    else
      var cb := CallbackArg(kw, "callback");
      var eb := CallbackArg(kw, "errback");
      if cb.None? || eb.None? then None
      else
        Some(Request(
          kw["url"].s,
          if "method" in kw then kw["method"].s else "GET",
          cb.value, eb.value,
          if "priority" in kw then kw["priority"].i else 0,
          if "meta" in kw && kw["meta"].Meta? then kw["meta"].m else map[]))
  }

  /** `request_deserialize(spider, serialized)`. */
  function RequestDeserialize(s: Doc): Option<Request> {
    match SetCallable(s, "callback")
    case None => None
    case Some(s1) =>
      match SetCallable(s1, "errback")
      case None => None
      case Some(s2) => MakeRequest(DelKey(DelKey(s2, "_id"), "finished"))
  }

  /** The keys of every ledger document. */
  const DocKeys: set<string> := RequestParams + {"_id", "finished"}

  /** `d` holds the stored attributes of `r`. */
  predicate Holds(d: Doc, r: Request) {
    && "url" in d && d["url"] == Str(r.url)
    && "method" in d && d["method"] == Str(r.httpMethod)
    && "callback" in d && d["callback"] == NameOrNil(r.callback)
    && "errback" in d && d["errback"] == NameOrNil(r.errback)
    && "priority" in d && d["priority"] == Int(r.priority)
    && "meta" in d && d["meta"] == Meta(r.meta)
  }

  /** Resolving one stored callback name gives back the callback and leaves every other key alone. */
  lemma SetCallableOf(d: Doc, key: string, c: Option<Callback>)
    requires key in d && d[key] == NameOrNil(c)
    ensures SetCallable(d, key) == Some(d[key := CallableOrNil(c)])
  {
    if c.Some? {
      assert LookupCallback(CallbackName(c.value)) == c;
    } else {
      assert d[key := Nil] == d;
    }
  }

  /**
    A ledger document holding the stored attributes of `r`, an identity and a flag deserialises to
    `r`: the callback by name, "_id" and "finished" dropped.
   */
  lemma {:induction false} DeserializeHolds(d: Doc, r: Request)
    requires d.Keys == DocKeys && Holds(d, r)
    requires d["_id"] != Nil && d["finished"] != Nil
    ensures RequestDeserialize(d) == Some(r)
  {
    SetCallableOf(d, "callback", r.callback);
    var s1 := d["callback" := CallableOrNil(r.callback)];
    SetCallableOf(s1, "errback", r.errback);
    var s2 := s1["errback" := CallableOrNil(r.errback)];
    KeywordsOf(d, r);
  }

  /** What reaches `scrapy.Request(**kwargs)` once both callbacks are resolved and "_id" and "finished" dropped. */
  lemma KeywordsOf(d: Doc, r: Request)
    requires d.Keys == DocKeys && Holds(d, r)
    requires d["_id"] != Nil && d["finished"] != Nil
    ensures var s2 := d["callback" := CallableOrNil(r.callback)]["errback" := CallableOrNil(r.errback)];
      MakeRequest(DelKey(DelKey(s2, "_id"), "finished")) == Some(r)
  {
    var s2 := d["callback" := CallableOrNil(r.callback)]["errback" := CallableOrNil(r.errback)];
    var kw := s2 - {"_id"} - {"finished"};
    assert DelKey(DelKey(s2, "_id"), "finished") == kw;
    assert kw.Keys == RequestParams;
  }

  /** A request comes back from its serialised form, whatever `finished` flag the ledger stored with it. */
  lemma {:induction false} DeserializeSerialized(r: Request, b: bool)
    ensures RequestDeserialize(Serialized(r)["finished" := Flag(b)]) == Some(r)
  {
    var d := Serialized(r)["finished" := Flag(b)];
    assert d.Keys == DocKeys;
    DeserializeHolds(d, r);
  }

  // ---------------------------------------------------------------- the ledger table

  /** A stored callback: None or the name of one of the spider's methods. */
  predicate IsStoredName(a: Attr) {
    a == Nil || (a.Str? && LookupCallback(a.s).Some?)
  }

  /** A ledger document for identity `id`: every key present, each holding what serialisation puts there. */
  predicate WellFormed(id: string, d: Doc) {
    && d.Keys == DocKeys
    && d["_id"] == Str(id)
    && d["finished"].Flag?
    && d["url"].Str? && d["method"].Str?
    && IsStoredName(d["callback"]) && IsStoredName(d["errback"])
    && d["priority"].Int? && d["meta"].Meta?
    && SerializedRequestId(d) == id
  }

  function StoredCallback(a: Attr): Option<Callback>
    requires IsStoredName(a)
  {
    if a == Nil then None else LookupCallback(a.s)
  }

  /** A well-formed document deserialises, to a request of the document's identity. */
  lemma WellFormedDeserializes(id: string, d: Doc)
    requires WellFormed(id, d)
    ensures RequestDeserialize(d).Some? && RequestId(RequestDeserialize(d).value) == id
    ensures Holds(d, RequestDeserialize(d).value)
  {
    var r := Request(d["url"].s, d["method"].s, StoredCallback(d["callback"]), StoredCallback(d["errback"]),
      d["priority"].i, d["meta"].m);
    assert Holds(d, r);
    DeserializeHolds(d, r);
  }

  /** A document holding the stored attributes of `r` under the identity of `r` is well formed. */
  lemma HoldsWellFormed(d: Doc, r: Request)
    requires d.Keys == DocKeys && Holds(d, r)
    requires d["_id"] == Str(RequestId(r)) && d["finished"].Flag?
    ensures WellFormed(RequestId(r), d)
  {
    if r.callback.Some? {
      assert LookupCallback(CallbackName(r.callback.value)) == r.callback;
    }
    if r.errback.Some? {
      assert LookupCallback(CallbackName(r.errback.value)) == r.errback;
    }
  }

  /**
    The ledger collection: documents by identity and the order they were inserted in (the order
    `find` returns them).
   */
  datatype Table = Table(docs: map<string, Doc>, order: seq<string>) {
    ghost predicate Valid() {
      && (forall i, j :: 0 <= i < j < |order| ==> order[i] != order[j])
      && (forall id :: id in docs <==> id in order)
      && (forall id :: id in docs ==> WellFormed(id, docs[id]))
    }
  }

  const EmptyTable := Table(map[], [])

  /** `result['finished']` of the entry for `id`, false when there is no entry. */
  predicate IsFinished(t: Table, id: string) {
    id in t.docs && "finished" in t.docs[id] && Truthy(t.docs[id]["finished"])
  }

  /** The document `check_request` inserts for a new identity. */
  function FreshDoc(r: Request): Doc {
    Serialized(r)["finished" := Flag(false)]
  }

  /** What `check_request(r)` returns against the table `t`. */
  function CheckOutcome(t: Table, r: Request): Option<Request> {
    if IsFinished(t, RequestId(r)) then None else Some(r)
  }

  /** The table after `check_request(r)`: an insert for a new identity, no write otherwise. */
  function AfterCheck(t: Table, r: Request): Table {
    var id := RequestId(r);
    if id in t.docs then t else Table(t.docs[id := FreshDoc(r)], t.order + [id])
  }

  /** The fields `mark_as_finished(r)` sets: the serialised request without "_id", with finished = True. */
  function FinishedFields(r: Request): Doc {
    StoredFields(r)["finished" := Flag(true)]
  }

  lemma FinishedFieldsOf(r: Request)
    ensures Serialized(r)["finished" := Flag(true)] - {"_id"} == FinishedFields(r)
  {
    assert "_id" !in StoredFields(r);
  }

  /** The table after `mark_as_finished(r)`: a `$set` on an existing entry, no upsert. */
  function AfterMark(t: Table, r: Option<Request>): Table {
    if r.None? || RequestId(r.value) !in t.docs then t
    else
      var id := RequestId(r.value);
      Table(t.docs[id := t.docs[id] + FinishedFields(r.value)], t.order)
  }

  /** No identity loses its entry, no finished entry becomes unfinished, and earlier inserts keep their place. */
  ghost predicate Grows(t: Table, t': Table) {
    && t.docs.Keys <= t'.docs.Keys
    && (forall id :: IsFinished(t, id) ==> IsFinished(t', id))
    && t.order <= t'.order
  }

  /** Inserting a well-formed document under a new identity keeps the table valid. */
  lemma InsertValid(t: Table, id: string, d: Doc)
    requires t.Valid() && id !in t.docs && WellFormed(id, d)
    ensures Table(t.docs[id := d], t.order + [id]).Valid()
  {
    var t' := Table(t.docs[id := d], t.order + [id]);
    forall i, j | 0 <= i < j < |t'.order| ensures t'.order[i] != t'.order[j] {
      if j == |t.order| {
        assert t'.order[i] == t.order[i];
      }
    }
    forall x ensures x in t'.docs <==> x in t'.order {
      assert x in t'.order <==> x in t.order || x == id;
    }
  }

  /** Replacing a document by a well-formed one of the same identity keeps the table valid. */
  lemma ReplaceValid(t: Table, id: string, d: Doc)
    requires t.Valid() && id in t.docs && WellFormed(id, d)
    ensures Table(t.docs[id := d], t.order).Valid()
  {
  }

  lemma {:induction false} AfterCheckProps(t: Table, r: Request)
    requires t.Valid()
    ensures AfterCheck(t, r).Valid()
    ensures Grows(t, AfterCheck(t, r))
    ensures AfterCheck(t, r).docs.Keys == t.docs.Keys + {RequestId(r)}
    ensures forall id :: IsFinished(AfterCheck(t, r), id) <==> IsFinished(t, id)
  {
    var id := RequestId(r);
    if id !in t.docs {
      FreshDocWellFormed(r);
      InsertValid(t, id, FreshDoc(r));
    }
    AfterCheckFlags(t, r);
  }

  /** The document inserted for a new request is a well-formed, unfinished entry that deserialises to it. */
  lemma FreshDocWellFormed(r: Request)
    ensures WellFormed(RequestId(r), FreshDoc(r))
    ensures FreshDoc(r)["finished"] == Flag(false)
    ensures RequestDeserialize(FreshDoc(r)) == Some(r)
  {
    var d := FreshDoc(r);
    assert d.Keys == DocKeys && Holds(d, r);
    HoldsWellFormed(d, r);
    DeserializeHolds(d, r);
  }

  /** `check_request` never changes what is finished. */
  lemma AfterCheckFlags(t: Table, r: Request)
    ensures forall id :: IsFinished(AfterCheck(t, r), id) <==> IsFinished(t, id)
    ensures t.order <= AfterCheck(t, r).order
  {
    assert FreshDoc(r)["finished"] == Flag(false);
  }

  lemma {:induction false} AfterMarkProps(t: Table, r: Option<Request>)
    requires t.Valid()
    ensures AfterMark(t, r).Valid()
    ensures Grows(t, AfterMark(t, r))
    ensures AfterMark(t, r).docs.Keys == t.docs.Keys && AfterMark(t, r).order == t.order
    ensures r.Some? && RequestId(r.value) in t.docs ==> IsFinished(AfterMark(t, r), RequestId(r.value))
    ensures forall id :: r.None? || id != RequestId(r.value) ==> (IsFinished(AfterMark(t, r), id) <==> IsFinished(t, id))
  {
    if r.Some? && RequestId(r.value) in t.docs {
      var id := RequestId(r.value);
      MergedDoc(t.docs[id], r.value);
      ReplaceValid(t, id, t.docs[id] + FinishedFields(r.value));
    }
    AfterMarkFlags(t, r);
  }

  /** `mark_as_finished` sets the flag of its own entry and of no other. */
  lemma AfterMarkFlags(t: Table, r: Option<Request>)
    ensures AfterMark(t, r).docs.Keys == t.docs.Keys && AfterMark(t, r).order == t.order
    ensures r.Some? && RequestId(r.value) in t.docs ==> IsFinished(AfterMark(t, r), RequestId(r.value))
    ensures forall id :: IsFinished(t, id) ==> IsFinished(AfterMark(t, r), id)
    ensures forall id :: r.None? || id != RequestId(r.value) ==> (IsFinished(AfterMark(t, r), id) <==> IsFinished(t, id))
  {
    if r.Some? && RequestId(r.value) in t.docs {
      assert FinishedFields(r.value)["finished"] == Flag(true);
    }
  }

  /** `$set` of the finished fields over an entry of the same identity leaves a well-formed, finished entry for that request. */
  lemma MergedDoc(old_: Doc, r: Request)
    requires WellFormed(RequestId(r), old_)
    ensures var d := old_ + FinishedFields(r);
      && WellFormed(RequestId(r), d) && d["finished"] == Flag(true)
      && RequestDeserialize(d) == Some(r)
  {
    var d := old_ + FinishedFields(r);
    assert d.Keys == DocKeys && Holds(d, r) && d["_id"] == old_["_id"];
    HoldsWellFormed(d, r);
    DeserializeHolds(d, r);
  }

  // ---------------------------------------------------------------- properties of admission

  /** A new identity gets exactly one entry, unfinished, holding the serialised request; the request is admitted. */
  lemma {:induction false} CheckInsertsNew(t: Table, r: Request)
    requires t.Valid() && RequestId(r) !in t.docs
    ensures CheckOutcome(t, r) == Some(r)
    ensures |AfterCheck(t, r).docs| == |t.docs| + 1
    ensures AfterCheck(t, r).docs[RequestId(r)]["finished"] == Flag(false)
    ensures RequestDeserialize(AfterCheck(t, r).docs[RequestId(r)]) == Some(r)
  {
    DeserializeSerialized(r, false);
    assert AfterCheck(t, r).docs.Keys == t.docs.Keys + {RequestId(r)};
  }

  /** Two requests with one identity share one entry; the second passes only while the first is unfinished. */
  lemma {:induction false} SameIdentityOneEntry(t: Table, r1: Request, r2: Request)
    requires t.Valid() && RequestId(r1) == RequestId(r2)
    ensures AfterCheck(AfterCheck(t, r1), r2) == AfterCheck(t, r1)
    ensures AfterCheck(t, r1).docs.Keys == t.docs.Keys + {RequestId(r1)}
    ensures CheckOutcome(AfterCheck(t, r1), r2).Some? <==> !IsFinished(t, RequestId(r1))
    ensures CheckOutcome(AfterMark(AfterCheck(t, r1), Some(r1)), r2).None?
  {
    AfterCheckProps(t, r1);
    AfterMarkProps(AfterCheck(t, r1), Some(r1));
  }

  /**
    Checking a child request and then marking its parent records the child before the parent is
    finished: the child has an entry, the parent's entry (if any) is finished, and the child's
    flag is untouched unless the two share an identity.
   */
  lemma HandOff(t: Table, child: Request, parent: Request)
    requires t.Valid()
    ensures var t' := AfterMark(AfterCheck(t, child), Some(parent));
      && t'.Valid() && Grows(t, t')
      && RequestId(child) in t'.docs
      && (RequestId(parent) in t.docs ==> IsFinished(t', RequestId(parent)))
      && (RequestId(child) != RequestId(parent) ==> (IsFinished(t', RequestId(child)) <==> IsFinished(t, RequestId(child))))
  {
    AfterCheckProps(t, child);
    AfterMarkProps(AfterCheck(t, child), Some(parent));
  }

  /** `mark_as_finished` is idempotent. */
  lemma {:induction false} MarkIdempotent(t: Table, r: Option<Request>)
    ensures AfterMark(AfterMark(t, r), r) == AfterMark(t, r)
  {
    if r.Some? && RequestId(r.value) in t.docs {
      var id := RequestId(r.value);
      var f := FinishedFields(r.value);
      assert (t.docs[id] + f) + f == t.docs[id] + f;
    }
  }

  // ---------------------------------------------------------------- check_requests

  /** The table after `check_request` was applied to each of `rs` in turn. */
  function AfterCheckAll(t: Table, rs: seq<Request>): Table {
    if rs == [] then t else AfterCheck(AfterCheckAll(t, rs[..|rs| - 1]), rs[|rs| - 1])
  }

  /** `filter(bool, map(check_request, rs))`, consumed: what check_request returned, Nones dropped. */
  function AdmittedAll(t: Table, rs: seq<Request>): seq<Request> {
    if rs == [] then []
    else
      AdmittedAll(t, rs[..|rs| - 1])
      + OptionToSeq(CheckOutcome(AfterCheckAll(t, rs[..|rs| - 1]), rs[|rs| - 1]))
  }

  /** The requests of `rs` whose identity has no finished entry in `t`, in order. */
  function NotFinishedIn(t: Table, rs: seq<Request>): seq<Request> {
    if rs == [] then []
    else NotFinishedIn(t, rs[..|rs| - 1]) + (if IsFinished(t, RequestId(rs[|rs| - 1])) then [] else [rs[|rs| - 1]])
  }

  lemma {:induction false} AfterCheckAllProps(t: Table, rs: seq<Request>)
    requires t.Valid()
    ensures AfterCheckAll(t, rs).Valid()
    ensures Grows(t, AfterCheckAll(t, rs))
    ensures forall id :: IsFinished(AfterCheckAll(t, rs), id) <==> IsFinished(t, id)
    ensures forall k :: 0 <= k < |rs| ==> RequestId(rs[k]) in AfterCheckAll(t, rs).docs
  {
    if rs != [] {
      var p := rs[..|rs| - 1];
      AfterCheckAllProps(t, p);
      AfterCheckProps(AfterCheckAll(t, p), rs[|rs| - 1]);
      forall k | 0 <= k < |rs| ensures RequestId(rs[k]) in AfterCheckAll(t, rs).docs {
        if k < |rs| - 1 {
          assert rs[k] == p[k];
        }
      }
    }
  }

  /**
    Checking a batch admits exactly the requests whose identity was not already finished, in
    input order: entries inserted during the batch are unfinished, so a repeated identity passes again.
   */
  lemma {:induction false} AdmittedAllIsNotFinished(t: Table, rs: seq<Request>)
    requires t.Valid()
    ensures AdmittedAll(t, rs) == NotFinishedIn(t, rs)
  {
    if rs != [] {
      var p := rs[..|rs| - 1];
      AdmittedAllIsNotFinished(t, p);
      AfterCheckAllProps(t, p);
    }
  }

  // ---------------------------------------------------------------- fetch_unfinished_requests

  /** The deserialised requests of the unfinished entries among `ids`, in that order. */
  function UnfinishedOf(docs: map<string, Doc>, ids: seq<string>): seq<Request>
    requires forall id :: id in ids ==> id in docs && WellFormed(id, docs[id])
  {
    if ids == [] then []
    else
      var id := ids[|ids| - 1];
      assert id in ids;
      WellFormedDeserializes(id, docs[id]);
      assert forall x :: x in ids[..|ids| - 1] ==> x in ids;
      UnfinishedOf(docs, ids[..|ids| - 1])
      + (if docs[id]["finished"] == Flag(false) then [RequestDeserialize(docs[id]).value] else [])
  }

  /** `fetch_unfinished_requests()`: `find({'finished': False})`, each document deserialised. */
  function Unfinished(t: Table): seq<Request>
    requires t.Valid()
  {
    UnfinishedOf(t.docs, t.order)
  }

  /** What is resumed is exactly the unfinished entries: each one is listed, and only they are. */
  lemma {:induction false} UnfinishedExactly(docs: map<string, Doc>, ids: seq<string>, id: string)
    requires forall x :: x in ids ==> x in docs && WellFormed(x, docs[x])
    requires id in ids && id in docs && WellFormed(id, docs[id])
    ensures RequestDeserialize(docs[id]).Some?
    ensures docs[id]["finished"] == Flag(false) ==> RequestDeserialize(docs[id]).value in UnfinishedOf(docs, ids)
  {
    WellFormedDeserializes(id, docs[id]);
    var last := ids[|ids| - 1];
    if id != last {
      assert id in ids[..|ids| - 1] by {
        var k :| 0 <= k < |ids| && ids[k] == id;
        assert k < |ids| - 1 && ids[..|ids| - 1][k] == id;
      }
      UnfinishedExactly(docs, ids[..|ids| - 1], id);
    }
  }

  lemma {:induction false} UnfinishedOnly(docs: map<string, Doc>, ids: seq<string>, r: Request)
    requires forall x :: x in ids ==> x in docs && WellFormed(x, docs[x])
    requires r in UnfinishedOf(docs, ids)
    ensures RequestId(r) in ids && docs[RequestId(r)]["finished"] == Flag(false)
    ensures RequestDeserialize(docs[RequestId(r)]) == Some(r)
  {
    var last := ids[|ids| - 1];
    var front := ids[..|ids| - 1];
    assert forall x :: x in front ==> x in ids;
    if r in UnfinishedOf(docs, front) {
      UnfinishedOnly(docs, front, r);
    } else {
      assert last in ids;
      WellFormedDeserializes(last, docs[last]);
      assert UnfinishedOf(docs, ids) == UnfinishedOf(docs, front) + [RequestDeserialize(docs[last]).value];
      assert r == RequestDeserialize(docs[last]).value;
    }
  }

  /** A request checked under a new identity is resumed until something marks it finished. */
  lemma CheckedResumed(t: Table, r: Request)
    requires t.Valid() && RequestId(r) !in t.docs
    ensures AfterCheck(t, r).Valid()
    ensures r in Unfinished(AfterCheck(t, r))
  {
    var t' := AfterCheck(t, r);
    AfterCheckProps(t, r);
    CheckInsertsNew(t, r);
    UnfinishedExactly(t'.docs, t'.order, RequestId(r));
  }

  /** Once a request is marked finished, a resume never lists it again. */
  lemma MarkedNotResumed(t: Table, r: Request, r': Request)
    requires t.Valid() && RequestId(r) in t.docs && RequestId(r') == RequestId(r)
    ensures AfterMark(t, Some(r)).Valid()
    ensures r' !in Unfinished(AfterMark(t, Some(r)))
  {
    var t' := AfterMark(t, Some(r));
    AfterMarkProps(t, Some(r));
    if r' in Unfinished(t') {
      UnfinishedOnly(t'.docs, t'.order, r');
      assert false;
    }
  }

  // ---------------------------------------------------------------- the ledger object

  /** The result of `check_requests(rs, hurry)`: a list when in a hurry, otherwise a filter not yet run. */
  datatype Checked = Admitted(requests: seq<Request>) | Deferred(source: seq<Request>)

  /** `DeltaHelper`, bound to its collection `<spider>_delta`. */
  class DeltaLedger {
    var table: Table

    ghost predicate Valid()
      reads this
    {
      table.Valid()
    }

    constructor ()
      ensures Valid() && table == EmptyTable
    {
      table := EmptyTable;
    }

    /** `check_request(request)`. */
    method CheckRequest(r: Request) returns (out: Option<Request>)
      requires Valid()
      modifies this
      ensures Valid()
      ensures out == CheckOutcome(old(table), r)
      ensures table == AfterCheck(old(table), r)
      ensures Grows(old(table), table)
    {
      var serialized := RequestSerialize(r);
      serialized := serialized["finished" := Flag(false)];
      var id := SerializedRequestId(serialized);
      AfterCheckProps(table, r);
      if id in table.docs {
        var result := table.docs[id];
        if Truthy(result["finished"]) {
          out := None;
        } else {
          out := Some(r);
        }
      } else {
        table := Table(table.docs[id := serialized], table.order + [id]);
        out := Some(r);
      }
    }

    /** `check_requests(requests, hurry=True)`, or the lazy filter when it is consumed. */
    method AdmitAll(rs: seq<Request>) returns (kept: seq<Request>)
      requires Valid()
      modifies this
      ensures Valid()
      ensures kept == AdmittedAll(old(table), rs) == NotFinishedIn(old(table), rs)
      ensures table == AfterCheckAll(old(table), rs)
      ensures Grows(old(table), table)
    {
      kept := [];
      var i := 0;
      while i < |rs|
        invariant 0 <= i <= |rs|
        invariant Valid()
        invariant table == AfterCheckAll(old(table), rs[..i])
        invariant kept == AdmittedAll(old(table), rs[..i])
      {
        assert rs[..i + 1][..i] == rs[..i];
        var r := CheckRequest(rs[i]);
        if r.Some? {
          kept := kept + [r.value];
        }
        i := i + 1;
      }
      assert rs[..|rs|] == rs;
      AdmittedAllIsNotFinished(old(table), rs);
      AfterCheckAllProps(old(table), rs);
    }

    /** `check_requests(requests, hurry)`: without hurry nothing is checked until the result is consumed. */
    method CheckRequests(rs: seq<Request>, hurry: bool) returns (c: Checked)
      requires Valid()
      modifies this
      ensures Valid()
      ensures hurry ==> c == Admitted(NotFinishedIn(old(table), rs)) && table == AfterCheckAll(old(table), rs)
      ensures !hurry ==> c == Deferred(rs) && table == old(table)
    {
      if hurry {
        var kept := AdmitAll(rs);
        c := Admitted(kept);
      } else {
        c := Deferred(rs);
      }
    }

    /** The hand-off of a handler: `check_request(next)`, then `mark_as_finished(parent)`. */
    method CheckThenMark(next: Request, parent: Request) returns (admitted: Option<Request>)
      requires Valid()
      modifies this
      ensures Valid()
      ensures admitted == CheckOutcome(old(table), next)
      ensures table == AfterMark(AfterCheck(old(table), next), Some(parent))
    {
      admitted := CheckRequest(next);
      MarkAsFinished(Some(parent));
    }

    /** `mark_as_finished(request)`: nothing for None, otherwise `update_one` with `$set`, without upsert. */
    method MarkAsFinished(r: Option<Request>)
      requires Valid()
      modifies this
      ensures Valid()
      ensures table == AfterMark(old(table), r)
      ensures Grows(old(table), table)
    {
      AfterMarkProps(table, r);
      if r.None? {
        return;
      }
      var serialized := RequestSerialize(r.value);
      serialized := serialized["finished" := Flag(true)];
      serialized := serialized - {"_id"};
      FinishedFieldsOf(r.value);
      assert serialized == FinishedFields(r.value);
      var id := SerializedRequestId(serialized);
      if id in table.docs {
        table := Table(table.docs[id := table.docs[id] + serialized], table.order);
      }
    }
  }
}
