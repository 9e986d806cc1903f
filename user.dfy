/**
  The user spider (`UserSpider`): a profile request for the author of every stored review, then,
  for each profile, the paged lists of followees, followers and collections, whose ids are appended
  to the user's document. Every request goes through the checkpoint ledger.
 */
module User {
  import opened Wrappers
  import opened Strings
  import opened Values
  import opened Api
  import opened Delta
  import opened Store
  import opened Streams
  import BaseSpider

  /** The relation lists of a user, by their field name in the user document. */
  datatype Field = Followees | Followers | Collections

  function FieldName(f: Field): string {
    match f
    case Followees => "followees"
    case Followers => "followers"
    case Collections => "collections"
  }

  /** `FIELD_SUFFIX_MAP`: the path of each list under the member URL. */
  function Suffix(f: Field): string {
    match f
    case Followees => "follows"
    case Followers => "fans"
    case Collections => "wishlists"
  }

  /** `getattr(self, 'parse_{}'.format(field_name))`. */
  function FieldCallback(f: Field): Callback {
    match f
    case Followees => ParseFollowees
    case Followers => ParseFollowers
    case Collections => ParseCollections
  }

  /** Each list is answered by the method named after its field, and the three lists have distinct paths. */
  lemma FieldTables(f: Field, g: Field)
    ensures CallbackName(FieldCallback(f)) == "parse_" + FieldName(f)
    ensures f != g ==> Suffix(f) != Suffix(g) && FieldCallback(f) != FieldCallback(g)
  {
    assert "parse_" + "followees" == "parse_followees";
    assert "parse_" + "followers" == "parse_followers";
    assert "parse_" + "collections" == "parse_collections";
  }

  /** The member URL, before its user id. */
  const MemberUrlBase := "http://www.dianping.com/member/"

  /** `USER_URL_FMT.format(user_id=...)`. */
  function UserUrl(userId: string): string {
    MemberUrlBase + userId
  }

  const ProfilePriority := 100

  // ---------------------------------------------------------------- start_requests

  /** `gen_user_requests` on one review: the profile request of its author, at priority 100. */
  function ProfileRequest(review: Value): (r: Result<Request>)
    ensures r.Ok? <==> review.Record? && "user_id" in review.fields && Format(review.fields["user_id"]).Ok?
    ensures r.Ok? ==>
      && r.value.url == UserUrl(Format(review.fields["user_id"]).value)
      && r.value.callback == Some(Parse) && r.value.priority == ProfilePriority
      && r.value.meta == map["user_id" := review.fields["user_id"]]
  {
    if !review.Record? then Err(TypeError)
    else if "user_id" !in review.fields then Err(KeyError("user_id"))
    else
      var userId := review.fields["user_id"];
      match Format(userId)
      case Err(e) => Err(e)
      case Ok(s) => Ok(Get(UserUrl(s), Parse, ProfilePriority, map["user_id" := userId]))
  }

  function ProfileMaker(): Value -> Result<Request> {
    review => ProfileRequest(review)
  }

  /** Every profile request of the start is for a review's author, at priority 100, one per review when nothing raises. */
  lemma ProfileRequestsShape(docs: seq<Fields>)
    ensures var out := DocRequests(docs, "reviews", ProfileMaker());
      && (forall q :: q in out.0 ==> q.callback == Some(Parse) && q.priority == ProfilePriority && "user_id" in q.meta)
      && (out.1.None? ==> |out.0| == TotalEntries(docs, "reviews"))
  {
    var out := DocRequests(docs, "reviews", ProfileMaker());
    forall q | q in out.0
      ensures q.callback == Some(Parse) && q.priority == ProfilePriority && "user_id" in q.meta
    {
      DocRequestsMade(docs, "reviews", ProfileMaker(), q);
      var k, x :| 0 <= k < |docs| && EntriesOf(docs[k], "reviews").Ok? && x in EntriesOf(docs[k], "reviews").value && ProfileMaker()(x) == Ok(q);
      assert ProfileRequest(x) == Ok(q);
    }
  }

  // ---------------------------------------------------------------- parse and create_request

  /** What `parse` reads off a profile page. */
  datatype ProfilePage = ProfilePage(name: string, gender: Option<string>, address: string, contributionText: string)

  /** The user document `parse` saves: the profile, the contribution through `extract_int`, and three empty lists. */
  function UserDoc(userId: Value, page: ProfilePage): (d: Fields)
    ensures d.Keys == {"_id", "name", "gender", "address", "contribution", "followees", "followers", "collections"}
    ensures d["_id"] == userId && d["name"] == Text(page.name) && d["address"] == Text(page.address)
    ensures d["gender"] == (if page.gender.Some? then Text(page.gender.value) else Null)
    ensures d["contribution"] == OptionalNumber(BaseSpider.ExtractIntAsWritten(page.contributionText))
    ensures forall f: Field :: d[FieldName(f)] == List([])
  {
    map["_id" := userId, "name" := Text(page.name),
        "gender" := (if page.gender.Some? then Text(page.gender.value) else Null),
        "address" := Text(page.address),
        "contribution" := OptionalNumber(BaseSpider.ExtractIntAsWritten(page.contributionText)),
        "followees" := List([]), "followers" := List([]), "collections" := List([])]
  }

  /**
    `create_request(user_id, field, priority, suffix)` before the ledger: the member URL with a
    trailing '/' joined with the suffix, which falls back to the field's path when empty; the
    field's callback; the user id in the meta.
   */
  function RelationRequest(join: Joiner, userId: Value, f: Field, priority: int, suffix: string): (r: Result<Request>)
    ensures r.Ok? <==> Format(userId).Ok?
    ensures r.Ok? ==>
      && r.value.url == join(UserUrl(Format(userId).value) + "/", if suffix == [] then Suffix(f) else suffix)
      && r.value.callback == Some(FieldCallback(f)) && r.value.priority == priority
      && r.value.meta == map["user_id" := userId]
  {
    var path := if suffix == [] then Suffix(f) else suffix;
    match Format(userId)
    case Err(e) => Err(e)
    case Ok(s) => Ok(Get(join(UserUrl(s) + "/", path), FieldCallback(f), priority, map["user_id" := userId]))
  }

  /** The three list requests of a profile, followees first, at priorities 75, 50 and 25. */
  function FollowUps(join: Joiner, userId: Value): (r: Result<seq<Request>>)
    ensures r.Ok? <==> Format(userId).Ok?
    ensures r.Ok? ==>
      && |r.value| == 3
      && r.value[0] == RelationRequest(join, userId, Followees, 75, []).value
      && r.value[1] == RelationRequest(join, userId, Followers, 50, []).value
      && r.value[2] == RelationRequest(join, userId, Collections, 25, []).value
      && r.value[0].priority > r.value[1].priority > r.value[2].priority
      && r.value[0].callback == Some(ParseFollowees) && r.value[1].callback == Some(ParseFollowers)
      && r.value[2].callback == Some(ParseCollections)
  {
    match RelationRequest(join, userId, Followees, 75, [])
    case Err(e) => Err(e)
    case Ok(a) =>
      var b := RelationRequest(join, userId, Followers, 50, []).value;
      var c := RelationRequest(join, userId, Collections, 25, []).value;
      Ok([a, b, c])
  }

  // ---------------------------------------------------------------- do_parse_user_page

  /** The anchor attribute an id is read from: a collection's link, a user's `user-id`. */
  function IdAttribute(f: Field): string {
    if f == Collections then BaseSpider.Href else "user-id"
  }

  /** `extract_int(id_extract_func(a))` on the attribute's value: a collection's id is the last '/' segment of its link. */
  function IdOf(f: Field, raw: string): Value {
    OptionalNumber(BaseSpider.ExtractIntAsWritten(if f == Collections then LastSegment(raw) else raw))
  }

  /**
    What the store receives for a numeric id, as the program reads it: an id of two or more digits
    that ends the attribute (a bare `user-id`, or the last segment of a collection's link) loses
    its last digit.
   */
  lemma IdOfTruncates(f: Field, prefix: string, n: nat)
    requires prefix == [] || (f == Collections && prefix[|prefix| - 1] == '/')
    ensures IdOf(f, prefix + Show(n)) == Number(if n < 10 then n else n / 10)
  {
    var s := Show(n);
    var text := if f == Collections then LastSegment(prefix + s) else prefix + s;
    assert text == s by {
      if f == Collections {
        assert '/' !in s by {
          assert forall k :: 0 <= k < |s| ==> IsDigit(s[k]);
        }
        LastSegmentAfterSlash(prefix, s);
      } else {
        assert prefix + s == s;
      }
    }
    BaseSpider.ExtractIntAsWrittenAtEnd([], n);
    assert [] + s == s;
  }

  /** The ids of a page, one per anchor in page order, or the KeyError of an anchor lacking its attribute. */
  function PageIds(f: Field, aa: seq<BaseSpider.Anchor>): (r: Result<seq<Value>>)
    ensures r.Ok? <==> forall k :: 0 <= k < |aa| ==> IdAttribute(f) in aa[k]
    ensures r.Ok? ==> |r.value| == |aa| && forall k :: 0 <= k < |aa| ==> r.value[k] == IdOf(f, aa[k][IdAttribute(f)])
    ensures r.Err? ==> r.error == KeyError(IdAttribute(f))
  {
    match BaseSpider.Attrs(aa, IdAttribute(f))
    case Err(e) => Err(e)
    case Ok(raws) => Ok(seq(|raws|, k requires 0 <= k < |raws| => IdOf(f, raws[k])))
  }

  // ---------------------------------------------------------------- the spider

  class UserSpider {
    const join: Joiner
    const ledger: DeltaLedger
    /** `db_collection`: the `user` collection this spider writes. */
    const store: MongoCollection
    /** `db['review']`: the shops' reviews the review spider stored. */
    const reviews: MongoCollection

    ghost predicate Valid()
      reads this, ledger, store, reviews
    {
      ledger.Valid() && store.Valid() && reviews.Valid() && store != reviews
    }

    constructor (join: Joiner, ledger: DeltaLedger, store: MongoCollection, reviews: MongoCollection)
      requires ledger.Valid() && store.Valid() && reviews.Valid() && store != reviews
      ensures Valid()
      ensures this.join == join && this.ledger == ledger && this.store == store && this.reviews == reviews
    {
      this.join := join;
      this.ledger := ledger;
      this.store := store;
      this.reviews := reviews;
    }

    /**
      `start_requests`, consumed: the reduce over the review documents raises before anything is
      yielded when there are none; otherwise the ledger's unfinished requests come first, then the
      profile request of every review's author that the ledger admits, until the first that raises.
     */
    method StartRequests() returns (out: seq<Request>, err: Option<Error>)
      requires Valid()
      modifies ledger
      ensures Valid()
      ensures reviews.contents.order == [] ==>
        out == [] && err == Some(EmptyReduce) && ledger.table == old(ledger.table)
      ensures reviews.contents.order != [] ==>
        var built := DocRequests(Find(reviews.contents), "reviews", ProfileMaker());
        && out == Unfinished(old(ledger.table)) + NotFinishedIn(old(ledger.table), built.0)
        && err == built.1
        && ledger.table == AfterCheckAll(old(ledger.table), built.0)
    {
      var docs := Find(reviews.contents);
      if docs == [] {
        return [], Some(EmptyReduce);
      }
      var built := DocRequests(docs, "reviews", ProfileMaker());
      var unfinished := Unfinished(ledger.table);
      var kept := ledger.AdmitAll(built.0);
      out := unfinished + kept;
      err := built.1;
    }

    /**
      `parse` (a profile page): saves the user, admits the followees, followers and collections
      requests in that order, then marks the profile request finished; returns the admitted ones.
     */
    method Parse(request: Request, page: ProfilePage) returns (r: Result<seq<Request>>)
      requires Valid()
      modifies ledger, store
      ensures Valid()
      ensures "user_id" !in request.meta ==>
        r == Err(KeyError("user_id")) && store.contents == old(store.contents) && ledger.table == old(ledger.table)
      ensures "user_id" in request.meta ==>
        store.contents == Insert(old(store.contents), UserDoc(request.meta["user_id"], page)).0
      ensures "user_id" in request.meta ==> match FollowUps(join, request.meta["user_id"])
        case Err(e) => r == Err(e) && ledger.table == old(ledger.table)
        case Ok(rs) =>
          && r == Ok(NotFinishedIn(old(ledger.table), rs))
          && ledger.table == AfterMark(AfterCheckAll(old(ledger.table), rs), Some(request))
    {
      if "user_id" !in request.meta {
        return Err(KeyError("user_id"));
      }
      var userId := request.meta["user_id"];
      var _ := store.InsertOne(UserDoc(userId, page));
      var followUps := FollowUps(join, userId);
      if followUps.Err? {
        return Err(followUps.error);
      }
      var kept := ledger.AdmitAll(followUps.value);
      ledger.MarkAsFinished(Some(request));
      return Ok(kept);
    }

    /** `create_request(user_id, field, priority, suffix)`: the request, through `check_request`. */
    method CreateRequest(userId: Value, f: Field, priority: int, suffix: string) returns (r: Result<Option<Request>>)
      requires Valid()
      modifies ledger
      ensures Valid()
      ensures match RelationRequest(join, userId, f, priority, suffix)
        case Err(e) => r == Err(e) && ledger.table == old(ledger.table)
        case Ok(q) => r == Ok(CheckOutcome(old(ledger.table), q)) && ledger.table == AfterCheck(old(ledger.table), q)
    {
      var q := RelationRequest(join, userId, f, priority, suffix);
      if q.Err? {
        return Err(q.error);
      }
      var admitted := ledger.CheckRequest(q.value);
      return Ok(admitted);
    }

    /**
      `do_parse_user_page` (a page of followees, followers or collections): appends the page's ids to
      the user's list. With a next page it admits the continuation (suffix: the field's path, then the
      link) before marking the page finished. The last page is not marked, so its entry stays unfinished.
     */
    method DoParseUserPage(request: Request, f: Field, aa: seq<BaseSpider.Anchor>, nextHref: Option<string>)
      returns (r: Result<seq<Request>>)
      requires Valid()
      modifies ledger, store
      ensures Valid()
      ensures PageIds(f, aa).Err? || "user_id" !in request.meta ==>
        && r == Err(if PageIds(f, aa).Err? then PageIds(f, aa).error else KeyError("user_id"))
        && store.contents == old(store.contents) && ledger.table == old(ledger.table)
      ensures PageIds(f, aa).Ok? && "user_id" in request.meta ==>
        store.contents == Extend(old(store.contents), request.meta["user_id"], FieldName(f), PageIds(f, aa).value)
      ensures PageIds(f, aa).Ok? && "user_id" in request.meta && nextHref.None? ==>
        r == Ok([]) && ledger.table == old(ledger.table)
      ensures PageIds(f, aa).Ok? && "user_id" in request.meta && nextHref.Some? ==>
        match RelationRequest(join, request.meta["user_id"], f, 0, Suffix(f) + nextHref.value)
        case Err(e) => r == Err(e) && ledger.table == old(ledger.table)
        case Ok(q) =>
          && r == Ok(OptionToSeq(CheckOutcome(old(ledger.table), q)))
          && ledger.table == AfterMark(AfterCheck(old(ledger.table), q), Some(request))
    {
      var key := IdAttribute(f);
      var ids: seq<Value> := [];
      for i := 0 to |aa|
        invariant |ids| == i
        invariant forall k :: 0 <= k < i ==> key in aa[k] && ids[k] == IdOf(f, aa[k][key])
      {
        if key !in aa[i] {
          return Err(KeyError(key));
        }
        var raw := aa[i][key];
        if f == Collections {
          raw := LastSegment(raw);
        }
        ids := ids + [OptionalNumber(BaseSpider.ExtractIntAsWritten(raw))];
      }
      assert ids == PageIds(f, aa).value;
      if "user_id" !in request.meta {
        return Err(KeyError("user_id"));
      }
      var userId := request.meta["user_id"];
      store.ExtendField(userId, FieldName(f), ids);
      if nextHref.None? {
        return Ok([]);
      }
      var q := RelationRequest(join, userId, f, 0, Suffix(f) + nextHref.value);
      if q.Err? {
        return Err(q.error);
      }
      var admitted := ledger.CheckThenMark(q.value, request);
      return Ok(OptionToSeq(admitted));
    }
  }
}
