/**
  The review spider (`ReviewSpider`): for every shop the food spider stored it asks the tags API,
  saves the shop's tags, walks the pages of all reviews appending them to the shop, and files the
  reviews of each tag. Every request goes through the checkpoint ledger; every handler marks the
  request it answers finished, except where noted.
 */
module Review {
  import opened Wrappers
  import opened Values
  import opened Api
  import opened Delta
  import opened Store
  import opened Streams

  /** The priorities of the tags-API request, of the first page of all reviews and of a later page. */
  const TagsApiPriority := 100
  const ReviewAllPriority := 75
  const NextPagePriority := 50

  /** The fields of `TAGS_API_FMT`, in the order `format` fills them. */
  const TagsApiKeys := ["shop_id", "city_id", "category_url_name", "city_name", "category_id"]

  // ---------------------------------------------------------------- start_requests

  /** `'{key}'.format(**args)` for one field: KeyError when `args` lacks it. */
  function FormatArg(args: Fields, key: string): (r: Result<string>)
    ensures r.Ok? <==> key in args && Format(args[key]).Ok?
    ensures key !in args ==> r == Err(KeyError(key))
  {
    if key !in args then Err(KeyError(key)) else Format(args[key])
  }

  /** The fields of a format string filled from `args`, left to right, stopping at the first that fails. */
  function FormatArgs(args: Fields, keys: seq<string>): (r: Result<seq<string>>)
    ensures r.Ok? <==> forall k :: 0 <= k < |keys| ==> FormatArg(args, keys[k]).Ok?
    ensures r.Ok? ==> |r.value| == |keys| && forall k :: 0 <= k < |keys| ==> r.value[k] == FormatArg(args, keys[k]).value
    ensures r.Err? ==> exists k :: 0 <= k < |keys| && FormatArg(args, keys[k]) == Err(r.error)
                                  && (forall j :: 0 <= j < k ==> FormatArg(args, keys[j]).Ok?)
  {
    if keys == [] then Ok([])
    else
      match FormatArg(args, keys[0])
      case Err(e) => Err(e)
      case Ok(s) =>
        match FormatArgs(args, keys[1..])
        case Err(e) =>
          assert forall j :: 1 <= j < |keys| ==> keys[j] == keys[1..][j - 1];
          Err(e)
        case Ok(ss) =>
          assert forall j :: 1 <= j < |keys| ==> keys[j] == keys[1..][j - 1];
          Ok([s] + ss)
  }

  /** `add_host(TAGS_API_FMT.format(**api_args))`. */
  function TagsApiUrlOf(join: Joiner, args: Fields): (r: Result<string>)
    ensures r.Ok? <==> FormatArgs(args, TagsApiKeys).Ok?
    ensures r.Err? ==> r.error == FormatArgs(args, TagsApiKeys).error
  {
    match FormatArgs(args, TagsApiKeys)
    case Err(e) => Err(e)
    case Ok(v) => Ok(AddHost(join, TagsApiPath(v[0], v[1], v[2], v[3], v[4])))
  }

  /**
    `gen_tags_api_request(shop)`, before the ledger: the shop's stored `meta` with `shop_id` set to
    its `_id` fills the tags-API URL; the request goes to `parse` at priority 100 and carries the
    shop's id and URL.
   */
  function TagsApiRequest(join: Joiner, shop: Fields): (r: Result<Request>)
    ensures r.Ok? <==>
      && "meta" in shop && "_id" in shop && shop["meta"].Record?
      && TagsApiUrlOf(join, shop["meta"].fields["shop_id" := shop["_id"]]).Ok? && "url" in shop
    ensures "meta" !in shop ==> r == Err(KeyError("meta"))
    ensures "meta" in shop && "_id" !in shop ==> r == Err(KeyError("_id"))
    ensures "meta" in shop && "_id" in shop && !shop["meta"].Record? ==> r == Err(TypeError)
    ensures "meta" in shop && "_id" in shop && shop["meta"].Record? ==>
      var url := TagsApiUrlOf(join, shop["meta"].fields["shop_id" := shop["_id"]]);
      && (url.Err? ==> r == Err(url.error))
      && (url.Ok? && "url" !in shop ==> r == Err(KeyError("url")))
    ensures r.Ok? ==>
      && "meta" in shop && shop["meta"].Record? && "_id" in shop && "url" in shop
      && TagsApiUrlOf(join, shop["meta"].fields["shop_id" := shop["_id"]]) == Ok(r.value.url)
      && r.value.callback == Some(Parse) && r.value.priority == TagsApiPriority
      && r.value.meta == map["shop_id" := shop["_id"], "shop_url" := shop["url"]]
  {
    if "meta" !in shop then Err(KeyError("meta"))
    else if "_id" !in shop then Err(KeyError("_id"))
    else if !shop["meta"].Record? then Err(TypeError)
    else
      match TagsApiUrlOf(join, shop["meta"].fields["shop_id" := shop["_id"]])
      case Err(e) => Err(e)
      case Ok(url) =>
        if "url" !in shop then Err(KeyError("url"))
        else Ok(Get(url, Parse, TagsApiPriority, map["shop_id" := shop["_id"], "shop_url" := shop["url"]]))
  }

  function TagsApiMaker(join: Joiner): Fields -> Result<Request> {
    shop => TagsApiRequest(join, shop)
  }

  /**
    A shop document without `meta` stops the start at once: the first such shop raises KeyError
    before any request is built. The documents the food spider stores carry no `meta` field.
   */
  lemma StartWithoutMeta(join: Joiner, shops: seq<Fields>)
    requires shops != [] && "meta" !in shops[0]
    ensures Requests(shops, TagsApiMaker(join)) == ([], Some(KeyError("meta")))
  {
    assert TagsApiMaker(join)(shops[0]) == Err(KeyError("meta"));
  }

  // ---------------------------------------------------------------- parse

  /** The shop document `parse` saves: its id, its `(name, count)` tags in order, its dishes, no reviews yet. */
  function ShopDoc(shopId: Value, summarys: seq<Summary>, dishTags: Value): (d: Fields)
    ensures d.Keys == {"_id", "tags", "recommend_cuisines", "reviews", "tagged_reviews"}
    ensures d["_id"] == shopId && d["recommend_cuisines"] == dishTags
    ensures d["tags"].List? && |d["tags"].items| == |summarys|
    ensures forall k :: 0 <= k < |summarys| ==> d["tags"].items[k] == Pair(summarys[k].name, summarys[k].count)
    ensures d["reviews"] == List([]) && d["tagged_reviews"] == List([])
  {
    map["_id" := shopId, "tags" := List(TagPairs(summarys)), "recommend_cuisines" := dishTags,
        "reviews" := List([]), "tagged_reviews" := List([])]
  }

  /** The request for the first page of all reviews of a shop. */
  function ReviewAllRequest(join: Joiner, shopId: Value, shopUrl: string): (r: Request)
    ensures r.callback == Some(ParseReviewAll) && r.priority == ReviewAllPriority
    ensures r.meta == map["shop_id" := shopId]
  {
    Get(ReviewAllUrl(join, shopUrl), ParseReviewAll, ReviewAllPriority, map["shop_id" := shopId])
  }

  // ---------------------------------------------------------------- parse_review_all

  /** The request for the next page of all reviews, joined against the current page's URL. */
  function NextPageRequest(join: Joiner, pageUrl: string, href: string, shopId: Value): (r: Request)
    ensures r.callback == Some(ParseReviewAll) && r.priority == NextPagePriority
    ensures r.meta == map["shop_id" := shopId]
  {
    Get(join(pageUrl, href), ParseReviewAll, NextPagePriority, map["shop_id" := shopId])
  }

  // ---------------------------------------------------------------- gen_tagged_review_requests

  /** `for tag, _ in item['tags']`: a stored tag is a `(name, count)` pair, read back as a two-element list. */
  function TagName(entry: Value): (r: Result<Value>)
    ensures entry.Pair? ==> r == Ok(Text(entry.name))
    ensures entry.List? && |entry.items| == 2 ==> r == Ok(entry.items[0])
    ensures r.Ok? <==> entry.Pair? || (entry.List? && |entry.items| == 2)
  {
    match entry
    case Pair(name, _) => Ok(Text(name))
    case List(xs) => if |xs| == 2 then Ok(xs[0]) else Err(ValueError)
    case _ => Err(TypeError)
  }

  /** The tagged-reviews request of one stored tag: default priority, the tag and the current shop id in its meta. */
  function TaggedReviewRequest(join: Joiner, shopId: Value, entry: Value): (r: Result<Request>)
    ensures r.Ok? ==>
      && r.value.callback == Some(ParseTaggedReviews) && r.value.priority == 0
      && "shop_id" in r.value.meta && r.value.meta["shop_id"] == shopId
      && TagName(entry).Ok? && "tag" in r.value.meta && r.value.meta["tag"] == TagName(entry).value
    ensures r.Ok? <==> TagName(entry).Ok? && Format(TagName(entry).value).Ok? && Format(shopId).Ok?
  {
    match TagName(entry)
    case Err(e) => Err(e)
    case Ok(tag) =>
      match Format(tag)
      case Err(e) => Err(e)
      case Ok(name) =>
        match Format(shopId)
        case Err(e) => Err(e)
        case Ok(id) => Ok(Get(AddHost(join, TaggedApiPath(name, id)), ParseTaggedReviews, 0, map["tag" := tag, "shop_id" := shopId]))
  }

  function TaggedMaker(join: Joiner, shopId: Value): Value -> Result<Request> {
    entry => TaggedReviewRequest(join, shopId, entry)
  }

  /**
    `gen_tagged_review_requests(shop_id)`, consumed: one request per tag of every document in the
    collection, whatever shop the document is, each carrying the current shop id at priority 0.
   */
  function TaggedReviewRequests(join: Joiner, docs: seq<Fields>, shopId: Value): (seq<Request>, Option<Error>) {
    DocRequests(docs, "tags", TaggedMaker(join, shopId))
  }

  /** Every tagged-reviews request is for the current shop at priority 0, and without an error there is one per stored tag. */
  lemma TaggedReviewRequestsShape(join: Joiner, docs: seq<Fields>, shopId: Value)
    ensures var out := TaggedReviewRequests(join, docs, shopId);
      && (forall q :: q in out.0 ==>
            q.callback == Some(ParseTaggedReviews) && q.priority == 0 && "shop_id" in q.meta && q.meta["shop_id"] == shopId)
      && (out.1.None? ==> |out.0| == TotalEntries(docs, "tags"))
  {
    var out := TaggedReviewRequests(join, docs, shopId);
    forall q | q in out.0
      ensures q.callback == Some(ParseTaggedReviews) && q.priority == 0 && "shop_id" in q.meta && q.meta["shop_id"] == shopId
    {
      DocRequestsMade(docs, "tags", TaggedMaker(join, shopId), q);
      var k, x :| 0 <= k < |docs| && EntriesOf(docs[k], "tags").Ok? && x in EntriesOf(docs[k], "tags").value && TaggedMaker(join, shopId)(x) == Ok(q);
      assert TaggedReviewRequest(join, shopId, x) == Ok(q);
    }
  }

  /**
    On the last page the tagged-review requests never reach the ledger: the handler leaves the
    ledger's identities as they were, so none of those requests gets an entry it did not have.
   */
  lemma TaggedNeverAdmitted(t: Table, request: Request, join: Joiner, docs: seq<Fields>, shopId: Value)
    requires t.Valid()
    ensures forall q :: q in TaggedReviewRequests(join, docs, shopId).0 && RequestId(q) !in t.docs ==>
      RequestId(q) !in AfterMark(t, Some(request)).docs
  {
    AfterMarkFlags(t, Some(request));
  }

  // ---------------------------------------------------------------- the spider

  class ReviewSpider {
    const join: Joiner
    const ledger: DeltaLedger
    /** `db_collection`: the `review` collection this spider writes. */
    const store: MongoCollection
    /** `db['food']`: the shops the food spider stored. */
    const food: MongoCollection

    ghost predicate Valid()
      reads this, ledger, store, food
    {
      ledger.Valid() && store.Valid() && food.Valid() && store != food
    }

    constructor (join: Joiner, ledger: DeltaLedger, store: MongoCollection, food: MongoCollection)
      requires ledger.Valid() && store.Valid() && food.Valid() && store != food
      ensures Valid()
      ensures this.join == join && this.ledger == ledger && this.store == store && this.food == food
    {
      this.join := join;
      this.ledger := ledger;
      this.store := store;
      this.food := food;
    }

    /**
      `start_requests`, consumed: the ledger's unfinished requests first, then the tags-API request
      of each stored shop that the ledger admits, until the first shop that raises.
     */
    method StartRequests() returns (out: seq<Request>, err: Option<Error>)
      requires Valid()
      modifies ledger
      ensures Valid()
      ensures var built := Requests(Find(food.contents), TagsApiMaker(join));
        && out == Unfinished(old(ledger.table)) + NotFinishedIn(old(ledger.table), built.0)
        && err == built.1
        && ledger.table == AfterCheckAll(old(ledger.table), built.0)
    {
      var unfinished := Unfinished(ledger.table);
      var built := Requests(Find(food.contents), TagsApiMaker(join));
      var kept := ledger.AdmitAll(built.0);
      out := unfinished + kept;
      err := built.1;
    }

    /**
      `parse` (the tags API's answer): saves the shop with its tags, then admits the request for
      the first page of all reviews before marking the answered request finished; returns that
      request, or nothing when the ledger already holds it finished.
     */
    method Parse(request: Request, summarys: seq<Summary>, dishTags: Value) returns (r: Result<Option<Request>>)
      requires Valid()
      modifies ledger, store
      ensures Valid()
      ensures var meta := request.meta;
        && ("shop_id" !in meta ==> r == Err(KeyError("shop_id")))
        && ("shop_id" in meta && "shop_url" !in meta ==> r == Err(KeyError("shop_url")))
        && ("shop_id" !in meta || "shop_url" !in meta ==>
              store.contents == old(store.contents) && ledger.table == old(ledger.table))
      ensures var meta := request.meta; "shop_id" in meta && "shop_url" in meta ==>
        store.contents == Insert(old(store.contents), ShopDoc(meta["shop_id"], summarys, dishTags)).0
      ensures var meta := request.meta; "shop_id" in meta && "shop_url" in meta && !meta["shop_url"].Text? ==>
        r == Err(TypeError) && ledger.table == old(ledger.table)
      ensures var meta := request.meta; "shop_id" in meta && "shop_url" in meta && meta["shop_url"].Text? ==>
        var next := ReviewAllRequest(join, meta["shop_id"], meta["shop_url"].s);
        && r == Ok(CheckOutcome(old(ledger.table), next))
        && ledger.table == AfterMark(AfterCheck(old(ledger.table), next), Some(request))
    {
      var meta := request.meta;
      if "shop_id" !in meta {
        return Err(KeyError("shop_id"));
      }
      if "shop_url" !in meta {
        return Err(KeyError("shop_url"));
      }
      var shopId := meta["shop_id"];
      var shopUrl := meta["shop_url"];
      var item := ShopDoc(shopId, summarys, dishTags);
      var _ := store.InsertOne(item);
      if !shopUrl.Text? {
        return Err(TypeError);
      }
      var admitted := ledger.CheckThenMark(ReviewAllRequest(join, shopId, shopUrl.s), request);
      return Ok(admitted);
    }

    /**
      `parse_review_all`: appends the page's reviews to the shop. With a next page it admits the
      continuation before marking the page finished. On the last page it builds the tagged-review
      requests lazily and discards them (the handler is a generator), so none is admitted; the
      page is still marked finished, unless the collection is empty and the reduce raises first.
     */
    method ParseReviewAll(request: Request, reviews: seq<Value>, nextHref: Option<string>) returns (r: Result<seq<Request>>)
      requires Valid()
      modifies ledger, store
      ensures Valid()
      ensures "shop_id" !in request.meta ==>
        r == Err(KeyError("shop_id")) && store.contents == old(store.contents) && ledger.table == old(ledger.table)
      ensures "shop_id" in request.meta ==>
        store.contents == Extend(old(store.contents), request.meta["shop_id"], "reviews", reviews)
      ensures "shop_id" in request.meta && nextHref.Some? ==>
        var next := NextPageRequest(join, request.url, nextHref.value, request.meta["shop_id"]);
        && r == Ok(OptionToSeq(CheckOutcome(old(ledger.table), next)))
        && ledger.table == AfterMark(AfterCheck(old(ledger.table), next), Some(request))
      ensures "shop_id" in request.meta && nextHref.None? && old(store.contents).order == [] ==>
        r == Err(EmptyReduce) && ledger.table == old(ledger.table)
      ensures "shop_id" in request.meta && nextHref.None? && old(store.contents).order != [] ==>
        r == Ok([]) && ledger.table == AfterMark(old(ledger.table), Some(request))
    {
      if "shop_id" !in request.meta {
        return Err(KeyError("shop_id"));
      }
      var shopId := request.meta["shop_id"];
      store.ExtendField(shopId, "reviews", reviews);
      if nextHref.Some? {
        var admitted := ledger.CheckThenMark(NextPageRequest(join, request.url, nextHref.value, shopId), request);
        return Ok(OptionToSeq(admitted));
      }
      r := LastReviewPage(request, shopId);
    }

    /** The last page of all reviews: the tagged-review requests are built but never admitted. */
    method LastReviewPage(request: Request, shopId: Value) returns (r: Result<seq<Request>>)
      requires Valid()
      modifies ledger
      ensures Valid()
      ensures store.contents.order == [] ==> r == Err(EmptyReduce) && ledger.table == old(ledger.table)
      ensures store.contents.order != [] ==> r == Ok([]) && ledger.table == AfterMark(old(ledger.table), Some(request))
    {
      var docs := Find(store.contents);
      if docs == [] {
        return Err(EmptyReduce);
      }
      var tagged := TaggedReviewRequests(join, docs, shopId);
      var _ := ledger.CheckRequests(tagged.0, false);
      ledger.MarkAsFinished(Some(request));
      return Ok([]);
    }

    /**
      `parse_tagged_reviews`: with a parsed page the reviews are appended to the shop and the
      request is marked finished; a page that does not parse changes nothing, so the request stays
      unfinished.
     */
    method ParseTaggedReviews(request: Request, parsed: Option<seq<Value>>) returns (err: Option<Error>)
      requires Valid()
      modifies ledger, store
      ensures Valid()
      ensures "tag" !in request.meta ==> err == Some(KeyError("tag"))
      ensures "tag" in request.meta && "shop_id" !in request.meta ==> err == Some(KeyError("shop_id"))
      ensures err.None? <==> "tag" in request.meta && "shop_id" in request.meta
      ensures err.Some? || parsed.None? ==>
        store.contents == old(store.contents) && ledger.table == old(ledger.table)
      ensures err.None? && parsed.Some? ==>
        && store.contents == Extend(old(store.contents), request.meta["shop_id"], "tagged_reviews", parsed.value)
        && ledger.table == AfterMark(old(ledger.table), Some(request))
    {
      if "tag" !in request.meta {
        return Some(KeyError("tag"));
      }
      if "shop_id" !in request.meta {
        return Some(KeyError("shop_id"));
      }
      var shopId := request.meta["shop_id"];
      if parsed.Some? {
        store.ExtendField(shopId, "tagged_reviews", parsed.value);
        ledger.MarkAsFinished(Some(request));
      }
      return None;
    }
  }
}
