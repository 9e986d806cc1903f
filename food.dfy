/**
  `FoodSpider`: walks the food listings of each city down to shop pages, and builds one item per
  shop across a chain of callbacks that share the item by reference. The tags API fills in the
  item's tags and queues one tagged-reviews request per tag. The review pages fill in its reviews.
  The queued requests are then popped one at a time, last first, until the item itself is returned.
 */
module Food {
  import opened Wrappers
  import opened Strings
  import opened Values
  import opened Api
  import BaseSpider

  /** The spider's `name`, also the category's URL name in the tags API. */
  const Name := "food"

  /** `CATEGORY_ID`: the food category. */
  const CategoryId := 10

  /** `CATEGORY_ID` as the format strings render it. */
  const CategoryIdText := "10"

  lemma CategoryIdRendering()
    ensures Show(CategoryId) == CategoryIdText
  {
    assert Show(1) == "1";
  }

  /** The listing path prefix (`prefix` in `parse`). */
  const CategoryPrefix := "/search/category"

  /** The selectors of the red-square average score, 0 to 5. */
  const MidStrClasses := [".mid-str0", ".mid-str10", ".mid-str20", ".mid-str30", ".mid-str40", ".mid-str50"]

  /** The callbacks a request of this spider can name. */
  datatype Callback = ToParse | ToIndex | ToDetail | ToParseTagsApi | ToParseReviewAll | ToParseTaggedReviews

  /** A meta entry: a plain value, or the shop item itself, shared by reference. */
  datatype MetaValue = Plain(v: Value) | ItemRef(item: ShopItem)

  type Meta = map<string, MetaValue>

  datatype FoodRequest = FoodRequest(url: string, callback: Callback, meta: Meta)

  /** What `parse_tagged_reviews` returns: the next queued request, or the finished item. */
  datatype Output = Follow(request: FoodRequest) | Emit(item: ShopItem)

  /** The shop item dict that the callbacks extend in place. */
  class ShopItem {
    var id: Value
    var name: string
    var address: string
    var telephones: seq<string>
    var averagePrice: Option<nat>
    var averageScore: Option<nat>
    var recommendCuisines: Value
    var tags: seq<Value>
    var reviews: seq<Value>
    var taggedReviews: seq<Value>
    /** `_requests`: the queued tagged-reviews requests; None while the key is absent. */
    var pending: Option<seq<FoodRequest>>

    constructor (id: Value, name: string, address: string, telephones: seq<string>,
                 averagePrice: Option<nat>, averageScore: Option<nat>)
      ensures this.id == id && this.name == name && this.address == address
      ensures this.telephones == telephones
      ensures this.averagePrice == averagePrice && this.averageScore == averageScore
      ensures recommendCuisines == List([]) && tags == [] && reviews == [] && taggedReviews == []
      ensures pending == None
    {
      this.id := id;
      this.name := name;
      this.address := address;
      this.telephones := telephones;
      this.averagePrice := averagePrice;
      this.averageScore := averageScore;
      recommendCuisines := List([]);
      tags := [];
      reviews := [];
      taggedReviews := [];
      pending := None;
    }

    /** The fields `detail` fills in from the shop page, which the later callbacks leave alone. */
    function Profile(): (Value, string, string, seq<string>, Option<nat>, Option<nat>)
      reads this
    {
      (id, name, address, telephones, averagePrice, averageScore)
    }

    /** The document the pipeline stores for an emitted item (whose `_requests` key is gone). */
    function Doc(): (d: Fields)
      reads this
      ensures d.Keys == {"_id", "name", "address", "telephones", "average_price", "average_score",
                         "recommend_cuisines", "tags", "reviews", "tagged_reviews"}
      ensures d["_id"] == id && d["tags"] == List(tags) && d["reviews"] == List(reviews)
      ensures d["tagged_reviews"] == List(taggedReviews)
    {
      var phones := telephones;
      map["_id" := id, "name" := Text(name), "address" := Text(address),
          "telephones" := List(seq(|phones|, k requires 0 <= k < |phones| => Text(phones[k]))),
          "average_price" := OptionalNumber(averagePrice), "average_score" := OptionalNumber(averageScore),
          "recommend_cuisines" := recommendCuisines, "tags" := List(tags), "reviews" := List(reviews),
          "tagged_reviews" := List(taggedReviews)]
    }
  }

  /** The abstract content of a shop page. */
  datatype ShopPage = ShopPage(
    name: string,                 // the shop name text, before stripping
    address: string,              // the address text, before stripping
    telephones: seq<string>,
    avgPriceText: string,         // the `#avgPriceTitle` text
    briefInfo: string -> bool)    // whether a selector matches inside `.brief-info`

  /** `'{}'.format(x)` for a meta entry; the item dict is not rendered. */
  function FormatMeta(m: MetaValue): (r: Result<string>)
    ensures r.Ok? <==> m.Plain? && Format(m.v).Ok?
  {
    match m
    case Plain(v) => Format(v)
    case ItemRef(_) => Err(TypeError)
  }

  /** `response.meta['item']`, used as a dict: KeyError when absent, TypeError when it is not the item. */
  function ItemOf(meta: Meta): (r: Result<ShopItem>)
    ensures r.Ok? <==> "item" in meta && meta["item"].ItemRef?
    ensures r.Ok? ==> r.value == meta["item"].item
    ensures "item" !in meta ==> r == Err(KeyError("item"))
  {
    if "item" !in meta then Err(KeyError("item"))
    else if meta["item"].ItemRef? then Ok(meta["item"].item)
    else Err(TypeError)
  }

  /** The objects a callback given `meta` may change: the item it carries, if any. */
  function MetaItem(meta: Meta): set<ShopItem> {
    if "item" in meta && meta["item"].ItemRef? then {meta["item"].item} else {}
  }

  // ---------------------------------------------------------------- start_requests

  /**
    The listing request of one `(city_id, city_name)` setting. The program joins the template to
    the host first and fills in the city id and category afterwards; the model fills them in first
    and joins the filled path, which is the same URL as long as the join leaves the template's
    `{}` fields in place, as joining a path to the host does.
   */
  function CityRequest(join: Joiner, city: (int, string)): (r: FoodRequest)
    ensures r.callback == ToParse && r.meta.Keys == {"city_id", "city_name"}
    ensures r.meta["city_id"] == Plain(Number(city.0)) && r.meta["city_name"] == Plain(Text(city.1))
  {
    FoodRequest(AddHost(join, CategoryPrefix + "/" + ShowInt(city.0) + "/" + CategoryIdText), ToParse,
                map["city_id" := Plain(Number(city.0)), "city_name" := Plain(Text(city.1))])
  }

  lemma CityRequestsStep(join: Joiner, cities: seq<(int, string)>, i: nat)
    requires i < |cities|
    ensures CityRequests(join, cities[..i + 1]) == CityRequests(join, cities[..i]) + [CityRequest(join, cities[i])]
  {
    var a := CityRequests(join, cities[..i + 1]);
    var b := CityRequests(join, cities[..i]) + [CityRequest(join, cities[i])];
    assert |a| == |b|;
    forall k | 0 <= k < |a|
      ensures a[k] == b[k]
    {
      assert cities[..i + 1][k] == cities[k];
    }
  }

  /** One listing request per configured city, in order. */
  function CityRequests(join: Joiner, cities: seq<(int, string)>): (rs: seq<FoodRequest>)
    ensures |rs| == |cities|
    ensures forall k :: 0 <= k < |cities| ==> rs[k] == CityRequest(join, cities[k])
  {
    seq(|cities|, k requires 0 <= k < |cities| => CityRequest(join, cities[k]))
  }

  // ---------------------------------------------------------------- parse

  /** `aa2suffix` on hrefs: the text after the last '/' of each href under `/search/category`, in order. */
  function CategorySuffixes(urls: seq<string>): (ss: seq<string>)
    ensures |ss| <= |urls|
  {
    if urls == [] then []
    else
      var u := urls[|urls| - 1];
      CategorySuffixes(urls[..|urls| - 1]) + (if StartsWith(u, CategoryPrefix) then [LastSegment(u)] else [])
  }

  /** `aa2suffix(aa)`, KeyError included. */
  function SuffixesOf(aa: seq<BaseSpider.Anchor>): Result<seq<string>> {
    match BaseSpider.Attrs(aa, BaseSpider.Href)
    case Err(e) => Err(e)
    case Ok(urls) => Ok(CategorySuffixes(urls))
  }

  /** A suffix is kept exactly when some href under the prefix ends in it. */
  lemma {:induction false} CategorySuffixesMember(urls: seq<string>, s: string)
    ensures s in CategorySuffixes(urls) <==> exists k :: 0 <= k < |urls| && KeepsAs(urls[k], s)
  {
    if urls != [] {
      var n := |urls| - 1;
      var init := urls[..n];
      CategorySuffixesMember(init, s);
      assert s in CategorySuffixes(urls) <==> s in CategorySuffixes(init) || KeepsAs(urls[n], s);
      if s in CategorySuffixes(init) {
        var k :| 0 <= k < n && KeepsAs(init[k], s);
        assert urls[k] == init[k];
      }
      if exists k :: 0 <= k < |urls| && KeepsAs(urls[k], s) {
        var k :| 0 <= k < |urls| && KeepsAs(urls[k], s);
        if k < n {
          assert init[k] == urls[k];
        }
      }
    }
  }

  /** Href `u` lies under the category prefix and ends in suffix `s`. */
  predicate KeepsAs(u: string, s: string) {
    StartsWith(u, CategoryPrefix) && LastSegment(u) == s
  }

  /** Suffixes of concatenated href lists concatenate: the order of the hrefs is kept. */
  lemma {:induction false} CategorySuffixesAppend(u: seq<string>, v: seq<string>)
    ensures CategorySuffixes(u + v) == CategorySuffixes(u) + CategorySuffixes(v)
    decreases |v|
  {
    if v == [] {
      assert u + v == u;
    } else {
      var n := |v| - 1;
      assert (u + v)[..|u + v| - 1] == u + v[..n];
      CategorySuffixesAppend(u, v[..n]);
    }
  }

  /** `'{}/{}/{}/{}{}'.format(prefix, city_id, CATEGORY_ID, c, a)`. */
  function IndexPath(cityId: string, c: string, a: string): string {
    CategoryPrefix + "/" + cityId + "/" + CategoryIdText + "/" + c + a
  }

  /** The index request of category suffix `c` and area suffix `a`. */
  function IndexRequest(join: Joiner, cityId: string, c: string, a: string, meta: Meta): FoodRequest {
    FoodRequest(AddHost(join, IndexPath(cityId, c, a)), ToIndex, meta)
  }

  /** The inner loop: one index request per area, for one category. */
  function Row(join: Joiner, cityId: string, c: string, areas: seq<string>, meta: Meta): (row: seq<FoodRequest>)
    ensures |row| == |areas|
    ensures forall j :: 0 <= j < |areas| ==> row[j] == IndexRequest(join, cityId, c, areas[j], meta)
  {
    seq(|areas|, j requires 0 <= j < |areas| => IndexRequest(join, cityId, c, areas[j], meta))
  }

  /** Both loops: the rows of the categories, category by category. */
  function Grid(join: Joiner, cityId: string, cs: seq<string>, areas: seq<string>, meta: Meta): seq<FoodRequest> {
    if cs == [] then []
    else Grid(join, cityId, cs[..|cs| - 1], areas, meta) + Row(join, cityId, cs[|cs| - 1], areas, meta)
  }

  /** What `parse` returns: KeyError or TypeError on the city id, KeyError on an anchor without href, else the grid. */
  function ParseResult(join: Joiner, meta: Meta, classfy: seq<BaseSpider.Anchor>, area: seq<BaseSpider.Anchor>): Result<seq<FoodRequest>> {
    if "city_id" !in meta then Err(KeyError("city_id"))
    else
      match SuffixesOf(classfy)
      case Err(e) => Err(e)
      case Ok(cs) =>
        match SuffixesOf(area)
        case Err(e) => Err(e)
        case Ok(areas) =>
          match FormatMeta(meta["city_id"])
          case Err(e) => if cs != [] && areas != [] then Err(e) else Ok([])
          case Ok(cityId) => Ok(Grid(join, cityId, cs, areas, meta))
  }

  /** The grid has |categories| × |areas| requests. */
  lemma {:induction false} GridSize(join: Joiner, cityId: string, cs: seq<string>, areas: seq<string>, meta: Meta)
    ensures |Grid(join, cityId, cs, areas, meta)| == |cs| * |areas|
  {
    if cs != [] {
      GridSize(join, cityId, cs[..|cs| - 1], areas, meta);
      assert (|cs| - 1) * |areas| + |areas| == |cs| * |areas|;
    }
  }

  /** The grid is category-major: entry `i * |areas| + j` is the request of category `i` and area `j`. */
  lemma {:induction false} GridAt(join: Joiner, cityId: string, cs: seq<string>, areas: seq<string>, meta: Meta, i: nat, j: nat)
    requires i < |cs| && j < |areas|
    ensures i * |areas| + j < |Grid(join, cityId, cs, areas, meta)|
    ensures Grid(join, cityId, cs, areas, meta)[i * |areas| + j] == IndexRequest(join, cityId, cs[i], areas[j], meta)
  {
    var n := |cs| - 1;
    var m := |areas|;
    var init := cs[..n];
    GridSize(join, cityId, cs, areas, meta);
    GridSize(join, cityId, init, areas, meta);
    assert |Grid(join, cityId, init, areas, meta)| == n * m;
    if i < n {
      GridAt(join, cityId, init, areas, meta, i, j);
      assert init[i] == cs[i];
    } else {
      assert i * m == n * m;
    }
  }

  // ---------------------------------------------------------------- index

  /** The detail request of a listing href: its `shop_id` is the last segment of the full URL. */
  function DetailRequest(join: Joiner, href: string, meta: Meta): FoodRequest {
    var url := AddHost(join, href);
    FoodRequest(url, ToDetail, meta["shop_id" := Plain(Text(LastSegment(url)))])
  }

  function DetailRequests(join: Joiner, hrefs: seq<string>, meta: Meta): (rs: seq<FoodRequest>)
    ensures |rs| == |hrefs|
    ensures forall k :: 0 <= k < |hrefs| ==> rs[k] == DetailRequest(join, hrefs[k], meta)
  {
    if hrefs == [] then [] else DetailRequests(join, hrefs[..|hrefs| - 1], meta) + [DetailRequest(join, hrefs[|hrefs| - 1], meta)]
  }

  /** What the `index` generator yields, and the exception that ends it early, if any. */
  function IndexOutput(join: Joiner, meta: Meta, listing: seq<BaseSpider.Anchor>, next: seq<BaseSpider.Anchor>): (seq<FoodRequest>, Option<Error>) {
    match BaseSpider.Attrs(listing, BaseSpider.Href)
    case Err(e) => ([], Some(e))
    case Ok(hrefs) =>
      var details := DetailRequests(join, hrefs, meta);
      if next == [] then (details, None)
      else
        match BaseSpider.Attrs(next, BaseSpider.Href)
        case Err(e) => (details, Some(e))
        case Ok(nexts) => (details + [FoodRequest(AddHost(join, nexts[0]), ToIndex, meta)], None)
  }

  /**
    `index` yields one detail request per listing link, carrying the shop id from the link, and
    after them at most one index continuation, only when a next link exists, with the parent's meta.
   */
  lemma IndexShape(join: Joiner, meta: Meta, listing: seq<BaseSpider.Anchor>, next: seq<BaseSpider.Anchor>)
    requires BaseSpider.Attrs(listing, BaseSpider.Href).Ok?
    ensures var out := IndexOutput(join, meta, listing, next).0;
      && |out| == |listing| + (if next != [] && BaseSpider.Attrs(next, BaseSpider.Href).Ok? then 1 else 0)
      && (forall k :: 0 <= k < |listing| ==>
            out[k].callback == ToDetail && out[k].url == AddHost(join, listing[k]["href"])
            && out[k].meta == meta["shop_id" := Plain(Text(LastSegment(out[k].url)))])
      && (forall k :: |listing| <= k < |out| ==> out[k].callback == ToIndex && out[k].meta == meta)
  {
  }

  // ---------------------------------------------------------------- detail

  /** The tags-API URL of a shop page: KeyError for a missing id or name, TypeError for one that does not format. */
  function TagsApiUrl(join: Joiner, meta: Meta): (r: Result<string>)
    ensures r.Ok? <==>
      && "shop_id" in meta && "city_id" in meta && "city_name" in meta
      && FormatMeta(meta["shop_id"]).Ok? && FormatMeta(meta["city_id"]).Ok? && FormatMeta(meta["city_name"]).Ok?
    ensures "shop_id" !in meta ==> r == Err(KeyError("shop_id"))
    ensures "shop_id" in meta && "city_id" !in meta ==> r == Err(KeyError("city_id"))
    ensures "shop_id" in meta && "city_id" in meta && "city_name" !in meta ==> r == Err(KeyError("city_name"))
  {
    if "shop_id" !in meta then Err(KeyError("shop_id"))
    else if "city_id" !in meta then Err(KeyError("city_id"))
    else if "city_name" !in meta then Err(KeyError("city_name"))
    else
      match FormatMeta(meta["shop_id"])
      case Err(e) => Err(e)
      case Ok(shopId) =>
        match FormatMeta(meta["city_id"])
        case Err(e) => Err(e)
        case Ok(cityId) =>
          match FormatMeta(meta["city_name"])
          case Err(e) => Err(e)
          case Ok(cityName) => Ok(AddHost(join, TagsApiPath(shopId, cityId, Name, cityName, CategoryIdText)))
  }

  // ---------------------------------------------------------------- parse_tags_api

  /** The tagged-reviews request of one tag; its meta adds the tag to the parent's. */
  function TaggedRequest(join: Joiner, name: string, shopId: string, meta: Meta): FoodRequest {
    FoodRequest(AddHost(join, TaggedApiPath(name, shopId)), ToParseTaggedReviews, meta["tag" := Plain(Text(name))])
  }

  /** One queued request per summary, in summary order. */
  function TaggedRequests(join: Joiner, summarys: seq<Summary>, shopId: string, meta: Meta): (rs: seq<FoodRequest>)
    ensures |rs| == |summarys|
    ensures forall k :: 0 <= k < |summarys| ==>
      rs[k] == TaggedRequest(join, summarys[k].name, shopId, meta)
  {
    seq(|summarys|, k requires 0 <= k < |summarys| => TaggedRequest(join, summarys[k].name, shopId, meta))
  }

  /** When `parse_tags_api` gets through: shop id and item present, the shop id formats if it is used, and a string `url`. */
  predicate TagsApiOk(meta: Meta, summarys: seq<Summary>) {
    && "shop_id" in meta
    && ItemOf(meta).Ok?
    && (summarys != [] ==> FormatMeta(meta["shop_id"]).Ok?)
    && "url" in meta && meta["url"].Plain? && meta["url"].v.Text?
  }

  // ---------------------------------------------------------------- the pending queue

  /** One `parse_review_all` on the last review page: the popped request, if any, and what stays queued. */
  function LastPageStep(p: seq<FoodRequest>): (step: (seq<FoodRequest>, seq<FoodRequest>))
    ensures p == [] ==> step == ([], [])
    ensures p != [] ==> step == ([p[|p| - 1]], p[..|p| - 1])
  {
    if p == [] then ([], []) else ([p[|p| - 1]], p[..|p| - 1])
  }

  /** One `parse_tagged_reviews`: the popped request, or the item once the queue is empty (and then deleted). */
  datatype Step = Follows(request: FoodRequest) | Emits

  function TaggedStep(p: seq<FoodRequest>): (step: (Step, Option<seq<FoodRequest>>))
    ensures p == [] <==> step == (Emits, None)
    ensures p != [] ==> step == (Follows(p[|p| - 1]), Some(p[..|p| - 1]))
  {
    if p == [] then (Emits, None) else (Follows(p[|p| - 1]), Some(p[..|p| - 1]))
  }

  /** The outputs of the tagged-reviews callbacks run one after another on the queue `p`. */
  function TaggedRun(p: seq<FoodRequest>): seq<Step>
    decreases |p|
  {
    var (s, rest) := TaggedStep(p);
    if rest.None? then [s] else [s] + TaggedRun(rest.value)
  }

  /** Everything yielded for a shop once its last review page is parsed with queue `p`. */
  function AfterReviews(p: seq<FoodRequest>): seq<Step> {
    var (out, rest) := LastPageStep(p);
    if out == [] then [] else [Follows(out[0])] + TaggedRun(rest)
  }

  /** The requests `rs` followed in reverse order. */
  function FollowsReversed(rs: seq<FoodRequest>): (steps: seq<Step>)
    ensures |steps| == |rs|
    ensures forall k :: 0 <= k < |rs| ==> steps[k] == Follows(rs[|rs| - 1 - k])
  {
    if rs == [] then [] else [Follows(rs[|rs| - 1])] + FollowsReversed(rs[..|rs| - 1])
  }

  /** The number of times the item is returned. */
  function Emitted(steps: seq<Step>): nat {
    if steps == [] then 0 else (if steps[0] == Emits then 1 else 0) + Emitted(steps[1..])
  }

  lemma {:induction false} EmittedAppend(a: seq<Step>, b: seq<Step>)
    ensures Emitted(a + b) == Emitted(a) + Emitted(b)
  {
    if a == [] {
      assert a + b == b;
    } else {
      assert (a + b)[1..] == a[1..] + b;
      EmittedAppend(a[1..], b);
    }
  }

  lemma {:induction false} NoFollowEmits(rs: seq<FoodRequest>)
    ensures Emitted(FollowsReversed(rs)) == 0
  {
    if rs != [] {
      var steps := FollowsReversed(rs);
      assert steps[1..] == FollowsReversed(rs[..|rs| - 1]);
      NoFollowEmits(rs[..|rs| - 1]);
    }
  }

  /** The queue is consumed last in, first out, and the item is returned once, after every queued request. */
  lemma {:induction false} TaggedRunLifo(p: seq<FoodRequest>)
    ensures TaggedRun(p) == FollowsReversed(p) + [Emits]
    decreases |p|
  {
    if p != [] {
      TaggedRunLifo(p[..|p| - 1]);
    }
  }

  /**
    After the last review page, a shop with k ≥ 1 tags yields its k tagged-review requests, last
    tag first, and then the item exactly once; a shop with no tags yields nothing, so its item never
    reaches the pipeline.
   */
  lemma AfterReviewsShape(p: seq<FoodRequest>)
    ensures p == [] ==> AfterReviews(p) == []
    ensures p != [] ==> AfterReviews(p) == FollowsReversed(p) + [Emits]
    ensures Emitted(AfterReviews(p)) == if p == [] then 0 else 1
  {
    if p != [] {
      var init := p[..|p| - 1];
      TaggedRunLifo(init);
      assert FollowsReversed(p) == [Follows(p[|p| - 1])] + FollowsReversed(init);
      NoFollowEmits(p);
      EmittedAppend(FollowsReversed(p), [Emits]);
      assert Emitted([Emits]) == 1;
    }
  }

  // ---------------------------------------------------------------- the spider

  class FoodSpider {
    /** `urljoin`. */
    const join: Joiner

    constructor (join: Joiner)
      ensures this.join == join
    {
      this.join := join;
    }

    /** `start_requests`: one listing request per configured city, with the city in its meta. */
    method StartRequests(cityIds: seq<(int, string)>) returns (rs: seq<FoodRequest>)
      ensures rs == CityRequests(join, cityIds)
    {
      rs := [];
      for i := 0 to |cityIds|
        invariant rs == CityRequests(join, cityIds[..i])
      {
        CityRequestsStep(join, cityIds, i);
        rs := rs + [CityRequest(join, cityIds[i])];
      }
      assert cityIds[..|cityIds|] == cityIds;
    }

    /** `aa2suffix`: the category suffixes of the anchors' hrefs. */
    method Aa2Suffix(aa: seq<BaseSpider.Anchor>) returns (r: Result<seq<string>>)
      ensures r == SuffixesOf(aa)
    {
      var urls := BaseSpider.Aa2Urls(aa);
      if urls.Err? {
        return Err(urls.error);
      }
      var suffixes: seq<string> := [];
      for i := 0 to |urls.value|
        invariant suffixes == CategorySuffixes(urls.value[..i])
      {
        var url := urls.value[i];
        assert urls.value[..i + 1][..i] == urls.value[..i];
        if StartsWith(url, CategoryPrefix) {
          suffixes := suffixes + [LastSegment(url)];
        }
      }
      assert urls.value[..|urls.value|] == urls.value;
      return Ok(suffixes);
    }

    /** `parse`: one index request per (category, area) pair, category-major, with the parent's meta. */
    method Parse(meta: Meta, classfy: seq<BaseSpider.Anchor>, area: seq<BaseSpider.Anchor>) returns (r: Result<seq<FoodRequest>>)
      ensures r == ParseResult(join, meta, classfy, area)
    {
      if "city_id" !in meta {
        return Err(KeyError("city_id"));
      }
      var classfies := Aa2Suffix(classfy);
      if classfies.Err? {
        return Err(classfies.error);
      }
      var areas := Aa2Suffix(area);
      if areas.Err? {
        return Err(areas.error);
      }
      var cs, as_ := classfies.value, areas.value;
      var cityId := FormatMeta(meta["city_id"]);
      var requests: seq<FoodRequest> := [];
      for i := 0 to |cs|
        invariant cityId.Ok? ==> requests == Grid(join, cityId.value, cs[..i], as_, meta)
        invariant cityId.Err? ==> requests == [] && (as_ == [] || i == 0)
      {
        assert cs[..i + 1][..i] == cs[..i];
        for j := 0 to |as_|
          invariant cityId.Ok? ==> requests == Grid(join, cityId.value, cs[..i], as_, meta) + Row(join, cityId.value, cs[i], as_[..j], meta)
          invariant cityId.Err? ==> requests == [] && (as_ == [] || i == 0) && j == 0
        {
          if cityId.Err? {
            return Err(cityId.error);
          }
          requests := requests + [IndexRequest(join, cityId.value, cs[i], as_[j], meta)];
        }
        assert as_[..|as_|] == as_;
      }
      assert cs[..|cs|] == cs;
      return Ok(requests);
    }

    /** `index`: the detail requests of the listing, then the next listing page if there is one. */
    method Index(meta: Meta, listing: seq<BaseSpider.Anchor>, next: seq<BaseSpider.Anchor>) returns (out: seq<FoodRequest>, err: Option<Error>)
      ensures (out, err) == IndexOutput(join, meta, listing, next)
    {
      var urls := BaseSpider.Aa2Urls(listing);
      if urls.Err? {
        return [], Some(urls.error);
      }
      out := [];
      for i := 0 to |urls.value|
        invariant out == DetailRequests(join, urls.value[..i], meta)
      {
        assert urls.value[..i + 1][..i] == urls.value[..i];
        var url := AddHost(join, urls.value[i]);
        var shopId := LastSegment(url);
        out := out + [FoodRequest(url, ToDetail, meta["shop_id" := Plain(Text(shopId))])];
      }
      assert urls.value[..|urls.value|] == urls.value;
      if next != [] {
        var nexts := BaseSpider.Aa2Urls(next);
        if nexts.Err? {
          return out, Some(nexts.error);
        }
        out := out + [FoodRequest(AddHost(join, nexts.value[0]), ToIndex, meta)];
      }
      err := None;
    }

    /** The item `detail` builds from a shop page, before any tag or review is added. */
    static method NewShopItem(id: Value, page: ShopPage) returns (item: ShopItem)
      ensures fresh(item)
      ensures item.id == id && item.name == Strip(page.name) && item.address == Strip(page.address)
      ensures item.telephones == page.telephones
      ensures item.averagePrice == BaseSpider.ExtractIntAsWritten(page.avgPriceText)
      ensures BaseSpider.IsFirstMatch(page.briefInfo, MidStrClasses, item.averageScore)
      ensures item.recommendCuisines == List([]) && item.tags == [] && item.reviews == [] && item.taggedReviews == []
      ensures item.pending == None
    {
      var averagePrice := BaseSpider.ExtractIntAsWritten(page.avgPriceText);
      var averageScore := BaseSpider.FindClassesExists(page.briefInfo, MidStrClasses);
      item := new ShopItem(id, Strip(page.name), Strip(page.address), page.telephones, averagePrice, averageScore);
    }

    /**
      `detail`: a fresh item with `_id` = the shop id, the page's name, address, phones, average
      price and score, and empty lists, carried by the single tags-API request it returns.
     */
    method Detail(meta: Meta, requestUrl: string, page: ShopPage) returns (r: Result<FoodRequest>)
      ensures r.Ok? <==> TagsApiUrl(join, meta).Ok?
      ensures r.Err? ==> r.error == TagsApiUrl(join, meta).error
      ensures r.Ok? ==>
        && r.value.url == TagsApiUrl(join, meta).value && r.value.callback == ToParseTagsApi
        && "item" in r.value.meta && r.value.meta["item"].ItemRef?
        && r.value.meta == meta["item" := r.value.meta["item"]]["url" := Plain(Text(requestUrl))]
      ensures r.Ok? ==> var item := r.value.meta["item"].item;
        && fresh(item)
        && item.id == meta["shop_id"].v && item.name == Strip(page.name) && item.address == Strip(page.address)
        && item.telephones == page.telephones
        && item.averagePrice == BaseSpider.ExtractIntAsWritten(page.avgPriceText)
        && BaseSpider.IsFirstMatch(page.briefInfo, MidStrClasses, item.averageScore)
        && item.recommendCuisines == List([]) && item.tags == [] && item.reviews == [] && item.taggedReviews == []
        && item.pending == None
    {
      var url := TagsApiUrl(join, meta);
      if url.Err? {
        return Err(url.error);
      }
      var item := NewShopItem(meta["shop_id"].v, page);
      var m := meta["item" := ItemRef(item)]["url" := Plain(Text(requestUrl))];
      assert "item" != "url" && m["item"] == ItemRef(item);
      return Ok(FoodRequest(url.value, ToParseTagsApi, m));
    }

    /**
      The loop of `parse_tags_api` over the summaries: each appends its tag, then queues its
      request; a shop id that does not format raises right after the first tag is appended.
     */
    method QueueTags(item: ShopItem, meta: Meta, summarys: seq<Summary>, shopId: Result<string>) returns (failed: Option<Error>)
      modifies item
      ensures var fails := summarys != [] && shopId.Err?;
        && failed == (if fails then Some(shopId.error) else None)
        && item.tags == old(item.tags) + TagPairs(if fails then summarys[..1] else summarys)
        && item.pending == Some(if fails || summarys == [] then [] else TaggedRequests(join, summarys, shopId.value, meta))
      ensures item.Profile() == old(item.Profile()) && item.recommendCuisines == old(item.recommendCuisines)
      ensures item.reviews == old(item.reviews) && item.taggedReviews == old(item.taggedReviews)
    {
      item.pending := Some([]);
      for i := 0 to |summarys|
        invariant item.tags == old(item.tags) + TagPairs(summarys[..i])
        invariant item.pending.Some? && |item.pending.value| == i
        invariant shopId.Ok? ==> forall k :: 0 <= k < i ==>
          item.pending.value[k] == TaggedRequest(join, summarys[k].name, shopId.value, meta)
        invariant shopId.Err? ==> i == 0
        invariant item.reviews == old(item.reviews) && item.taggedReviews == old(item.taggedReviews)
        invariant item.Profile() == old(item.Profile()) && item.recommendCuisines == old(item.recommendCuisines)
      {
        var tag := summarys[i];
        assert TagPairs(summarys[..i + 1]) == TagPairs(summarys[..i]) + [Pair(tag.name, tag.count)];
        item.tags := item.tags + [Pair(tag.name, tag.count)];
        if shopId.Err? {
          assert summarys[..1] == summarys[..i + 1];
          return Some(shopId.error);
        }
        var request := TaggedRequest(join, tag.name, shopId.value, meta);
        item.pending := Some(item.pending.value + [request]);
      }
      assert summarys[..|summarys|] == summarys;
      assert shopId.Ok? ==> item.pending.value == TaggedRequests(join, summarys, shopId.value, meta);
      return None;
    }

    /**
      `parse_tags_api`: appends one tag and queues one tagged-reviews request per summary, in order,
      sets the recommended dishes, and returns the one request for the first page of all reviews.
     */
    method ParseTagsApi(meta: Meta, summarys: seq<Summary>, dishTags: Value) returns (r: Result<FoodRequest>)
      modifies MetaItem(meta)
      ensures r.Ok? <==> TagsApiOk(meta, summarys)
      ensures "shop_id" !in meta ==> r == Err(KeyError("shop_id"))
      ensures "shop_id" !in meta && ItemOf(meta).Ok? ==> var item := meta["item"].item;
        && item.tags == old(item.tags) && item.pending == old(item.pending)
        && item.recommendCuisines == old(item.recommendCuisines)
      ensures "shop_id" in meta && ItemOf(meta).Err? ==> r == Err(ItemOf(meta).error)
      ensures "shop_id" in meta && ItemOf(meta).Ok? ==>
        var item := meta["item"].item;
        var shopId := FormatMeta(meta["shop_id"]);
        var fails := summarys != [] && shopId.Err?;
        && item.tags == old(item.tags) + TagPairs(if fails then summarys[..1] else summarys)
        && item.pending == Some(if fails || summarys == [] then [] else TaggedRequests(join, summarys, shopId.value, meta))
        && item.recommendCuisines == (if fails then old(item.recommendCuisines) else dishTags)
        && (fails ==> r == Err(shopId.error))
        && (!fails && "url" !in meta ==> r == Err(KeyError("url")))
        && (!fails && "url" in meta && !(meta["url"].Plain? && meta["url"].v.Text?) ==> r == Err(TypeError))
        && (r.Ok? ==> r.value == FoodRequest(ReviewAllUrl(join, meta["url"].v.s), ToParseReviewAll, meta))
      ensures ItemOf(meta).Ok? ==> var item := meta["item"].item;
        && item.Profile() == old(item.Profile())
        && item.reviews == old(item.reviews) && item.taggedReviews == old(item.taggedReviews)
    {
      if "shop_id" !in meta {
        return Err(KeyError("shop_id"));
      }
      var got := ItemOf(meta);
      if got.Err? {
        return Err(got.error);
      }
      var item := got.value;
      var shopId := FormatMeta(meta["shop_id"]);
      var failed := QueueTags(item, meta, summarys, shopId);
      if failed.Some? {
        return Err(failed.value);
      }
      item.recommendCuisines := dishTags;
      if "url" !in meta {
        return Err(KeyError("url"));
      }
      if !(meta["url"].Plain? && meta["url"].v.Text?) {
        return Err(TypeError);
      }
      return Ok(FoodRequest(ReviewAllUrl(join, meta["url"].v.s), ToParseReviewAll, meta));
    }

    /**
      `parse_review_all`: always appends the page's reviews. A next page gives one continuation
      whose meta holds only the item; on the last page the last queued request is popped, if any.
     */
    method ParseReviewAll(meta: Meta, requestUrl: string, reviews: seq<Value>, nextHref: Option<string>) returns (r: Result<seq<FoodRequest>>)
      modifies MetaItem(meta)
      ensures ItemOf(meta).Err? ==> r == Err(ItemOf(meta).error)
      ensures ItemOf(meta).Ok? ==> var item := meta["item"].item;
        && item.reviews == old(item.reviews) + reviews
        && item.tags == old(item.tags) && item.taggedReviews == old(item.taggedReviews)
        && item.Profile() == old(item.Profile()) && item.recommendCuisines == old(item.recommendCuisines)
        && (nextHref.Some? ==>
              r == Ok([FoodRequest(join(requestUrl, nextHref.value), ToParseReviewAll, map["item" := ItemRef(item)])])
              && item.pending == old(item.pending))
        && (nextHref.None? && old(item.pending).None? ==> r == Err(KeyError("_requests")) && item.pending == None)
        && (nextHref.None? && old(item.pending).Some? ==>
              r == Ok(LastPageStep(old(item.pending).value).0)
              && item.pending == Some(LastPageStep(old(item.pending).value).1))
    {
      var got := ItemOf(meta);
      if got.Err? {
        return Err(got.error);
      }
      var item := got.value;
      item.reviews := item.reviews + reviews;
      if nextHref.Some? {
        var url := join(requestUrl, nextHref.value);
        return Ok([FoodRequest(url, ToParseReviewAll, map["item" := ItemRef(item)])]);
      }
      if item.pending.None? {
        return Err(KeyError("_requests"));
      }
      var p := item.pending.value;
      if |p| > 0 {
        item.pending := Some(p[..|p| - 1]);
        return Ok([p[|p| - 1]]);
      }
      return Ok([]);
    }

    /**
      `parse_tagged_reviews`: appends the parsed reviews, or nothing when the page does not parse,
      then returns the last queued request; with the queue empty it deletes it and returns the item.
     */
    method ParseTaggedReviews(meta: Meta, parsed: Option<seq<Value>>) returns (r: Result<Output>)
      modifies MetaItem(meta)
      ensures ItemOf(meta).Err? ==> r == Err(ItemOf(meta).error)
      ensures parsed.Some? && "tag" !in meta && ItemOf(meta).Ok? ==> var item := meta["item"].item;
        && r == Err(KeyError("tag"))
        && item.taggedReviews == old(item.taggedReviews) && item.pending == old(item.pending)
      ensures ItemOf(meta).Ok? ==> var item := meta["item"].item;
        && item.Profile() == old(item.Profile()) && item.recommendCuisines == old(item.recommendCuisines)
        && item.reviews == old(item.reviews) && item.tags == old(item.tags)
      ensures ItemOf(meta).Ok? && (parsed.None? || "tag" in meta) ==> var item := meta["item"].item;
        && item.taggedReviews == old(item.taggedReviews) + (if parsed.Some? then parsed.value else [])
        && item.reviews == old(item.reviews) && item.tags == old(item.tags)
        && (old(item.pending).None? ==> r == Err(KeyError("_requests")))
        && (old(item.pending).Some? ==>
              var (step, rest) := TaggedStep(old(item.pending).value);
              && item.pending == rest
              && r == Ok(if step.Follows? then Follow(step.request) else Emit(item)))
    {
      var got := ItemOf(meta);
      if got.Err? {
        return Err(got.error);
      }
      var item := got.value;
      if parsed.Some? {
        if "tag" !in meta {
          return Err(KeyError("tag"));
        }
        item.taggedReviews := item.taggedReviews + parsed.value;
      }
      if item.pending.None? {
        return Err(KeyError("_requests"));
      }
      var p := item.pending.value;
      if |p| > 0 {
        item.pending := Some(p[..|p| - 1]);
        return Ok(Follow(p[|p| - 1]));
      }
      item.pending := None;
      return Ok(Emit(item));
    }
  }
}
