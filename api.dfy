/**
  The Dianping endpoints the spiders request, as the paths their format strings produce, and the
  URL join the spiders apply (`urljoin`, left uninterpreted).
 */
module Api {
  import opened Values
  import Settings

  /** `urljoin(base, url)`: how a relative reference resolves is not modelled. */
  type Joiner = (string, string) -> string

  /** `add_host(s)`: `s` resolved against the configured host. */
  function AddHost(join: Joiner, s: string): string {
    join(Settings.Host, s)
  }

  /** A `(summaryName, summaryCount)` entry of the tags API's `summarys`. */
  datatype Summary = Summary(name: string, count: int)

  /** The `(name, count)` tag of each summary, in order. */
  function TagPairs(summarys: seq<Summary>): (ts: seq<Value>)
    ensures |ts| == |summarys|
    ensures forall k :: 0 <= k < |summarys| ==> ts[k] == Pair(summarys[k].name, summarys[k].count)
  {
    seq(|summarys|, k requires 0 <= k < |summarys| => Pair(summarys[k].name, summarys[k].count))
  }

  // The fixed pieces of the tags-API format string, in order.
  const TagsApiBase := "/ajax/json/shopDynamic/allReview?shopId="
  const CityIdParam := "&cityId="
  const CategoryUrlNameParam := "&categoryURLName="
  const CityEnNameParam := "&power=5&cityEnName="
  const ShopTypeParam := "&shopType="

  /** The tags API of a shop: its review summaries and recommended dishes. */
  function TagsApiPath(shopId: string, cityId: string, categoryUrlName: string, cityName: string, categoryId: string): string {
    TagsApiBase + shopId + CityIdParam + cityId + CategoryUrlNameParam + categoryUrlName
    + CityEnNameParam + cityName + ShopTypeParam + categoryId
  }

  // The fixed pieces of the tagged-reviews format string, in order.
  const TaggedApiBase := "/ajax/json/shopfood/wizard/getReviewListFPAjax?act=getreviewlist&tab=default&order=summary&summaryName="
  const ShopIdParam := "&shopId="

  /** The tagged-reviews API: the reviews of one shop filed under one summary tag. */
  function TaggedApiPath(summaryName: string, shopId: string): string {
    TaggedApiBase + summaryName + ShopIdParam + shopId
  }

  /** `urljoin(shop_url + '/', 'review_all')`: the first page of all reviews of a shop. */
  function ReviewAllUrl(join: Joiner, shopUrl: string): string {
    join(shopUrl + "/", "review_all")
  }
}
