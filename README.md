# dianping_crawler, modelled in Dafny

This project models the crawl bookkeeping of dianping_crawler, a set of Scrapy spiders for the
restaurant site Dianping. Three spiders are covered:

- **food** walks city listings down to shop pages. It builds one shop item across a chain of
  callbacks that share the item by reference.
- **review** reads back the stored shops, asks the tags API, and pages through all reviews and
  the reviews filed under each tag.
- **user** reads back the stored reviews and follows each author's profile and relation lists.

The model captures:

- which requests each callback emits;
- the priority of each request;
- what each callback writes to the MongoDB collections;
- how each request passes through the checkpoint ledger (`DeltaHelper`).

The ledger keeps one document per request identity `"METHOD URL"`, with a `finished` flag. It
admits a request whose identity is new or unfinished, skips one already finished, marks entries
finished, and lists the unfinished ones on a resume.

| module | file | models |
|---|---|---|
| `Wrappers` | wrappers.dfy | `Option`, `Result` and the exceptions the crawler raises |
| `Strings` | text.dfy | the `str` operations used: digits, `int()`, `split`, `strip`, `rsplit('/', 1)[-1]` |
| `Values` | values.dfy | JSON-like values of documents and meta, `'{}'.format` of a scalar |
| `Api` | api.dfy | the endpoint paths, the tag pairs, `urljoin` as an uninterpreted function |
| `Settings` | settings.dfy | `HOST`, `CITY_IDS` and the `COOKIES` string-to-dict parse |
| `BaseSpider` | base_spider.dfy | `extract_int`, `find_classes_exists`, `aa2urls` |
| `Store` | store.dfy | a collection: `insert_one` (first writer wins), append to a list field, `find` |
| `Delta` | delta_helper.dfy | the ledger: serialisation, deserialisation, the table and the `DeltaLedger` class |
| `Streams` | streams.dfy | the lazy `map`/`chain`/`reduce` fan-outs of the start requests, consumed |
| `Food` | food.dfy | `FoodSpider` and its shared `ShopItem` |
| `Review` | review.dfy | `ReviewSpider` |
| `User` | user.dfy | `UserSpider` |
| `Pipelines` | pipelines.dfy | `DianpingCrawlerPipeline` |

Code that changes state is modelled as imperative Dafny:

- The ledger is a class (`Delta.DeltaLedger`) whose `table` field is a value of `Delta.Table`.
  Its methods are proved against the functions `AfterCheck`, `AfterMark` and `AfterCheckAll`.
- Each collection is a class (`Store.MongoCollection`) over a value of `Store.Collection`.
- Each spider is a class whose handlers take the parsed page content as inputs: hrefs, an
  optional next link, tags, reviews. Each handler states the requests it returns and the new
  ledger and store contents.
- The food spider's shop item is a `ShopItem` object. The callbacks mutate it through the
  request meta, as the source does.

The model follows the code as written. Several gaps of the code are proved about the model:

- The last page of all reviews admits no tagged-review request. The handler is a generator, so
  its `return requests` is discarded.
- The last page of a user's relation list is never marked finished.
- A food shop with no tags is never emitted to the pipeline.
- The review spider's start raises `KeyError('meta')` on the first stored shop without `meta`.

The integer scanner `extract_int` loses the last digit of a run that ends the text. This is
recorded under Findings, with the corrected scanner proved beside it. The spiders call the scanner
as written, as the program does: an average price, a contribution or a relation id of two or more
digits that ends its text is stored without its last digit.

## Model

| member | source | states |
|---|---|---|
| Strings.Split | dianping_crawler/settings.py:20 | `str.split(sep)`: at least one part, no part contains the separator |
| Strings.JoinSplit | dianping_crawler/settings.py:20 | joining the parts of a split with the separator gives back the string |
| Strings.SplitJoin | dianping_crawler/settings.py:20 | splitting a join of separator-free parts gives back the parts |
| Strings.SplitOnce | dianping_crawler/settings.py:20 | `split('=', 1)`: None iff no separator; otherwise key + sep + rest is the string and the key has no separator |
| Strings.Strip | dianping_crawler/settings.py:20 | `strip()`: the result is a slice of the string with only whitespace before and after it; it neither starts nor ends with whitespace; a string already trimmed is unchanged |
| Strings.ShowOfValue | dianping_crawler/spiders/base_spider.py:30 | `int()` of a digit string is the number whose decimal rendering is that string without its leading zeros |
| Strings.ValueOfShow | dianping_crawler/spiders/base_spider.py:30 | reading back the decimal rendering of a number gives the number |
| Strings.LastSegmentAfterSlash | dianping_crawler/spiders/user.py:109 | after a '/', a '/'-free tail is what `rsplit('/', 1)[-1]` returns |
| Strings.LastSegmentTail | dianping_crawler/spiders/food.py:52 | `rsplit('/', 1)[-1]` is a suffix of the string with no '/' in it, preceded by '/' or the start |
| Api.TagPairs | dianping_crawler/spiders/review.py:74-78 | one `(summaryName, summaryCount)` pair per summary, in order |
| Values.Format | dianping_crawler/spiders/user.py:43 | `'{}'.format(v)` succeeds exactly on text, numbers and None; text renders as itself |
| BaseSpider.FirstDigitFrom | dianping_crawler/spiders/base_spider.py:22-24 | the first loop: the least index at or after `from` holding a digit, or the length |
| BaseSpider.RunEnd | dianping_crawler/spiders/base_spider.py:26-28 | the second loop: the end of the maximal digit run starting at `from` |
| BaseSpider.ParseInt | dianping_crawler/spiders/base_spider.py:29-33 | `int()` of a slice succeeds iff the slice is a non-empty digit string |
| BaseSpider.ParseIntValue | dianping_crawler/spiders/base_spider.py:30 | the number `int()` reads renders as the slice without its leading zeros |
| BaseSpider.ParseIntShow | dianping_crawler/spiders/base_spider.py:30 | `int(str(n)) == n` for every natural number |
| BaseSpider.ExtractInt | dianping_crawler/spiders/base_spider.py:20-33 | the two loops step by step, with the final values of `i` and `j`, compute `ExtractIntAsWritten` |
| BaseSpider.ExtractIntAsWritten | dianping_crawler/spiders/base_spider.py:20-33 | None exactly when the text holds no digit, including the empty text |
| BaseSpider.NoDigitAsWritten | dianping_crawler/spiders/base_spider.py:21-33 | without a digit the slice is the last character, which fails to parse: None |
| BaseSpider.RunStopsAsWritten | dianping_crawler/spiders/base_spider.py:20-30 | a first run followed by a non-digit is read whole; leading non-digits and later runs are ignored |
| BaseSpider.RunReachesEndAsWritten | dianping_crawler/spiders/base_spider.py:25-30 | a first run reaching the end is sliced up to the last value of `j` |
| BaseSpider.TrailingRunAsWritten | dianping_crawler/spiders/base_spider.py:25-30 | a trailing run of two or more digits loses its last digit; a single trailing digit is kept |
| BaseSpider.ExtractIntAsWrittenAtEnd | dianping_crawler/spiders/base_spider.py:25-30 | a number n ending the text scans as n when n < 10, else as n / 10 |
| BaseSpider.ExtractIntTwelve | dianping_crawler/spiders/base_spider.py:25-30 | "12" scans as 1 as written, as 12 when corrected |
| BaseSpider.ExtractIntIntended | dianping_crawler/spiders/base_spider.py:20-33 | the corrected scanner: None exactly when the text holds no digit |
| BaseSpider.ExtractIntIntendedShow | dianping_crawler/spiders/base_spider.py:20-30 | the corrected scanner reads the first number whole, wherever it stands after non-digits |
| BaseSpider.ExtractIntAgreesBeforeNonDigit | dianping_crawler/spiders/base_spider.py:20-30 | as written and corrected agree when a non-digit follows the first number |
| BaseSpider.FindClassesExists | dianping_crawler/spiders/base_spider.py:45-49 | the least index whose selector matches, and None iff no selector matches |
| BaseSpider.Attrs | dianping_crawler/spiders/base_spider.py:35-39 | one attribute value per anchor in anchor order, or KeyError iff some anchor lacks it |
| BaseSpider.Aa2Urls | dianping_crawler/spiders/base_spider.py:35-39 | the append loop computes the hrefs of `Attrs` |
| Settings.CookiePair | dianping_crawler/settings.py:20 | a stripped part splits at its first '=': key + "=" + value is the part, the key has no '='; None (a 1-tuple) iff no '=' |
| Settings.Tuples | dianping_crawler/settings.py:20 | one tuple per part, in order |
| Settings.Dict | dianping_crawler/settings.py:20 | `dict()` succeeds iff every element is a pair; otherwise ValueError |
| Settings.ParseCookiesOk | dianping_crawler/settings.py:20 | the parse succeeds iff every `;`-part contains '=' after stripping |
| Settings.AllPairs | dianping_crawler/settings.py:20 | every part is a pair iff every stripped part contains '=' |
| Settings.DictKeys | dianping_crawler/settings.py:20 | the keys of the dictionary are exactly the keys of the pairs |
| Settings.LastOccurrenceWins | dianping_crawler/settings.py:18-20 | a repeated key maps to the value of its last occurrence |
| Settings.SplitEndsEmpty | dianping_crawler/settings.py:20 | a string ending in the separator splits with an empty last part |
| Settings.TrailingSemicolonFails | dianping_crawler/settings.py:20 | a cookie string with a trailing ';' raises ValueError |
| Settings.OnePart | dianping_crawler/settings.py:20 | a single part maps its key to the rest, which may contain '='; whitespace by the '=' stays |
| Store.Find | dianping_crawler/spiders/review.py:114 | `find()` yields every stored document once, in insertion order |
| Store.InsertProps | dianping_crawler/pipelines.py:106-111 | insert-only creation: a new key gets the item, an existing document is unchanged, no other document changes |
| Store.FirstWriterWins | dianping_crawler/pipelines.py:106-118 | of two items with one `_id`, the first stays stored and the second is refused |
| Store.ExtendProps | dianping_crawler/spiders/review.py:95 | appending puts the values after the field's list; no other field or document changes |
| Store.ExtendTwiceDuplicates | dianping_crawler/spiders/user.py:123 | appending the same page twice stores its ids twice: appending is not idempotent |
| Store.ExtendFieldsCommute | dianping_crawler/spiders/review.py:95 | appends to different fields commute |
| Store.ExtendSameFieldOrder | dianping_crawler/spiders/review.py:138 | two appends to one field keep both in call order; swapped they hold the same multiset |
| Store.ExtendTwiceStep | dianping_crawler/spiders/review.py:138 | two appends to one field hold the old list, then a, then b |
| Store.MongoCollection.InsertOne | dianping_crawler/pipelines.py:108 | `insert_one`: inserted iff the key was free; every existing document is unchanged |
| Store.MongoCollection.ExtendField | dianping_crawler/spiders/review.py:95 | `extend_item_field_in_db`: the new contents are `Extend` of the old |
| Delta.LookupCallback | dianping_crawler/spiders/delta_helper.py:133-135 | looking a name up on the spider yields the method of that name, and nothing iff there is none |
| Delta.RequestIdInjective | dianping_crawler/spiders/delta_helper.py:87-89 | two requests share an identity iff they share method and URL; meta, callbacks and priority do not count |
| Delta.LStripUnderscores | dianping_crawler/spiders/delta_helper.py:118-119 | `lstrip('_')` removes exactly the leading underscores |
| Delta.Serialized | dianping_crawler/spiders/delta_helper.py:113-127 | the serialised form carries the identity under `_id` |
| Delta.RequestSerialize | dianping_crawler/spiders/delta_helper.py:113-127 | the attribute loop builds `Serialized(r)`, whose `serialized_request_id` is the request's identity |
| Delta.SerializedFromStored | dianping_crawler/spiders/delta_helper.py:124 | the stored attributes hold a method and URL, and adding their identity completes the serialised form |
| Delta.StoredAttributesOf | dianping_crawler/spiders/delta_helper.py:117-122 | the loop stores `_url` as `url`, `_meta` as `meta`, and each callable by its name |
| Delta.StoredStep | dianping_crawler/spiders/delta_helper.py:117-122 | one loop iteration adds the attribute under its stripped name |
| Delta.StoredKeys | dianping_crawler/spiders/delta_helper.py:118-119 | the stored names of the request's attributes |
| Delta.SetCallableOf | dianping_crawler/spiders/delta_helper.py:133-135 | `safe_set_value` resolves a stored name back to its callback and leaves every other key alone |
| Delta.KeywordsOf | dianping_crawler/spiders/delta_helper.py:137-146 | after resolving the callbacks and dropping `_id` and `finished`, `scrapy.Request(**kwargs)` rebuilds the request |
| Delta.DeserializeHolds | dianping_crawler/spiders/delta_helper.py:129-146 | a document holding a request's stored attributes deserialises to that request |
| Delta.DeserializeSerialized | dianping_crawler/spiders/delta_helper.py:113-146 | round trip: a serialised request with either `finished` flag deserialises to itself |
| Delta.WellFormedDeserializes | dianping_crawler/spiders/delta_helper.py:129-146 | every well-formed ledger document deserialises to a request of its identity |
| Delta.HoldsWellFormed | dianping_crawler/spiders/delta_helper.py:50-53 | a document holding a request's attributes under its identity is a well-formed entry |
| Delta.FinishedFieldsOf | dianping_crawler/spiders/delta_helper.py:80-82 | the `$set` fields are the serialised request with `finished` True and without `_id` |
| Delta.FreshDocWellFormed | dianping_crawler/spiders/delta_helper.py:51-52 | the inserted entry is well formed, unfinished and deserialises to the request |
| Delta.AfterCheckProps | dianping_crawler/spiders/delta_helper.py:50-65 | `check_request` keeps the table valid, adds exactly the request's identity, and changes no flag |
| Delta.AfterCheckFlags | dianping_crawler/spiders/delta_helper.py:50-65 | `check_request` never changes which identities are finished and keeps the insertion order |
| Delta.AfterMarkProps | dianping_crawler/spiders/delta_helper.py:77-85 | `mark_as_finished` inserts nothing (no upsert), finishes the request's entry if present, and changes no other flag |
| Delta.AfterMarkFlags | dianping_crawler/spiders/delta_helper.py:77-85 | `mark_as_finished` never unfinishes an entry, and touches only its own |
| Delta.MergedDoc | dianping_crawler/spiders/delta_helper.py:80-85 | `$set` over an entry of the same identity leaves a well-formed finished entry for the request |
| Delta.CheckInsertsNew | dianping_crawler/spiders/delta_helper.py:50-65 | a new identity: exactly one entry is added, unfinished, holding the request; the request is admitted |
| Delta.SameIdentityOneEntry | dianping_crawler/spiders/delta_helper.py:50-61 | two requests of one identity share one entry; the second passes iff it was unfinished, never after a mark |
| Delta.HandOff | dianping_crawler/spiders/review.py:82-87 | check a child, then mark the parent: the child has an entry, the parent is finished, the child's flag is untouched |
| Delta.MarkIdempotent | dianping_crawler/spiders/delta_helper.py:77-85 | marking twice is marking once |
| Delta.AfterCheckAllProps | dianping_crawler/spiders/delta_helper.py:70-75 | checking a list keeps the table valid, changes no flag, and gives every request an entry |
| Delta.AdmittedAllIsNotFinished | dianping_crawler/spiders/delta_helper.py:70-75 | the requests kept are exactly those whose identity had no finished entry, in input order |
| Delta.UnfinishedExactly | dianping_crawler/spiders/delta_helper.py:37-48 | every unfinished entry is resumed as the request it holds |
| Delta.UnfinishedOnly | dianping_crawler/spiders/delta_helper.py:37-48 | only unfinished entries are resumed, each as its own request |
| Delta.CheckedResumed | dianping_crawler/spiders/delta_helper.py:37-65 | a request checked under a new identity is listed on a resume |
| Delta.MarkedNotResumed | dianping_crawler/spiders/delta_helper.py:37-85 | once marked finished, no request of that identity is listed on a resume |
| Delta.DeltaLedger.CheckRequest | dianping_crawler/spiders/delta_helper.py:50-68 | returns `CheckOutcome` and leaves `AfterCheck` of the old table; flags only grow |
| Delta.DeltaLedger.AdmitAll | dianping_crawler/spiders/delta_helper.py:70-73 | `check_requests(hurry=True)`: the kept requests are those not finished before, the table is `AfterCheckAll` |
| Delta.DeltaLedger.CheckRequests | dianping_crawler/spiders/delta_helper.py:70-75 | in a hurry the admitted list; otherwise a deferred filter, with the table untouched |
| Delta.DeltaLedger.CheckThenMark | dianping_crawler/spiders/review.py:85-86 | the child is checked before the parent is marked finished |
| Delta.DeltaLedger.MarkAsFinished | dianping_crawler/spiders/delta_helper.py:77-85 | None is a no-op; otherwise `AfterMark` of the old table, flags only grow |
| Streams.EntriesOf | dianping_crawler/spiders/user.py:41 | iterating a field: KeyError when absent, TypeError when it is not a list, else its items |
| Streams.Entries | dianping_crawler/spiders/user.py:48-49 | the chained entries: no error iff every document's field iterates |
| Streams.FirstFailure | dianping_crawler/spiders/user.py:41 | the first document whose field cannot be iterated: every earlier one iterates |
| Streams.ItemsMember | dianping_crawler/spiders/user.py:41 | an entry is among the items iff a document whose field iterates holds it |
| Streams.EntriesUpToFailure | dianping_crawler/spiders/user.py:41-49 | the chained entries are the items of the documents before the first that cannot be iterated, in document order, and then that document's exception |
| Streams.EntriesComplete | dianping_crawler/spiders/user.py:41-49 | without an exception, the entries are all the items of all documents |
| Streams.Requests | dianping_crawler/spiders/review.py:55-57 | the mapped requests are `make` of a prefix; no error iff all were built, else the error of the next element |
| Streams.DocRequests | dianping_crawler/spiders/user.py:40-51 | request k is `make` of entry k; the first entry `make` raises on gives the error; when every entry is built, the error is the one reading the documents; without an error, one request per entry of every document |
| Streams.DocRequestsMade | dianping_crawler/spiders/user.py:40-46 | every yielded request was built by `make` from an entry of one of the documents |
| Food.CategoryIdRendering | dianping_crawler/spiders/food.py:20 | `CATEGORY_ID` renders as "10" in the URLs |
| Food.ShopItem.constructor | dianping_crawler/spiders/food.py:125-141 | a fresh item: the page's fields and empty cuisines, tags, reviews and tagged reviews, no `_requests` |
| Food.ShopItem.Doc | dianping_crawler/spiders/food.py:125-141 | the stored document: the item's keys without `_requests`, its lists as they stand |
| Food.FormatMeta | dianping_crawler/spiders/food.py:143-148 | a meta entry formats iff it is a plain scalar |
| Food.ItemOf | dianping_crawler/spiders/food.py:158 | `meta['item']`: KeyError when absent, else the shared item |
| Food.CityRequest | dianping_crawler/spiders/food.py:28-35 | a city's listing request goes to `parse`, carrying the city id and name |
| Food.CityRequests | dianping_crawler/spiders/food.py:27-35 | one listing request per configured city, in order |
| Food.FoodSpider.StartRequests | dianping_crawler/spiders/food.py:27-35 | the loop yields `CityRequests` of the settings |
| Food.CategorySuffixes | dianping_crawler/spiders/food.py:47-54 | at most one suffix per href |
| Food.CategorySuffixesMember | dianping_crawler/spiders/food.py:47-54 | a suffix is kept iff some href under `/search/category` ends in it after its last '/' |
| Food.CategorySuffixesAppend | dianping_crawler/spiders/food.py:47-54 | suffixes of concatenated hrefs concatenate: href order is kept |
| Food.FoodSpider.Aa2Suffix | dianping_crawler/spiders/food.py:47-54 | the loop computes the suffixes, KeyError for an anchor without href |
| Food.Row | dianping_crawler/spiders/food.py:61-66 | the inner loop: one index request per area |
| Food.GridSize | dianping_crawler/spiders/food.py:59-68 | `parse` emits \|classfies\| × \|areas\| requests |
| Food.GridAt | dianping_crawler/spiders/food.py:59-68 | entry i·\|areas\|+j is category i with area j: category-major, with the parent meta |
| Food.FoodSpider.Parse | dianping_crawler/spiders/food.py:38-68 | the nested loops compute the grid, or the KeyError/TypeError of the city id or an href |
| Food.DetailRequests | dianping_crawler/spiders/food.py:75-81 | one detail request per listing href, in order |
| Food.IndexShape | dianping_crawler/spiders/food.py:70-88 | one detail request per listing link with `shop_id` = last URL segment, then at most one index continuation, only with a next link |
| Food.FoodSpider.Index | dianping_crawler/spiders/food.py:70-88 | the generator yields `IndexOutput` |
| Food.TagsApiUrl | dianping_crawler/spiders/food.py:143-148 | succeeds iff shop id, city id and city name are present and format; KeyErrors in keyword order |
| Food.FoodSpider.NewShopItem | dianping_crawler/spiders/food.py:90-141 | the item of a shop page: stripped name and address, the phones, the price through `extract_int` as written, the first matching score class, empty lists |
| Food.FoodSpider.Detail | dianping_crawler/spiders/food.py:90-153 | a fresh item with `_id` = shop id, the page's fields (price through `extract_int` as written) and empty lists, carried by the single tags-API request it returns |
| Food.FoodSpider.QueueTags | dianping_crawler/spiders/food.py:162-174 | one tag and one queued request per summary; a shop id that does not format raises right after the first tag; nothing else of the item changes |
| Food.TaggedRequests | dianping_crawler/spiders/food.py:165-174 | one queued tagged-reviews request per summary, in order, with the tag in its meta |
| Food.FoodSpider.ParseTagsApi | dianping_crawler/spiders/food.py:155-182 | one tag and one queued request per summary, none for no summaries, then one `review_all` request; each error path states the item it leaves (a shop id that does not format: one tag, an empty queue); the page fields, reviews and tagged reviews never change |
| Food.LastPageStep | dianping_crawler/spiders/food.py:198-200 | the last review page pops the last queued request, or yields nothing when the queue is empty |
| Food.FoodSpider.ParseReviewAll | dianping_crawler/spiders/food.py:184-200 | extends the reviews; a next page gives one continuation with meta {item}; else the `LastPageStep`; the page fields, tags, cuisines and tagged reviews never change |
| Food.TaggedStep | dianping_crawler/spiders/food.py:214-218 | pops the last queued request; with the queue empty, returns the item and deletes `_requests` |
| Food.FoodSpider.ParseTaggedReviews | dianping_crawler/spiders/food.py:202-218 | appends the parsed reviews (none on a parse failure), then the `TaggedStep`; a missing tag raises with the item untouched; the page fields, tags, cuisines and reviews never change |
| Food.FollowsReversed | dianping_crawler/spiders/food.py:214-215 | the queued requests followed in reverse order |
| Food.TaggedRunLifo | dianping_crawler/spiders/food.py:202-218 | the queue is consumed last in, first out, and the item is returned once, after all of it |
| Food.AfterReviewsShape | dianping_crawler/spiders/food.py:193-218 | with k ≥ 1 tags the item is returned exactly once; with no tags it is never returned |
| Review.FormatArg | dianping_crawler/spiders/review.py:48 | one named field: KeyError when the argument is missing |
| Review.FormatArgs | dianping_crawler/spiders/review.py:48 | fields are filled left to right; the error is that of some missing field |
| Review.TagsApiRequest | dianping_crawler/spiders/review.py:44-52 | built iff the shop has `meta` (a dict), `_id` and `url` and the tags-API fields format; otherwise, in this order, KeyError `meta`, KeyError `_id`, TypeError for a non-dict `meta`, the format's KeyError, KeyError `url`; when built: the tags-API URL of the meta with `shop_id` = `_id`, callback `parse`, priority 100, meta {shop_id, shop_url} |
| Review.TagsApiUrlOf | dianping_crawler/spiders/review.py:46-48 | the URL is built iff every field of the format string fills, with the error of the first that does not |
| Review.StartWithoutMeta | dianping_crawler/spiders/review.py:44-48 | the first stored shop without `meta` stops the start with KeyError before any request |
| Review.ShopDoc | dianping_crawler/spiders/review.py:65-80 | the saved shop: `_id` = shop id, tags as pairs in order, dishes, empty reviews and tagged reviews |
| Review.ReviewAllRequest | dianping_crawler/spiders/review.py:82-84 | the first review page: `parse_review_all`, priority 75, meta {shop_id} |
| Review.NextPageRequest | dianping_crawler/spiders/review.py:100-102 | a next review page: `parse_review_all`, priority 50, meta {shop_id} |
| Review.TagName | dianping_crawler/spiders/review.py:117 | `for tag, _ in tags`: a pair or a two-element list gives its first item, anything else raises |
| Review.TaggedReviewRequest | dianping_crawler/spiders/review.py:116-123 | a tagged-reviews request: `parse_tagged_reviews`, default priority 0, meta {tag, shop_id} |
| Review.TaggedReviewRequestsShape | dianping_crawler/spiders/review.py:113-127 | every request is for the current shop at priority 0; without an error, one per tag of every stored document |
| Review.TaggedNeverAdmitted | dianping_crawler/spiders/review.py:107-127 | marking the last page leaves the identities as they were, so no request of `gen_tagged_review_requests` gets an entry |
| Review.ReviewSpider.StartRequests | dianping_crawler/spiders/review.py:41-57 | unfinished requests first, then the admitted tags-API request of each shop, until the first that raises |
| Review.ReviewSpider.Parse | dianping_crawler/spiders/review.py:60-87 | saves the shop; admits the `review_all` request before marking the parent; returns None if it was finished |
| Review.ReviewSpider.ParseReviewAll | dianping_crawler/spiders/review.py:90-111 | appends the reviews; a next page is admitted before the parent is marked; the last page admits nothing, and an empty collection raises before the mark |
| Review.ReviewSpider.LastReviewPage | dianping_crawler/spiders/review.py:107-111 | the lazy tagged-review requests are discarded: nothing is admitted, the page is marked finished |
| Review.ReviewSpider.ParseTaggedReviews | dianping_crawler/spiders/review.py:130-141 | a parsed page is appended and marked finished; a parse failure leaves the request unfinished |
| User.FieldTables | dianping_crawler/spiders/user.py:27-31 | each list's callback is `parse_<field>`; the three paths and callbacks are distinct |
| User.ProfileRequest | dianping_crawler/spiders/user.py:42-46 | a review's author: the member URL, callback `parse`, priority 100, meta {user_id} |
| User.ProfileRequestsShape | dianping_crawler/spiders/user.py:40-51 | every profile request is at priority 100; without an error, one per review of every document |
| User.UserDoc | dianping_crawler/spiders/user.py:58-72 | the saved user: `_id` = user id, the profile, the contribution through `extract_int` as written, empty lists |
| User.RelationRequest | dianping_crawler/spiders/user.py:83-90 | URL = member URL + '/' joined with the suffix, which defaults to the field's path; callback `parse_<field>` |
| User.FollowUps | dianping_crawler/spiders/user.py:75-79 | followees, followers, collections at strictly decreasing priorities 75, 50, 25 |
| User.PageIds | dianping_crawler/spiders/user.py:93-120 | one id per anchor in page order, through `extract_int` as written; a collection's id is the last '/' segment of its href |
| User.IdOfTruncates | dianping_crawler/spiders/user.py:117-120 | an id n ending its attribute is stored as n when n < 10 and as n / 10 otherwise: the lost digit reaches the store |
| User.UserSpider.StartRequests | dianping_crawler/spiders/user.py:37-51 | the reduce raises on no review documents; else unfinished first, then the admitted profile requests |
| User.UserSpider.Parse | dianping_crawler/spiders/user.py:54-81 | saves the user, admits the three list requests in order, then marks the profile finished; returns the admitted ones |
| User.UserSpider.CreateRequest | dianping_crawler/spiders/user.py:83-91 | the relation request through `check_request` |
| User.UserSpider.DoParseUserPage | dianping_crawler/spiders/user.py:111-131 | appends the page's ids; a next page (suffix = path + href, priority 0) is admitted before the mark; the last page is not marked |
| Pipelines.Route | dianping_crawler/pipelines.py:100-104 | `food` and `user` each have their collection, and only they |
| Pipelines.Pipeline.ProcessItem | dianping_crawler/pipelines.py:100-104 | one insert into the routed collection, the other untouched; None and no write for another spider |
| Pipelines.Pipeline.ProcessFoodItem | dianping_crawler/pipelines.py:106-111 | insert-only into `food`: existing documents unchanged, the item returned even when refused |
| Pipelines.Pipeline.ProcessUserItem | dianping_crawler/pipelines.py:113-118 | insert-only into `user`: existing documents unchanged, the item returned even when refused |

## Left out

- HTTP fetching, the Scrapy engine and scheduler, concurrency and download delay. Priority is
  only an integer on each emitted request.
- Page and JSON parsing: the pyquery selectors, `json.loads`, `emoji.demojize`,
  `do_parse_reviews` and `do_parse_tagged_reviews`. The parsed content is an input of each
  handler: hrefs as anchors, an optional next link, summaries, reviews as values, and for
  `parse_tagged_reviews` an `Option` that is None when the page does not parse.
- The float `score` of a shop (food.py:112-120) and the review scores: float parsing is not
  modelled, so `ShopItem` has no `score` field.
- `text2date`: it depends on the clock and `strptime`.
- `urljoin`: the join is a function parameter of every spider, not interpreted. `add_host`
  joins against `Settings.Host`.
- `object_serialize` and the `headers` attribute. Delta.RequestSerialize serialises only url,
  method, callback, errback, priority and meta; the other scrapy request attributes are not
  modelled.
- The MongoDB connection lifecycle: `connect_db`, `open_spider`, `close_spider`, and the example
  documents kept as class attributes.
- `save_item_to_db`, `extend_item_field_in_db`, `db`, `db_collection` and `unfinished_requests`
  are not part of this model's source files. They are modelled as `Store` operations:
  insert-if-absent, append to a list field without upsert, `find`, and `fetch_unfinished_requests`
  read when the start runs.
- Delta.DeltaLedger.CheckRequest: the re-raise of a failed insert is not modelled. In one
  sequential ledger, an insert for an identity with no entry always succeeds.
- The lazy interleaving of start generators with the scheduler. The start streams are consumed
  whole in one call, so all ledger checks happen before any response is handled.
- Review.TagName: a stored tag that is a two-character string or a two-key dict would also
  unpack in Python. The model accepts only a pair or a two-element list and raises otherwise.
- Values.Format: `'{}'.format` of a pair, list or dict renders its repr in Python. The model
  raises TypeError for these; the crawler formats only scalars into URLs.
- Strings.IsDigit: only the ASCII digits '0' to '9' are digits. Python's `str.isdigit` and
  `int()` also accept other Unicode decimal digits, and `isdigit` accepts characters such as
  superscripts that `int()` then rejects; the pages the crawler reads carry ASCII digits.
- BaseSpider.ExtractInt: scans ASCII digits only, as `Strings.IsDigit` does; a text whose first
  digit is a non-ASCII digit is scanned differently in Python.
- BaseSpider.ParseInt: accepts ASCII digit strings only. Python's `int()` also accepts surrounding
  whitespace, a sign, underscores between digits and other Unicode digits; `extract_int` never
  hands it a sign or whitespace inside a digit run.
- Streams.EntriesOf: a text or dict field raises TypeError in the model. Python iterates it: an
  empty text or dict yields nothing, a text yields its characters and a dict its keys (so
  `for tag, _ in` over a text field raises ValueError instead). The stored documents hold lists.
- Food.FoodSpider.ParseReviewAll: a `.NextPage` element without an `href` is not modelled.
  Python joins the request URL with None, which gives the request URL again, and yields that
  repeated request (which Scrapy's duplicate filter drops, so the item is never emitted). The
  model takes the next link's href as an `Option<string>` and treats a missing link as the last
  page.
- Review.ReviewSpider.ParseReviewAll: a `.NextPage` element without an `href` is not modelled.
  Python joins the request URL with None, which gives the request URL again; the handler then
  checks that request (its own, unfinished identity, so it is admitted), marks the page
  finished and yields the repeat, which Scrapy's duplicate filter drops. The model takes the
  next link's href as an `Option<string>` and treats a missing link as the last page, which
  also raises on an empty collection where Python would not.
- User.UserSpider.DoParseUserPage: a next link without an `href` formats as "None" in Python.
  The model takes the next link's href as an `Option<string>`, so that case is not modelled.
- The `print` of a refused insert in the pipeline (I/O).
- `middlewares.py`: it is disabled in the settings.
- The copies of `extract_int`, `aa2urls` and `find_classes_exists` in food.py:310-339 are
  the same code as base_spider.py, apart from the logging call. The `BaseSpider` members model
  both copies, and both spiders call the scanner as written.

## Findings

| source | as written | input that shows it | evidently intended | confidence | as-written member | corrected member |
|---|---|---|---|---|---|---|
| dianping_crawler/spiders/base_spider.py:25-30 | when the first digit run reaches the end of the text, the second loop leaves `j` at the last index, so `text[i:j]` drops the last digit | "12" returns 1 (also "price 45" returns 4); "a1" returns 1 correctly | the value of the whole first digit run, as when a non-digit follows it | not executed | BaseSpider.ExtractIntTwelve, User.IdOfTruncates | BaseSpider.ExtractIntIntendedShow |
