/**
 * The output record parse_product yields for a product's `results` object,
 * and the field mappings other than title and brand.
 */
module Transform {
  import opened Options
  import opened Text
  import opened Product
  import Title
  import Brand

  /** The public product page the record's `url` is resolved against. */
  const PRODUCT_PAGE := "https://alkoteka.com/product/"
  /** The separator whose first occurrence splits the response URL. */
  const PRODUCT_SEP := "/product"

  datatype Stock = Stock(inStock: bool, count: Option<int>)

  /**
   * The yielded dict, without `price_data`, `assets` and `metadata`, which
   * are verbatim copies of input keys.
   */
  datatype OutputRecord = OutputRecord(
    timestamp: int,
    rpc: Option<string>,
    url: string,
    title: string,
    marketingTags: seq<string>,
    brand: Option<string>,
    section: seq<Option<string>>,
    stock: Stock)

  /** A price detail whose `title` is truthy: present and non-empty. */
  predicate HasTag(d: PriceDetail) {
    d.title.Some? && d.title.value != ""
  }

  /** `[item.get("title") for item in price_details if item.get("title")]`. */
  function MarketingTags(details: seq<PriceDetail>): (tags: seq<string>)
    ensures |tags| <= |details|
    ensures forall k :: 0 <= k < |tags| ==> tags[k] != ""
  {
    if details == [] then []
    else (if HasTag(details[0]) then [details[0].title.value] else []) + MarketingTags(details[1..])
  }

  /**
   * `idx` lists the positions in `details` the tags come from: strictly
   * increasing, each tag is the title found there, and every price detail
   * with a non-empty title is among them.
   */
  ghost predicate TagsComeFrom(details: seq<PriceDetail>, tags: seq<string>, idx: seq<nat>) {
    && |idx| == |tags|
    && (forall k :: 0 <= k < |idx| ==> idx[k] < |details| && details[idx[k]].title == Some(tags[k]))
    && (forall k, l :: 0 <= k < l < |idx| ==> idx[k] < idx[l])
    && (forall i :: 0 <= i < |details| && HasTag(details[i]) ==> i in idx)
  }

  function Shift(idx: seq<nat>): (r: seq<nat>)
    ensures |r| == |idx| && forall k :: 0 <= k < |r| ==> r[k] == idx[k] + 1
  {
    seq(|idx|, k requires 0 <= k < |idx| => idx[k] + 1)
  }

  lemma TagsComeFromStep(details: seq<PriceDetail>, rest: seq<nat>)
    requires details != []
    requires TagsComeFrom(details[1..], MarketingTags(details[1..]), rest)
    ensures TagsComeFrom(details, MarketingTags(details), (if HasTag(details[0]) then [0] else []) + Shift(rest))
  {
    var head: seq<nat> := if HasTag(details[0]) then [0] else [];
    var headTags := if HasTag(details[0]) then [details[0].title.value] else [];
    var idx := head + Shift(rest);
    var tags := headTags + MarketingTags(details[1..]);
    assert MarketingTags(details) == tags;
    StepTitles(details, head, headTags, rest, idx, tags);
    StepOrder(head, rest, idx);
    StepComplete(details, head, rest, idx);
  }

  lemma StepTitles(details: seq<PriceDetail>, head: seq<nat>, headTags: seq<string>, rest: seq<nat>,
                   idx: seq<nat>, tags: seq<string>)
    requires details != []
    requires head == (if HasTag(details[0]) then [0] else [])
    requires headTags == (if HasTag(details[0]) then [details[0].title.value] else [])
    requires idx == head + Shift(rest) && tags == headTags + MarketingTags(details[1..])
    requires |rest| == |MarketingTags(details[1..])|
    requires forall k :: 0 <= k < |rest| ==> rest[k] < |details[1..]| && details[1..][rest[k]].title == Some(MarketingTags(details[1..])[k])
    ensures |idx| == |tags|
    ensures forall k :: 0 <= k < |idx| ==> idx[k] < |details| && details[idx[k]].title == Some(tags[k])
  {
    forall k | 0 <= k < |idx|
      ensures idx[k] < |details| && details[idx[k]].title == Some(tags[k])
    {
      if k >= |head| {
        var m := k - |head|;
        assert idx[k] == rest[m] + 1;
        assert details[idx[k]] == details[1..][rest[m]];
      }
    }
  }

  lemma StepOrder(head: seq<nat>, rest: seq<nat>, idx: seq<nat>)
    requires head == [] || head == [0]
    requires idx == head + Shift(rest)
    requires forall k, l :: 0 <= k < l < |rest| ==> rest[k] < rest[l]
    ensures forall k, l :: 0 <= k < l < |idx| ==> idx[k] < idx[l]
  {
  }

  lemma StepComplete(details: seq<PriceDetail>, head: seq<nat>, rest: seq<nat>, idx: seq<nat>)
    requires details != []
    requires head == (if HasTag(details[0]) then [0] else [])
    requires idx == head + Shift(rest)
    requires forall i :: 0 <= i < |details[1..]| && HasTag(details[1..][i]) ==> i in rest
    ensures forall i :: 0 <= i < |details| && HasTag(details[i]) ==> i in idx
  {
    forall i | 0 <= i < |details| && HasTag(details[i])
      ensures i in idx
    {
      if i > 0 {
        assert HasTag(details[1..][i - 1]);
        var m :| 0 <= m < |rest| && rest[m] == i - 1;
        assert idx[|head| + m] == i;
      }
    }
  }

  /**
   * The positions the tags come from, witnessing that the tags are exactly
   * the non-empty titles, in their original order.
   */
  ghost function TagIndices(details: seq<PriceDetail>): (idx: seq<nat>)
    ensures TagsComeFrom(details, MarketingTags(details), idx)
  {
    if details == [] then []
    else
      var rest := TagIndices(details[1..]);
      TagsComeFromStep(details, rest);
      (if HasTag(details[0]) then [0] else []) + Shift(rest)
  }

  /** `category.get("name")` after `results.get("category") or {}`. */
  function CategoryName(category: Option<Category>): Option<string> {
    match category
    case None => None
    case Some(c) => c.name
  }

  /** `parent` is truthy: the category has a parent object with at least one key. */
  predicate HasParent(category: Option<Category>) {
    category.Some? && category.value.parent.Some? && category.value.parent.value.keys != {}
  }

  /** The `section` list: the category name, then the parent's name when there is a parent. */
  function Section(category: Option<Category>): (section: seq<Option<string>>)
    ensures 1 <= |section| <= 2 && section[0] == CategoryName(category)
    ensures |section| == 2 <==> HasParent(category)
    ensures |section| == 2 ==> section[1] == category.value.parent.value.name
  {
    if HasParent(category) then [CategoryName(category), category.value.parent.value.name]
    else [CategoryName(category)]
  }

  /**
   * The `stock` dict. `quantity` is `None` only when the key is absent; then
   * `get("quantity_total", 0)` supplies 0 for the comparison while `count`
   * stays `None`.
   */
  function StockOf(quantity: Option<int>): (stock: Stock)
    ensures stock.count == quantity
    ensures stock.inStock <==> quantity.Some? && quantity.value > 0
  {
    Stock(quantity.GetOr(0) > 0, quantity)
  }

  /** Python's f-string rendering of an optional string: `None` prints as "None". */
  function PyStr(o: Option<string>): string {
    match o
    case None => "None"
    case Some(s) => s
  }

  /** `results.get('category', {}).get('slug')`. */
  function CategorySlug(category: Option<Category>): Option<string> {
    match category
    case None => None
    case Some(c) => c.slug
  }

  /**
   * The record's `url`: the category slug and the text after the first
   * "/product" of the response URL, resolved against the product page.
   */
  function ProductUrl(category: Option<Category>, responseUrl: string, urlJoin: (string, string) -> string): string {
    urlJoin(PRODUCT_PAGE, PyStr(CategorySlug(category)) + "/" + AfterFirst(responseUrl, PRODUCT_SEP))
  }

  /** The record for product `p` fetched from `responseUrl` at time `now`. */
  function TransformProduct(p: ProductData, responseUrl: string, now: int,
                            lower: string -> string, urlJoin: (string, string) -> string): (r: OutputRecord)
    requires WellFormed(p) && CrashFree(p)
    ensures p.name.GetOr("") <= r.title
    ensures r.stock.inStock <==> p.quantityTotal.Some? && p.quantityTotal.value > 0
    ensures 1 <= |r.section| <= 2 && r.section[0] == CategoryName(p.category)
  {
    OutputRecord(
      now,
      p.uuid,
      ProductUrl(p.category, responseUrl, urlJoin),
      Title.TitleOf(p.name.GetOr(""), p.filterLabels.GetOr([]), lower),
      MarketingTags(p.priceDetails.GetOr([])),
      Brand.BrandOf(p.descriptionBlocks.GetOr([])),
      Section(p.category),
      StockOf(p.quantityTotal))
  }
}
