/**
 * The decoded JSON bodies the spider reads. Every optional key is an
 * `Option`: `None` stands for a key that is absent or holds `null`. Where the
 * spider tests an object for truthiness (an empty dict is false in Python),
 * the object also records the set of keys it holds.
 */
module Product {
  import opened Options

  /** One `filter_labels` entry, e.g. a volume (`obem`) or a colour (`cvet`). */
  datatype Label = Label(filter: Option<string>, title: Option<string>)

  /** One entry of a description block's `values`. */
  datatype BlockValue = BlockValue(name: Option<string>)

  /** One `description_blocks` entry; the brand is the block with code `brend`. */
  datatype Block = Block(code: Option<string>, values: Option<seq<BlockValue>>)

  /** One `price_details` entry. */
  datatype PriceDetail = PriceDetail(title: Option<string>)

  /** `category.parent`; it is "present" only when the object has at least one key. */
  datatype Parent = Parent(keys: set<string>, name: Option<string>)

  datatype Category = Category(name: Option<string>, slug: Option<string>, parent: Option<Parent>)

  /** The `results` object of a product detail response. */
  datatype ProductData = ProductData(
    keys: set<string>,
    uuid: Option<string>,
    name: Option<string>,
    category: Option<Category>,
    filterLabels: Option<seq<Label>>,
    descriptionBlocks: Option<seq<Block>>,
    priceDetails: Option<seq<PriceDetail>>,
    quantityTotal: Option<int>)

  /** A product detail response body: `{success, results}`. */
  datatype Envelope = Envelope(success: Option<bool>, results: Option<ProductData>)

  /** One entry of the listing's `results`; its `slug` names the detail endpoint. */
  datatype ListingEntry = ListingEntry(slug: Option<string>)

  /** The listing response body; `results` is `None` when the key is absent. */
  datatype ListingPage = ListingPage(results: Option<seq<ListingEntry>>)

  /** Every field that holds a value comes from a key the object has. */
  predicate WellFormed(p: ProductData) {
    && (p.uuid.Some? ==> "uuid" in p.keys)
    && (p.name.Some? ==> "name" in p.keys)
    && (p.category.Some? ==> "category" in p.keys)
    && (p.filterLabels.Some? ==> "filter_labels" in p.keys)
    && (p.descriptionBlocks.Some? ==> "description_blocks" in p.keys)
    && (p.priceDetails.Some? ==> "price_details" in p.keys)
    && (p.quantityTotal.Some? ==> "quantity_total" in p.keys)
    && (p.category.Some? && p.category.value.parent.Some? ==>
          var parent := p.category.value.parent.value;
          parent.name.Some? ==> "name" in parent.keys)
  }

  /**
   * The keys whose `null` value would make the transform fail in Python:
   * `description_blocks` is iterated, `quantity_total` is compared with 0 and
   * `category` is read with `.get` when the key is present, with no `or`
   * fallback for `null`. With `WellFormed`, a key in `keys` whose field is
   * `None` holds `null`.
   */
  predicate CrashFree(p: ProductData) {
    && ("description_blocks" in p.keys ==> p.descriptionBlocks.Some?)
    && ("quantity_total" in p.keys ==> p.quantityTotal.Some?)
    && ("category" in p.keys ==> p.category.Some?)
  }
}
