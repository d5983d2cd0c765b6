/**
 * The spider's two callbacks (alcoteka.py): `parse` turns the listing
 * response into one detail request per listed product, and `parse_product`
 * turns a detail response into zero or one output record.
 *
 * JSON decoding is not modelled: a body is the decoded value, or `None` when
 * `json.loads` raised. `urljoin` is the parameter `urlJoin`, `str.lower` the
 * parameter `lower`, and the wall-clock timestamp the parameter `now`.
 */
module Spider {
  import opened Options
  import opened Text
  import opened Product
  import opened Transform
  import Title
  import Brand

  /** The listing and detail API endpoint. */
  const BASE_URL := "https://alkoteka.com/web-api/v1/product/"
  /** `urlencode({"city_uuid": ...})`: the UUID holds only characters urlencode leaves as they are. */
  const CITY_QUERY := "city_uuid=4a70f9e0-46ae-11e7-83ff-00155d026416"
  /** The query part every detail URL ends with. */
  const QUERY := "?" + CITY_QUERY

  /** A request whose response is handed to `parse_product`. */
  datatype DetailRequest = DetailRequest(url: string)

  /** `data.get("results", [])`. */
  function Entries(page: ListingPage): seq<ListingEntry> {
    page.results.GetOr([])
  }

  /**
   * `f"{urljoin(BASE_URL, slug)}?{urlencode(params)}"`. `urljoin` returns its
   * base unchanged when the reference is falsy: `None` or empty.
   */
  function DetailUrl(slug: Option<string>, urlJoin: (string, string) -> string): string {
    (match slug
     case None => BASE_URL
     case Some(s) => if s == "" then BASE_URL else urlJoin(BASE_URL, s))
    + QUERY
  }

  /** One detail request per entry, in listing order. */
  function DetailRequests(entries: seq<ListingEntry>, urlJoin: (string, string) -> string): (requests: seq<DetailRequest>)
    ensures |requests| == |entries|
    ensures forall i :: 0 <= i < |entries| ==>
      requests[i] == DetailRequest(DetailUrl(entries[i].slug, urlJoin))
  {
    if entries == [] then []
    else [DetailRequest(DetailUrl(entries[0].slug, urlJoin))] + DetailRequests(entries[1..], urlJoin)
  }

  /**
   * `parse`: nothing when the body did not decode, otherwise exactly one
   * detail request per listed entry, in listing order.
   */
  function Parse(body: Option<ListingPage>, urlJoin: (string, string) -> string): (requests: seq<DetailRequest>)
    ensures body.None? ==> requests == []
    ensures body.Some? ==> |requests| == |Entries(body.value)|
    ensures body.Some? ==> forall i :: 0 <= i < |requests| ==>
      requests[i].url == DetailUrl(Entries(body.value)[i].slug, urlJoin)
  {
    match body
    case None => []
    case Some(page) => DetailRequests(Entries(page), urlJoin)
  }

  /**
   * The guards of `parse_product`: the body decoded, `success` is truthy and
   * `results` is a non-empty object.
   */
  predicate Emits(body: Option<Envelope>) {
    && body.Some?
    && body.value.success == Some(true)
    && body.value.results.Some?
    && body.value.results.value.keys != {}
  }

  /**
   * `parse_product`: exactly one record when the guards pass, none
   * otherwise; the record is the transform of the product's `results`.
   */
  method ParseProduct(body: Option<Envelope>, responseUrl: string, now: int,
                      lower: string -> string, urlJoin: (string, string) -> string)
    returns (records: seq<OutputRecord>)
    requires Emits(body) ==> WellFormed(body.value.results.value) && CrashFree(body.value.results.value)
    ensures |records| <= 1
    ensures |records| == 1 <==> Emits(body)
    ensures Emits(body) ==> records == [TransformProduct(body.value.results.value, responseUrl, now, lower, urlJoin)]
  {
    if body.None? {
      return [];
    }
    var detail := body.value;
    if detail.success != Some(true) {
      return [];
    }
    if detail.results.None? || detail.results.value.keys == {} {
      return [];
    }
    var p := detail.results.value;

    var title := Title.BuildTitle(p.name.GetOr(""), p.filterLabels.GetOr([]), lower);
    var brandName := Brand.FindBrand(p.descriptionBlocks.GetOr([]));

    records := [OutputRecord(
      now,
      p.uuid,
      ProductUrl(p.category, responseUrl, urlJoin),
      title,
      MarketingTags(p.priceDetails.GetOr([])),
      brandName,
      Section(p.category),
      StockOf(p.quantityTotal))];
  }

  /** Before index 31, no "/" of BASE_URL is followed by "p". */
  lemma NoSlashPBefore31(j: nat)
    requires j < 31
    ensures BASE_URL[j] != '/' || BASE_URL[j + 1] != 'p'
  {
  }

  /** The first "/product" in a detail URL is the one inside BASE_URL, which ends one "/" after it. */
  lemma BaseUrlSeparator()
    ensures Find(BASE_URL, PRODUCT_SEP) == Some(31)
    ensures BASE_URL[31 + |PRODUCT_SEP|..] == "/"
  {
    forall j: nat | j < 31
      ensures !OccursAt(BASE_URL, PRODUCT_SEP, j)
    {
      NoSlashPBefore31(j);
      var window := BASE_URL[j..j + |PRODUCT_SEP|];
      assert window[0] == BASE_URL[j] && window[1] == BASE_URL[j + 1];
      assert PRODUCT_SEP[0] == '/' && PRODUCT_SEP[1] == 'p';
    }
    assert OccursAt(BASE_URL, PRODUCT_SEP, 31);
  }

  /**
   * When `urljoin` appends a slug to BASE_URL, the suffix parse_product
   * splits off its own request URL is "/", the slug and the query string.
   */
  lemma DetailUrlSuffix(slug: string, urlJoin: (string, string) -> string)
    requires urlJoin(BASE_URL, slug) == BASE_URL + slug
    ensures AfterFirst(DetailUrl(Some(slug), urlJoin), PRODUCT_SEP) == "/" + (slug + QUERY)
  {
    var rest := slug + QUERY;
    assert DetailUrl(Some(slug), urlJoin) == BASE_URL + rest;
    BaseUrlSeparator();
    AfterFirstExtend(BASE_URL, rest, PRODUCT_SEP, 31);
  }

  /**
   * So the reference parse_product hands to `urljoin` for the record URL of
   * such a request is the category slug, "//", the slug and the API query
   * string.
   */
  lemma RecordUrlOfDetailRequest(slug: string, category: Option<Category>, urlJoin: (string, string) -> string)
    requires urlJoin(BASE_URL, slug) == BASE_URL + slug
    ensures ProductUrl(category, DetailUrl(Some(slug), urlJoin), urlJoin)
         == urlJoin(PRODUCT_PAGE, PyStr(CategorySlug(category)) + "//" + (slug + QUERY))
  {
    var url := DetailUrl(Some(slug), urlJoin);
    DetailUrlSuffix(slug, urlJoin);
    var c := PyStr(CategorySlug(category));
    var rest := slug + QUERY;
    assert c + "/" + ("/" + rest) == c + "//" + rest;
  }

  /**
   * With an empty category slug the reference starts with "//", which
   * `urljoin` reads as a network location: the product slug becomes the host.
   */
  lemma EmptyCategorySlugReference(slug: string, name: Option<string>, parent: Option<Parent>,
                                   urlJoin: (string, string) -> string)
    requires urlJoin(BASE_URL, slug) == BASE_URL + slug
    ensures ProductUrl(Some(Category(name, Some(""), parent)), DetailUrl(Some(slug), urlJoin), urlJoin)
         == urlJoin(PRODUCT_PAGE, "//" + (slug + QUERY))
  {
    RecordUrlOfDetailRequest(slug, Some(Category(name, Some(""), parent)), urlJoin);
    assert PyStr(Some("")) + "//" + (slug + QUERY) == "//" + (slug + QUERY);
  }
}
