# alcoteka spider, modelled in Dafny

A Dafny model of the Scrapy spider `AlcotekaSpider` (`alcoteka_p/alcoteka_p/spiders/alcoteka.py`),
which reads the alkoteka.com product catalogue through its JSON API. The spider has two callbacks:

- `parse` reads the listing response. It yields one detail request per listed product, in listing
  order. It yields none when the body is not JSON.
- `parse_product` reads one product's detail response. It yields nothing when the body is not JSON,
  when `success` is not truthy, or when `results` is missing or empty. Otherwise it yields exactly one
  record: title, brand, marketing tags, section, stock, canonical URL, UUID and timestamp.

Decoded JSON is modelled by typed datatypes (`product.dfy`). In them `None` means a key that is
absent or null. `results` and `category.parent` are tested for truthiness in Python, where an empty
dict is false, so these two objects also carry the set of keys they hold. A decoding failure is a
body of `None`.

Modules:

- `Options`: the `Option` wrapper.
- `Text`: substring search, `split(sep, 1)[-1]` and `join`.
- `Search`: the first-match linear scan.
- `Product`: the decoded bodies.
- `Title`: the title loops, as a method proved equal to a specification function.
- `Brand`: the brand loop, in the same way.
- `Transform`: the other fields and the whole record.
- `Spider`: the two callbacks.

The two `for … break` loops of `parse_product` are imperative in the source. They are methods here
(`Title.BuildTitle`, `Brand.FindBrand`) whose `ensures` equate their result with a specification
function. The properties are proved about those functions. `Spider.ParseProduct` runs these methods
and is proved to yield exactly `[TransformProduct(...)]` or nothing.

Lower-casing (`str.lower`) is the parameter `lower`, and nothing is assumed about it.
`urllib.parse.urljoin` is the parameter `urlJoin`. The wall-clock timestamp is the parameter `now`.

Two points where the model follows the code's exact behaviour:

- The record URL uses the text *after* the first "/product" of the response URL (`split('/product', 1)[-1]`),
  not the text starting at it.
- `success` is tested for truthiness, not compared with `true`.

`Spider.RecordUrlOfDetailRequest` shows what the record URL is built from when `urljoin` appends the
slug to the API base. The reference handed to `urljoin` is the category slug, then `//`, then the
product slug, then the API's `?city_uuid=…` query. When the category slug is non-empty, Python's
`urljoin` (not modelled) drops the empty path segment while resolving, so the emitted URL has a single
`/` there. The `?city_uuid=…` query of the API request still ends up on the public product page URL.
When the category slug is the empty string, `Spider.EmptyCategorySlugReference` shows that the
reference is `//<slug>?city_uuid=…`. `urljoin` reads a reference that starts with `//` as a network
location, so the record URL becomes `https://<slug>?city_uuid=…`, with the product slug as the host.
This is a latent defect of the source: it yields a URL on an unrelated host.

## Model

| member | source | states |
|---|---|---|
| `Text.Contains` | alcoteka_p/alcoteka_p/spiders/alcoteka.py:90 | Python's `sub in s` holds exactly when `sub` occurs in `s` at some index |
| `Text.FindFrom` | alcoteka_p/alcoteka_p/spiders/alcoteka.py:118 | the index found is an occurrence of the separator with no earlier occurrence; none is found only when there is no occurrence |
| `Text.FindExtend` | alcoteka_p/alcoteka_p/spiders/alcoteka.py:118 | appending text after a string that already holds the separator does not move its first occurrence |
| `Text.AfterFirst` | alcoteka_p/alcoteka_p/spiders/alcoteka.py:118 | `split(sep, 1)[-1]` is a suffix of the string; it is the whole string when `sep` does not occur, and otherwise the string is the text before the first occurrence, `sep`, then the result |
| `Search.FirstMatch` | alcoteka_p/alcoteka_p/spiders/alcoteka.py:87-92 | the scan returns an index whose element matches, with no earlier match, and returns nothing only when no element matches |
| `Search.FirstMatchIgnoresLater` | alcoteka_p/alcoteka_p/spiders/alcoteka.py:87-92 | elements appended after the first match never change the scan's result |
| `Text.JoinSnoc` | alcoteka_p/alcoteka_p/spiders/alcoteka.py:102 | `', '.join` of a non-empty list with one more part is the previous join, the separator and that part |
| `Title.ComposeTitle` | alcoteka_p/alcoteka_p/spiders/alcoteka.py:101-102 | the title starts with the name, and equals the name exactly when no part was staged |
| `Title.BuildTitle` | alcoteka_p/alcoteka_p/spiders/alcoteka.py:81-102 | the two scans with `break` build exactly the title given by the first volume label and the first colour label, with the inclusion rule |
| `Title.ExtraPartsShape` | alcoteka_p/alcoteka_p/spiders/alcoteka.py:85-99 | at most two parts are staged; each is non-empty and its lower-cased form is not in the lower-cased name; each is the title of the first label of its kind; a volume part comes first and a colour part last |
| `Title.TitleShape` | alcoteka_p/alcoteka_p/spiders/alcoteka.py:81-102 | the title starts with the name; it equals the name exactly when nothing was staged; otherwise it is `name, part` or `name, volume, colour` |
| `Title.StagedIgnoresLaterLabels` | alcoteka_p/alcoteka_p/spiders/alcoteka.py:87-99 | once a label of a kind has been seen, later labels of that kind are ignored, even when the first one was rejected |
| `Title.TitleIgnoresLaterLabels` | alcoteka_p/alcoteka_p/spiders/alcoteka.py:87-99 | once a volume and a colour label have been seen, appended labels never change the title |
| `Brand.FindBrand` | alcoteka_p/alcoteka_p/spiders/alcoteka.py:104-111 | the brand loop with `break` yields exactly the brand of the first `brend` block |
| `Brand.BrandFromFirstBrandBlock` | alcoteka_p/alcoteka_p/spiders/alcoteka.py:105-111 | with a first `brend` block at index i, the brand is the name of its first value, or None when its `values` is missing or empty |
| `Brand.NoBrandBlockNoBrand` | alcoteka_p/alcoteka_p/spiders/alcoteka.py:105-111 | with no `brend` block the brand is None |
| `Brand.BrandIgnoresLaterBlocks` | alcoteka_p/alcoteka_p/spiders/alcoteka.py:105-111 | blocks after the first `brend` block never change the brand, even when that block has no values |
| `Transform.MarketingTags` | alcoteka_p/alcoteka_p/spiders/alcoteka.py:121-123 | there are no more tags than price details, and every tag is non-empty |
| `Transform.TagIndices` | alcoteka_p/alcoteka_p/spiders/alcoteka.py:121-123 | the tags come from strictly increasing positions whose titles they are, and every price detail with a non-empty title is among them, so the tags are the non-empty titles in their original order |
| `Transform.Section` | alcoteka_p/alcoteka_p/spiders/alcoteka.py:125-129 | the section starts with the category name; it has two elements, the second the parent's name, exactly when the parent object is non-empty, and one otherwise |
| `Transform.StockOf` | alcoteka_p/alcoteka_p/spiders/alcoteka.py:131-134 | `in_stock` holds exactly when `quantity_total` is present and positive; `count` is the raw value, None when absent |
| `Transform.TransformProduct` | alcoteka_p/alcoteka_p/spiders/alcoteka.py:113-134 | the record's title starts with the name, its stock flag follows `quantity_total`, and its section starts with the category name |
| `Spider.DetailRequests` | alcoteka_p/alcoteka_p/spiders/alcoteka.py:45-54 | one request per listing entry, the i-th to the detail URL of the i-th entry's slug |
| `Spider.Parse` | alcoteka_p/alcoteka_p/spiders/alcoteka.py:31-54 | nothing on a decode failure; otherwise exactly `len(results)` requests, in listing order |
| `Spider.ParseProduct` | alcoteka_p/alcoteka_p/spiders/alcoteka.py:56-145 | at most one record; exactly one when the body decoded, `success` is truthy and `results` is non-empty, and then it is the transform of `results` |
| `Spider.BaseUrlSeparator` | alcoteka_p/alcoteka_p/spiders/alcoteka.py:11 | the first "/product" in the API base URL starts at index 31 |
| `Spider.DetailUrlSuffix` | alcoteka_p/alcoteka_p/spiders/alcoteka.py:118 | for a detail URL built by appending a slug to the base, the split suffix is "/", the slug and the query string |
| `Spider.RecordUrlOfDetailRequest` | alcoteka_p/alcoteka_p/spiders/alcoteka.py:116-119 | for such a request, the reference `urljoin` resolves against the product page is the category slug, "//", the slug and the API's `city_uuid` query |
| `Spider.EmptyCategorySlugReference` | alcoteka_p/alcoteka_p/spiders/alcoteka.py:116-119 | with an empty category slug, the reference `urljoin` resolves against the product page starts with "//", then the product slug and the query |

## Left out

- `start` (lines 17-29) only builds the constant listing URL. Scrapy's request scheduling is left out too; a request is its URL.
- `json.loads`: a body is the already decoded value, or `None` when decoding failed.
- `urljoin` (RFC 3986 section 5.2 reference resolution) is an uninterpreted parameter. The model does apply its early return of the base for a falsy reference, `None` or the empty string.
- `urlencode` of the fixed `city_uuid` parameter is written out as its constant result.
- The timestamp is read from the clock in the source; here it is the parameter `now`.
- Logging calls are not modelled.
- `price_data`, `assets` and `metadata` are not modelled. They are verbatim copies of input keys.
- `str.lower` is the uninterpreted parameter `lower`, because Python's Unicode case mapping is not modelled.
- A listing whose `results` is `null` makes the comprehension in `parse` raise. It is not represented, because `ListingPage.results` is `None` only for an absent key.
- JSON values of an unexpected type are not represented. That includes a non-string title or name, a non-bool truthy `success`, a float `quantity_total` and a non-object `results`. The Python crashes these would cause are left out.
- `Spider.ParseProduct`, `Transform.TransformProduct`: require `Product.WellFormed`, which says every field holding a value comes from a key the object has; a decoded object always meets it. They also require `Product.CrashFree`. This excludes `description_blocks`, `quantity_total` or `category` present but null, which make the Python code raise.
- `Transform.TransformProduct`: its own contract states only the title prefix, the stock flag and the section head. The other fields are stated by the members it is built from.
