/** The brand: the first value's name in the first `brend` description block (alcoteka.py, parse_product). */
module Brand {
  import opened Options
  import opened Search
  import opened Product

  const BRAND_CODE := "brend"

  /** `block.get("values") or []`. */
  function ValuesOf(block: Block): seq<BlockValue> {
    block.values.GetOr([])
  }

  /** Index of the first block whose `code` is `brend`. */
  function FirstBrandBlock(blocks: seq<Block>): Option<nat> {
    FirstMatch(blocks, (b: Block) => b.code == Some(BRAND_CODE))
  }

  /** The brand name the spider reports for `blocks`. */
  function BrandOf(blocks: seq<Block>): Option<string> {
    match FirstBrandBlock(blocks)
    case None => None
    case Some(i) => if ValuesOf(blocks[i]) == [] then None else ValuesOf(blocks[i])[0].name
  }

  /**
   * The brand loop of parse_product: stop at the first `brend` block and take
   * the name of its first value when it has one.
   */
  method FindBrand(blocks: seq<Block>) returns (brandName: Option<string>)
    ensures brandName == BrandOf(blocks)
  {
    brandName := None;
    var i := 0;
    while i < |blocks|
      invariant 0 <= i <= |blocks|
      invariant forall j :: 0 <= j < i ==> blocks[j].code != Some(BRAND_CODE)
      invariant brandName == None
    {
      if blocks[i].code == Some(BRAND_CODE) {
        var val := ValuesOf(blocks[i]);
        if val != [] {
          brandName := val[0].name;
        }
        break;
      }
      i := i + 1;
    }
  }

  /**
   * With no `brend` block the brand is None; otherwise it is decided by the
   * first `brend` block alone: the name of its first value, or None when its
   * `values` is missing or empty, whatever later blocks hold.
   */
  lemma BrandFromFirstBrandBlock(blocks: seq<Block>, i: nat)
    requires i < |blocks| && blocks[i].code == Some(BRAND_CODE)
    requires forall j :: 0 <= j < i ==> blocks[j].code != Some(BRAND_CODE)
    ensures ValuesOf(blocks[i]) == [] ==> BrandOf(blocks) == None
    ensures ValuesOf(blocks[i]) != [] ==> BrandOf(blocks) == ValuesOf(blocks[i])[0].name
  {
  }

  lemma NoBrandBlockNoBrand(blocks: seq<Block>)
    requires forall j :: 0 <= j < |blocks| ==> blocks[j].code != Some(BRAND_CODE)
    ensures BrandOf(blocks) == None
  {
  }

  /** Blocks after the first `brend` block never change the brand. */
  lemma BrandIgnoresLaterBlocks(blocks: seq<Block>, later: seq<Block>)
    requires FirstBrandBlock(blocks).Some?
    ensures BrandOf(blocks + later) == BrandOf(blocks)
  {
    FirstMatchIgnoresLater(blocks, later, (b: Block) => b.code == Some(BRAND_CODE));
    var i := FirstBrandBlock(blocks).value;
    assert (blocks + later)[i] == blocks[i];
  }
}
