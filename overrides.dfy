/**
 * The two literal per-product override tables: extra gallery images keyed by
 * `ProductID_variant`, and a directions text keyed by `ProductID`.
 */
module Overrides {
  import opened Wrappers
  import opened OutputProduct

  /** `HARCODED_IMAGES`: images appended to a variant product whose id is a key. */
  function HardcodedImages(): map<string, seq<string>>
  {
    map[
      "435_Silver (Out of stock)" := [
        "https://cdn11.bigcommerce.com/s-afc70/images/stencil/1280x1280/products/435/3851/SILVERCELESTIALCHARMS_LOW-RES_ProductImage__83858.1628086498.jpg",
        "https://cdn11.bigcommerce.com/s-afc70/images/stencil/1280x1280/products/435/3848/Kenya_GEORGETTE_SILVERCHARMS_LOW-RES__64492.1628084542.jpg",
        "https://cdn11.bigcommerce.com/s-afc70/images/stencil/1280x1280/products/435/3850/Lauren_GEORGETTE_SILVERCHARMS_LOW-RES_2__21923.1628084551.jpg"
      ],
      "435_Gold" := [
        "https://cdn11.bigcommerce.com/s-afc70/images/stencil/1280x1280/products/435/3849/Kenya_GEORGETTE_GOLDCHARMS_LOW-RES__76875.1628084567.jpg",
        "https://cdn11.bigcommerce.com/s-afc70/images/stencil/1280x1280/products/435/3472/NECTAR_GEORGETTE_CHARMS_LOW-RES_02__59775.1612391349.jpg",
        "https://cdn11.bigcommerce.com/s-afc70/images/stencil/1280x1280/products/435/3469/VOILE_CHARMS_LOW-RES_01__96084.1612391356.jpg",
        "https://cdn11.bigcommerce.com/s-afc70/images/stencil/1280x1280/products/435/3470/VOILE_CHARMS_LOW-RES_02__85621.1612391359.jpg"
      ],
      "443_Powder Pink Trio (Out of stock)" := [
        "https://cdn11.bigcommerce.com/s-afc70/images/stencil/1280x1280/products/443/3482/Tortoise-Shell-NAS-Glamour-Shot-Low-Res__93264.1613518076.jpg?c=2"
      ]
    ]
  }

  /** `HARDCODED_DIRECTIONS`: per catalog `ProductID`, texts keyed by placement. */
  function HardcodedDirections(): map<string, map<Placement, string>>
  {
    map[
      "335" := map[
        Distant := "<p>To remove excess polish from skin and cuticles, dip brush in acetone and gently wipe away polish from the edge of the nail. Repeat as needed on each nail.</p>"
      ]
    ]
  }

  /**
   * The images a table shaped like `HARCODED_IMAGES` appends after a
   * product's own: the entry for `id`, or nothing when `id` is not a key.
   */
  function TableImages(table: map<string, seq<string>>, id: string): seq<string>
  {
    if id in table then table[id] else []
  }

  /** The literal table appends images exactly for its three keys: three, four and one of them. */
  lemma HardcodedImagesKeys(id: string)
    ensures TableImages(HardcodedImages(), id) != [] <==>
      id == "435_Silver (Out of stock)" || id == "435_Gold" || id == "443_Powder Pink Trio (Out of stock)"
    ensures id == "435_Silver (Out of stock)" ==> |TableImages(HardcodedImages(), id)| == 3
    ensures id == "435_Gold" ==> |TableImages(HardcodedImages(), id)| == 4
    ensures id == "443_Powder Pink Trio (Out of stock)" ==> |TableImages(HardcodedImages(), id)| == 1
  {
  }

  /**
   * `table[productId]` and then `[DISTANT]` on a table shaped like
   * `HARDCODED_DIRECTIONS`: `None` when there is no entry for the product or
   * the entry has no DISTANT text.
   */
  function DirectionsEntry(table: map<string, map<Placement, string>>, productId: string): Option<string>
  {
    if productId in table && Distant in table[productId] then Some(table[productId][Distant]) else None
  }

  /** The literal table holds a non-empty DISTANT text for product "335" and for no other product. */
  lemma HardcodedDirectionsEntry(productId: string)
    ensures DirectionsEntry(HardcodedDirections(), productId).Some? <==> productId == "335"
    ensures productId == "335" ==> DirectionsEntry(HardcodedDirections(), productId).value != ""
  {
  }
}
