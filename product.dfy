/**
 * Product assembly: the `Product` entity, the bullets array every product
 * shares, and `generateProduct`.
 */
module Assembly {
  import opened Wrappers
  import opened OutputProduct

  /** The fields of the catalog record `window.item` the scraper reads. */
  datatype CatalogItem = CatalogItem(productId: string, url: string, price: string)

  /** The fields of the storefront record `window.BCData.product_attributes` the scraper reads. */
  datatype StorefrontData = StorefrontData(purchasable: bool, currency: string)

  /** Everything read from the page before any product is built. */
  datatype PageData = PageData(
    catalog: CatalogItem,
    storefront: StorefrontData,
    title: string,
    higherPrice: string,
    breadcrumbs: seq<string>,
    videos: seq<string>,
    sizes: seq<string>,
    sections: seq<Section>)

  const Brand: string := "Cirque Colors"

  /** A JavaScript array of strings that several objects hold by reference. */
  class StringList {
    var items: seq<string>

    constructor (items: seq<string>)
      ensures this.items == items
    {
      this.items := items;
    }

    /** `push`. */
    method Push(x: string)
      modifies this
      ensures items == old(items) + [x]
    {
      items := items + [x];
    }
  }

  /** The value of a product's fields at one moment, bullets included. */
  datatype ProductRecord = ProductRecord(
    id: string,
    title: string,
    url: string,
    realPrice: string,
    higherPrice: string,
    availability: bool,
    brand: string,
    currency: string,
    breadcrumbs: seq<string>,
    description: string,
    bullets: seq<string>,
    size: Option<string>,
    videos: seq<string>,
    images: seq<string>,
    additionalSections: seq<Section>,
    color: Option<string>)

  /**
   * A scraped product. Prices are kept as the text handed to `parseFloat`;
   * `bullets` is a reference, so products built from one page share it.
   */
  class Product {
    var id: string
    var title: string
    var url: string
    var realPrice: string
    var higherPrice: string
    var availability: bool
    var brand: string
    var currency: string
    var breadcrumbs: seq<string>
    var description: string
    var bullets: StringList
    var size: Option<string>
    var videos: seq<string>
    var images: seq<string>
    var additionalSections: seq<Section>
    var color: Option<string>

    /** `new Product(id, title, url)`: every other field starts empty. */
    constructor (id: string, title: string, url: string)
      ensures this.id == id && this.title == title && this.url == url
      ensures realPrice == "" && higherPrice == "" && !availability && brand == "" && currency == ""
      ensures breadcrumbs == [] && description == "" && fresh(bullets) && bullets.items == []
      ensures size == None && videos == [] && images == [] && additionalSections == [] && color == None
    {
      this.id, this.title, this.url := id, title, url;
      realPrice, higherPrice, availability := "", "", false;
      brand, currency, breadcrumbs, description := "", "", [], "";
      bullets := new StringList([]);
      size, videos, images, additionalSections, color := None, [], [], [], None;
    }

    /** The product's fields, with `items` standing for the contents of the bullets list. */
    function RecordWith(items: seq<string>): ProductRecord
      reads this
    {
      ProductRecord(id, title, url, realPrice, higherPrice, availability, brand, currency,
                    breadcrumbs, description, items, size, videos, images, additionalSections, color)
    }

    /** The product's fields, the bullets read through the list it holds. */
    function Record(): ProductRecord
      reads this, bullets
    {
      RecordWith(bullets.items)
    }
  }

  /** The product id: `ProductID_variant` for a non-empty variant label, else the given id. */
  function ComposeId(productId: string, id: string, variant: string): string
  {
    if variant != "" then productId + "_" + variant else id
  }

  /** Different non-empty variant labels of one product give different ids. */
  lemma ComposeIdInjective(productId: string, a: string, b: string)
    requires a != "" && b != "" && a != b
    ensures ComposeId(productId, "", a) != ComposeId(productId, "", b)
  {
    var n := |productId| + 1;
    assert (productId + "_" + a)[n..] == a;
    assert (productId + "_" + b)[n..] == b;
  }

  /** A variant id starts with the catalog id and an underscore and ends with the label. */
  lemma ComposeIdParts(productId: string, variant: string)
    requires variant != ""
    ensures var id := ComposeId(productId, "", variant);
      |id| == |productId| + 1 + |variant| && id[..|productId|] == productId &&
      id[|productId|] == '_' && id[|productId| + 1..] == variant
  {
  }

  /** `parseHtmlTextContent` of the first MAIN section's content. */
  function Description(sections: seq<Section>, toText: string -> string): string
  {
    match FindMain(sections)
    case Some(main) => toText(main.content)
    case None => ""
  }

  /** The shared bullets after `generateProduct`: the description alone if they were empty. */
  function FilledBullets(bullets: seq<string>, description: string): seq<string>
  {
    if bullets == [] then [description] else bullets
  }

  /** Filling is done once: after the first product, later products leave the shared bullets as they are. */
  lemma FilledBulletsStable(bullets: seq<string>, description: string, later: string)
    ensures FilledBullets(bullets, description) != []
    ensures FilledBullets(FilledBullets(bullets, description), later) == FilledBullets(bullets, description)
    ensures bullets != [] ==> FilledBullets(bullets, description) == bullets
  {
  }

  /** What `generateProduct(id, variant)` returns, given the shared bullets before the call. */
  function Prototype(d: PageData, bullets: seq<string>, toText: string -> string, id: string, variant: string): ProductRecord
  {
    var description := Description(d.sections, toText);
    ProductRecord(
      ComposeId(d.catalog.productId, id, variant), d.title, d.catalog.url, d.catalog.price, d.higherPrice,
      d.storefront.purchasable, Brand, d.storefront.currency, d.breadcrumbs, description,
      FilledBullets(bullets, description), if d.sizes == [] then None else Some(d.sizes[0]),
      d.videos, [], d.sections, None)
  }

  /** A prototype does not depend on whether the shared bullets were already filled. */
  lemma PrototypeAfterFill(d: PageData, bullets: seq<string>, toText: string -> string, id: string, variant: string)
    ensures Prototype(d, FilledBullets(bullets, Description(d.sections, toText)), toText, id, variant) ==
            Prototype(d, bullets, toText, id, variant)
  {
  }

  /** The fields `generateProduct` fills from the page before it looks at the description. */
  function Header(d: PageData, id: string, variant: string): ProductRecord
  {
    ProductRecord(
      ComposeId(d.catalog.productId, id, variant), d.title, d.catalog.url, d.catalog.price, d.higherPrice,
      d.storefront.purchasable, Brand, d.storefront.currency, d.breadcrumbs, "",
      [], None, [], [], [], None)
  }

  /** The first half of `generateProduct`: a new product with the page's catalog and storefront fields. */
  method NewProduct(d: PageData, id: string, variant: string) returns (product: Product)
    ensures fresh(product)
    ensures product.RecordWith([]) == Header(d, id, variant)
  {
    product := new Product(id, "title", "url");
    product.id := ComposeId(d.catalog.productId, id, variant);
    product.title := d.title;
    product.url := d.catalog.url;
    product.realPrice := d.catalog.price;
    product.higherPrice := d.higherPrice;
    product.availability := d.storefront.purchasable;
    product.brand := Brand;
    product.currency := d.storefront.currency;
    product.breadcrumbs := d.breadcrumbs;
  }

  /**
   * `generateProduct`: a fresh product whose `bullets` is the shared list,
   * which gets the description pushed onto it when it is empty.
   */
  method GenerateProduct(d: PageData, bullets: StringList, toText: string -> string, id: string, variant: string)
    returns (product: Product)
    modifies bullets
    ensures fresh(product) && product.bullets == bullets
    ensures bullets.items == FilledBullets(old(bullets.items), Description(d.sections, toText))
    ensures product.Record() == Prototype(d, old(bullets.items), toText, id, variant)
  {
    product := NewProduct(d, id, variant);

    var description := Description(d.sections, toText);
    if description != "" {
      product.description := description;
    }
    if |bullets.items| == 0 {
      bullets.Push(description);
    }

    product.bullets := bullets;
    product.videos := d.videos;
    product.size := if |d.sizes| > 0 then Some(d.sizes[0]) else None;
    product.additionalSections := d.sections;
  }
}
