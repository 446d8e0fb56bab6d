/**
 * The `scraper` entry point: the page reads, the probe for a variant label,
 * the loop that builds one product per variant, and the single-product
 * fallback. Browser reads that depend on which option is selected are
 * oracles that may fail, as a throwing `$eval` does.
 */
module Scraper {
  import opened Wrappers
  import opened JsString
  import opened Dom
  import opened OutputProduct
  import opened Overrides
  import opened Extractors
  import opened Bullets
  import opened Sections
  import opened Assembly

  /** Which option the variant drop-down shows: the page's own choice, or the one `page.select` made. */
  datatype Selection = Initial | Selected(value: string)

  /** How the `$eval` on the variant label ends: it throws when no element matches. */
  datatype Probe = ProbeThrows | ProbeNull | ProbeElement

  /**
   * The reads that depend on the selection. `mainImageAt(s)` is the `src` of
   * the current slide and `priceAt(s)` the text of the price element while
   * `s` is selected; `None` when the element is missing and `$eval` throws.
   */
  datatype Browser = Browser(
    probe: Probe,
    mainImageAt: Selection -> Option<string>,
    priceAt: Selection -> Option<string>)

  /** The page globals `window.item` and `window.BCData`; `None` when waiting for one times out. */
  datatype Globals = Globals(catalog: Option<CatalogItem>, storefront: Option<StorefrontData>)

  /**
   * The literal data `scraper` consults: the image override table, the
   * directions override table and the two ingredient texts.
   */
  datatype Literals = Literals(images: map<string, seq<string>>,
                               directions: map<string, map<Placement, string>>,
                               texts: IngredientTexts)

  /** The values the source module defines for them. */
  function SourceLiterals(): Literals
  {
    Literals(HardcodedImages(), HardcodedDirections(), SourceIngredientTexts())
  }

  /** Why `scraper` rejects before any product is built, in the order of its reads. */
  datatype ScrapeError = CatalogTimeout | StorefrontTimeout | TitleMissing | MainContentMissing | NonSalePriceMissing

  /** `getHigherPrice`: the non-sale price text, trimmed, with its first "$" removed. */
  function HigherPrice(e: Element): string
  {
    ReplaceFirst(Trim(e.text), "$", "")
  }

  /**
   * The non-sale price loses its surrounding whitespace and, when it has
   * one, its first "$"; everything else is kept in order.
   */
  lemma HigherPriceSpec(e: Element)
    ensures var t := Trim(e.text);
      (!Contains(t, "$") ==> HigherPrice(e) == t) &&
      (Contains(t, "$") ==>
         exists i :: 0 <= i < |t| && t[i] == '$' && '$' !in t[..i] && HigherPrice(e) == t[..i] + t[i + 1..])
  {
    DeleteFirstChar(Trim(e.text), '$');
  }

  /** The variant price as handed to `parseFloat`: the text with its first "$" removed, untrimmed. */
  function ShownPrice(text: string): string
  {
    ReplaceFirst(text, "$", "")
  }

  /** The reads before the probe, failing at the first one that throws. */
  function ReadPage(doc: Document, globals: Globals, directions: map<string, map<Placement, string>>)
    : (r: Result<PageData, ScrapeError>)
    ensures r.Success? <==>
      globals.catalog.Some? && globals.storefront.Some? && doc.title.Some? &&
      ContentBlocks(doc) != [] && doc.nonSalePrice.Some?
    ensures r == Failure(CatalogTimeout) <==> globals.catalog.None?
    ensures r == Failure(StorefrontTimeout) <==> globals.catalog.Some? && globals.storefront.None?
    ensures r == Failure(TitleMissing) <==> globals.catalog.Some? && globals.storefront.Some? && doc.title.None?
    ensures r == Failure(MainContentMissing) <==>
      globals.catalog.Some? && globals.storefront.Some? && doc.title.Some? && ContentBlocks(doc) == []
    ensures r == Failure(NonSalePriceMissing) <==>
      globals.catalog.Some? && globals.storefront.Some? && doc.title.Some? && ContentBlocks(doc) != [] &&
      doc.nonSalePrice.None?
    ensures r.Success? ==> r.value.catalog == globals.catalog.value && r.value.storefront == globals.storefront.value
    ensures r.Success? ==>
      r.value.title == doc.title.value.text && r.value.higherPrice == HigherPrice(doc.nonSalePrice.value)
    ensures r.Success? ==>
      r.value.breadcrumbs == Breadcrumbs(doc.breadcrumbItems) && r.value.videos == Videos(doc.descriptionFrames) &&
      r.value.sizes == Sizes(doc.detailParagraphs)
    ensures r.Success? ==> Some(r.value.sections) == AdditionalSections(doc, r.value.catalog.productId, directions)
  {
    if globals.catalog.None? then Failure(CatalogTimeout)
    else if globals.storefront.None? then Failure(StorefrontTimeout)
    else if doc.title.None? then Failure(TitleMissing)
    else
      var catalog := globals.catalog.value;
      match AdditionalSections(doc, catalog.productId, directions)
      case None => Failure(MainContentMissing)
      case Some(sections) =>
        if doc.nonSalePrice.None? then Failure(NonSalePriceMissing)
        else Success(PageData(catalog, globals.storefront.value, doc.title.value.text,
                              HigherPrice(doc.nonSalePrice.value), Breadcrumbs(doc.breadcrumbItems),
                              Videos(doc.descriptionFrames), Sizes(doc.detailParagraphs), sections))
  }

  // ----------------------------------------------------------- variant loop

  /** How one pass of the loop body ends after `generateProduct`. */
  datatype Step = Failed | Done(selection: Selection, images: seq<string>, price: string)

  /** The price read under `selection`, after the slide image (if any) was taken. */
  function PriceStep(selection: Selection, images: seq<string>, b: Browser): Step
  {
    match b.priceAt(selection)
    case None => Failed
    case Some(text) => Done(selection, images, ShownPrice(text))
  }

  /**
   * One variant: an available one is selected and its slide read; the price
   * is then read under whatever is selected, which for an unavailable
   * variant is still the previous selection.
   */
  function VariantStep(v: Variant, selection: Selection, b: Browser): Step
  {
    if v.availability then
      var next := Selected(v.value);
      match b.mainImageAt(next)
      case None => Failed
      case Some(src) => PriceStep(next, [src], b)
    else PriceStep(selection, [], b)
  }

  /**
   * What every product of one page is built from: the page data, the shared
   * bullets before the first `generateProduct`, `parseHtmlTextContent` and
   * the image override table.
   */
  datatype Setting = Setting(page: PageData, bullets: seq<string>, toText: string -> string,
                             table: map<string, seq<string>>)

  /** The product pushed for variant `v` once its slide images and price are known. */
  function VariantRecord(s: Setting, v: Variant, images: seq<string>, price: string): ProductRecord
  {
    var p := Prototype(s.page, s.bullets, s.toText, "", v.variant).(color := Some(v.variant));
    p.(realPrice := price, images := p.images + images + TableImages(s.table, p.id))
  }

  /** The shared bullets once the first product was generated. */
  function Filled(s: Setting): seq<string>
  {
    FilledBullets(s.bullets, Description(s.page.sections, s.toText))
  }

  /** An available variant becomes the selection; an unavailable one leaves it as it was. */
  lemma StepSelection(v: Variant, selection: Selection, b: Browser)
    ensures VariantStep(v, selection, b).Done? ==>
      VariantStep(v, selection, b).selection == if v.availability then Selected(v.value) else selection
  {
  }

  /** The option shown when the pass for variant `k` begins: the last available variant before it, or the page's own. */
  function SelectionBefore(vs: seq<Variant>, k: nat): Selection
    requires k <= |vs|
  {
    if k == 0 then Initial
    else if vs[k - 1].availability then Selected(vs[k - 1].value)
    else SelectionBefore(vs, k - 1)
  }

  /** The pass for variant `k`, given that the ones before it got through. */
  function StepAt(vs: seq<Variant>, k: nat, b: Browser): Step
    requires k < |vs|
  {
    VariantStep(vs[k], SelectionBefore(vs, k), b)
  }

  /** The product pushed by the pass for variant `k`, when that pass gets through. */
  function PassRecord(s: Setting, vs: seq<Variant>, b: Browser, k: nat): ProductRecord
    requires k < |vs| && StepAt(vs, k, b).Done?
  {
    VariantRecord(s, vs[k], StepAt(vs, k, b).images, StepAt(vs, k, b).price)
  }

  /** Whether the passes for the first `n` variants all get through. */
  predicate PassesThrough(vs: seq<Variant>, b: Browser, n: nat)
    requires n <= |vs|
  {
    n == 0 || (PassesThrough(vs, b, n - 1) && StepAt(vs, n - 1, b).Done?)
  }

  /** The first `n` passes get through exactly when each of them does. */
  lemma {:induction false} PassesThroughIff(vs: seq<Variant>, b: Browser, n: nat)
    requires n <= |vs|
    ensures PassesThrough(vs, b, n) <==> forall k :: 0 <= k < n ==> StepAt(vs, k, b).Done?
  {
    if n > 0 {
      PassesThroughIff(vs, b, n - 1);
    }
  }

  /** The products pushed by the first `n` passes, in order. */
  function PushedRecords(s: Setting, vs: seq<Variant>, b: Browser, n: nat): seq<ProductRecord>
    requires n <= |vs| && PassesThrough(vs, b, n)
  {
    if n == 0 then []
    else
      PushedRecords(s, vs, b, n - 1) + [PassRecord(s, vs, b, n - 1)]
  }

  /** Each pass that gets through pushes exactly one product, built from that pass. */
  lemma {:induction false} PushedRecordsAt(s: Setting, vs: seq<Variant>, b: Browser, n: nat)
    requires n <= |vs| && PassesThrough(vs, b, n)
    ensures var r := PushedRecords(s, vs, b, n);
      |r| == n &&
      forall k :: 0 <= k < n ==>
        StepAt(vs, k, b).Done? && r[k] == PassRecord(s, vs, b, k)
  {
    if n > 0 {
      PushedRecordsAt(s, vs, b, n - 1);
    }
  }

  /** How many passes, from `from` on, get through before the first throw. */
  function PassCount(vs: seq<Variant>, b: Browser, from: nat): nat
    requires from <= |vs|
    decreases |vs| - from
  {
    if from == |vs| || StepAt(vs, from, b).Failed? then from else PassCount(vs, b, from + 1)
  }

  /** The loop stops at the first pass that throws, or at the end. */
  lemma {:induction false} PassCountSpec(vs: seq<Variant>, b: Browser, from: nat)
    requires from <= |vs| && PassesThrough(vs, b, from)
    ensures var n := PassCount(vs, b, from);
      from <= n <= |vs| && PassesThrough(vs, b, n) && (n < |vs| ==> StepAt(vs, n, b).Failed?)
    decreases |vs| - from
  {
    if from < |vs| && StepAt(vs, from, b).Done? {
      PassCountSpec(vs, b, from + 1);
    }
  }

  /** The number of passes before the first throw is determined by the steps alone. */
  lemma FirstFailureUnique(vs: seq<Variant>, b: Browser, m: nat, n: nat)
    requires m <= |vs| && n <= |vs| && PassesThrough(vs, b, m) && PassesThrough(vs, b, n)
    requires m < |vs| ==> StepAt(vs, m, b).Failed?
    requires n < |vs| ==> StepAt(vs, n, b).Failed?
    ensures m == n
  {
    PassesThroughIff(vs, b, m);
    PassesThroughIff(vs, b, n);
  }

  /** The products the whole loop over `vs` pushes. */
  function VariantRecords(s: Setting, vs: seq<Variant>, b: Browser): seq<ProductRecord>
  {
    PassCountSpec(vs, b, 0);
    PushedRecords(s, vs, b, PassCount(vs, b, 0))
  }

  /**
   * The loop pushes the product of each pass, in variant order, up to the
   * first pass that throws; with no throw there is one product per variant.
   */
  lemma VariantRecordsSpec(s: Setting, vs: seq<Variant>, b: Browser)
    ensures var r := VariantRecords(s, vs, b);
      |r| <= |vs| &&
      (forall k :: 0 <= k < |r| ==> StepAt(vs, k, b).Done? && r[k] == PassRecord(s, vs, b, k)) &&
      (|r| < |vs| ==> StepAt(vs, |r|, b).Failed?) &&
      (|r| == |vs| <==> forall k :: 0 <= k < |vs| ==> StepAt(vs, k, b).Done?)
  {
    PassCountSpec(vs, b, 0);
    var n := PassCount(vs, b, 0);
    PushedRecordsAt(s, vs, b, n);
    PassesThroughIff(vs, b, n);
  }

  /** The selection before pass `k` depends only on the variants before it. */
  lemma {:induction false} SelectionBeforePrefix(vs: seq<Variant>, m: nat, k: nat)
    requires k <= m <= |vs|
    ensures SelectionBefore(vs[..m], k) == SelectionBefore(vs, k)
  {
    if k > 0 {
      SelectionBeforePrefix(vs, m, k - 1);
      assert vs[..m][k - 1] == vs[k - 1];
    }
  }

  /**
   * When pass `n` throws after the earlier ones got through, the loop keeps
   * exactly the `n` products already pushed, the same ones the variants
   * before `n` give on their own.
   */
  lemma AbortKeepsPrefix(s: Setting, vs: seq<Variant>, b: Browser, n: nat)
    requires n < |vs| && StepAt(vs, n, b).Failed?
    requires forall k :: 0 <= k < n ==> StepAt(vs, k, b).Done?
    ensures |VariantRecords(s, vs, b)| == n
    ensures VariantRecords(s, vs, b) == VariantRecords(s, vs[..n], b)
  {
    var r, q := VariantRecords(s, vs, b), VariantRecords(s, vs[..n], b);
    VariantRecordsSpec(s, vs, b);
    VariantRecordsSpec(s, vs[..n], b);
    forall k | 0 <= k < n
      ensures StepAt(vs[..n], k, b) == StepAt(vs, k, b)
    {
      SelectionBeforePrefix(vs, n, k);
      assert vs[..n][k] == vs[k];
    }
    forall k | 0 <= k < n
      ensures q[k] == r[k]
    {
      assert vs[..n][k] == vs[k];
    }
  }

  /**
   * The product of a pass: the label as color and in the id; the slide image
   * when the variant is available, then the override images for that id;
   * the price shown under the selection of the pass; availability and
   * bullets from the page, not from the variant.
   */
  lemma PassRecordShape(s: Setting, vs: seq<Variant>, b: Browser, k: nat)
    requires k < |vs| && StepAt(vs, k, b).Done?
    ensures var r, v := PassRecord(s, vs, b, k), vs[k];
      var shown := if v.availability then Selected(v.value) else SelectionBefore(vs, k);
      r.color == Some(v.variant) &&
      r.id == ComposeId(s.page.catalog.productId, "", v.variant) &&
      (v.availability ==> b.mainImageAt(shown).Some?) &&
      r.images == (if v.availability then [b.mainImageAt(shown).value] else []) + TableImages(s.table, r.id) &&
      b.priceAt(shown).Some? && r.realPrice == ShownPrice(b.priceAt(shown).value) &&
      r.availability == s.page.storefront.purchasable &&
      r.bullets == Filled(s) && r.bullets != []
  {
    FilledBulletsStable(s.bullets, Description(s.page.sections, s.toText), "");
  }

  /**
   * One pass of the loop body: `generateProduct`, the color, the slide image
   * of an available variant, the price, then the override images. `ok` is
   * false when a read throws; the product built so far is then dropped.
   */
  method VariantProduct(d: PageData, shared: StringList, toText: string -> string, table: map<string, seq<string>>,
                        v: Variant, selection: Selection, b: Browser, ghost setting: Setting,
                        ghost vs: seq<Variant>, ghost k: nat)
    returns (product: Product, next: Selection, ok: bool)
    requires setting.page == d && setting.toText == toText && setting.table == table
    requires shared.items == setting.bullets || shared.items == Filled(setting)
    requires k < |vs| && v == vs[k] && selection == SelectionBefore(vs, k)
    modifies shared
    ensures fresh(product) && product.bullets == shared && shared.items == Filled(setting)
    ensures ok == StepAt(vs, k, b).Done?
    ensures ok ==> next == SelectionBefore(vs, k + 1) && product.RecordWith(Filled(setting)) == PassRecord(setting, vs, b, k)
  {
    StepSelection(v, selection, b);
    product := GenerateProduct(d, shared, toText, "", v.variant);
    product.color := Some(v.variant);
    next, ok := CompleteVariant(product, Filled(setting), v, selection, b, table);
  }

  /** The rest of the pass after the color: the slide image, the price, then the override images. */
  method CompleteVariant(product: Product, ghost items: seq<string>, v: Variant, selection: Selection, b: Browser,
                         table: map<string, seq<string>>)
    returns (next: Selection, ok: bool)
    modifies product
    ensures product.bullets == old(product.bullets)
    ensures var step := VariantStep(v, selection, b);
      ok == step.Done? &&
      (ok ==> next == step.selection &&
              product.RecordWith(items) ==
                old(product.RecordWith(items)).(realPrice := step.price,
                                                images := old(product.images) + step.images + TableImages(table, old(product.id))))
  {
    next := selection;
    ok := false;
    if v.availability {
      next := Selected(v.value);
      var mainImage := b.mainImageAt(next);
      if mainImage.None? {
        return;
      }
      product.images := product.images + [mainImage.value];
    }
    var price := b.priceAt(next);
    if price.None? {
      return;
    }
    product.realPrice := ShownPrice(price.value);
    if product.id in table {
      product.images := product.images + table[product.id];
    }
    ok := true;
  }

  /** Each product's record is the one at its position, and there is one product per record. */
  predicate Matches(products: seq<Product>, records: seq<ProductRecord>)
    reads set p | p in products, set p | p in products :: p.bullets
  {
    |products| == |records| && forall k :: 0 <= k < |products| ==> products[k].Record() == records[k]
  }

  /** The products all hold the same bullets array. */
  predicate ShareBullets(products: seq<Product>)
    reads set p | p in products
  {
    forall j, k :: 0 <= j < k < |products| ==> products[j].bullets == products[k].bullets
  }

  /**
   * The `for` over the variants inside its `try`: one product per variant,
   * pushed once its price is read; the first throw ends the loop and the
   * products already pushed are kept.
   */
  method ExpandVariants(d: PageData, shared: StringList, toText: string -> string, table: map<string, seq<string>>,
                        vs: seq<Variant>, b: Browser)
    returns (products: seq<Product>)
    modifies shared
    ensures |products| <= |vs| && forall k :: 0 <= k < |products| ==> StepAt(vs, k, b).Done?
    ensures |products| < |vs| ==> StepAt(vs, |products|, b).Failed?
    ensures forall k :: 0 <= k < |products| ==> products[k].bullets == shared
    ensures forall k :: 0 <= k < |products| ==>
      products[k].Record() == PassRecord(Setting(d, old(shared.items), toText, table), vs, b, k)
    ensures shared.items == if vs == [] then old(shared.items)
                            else FilledBullets(old(shared.items), Description(d.sections, toText))
  {
    ghost var setting := Setting(d, shared.items, toText, table);
    ghost var filled := Filled(setting);
    products := [];
    var selection := Initial;
    var i := 0;
    while i < |vs|
      invariant 0 <= i <= |vs| && |products| == i && selection == SelectionBefore(vs, i)
      invariant forall k :: 0 <= k < i ==> StepAt(vs, k, b).Done?
      invariant filled == Filled(setting) && shared.items == if i == 0 then setting.bullets else filled
      invariant forall k :: 0 <= k < i ==> products[k].RecordWith(filled) == PassRecord(setting, vs, b, k)
      invariant forall k :: 0 <= k < i ==> products[k].bullets == shared
    {
      var product, next, ok := VariantProduct(d, shared, toText, table, vs[i], selection, b, setting, vs, i);
      if !ok {
        break;
      }
      products := products + [product];
      selection := next;
      i := i + 1;
    }
  }

  // ------------------------------------------------------------ entry point

  /** The products built after the probe from the page data and the bullets gathered before it. */
  function ProbeRecords(doc: Document, d: PageData, bullets: seq<string>, b: Browser, toText: string -> string,
                        table: map<string, seq<string>>): seq<ProductRecord>
  {
    match b.probe
    case ProbeThrows => [SingleRecord(doc, d, bullets, toText)]
    case ProbeNull => []
    case ProbeElement => VariantRecords(Setting(d, bullets, toText, table), Variants(doc.variantOptions), b)
  }

  /** When the probe throws, there is exactly one product: the catalog id, no color, every thumbnail. */
  lemma SinglePath(doc: Document, d: PageData, bullets: seq<string>, b: Browser, toText: string -> string,
                   table: map<string, seq<string>>)
    requires b.probe.ProbeThrows?
    ensures var r := ProbeRecords(doc, d, bullets, b, toText, table);
      |r| == 1 && r[0].id == d.catalog.productId && r[0].color == None &&
      r[0].images == AllImages(doc.thumbnailLinks) && r[0].realPrice == d.catalog.price
  {
  }

  /** When the probe finds no element but does not throw, no product is built. */
  lemma NullProbe(doc: Document, d: PageData, bullets: seq<string>, b: Browser, toText: string -> string,
                  table: map<string, seq<string>>)
    requires b.probe.ProbeNull?
    ensures ProbeRecords(doc, d, bullets, b, toText, table) == []
  {
  }

  /**
   * `product.size` is the rewritten text of the first paragraph that
   * mentions "Size:", and undefined when none does.
   */
  lemma ProductSize(doc: Document, globals: Globals, directions: map<string, map<Placement, string>>,
                    bullets: seq<string>, toText: string -> string, id: string, variant: string)
    requires ReadPage(doc, globals, directions).Success?
    ensures var size := Prototype(ReadPage(doc, globals, directions).value, bullets, toText, id, variant).size;
      (size.None? <==> forall p :: p in doc.detailParagraphs ==> !Contains(p.text, "Size:")) &&
      (size.Some? ==> exists k :: 0 <= k < |doc.detailParagraphs| && Contains(doc.detailParagraphs[k].text, "Size:") &&
                                  (forall j :: 0 <= j < k ==> !Contains(doc.detailParagraphs[j].text, "Size:")) &&
                                  size.value == SizeText(doc.detailParagraphs[k].text))
  {
    SizesSpec(doc.detailParagraphs);
  }

  /** The products `scraper` returns, or the read that made it reject. */
  function Expected(doc: Document, globals: Globals, b: Browser, toText: string -> string, lits: Literals)
    : Result<seq<ProductRecord>, ScrapeError>
  {
    match ReadPage(doc, globals, lits.directions)
    case Failure(e) => Failure(e)
    case Success(d) => Success(ProbeRecords(doc, d, Bullets.Bullets(doc, lits.texts), b, toText, lits.images))
  }

  /**
   * The reads of `scraper` before the probe, in the source's order; the
   * shared bullets array is created right after the two globals are read.
   */
  method ReadPageData(doc: Document, globals: Globals, lits: Literals)
    returns (r: Result<(PageData, StringList), ScrapeError>)
    ensures var e := ReadPage(doc, globals, lits.directions);
      r.Failure? == e.Failure? && (r.Failure? ==> r.error == e.error) &&
      (r.Success? ==> r.value.0 == e.value && fresh(r.value.1) && r.value.1.items == Bullets.Bullets(doc, lits.texts))
  {
    if globals.catalog.None? {
      return Failure(CatalogTimeout);
    }
    var catalog := globals.catalog.value;
    if globals.storefront.None? {
      return Failure(StorefrontTimeout);
    }
    var storefront := globals.storefront.value;
    var bulletItems := GetBullets(doc, lits.texts);
    var bullets := new StringList(bulletItems);
    var breadcrumbs := GetBreadcrumbs(doc.breadcrumbItems);
    var videos := GetVideos(doc.descriptionFrames);
    if doc.title.None? {
      return Failure(TitleMissing);
    }
    var title := doc.title.value.text;
    var sizes := GetSize(doc.detailParagraphs);
    var additionalSections := GetAdditionalSections(doc, catalog.productId, lits.directions);
    if additionalSections.None? {
      return Failure(MainContentMissing);
    }
    if doc.nonSalePrice.None? {
      return Failure(NonSalePriceMissing);
    }
    var d := PageData(catalog, storefront, title, HigherPrice(doc.nonSalePrice.value),
                      breadcrumbs, videos, sizes, additionalSections.value);
    r := Success((d, bullets));
  }

  /** The record of the single product: `generateProduct` under the catalog `ProductID`, with every thumbnail as its images. */
  function SingleRecord(doc: Document, d: PageData, bullets: seq<string>, toText: string -> string): ProductRecord
  {
    Prototype(d, bullets, toText, d.catalog.productId, "").(images := AllImages(doc.thumbnailLinks))
  }

  /** The product built when the probe throws: one product under the catalog `ProductID`, with every thumbnail. */
  method SingleProduct(doc: Document, d: PageData, bullets: StringList, toText: string -> string)
    returns (product: Product)
    modifies bullets
    ensures fresh(product) && product.bullets == bullets
    ensures product.Record() == SingleRecord(doc, d, old(bullets.items), toText)
  {
    product := GenerateProduct(d, bullets, toText, d.catalog.productId, "");
    var images := GetAllImages(doc.thumbnailLinks);
    product.images := images;
  }

  /** The products of the variant loop, when the probe found the select element: exactly those the loop's passes push. */
  method VariantProducts(doc: Document, d: PageData, bullets: StringList, b: Browser, toText: string -> string,
                         table: map<string, seq<string>>)
    returns (products: seq<Product>)
    modifies bullets
    ensures Matches(products, VariantRecords(Setting(d, old(bullets.items), toText, table), Variants(doc.variantOptions), b))
    ensures ShareBullets(products)
  {
    var variants := Variants(doc.variantOptions);
    ghost var setting := Setting(d, bullets.items, toText, table);
    products := ExpandVariants(d, bullets, toText, table, variants, b);
    PassesThroughIff(variants, b, |products|);
    PassCountSpec(variants, b, 0);
    FirstFailureUnique(variants, b, |products|, PassCount(variants, b, 0));
    PushedRecordsAt(setting, variants, b, |products|);
  }

  /** What follows the probe: the single product, none, or the products of the variant loop. */
  method ProbeProducts(doc: Document, d: PageData, bullets: StringList, b: Browser, toText: string -> string,
                       table: map<string, seq<string>>)
    returns (products: seq<Product>)
    modifies bullets
    ensures Matches(products, ProbeRecords(doc, d, old(bullets.items), b, toText, table))
    ensures ShareBullets(products)
  {
    match b.probe {
      case ProbeThrows =>
        var product := SingleProduct(doc, d, bullets, toText);
        products := [product];
      case ProbeNull =>
        products := [];
      case ProbeElement =>
        products := VariantProducts(doc, d, bullets, b, toText, table);
    }
  }

  /**
   * `scraper`: the reads, then the probe and what follows it.
   */
  method Scrape(doc: Document, globals: Globals, b: Browser, toText: string -> string, lits: Literals)
    returns (r: Result<seq<Product>, ScrapeError>)
    ensures var e := Expected(doc, globals, b, toText, lits);
      r.Failure? == e.Failure? && (r.Failure? ==> r.error == e.error) && (r.Success? ==> Matches(r.value, e.value))
    ensures r.Success? ==> ShareBullets(r.value)
  {
    var page := ReadPageData(doc, globals, lits);
    if page.Failure? {
      return Failure(page.error);
    }
    var products := ProbeProducts(doc, page.value.0, page.value.1, b, toText, lits.images);
    r := Success(products);
  }
}
