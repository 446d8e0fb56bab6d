# Cirque Colors product scraper, modelled in Dafny

`scraper.ts` scrapes one BigCommerce product page. Under its browser calls
is a small, deterministic pipeline, and this project models that pipeline:

- **Extractors.** Each one turns the elements matched by a selector into a
  list of strings: variants, breadcrumbs, videos, the zoom-image gallery,
  the size paragraphs and the bullets.
- **Description sections.** MAIN ("ABOUT"), ADJACENT ("NOTES") and DISTANT
  ("DIRECTIONS"), with the directions override table.
- **`generateProduct`.** It fills a fresh `Product` from the page data and
  the bullets array that every product of the page shares.
- **The controller.** A probe selects a path. On the variant path, one
  product is built per variant, and a throw ends the loop but keeps what
  was already pushed. Otherwise one product is built from the whole gallery.

The page is plain data (`Dom.Document`): for each selector the scraper
queries, the matching elements in document order. Each element has its
text, `innerHTML`, `outerHTML` and attributes. Some reads depend on which
variant option is selected: the slide image and the price. These are
oracles in `Scraper.Browser`, keyed by the current selection, and they may
fail the way a throwing `$eval` does. The probe is an oracle too, with
three outcomes: it throws, it returns `null`, or it returns an element.

The imperative parts keep the source's form:
- every `forEach` that pushes onto an array is a method with a loop,
  proved equal to a `FlatMap` specification;
- `Product` is a class whose fields `generateProduct` and the loop assign;
- the bullets array is a `StringList` object that all products hold by
  reference.

The whole run is `Scraper.Scrape`. It is proved to return the products
described by the function `Scraper.Expected`, or the read that made it
reject. The lemmas then state what those products are.

Modules:
- `Wrappers`: `Option` and `Result`.
- `JsString`: ECMAScript `trim`, `includes`, `indexOf` and string-pattern
  `replace`. Strings are sequences of code points rather than UTF-16 code
  units, and the `$` substitution patterns of `replace` are not modelled.
  Neither matters here: every pattern the scraper uses is a single-unit
  character string, and no replacement text contains `$`.
- `Dom`: the page and `FlatMap`.
- `OutputProduct`: sections and placements.
- `Overrides`: the two literal tables.
- `Extractors`, `Bullets`, `Sections`: the extractors.
- `Assembly`: `Product` and `generateProduct`.
- `Scraper`: the reads, the probe and the variant loop.

The literal data is passed to the operations as parameters:
- the image override table;
- the directions override table;
- the two ingredient texts of `getBullets`.

`getAdditionalSections` already receives `HARDCODED_DIRECTIONS` as an
argument in the source. The values the source defines are
`Overrides.HardcodedImages()`, `Overrides.HardcodedDirections()` and
`Bullets.SourceIngredientTexts()`, bundled as `Scraper.SourceLiterals()`.
What the literal tables hold is stated by the two `Overrides` lemmas.

## Model

| member | source | states |
|---|---|---|
| Overrides.HardcodedImagesKeys | scraper.ts:11-26 | the image table appends images exactly for the keys "435_Silver (Out of stock)", "435_Gold" and "443_Powder Pink Trio (Out of stock)", with 3, 4 and 1 URLs |
| Overrides.HardcodedDirectionsEntry | scraper.ts:28-33 | the directions table has a DISTANT text for ProductID "335" only, and that text is non-empty |
| Extractors.VariantsMembers | scraper.ts:39-55 | a variant is listed exactly when an option with a non-empty `value` gave it; its label is the option text; it is unavailable exactly when the option HTML contains "Out of stock" |
| Extractors.VariantsOrder | scraper.ts:39-55 | variants keep option order (the list over `a + b` is the list over `a` followed by the list over `b`); at most one variant per option |
| Sections.GetAdditionalSections | scraper.ts:65-124 | the pushes of `getAdditionalSections` give exactly the sections of `AdditionalSections`, or `None` where `mainContentHTML[0]` is undefined |
| Sections.SectionsFailIff | scraper.ts:72-90 | building the sections fails exactly when both the narrow and the broad selector match nothing |
| Sections.NarrowBeforeBroad | scraper.ts:72-84 | the broad selector's blocks are used only when the narrow selector matches nothing |
| Sections.DirectionsPrecedence | scraper.ts:100-117 | a non-empty trimmed DOM paragraph wins; otherwise a truthy table entry for the ProductID is used verbatim; there are no directions exactly when neither is truthy |
| Sections.SectionsOrder | scraper.ts:86-117 | sections are "ABOUT" from the first block, then "NOTES" from the second block when there is one, then "DIRECTIONS" last when it resolves |
| Sections.SectionsCounts | scraper.ts:86-117 | exactly one MAIN section, and it is the one the description is taken from; one ADJACENT exactly when there are at least 2 blocks; one DISTANT exactly when directions resolve, never more |
| Extractors.GetVideos | scraper.ts:134-151 | the loop pushes each truthy `src`, in frame order |
| Extractors.VideosMembers | scraper.ts:134-151 | a URL is listed exactly when some frame's `src` is that non-empty URL; frame order is kept; at most one per frame |
| Extractors.GetAllImages | scraper.ts:189-206 | inserting truthy zoom URLs into an insertion-ordered set and spreading it gives `AllImages` |
| Extractors.AllImagesSpec | scraper.ts:189-206 | the images are exactly the non-empty zoom URLs, each once, ordered by first occurrence among the thumbnails |
| Extractors.FirstOccurrencesMembers | scraper.ts:191-204 | spreading the set keeps exactly the elements that were added |
| Extractors.FirstOccurrencesOrdered | scraper.ts:191-204 | the spread set lists its elements in the order of their first insertion |
| Extractors.FirstOccurrencesDistinct | scraper.ts:191-204 | the spread set has no element twice |
| Extractors.GetBreadcrumbs | scraper.ts:208-221 | the loop pushes each item's trimmed text when it is non-empty, in item order |
| Extractors.BreadcrumbsClean | scraper.ts:208-221 | a crumb is listed exactly when some item's trimmed text is that non-empty string; every crumb is trimmed; crumbs keep item order (the list over `a + b` is the list over `a` followed by the list over `b`), at most one per item |
| Bullets.PushFeatureBullets | scraper.ts:226-234 | the first `forEach` pushes each check-marked h5 text, with its first check mark removed and then trimmed |
| Bullets.FeatureBulletsMembers | scraper.ts:226-234 | a feature bullet comes exactly from an h5 whose text contains the check mark, stripped and trimmed |
| Bullets.PushListBullets | scraper.ts:236-241 | the second `forEach` pushes each non-empty `li` text, untrimmed, in order |
| Bullets.PushIngredientBullets | scraper.ts:243-266 | the third `forEach` pushes, per paragraph, what `ParagraphBullets` gives: the two literal texts, then possibly the paragraph itself |
| Bullets.FullListParagraph | scraper.ts:256-265 | both rules fire for a "View full list" paragraph without `href`: the ingredients text, the may-contain text, then the paragraph text |
| Bullets.NoIngredientsParagraph | scraper.ts:255-265 | a paragraph without "Ingredients: " pushes nothing |
| Bullets.FindIndex | scraper.ts:267-269 | `find` returns the first label that contains the pattern, or none when no label does |
| Bullets.KindlyNoteSpec | scraper.ts:267-272 | when `find` returns a label mentioning "KINDLY NOTE", the bullet is exactly that label's text; there is no such bullet exactly when no label mentions it; never more than one |
| Bullets.GetBullets | scraper.ts:223-286 | the bullets are the feature bullets, then the list bullets, then the paragraph bullets, then the KINDLY NOTE bullet, with no deduplication |
| Extractors.PushSize | scraper.ts:293-299 | the callback pushes the rewritten text of a paragraph that mentions "Size:", and nothing for any other paragraph |
| Extractors.GetSize | scraper.ts:288-303 | the loop pushes one rewritten entry per "Size:" paragraph, in order |
| Extractors.SizesSnoc | scraper.ts:288-303 | no paragraphs give no sizes, and each further paragraph appends its rewritten text exactly when it mentions "Size:": one entry per "Size:" paragraph, in order |
| Extractors.SizesSpec | scraper.ts:288-303 | every entry is trimmed and at most one comes from each paragraph; none exactly when no paragraph mentions "Size:"; the first entry comes from the first paragraph that does |
| JsString.ReplaceFirstSpec | scraper.ts:296-297 | `replace` with a string pattern splices the replacement at the first occurrence only, and leaves a string without the pattern alone |
| JsString.IndexOfSpec | scraper.ts:230 | `includes`/`indexOf` find the first position where the pattern occurs, and -1 means it occurs nowhere |
| JsString.DeleteFirstChar | scraper.ts:323-326 | `replace` of a one-character pattern by "" deletes the first occurrence of that character, and leaves a string without it alone |
| JsString.TrimTrimmed | scraper.ts:296-297 | `trim` is idempotent: a string that is already trimmed is left unchanged |
| JsString.TrimWindow | scraper.ts:214 | `trim` keeps the window from the first non-whitespace character and drops only whitespace on both sides |
| Scraper.ReadPage | scraper.ts:308-326 | the reads before the probe succeed exactly when both globals, the title, a content block and the non-sale price are present; each error is reported exactly when its read is the first that throws; the page data holds the globals, the title text, `getHigherPrice`, the extractors' results and the sections |
| Scraper.HigherPriceSpec | scraper.ts:323-326 | `getHigherPrice` is the trimmed non-sale price text with its first "$" deleted, or the trimmed text itself when it has no "$" |
| Scraper.ReadPageData | scraper.ts:311-326 | the reads, in source order, agree with `ReadPage`; the bullets array is fresh and holds `getBullets`'s list |
| Assembly.StringList.Push | scraper.ts:352 | `push` appends one string to the shared array |
| Assembly.Product.constructor | scraper.ts:329 | `new Product(id, "title", "url")` sets those three fields and leaves every other field empty |
| Assembly.NewProduct | scraper.ts:329-339 | the product's id is `ProductID_variant` for a non-empty label and the id argument otherwise; title, url, price, non-sale price, availability, brand, currency and breadcrumbs come from the page |
| Assembly.ComposeIdInjective | scraper.ts:331 | different non-empty labels of one product give different ids |
| Assembly.ComposeIdParts | scraper.ts:331 | a variant id is the ProductID, "_", then the label |
| OutputProduct.FindMain | scraper.ts:341-343 | `find` returns a MAIN section of the list, and returns none only when the list has no MAIN section |
| Assembly.GenerateProduct | scraper.ts:328-361 | the product holds the shared array; the description is pushed onto it only when it was empty; the record is the prototype for the page, id and label |
| Assembly.FilledBulletsStable | scraper.ts:351-353 | after one `generateProduct` the shared bullets are non-empty, and later calls leave them as they are |
| Assembly.PrototypeAfterFill | scraper.ts:341-358 | a product's record does not depend on whether an earlier product already filled the shared bullets |
| Scraper.StepSelection | scraper.ts:377-383 | an available variant becomes the selection; an unavailable one leaves the previous selection |
| Scraper.SelectionBeforePrefix | scraper.ts:373-383 | the option selected when a pass starts depends only on the variants before it |
| Scraper.PassesThroughIff | scraper.ts:373-405 | the first `n` passes get through exactly when each of them does |
| Scraper.PushedRecordsAt | scraper.ts:373-405 | each pass that gets through pushes exactly one product, built from that pass |
| Scraper.PassCountSpec | scraper.ts:370-408 | the loop stops at the first pass that throws, or at the end of the variants |
| Scraper.FirstFailureUnique | scraper.ts:370-408 | the number of passes before the first throw is determined by the steps alone |
| Scraper.VariantRecordsSpec | scraper.ts:370-408 | the products are those of the passes in variant order, up to the first throw; there is one per variant exactly when no pass throws |
| Scraper.AbortKeepsPrefix | scraper.ts:370-408 | when pass `n` throws, exactly the `n` products already pushed are kept, the same ones the first `n` variants give on their own |
| Scraper.PassRecordShape | scraper.ts:373-402 | a pass's product has color = label and id = `ProductID_label`; its images are `[slide]` for an available variant, else none, followed by the override images for that id; its price is the one shown under the pass's selection; availability and bullets come from the page |
| Scraper.CompleteVariant | scraper.ts:377-402 | after the color: the slide image, the price and the override images are written, and the pass reports whether a read threw |
| Scraper.VariantProduct | scraper.ts:374-402 | one loop body builds the product that `PassRecord` describes, and fails exactly when its step throws |
| Scraper.ExpandVariants | scraper.ts:370-408 | the loop's products are those of the passes before the first throw, all holding the shared bullets, which are filled when there was at least one variant |
| Scraper.VariantProducts | scraper.ts:369-408 | the variant path returns exactly the products `VariantRecords` describes |
| Scraper.SingleProduct | scraper.ts:411-413 | the single path builds the product under the catalog ProductID, with the whole gallery as images |
| Scraper.SinglePath | scraper.ts:410-414 | when the probe throws, there is exactly one product, with the catalog ProductID, no color, the gallery images and the catalog price |
| Scraper.NullProbe | scraper.ts:363-369 | when the probe returns `null` without throwing, no product is built |
| Scraper.ProbeProducts | scraper.ts:363-414 | what follows the probe returns exactly the products `ProbeRecords` describes, all sharing one bullets array |
| Scraper.ProductSize | scraper.ts:357 | `product.size` is the rewritten text of the first "Size:" paragraph, and undefined exactly when no paragraph mentions "Size:" |
| Scraper.Scrape | scraper.ts:305-421 | `scraper` rejects exactly as `Expected` does; otherwise it returns products whose records are `Expected`'s, all sharing one bullets array |

## Left out

- The puppeteer plumbing is not modelled:
  - `page.goto`;
  - `waitForFunction` on `window.item` and `window.BCData`, whose timeouts become `CatalogTimeout` and `StorefrontTimeout`;
  - `waitForSelector`, `page.select` and the 500 ms wait;
  - the screenshot.
- `$eval` and `evaluate` become data (`Document`) or the failable oracles in `Browser`.
- `waitForSelector` and `page.select` on the variant drop-down are assumed not to throw. Only the slide read and the price read fail.
- `parseFloat` is floating point. `realPrice` and `higherPrice` hold the text handed to `parseFloat`.
- `parseHtmlTextContent` comes from a module that is not part of this model. It is the parameter `toText`.
- The `Product` class is not part of this model. Its constructor is assumed to set `id`, `title` and `url` and to leave every other field empty; in particular `images` starts as `[]`.
- `getImages` and its gift-box list (scraper.ts:153-187) are not modelled: its only call is commented out.
- The "NEW & IMPROVED PACKAGING" check in `getBullets` (scraper.ts:274-282) is not modelled: its body is empty.
- `console.error` in the variant loop's `catch` is not modelled.
- The globals are modelled as the few fields read: `ProductID`, `URL` and `Price` from `window.item`, and `purchasable` and the currency from `window.BCData`. A global with a missing nested field is not modelled.
- Scraper.Scrape: does not state that the products are pairwise distinct objects. Each is fresh when it is built, but the model proves only that their records match and that they share one bullets array.

Behaviour of `scraper.ts` worth knowing:
- **The non-sale price.** A missing non-sale price element makes `$eval` throw before `|| ""` applies, so the whole scrape rejects (`NonSalePriceMissing`). It does not yield an empty price.
- **The title.** A missing title also rejects (`TitleMissing`).
- **Zero content blocks.** When neither section selector matches, `mainContentHTML[0].outerHTML` throws and the scrape rejects (`MainContentMissing`).
- **A probe that returns `null`.** When the probe returns `null` without throwing, neither path runs and no product is returned (`Scraper.NullProbe`).
- **The size text.** Only the first "Size:" and the first " and" (with its leading space) are replaced.
- **The number of variant products.** It equals the number of variants only when no read throws (`Scraper.VariantRecordsSpec`). The colors are distinct only when the labels are.
- **An empty variant label.** It gives the id `""`, the default of `generateProduct`'s `id` argument.
- **Availability.** A variant product's `availability` is the storefront's `purchasable`, not the variant's own availability.
- **The price of an unavailable variant.** It is read while the previous selection is still shown.
