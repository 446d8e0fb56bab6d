/**
 * `getAdditionalSections`: the MAIN ("ABOUT"), ADJACENT ("NOTES") and
 * DISTANT ("DIRECTIONS") description sections of a product.
 */
module Sections {
  import opened Wrappers
  import opened JsString
  import opened Dom
  import opened OutputProduct
  import opened Overrides

  /** The content blocks: the narrow selector's matches, or the broad selector's when there are none. */
  function ContentBlocks(doc: Document): seq<Element>
  {
    if |doc.narrowInfoValues| == 0 then doc.broadInfoValues else doc.narrowInfoValues
  }

  /** `querySelector(...)?.outerHTML.trim()` for the directions paragraph: `None` for `undefined`. */
  function DomDirections(doc: Document): Option<string>
  {
    match doc.directionsParagraph
    case Some(p) => Some(Trim(p.outerHtml))
    case None => None
  }

  /**
   * The DISTANT text that gets pushed: the page's paragraph when truthy,
   * else the entry of the directions table (`HARDCODED_DIRECTIONS`) for the
   * product when truthy.
   */
  function Directions(doc: Document, productId: string, table: map<string, map<Placement, string>>): Option<string>
  {
    var distant := DomDirections(doc);
    var override := DirectionsEntry(table, productId);
    var distant := if !Truthy(distant) && override.Some? then override else distant;
    if Truthy(distant) then distant else None
  }

  /** The DISTANT section, when the directions resolve. */
  function DirectionsSection(doc: Document, productId: string, table: map<string, map<Placement, string>>): seq<Section>
  {
    var directions := Directions(doc, productId, table);
    if directions.Some? then [Section("DIRECTIONS", directions.value, Distant)] else []
  }

  /**
   * The sections `getAdditionalSections` returns; `None` when there is no
   * content block, where reading `mainContentHTML[0].outerHTML` throws.
   */
  function AdditionalSections(doc: Document, productId: string, table: map<string, map<Placement, string>>): Option<seq<Section>>
  {
    var blocks := ContentBlocks(doc);
    if blocks == [] then None
    else
      var main := [Section("ABOUT", Trim(blocks[0].outerHtml), Main)];
      var adjacent := if |blocks| > 1 then [Section("NOTES", Trim(blocks[1].outerHtml), Adjacent)] else [];
      Some(main + adjacent + DirectionsSection(doc, productId, table))
  }

  /** `getAdditionalSections`. */
  method GetAdditionalSections(doc: Document, productId: string, table: map<string, map<Placement, string>>)
    returns (r: Option<seq<Section>>)
    ensures r == AdditionalSections(doc, productId, table)
  {
    var additionalSections: seq<Section> := [];
    var mainContentHtml := doc.narrowInfoValues;
    if |mainContentHtml| == 0 {
      mainContentHtml := doc.broadInfoValues;
    }
    assert mainContentHtml == ContentBlocks(doc);
    if |mainContentHtml| == 0 {
      return None;
    }
    additionalSections := additionalSections + [Section("ABOUT", Trim(mainContentHtml[0].outerHtml), Main)];
    if |mainContentHtml| > 1 {
      additionalSections := additionalSections + [Section("NOTES", Trim(mainContentHtml[1].outerHtml), Adjacent)];
    }
    var distantDescription := DomDirections(doc);
    if !Truthy(distantDescription) {
      var hardcodedValue := DirectionsEntry(table, productId);
      if hardcodedValue.Some? {
        distantDescription := hardcodedValue;
      }
    }
    assert (if Truthy(distantDescription) then distantDescription else None) == Directions(doc, productId, table);
    ghost var before := additionalSections;
    assert before == [Section("ABOUT", Trim(mainContentHtml[0].outerHtml), Main)] +
      (if |mainContentHtml| > 1 then [Section("NOTES", Trim(mainContentHtml[1].outerHtml), Adjacent)] else []);
    if Truthy(distantDescription) {
      additionalSections := additionalSections + [Section("DIRECTIONS", distantDescription.value, Distant)];
    }
    assert additionalSections == before + DirectionsSection(doc, productId, table);
    return Some(additionalSections);
  }

  /** Sections fail to build exactly when neither selector matches anything. */
  lemma SectionsFailIff(doc: Document, productId: string, table: map<string, map<Placement, string>>)
    ensures AdditionalSections(doc, productId, table).None? <==> doc.narrowInfoValues == [] && doc.broadInfoValues == []
  {
  }

  /** The broad selector is consulted only when the narrow one yields nothing. */
  lemma NarrowBeforeBroad(doc: Document)
    ensures doc.narrowInfoValues != [] ==> ContentBlocks(doc) == doc.narrowInfoValues
    ensures doc.narrowInfoValues == [] ==> ContentBlocks(doc) == doc.broadInfoValues
  {
  }

  /**
   * The DOM paragraph wins when its trimmed HTML is non-empty; otherwise the
   * override text for the product is used verbatim; otherwise there is none.
   */
  lemma DirectionsPrecedence(doc: Document, productId: string, table: map<string, map<Placement, string>>)
    ensures Truthy(DomDirections(doc)) ==> Directions(doc, productId, table) == Some(Trim(doc.directionsParagraph.value.outerHtml))
    ensures !Truthy(DomDirections(doc)) && Truthy(DirectionsEntry(table, productId)) ==>
      Directions(doc, productId, table) == DirectionsEntry(table, productId)
    ensures Directions(doc, productId, table).None? <==> !Truthy(DomDirections(doc)) && !Truthy(DirectionsEntry(table, productId))
  {
  }

  /** The sections in push order: "ABOUT" from the first block, "NOTES" from the second when there is one, then "DIRECTIONS". */
  lemma SectionsOrder(doc: Document, productId: string, table: map<string, map<Placement, string>>)
    requires AdditionalSections(doc, productId, table).Some?
    ensures var s, blocks := AdditionalSections(doc, productId, table).value, ContentBlocks(doc);
      var dir := Directions(doc, productId, table);
      |blocks| > 0 &&
      |s| == 1 + (if |blocks| >= 2 then 1 else 0) + (if dir.Some? then 1 else 0) &&
      s[0] == Section("ABOUT", Trim(blocks[0].outerHtml), Main) &&
      (|blocks| >= 2 ==> s[1] == Section("NOTES", Trim(blocks[1].outerHtml), Adjacent)) &&
      (dir.Some? ==> s[|s| - 1] == Section("DIRECTIONS", dir.value, Distant))
  {
  }

  /**
   * Exactly one MAIN section, and it is the one the product description is
   * taken from; one ADJACENT section exactly when there are two or more
   * blocks; one DISTANT section exactly when the directions resolve.
   */
  lemma SectionsCounts(doc: Document, productId: string, table: map<string, map<Placement, string>>)
    requires AdditionalSections(doc, productId, table).Some?
    ensures var s, blocks := AdditionalSections(doc, productId, table).value, ContentBlocks(doc);
      FindMain(s) == Some(s[0]) &&
      CountPlacement(s, Main) == 1 &&
      CountPlacement(s, Adjacent) == (if |blocks| >= 2 then 1 else 0) &&
      CountPlacement(s, Distant) == (if Directions(doc, productId, table).Some? then 1 else 0)
  {
    var s, blocks := AdditionalSections(doc, productId, table).value, ContentBlocks(doc);
    var main := [Section("ABOUT", Trim(blocks[0].outerHtml), Main)];
    var adjacent := if |blocks| > 1 then [Section("NOTES", Trim(blocks[1].outerHtml), Adjacent)] else [];
    var distant := DirectionsSection(doc, productId, table);
    assert s == main + adjacent + distant;
    forall p ensures CountPlacement(s, p) == CountPlacement(main, p) + CountPlacement(adjacent, p) + CountPlacement(distant, p) {
      CountPlacementAppend(main + adjacent, distant, p);
      CountPlacementAppend(main, adjacent, p);
    }
  }
}
