/**
 * `getBullets`: feature bullets gathered from four places on the page, in a
 * fixed order and without deduplication.
 */
module Bullets {
  import opened Wrappers
  import opened JsString
  import opened Dom

  const CheckMark: string := "\U{2714}"

  /**
   * The two texts pushed, in this order, for a paragraph that offers
   * "Ingredients: View full list": the ingredient list and the "may
   * contain" list.
   */
  datatype IngredientTexts = IngredientTexts(ingredients: string, mayContain: string)

  /** The two literal texts `getBullets` pushes, as they are after `.trim()`. */
  function SourceIngredientTexts(): IngredientTexts
  {
    IngredientTexts(
      "Butyl Acetate, Ethyl Acetate, Nitrocellulose, Adipic Acid / Neopentyl Glycol / Trimellitic Anhydride Copolymer, \n" +
      "        Acetyl Tributyl Citrate, Isopropyl Alcohol, Acrylates Copolymer,\n" +
      "        Stearalkonium Bentonite, N-Butyl Alcohol, Styrene / Acrylates Copolymer, \n" +
      "        Benzophenone-1, Silica, Alumina, Trimethylpentanediyl Dibenzoate",
      "Aluminum Powder (CI 77000), Bismuth Oxychloride (CI 77163), Ferric Ferrocyanide (CI 77510), \n" +
      "        Iron Oxides (CI 77489, CI 77491, CI 77492, CI 77499), Mica (CI 77019), Polyethylene Terephthalate, Red 6 (CI 15850), Red 7 (CI 15850), \n" +
      "        Red 30 (CI 73360), Red 34 (CI 15880), Tin Oxide (CI 77861), \n" +
      "        Titanium Dioxide (CI 77891), Ultramarines (CI 77007), Violet 2 (CI 60725), Yellow 5 (CI 19140), Yellow 10 (CI 47005)")
  }

  /** The text without its first check mark, trimmed. */
  function StripCheckMark(text: string): string
  {
    Trim(ReplaceFirst(text, CheckMark, ""))
  }

  /** An h5 whose text has a check mark contributes that text without its first check mark, trimmed. */
  function FeatureBullet(heading: Element): seq<string>
  {
    var notReadyText := heading.text;
    if Contains(notReadyText, "") && Contains(notReadyText, CheckMark)
    then [StripCheckMark(notReadyText)]
    else []
  }

  /** A list item contributes its text, untrimmed, when it is non-empty. */
  function ListBullet(item: Element): seq<string>
  {
    if item.text != "" then [item.text] else []
  }

  /**
   * A paragraph contributes the two literal ingredient blocks when it offers
   * the full list, and then its own text when it states ingredients and has
   * no `href`; both rules can fire for one paragraph.
   */
  function ParagraphBullets(texts: IngredientTexts, paragraph: Element): seq<string>
  {
    var hasIngredients := paragraph.text;
    (if Contains(hasIngredients, "Ingredients: View full list") then [texts.ingredients, texts.mayContain] else []) +
    (if Contains(hasIngredients, "Ingredients: ") && !Truthy(Attribute(paragraph, "href")) then [hasIngredients] else [])
  }

  /** The paragraph rule with its texts fixed, as the `forEach` callback. */
  function ParagraphRule(texts: IngredientTexts): Element -> seq<string>
  {
    paragraph => ParagraphBullets(texts, paragraph)
  }

  /** `Array.from(elems).find(e => e.textContent.includes(pat))`, as an index. */
  function FindIndex(elems: seq<Element>, pat: string): (r: Option<nat>)
    ensures r.Some? ==> r.value < |elems| && Contains(elems[r.value].text, pat)
    ensures r.Some? ==> forall j :: 0 <= j < r.value ==> !Contains(elems[j].text, pat)
    ensures r.None? ==> forall e :: e in elems ==> !Contains(e.text, pat)
  {
    if elems == [] then None
    else if Contains(elems[0].text, pat) then Some(0)
    else match FindIndex(elems[1..], pat)
      case None => None
      case Some(k) => Some(k + 1)
  }

  /** The text of the first info label that mentions "KINDLY NOTE", when it is non-empty. */
  function KindlyNote(names: seq<Element>): seq<string>
  {
    match FindIndex(names, "KINDLY NOTE")
    case Some(k) => if names[k].text != "" then [names[k].text] else []
    case None => []
  }

  /** Everything `getBullets` returns, in push order. */
  function Bullets(doc: Document, texts: IngredientTexts): seq<string>
  {
    FlatMap(doc.featureHeadings, FeatureBullet) +
    FlatMap(doc.detailListItems, ListBullet) +
    FlatMap(doc.detailParagraphs, ParagraphRule(texts)) +
    KindlyNote(doc.infoNames)
  }

  /** The first `forEach` of `getBullets`: check-marked h5 headings. */
  method PushFeatureBullets(headings: seq<Element>) returns (bullets: seq<string>)
    ensures bullets == FlatMap(headings, FeatureBullet)
  {
    bullets := [];
    for i := 0 to |headings|
      invariant bullets == FlatMap(headings[..i], FeatureBullet)
    {
      assert headings[..i + 1] == headings[..i] + [headings[i]];
      FlatMapSnoc(headings[..i], headings[i], FeatureBullet);
      ghost var before := bullets;
      var notReadyText := headings[i].text;
      if Contains(notReadyText, "") && Contains(notReadyText, CheckMark) {
        var text := StripCheckMark(notReadyText);
        bullets := bullets + [text];
      }
      assert bullets == before + FeatureBullet(headings[i]);
    }
    assert headings[..|headings|] == headings;
  }

  /** The second `forEach`: list items with text. */
  method PushListBullets(items: seq<Element>) returns (bullets: seq<string>)
    ensures bullets == FlatMap(items, ListBullet)
  {
    bullets := [];
    for i := 0 to |items|
      invariant bullets == FlatMap(items[..i], ListBullet)
    {
      assert items[..i + 1] == items[..i] + [items[i]];
      FlatMapSnoc(items[..i], items[i], ListBullet);
      var text := items[i].text;
      if text != "" {
        bullets := bullets + [text];
      }
    }
    assert items[..|items|] == items;
  }

  /** The third `forEach`: ingredient paragraphs. */
  method PushIngredientBullets(paragraphs: seq<Element>, texts: IngredientTexts) returns (bullets: seq<string>)
    ensures bullets == FlatMap(paragraphs, ParagraphRule(texts))
  {
    bullets := [];
    for i := 0 to |paragraphs|
      invariant bullets == FlatMap(paragraphs[..i], ParagraphRule(texts))
    {
      assert paragraphs[..i + 1] == paragraphs[..i] + [paragraphs[i]];
      FlatMapSnoc(paragraphs[..i], paragraphs[i], ParagraphRule(texts));
      ghost var before := bullets;
      var hasIngredients := paragraphs[i].text;
      if Contains(hasIngredients, "Ingredients: View full list") {
        bullets := bullets + [texts.ingredients];
        bullets := bullets + [texts.mayContain];
      }
      if Contains(hasIngredients, "Ingredients: ") && !Truthy(Attribute(paragraphs[i], "href")) {
        bullets := bullets + [hasIngredients];
      }
      assert bullets == before + ParagraphBullets(texts, paragraphs[i]);
    }
    assert paragraphs[..|paragraphs|] == paragraphs;
  }

  /** `getBullets`: the three `forEach` passes, then the "KINDLY NOTE" label. */
  method GetBullets(doc: Document, texts: IngredientTexts) returns (bullets: seq<string>)
    ensures bullets == Bullets(doc, texts)
  {
    var fromHeadings := PushFeatureBullets(doc.featureHeadings);
    var fromItems := PushListBullets(doc.detailListItems);
    var fromParagraphs := PushIngredientBullets(doc.detailParagraphs, texts);
    bullets := fromHeadings + fromItems + fromParagraphs;
    var kindlyNote := FindIndex(doc.infoNames, "KINDLY NOTE");
    if kindlyNote.Some? && doc.infoNames[kindlyNote.value].text != "" {
      bullets := bullets + [doc.infoNames[kindlyNote.value].text];
    }
  }

  /** A feature bullet comes from an h5 holding a check mark: its text minus the first check mark, trimmed. */
  lemma FeatureBulletsMembers(headings: seq<Element>, b: string)
    ensures b in FlatMap(headings, FeatureBullet) <==>
      exists h :: h in headings && Contains(h.text, CheckMark) && b == StripCheckMark(h.text)
  {
    FlatMapMember(headings, FeatureBullet, b);
    forall h | h in headings ensures Contains(h.text, "") { ContainsEmpty(h.text); }
  }

  /** A paragraph that offers the full list and has no `href` fires both rules: two literal blocks, then its own text. */
  lemma FullListParagraph(texts: IngredientTexts, paragraph: Element)
    requires Contains(paragraph.text, "Ingredients: View full list")
    requires !Truthy(Attribute(paragraph, "href"))
    ensures ParagraphBullets(texts, paragraph) == [texts.ingredients, texts.mayContain, paragraph.text]
  {
    assert "Ingredients: View full list" == "Ingredients: " + "View full list";
    ContainsPrefixOf(paragraph.text, "Ingredients: ", "View full list");
  }

  /** A paragraph without "Ingredients: " contributes nothing. */
  lemma NoIngredientsParagraph(texts: IngredientTexts, paragraph: Element)
    requires !Contains(paragraph.text, "Ingredients: ")
    ensures ParagraphBullets(texts, paragraph) == []
  {
    if Contains(paragraph.text, "Ingredients: View full list") {
      assert "Ingredients: View full list" == "Ingredients: " + "View full list";
      ContainsPrefixOf(paragraph.text, "Ingredients: ", "View full list");
    }
  }

  /**
   * The "KINDLY NOTE" bullet is the text of the first label that mentions
   * it, and there is none exactly when no label does: a label that includes
   * the phrase is never empty, so the truthiness test always passes.
   */
  lemma KindlyNoteSpec(names: seq<Element>)
    ensures |KindlyNote(names)| <= 1
    ensures forall k :: FindIndex(names, "KINDLY NOTE") == Some(k) ==> KindlyNote(names) == [names[k].text]
    ensures KindlyNote(names) != [] ==>
      exists k :: 0 <= k < |names| && KindlyNote(names) == [names[k].text] &&
                  Contains(names[k].text, "KINDLY NOTE") &&
                  forall j :: 0 <= j < k ==> !Contains(names[j].text, "KINDLY NOTE")
    ensures KindlyNote(names) == [] <==> forall e :: e in names ==> !Contains(e.text, "KINDLY NOTE")
  {
    match FindIndex(names, "KINDLY NOTE")
    case None =>
    case Some(k) =>
      assert names[k] in names;
      assert !MatchAt("", "KINDLY NOTE", 0);
  }

}
