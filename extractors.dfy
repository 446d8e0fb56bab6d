/**
 * The list extractors of the product page: variants, breadcrumbs, videos,
 * the zoom-image gallery and the size paragraphs. Each one that fills an
 * array with `push` inside a `forEach` is a method with a loop, proved equal
 * to a `FlatMap` over the matching elements.
 */
module Extractors {
  import opened Wrappers
  import opened JsString
  import opened Dom

  /** One selectable option of the variant drop-down. */
  datatype Variant = Variant(variant: string, availability: bool, value: string)

  // ---------------------------------------------------------------- variants

  /** What one `<option>` contributes to the variant list: a variant when its `value` attribute is truthy. */
  function OptionVariant(option: Element): seq<Variant>
  {
    var value := Attribute(option, "value");
    if Truthy(value)
    then [Variant(option.text, !Contains(option.innerHtml, "Out of stock"), value.value)]
    else []
  }

  /** `getVariants`: the options mapped to variants, the `null`s filtered out. */
  function Variants(options: seq<Element>): seq<Variant>
  {
    FlatMap(options, OptionVariant)
  }

  /**
   * A variant is listed exactly when an option with a non-empty `value`
   * produced it; its label is that option's text and it is unavailable
   * exactly when the option's HTML says "Out of stock".
   */
  lemma VariantsMembers(options: seq<Element>, v: Variant)
    ensures v in Variants(options) <==>
      exists o :: o in options && Attribute(o, "value") == Some(v.value) && v.value != "" &&
                  v.variant == o.text && (v.availability <==> !Contains(o.innerHtml, "Out of stock"))
  {
    FlatMapMember(options, OptionVariant, v);
  }

  /** Options are visited in document order and at most one variant comes from each. */
  lemma VariantsOrder(a: seq<Element>, b: seq<Element>)
    ensures Variants(a + b) == Variants(a) + Variants(b)
    ensures |Variants(a)| <= |a|
  {
    FlatMapAppend(a, b, OptionVariant);
    FlatMapAtMostOne(a, OptionVariant);
  }

  // ------------------------------------------------------------- breadcrumbs

  /** A breadcrumb item contributes its trimmed text, unless that is empty. */
  function CrumbOf(item: Element): seq<string>
  {
    var text := Trim(item.text);
    if text != "" then [text] else []
  }

  function Breadcrumbs(items: seq<Element>): seq<string>
  {
    FlatMap(items, CrumbOf)
  }

  /** `getBreadcrumbs`. */
  method GetBreadcrumbs(items: seq<Element>) returns (crumbs: seq<string>)
    ensures crumbs == Breadcrumbs(items)
  {
    crumbs := [];
    for i := 0 to |items|
      invariant crumbs == Breadcrumbs(items[..i])
    {
      assert items[..i + 1] == items[..i] + [items[i]];
      FlatMapSnoc(items[..i], items[i], CrumbOf);
      var text := Trim(items[i].text);
      assert CrumbOf(items[i]) == if text != "" then [text] else [];
      if text != "" {
        crumbs := crumbs + [text];
      }
    }
    assert items[..|items|] == items;
  }

  /**
   * Breadcrumbs are non-empty and trimmed, every item whose trimmed text is
   * non-empty gives one, and they keep item order.
   */
  lemma BreadcrumbsClean(items: seq<Element>, rest: seq<Element>, c: string)
    ensures c in Breadcrumbs(items) <==> exists li :: li in items && c == Trim(li.text) && c != ""
    ensures c in Breadcrumbs(items) ==> c != "" && IsTrimmed(c)
    ensures Breadcrumbs(items + rest) == Breadcrumbs(items) + Breadcrumbs(rest)
    ensures |Breadcrumbs(items)| <= |items|
  {
    FlatMapMember(items, CrumbOf, c);
    FlatMapAppend(items, rest, CrumbOf);
    FlatMapAtMostOne(items, CrumbOf);
  }

  // ------------------------------------------------------------------ videos

  /** An embedded frame contributes its `src` when that is truthy. */
  function VideoOf(frame: Element): seq<string>
  {
    var src := Attribute(frame, "src");
    if Truthy(src) then [src.value] else []
  }

  function Videos(frames: seq<Element>): seq<string>
  {
    FlatMap(frames, VideoOf)
  }

  /** `getVideos`. */
  method GetVideos(frames: seq<Element>) returns (videos: seq<string>)
    ensures videos == Videos(frames)
  {
    videos := [];
    for i := 0 to |frames|
      invariant videos == Videos(frames[..i])
    {
      assert frames[..i + 1] == frames[..i] + [frames[i]];
      FlatMapSnoc(frames[..i], frames[i], VideoOf);
      var videoUrl := Attribute(frames[i], "src");
      if Truthy(videoUrl) {
        videos := videos + [videoUrl.value];
      }
    }
    assert frames[..|frames|] == frames;
  }

  /** Videos are exactly the non-empty `src` values, at most one per frame, in frame order. */
  lemma VideosMembers(frames: seq<Element>, rest: seq<Element>, url: string)
    ensures url in Videos(frames) <==> exists f :: f in frames && Attribute(f, "src") == Some(url) && url != ""
    ensures Videos(frames + rest) == Videos(frames) + Videos(rest)
    ensures |Videos(frames)| <= |frames|
  {
    FlatMapMember(frames, VideoOf, url);
    FlatMapAppend(frames, rest, VideoOf);
    FlatMapAtMostOne(frames, VideoOf);
  }

  // ------------------------------------------------------------------ images

  /** A thumbnail contributes its zoom-image URL when that is truthy. */
  function ZoomUrlOf(link: Element): seq<string>
  {
    var url := Attribute(link, "data-image-gallery-zoom-image-url");
    if Truthy(url) then [url.value] else []
  }

  /** The distinct elements of `xs`, each where it first occurs: what spreading an insertion-ordered `Set` yields. */
  function FirstOccurrences(xs: seq<string>): seq<string>
  {
    if xs == [] then []
    else
      var prefix := FirstOccurrences(xs[..|xs| - 1]);
      if xs[|xs| - 1] in xs[..|xs| - 1] then prefix else prefix + [xs[|xs| - 1]]
  }

  /** Position of the first occurrence of `x` in `xs`. */
  function FirstIndex(xs: seq<string>, x: string): (i: nat)
    requires x in xs
    ensures i < |xs| && xs[i] == x && x !in xs[..i]
  {
    if xs[0] == x then 0 else 1 + FirstIndex(xs[1..], x)
  }

  lemma {:induction false} FirstIndexSnoc(xs: seq<string>, y: string, x: string)
    requires x in xs + [y]
    ensures x in xs ==> FirstIndex(xs + [y], x) == FirstIndex(xs, x)
    ensures x !in xs ==> FirstIndex(xs + [y], x) == |xs|
  {
    if xs != [] && xs[0] != x {
      assert (xs + [y])[1..] == xs[1..] + [y];
      FirstIndexSnoc(xs[1..], y, x);
    }
  }

  /** The same elements as `xs`. */
  lemma {:induction false} FirstOccurrencesMembers(xs: seq<string>)
    ensures forall x :: x in FirstOccurrences(xs) <==> x in xs
  {
    if xs != [] {
      var init := xs[..|xs| - 1];
      FirstOccurrencesMembers(init);
      assert xs == init + [xs[|xs| - 1]];
    }
  }

  /** Each element once, ordered by where it first occurs in `xs`. */
  lemma {:induction false} FirstOccurrencesOrdered(xs: seq<string>)
    ensures var r := FirstOccurrences(xs);
      (forall x :: x in r ==> x in xs) &&
      forall i, j :: 0 <= i < j < |r| ==> FirstIndex(xs, r[i]) < FirstIndex(xs, r[j])
  {
    FirstOccurrencesMembers(xs);
    if xs != [] {
      var init, last := xs[..|xs| - 1], xs[|xs| - 1];
      assert xs == init + [last];
      FirstOccurrencesOrdered(init);
      FirstOccurrencesMembers(init);
      var p, r := FirstOccurrences(init), FirstOccurrences(xs);
      forall i | 0 <= i < |p| ensures FirstIndex(xs, p[i]) == FirstIndex(init, p[i]) < |init| {
        FirstIndexSnoc(init, last, p[i]);
      }
      if last in init {
        assert r == p;
      } else {
        assert r == p + [last];
        FirstIndexSnoc(init, last, last);
        forall i, j | 0 <= i < j < |r| ensures FirstIndex(xs, r[i]) < FirstIndex(xs, r[j]) {
          if j < |p| {
            assert r[i] == p[i] && r[j] == p[j];
          } else {
            assert r[i] == p[i] && r[j] == last;
          }
        }
      }
    }
  }

  /** No URL appears twice. */
  lemma FirstOccurrencesDistinct(xs: seq<string>)
    ensures var r := FirstOccurrences(xs);
      forall i, j :: 0 <= i < j < |r| ==> r[i] != r[j]
  {
    FirstOccurrencesOrdered(xs);
  }

  function AllImages(links: seq<Element>): seq<string>
  {
    FirstOccurrences(FlatMap(links, ZoomUrlOf))
  }

  /** `getAllImages`: zoom URLs added to an insertion-ordered set, then spread. */
  method GetAllImages(links: seq<Element>) returns (images: seq<string>)
    ensures images == AllImages(links)
  {
    var seen: set<string> := {};
    images := [];
    for i := 0 to |links|
      invariant images == AllImages(links[..i])
      invariant seen == set x | x in FlatMap(links[..i], ZoomUrlOf)
    {
      ghost var before := FlatMap(links[..i], ZoomUrlOf);
      assert links[..i + 1] == links[..i] + [links[i]];
      FlatMapSnoc(links[..i], links[i], ZoomUrlOf);
      var imageUrl := Attribute(links[i], "data-image-gallery-zoom-image-url");
      if Truthy(imageUrl) {
        var after := before + [imageUrl.value];
        assert after[..|after| - 1] == before;
        if imageUrl.value !in seen {
          images := images + [imageUrl.value];
        }
        seen := seen + {imageUrl.value};
      } else {
        assert before + [] == before;
      }
    }
    assert links[..|links|] == links;
  }

  /**
   * The images are the non-empty zoom URLs of the thumbnails, each once,
   * ordered by where each first occurs among the thumbnails.
   */
  lemma AllImagesSpec(links: seq<Element>, url: string)
    ensures url in AllImages(links) <==>
      exists l :: l in links && Attribute(l, "data-image-gallery-zoom-image-url") == Some(url) && url != ""
    ensures var r, urls := AllImages(links), FlatMap(links, ZoomUrlOf);
      (forall x :: x in r ==> x in urls) &&
      forall i, j :: 0 <= i < j < |r| ==> r[i] != r[j] && FirstIndex(urls, r[i]) < FirstIndex(urls, r[j])
  {
    var urls := FlatMap(links, ZoomUrlOf);
    FirstOccurrencesMembers(urls);
    FlatMapMember(links, ZoomUrlOf, url);
    FirstOccurrencesOrdered(urls);
  }

  // ------------------------------------------------------------------- sizes

  /** The first "Size:" becomes a space, then trim; then the first " and" becomes ",", then trim. */
  function SizeText(text: string): string
  {
    var t := Trim(ReplaceFirst(text, "Size:", " "));
    Trim(ReplaceFirst(t, " and", ","))
  }

  /** A paragraph that mentions "Size:" contributes its rewritten text. */
  function SizeOf(paragraph: Element): seq<string>
  {
    if Contains(paragraph.text, "Size:") then [SizeText(paragraph.text)] else []
  }

  function Sizes(paragraphs: seq<Element>): seq<string>
  {
    FlatMap(paragraphs, SizeOf)
  }

  /** `getSize`. */
  method GetSize(paragraphs: seq<Element>) returns (sizes: seq<string>)
    ensures sizes == Sizes(paragraphs)
  {
    sizes := [];
    for i := 0 to |paragraphs|
      invariant sizes == Sizes(paragraphs[..i])
    {
      assert paragraphs[..i + 1] == paragraphs[..i] + [paragraphs[i]];
      sizes := PushSize(paragraphs[..i], sizes, paragraphs[i]);
    }
    assert paragraphs[..|paragraphs|] == paragraphs;
  }

  /** The `forEach` callback of `getSize`: a paragraph that mentions "Size:" pushes its rewritten text. */
  method PushSize(ghost visited: seq<Element>, sizes: seq<string>, paragraph: Element) returns (after: seq<string>)
    requires sizes == Sizes(visited)
    ensures after == Sizes(visited + [paragraph])
  {
    FlatMapSnoc(visited, paragraph, SizeOf);
    after := sizes;
    var isSize := paragraph.text;
    if Contains(isSize, "Size:") {
      var text := Trim(ReplaceFirst(isSize, "Size:", " "));
      var textFinal := Trim(ReplaceFirst(text, " and", ","));
      after := after + [textFinal];
    }
  }

  /**
   * The sizes, defined independently of `FlatMap`: none for no paragraph,
   * and each further paragraph appends its rewritten text exactly when it
   * mentions "Size:".
   */
  lemma SizesSnoc(paragraphs: seq<Element>, p: Element)
    ensures Sizes([]) == []
    ensures Sizes(paragraphs + [p]) ==
      Sizes(paragraphs) + (if Contains(p.text, "Size:") then [SizeText(p.text)] else [])
  {
    FlatMapSnoc(paragraphs, p, SizeOf);
  }

  /**
   * Each entry is trimmed and comes from a different paragraph; there are
   * none exactly when no paragraph mentions "Size:", and the first entry
   * (the product's size) comes from the first paragraph that does.
   */
  lemma SizesSpec(paragraphs: seq<Element>)
    ensures |Sizes(paragraphs)| <= |paragraphs|
    ensures forall s :: s in Sizes(paragraphs) ==> IsTrimmed(s)
    ensures Sizes(paragraphs) == [] <==> forall p :: p in paragraphs ==> !Contains(p.text, "Size:")
    ensures Sizes(paragraphs) != [] ==>
      exists k :: 0 <= k < |paragraphs| && Contains(paragraphs[k].text, "Size:") &&
                  (forall j :: 0 <= j < k ==> !Contains(paragraphs[j].text, "Size:")) &&
                  Sizes(paragraphs)[0] == SizeText(paragraphs[k].text)
  {
    FlatMapAtMostOne(paragraphs, SizeOf);
    forall s | s in Sizes(paragraphs) ensures IsTrimmed(s) {
      FlatMapMember(paragraphs, SizeOf, s);
    }
    if Sizes(paragraphs) == [] {
      forall p | p in paragraphs ensures !Contains(p.text, "Size:") {
        if Contains(p.text, "Size:") {
          FlatMapMember(paragraphs, SizeOf, SizeText(p.text));
        }
      }
    } else {
      FlatMapHead(paragraphs, SizeOf);
      FlatMapMember(paragraphs, SizeOf, Sizes(paragraphs)[0]);
    }
  }
}
