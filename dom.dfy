/**
 * The rendered product page, abstracted as plain data: for every selector
 * the scraper queries, the matching elements in document order.
 */
module Dom {
  import opened Wrappers

  /** One element as the scraper sees it: `textContent`, `innerHTML`, `outerHTML` and its attributes. */
  datatype Element = Element(text: string, innerHtml: string, outerHtml: string, attributes: map<string, string>)

  /** `e.getAttribute(name)`: `None` stands for `null`. */
  function Attribute(e: Element, name: string): (r: Option<string>)
    ensures r.Some? <==> name in e.attributes
  {
    if name in e.attributes then Some(e.attributes[name]) else None
  }

  /** JavaScript truthiness of a string-or-null value: present and non-empty. */
  predicate Truthy(v: Option<string>)
  {
    v.Some? && v.value != ""
  }

  /** The page, one field per selector the scraper reads. */
  datatype Document = Document(
    variantOptions: seq<Element>,         // .form-select.form-select--small > option
    narrowInfoValues: seq<Element>,       // .productView-info div.productView-info-value .productView-info-value
    broadInfoValues: seq<Element>,        // .productView-info div.productView-info-value
    directionsParagraph: Option<Element>, // #tab-description > div > div:nth-child(2) > p
    descriptionFrames: seq<Element>,      // #tab-description > div > div:nth-child(1) > p > iframe
    thumbnailLinks: seq<Element>,         // .productView-thumbnail-link
    breadcrumbItems: seq<Element>,        // .breadcrumbs.breadcrumb-container li
    featureHeadings: seq<Element>,        // .product_details_column h5
    detailListItems: seq<Element>,        // .product_details_column ul li
    detailParagraphs: seq<Element>,       // .product_details_column p
    infoNames: seq<Element>,              // elements of class productView-info-name
    title: Option<Element>,               // .productView-title
    nonSalePrice: Option<Element>         // .price.price--non-sale
  )

  /**
   * What a `forEach` over `nodes` that pushes `f(node)` onto an initially
   * empty array leaves in that array.
   */
  function FlatMap<T>(nodes: seq<Element>, f: Element -> seq<T>): (r: seq<T>)
  {
    if nodes == [] then [] else f(nodes[0]) + FlatMap(nodes[1..], f)
  }

  /** Visiting `a` and then `b` pushes what `a` pushes followed by what `b` pushes: document order is kept. */
  lemma {:induction false} FlatMapAppend<T>(a: seq<Element>, b: seq<Element>, f: Element -> seq<T>)
    ensures FlatMap(a + b, f) == FlatMap(a, f) + FlatMap(b, f)
  {
    if a == [] {
      assert a + b == b;
    } else {
      assert (a + b)[1..] == a[1..] + b;
      FlatMapAppend(a[1..], b, f);
    }
  }

  /** Visiting one more node pushes exactly what that node contributes. */
  lemma FlatMapSnoc<T>(a: seq<Element>, x: Element, f: Element -> seq<T>)
    ensures FlatMap(a + [x], f) == FlatMap(a, f) + f(x)
  {
    FlatMapAppend(a, [x], f);
    assert FlatMap([x], f) == f(x) + FlatMap([], f);
  }

  /** A value is collected exactly when some node contributes it. */
  lemma {:induction false} FlatMapMember<T>(nodes: seq<Element>, f: Element -> seq<T>, x: T)
    ensures x in FlatMap(nodes, f) <==> exists n :: n in nodes && x in f(n)
  {
    if nodes != [] {
      FlatMapMember(nodes[1..], f, x);
      if x in FlatMap(nodes[1..], f) {
        var n :| n in nodes[1..] && x in f(n);
        assert n in nodes;
      }
      forall n | n in nodes && x in f(n) ensures x in FlatMap(nodes, f) {
        if n != nodes[0] {
          assert n in nodes[1..];
        }
      }
    }
  }

  /** When every node contributes at most one value, at most one value per node is collected. */
  lemma {:induction false} FlatMapAtMostOne<T>(nodes: seq<Element>, f: Element -> seq<T>)
    requires forall n :: n in nodes ==> |f(n)| <= 1
    ensures |FlatMap(nodes, f)| <= |nodes|
  {
    if nodes != [] {
      assert forall n :: n in nodes[1..] ==> n in nodes;
      FlatMapAtMostOne(nodes[1..], f);
    }
  }

  /** The first value collected comes from the first node that contributes anything. */
  lemma {:induction false} FlatMapHead<T>(nodes: seq<Element>, f: Element -> seq<T>)
    requires FlatMap(nodes, f) != []
    ensures exists k :: 0 <= k < |nodes| && f(nodes[k]) != [] &&
                        (forall j :: 0 <= j < k ==> f(nodes[j]) == []) &&
                        FlatMap(nodes, f)[0] == f(nodes[k])[0]
  {
    if f(nodes[0]) == [] {
      FlatMapHead(nodes[1..], f);
      var k :| 0 <= k < |nodes[1..]| && f(nodes[1..][k]) != [] &&
               (forall j :: 0 <= j < k ==> f(nodes[1..][j]) == []) &&
               FlatMap(nodes[1..], f)[0] == f(nodes[1..][k])[0];
      assert f(nodes[k + 1]) != [];
      forall j | 0 <= j < k + 1 ensures f(nodes[j]) == [] {
        if j > 0 { assert nodes[j] == nodes[1..][j - 1]; }
      }
    } else {
      assert f(nodes[0]) != [];
    }
  }
}
