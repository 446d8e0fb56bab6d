/** The description sections attached to every product. */
module OutputProduct {
  import opened Wrappers

  /** Where a description fragment renders on the product page. */
  datatype Placement = Main | Adjacent | Distant

  /** One entry of `additionalSections`: a name, an HTML fragment and its placement. */
  datatype Section = Section(name: string, content: string, placement: Placement)

  /** How many sections have placement `p`. */
  function CountPlacement(sections: seq<Section>, p: Placement): (n: nat)
    ensures n <= |sections|
  {
    if sections == [] then 0
    else (if sections[0].placement == p then 1 else 0) + CountPlacement(sections[1..], p)
  }

  /** Counting distributes over concatenation. */
  lemma {:induction false} CountPlacementAppend(a: seq<Section>, b: seq<Section>, p: Placement)
    ensures CountPlacement(a + b, p) == CountPlacement(a, p) + CountPlacement(b, p)
  {
    if a == [] {
      assert a + b == b;
    } else {
      assert (a + b)[1..] == a[1..] + b;
      CountPlacementAppend(a[1..], b, p);
    }
  }

  /** `additionalSections.find(e => e.description_placement === MAIN)`. */
  function FindMain(sections: seq<Section>): (r: Option<Section>)
    ensures r.Some? ==> r.value in sections && r.value.placement == Main
    ensures r.None? ==> CountPlacement(sections, Main) == 0
  {
    if sections == [] then None
    else if sections[0].placement == Main then Some(sections[0])
    else FindMain(sections[1..])
  }
}
