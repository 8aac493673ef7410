/**
 * The product card (components/RecommendationCard.tsx): which components it
 * lists as key specifications, and which badges it shows.
 */
module RecommendationCard {
  import opened Types
  import opened Seqs

  /** The component names a card lists, at most this many of them. */
  const KEY_SPEC_NAMES: seq<string> := ["Processor", "Graphics Card", "RAM", "Storage"]
  const MAX_KEY_SPECS: nat := 4

  /** The filter `['Processor', 'Graphics Card', 'RAM', 'Storage'].includes(c.name)`. */
  function IsKeySpec(): ComponentSpec -> bool
  {
    (c: ComponentSpec) => c.name in KEY_SPEC_NAMES
  }

  /** `keySpecs`: the key components, in their listed order, cut to four. */
  function KeySpecs(components: seq<ComponentSpec>): (r: seq<ComponentSpec>)
    ensures |r| <= MAX_KEY_SPECS
  {
    Take(Filter(components, IsKeySpec()), MAX_KEY_SPECS)
  }

  /**
   * The key specs are components with one of the four key names, in the order
   * the product lists them: the first four that qualify, or all of them when
   * no more than four qualify.
   */
  lemma KeySpecsSpec(components: seq<ComponentSpec>)
    ensures KeySpecs(components) <= Filter(components, IsKeySpec())
    ensures var n := |Filter(components, IsKeySpec())|;
      |KeySpecs(components)| == if n < MAX_KEY_SPECS then n else MAX_KEY_SPECS
    ensures IsSubsequence(KeySpecs(components), components)
    ensures forall c :: c in KeySpecs(components) ==> c in components && c.name in KEY_SPEC_NAMES
    ensures |Filter(components, IsKeySpec())| <= MAX_KEY_SPECS ==>
      forall c :: c in components && c.name in KEY_SPEC_NAMES ==> c in KeySpecs(components)
  {
    var qualifying := Filter(components, IsKeySpec());
    FilterIsSubsequence(components, IsKeySpec());
    FilterMembers(components, IsKeySpec());
    PrefixOfSubsequence(KeySpecs(components), qualifying, components);
    forall c | c in KeySpecs(components)
      ensures c in qualifying
    {
      var k :| 0 <= k < |KeySpecs(components)| && KeySpecs(components)[k] == c;
      assert qualifying[k] == c;
    }
  }

  /** A badge in the card's corner. */
  datatype Badge = TagBadge(tag: Tag) | BestMatchBadge

  /** The badges the card shows, left to right. */
  function Badges(product: Product): (r: seq<Badge>)
    ensures |r| <= 2
  {
    (if product.tag.Some? then [TagBadge(product.tag.value)] else []) +
    (if product.isBestMatch then [BestMatchBadge] else [])
  }

  /**
   * The tag badge appears exactly when the product has a tag, and shows that
   * tag; the "Best Match" badge appears exactly when the product is the best
   * match, after the tag badge.
   */
  lemma BadgesSpec(product: Product)
    ensures forall t :: TagBadge(t) in Badges(product) <==> product.tag == Some(t)
    ensures BestMatchBadge in Badges(product) <==> product.isBestMatch
    ensures product.tag.Some? && product.isBestMatch ==>
      Badges(product) == [TagBadge(product.tag.value), BestMatchBadge]
  {
  }
}
