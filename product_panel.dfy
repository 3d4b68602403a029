/**
 * The two pieces the product details page and the quick-view modal share
 * (each keeps its own copy of the state): the quantity selector, whose
 * value never drops below one, and the image gallery with its thumbnails.
 */
module ProductPanel {
  import opened Wrappers
  import opened Catalog

  /** The minus button: `Math.max(1, quantity - 1)`. */
  function StepDown(q: int): (r: int)
    ensures r >= 1
    ensures q >= 2 ==> r == q - 1
    ensures q < 2 ==> r == 1
  {
    if q - 1 > 1 then q - 1 else 1
  }

  /** The plus button: `quantity + 1`. */
  function StepUp(q: int): (r: int)
    ensures q >= 1 ==> r >= 2
  {
    q + 1
  }

  /**
   * Typing in the quantity field: `Math.max(1, parseInt(value) || 1)`, where
   * `parsed` is what `parseInt` returns (`None` for NaN). NaN and 0 are
   * falsy and give 1; any other number is raised to at least 1.
   */
  function FromInput(parsed: Option<int>): (r: int)
    ensures r >= 1
    ensures parsed.Some? && parsed.value >= 1 ==> r == parsed.value
    ensures (parsed.None? || parsed.value < 1) ==> r == 1
  {
    var v := if parsed.None? || parsed.value == 0 then 1 else parsed.value;
    if v > 1 then v else 1
  }

  /** Minus undoes plus, and plus undoes minus above one; at one, minus stays at one. */
  lemma StepsUndoEachOther(q: int)
    ensures q >= 1 ==> StepDown(StepUp(q)) == q
    ensures q >= 2 ==> StepUp(StepDown(q)) == q
    ensures q <= 1 ==> StepDown(q) == 1
  {
  }

  /** Re-entering the shown quantity keeps it; clearing the field or typing 0 gives 1. */
  lemma InputExamples(q: int)
    requires q >= 1
    ensures FromInput(Some(q)) == q
    ensures FromInput(None) == 1 && FromInput(Some(0)) == 1 && FromInput(Some(-3)) == 1
  {
  }

  /** The main picture: `product.images?.[selected] || product.image`. */
  function ShownImage(p: Product, selected: int): (r: string)
    ensures r == p.image || r in p.images
  {
    if 0 <= selected < |p.images| && p.images[selected] != "" then p.images[selected] else p.image
  }

  /** A thumbnail with a non-empty address shows its own picture; a missing picture falls back to the main image. */
  lemma ShownImageCases(p: Product, selected: int)
    ensures 0 <= selected < |p.images| && p.images[selected] != "" ==> ShownImage(p, selected) == p.images[selected]
    ensures !(0 <= selected < |p.images|) ==> ShownImage(p, selected) == p.image
  {
  }

  /** The thumbnail strip is rendered only when there is more than one image. */
  predicate ThumbnailsShown(p: Product) {
    |p.images| > 1
  }

  /** The quantity selector is rendered only for products in stock. */
  predicate QuantitySelectorShown(p: Product) {
    p.status == Available
  }
}
