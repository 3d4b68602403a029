/**
 * The product details page: looking the product up by the route id, the
 * not-found view, the related products, the savings badge, and the page's
 * own gallery and quantity state with its add-to-cart button.
 */
module ProductDetails {
  import opened Wrappers
  import opened Seqs
  import opened Catalog
  import opened CartStore
  import opened ProductPanel

  const MaxRelated: nat := 4

  /**
   * `mockProducts.find(p => p.id === parseInt(id))`, where `routeId` is the
   * parsed route parameter (`None` for NaN, which equals no id).
   */
  function FindById(catalog: seq<Product>, routeId: Option<int>): (r: Option<Product>)
    ensures r.None? <==> routeId.None? || forall k :: 0 <= k < |catalog| ==> catalog[k].id != routeId.value
    ensures r.Some? ==> exists k :: 0 <= k < |catalog| && catalog[k] == r.value && Some(r.value.id) == routeId
                          && forall j :: 0 <= j < k ==> catalog[j].id != routeId.value
  {
    if routeId.None? || catalog == [] then None
    else if catalog[0].id == routeId.value then Some(catalog[0])
    else
      var r := FindById(catalog[1..], routeId);
      if r.Some? then
        var k :| 0 <= k < |catalog[1..]| && catalog[1..][k] == r.value && Some(r.value.id) == routeId
                 && forall j :: 0 <= j < k ==> catalog[1..][j].id != routeId.value;
        assert catalog[k + 1] == r.value;
        assert forall j :: 0 < j < k + 1 ==> catalog[j] == catalog[1..][j - 1];
        r
      else
        assert forall k :: 0 < k < |catalog| ==> catalog[k] == catalog[1..][k - 1];
        r
  }

  function RelatedTo(product: Product): Product -> bool {
    (p: Product) => p.category == product.category && p.id != product.id
  }

  /** Other products of the same category, the first four in catalog order. */
  function RelatedProducts(catalog: seq<Product>, product: Product): (r: seq<Product>)
    ensures |r| <= MaxRelated
    ensures r <= Filter(catalog, RelatedTo(product))
    ensures |r| == if |Filter(catalog, RelatedTo(product))| <= MaxRelated then |Filter(catalog, RelatedTo(product))| else MaxRelated
    ensures forall i :: 0 <= i < |r| ==>
      r[i] in catalog && r[i].category == product.category && r[i].id != product.id
  {
    var matches := Filter(catalog, RelatedTo(product));
    var r := Take(matches, MaxRelated);
    assert forall i :: 0 <= i < |r| ==> r[i] == matches[i];
    r
  }

  /** The product itself is never among its related products. */
  lemma NotRelatedToItself(catalog: seq<Product>, product: Product)
    ensures product !in RelatedProducts(catalog, product)
  {
  }

  /**
   * When there are at most four candidates, the related products are
   * exactly the other catalog products of the same category.
   */
  lemma RelatedMembership(catalog: seq<Product>, product: Product, p: Product)
    requires |Filter(catalog, RelatedTo(product))| <= MaxRelated
    ensures p in RelatedProducts(catalog, product) <==>
      p in catalog && p.category == product.category && p.id != product.id
  {
    FilterMembership(catalog, RelatedTo(product), p);
  }

  /**
   * The "Save $…" badge and the struck-through old price: shown when
   * `oldPrice` is truthy, that is present and not zero.
   */
  function Savings(p: Product): (r: Option<real>)
    ensures r.Some? <==> p.oldPrice.Some? && p.oldPrice.value != 0.0
    ensures r.Some? ==> r.value + p.price == p.oldPrice.value
  {
    if p.oldPrice.Some? && p.oldPrice.value != 0.0 then Some(p.oldPrice.value - p.price) else None
  }

  /** A discounted product (old price above the price) shows a positive saving. */
  lemma DiscountSavesMoney(p: Product)
    requires p.oldPrice.Some? && p.oldPrice.value > p.price && p.price >= 0.0
    ensures Savings(p).Some? && Savings(p).value > 0.0
  {
  }

  /** What the route renders. */
  datatype DetailsView = NotFound | Details(product: Product, related: seq<Product>)

  function ViewFor(catalog: seq<Product>, routeId: Option<int>): (v: DetailsView)
    ensures v.NotFound? <==> FindById(catalog, routeId).None?
    ensures v.Details? ==> v.product in catalog && Some(v.product.id) == routeId
                           && v.related == RelatedProducts(catalog, v.product)
  {
    match FindById(catalog, routeId)
    case None => NotFound
    case Some(p) => Details(p, RelatedProducts(catalog, p))
  }

  /** The details page's state for a product that was found. */
  class DetailsPage {
    const product: Product
    var selectedImage: int
    var quantity: int

    ghost predicate Valid()
      reads this
    {
      quantity >= 1 && selectedImage >= 0
    }

    constructor (product: Product)
      ensures Valid()
      ensures this.product == product && selectedImage == 0 && quantity == 1
    {
      this.product := product;
      selectedImage := 0;
      quantity := 1;
    }

    /** The minus button of the selector (rendered only for available products). */
    method Minus()
      requires Valid() && QuantitySelectorShown(product)
      modifies this
      ensures Valid()
      ensures quantity == StepDown(old(quantity)) && selectedImage == old(selectedImage)
    {
      quantity := StepDown(quantity);
    }

    /** The plus button of the selector. */
    method Plus()
      requires Valid() && QuantitySelectorShown(product)
      modifies this
      ensures Valid()
      ensures quantity == StepUp(old(quantity)) && selectedImage == old(selectedImage)
    {
      quantity := StepUp(quantity);
    }

    /** Typing in the quantity field; `parsed` is `parseInt` of the text. */
    method Input(parsed: Option<int>)
      requires Valid() && QuantitySelectorShown(product)
      modifies this
      ensures Valid()
      ensures quantity == FromInput(parsed) && selectedImage == old(selectedImage)
    {
      quantity := FromInput(parsed);
    }

    /** A thumbnail click. */
    method SelectImage(index: nat)
      requires Valid() && ThumbnailsShown(product) && index < |product.images|
      modifies this
      ensures Valid()
      ensures selectedImage == index && quantity == old(quantity)
    {
      selectedImage := index;
    }

    /** The main picture. */
    function MainImage(): string
      reads this
    {
      ShownImage(product, selectedImage)
    }

    /** The add-to-cart (or pre-order) button: `addToCart(product, quantity)`. */
    method AddToCart(store: Store)
      requires Valid() && store.Valid()
      modifies store
      ensures store.Valid()
      ensures store.cart == AddLine(old(store.cart), product, quantity)
      ensures store.CartCount() == old(store.CartCount()) + quantity
      ensures store.isLoggedIn == old(store.isLoggedIn) && store.user == old(store.user)
    {
      store.AddToCart(product, quantity);
    }
  }
}
