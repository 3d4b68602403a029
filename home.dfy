/**
 * The home page: the featured products grid and the quick-view modal it
 * opens, whose add button is wired to a handler that does nothing.
 */
module Home {
  import opened Wrappers
  import opened Seqs
  import opened Catalog
  import opened CartStore
  import opened QuickViewModal

  const MaxFeatured: nat := 6

  function IsAvailable(p: Product): bool {
    p.status == Available
  }

  /** `mockProducts.filter(p => p.status === 'available').slice(0, 6)`. */
  function FeaturedProducts(catalog: seq<Product>): (r: seq<Product>)
    ensures |r| <= MaxFeatured
    ensures r <= Filter(catalog, IsAvailable)
    ensures forall i :: 0 <= i < |r| ==> r[i] in catalog && r[i].status == Available
  {
    var available := Filter(catalog, IsAvailable);
    var r := Take(available, MaxFeatured);
    assert forall i :: 0 <= i < |r| ==> r[i] == available[i];
    r
  }

  /**
   * The featured products are the first six available products: all of
   * them when the catalog has at most six, and exactly six otherwise.
   */
  lemma FeaturedAreFirstAvailable(catalog: seq<Product>, p: Product)
    ensures |Filter(catalog, IsAvailable)| <= MaxFeatured ==>
      (p in FeaturedProducts(catalog) <==> p in catalog && p.status == Available)
    ensures |Filter(catalog, IsAvailable)| > MaxFeatured ==> |FeaturedProducts(catalog)| == MaxFeatured
  {
    FilterMembership(catalog, IsAvailable, p);
  }

  /** A pre-order product is never featured. */
  lemma PreorderNeverFeatured(catalog: seq<Product>, p: Product)
    requires p.status == Preorder
    ensures p !in FeaturedProducts(catalog)
  {
  }

  /** The home page's `selectedProduct` and the modal mounted for it. */
  class HomePage {
    var selectedProduct: Option<Product>
    var modal: QuickView?

    ghost predicate Valid()
      reads this, modal
    {
      (selectedProduct.None? <==> modal == null)
      && (modal != null ==> modal.product == selectedProduct.value && modal.isOpen && modal.Valid())
    }

    constructor ()
      ensures Valid() && selectedProduct == None
    {
      selectedProduct := None;
      modal := null;
    }

    /** A product card's quick-view action: `setSelectedProduct(product)` mounts a fresh modal. */
    method OpenQuickView(product: Product)
      requires Valid() && selectedProduct == None
      modifies this
      ensures Valid() && selectedProduct == Some(product)
      ensures modal != null && fresh(modal) && modal.quantity == 1 && modal.selectedImage == 0
    {
      selectedProduct := Some(product);
      modal := new QuickView(product);
    }

    /** `handleAddToCart`: does nothing. */
    method HandleAddToCart(product: Product, quantity: int)
      ensures selectedProduct == old(selectedProduct) && modal == old(modal)
    {
    }

    /**
     * The add button of the home page's modal: the callback ignores the
     * request, the modal closes, and no cart changes whatever it held.
     */
    method AddFromQuickView(store: Store)
      requires Valid() && modal != null
      modifies this, modal
      ensures Valid() && selectedProduct == None
      ensures store.cart == old(store.cart)
    {
      var added, count := modal.AddClicked();
      HandleAddToCart(added, count);
      CloseQuickView();
    }

    /** `onClose`: `setSelectedProduct(null)` unmounts the modal. */
    method CloseQuickView()
      modifies this
      ensures Valid() && selectedProduct == None
    {
      selectedProduct := None;
      modal := null;
    }
  }
}
