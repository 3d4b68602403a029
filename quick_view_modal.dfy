/**
 * The quick-view modal: renders nothing without a product, otherwise the
 * gallery, the quantity selector for available products and at most four
 * features; its add button hands `(product, quantity)` to the caller's
 * callback and then closes the modal.
 */
module QuickViewModal {
  import opened Wrappers
  import opened Seqs
  import opened Catalog
  import opened ProductPanel

  const MaxListedFeatures: nat := 4

  /** `product.features.slice(0, 4)`. */
  function ListedFeatures(p: Product): (r: seq<string>)
    ensures |r| <= MaxListedFeatures && r <= p.features
    ensures |p.features| <= MaxListedFeatures ==> r == p.features
    ensures |p.features| > MaxListedFeatures ==> |r| == MaxListedFeatures
  {
    Take(p.features, MaxListedFeatures)
  }

  datatype ModalView =
    | Nothing
    | Shown(image: string, thumbnails: bool, quantitySelector: bool, features: seq<string>)

  /** What the modal renders for its `product` prop and its selected image. */
  function Render(product: Option<Product>, selectedImage: int): (v: ModalView)
    ensures v.Nothing? <==> product.None?
    ensures v.Shown? ==> v.features == ListedFeatures(product.value)
                         && (v.quantitySelector <==> product.value.status == Available)
                         && (v.thumbnails <==> |product.value.images| > 1)
                         && (v.image == product.value.image || v.image in product.value.images)
  {
    match product
    case None => Nothing
    case Some(p) =>
      Shown(ShownImage(p, selectedImage), ThumbnailsShown(p), QuantitySelectorShown(p), ListedFeatures(p))
  }

  /** The modal's own state while it is mounted for `product`. */
  class QuickView {
    const product: Product
    var selectedImage: int
    var quantity: int
    var isOpen: bool

    ghost predicate Valid()
      reads this
    {
      quantity >= 1 && selectedImage >= 0
    }

    constructor (product: Product)
      ensures Valid()
      ensures this.product == product && selectedImage == 0 && quantity == 1 && isOpen
    {
      this.product := product;
      selectedImage := 0;
      quantity := 1;
      isOpen := true;
    }

    method Minus()
      requires Valid() && isOpen && QuantitySelectorShown(product)
      modifies this
      ensures Valid()
      ensures quantity == StepDown(old(quantity)) && selectedImage == old(selectedImage) && isOpen
    {
      quantity := StepDown(quantity);
    }

    method Plus()
      requires Valid() && isOpen && QuantitySelectorShown(product)
      modifies this
      ensures Valid()
      ensures quantity == StepUp(old(quantity)) && selectedImage == old(selectedImage) && isOpen
    {
      quantity := StepUp(quantity);
    }

    /** Typing in the quantity field; `parsed` is `parseInt` of the text. */
    method Input(parsed: Option<int>)
      requires Valid() && isOpen && QuantitySelectorShown(product)
      modifies this
      ensures Valid()
      ensures quantity == FromInput(parsed) && selectedImage == old(selectedImage) && isOpen
    {
      quantity := FromInput(parsed);
    }

    method SelectImage(index: nat)
      requires Valid() && isOpen && ThumbnailsShown(product) && index < |product.images|
      modifies this
      ensures Valid()
      ensures selectedImage == index && quantity == old(quantity) && isOpen
    {
      selectedImage := index;
    }

    /** The close button or a click on the backdrop: `onClose()`. */
    method Close()
      requires Valid()
      modifies this
      ensures Valid()
      ensures !isOpen && quantity == old(quantity) && selectedImage == old(selectedImage)
    {
      isOpen := false;
    }

    /**
     * The add (or pre-order) button: `onAddToCart(product, quantity)` and
     * then `onClose()`. The returned pair is what the callback receives.
     */
    method AddClicked() returns (added: Product, count: int)
      requires Valid() && isOpen
      modifies this
      ensures Valid()
      ensures added == product && count == old(quantity) && count >= 1
      ensures !isOpen && quantity == old(quantity)
    {
      added, count := product, quantity;
      Close();
    }

    function View(): ModalView
      reads this
    {
      Render(Some(product), selectedImage)
    }
  }
}
