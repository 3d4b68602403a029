/**
 * The product record every page reads from the static catalog. Only the
 * fields some computation looks at are kept; descriptive fields such as
 * material, dimensions, colour, description, reviews, stock and the
 * expected arrival date are carried through unchanged by the source and
 * are not modelled.
 */
module Catalog {
  import opened Wrappers

  /** The two values of `product.status`: 'available' and 'preorder'. */
  datatype Status = Available | Preorder

  datatype Product = Product(
    id: int,
    name: string,
    category: string,
    price: real,
    oldPrice: Option<real>,   // present only for discounted products
    rating: real,
    status: Status,
    image: string,
    images: seq<string>,      // an absent `images` array is the empty sequence
    features: seq<string>     // an absent `features` array is the empty sequence
  )
}
