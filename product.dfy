/**
 * The catalog's data classes: `Header`, `ProductResponse` and `Product`.
 * Kotlin data classes are values with structural equality, so each one is a
 * datatype; `copy(isFavorite = b)` is a datatype update.
 */
module ProductModel {
  import opened KotlinTypes

  /** The catalog header; display-only, carried unchanged. */
  datatype Header = Header(headerTitle: string, headerDescription: string)

  /**
   * One product. `rating` is a Kotlin `Double`; no behaviour depends on it,
   * so it is carried as a plain `real`.
   */
  datatype Product = Product(
    id: int32,
    name: string,
    imageURL: string,
    available: bool,
    description: string,
    longDescription: string,
    rating: real,
    isFavorite: bool)

  /** The decoded catalog document: header, filter labels, products. */
  datatype ProductResponse = ProductResponse(
    header: Header,
    filters: seq<string>,
    products: seq<Product>)

  /** Two products agree on every field except possibly `isFavorite`. */
  predicate SameExceptFavorite(p: Product, q: Product) {
    p.id == q.id && p.name == q.name && p.imageURL == q.imageURL &&
    p.available == q.available && p.description == q.description &&
    p.longDescription == q.longDescription && p.rating == q.rating
  }

  /** The data-class constructor called without `isFavorite`: the flag defaults to false. */
  function NewProduct(id: int32, name: string, imageURL: string, available: bool,
                      description: string, longDescription: string, rating: real): (p: Product)
    ensures !p.isFavorite
    ensures p.id == id && p.name == name && p.imageURL == imageURL && p.available == available
    ensures p.description == description && p.longDescription == longDescription && p.rating == rating
  {
    Product(id, name, imageURL, available, description, longDescription, rating, false)
  }

  /** `p.copy(isFavorite = b)`: every other field is kept. */
  function WithFavorite(p: Product, b: bool): (q: Product)
    ensures q.isFavorite == b
    ensures SameExceptFavorite(p, q)
  {
    p.(isFavorite := b)
  }

  /** Equality is structural over all eight fields. */
  lemma EqualityIsStructural(p: Product, q: Product)
    ensures p == q <==> SameExceptFavorite(p, q) && p.isFavorite == q.isFavorite
  {
  }

  /** Copying with the flag a product already has gives back an equal product. */
  lemma WithSameFavoriteIsIdentity(p: Product)
    ensures WithFavorite(p, p.isFavorite) == p
  {
  }

  /** A toggled copy is never equal to the product it was copied from. */
  lemma ToggledCopyDiffers(p: Product)
    ensures WithFavorite(p, !p.isFavorite) != p
    ensures WithFavorite(WithFavorite(p, !p.isFavorite), p.isFavorite) == p
  {
  }
}
