/** Backend product records in the loose shapes `GET /products/` may return,
    and the field alternatives both catalogue pages resolve the same way
    (pages/Home.tsx and pages/ProductDetail.tsx). */
module Catalog {
  import opened Base
  import opened Types

  /** The `images` field: an array, or anything else (absent, a string, null). */
  datatype RawImages = ImageArray(urls: seq<string>) | NotAnArray

  /** One backend record; `mongoId` is the `_id` field. */
  datatype RawProduct = RawProduct(
    mongoId: Option<string>,
    id: Option<string>,
    name: Option<string>,
    title: Option<string>,
    images: RawImages,
    image: Option<string>,
    description: string,
    price: int,
    category: Option<string>,
    brand: string,
    stock: Option<int>,
    rating: Option<real>,
    reviews: Option<int>,
    oldPrice: Option<int>)

  /** The response body: an object with a `products` array, a bare array, or
      something else, on which the pages' `data.map` / `data.find` throw. */
  datatype ResponseBody = Envelope(products: seq<RawProduct>) | Listing(items: seq<RawProduct>) | Unlisted

  /** `res.data.products || res.data`, when that is an array. */
  function ProductList(body: ResponseBody): Option<seq<RawProduct>> {
    match body
    case Envelope(products) => Some(products)
    case Listing(items) => Some(items)
    case Unlisted => None
  }

  /** `p._id || p.id`; an absent id reads as the empty string. */
  function CanonicalId(p: RawProduct): (r: string)
    ensures StringTruthy(p.mongoId) ==> r == p.mongoId.value
    ensures !StringTruthy(p.mongoId) ==> r == p.id.GetOr("")
  {
    if StringTruthy(p.mongoId) then p.mongoId.value else p.id.GetOr("")
  }

  /** `p.name || p.title`; an absent name reads as the empty string. */
  function CanonicalName(p: RawProduct): (r: string)
    ensures StringTruthy(p.name) ==> r == p.name.value
    ensures !StringTruthy(p.name) ==> r == p.title.GetOr("")
  {
    if StringTruthy(p.name) then p.name.value else p.title.GetOr("")
  }

  /** An image array is kept as it is, a single truthy `image` becomes a
      one-element list, and otherwise the list is empty. */
  function CanonicalImages(p: RawProduct): (r: seq<string>)
    ensures p.images.ImageArray? ==> r == p.images.urls
    ensures p.images.NotAnArray? && StringTruthy(p.image) ==> r == [p.image.value]
    ensures p.images.NotAnArray? && !StringTruthy(p.image) ==> r == []
  {
    match p.images
    case ImageArray(urls) => urls
    case NotAnArray => if StringTruthy(p.image) then [p.image.value] else []
  }

  /** The record a canonical product is when the backend sends it back in the
      canonical shape (`id`, `name`, an `images` array). */
  function Embed(q: Product): RawProduct {
    RawProduct(None, Some(q.id), Some(q.name), None, ImageArray(q.images), None,
               q.description, q.price, q.category, q.brand, q.stock, q.rating, q.reviews, q.oldPrice)
  }
}
