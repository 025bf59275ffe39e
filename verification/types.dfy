/** The storefront's records (types.ts). Fields the code can leave `undefined`
    are `Option`s; `CartItem` extends `Product` with a quantity. */
module Types {
  import opened Base

  datatype Product = Product(
    id: string,
    name: string,
    description: string,
    price: int,
    category: Option<string>,
    brand: string,
    stock: Option<int>,
    images: seq<string>,
    rating: Option<real>,
    reviews: Option<int>,
    oldPrice: Option<int>)

  /** A cart line as the cart store hands it out. */
  datatype CartItem = CartItem(product: Product, quantity: int)

  datatype AddressType = HomeAddress | WorkAddress

  datatype ShippingAddress = ShippingAddress(
    name: string,
    mobile: string,
    pincode: string,
    locality: string,
    address: string,
    city: string,
    state: string,
    landmark: Option<string>,
    altMobile: Option<string>,
    addressType: AddressType)

  datatype UserRole = Customer | Administrator

  datatype User = User(id: string, name: string, email: string, role: Option<UserRole>)

  /** The order summary the checkout passes to the tracking page as router state. */
  datatype TrackedOrder = TrackedOrder(id: string, address: ShippingAddress, total: int, items: seq<CartItem>)

  /** Calls a page makes into the cart store and the router. */
  datatype Effect = AddToCart(product: Product) | ClearCart | NavigateTo(path: string)
}
