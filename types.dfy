/** The storefront's entities (src/types/index.ts), as values.
    Money and ratings are exact reals; timestamps are integers. */
module Types {

  datatype Option<T> = None | Some(value: T)
  {
    /** The value when present, `default` otherwise (JavaScript's `??`). */
    function GetOr(default: T): T {
      match this
      case Some(v) => v
      case None => default
    }
  }

  datatype SkinType = AllSkin | Dry | Oily | Combination | Sensitive | Normal

  datatype SkinConcern =
    | Hydration | AntiAging | Brightening | Acne | Sensitivity | Pores | DarkSpots | Firmness

  datatype Category = Category(
    id: string,
    name: string,
    slug: string,
    description: string,
    productCount: int)

  datatype Product = Product(
    id: string,
    name: string,
    slug: string,
    description: string,
    price: real,
    originalPrice: Option<real>,
    images: seq<string>,
    category: Category,
    brand: string,
    stock: int,
    rating: real,
    reviewCount: int,
    skinTypes: seq<SkinType>,
    concerns: seq<SkinConcern>,
    isNew: bool,
    isBestseller: bool,
    isOnSale: bool,
    createdAt: int,
    updatedAt: int)

  /** One cart line: a product, how many, and whether it is checked out. */
  datatype CartItem = CartItem(product: Product, quantity: int, selected: bool)

  datatype OrderItem = OrderItem(product: Product, quantity: int, price: real, total: real)

  datatype Address = Address(
    firstName: string,
    lastName: string,
    email: string,
    phone: string,
    address1: string,
    address2: string,
    city: string,
    state: string,
    postalCode: string,
    country: string)

  datatype PaymentType = Card | PayPal | CashOnDelivery

  datatype PaymentMethod = PaymentMethod(kind: PaymentType)

  datatype OrderStatus = Pending | Processing | Shipped | Delivered | Cancelled | Refunded

  /** What a caller hands to order creation: an order without id, number and timestamps. */
  datatype OrderDraft = OrderDraft(
    items: seq<OrderItem>,
    shippingAddress: Address,
    billingAddress: Address,
    paymentMethod: PaymentMethod,
    subtotal: real,
    shipping: real,
    tax: real,
    discount: real,
    total: real,
    status: OrderStatus,
    trackingNumber: Option<string>)

  datatype Order = Order(
    id: string,
    orderNumber: string,
    items: seq<OrderItem>,
    shippingAddress: Address,
    billingAddress: Address,
    paymentMethod: PaymentMethod,
    subtotal: real,
    shipping: real,
    tax: real,
    discount: real,
    total: real,
    status: OrderStatus,
    trackingNumber: Option<string>,
    createdAt: int,
    updatedAt: int)

  /** The source's roles 'user' and 'admin'. */
  datatype Role = Customer | Admin

  datatype User = User(
    id: string,
    email: string,
    firstName: string,
    lastName: string,
    role: Role,
    createdAt: int,
    updatedAt: int)

  /** A `Partial<User>`: each field that is present replaces the user's. */
  datatype UserPatch = UserPatch(
    id: Option<string>,
    email: Option<string>,
    firstName: Option<string>,
    lastName: Option<string>,
    role: Option<Role>,
    createdAt: Option<int>,
    updatedAt: Option<int>)
  {
    /** `{ ...user, ...this }`. */
    function Spread(user: User): User {
      User(id.GetOr(user.id), email.GetOr(user.email), firstName.GetOr(user.firstName),
        lastName.GetOr(user.lastName), role.GetOr(user.role), createdAt.GetOr(user.createdAt),
        updatedAt.GetOr(user.updatedAt))
    }
  }

  /** The catalog filter specification. `sortBy` stays a string because the Catalog page
      copies the URL's `sort` parameter into it without checking it. */
  datatype ProductFilters = ProductFilters(
    categories: seq<string>,
    skinTypes: seq<SkinType>,
    concerns: seq<SkinConcern>,
    priceRange: (real, real),
    brands: seq<string>,
    rating: real,
    sortBy: string,
    search: string)

  datatype Theme = Light | Dark | System

  datatype PaginatedResponse<T> = PaginatedResponse(
    data: seq<T>,
    total: int,
    page: int,
    limit: int,
    totalPages: int)
}
