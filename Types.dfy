/** The records of src/types/index.ts, plus the User and Order records
    whose shape the admin fixtures use. Money and counts are integers. */
module Types {

  datatype Option<T> = None | Some(value: T)

  datatype Laptop = Laptop(
    id: string,
    name: string,
    brand: string,
    processor: string,
    ram: string,
    storage: string,
    graphics: string,
    display: string,
    price: int,
    originalPrice: Option<int>,
    image: string,
    images: seq<string>,
    rating: real,
    reviews: int,
    description: string,
    features: seq<string>)

  /** One cart line: a laptop and how many of it. */
  datatype CartItem = CartItem(laptop: Laptop, quantity: int)

  datatype Role = Admin | Customer

  datatype UserStatus = Active | Blocked

  datatype User = User(
    id: string,
    name: string,
    email: string,
    role: Role,
    status: UserStatus,
    joinDate: string,
    totalOrders: int)

  datatype OrderStatus = Pending | Processing | Shipped | Delivered | Cancelled

  datatype Order = Order(
    id: string,
    userId: string,
    userName: string,
    userEmail: string,
    items: seq<CartItem>,
    total: int,
    status: OrderStatus,
    orderDate: string,
    shippingAddress: string)
}
