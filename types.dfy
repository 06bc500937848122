/** Entities of the restaurant client, as the client holds them.
    Money amounts are integers in minor units (paise). A numeric field that the
    backend may omit is modelled as 0 where the client only ever reads it through
    `x || fallback` (JavaScript treats `undefined` and `0` alike there), and as an
    `Option` where the client distinguishes a missing value explicitly. */
module Types {

  datatype Option<+T> = None | Some(value: T) {
    /** `x || fallback` / `x ?? fallback` for an optional value */
    function GetOr(default: T): T {
      match this
      case Some(v) => v
      case None => default
    }
  }

  datatype Variation = Variation(id: string, menuItemId: string, name: string, price: int, isActive: bool)

  datatype Addon = Addon(id: string, menuItemId: string, name: string, price: int, isActive: bool)

  datatype Dietary = Veg | NonVeg | Vegan

  datatype MenuItem = MenuItem(
    id: string,
    categoryId: string,
    name: string,
    description: Option<string>,
    price: int,
    dietary: Dietary,
    isCustomizable: bool,
    isActive: bool,
    variations: Option<seq<Variation>>,
    addons: Option<seq<Addon>>)

  /** One line of the customer's cart. */
  datatype CartItem = CartItem(
    menuItem: MenuItem,
    variation: Option<Variation>,
    addons: seq<Addon>,
    quantity: int,
    specialInstructions: Option<string>,
    totalPrice: int)

  /** Order status. Status strings arriving in real-time events are cast without
      checking, so any other string is kept as `UnknownStatus`. */
  datatype OrderStatus = Pending | Confirmed | Preparing | Ready | Served | Cancelled | UnknownStatus(raw: string)

  datatype PaymentStatus = Unpaid | Paid | Refunded

  datatype PaymentMethod = Cash | Card | Upi | Split

  datatype KotStatus = KotPending | KotPrinted | KotPreparing | KotReady | KotServed | UnknownKotStatus(raw: string)

  /** Kitchen order ticket */
  datatype Kot = Kot(id: string, orderId: string, kotNumber: string, status: KotStatus)

  datatype OrderItem = OrderItem(
    id: string,
    orderId: string,
    menuItemId: string,
    variationId: Option<string>,
    quantity: int,
    price: int,
    totalPrice: int,
    addonIds: seq<string>,
    menuItem: MenuItem)

  /** An order record. It declares both `orderItems`, `total`, `tax` and
      `items`, `totalAmount`, `taxAmount`; the views fall back from one set to
      the other when normalising. */
  datatype Order = Order(
    id: string,
    restaurantId: string,
    tableId: string,
    customerId: string,
    orderNumber: string,
    status: OrderStatus,
    subtotal: int,
    discount: int,
    tax: int,
    taxAmount: Option<int>,
    total: int,
    totalAmount: int,
    paymentStatus: PaymentStatus,
    paymentMethod: Option<PaymentMethod>,
    items: seq<OrderItem>,
    orderItems: Option<seq<OrderItem>>,
    kots: Option<seq<Kot>>)

  datatype TableStatus = Available | Occupied | Reserved | Cleaning | UnknownTableStatus(raw: string)

  datatype Table = Table(
    id: string,
    restaurantId: string,
    tableNumber: string,
    capacity: int,
    status: TableStatus,
    currentAmount: int)

  datatype Category = Category(
    id: string,
    restaurantId: string,
    name: string,
    sortOrder: int,
    isActive: bool,
    menuItems: Option<seq<MenuItem>>)

  datatype Customer = Customer(id: string, name: string, phone: string, email: Option<string>)

  datatype StaffRole = Admin | Manager | Waiter | Cashier | Kitchen

  /** The `user` part of a staff login response */
  datatype StaffUser = StaffUser(
    id: string,
    name: string,
    email: string,
    role: StaffRole,
    restaurantId: string,
    restaurantName: string)
}
