/** The documents of the five Mongoose models (User, Restaurant, PaymentMethod,
    Order, CancelledOrder): their closed enumerations, their fields, and the
    defaults the schemas fill in. A required field is a plain field; a field the
    schema leaves optional is an `Option`. */
module Schemas {
  import opened Js

  // ---------------------------------------------------------------------------
  // Enumerations. Each has the name Mongoose stores and the enum validator that
  // accepts exactly those names.

  datatype Role = ADMIN | MANAGER | MEMBER

  function RoleName(r: Role): string {
    match r
    case ADMIN => "ADMIN"
    case MANAGER => "MANAGER"
    case MEMBER => "MEMBER"
  }

  /** The `role` enum validator of the User schema. */
  function ParseRole(s: string): (r: Option<Role>)
    ensures r.Some? ==> RoleName(r.value) == s
    ensures r.None? ==> forall x :: RoleName(x) != s
  {
    if s == "ADMIN" then Some(ADMIN)
    else if s == "MANAGER" then Some(MANAGER)
    else if s == "MEMBER" then Some(MEMBER)
    else None
  }

  datatype Country = India | America

  function CountryName(c: Country): string {
    match c
    case India => "India"
    case America => "America"
  }

  /** The `country` enum validator shared by User, Restaurant, PaymentMethod and Order. */
  function ParseCountry(s: string): (r: Option<Country>)
    ensures r.Some? ==> CountryName(r.value) == s
    ensures r.None? ==> forall x :: CountryName(x) != s
  {
    if s == "India" then Some(India)
    else if s == "America" then Some(America)
    else None
  }

  datatype OrderStatus = Placed | Cancelled | Fulfilled

  function StatusName(s: OrderStatus): string {
    match s
    case Placed => "Placed"
    case Cancelled => "Cancelled"
    case Fulfilled => "Fulfilled"
  }

  /** The `status` enum validator of the Order schema. */
  function ParseStatus(s: string): (r: Option<OrderStatus>)
    ensures r.Some? ==> StatusName(r.value) == s
    ensures r.None? ==> forall x :: StatusName(x) != s
  {
    if s == "Placed" then Some(Placed)
    else if s == "Cancelled" then Some(Cancelled)
    else if s == "Fulfilled" then Some(Fulfilled)
    else None
  }

  /** How an order is paid for (Order.paymentMethod). */
  datatype PayMethod = COD | CARD | UPI

  function PayMethodName(m: PayMethod): string {
    match m
    case COD => "COD"
    case CARD => "CARD"
    case UPI => "UPI"
  }

  /** The `paymentMethod` enum validator of the Order schema; the handlers apply
      it to an upper-cased request field. */
  function ParsePayMethod(s: string): (r: Option<PayMethod>)
    ensures r.Some? ==> PayMethodName(r.value) == s
    ensures r.None? ==> forall x :: PayMethodName(x) != s
  {
    if s == "COD" then Some(COD)
    else if s == "CARD" then Some(CARD)
    else if s == "UPI" then Some(UPI)
    else None
  }

  /** Order.paymentStatus: "paid", "cod" or "failed". */
  datatype PayStatus = PaidStatus | CodStatus | FailedStatus

  function PayStatusName(s: PayStatus): string {
    match s
    case PaidStatus => "paid"
    case CodStatus => "cod"
    case FailedStatus => "failed"
  }

  /** The `paymentStatus` enum validator of the Order schema. */
  function ParsePayStatus(s: string): (r: Option<PayStatus>)
    ensures r.Some? ==> PayStatusName(r.value) == s
    ensures r.None? ==> forall x :: PayStatusName(x) != s
  {
    if s == "paid" then Some(PaidStatus)
    else if s == "cod" then Some(CodStatus)
    else if s == "failed" then Some(FailedStatus)
    else None
  }

  /** PaymentMethod.type: "CARD", "UPI" or "BANK". */
  datatype MethodType = CardType | UpiType | BankType

  function MethodTypeName(t: MethodType): string {
    match t
    case CardType => "CARD"
    case UpiType => "UPI"
    case BankType => "BANK"
  }

  /** The `type` enum validator of the PaymentMethod schema. */
  function ParseMethodType(s: string): (r: Option<MethodType>)
    ensures r.Some? ==> MethodTypeName(r.value) == s
    ensures r.None? ==> forall x :: MethodTypeName(x) != s
  {
    if s == "CARD" then Some(CardType)
    else if s == "UPI" then Some(UpiType)
    else if s == "BANK" then Some(BankType)
    else None
  }

  // ---------------------------------------------------------------------------
  // Documents

  /** A user; `email` is unique across users (enforced by signup, which is not
      part of this model). */
  datatype User = User(name: string, email: string, passwordHash: string, role: Role, country: Country)

  /** A menu entry embedded in a restaurant. Every field is optional in the
      schema, and no schema constraint makes `id` unique within a menu. */
  datatype MenuItem = MenuItem(
    id: Option<string>,
    name: Option<string>,
    description: Option<string>,
    price: Option<real>,
    image: Option<string>)

  /** A restaurant. `country` is optional here because a stored document may
      predate the schema default; documents the schema creates always carry it. */
  datatype Restaurant = Restaurant(
    name: string,
    cuisine: Option<string>,
    city: Option<string>,
    country: Option<Country>,
    coverImage: Option<string>,
    menu: seq<MenuItem>,
    categories: seq<string>)

  /** A new Restaurant document with the schema's defaults. */
  function RestaurantDefaults(name: string): (r: Restaurant)
    ensures r.name == name
    ensures r.country == Some(India) && r.categories == [] && r.menu == []
  {
    Restaurant(name, None, None, Some(India), None, [], [])
  }

  /** A saved payment instrument; `details` is the schema's free-form object. */
  datatype PaymentMethod = PaymentMethod(
    nickname: string,
    mtype: MethodType,
    country: Country,
    isDefault: bool,
    details: map<string, string>,
    createdBy: Option<string>)

  /** A new PaymentMethod document with the schema's defaults. */
  function MethodDefaults(nickname: string, country: Country): (m: PaymentMethod)
    ensures m.nickname == nickname && m.country == country
    ensures m.mtype == CardType && !m.isDefault && m.details == map[] && m.createdBy == None
  {
    PaymentMethod(nickname, CardType, country, false, map[], None)
  }

  /** An order line, frozen at checkout. */
  datatype OrderItem = OrderItem(restaurantId: string, itemId: string, name: string, price: real, qty: int)

  datatype Order = Order(
    orderNo: string,
    userId: string,
    restaurantId: string,
    restaurantName: string,
    country: Country,
    items: seq<OrderItem>,
    total: real,
    status: OrderStatus,
    paymentMethod: PayMethod,
    paymentStatus: PayStatus,
    txnId: string,
    paidAt: Option<int>)

  /** A new Order document from its required fields, with the schema's defaults. */
  function OrderDefaults(orderNo: string, userId: string, restaurantId: string, country: Country,
                         paymentMethod: PayMethod, paymentStatus: PayStatus): (o: Order)
    ensures o.orderNo == orderNo && o.userId == userId && o.restaurantId == restaurantId
    ensures o.country == country && o.paymentMethod == paymentMethod && o.paymentStatus == paymentStatus
    ensures o.status == Placed && o.txnId == "" && o.total == 0.0 && o.items == []
    ensures o.restaurantName == "" && o.paidAt == None
  {
    Order(orderNo, userId, restaurantId, "", country, [], 0.0, Placed, paymentMethod, paymentStatus, "", None)
  }

  /** An archive record of a cancelled order. The schema declares no `country`;
      the field holds what the cancel handler writes into it. */
  datatype CancelledOrder = CancelledOrder(
    orderNo: string,
    userId: string,
    items: seq<OrderItem>,
    total: real,
    paymentMethod: Option<PayMethod>,
    paymentStatus: Option<PayStatus>,
    txnId: Option<string>,
    paidAt: Option<int>,
    country: Option<Country>,
    statusAtCancel: Option<OrderStatus>,
    cancelledAt: int,
    cancelledBy: string,
    cancelReason: string)

  /** A new CancelledOrder document from its required fields, with the schema's
      defaults; `now` is the creation time. */
  function ArchiveDefaults(orderNo: string, userId: string, cancelledBy: string, now: int): (a: CancelledOrder)
    ensures a.orderNo == orderNo && a.userId == userId && a.cancelledBy == cancelledBy
    ensures a.items == [] && a.total == 0.0 && a.cancelReason == "" && a.cancelledAt == now
  {
    CancelledOrder(orderNo, userId, [], 0.0, None, None, None, None, None, None, now, cancelledBy, "")
  }
}
