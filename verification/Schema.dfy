/** The tables of the checkout protocol and the single SQL statements that read and change them. */
module Schema {
  import opened Prelude

  /** The canonical text of a UUID: 36 characters, none of them a colon. */
  type UuidText = s: string | |s| == 36 && ':' !in s
    witness "00000000-0000-0000-0000-000000000000"

  datatype VariantId = VariantId(text: UuidText)
  datatype OrderId = OrderId(text: UuidText)
  datatype UserId = UserId(text: UuidText)
  datatype CartId = CartId(text: UuidText)
  datatype QuoteId = QuoteId(text: UuidText)

  // Inventory

  datatype StockRow = StockRow(available: int, reserved: int, version: int)
  type Stock = map<VariantId, StockRow>

  datatype HoldStatus = Held | Committed | Released
  datatype Reservation = Reservation(order: OrderId, variant: VariantId, quantity: int, status: HoldStatus,
                                     expiresAt: int)

  /** What a stock loop works on: a variant and a quantity of it. */
  datatype Pick = Pick(variant: VariantId, quantity: int)

  // Orders, payment

  datatype OrderStatus = PendingPayment | Paid | PaymentFailed | Expired | PaidAwaitingStock
  datatype Order = Order(user: UserId, status: OrderStatus, subtotal: int, shipping: int, discount: int, total: int,
                         coupon: Option<string>)
  type Orders = map<OrderId, Order>
  datatype Item = Item(order: OrderId, variant: VariantId, quantity: int, unitPrice: int)
  datatype Transition = Transition(order: OrderId, from: Option<OrderStatus>, to: OrderStatus, reason: string,
                                   actor: string)

  datatype ChargeStatus = ChargePending | ChargePaid | ChargeFailed
  datatype ChargeRef = ChargeRef(provider: string, chargeId: string)
  datatype Charge = Charge(order: OrderId, payMethod: string, amount: int, status: ChargeStatus)
  type Charges = map<ChargeRef, Charge>
  datatype Event = Event(id: string, kind: string, chargeId: string, amount: int)

  // Checkout

  datatype CouponKind = Fixed | Percent
  datatype Coupon = Coupon(kind: CouponKind, value: int, expiresAt: Option<int>, usageLimit: Option<int>,
                           usedCount: int, minOrder: Option<int>, active: bool)
  type Coupons = map<string, Coupon>

  datatype CartStatus = Active | Merged | Abandoned | Converted
  datatype Owner = User(user: UserId) | Anonymous(session: string)
  datatype Cart = Cart(id: CartId, owner: Owner, status: CartStatus)
  datatype CartItem = CartItem(cart: CartId, variant: VariantId, quantity: int, unitPrice: int)
  datatype CartLine = CartLine(variant: VariantId, quantity: int)

  datatype QuoteLine = QuoteLine(variant: VariantId, quantity: int, unitPrice: int)
  datatype Quote = Quote(id: QuoteId, user: UserId, fingerprint: string, lines: seq<QuoteLine>, coupon: string,
                         subtotal: int, shipping: int, discount: int, total: int, expiresAt: int)

  datatype ChargeView = ChargeView(order: OrderId, amount: int, payMethod: string, provider: string, chargeId: string)
  datatype Plan = Plan(user: UserId, order: OrderId, quote: Quote, charge: ChargeView, key: string,
                       requestHash: QuoteId, holdUntil: int)
  datatype Confirmation = Confirmation(order: OrderId, row: Order, charge: ChargeView)
  datatype KeyRow = KeyRow(requestHash: QuoteId, order: OrderId, response: Confirmation)
  type Keys = map<(UserId, string), KeyRow>

  /** The database. Rows without a lookup key are kept in insertion order. */
  datatype Tables = Tables(stock: Stock, reservations: seq<Reservation>, orders: Orders, items: seq<Item>,
                           charges: Charges, coupons: Coupons, carts: seq<Cart>, cartItems: seq<CartItem>,
                           quotes: map<QuoteId, Quote>, events: set<string>, keys: Keys, log: seq<Transition>)

  const EmptyTables := Tables(map[], [], map[], [], map[], map[], [], [], map[], {}, map[], [])

  // Stock statements. A guarded UPDATE that matches no row leaves the table alone.

  function ReserveRow(stock: Stock, v: VariantId, qty: int): Option<Stock> {
    if v in stock && stock[v].available >= qty
    then Some(stock[v := StockRow(stock[v].available - qty, stock[v].reserved + qty, stock[v].version + 1)])
    else None
  }

  /** The guard that CommitReservedStock and ReleaseReservedStock share. */
  predicate GuardMatches(stock: Stock, p: Pick) {
    p.variant in stock && stock[p.variant].reserved >= p.quantity
  }

  function ReleaseRow(stock: Stock, p: Pick): Stock {
    if GuardMatches(stock, p)
    then var row := stock[p.variant];
         stock[p.variant := StockRow(row.available + p.quantity, row.reserved - p.quantity, row.version + 1)]
    else stock
  }

  function CommitRow(stock: Stock, p: Pick): Stock {
    if GuardMatches(stock, p)
    then var row := stock[p.variant];
         stock[p.variant := StockRow(row.available, row.reserved - p.quantity, row.version + 1)]
    else stock
  }

  /** A guard that misses leaves its table alone; the stock guards miss exactly when too little is reserved. */
  lemma MissedGuards(stock: Stock, p: Pick, coupons: Coupons, code: string, orders: Orders, o: OrderId,
                     from: OrderStatus, to: OrderStatus)
    ensures p.variant !in stock || stock[p.variant].reserved < p.quantity ==>
              ReleaseRow(stock, p) == CommitRow(stock, p) == stock
    ensures code !in coupons || coupons[code].usedCount <= 0 ==> ReleaseUse(coupons, code) == coupons
    ensures o !in orders || orders[o].status != from ==> TransitionRow(orders, o, from, to) == orders
  {
  }

  datatype StockError = StockConflict | NegativeStock

  /** A first row for the variant, or a new available quantity for the row at the expected version. */
  function UpsertRow(stock: Stock, v: VariantId, available: int, expected: int): Result<Stock, StockError> {
    if available < 0 then Err(NegativeStock)
    else if v !in stock then Ok(stock[v := StockRow(available, 0, 0)])
    else if stock[v].version != expected then Err(StockConflict)
    else Ok(stock[v := StockRow(available, stock[v].reserved, stock[v].version + 1)])
  }

  // Reservation statements

  function OfOrder(rows: seq<Reservation>, o: OrderId): seq<Reservation> {
    if rows == [] then []
    else
      var init, r := OfOrder(rows[..|rows| - 1], o), rows[|rows| - 1];
      if r.order == o then init + [r] else init
  }

  function SettleRow(o: OrderId, to: HoldStatus): Reservation -> Reservation {
    (r: Reservation) => if r.order == o && r.status == Held then r.(status := to) else r
  }

  /** SetReservationStatus: every held row of the order. */
  function Settle(rows: seq<Reservation>, o: OrderId, to: HoldStatus): seq<Reservation> {
    Mapped(rows, SettleRow(o, to))
  }

  /** The same rows, where a held row of the order has the new status and every other row is as it was. */
  function Marked(rows: seq<Reservation>, o: OrderId, to: HoldStatus): seq<Reservation> {
    seq(|rows|, i requires 0 <= i < |rows| =>
      if rows[i].order == o && rows[i].status == Held
      then Reservation(o, rows[i].variant, rows[i].quantity, to, rows[i].expiresAt) else rows[i])
  }

  /** Settling marks exactly the order's held rows, with exactly the status asked for. */
  lemma SettleMarks(rows: seq<Reservation>, o: OrderId, to: HoldStatus)
    ensures Settle(rows, o, to) == Marked(rows, o, to)
  {
    forall i | 0 <= i < |rows| ensures Settle(rows, o, to)[i] == Marked(rows, o, to)[i] {
    }
  }

  // Coupon statements

  predicate Redeemable(c: Coupon, now: int) {
    && c.active
    && (c.usageLimit.Some? ==> c.usedCount < c.usageLimit.value)
    && (c.expiresAt.Some? ==> c.expiresAt.value > now)
  }

  function RedeemRow(coupons: Coupons, code: string, now: int): Option<Coupons> {
    if code in coupons && Redeemable(coupons[code], now)
    then Some(coupons[code := coupons[code].(usedCount := coupons[code].usedCount + 1)])
    else None
  }

  function ReleaseUse(coupons: Coupons, code: string): Coupons {
    if code in coupons && coupons[code].usedCount > 0
    then coupons[code := coupons[code].(usedCount := coupons[code].usedCount - 1)]
    else coupons
  }

  // Order, charge and cart statements

  function TransitionRow(orders: Orders, o: OrderId, from: OrderStatus, to: OrderStatus): Orders {
    if o in orders && orders[o].status == from then orders[o := orders[o].(status := to)] else orders
  }

  predicate HasPaidCharge(charges: Charges, o: OrderId) {
    exists k :: k in charges && charges[k].order == o && charges[k].status == ChargePaid
  }

  function SetChargeRow(charges: Charges, k: ChargeRef, status: ChargeStatus): Charges {
    if k in charges then charges[k := charges[k].(status := status)] else charges
  }

  /** The owner's active cart; the unique index allows one at most. */
  function ActiveCart(carts: seq<Cart>, owner: Owner): Option<CartId> {
    if carts == [] then None
    else
      var last := carts[|carts| - 1];
      if last.owner == owner && last.status == Active then Some(last.id) else ActiveCart(carts[..|carts| - 1], owner)
  }

  function SetCartRow(id: CartId, status: CartStatus): Cart -> Cart {
    (c: Cart) => if c.id == id then c.(status := status) else c
  }

  function SetCartStatus(carts: seq<Cart>, id: CartId, status: CartStatus): seq<Cart> {
    Mapped(carts, SetCartRow(id, status))
  }

  function LinesOf(items: seq<CartItem>, cart: CartId): seq<CartItem> {
    if items == [] then []
    else
      var init, it := LinesOf(items[..|items| - 1], cart), items[|items| - 1];
      if it.cart == cart then init + [it] else init
  }
}
