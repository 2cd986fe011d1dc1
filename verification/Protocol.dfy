/**
 * What each transaction does to the tables: confirm, payment webhook, expiry, and the inventory repository's own
 * operations. These are total functions; a transaction that fails returns an error and the tables stay as they were.
 */
module Protocol {
  import opened Prelude
  import opened Schema
  import opened StockLoops
  import opened Money

  /** The transition table of the ordering module. No writer consults it. */
  predicate CanTransition(from: OrderStatus, to: OrderStatus) {
    match from
    case PendingPayment => to == Paid || to == PaymentFailed || to == Expired
    case Expired => to == Paid || to == PaidAwaitingStock
    case _ => false
  }

  /** The held rows of an order, as the commit and release loops visit them. */
  function HeldPicks(rows: seq<Reservation>, o: OrderId): seq<Pick> {
    if rows == [] then []
    else
      var init, r := HeldPicks(rows[..|rows| - 1], o), rows[|rows| - 1];
      if r.order == o && r.status == Held then init + [Pick(r.variant, r.quantity)] else init
  }

  /** The items of an order, as the savepoint loop visits them before sorting. */
  function ItemPicks(items: seq<Item>, o: OrderId): seq<Pick> {
    if items == [] then []
    else
      var init, it := ItemPicks(items[..|items| - 1], o), items[|items| - 1];
      if it.order == o then init + [Pick(it.variant, it.quantity)] else init
  }

  // Confirm

  function LinePick(l: QuoteLine): Pick {
    Pick(l.variant, Int32(l.quantity))
  }

  function LineItem(o: OrderId): QuoteLine -> Item {
    (l: QuoteLine) => Item(o, l.variant, Int32(l.quantity), l.unitPrice)
  }

  /** CHECK constraints of order_items. */
  predicate ItemAllowed(it: Item) {
    0 < it.quantity <= 99 && it.unitPrice >= 0
  }

  /** CHECK constraints of orders. */
  predicate OrderAllowed(o: Order) {
    o.subtotal >= 0 && o.shipping >= 0 && o.discount >= 0 && o.total >= 0
  }

  function NewOrder(plan: Plan): Order {
    Order(plan.user, PendingPayment, plan.quote.subtotal, plan.quote.shipping, plan.quote.discount, plan.quote.total,
          if plan.quote.coupon == "" then None else Some(plan.quote.coupon))
  }

  function NewCharge(plan: Plan): Charge {
    Charge(plan.order, plan.charge.payMethod, plan.charge.amount, ChargePending)
  }

  function RefOf(plan: Plan): ChargeRef {
    ChargeRef(plan.charge.provider, plan.charge.chargeId)
  }

  function Answer(plan: Plan): Confirmation {
    Confirmation(plan.order, NewOrder(plan), plan.charge)
  }

  /** Ends at the first line that a CHECK constraint refuses. */
  function InsertItems(items: seq<Item>, o: OrderId, lines: seq<QuoteLine>): (r: Result<seq<Item>, ConfirmError>)
    ensures r.Err? ==> r.error == ConstraintViolation
  {
    if lines == [] then Ok(items)
    else
      var done :- InsertItems(items, o, lines[..|lines| - 1]);
      var it := LineItem(o)(lines[|lines| - 1]);
      if ItemAllowed(it) then Ok(done + [it]) else Err(ConstraintViolation)
  }

  function RedeemIfAny(coupons: Coupons, code: string, now: int): Result<Coupons, ConfirmError> {
    if code == "" then Ok(coupons)
    else
      match RedeemRow(coupons, code, now)
      case None => Err(CouponUnavailable)
      case Some(c) => Ok(c)
  }

  /** The order row, the stock with its reservations, and the items. */
  function PlaceOrder(t: Tables, plan: Plan): Result<Tables, ConfirmError> {
    if plan.order in t.orders || !OrderAllowed(NewOrder(plan)) then Err(ConstraintViolation)
    else
      var picks := LockOrder(Mapped(plan.quote.lines, LinePick));
      var held :- PlaceHolds(t.stock, t.reservations, plan.order, picks, plan.holdUntil);
      var items :- InsertItems(t.items, plan.order, plan.quote.lines);
      Ok(t.(stock := held.0, reservations := held.1, orders := t.orders[plan.order := NewOrder(plan)], items := items))
  }

  /** Coupon use, cart conversion, charge, idempotency key and first log entry. */
  function CloseConfirm(t: Tables, plan: Plan, cart: CartId, now: int): Result<Tables, ConfirmError> {
    var coupons :- RedeemIfAny(t.coupons, plan.quote.coupon, now);
    if RefOf(plan) in t.charges || plan.charge.amount < 0 then Err(ConstraintViolation)
    else if (plan.user, plan.key) in t.keys then Err(KeyConflict)
    else Ok(t.(
      coupons := coupons,
      carts := SetCartStatus(t.carts, cart, Converted),
      charges := t.charges[RefOf(plan) := NewCharge(plan)],
      keys := t.keys[(plan.user, plan.key) := KeyRow(plan.requestHash, plan.order, Answer(plan))],
      log := t.log + [Transition(plan.order, None, PendingPayment, "checkout_confirmed", "system")]))
  }

  function ConfirmTx(t: Tables, plan: Plan, now: int): Result<Tables, ConfirmError> {
    match ActiveCart(t.carts, User(plan.user))
    case None => Err(CartChanged)
    case Some(cart) =>
      var placed :- PlaceOrder(t, plan);
      CloseConfirm(placed, plan, cart, now)
  }

  // Payment webhook and expiry

  /** TransitionOrderStatus followed by RecordTransition; the row count of the first is not looked at. */
  function Move(t: Tables, o: OrderId, from: OrderStatus, to: OrderStatus, reason: string, actor: string): Tables {
    t.(orders := TransitionRow(t.orders, o, from, to), log := t.log + [Transition(o, Some(from), to, reason, actor)])
  }

  function ReleaseCouponOf(coupons: Coupons, orders: Orders, o: OrderId): Coupons {
    if o in orders && orders[o].coupon.Some? then ReleaseUse(coupons, orders[o].coupon.value) else coupons
  }

  /** Held stock goes back to available, the held rows become released, the coupon use is given back. */
  function GiveBack(t: Tables, o: OrderId): Tables {
    t.(stock := ReleaseAll(t.stock, HeldPicks(t.reservations, o)),
       reservations := Settle(t.reservations, o, Released),
       coupons := ReleaseCouponOf(t.coupons, t.orders, o))
  }

  function Charged(t: Tables, k: ChargeRef, status: ChargeStatus): Tables {
    t.(charges := SetChargeRow(t.charges, k, status))
  }

  function FailPending(t: Tables, k: ChargeRef, o: OrderId): Tables {
    Move(Charged(GiveBack(t, o), k, ChargeFailed), o, PendingPayment, PaymentFailed, "charge_failed", "webhook")
  }

  function PayPending(t: Tables, k: ChargeRef, o: OrderId): Tables {
    var t1 := t.(stock := CommitAll(t.stock, HeldPicks(t.reservations, o)),
                 reservations := Settle(t.reservations, o, Committed));
    Move(Charged(t1, k, ChargePaid), o, PendingPayment, Paid, "charge_paid", "webhook")
  }

  /** Payment after expiry: sell the items again inside a savepoint, or park the order when stock is short. */
  function PayExpired(t: Tables, k: ChargeRef, o: OrderId): Tables {
    match SellAll(t.stock, LockOrder(ItemPicks(t.items, o)))
    case Some(s) =>
      Move(Charged(t.(stock := s), k, ChargePaid), o, Expired, Paid, "charge_paid_after_expiry", "webhook")
    case None => Move(Charged(t, k, ChargePaid), o, Expired, PaidAwaitingStock, "paid_no_stock", "webhook")
  }

  datatype ApplyError = OrderMissing

  function Apply(t: Tables, ev: Event): Result<Tables, ApplyError> {
    if ev.id in t.events then Ok(t)
    else
      var t1 := t.(events := t.events + {ev.id});
      var k := ChargeRef("mock", ev.chargeId);
      if k !in t1.charges then Ok(t1)
      else
        var charge := t1.charges[k];
        if charge.order !in t1.orders then Err(OrderMissing)
        else
          var ord := t1.orders[charge.order];
          if ev.amount != charge.amount || charge.amount != ord.total then Ok(t1)
          else if ev.kind == "failed" then
            if ord.status == PendingPayment then Ok(FailPending(t1, k, charge.order)) else Ok(t1)
          else if ev.kind == "paid" then
            match ord.status
            case PendingPayment => Ok(PayPending(t1, k, charge.order))
            case Expired => Ok(PayExpired(t1, k, charge.order))
            case _ => Ok(t1)
          else Ok(t1)
  }

  /** One iteration of the sweep: None when the transaction is rolled back. */
  function ExpireOrder(t: Tables, o: OrderId): Option<Tables> {
    if HasPaidCharge(t.charges, o) then None
    else if o !in t.orders || t.orders[o].status != PendingPayment then None
    else Some(Move(GiveBack(t, o), o, PendingPayment, Expired, "reservation_expired", "job"))
  }

  /** The orders with a held row that ran out before now, each once. */
  function ExpiredIds(rows: seq<Reservation>, now: int): (ids: seq<OrderId>)
    ensures forall o :: o in ids <==> exists r :: r in rows && r.order == o && r.status == Held && r.expiresAt < now
    ensures forall i, j :: 0 <= i < j < |ids| ==> ids[i] != ids[j]
  {
    if rows == [] then []
    else
      var r, ids := rows[|rows| - 1], ExpiredIds(rows[..|rows| - 1], now);
      assert rows == rows[..|rows| - 1] + [r];
      if r.status == Held && r.expiresAt < now && r.order !in ids then ids + [r.order] else ids
  }

  function SweepOrders(t: Tables, ids: seq<OrderId>): (Tables, nat) {
    if ids == [] then (t, 0)
    else
      var done := SweepOrders(t, ids[..|ids| - 1]);
      match ExpireOrder(done.0, ids[|ids| - 1])
      case None => done
      case Some(t') => (t', done.1 + 1)
  }

  /** An uninterrupted run of the expiry job. */
  function Sweep(t: Tables, now: int): (Tables, nat) {
    SweepOrders(t, ExpiredIds(t.reservations, now))
  }

  // The inventory repository's own transactions

  function RepositoryReserve(t: Tables, picks: seq<Pick>, o: OrderId, expiresAt: int): Result<Tables, ConfirmError> {
    var narrowed := Mapped(LockOrder(picks), NarrowPick);
    var held :- PlaceHolds(t.stock, t.reservations, o, narrowed, expiresAt);
    Ok(t.(stock := held.0, reservations := held.1))
  }

  function NarrowPick(p: Pick): Pick {
    Pick(p.variant, Int32(p.quantity))
  }

  function RepositoryResolve(t: Tables, o: OrderId, to: HoldStatus): Tables {
    var picks := HeldPicks(t.reservations, o);
    t.(stock := match to
                case Committed => CommitAll(t.stock, picks)
                case Released => ReleaseAll(t.stock, picks)
                case Held => t.stock,
       reservations := Settle(t.reservations, o, to))
  }

  function SetStock(t: Tables, v: VariantId, available: int, expected: int): Result<Tables, StockError> {
    var s :- UpsertRow(t.stock, v, Int32(available), Int32(expected));
    Ok(t.(stock := s))
  }
}
