/** What holds between the tables in every reachable state, and how one order's move keeps it. */
module Invariants {
  import opened Prelude
  import opened Schema
  import opened Money
  import opened Protocol
  import opened Ledger

  // Orders, items and held stock

  function OrderedQty(o: OrderId, v: VariantId): Item -> int {
    (it: Item) => if it.order == o && it.variant == v then it.quantity else 0
  }

  /** Quantity of v in the items of an order. */
  function Ordered(items: seq<Item>, o: OrderId, v: VariantId): int {
    Sum(items, OrderedQty(o, v))
  }

  ghost predicate ItemsKnown(orders: Orders, items: seq<Item>, stock: Stock) {
    forall it :: it in items ==> it.order in orders && ItemAllowed(it) && it.variant in stock
  }

  /** Only pending orders hold stock, and they hold exactly their items, variant by variant. */
  ghost predicate HoldsMatch(orders: Orders, rows: seq<Reservation>, items: seq<Item>) {
    && (forall r :: r in rows ==> r.order in orders && (r.status == Held ==> orders[r.order].status == PendingPayment))
    && (forall o, v :: o in orders && orders[o].status == PendingPayment ==> HeldOf(rows, o, v) == Ordered(items, o, v))
  }

  function SoldQty(orders: Orders, v: VariantId): Item -> int {
    (it: Item) => if it.variant == v && it.order in orders && orders[it.order].status == Paid then it.quantity else 0
  }

  /** Quantity of v in the items of all paid orders. */
  function SoldTotal(orders: Orders, items: seq<Item>, v: VariantId): int {
    Sum(items, SoldQty(orders, v))
  }

  /** Available, reserved and sold quantity of a variant together. */
  function Balance(t: Tables, v: VariantId): int {
    (if v in t.stock then t.stock[v].available + t.stock[v].reserved else 0) + SoldTotal(t.orders, t.items, v)
  }

  // Charges

  predicate Agree(charge: ChargeStatus, order: OrderStatus) {
    match charge
    case ChargePaid => order == Paid || order == PaidAwaitingStock
    case ChargeFailed => order == PaymentFailed
    case ChargePending => order == PendingPayment || order == Expired
  }

  /** Every order has exactly one charge, for its total, whose status follows the order's. */
  ghost predicate ChargesAgree(orders: Orders, charges: Charges) {
    && (forall k :: k in charges ==>
          && charges[k].order in orders
          && charges[k].amount == orders[charges[k].order].total
          && Agree(charges[k].status, orders[charges[k].order].status))
    && (forall k, k' :: k in charges && k' in charges && charges[k].order == charges[k'].order ==> k == k')
    && (forall o :: o in orders ==> exists k :: k in charges && charges[k].order == o)
  }

  // Audit log

  function LogOf(log: seq<Transition>, o: OrderId): seq<Transition> {
    if log == [] then []
    else
      var init, e := LogOf(log[..|log| - 1], o), log[|log| - 1];
      if e.order == o then init + [e] else init
  }

  /** A chain of permitted moves from nothing over pending_payment to the given status. */
  ghost predicate Chain(c: seq<Transition>, status: OrderStatus) {
    && c != []
    && c[0].from == None && c[0].to == PendingPayment
    && (forall i, j :: 0 <= i && j == i + 1 && j < |c| ==>
          c[j].from == Some(c[i].to) && CanTransition(c[i].to, c[j].to))
    && c[|c| - 1].to == status
  }

  ghost predicate LogReplays(orders: Orders, log: seq<Transition>) {
    && (forall i :: 0 <= i < |log| ==> log[i].order in orders)
    && (forall o :: o in orders ==> Chain(LogOf(log, o), orders[o].status))
  }

  // Coupons

  /** The order has at some time expired or failed, and so given its coupon use back. */
  ghost predicate GaveBack(log: seq<Transition>, o: OrderId) {
    exists e :: e in log && e.order == o && (e.to == Expired || e.to == PaymentFailed)
  }

  ghost function CouponUsers(orders: Orders, log: seq<Transition>, code: string): set<OrderId> {
    set o | o in orders && orders[o].coupon == Some(code) && !GaveBack(log, o)
  }

  ghost predicate WithinLimit(c: Coupon) {
    c.usageLimit.Some? ==> c.usedCount <= (if c.usageLimit.value >= 0 then c.usageLimit.value else 0)
  }

  ghost predicate CouponsCount(orders: Orders, log: seq<Transition>, coupons: Coupons) {
    && (forall code :: code in coupons ==>
          coupons[code].usedCount == |CouponUsers(orders, log, code)| && WithinLimit(coupons[code]))
    && (forall o :: o in orders && orders[o].coupon.Some? ==> orders[o].coupon.value in coupons)
  }

  /** Orders in these statuses still have, or have been charged, the discounted total. */
  predicate KeepsDiscount(s: OrderStatus) {
    s == PendingPayment || s == Paid || s == PaidAwaitingStock
  }

  /** The orders that enjoy the coupon. */
  ghost function Discounted(orders: Orders, code: string): set<OrderId> {
    set o | o in orders && orders[o].coupon == Some(code) && KeepsDiscount(orders[o].status)
  }

  /** Those of them that gave their use back before they were paid. */
  ghost function LatePaid(orders: Orders, log: seq<Transition>, code: string): set<OrderId> {
    set o | o in Discounted(orders, code) && GaveBack(log, o)
  }

  // Idempotency keys and carts

  /** Keys and orders correspond one to one, and each key remembers the order as it was confirmed. */
  ghost predicate KeysMatch(orders: Orders, keys: Keys) {
    && (forall k :: k in keys ==>
          && keys[k].order in orders
          && orders[keys[k].order].user == k.0
          && keys[k].response.order == keys[k].order
          && keys[k].response.row == orders[keys[k].order].(status := PendingPayment))
    && (forall k, k' :: k in keys && k' in keys && keys[k].order == keys[k'].order ==> k == k')
    && (forall o :: o in orders ==> exists k :: k in keys && keys[k].order == o)
  }

  /** Cart ids are unique and an owner has one active cart at most. */
  ghost predicate CartsUnique(carts: seq<Cart>) {
    && (forall i, j :: 0 <= i < j < |carts| ==> carts[i].id != carts[j].id)
    && (forall i, j :: 0 <= i < j < |carts| && carts[i].status == Active && carts[j].status == Active
                       ==> carts[i].owner != carts[j].owner)
  }

  function ConvertedOne(u: UserId): Cart -> int {
    (c: Cart) => if c.owner == User(u) && c.status == Converted then 1 else 0
  }

  function OrdersOf(orders: Orders, u: UserId): set<OrderId> {
    set o | o in orders && orders[o].user == u
  }

  /** Every user has as many orders as converted carts. */
  ghost predicate CartsMatch(orders: Orders, carts: seq<Cart>) {
    CartsUnique(carts) && forall u :: |OrdersOf(orders, u)| == Sum(carts, ConvertedOne(u))
  }

  // Money

  function ItemValue(o: OrderId): Item -> int {
    (it: Item) => if it.order == o then it.unitPrice * it.quantity else 0
  }

  /** Exact value of the goods of an order. */
  function Goods(items: seq<Item>, o: OrderId): int {
    Sum(items, ItemValue(o))
  }

  /** The amounts of an order fit its items, each as long as, and only while, the exact amount fits in 64 bits. */
  ghost predicate Priced(o: Order, goods: int) {
    && 0 <= o.discount <= o.subtotal && o.shipping >= 0
    && (o.subtotal == goods <==> goods <= MAX_INT64)
    && (o.total == o.subtotal + o.shipping - o.discount <==> o.subtotal + o.shipping - o.discount <= MAX_INT64)
  }

  ghost predicate MoneyMatches(orders: Orders, items: seq<Item>) {
    forall o :: o in orders ==> Priced(orders[o], Goods(items, o))
  }

  /** The invariant of the checkout protocol. */
  ghost predicate Consistent(t: Tables) {
    && Backed(t.stock, t.reservations)
    && ItemsKnown(t.orders, t.items, t.stock)
    && HoldsMatch(t.orders, t.reservations, t.items)
    && ChargesAgree(t.orders, t.charges)
    && LogReplays(t.orders, t.log)
    && CouponsCount(t.orders, t.log, t.coupons)
    && KeysMatch(t.orders, t.keys)
    && CartsMatch(t.orders, t.carts)
    && MoneyMatches(t.orders, t.items)
  }

  // One order changes its status

  function Moved(orders: Orders, o: OrderId, to: OrderStatus): Orders
    requires o in orders
  {
    orders[o := orders[o].(status := to)]
  }

  /** Keys, carts, amounts and items do not look at the status. */
  lemma StatusIsFree(orders: Orders, o: OrderId, to: OrderStatus, keys: Keys, carts: seq<Cart>, items: seq<Item>,
                     stock: Stock)
    requires o in orders
    ensures KeysMatch(orders, keys) ==> KeysMatch(Moved(orders, o, to), keys)
    ensures CartsMatch(orders, carts) ==> CartsMatch(Moved(orders, o, to), carts)
    ensures MoneyMatches(orders, items) ==> MoneyMatches(Moved(orders, o, to), items)
    ensures ItemsKnown(orders, items, stock) ==> ItemsKnown(Moved(orders, o, to), items, stock)
  {
    KeysFree(orders, o, to, keys);
    CartsFree(orders, o, to, carts);
    hide KeysMatch, CartsMatch;
  }

  lemma KeysFree(orders: Orders, o: OrderId, to: OrderStatus, keys: Keys)
    requires o in orders
    ensures KeysMatch(orders, keys) ==> KeysMatch(Moved(orders, o, to), keys)
  {
  }

  lemma CartsFree(orders: Orders, o: OrderId, to: OrderStatus, carts: seq<Cart>)
    requires o in orders
    ensures CartsMatch(orders, carts) ==> CartsMatch(Moved(orders, o, to), carts)
  {
    hide CartsUnique;
    forall u ensures OrdersOf(Moved(orders, o, to), u) == OrdersOf(orders, u) {
    }
  }

  lemma ItemsStayKnown(orders: Orders, items: seq<Item>, stock: Stock, stock': Stock)
    requires ItemsKnown(orders, items, stock) && stock.Keys <= stock'.Keys
    ensures ItemsKnown(orders, items, stock')
  {
  }

  lemma SettledHoldsMatch(orders: Orders, rows: seq<Reservation>, items: seq<Item>, o: OrderId, to: OrderStatus,
                          st: HoldStatus)
    requires HoldsMatch(orders, rows, items) && o in orders && to != PendingPayment && st != Held
    ensures HoldsMatch(Moved(orders, o, to), Settle(rows, o, st), items)
  {
    SettledRows(rows, o, st);
    forall x, v | x in orders && x != o && orders[x].status == PendingPayment
      ensures HeldOf(Settle(rows, o, st), x, v) == Ordered(items, x, v)
    {
      SettledOf(rows, o, st, x, v);
    }
  }

  /** The order's only charge follows the order. */
  lemma ChargeFollows(orders: Orders, charges: Charges, k: ChargeRef, to: OrderStatus, status: ChargeStatus)
    requires ChargesAgree(orders, charges) && k in charges && Agree(status, to)
    ensures ChargesAgree(Moved(orders, charges[k].order, to), SetChargeRow(charges, k, status))
  {
    var charges' := SetChargeRow(charges, k, status);
    forall o | o in orders ensures exists k' :: k' in charges' && charges'[k'].order == o {
      var k' :| k' in charges && charges[k'].order == o;
      assert k' in charges' && charges'[k'].order == o;
    }
  }

  lemma {:induction false} LogOfKeeps(log: seq<Transition>, o: OrderId)
    ensures forall e :: e in LogOf(log, o) <==> e in log && e.order == o
  {
    if log == [] {
    } else {
      LogOfKeeps(log[..|log| - 1], o);
      assert log == log[..|log| - 1] + [log[|log| - 1]];
    }
  }

  lemma LogOfAppend(log: seq<Transition>, e: Transition, o: OrderId)
    ensures LogOf(log + [e], o) == if e.order == o then LogOf(log, o) + [e] else LogOf(log, o)
  {
    assert (log + [e])[..|log|] == log;
  }

  lemma ChainGrows(c: seq<Transition>, status: OrderStatus, e: Transition)
    requires Chain(c, status) && e.from == Some(status) && CanTransition(status, e.to)
    ensures Chain(c + [e], e.to)
  {
    var c' := c + [e];
    forall i, j | 0 <= i && j == i + 1 && j < |c'|
      ensures c'[j].from == Some(c'[i].to) && CanTransition(c'[i].to, c'[j].to)
    {
      if j < |c| {
        assert c'[i] == c[i] && c'[j] == c[j];
      }
    }
  }

  lemma MoveIsLogged(orders: Orders, log: seq<Transition>, e: Transition)
    requires LogReplays(orders, log) && e.order in orders
    requires e.from == Some(orders[e.order].status) && CanTransition(orders[e.order].status, e.to)
    ensures LogReplays(Moved(orders, e.order, e.to), log + [e])
  {
    ChainGrows(LogOf(log, e.order), orders[e.order].status, e);
    forall o | o in orders ensures Chain(LogOf(log + [e], o), Moved(orders, e.order, e.to)[o].status) {
      LogOfAppend(log, e, o);
    }
  }

  /** No move leads back to pending_payment, so a chain that ends there has one entry. */
  lemma PendingChain(c: seq<Transition>)
    requires Chain(c, PendingPayment)
    ensures c == [c[0]]
  {
    var last := |c| - 1;
    assert last > 0 ==> CanTransition(c[last - 1].to, c[last].to);
  }

  /** A pending order has one log entry and still owns its coupon use. */
  lemma PendingIsFresh(orders: Orders, log: seq<Transition>, o: OrderId)
    requires LogReplays(orders, log) && o in orders && orders[o].status == PendingPayment
    ensures !GaveBack(log, o)
  {
    LogOfKeeps(log, o);
    PendingChain(LogOf(log, o));
    forall e | e in log && e.order == o ensures e.to == PendingPayment {
      assert e in LogOf(log, o);
    }
  }

  lemma GaveBackAppend(log: seq<Transition>, e: Transition, o: OrderId)
    ensures GaveBack(log + [e], o) <==> GaveBack(log, o) || (e.order == o && (e.to == Expired || e.to == PaymentFailed))
  {
    assert e in log + [e];
    assert forall x :: x in log ==> x in log + [e];
  }

  /** Expiry and failure give the coupon use back; the guard on the counter always matches. */
  lemma UseGivenBack(orders: Orders, log: seq<Transition>, coupons: Coupons, e: Transition)
    requires CouponsCount(orders, log, coupons)
    requires e.order in orders && !GaveBack(log, e.order) && (e.to == Expired || e.to == PaymentFailed)
    ensures CouponsCount(Moved(orders, e.order, e.to), log + [e], ReleaseCouponOf(coupons, orders, e.order))
    ensures orders[e.order].coupon.Some? ==>
              orders[e.order].coupon.value in coupons && coupons[orders[e.order].coupon.value].usedCount > 0
  {
    forall code | code in coupons
      ensures |CouponUsers(Moved(orders, e.order, e.to), log + [e], code)|
           == coupons[code].usedCount - (if orders[e.order].coupon == Some(code) then 1 else 0)
    {
      CounterFalls(orders, log, coupons, e, code);
    }
    if orders[e.order].coupon.Some? {
      CounterFalls(orders, log, coupons, e, orders[e.order].coupon.value);
    }
  }

  lemma CounterFalls(orders: Orders, log: seq<Transition>, coupons: Coupons, e: Transition, code: string)
    requires CouponsCount(orders, log, coupons) && code in coupons
    requires e.order in orders && !GaveBack(log, e.order) && (e.to == Expired || e.to == PaymentFailed)
    ensures |CouponUsers(Moved(orders, e.order, e.to), log + [e], code)|
         == coupons[code].usedCount - (if orders[e.order].coupon == Some(code) then 1 else 0)
  {
    UserRemoved(orders, log, e, code);
    assert e.order in CouponUsers(orders, log, code) <==> orders[e.order].coupon == Some(code);
  }

  lemma UserRemoved(orders: Orders, log: seq<Transition>, e: Transition, code: string)
    requires e.order in orders && (e.to == Expired || e.to == PaymentFailed)
    ensures CouponUsers(Moved(orders, e.order, e.to), log + [e], code) == CouponUsers(orders, log, code) - {e.order}
  {
    forall o ensures GaveBack(log + [e], o) == (GaveBack(log, o) || o == e.order) {
      GaveBackAppend(log, e, o);
    }
  }

  /** Payment leaves the counters alone, also the late payment of an order whose use was given back. */
  lemma UseKept(orders: Orders, log: seq<Transition>, coupons: Coupons, e: Transition)
    requires CouponsCount(orders, log, coupons) && e.order in orders && e.to != Expired && e.to != PaymentFailed
    ensures CouponsCount(Moved(orders, e.order, e.to), log + [e], coupons)
  {
    forall code | code in coupons
      ensures CouponUsers(Moved(orders, e.order, e.to), log + [e], code) == CouponUsers(orders, log, code)
    {
      forall o ensures GaveBack(log + [e], o) == GaveBack(log, o) {
        GaveBackAppend(log, e, o);
      }
    }
  }
}
