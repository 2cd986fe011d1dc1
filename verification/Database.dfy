/**
 * The database object and the transactions that change it. Every method is proved to do exactly what the functions of
 * Protocol say, from any state.
 */
module Database {
  import opened Prelude
  import opened Schema
  import opened Text
  import opened StockLoops
  import opened Protocol

  class Db {
    var stock: Stock
    var reservations: seq<Reservation>
    var orders: Orders
    var items: seq<Item>
    var charges: Charges
    var coupons: Coupons
    var carts: seq<Cart>
    var cartItems: seq<CartItem>
    var quotes: map<QuoteId, Quote>
    var events: set<string>
    var keys: Keys
    var log: seq<Transition>

    function View(): Tables
      reads this
    {
      Tables(stock, reservations, orders, items, charges, coupons, carts, cartItems, quotes, events, keys, log)
    }

    constructor ()
      ensures View() == EmptyTables
    {
      stock, reservations, orders, items, charges, coupons := map[], [], map[], [], map[], map[];
      carts, cartItems, quotes, events, keys, log := [], [], map[], {}, map[], [];
    }

    /** ROLLBACK: every table goes back to the saved copy. */
    method Restore(t: Tables)
      modifies this
      ensures View() == t
    {
      RestoreOrders(t);
      RestoreCheckout(t);
    }

    method RestoreOrders(t: Tables)
      modifies this`stock, this`reservations, this`orders, this`items, this`charges, this`log
      ensures stock == t.stock && reservations == t.reservations && orders == t.orders
      ensures items == t.items && charges == t.charges && log == t.log
    {
      stock, reservations, orders, items, charges, log := t.stock, t.reservations, t.orders, t.items, t.charges, t.log;
    }

    method RestoreCheckout(t: Tables)
      modifies this`coupons, this`carts, this`cartItems, this`quotes, this`events, this`keys
      ensures coupons == t.coupons && carts == t.carts && cartItems == t.cartItems
      ensures quotes == t.quotes && events == t.events && keys == t.keys
    {
      coupons, carts, cartItems, quotes, events, keys := t.coupons, t.carts, t.cartItems, t.quotes, t.events, t.keys;
    }

    // Statements

    method ReserveStock(v: VariantId, qty: int) returns (found: bool)
      modifies this`stock
      ensures found == ReserveRow(old(stock), v, qty).Some?
      ensures stock == if found then ReserveRow(old(stock), v, qty).value else old(stock)
    {
      found := v in stock && stock[v].available >= qty;
      if found {
        var row := stock[v];
        stock := stock[v := StockRow(row.available - qty, row.reserved + qty, row.version + 1)];
      }
    }

    method CommitReservedStock(v: VariantId, qty: int)
      modifies this`stock
      ensures stock == CommitRow(old(stock), Pick(v, qty))
    {
      if v in stock && stock[v].reserved >= qty {
        var row := stock[v];
        stock := stock[v := StockRow(row.available, row.reserved - qty, row.version + 1)];
      }
    }

    method ReleaseReservedStock(v: VariantId, qty: int)
      modifies this`stock
      ensures stock == ReleaseRow(old(stock), Pick(v, qty))
    {
      if v in stock && stock[v].reserved >= qty {
        var row := stock[v];
        stock := stock[v := StockRow(row.available + qty, row.reserved - qty, row.version + 1)];
      }
    }

    method TransitionOrderStatus(o: OrderId, from: OrderStatus, to: OrderStatus) returns (rows: nat)
      modifies this`orders
      ensures orders == TransitionRow(old(orders), o, from, to)
      ensures rows == if o in old(orders) && old(orders)[o].status == from then 1 else 0
    {
      rows := 0;
      if o in orders && orders[o].status == from {
        orders := orders[o := orders[o].(status := to)];
        rows := 1;
      }
    }

    method RecordTransition(entry: Transition)
      modifies this`log
      ensures log == old(log) + [entry]
    {
      log := log + [entry];
    }

    method InsertWebhookEvent(id: string) returns (rows: nat)
      modifies this`events
      ensures events == old(events) + {id}
      ensures rows == if id in old(events) then 0 else 1
    {
      rows := if id in events then 0 else 1;
      events := events + {id};
    }

    method RedeemCoupon(code: string, now: int) returns (found: bool)
      modifies this`coupons
      ensures found == RedeemRow(old(coupons), code, now).Some?
      ensures coupons == if found then RedeemRow(old(coupons), code, now).value else old(coupons)
    {
      found := code in coupons && Redeemable(coupons[code], now);
      if found {
        coupons := coupons[code := coupons[code].(usedCount := coupons[code].usedCount + 1)];
      }
    }

    method ReleaseCoupon(code: string)
      modifies this`coupons
      ensures coupons == ReleaseUse(old(coupons), code)
    {
      if code in coupons && coupons[code].usedCount > 0 {
        coupons := coupons[code := coupons[code].(usedCount := coupons[code].usedCount - 1)];
      }
    }

    // Loops

    /** The reservation loop of confirm and of the inventory repository; on failure the caller rolls back. */
    method HoldLines(o: OrderId, picks: seq<Pick>, expiresAt: int) returns (failure: Option<ConfirmError>)
      modifies this`stock, this`reservations
      ensures match PlaceHolds(old(stock), old(reservations), o, picks, expiresAt)
              case Ok(held) => failure == None && stock == held.0 && reservations == held.1
              case Err(e) => failure == Some(e)
    {
      ghost var s0, r0 := stock, reservations;
      var i := 0;
      while i < |picks|
        invariant 0 <= i <= |picks|
        invariant PlaceHolds(s0, r0, o, picks[..i], expiresAt) == Ok((stock, reservations))
      {
        assert picks[..i + 1][..i] == picks[..i];
        var p := picks[i];
        var found := ReserveStock(p.variant, p.quantity);
        if !found {
          PlaceHoldsStops(s0, r0, o, picks, i + 1, expiresAt);
          return Some(InsufficientStock);
        }
        if p.quantity <= 0 {
          PlaceHoldsStops(s0, r0, o, picks, i + 1, expiresAt);
          return Some(ConstraintViolation);
        }
        reservations := reservations + [Reservation(o, p.variant, p.quantity, Held, expiresAt)];
        i := i + 1;
      }
      assert picks[..|picks|] == picks;
      return None;
    }

    method InsertOrderItems(o: OrderId, lines: seq<QuoteLine>) returns (ok: bool)
      modifies this`items
      ensures match InsertItems(old(items), o, lines)
              case Ok(rows) => ok && items == rows
              case Err(e) => !ok && e == ConstraintViolation
    {
      var i := 0;
      while i < |lines|
        invariant 0 <= i <= |lines|
        invariant InsertItems(old(items), o, lines[..i]) == Ok(items)
      {
        assert lines[..i + 1][..i] == lines[..i];
        var it := LineItem(o)(lines[i]);
        if !ItemAllowed(it) {
          InsertItemsStops(old(items), o, lines, i + 1);
          return false;
        }
        items := items + [it];
        i := i + 1;
      }
      assert lines[..|lines|] == lines;
      return true;
    }

    method ListReservationsByOrder(o: OrderId) returns (rows: seq<Reservation>)
      ensures rows == OfOrder(reservations, o)
    {
      rows := [];
      var i := 0;
      while i < |reservations|
        invariant 0 <= i <= |reservations|
        invariant rows == OfOrder(reservations[..i], o)
      {
        assert reservations[..i + 1][..i] == reservations[..i];
        if reservations[i].order == o {
          rows := rows + [reservations[i]];
        }
        i := i + 1;
      }
      assert reservations[..|reservations|] == reservations;
    }

    method ListOrderItems(o: OrderId) returns (picks: seq<Pick>)
      ensures picks == ItemPicks(items, o)
    {
      picks := [];
      var i := 0;
      while i < |items|
        invariant 0 <= i <= |items|
        invariant picks == ItemPicks(items[..i], o)
      {
        assert items[..i + 1][..i] == items[..i];
        if items[i].order == o {
          picks := picks + [Pick(items[i].variant, items[i].quantity)];
        }
        i := i + 1;
      }
      assert items[..|items|] == items;
    }

    /** Settles the held rows of the order, one stock update per row and one status update for all of them. */
    method CommitHeld(o: OrderId)
      modifies this`stock, this`reservations
      ensures stock == CommitAll(old(stock), HeldPicks(old(reservations), o))
      ensures reservations == Settle(old(reservations), o, Committed) == Marked(old(reservations), o, Committed)
    {
      var rows := ListReservationsByOrder(o);
      HeldPicksOfOrder(reservations, o);
      var i := 0;
      while i < |rows|
        modifies this`stock
        invariant 0 <= i <= |rows|
        invariant stock == CommitAll(old(stock), HeldPicks(rows[..i], o))
      {
        assert rows[..i + 1][..i] == rows[..i];
        OfOrderIsOfOrder(reservations, o);
        if rows[i].status == Held {
          ghost var before := HeldPicks(rows[..i], o);
          assert (before + [Pick(rows[i].variant, rows[i].quantity)])[..|before|] == before;
          CommitReservedStock(rows[i].variant, rows[i].quantity);
        }
        i := i + 1;
      }
      assert rows[..|rows|] == rows;
      SettleMarks(reservations, o, Committed);
      reservations := Settle(reservations, o, Committed);
    }

    method ReleaseHeld(o: OrderId)
      modifies this`stock, this`reservations
      ensures stock == ReleaseAll(old(stock), HeldPicks(old(reservations), o))
      ensures reservations == Settle(old(reservations), o, Released) == Marked(old(reservations), o, Released)
    {
      var rows := ListReservationsByOrder(o);
      HeldPicksOfOrder(reservations, o);
      var i := 0;
      while i < |rows|
        modifies this`stock
        invariant 0 <= i <= |rows|
        invariant stock == ReleaseAll(old(stock), HeldPicks(rows[..i], o))
      {
        assert rows[..i + 1][..i] == rows[..i];
        OfOrderIsOfOrder(reservations, o);
        if rows[i].status == Held {
          ghost var before := HeldPicks(rows[..i], o);
          assert (before + [Pick(rows[i].variant, rows[i].quantity)])[..|before|] == before;
          ReleaseReservedStock(rows[i].variant, rows[i].quantity);
        }
        i := i + 1;
      }
      assert rows[..|rows|] == rows;
      SettleMarks(reservations, o, Released);
      reservations := Settle(reservations, o, Released);
    }

    /** The library sort, on a copy of the lines. */
    method InLockOrder(picks: seq<Pick>) returns (ordered: seq<Pick>)
      ensures ordered == LockOrder(picks)
    {
      var copy := new Pick[|picks|](i requires 0 <= i < |picks| => picks[i]);
      assert copy[..] == picks;
      SortInPlace(copy, VariantKey);
      ordered := copy[..];
    }

    /** Sells the items again; on the first shortfall the stock goes back to the savepoint. */
    method ReReserveSavepoint(o: OrderId) returns (sold: bool)
      modifies this`stock
      ensures match SellAll(old(stock), LockOrder(ItemPicks(items, o)))
              case Some(s) => sold && stock == s
              case None => !sold && stock == old(stock)
    {
      var picks := ListOrderItems(o);
      picks := InLockOrder(picks);
      var savepoint := stock;
      var i := 0;
      while i < |picks|
        invariant 0 <= i <= |picks|
        invariant SellAll(old(stock), picks[..i]) == Some(stock)
      {
        assert picks[..i + 1][..i] == picks[..i];
        var found := ReserveStock(picks[i].variant, picks[i].quantity);
        if !found {
          SellAllStops(old(stock), picks, i + 1);
          stock := savepoint;
          return false;
        }
        CommitReservedStock(picks[i].variant, picks[i].quantity);
        i := i + 1;
      }
      assert picks[..|picks|] == picks;
      return true;
    }

    // Transactions

    /** The whole confirm: the deferred rollback undoes every statement unless all of them went through. */
    method ConfirmTx(plan: Plan, now: int) returns (r: Result<Confirmation, ConfirmError>)
      modifies this
      ensures match Protocol.ConfirmTx(old(View()), plan, now)
              case Ok(t) => r == Ok(Answer(plan)) && View() == t
              case Err(e) => r == Err(e) && View() == old(View())
    {
      var begin := View();
      var failure := ConfirmStatements(plan, now);
      if failure.Some? {
        Restore(begin);
        return Err(failure.value);
      }
      return Ok(Answer(plan));
    }

    /** The statements of confirm up to the first one that fails. */
    method ConfirmStatements(plan: Plan, now: int) returns (failure: Option<ConfirmError>)
      modifies this
      ensures match Protocol.ConfirmTx(old(View()), plan, now)
              case Ok(t) => failure == None && View() == t
              case Err(e) => failure == Some(e)
    {
      var cart := ActiveCart(carts, User(plan.user));
      if cart.None? {
        return Some(CartChanged);
      }
      failure := OrderStatements(plan);
      if failure == None {
        failure := ClosingStatements(plan, cart.value, now);
      }
    }

    method OrderStatements(plan: Plan) returns (failure: Option<ConfirmError>)
      modifies this
      ensures match PlaceOrder(old(View()), plan)
              case Ok(t) => failure == None && View() == t
              case Err(e) => failure == Some(e)
    {
      hide PlaceHolds, InsertItems, LockOrder, NewOrder;
      if plan.order in orders || !OrderAllowed(NewOrder(plan)) {
        return Some(ConstraintViolation);
      }
      orders := orders[plan.order := NewOrder(plan)];
      var ordered := InLockOrder(Mapped(plan.quote.lines, LinePick));
      failure := HoldLines(plan.order, ordered, plan.holdUntil);
      if failure == None {
        var inserted := InsertOrderItems(plan.order, plan.quote.lines);
        failure := if inserted then None else Some(ConstraintViolation);
      }
    }

    method ClosingStatements(plan: Plan, cart: CartId, now: int) returns (failure: Option<ConfirmError>)
      modifies this
      ensures match CloseConfirm(old(View()), plan, cart, now)
              case Ok(t) => failure == None && View() == t
              case Err(e) => failure == Some(e)
    {
      hide RedeemRow, SetCartStatus, NewCharge, Answer;
      if plan.quote.coupon != "" {
        var found := RedeemCoupon(plan.quote.coupon, now);
        if !found {
          return Some(CouponUnavailable);
        }
      }
      carts := SetCartStatus(carts, cart, Converted);
      if RefOf(plan) in charges || plan.charge.amount < 0 {
        return Some(ConstraintViolation);
      }
      charges := charges[RefOf(plan) := NewCharge(plan)];
      if (plan.user, plan.key) in keys {
        return Some(KeyConflict);
      }
      keys := keys[(plan.user, plan.key) := KeyRow(plan.requestHash, plan.order, Answer(plan))];
      RecordTransition(Transition(plan.order, None, PendingPayment, "checkout_confirmed", "system"));
      return None;
    }

    method SetChargeStatus(k: ChargeRef, status: ChargeStatus)
      modifies this`charges
      ensures charges == SetChargeRow(old(charges), k, status)
    {
      if k in charges {
        charges := charges[k := charges[k].(status := status)];
      }
    }

    /** One payment webhook. */
    method Apply(ev: Event) returns (failure: Option<ApplyError>)
      modifies this
      ensures match Protocol.Apply(old(View()), ev)
              case Ok(t) => failure == None && View() == t
              case Err(e) => failure == Some(e) && View() == old(View())
    {
      var begin := View();
      var n := InsertWebhookEvent(ev.id);
      if n == 0 {
        assert events == begin.events;
        return None;
      }
      var k := ChargeRef("mock", ev.chargeId);
      if k !in charges {
        return None;
      }
      var o := charges[k].order;
      if o !in orders {
        Restore(begin);
        return Some(OrderMissing);
      }
      if ev.amount != charges[k].amount || charges[k].amount != orders[o].total {
        return None;
      }
      if ev.kind == "failed" {
        if orders[o].status == PendingPayment {
          FailOrder(k, o);
        }
      } else if ev.kind == "paid" {
        if orders[o].status == PendingPayment {
          PayOrder(k, o);
        } else if orders[o].status == Expired {
          PayLate(k, o);
        }
      }
      return None;
    }

    /** The release of everything an order holds, its coupon use included. */
    method GiveBackHeld(o: OrderId)
      requires o in orders
      modifies this`stock, this`reservations, this`coupons
      ensures View() == GiveBack(old(View()), o)
    {
      hide ReleaseAll, HeldPicks, Settle, ReleaseUse;
      ReleaseHeld(o);
      if orders[o].coupon.Some? {
        ReleaseCoupon(orders[o].coupon.value);
      }
    }

    /** The status change and its log entry; the row count is not looked at. */
    method MoveOrder(o: OrderId, from: OrderStatus, to: OrderStatus, reason: string, actor: string)
      modifies this`orders, this`log
      ensures View() == Move(old(View()), o, from, to, reason, actor)
    {
      hide TransitionRow;
      var _ := TransitionOrderStatus(o, from, to);
      RecordTransition(Transition(o, Some(from), to, reason, actor));
    }

    method FailOrder(k: ChargeRef, o: OrderId)
      requires o in orders
      modifies this
      ensures View() == FailPending(old(View()), k, o)
    {
      hide GiveBack, SetChargeRow, Move;
      GiveBackHeld(o);
      SetChargeStatus(k, ChargeFailed);
      MoveOrder(o, PendingPayment, PaymentFailed, "charge_failed", "webhook");
    }

    method PayOrder(k: ChargeRef, o: OrderId)
      modifies this
      ensures View() == PayPending(old(View()), k, o)
    {
      hide CommitAll, HeldPicks, Settle, SetChargeRow, Move;
      CommitHeld(o);
      SetChargeStatus(k, ChargePaid);
      MoveOrder(o, PendingPayment, Paid, "charge_paid", "webhook");
    }

    method PayLate(k: ChargeRef, o: OrderId)
      modifies this
      ensures View() == PayExpired(old(View()), k, o)
    {
      hide SellAll, LockOrder, ItemPicks, SetChargeRow, Move;
      var sold := ReReserveSavepoint(o);
      SetChargeStatus(k, ChargePaid);
      var to, reason := Paid, "charge_paid_after_expiry";
      if !sold {
        to, reason := PaidAwaitingStock, "paid_no_stock";
      }
      MoveOrder(o, Expired, to, reason, "webhook");
    }

    /** One transaction of the expiry job. */
    method ExpireOne(o: OrderId) returns (moved: bool)
      modifies this
      ensures match ExpireOrder(old(View()), o)
              case Some(t) => moved && View() == t
              case None => !moved && View() == old(View())
    {
      hide ReleaseAll, HeldPicks, Settle, ReleaseUse, HasPaidCharge;
      if HasPaidCharge(charges, o) {
        return false;
      }
      var n := TransitionOrderStatus(o, PendingPayment, Expired);
      if n == 0 {
        return false;
      }
      GiveBackHeld(o);
      RecordTransition(Transition(o, Some(PendingPayment), Expired, "reservation_expired", "job"));
      return true;
    }

    method RunReleaseExpiredOnce(now: int) returns (expired: nat)
      modifies this
      ensures (View(), expired) == Sweep(old(View()), now)
    {
      hide ExpireOrder, ExpiredIds;
      var ids := ExpiredIds(reservations, now);
      expired := 0;
      var i := 0;
      while i < |ids|
        invariant 0 <= i <= |ids|
        invariant (View(), expired) == SweepOrders(old(View()), ids[..i])
      {
        assert ids[..i + 1][..i] == ids[..i];
        var moved := ExpireOne(ids[i]);
        if moved {
          expired := expired + 1;
        }
        i := i + 1;
      }
      assert ids[..|ids|] == ids;
    }

    // The inventory repository

    method Reserve(picks: seq<Pick>, o: OrderId, expiresAt: int) returns (failure: Option<ConfirmError>)
      modifies this
      ensures match RepositoryReserve(old(View()), picks, o, expiresAt)
              case Ok(t) => failure == None && View() == t
              case Err(e) => failure == Some(e) && View() == old(View())
    {
      var begin := View();
      var ordered := InLockOrder(picks);
      failure := HoldLines(o, Mapped(ordered, NarrowPick), expiresAt);
      if failure.Some? {
        Restore(begin);
      }
    }

    method Resolve(o: OrderId, to: HoldStatus)
      modifies this
      ensures View() == RepositoryResolve(old(View()), o, to)
      ensures reservations == Marked(old(reservations), o, to)
    {
      SettleMarks(reservations, o, to);
      match to {
        case Committed => CommitHeld(o);
        case Released => ReleaseHeld(o);
        case Held => reservations := Settle(reservations, o, Held);
      }
    }

    /** Optimistic write of the available quantity. */
    method SetStock(v: VariantId, available: int, expected: int) returns (failure: Option<StockError>)
      modifies this`stock
      ensures match Protocol.SetStock(old(View()), v, available, expected)
              case Ok(t) => failure == None && View() == t
              case Err(e) => failure == Some(e) && View() == old(View())
    {
      var a, e := Money.Int32(available), Money.Int32(expected);
      if a < 0 {
        return Some(NegativeStock);
      }
      if v !in stock {
        stock := stock[v := StockRow(a, 0, 0)];
      } else if stock[v].version != e {
        return Some(StockConflict);
      } else {
        stock := stock[v := StockRow(a, stock[v].reserved, stock[v].version + 1)];
      }
      return None;
    }
  }

  lemma {:induction false} InsertItemsStops(items: seq<Item>, o: OrderId, lines: seq<QuoteLine>, n: nat)
    requires n <= |lines| && InsertItems(items, o, lines[..n]).Err?
    ensures InsertItems(items, o, lines).Err?
  {
    if n == |lines| {
      assert lines[..n] == lines;
    } else {
      assert lines[..|lines| - 1][..n] == lines[..n];
      InsertItemsStops(items, o, lines[..|lines| - 1], n);
    }
  }

  /** Listing an order's rows first and skipping the rows that are not held loses nothing. */
  lemma {:induction false} HeldPicksOfOrder(rows: seq<Reservation>, o: OrderId)
    ensures HeldPicks(OfOrder(rows, o), o) == HeldPicks(rows, o)
  {
    if rows == [] {
    } else {
      HeldPicksOfOrder(rows[..|rows| - 1], o);
      var init := OfOrder(rows[..|rows| - 1], o);
      assert (init + [rows[|rows| - 1]])[..|init|] == init;
    }
  }

  lemma {:induction false} OfOrderIsOfOrder(rows: seq<Reservation>, o: OrderId)
    ensures forall i :: 0 <= i < |OfOrder(rows, o)| ==> OfOrder(rows, o)[i].order == o
  {
    if rows == [] {
    } else {
      OfOrderIsOfOrder(rows[..|rows| - 1], o);
    }
  }
}
