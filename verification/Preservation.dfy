/** Every transaction keeps the invariant and conserves stock. */
module Preservation {
  import opened Prelude
  import opened Schema
  import opened StockLoops
  import opened Protocol
  import opened Ledger
  import opened Invariants

  // Conservation

  ghost predicate Conserved(t: Tables, t': Tables) {
    forall v :: Balance(t', v) == Balance(t, v)
  }

  /** An order that becomes paid adds exactly its items to the sold quantity. */
  lemma SoldByMove(orders: Orders, items: seq<Item>, o: OrderId, to: OrderStatus, v: VariantId)
    requires o in orders && orders[o].status != Paid
    ensures SoldTotal(Moved(orders, o, to), items, v)
         == SoldTotal(orders, items, v) + (if to == Paid then Ordered(items, o, v) else 0)
  {
    if to == Paid {
      SumSplit(items, SoldQty(Moved(orders, o, to), v), SoldQty(orders, v), OrderedQty(o, v));
    } else {
      SumSame(items, SoldQty(Moved(orders, o, to), v), SoldQty(orders, v));
    }
  }

  lemma {:induction false} ItemPicksDemand(items: seq<Item>, o: OrderId, v: VariantId)
    ensures Demand(ItemPicks(items, o), v) == Ordered(items, o, v)
  {
    if items == [] {
    } else {
      var init := ItemPicks(items[..|items| - 1], o);
      ItemPicksDemand(items[..|items| - 1], o, v);
      assert forall p :: (init + [p])[..|init|] == init;
    }
  }

  lemma {:induction false} ItemPicksPositive(items: seq<Item>, o: OrderId)
    requires forall it :: it in items ==> ItemAllowed(it)
    ensures Positive(ItemPicks(items, o))
  {
    if items == [] {
    } else {
      assert items[|items| - 1] in items;
      ItemPicksPositive(items[..|items| - 1], o);
    }
  }

  /** The order of a charge exists, has its amount for a total, and agrees with its status. */
  lemma ChargeIsKnown(t: Tables, k: ChargeRef)
    requires Consistent(t) && k in t.charges
    ensures t.charges[k].order in t.orders
    ensures t.charges[k].amount == t.orders[t.charges[k].order].total
    ensures Agree(t.charges[k].status, t.orders[t.charges[k].order].status)
  {
  }

  // Expiry and failure

  /** Giving everything back and moving a pending order on: shared by the failed webhook and the expiry job. */
  lemma GivingBackKeeps(t: Tables, e: Transition)
    requires Consistent(t) && e.order in t.orders && t.orders[e.order].status == PendingPayment
    requires e.from == Some(PendingPayment) && (e.to == Expired || e.to == PaymentFailed)
    ensures var orders', t' := Moved(t.orders, e.order, e.to), GiveBack(t, e.order);
            && Backed(t'.stock, t'.reservations)
            && t'.stock == ReleasedStock(t.stock, HeldPicks(t.reservations, e.order))
            && ItemsKnown(orders', t.items, t'.stock)
            && HoldsMatch(orders', t'.reservations, t.items)
            && LogReplays(orders', t.log + [e])
            && CouponsCount(orders', t.log + [e], t'.coupons)
            && KeysMatch(orders', t.keys) && CartsMatch(orders', t.carts) && MoneyMatches(orders', t.items)
  {
    hide Backed, ItemsKnown, HoldsMatch, ChargesAgree, LogReplays, CouponsCount, KeysMatch, CartsMatch, MoneyMatches;
    hide ReleaseAll, CommitAll, CommittedStock, HeldPicks, Settle, MatchesAt, GaveBack;
    SettlingKeepsLedger(t.stock, t.reservations, e.order);
    SettledHoldsMatch(t.orders, t.reservations, t.items, e.order, e.to, Released);
    MoveIsLogged(t.orders, t.log, e);
    PendingIsFresh(t.orders, t.log, e.order);
    UseGivenBack(t.orders, t.log, t.coupons, e);
    StatusIsFree(t.orders, e.order, e.to, t.keys, t.carts, t.items, t.stock);
    ItemsStayKnown(Moved(t.orders, e.order, e.to), t.items, t.stock,
                   ReleasedStock(t.stock, HeldPicks(t.reservations, e.order)));
  }

  lemma GivingBackBalances(t: Tables, o: OrderId, to: OrderStatus, v: VariantId)
    requires Backed(t.stock, t.reservations) && o in t.orders && t.orders[o].status == PendingPayment && to != Paid
    ensures Balance(GiveBack(t, o).(orders := Moved(t.orders, o, to)), v) == Balance(t, v)
  {
    hide Backed, SoldTotal, HeldPicks, CommitAll, ReleaseAll, Settle, Demand, Visits, MatchesAt, ReleaseCouponOf;
    SettlingKeepsLedger(t.stock, t.reservations, o);
    SoldByMove(t.orders, t.items, o, to, v);
  }

  lemma FailKeeps(t: Tables, k: ChargeRef)
    requires Consistent(t) && k in t.charges && t.orders[t.charges[k].order].status == PendingPayment
    ensures var t' := FailPending(t, k, t.charges[k].order); Consistent(t') && Conserved(t, t')
  {
    hide Backed, ItemsKnown, HoldsMatch, ChargesAgree, LogReplays, CouponsCount, KeysMatch, CartsMatch, MoneyMatches;
    hide ReleaseAll, ReleasedStock, HeldPicks, Settle, ReleaseCouponOf, SetChargeRow, Balance;
    ChargeIsKnown(t, k);
    var o := t.charges[k].order;
    GivingBackKeeps(t, Transition(o, Some(PendingPayment), PaymentFailed, "charge_failed", "webhook"));
    ChargeFollows(t.orders, t.charges, k, PaymentFailed, ChargeFailed);
    forall v ensures Balance(FailPending(t, k, o), v) == Balance(t, v) {
      FailedBalances(t, k, v);
    }
  }

  lemma FailedBalances(t: Tables, k: ChargeRef, v: VariantId)
    requires Consistent(t) && k in t.charges && t.orders[t.charges[k].order].status == PendingPayment
    ensures Balance(FailPending(t, k, t.charges[k].order), v) == Balance(t, v)
  {
    GivingBackBalances(t, t.charges[k].order, PaymentFailed, v);
  }

  lemma ExpireKeeps(t: Tables, o: OrderId)
    requires Consistent(t) && ExpireOrder(t, o).Some?
    ensures Consistent(ExpireOrder(t, o).value) && Conserved(t, ExpireOrder(t, o).value)
  {
    hide Consistent, Balance;
    ExpiredConsistent(t, o);
    forall v ensures Balance(ExpireOrder(t, o).value, v) == Balance(t, v) {
      ExpiredBalances(t, o, v);
    }
  }

  lemma ExpiredBalances(t: Tables, o: OrderId, v: VariantId)
    requires Consistent(t) && o in t.orders && t.orders[o].status == PendingPayment
    ensures Balance(Move(GiveBack(t, o), o, PendingPayment, Expired, "reservation_expired", "job"), v) == Balance(t, v)
  {
    GivingBackBalances(t, o, Expired, v);
  }

  lemma ExpiredConsistent(t: Tables, o: OrderId)
    requires Consistent(t) && o in t.orders && t.orders[o].status == PendingPayment
    ensures Consistent(Move(GiveBack(t, o), o, PendingPayment, Expired, "reservation_expired", "job"))
  {
    GivingBackKeeps(t, Transition(o, Some(PendingPayment), Expired, "reservation_expired", "job"));
    ChargeStays(t.orders, t.charges, o, Expired);
  }

  /** A pending charge also fits the expired order. */
  lemma ChargeStays(orders: Orders, charges: Charges, o: OrderId, to: OrderStatus)
    requires ChargesAgree(orders, charges) && o in orders
    requires orders[o].status == PendingPayment && to == Expired
    ensures ChargesAgree(Moved(orders, o, to), charges)
  {
  }

  // Payment

  lemma PayPendingKeeps(t: Tables, k: ChargeRef)
    requires Consistent(t) && k in t.charges && t.orders[t.charges[k].order].status == PendingPayment
    ensures var t' := PayPending(t, k, t.charges[k].order); Consistent(t') && Conserved(t, t')
  {
    hide Backed, ItemsKnown, HoldsMatch, ChargesAgree, LogReplays, CouponsCount, KeysMatch, CartsMatch, MoneyMatches;
    hide ReleaseAll, CommitAll, ReleasedStock, HeldPicks, Settle, MatchesAt, SetChargeRow, Balance;
    ChargeIsKnown(t, k);
    var o := t.charges[k].order;
    var t' := PayPending(t, k, o);
    var e := Transition(o, Some(PendingPayment), Paid, "charge_paid", "webhook");
    SettlingKeepsLedger(t.stock, t.reservations, o);
    SettledHoldsMatch(t.orders, t.reservations, t.items, o, Paid, Committed);
    ChargeFollows(t.orders, t.charges, k, Paid, ChargePaid);
    MoveIsLogged(t.orders, t.log, e);
    UseKept(t.orders, t.log, t.coupons, e);
    StatusIsFree(t.orders, o, Paid, t.keys, t.carts, t.items, t.stock);
    ItemsStayKnown(Moved(t.orders, o, Paid), t.items, t.stock, CommittedStock(t.stock, HeldPicks(t.reservations, o)));
    forall v ensures Balance(t', v) == Balance(t, v) {
      PayPendingBalances(t, k, v);
    }
  }

  /** What the invariant says of a pending order and its items. */
  lemma PendingOrderKnown(t: Tables, k: ChargeRef, v: VariantId)
    requires Consistent(t) && k in t.charges && t.orders[t.charges[k].order].status == PendingPayment
    ensures t.charges[k].order in t.orders && Backed(t.stock, t.reservations)
    ensures HeldOf(t.reservations, t.charges[k].order, v) == Ordered(t.items, t.charges[k].order, v)
    ensures v !in t.stock ==> Ordered(t.items, t.charges[k].order, v) == 0
  {
    if v !in t.stock {
      SumZero(t.items, OrderedQty(t.charges[k].order, v));
    }
  }

  lemma PayPendingBalances(t: Tables, k: ChargeRef, v: VariantId)
    requires Consistent(t) && k in t.charges && t.orders[t.charges[k].order].status == PendingPayment
    ensures Balance(PayPending(t, k, t.charges[k].order), v) == Balance(t, v)
  {
    PendingOrderKnown(t, k, v);
    hide Consistent, Backed, SoldTotal, Ordered, HeldOf, HeldPicks, CommitAll, ReleaseAll, ReleasedStock;
    hide Settle, Demand;
    hide Visits, MatchesAt, SetChargeRow;
    var o := t.charges[k].order;
    SettlingKeepsLedger(t.stock, t.reservations, o);
    HeldPicksDemand(t.reservations, o, v);
    SoldByMove(t.orders, t.items, o, Paid, v);
  }

  /** The late payment sells again exactly when, per variant, the ordered quantity is available. */
  lemma LateSale(t: Tables, o: OrderId)
    requires Consistent(t)
    ensures var picks, sold := ItemPicks(t.items, o), SellAll(t.stock, LockOrder(ItemPicks(t.items, o)));
            && (sold.Some? <==> Fits(t.stock, picks))
            && (sold.Some? ==> sold.value.Keys == t.stock.Keys && Backed(sold.value, t.reservations))
            && (sold.Some? ==> forall v :: v in t.stock ==>
                  && sold.value[v].available == t.stock[v].available - Ordered(t.items, o, v)
                  && sold.value[v].reserved == t.stock[v].reserved)
  {
    var picks := ItemPicks(t.items, o);
    ItemPicksPositive(t.items, o);
    LockOrderKeeps(picks);
    SellingKeepsLedger(t.stock, t.reservations, LockOrder(picks));
    forall v ensures Demand(picks, v) == Ordered(t.items, o, v) {
      ItemPicksDemand(t.items, o, v);
    }
  }

  lemma PayExpiredKeeps(t: Tables, k: ChargeRef)
    requires Consistent(t) && k in t.charges && t.orders[t.charges[k].order].status == Expired
    ensures var t' := PayExpired(t, k, t.charges[k].order); Consistent(t') && Conserved(t, t')
  {
    var o := t.charges[k].order;
    PayExpiredConsistent(t, k);
    hide Consistent, Balance, PayExpired;
    forall v ensures Balance(PayExpired(t, k, o), v) == Balance(t, v) {
      PayExpiredBalances(t, k, v);
    }
  }

  lemma StockReplaced(t: Tables, stock: Stock)
    requires Consistent(t) && Backed(stock, t.reservations) && t.stock.Keys <= stock.Keys
    ensures Consistent(t.(stock := stock))
  {
    hide Backed, HoldsMatch, ChargesAgree, LogReplays, CouponsCount, KeysMatch, CartsMatch, MoneyMatches;
  }

  lemma SoldStillBacked(t: Tables, o: OrderId, stock: Stock)
    requires Consistent(t) && SellAll(t.stock, LockOrder(ItemPicks(t.items, o))) == Some(stock)
    ensures Consistent(t.(stock := stock))
  {
    hide Consistent, SellAll, LockOrder, ItemPicks, Fits, Backed;
    LateSale(t, o);
    StockReplaced(t, stock);
  }

  lemma PayExpiredConsistent(t: Tables, k: ChargeRef)
    requires Consistent(t) && k in t.charges && t.charges[k].order in t.orders
    requires t.orders[t.charges[k].order].status == Expired
    ensures Consistent(PayExpired(t, k, t.charges[k].order))
  {
    hide Consistent, SellAll, LockOrder, ItemPicks, Move, Charged;
    var o := t.charges[k].order;
    match SellAll(t.stock, LockOrder(ItemPicks(t.items, o)))
    case Some(stock) =>
      SoldStillBacked(t, o, stock);
      LateConsistent(t.(stock := stock), k, Transition(o, Some(Expired), Paid, "charge_paid_after_expiry", "webhook"));
    case None =>
      LateConsistent(t, k, Transition(o, Some(Expired), PaidAwaitingStock, "paid_no_stock", "webhook"));
  }

  lemma LateConsistent(t: Tables, k: ChargeRef, e: Transition)
    requires Consistent(t) && k in t.charges && t.charges[k].order == e.order
    requires e.order in t.orders && t.orders[e.order].status == Expired
    requires e.from == Some(Expired) && (e.to == Paid || e.to == PaidAwaitingStock)
    ensures Consistent(Move(Charged(t, k, ChargePaid), e.order, Expired, e.to, e.reason, e.actor))
  {
    hide Backed, ItemsKnown, HoldsMatch, ChargesAgree, LogReplays, CouponsCount, KeysMatch, CartsMatch, MoneyMatches;
    hide SetChargeRow;
    LateHoldsMatch(t.orders, t.reservations, t.items, e.order, e.to);
    ChargeFollows(t.orders, t.charges, k, e.to, ChargePaid);
    MoveIsLogged(t.orders, t.log, e);
    UseKept(t.orders, t.log, t.coupons, e);
    StatusIsFree(t.orders, e.order, e.to, t.keys, t.carts, t.items, t.stock);
  }

  lemma PayExpiredBalances(t: Tables, k: ChargeRef, v: VariantId)
    requires Consistent(t) && k in t.charges && t.orders[t.charges[k].order].status == Expired
    ensures Balance(PayExpired(t, k, t.charges[k].order), v) == Balance(t, v)
  {
    hide Consistent, SoldTotal, Ordered;
    assert t.charges[k].order in t.orders && (v !in t.stock ==> Ordered(t.items, t.charges[k].order, v) == 0) by {
      KnownOrders(t, t.charges[k].order, v);
    }
    var o := t.charges[k].order;
    LateSale(t, o);
    SoldByMove(t.orders, t.items, o, Paid, v);
    SoldByMove(t.orders, t.items, o, PaidAwaitingStock, v);
  }

  lemma KnownOrders(t: Tables, o: OrderId, v: VariantId)
    requires Consistent(t)
    ensures forall k :: k in t.charges ==> t.charges[k].order in t.orders
    ensures v !in t.stock ==> Ordered(t.items, o, v) == 0
  {
    if v !in t.stock {
      SumZero(t.items, OrderedQty(o, v));
    }
  }

  lemma LateHoldsMatch(orders: Orders, rows: seq<Reservation>, items: seq<Item>, o: OrderId, to: OrderStatus)
    requires HoldsMatch(orders, rows, items) && o in orders && orders[o].status == Expired && to != PendingPayment
    ensures HoldsMatch(Moved(orders, o, to), rows, items)
  {
  }

  /** The bookkeeping of event ids touches nothing else. */
  lemma EventRecorded(t: Tables, id: string)
    requires Consistent(t)
    ensures Consistent(t.(events := t.events + {id})) && Conserved(t, t.(events := t.events + {id})) && Conserved(t, t)
    ensures forall k :: k in t.charges ==> t.charges[k].order in t.orders
  {
  }

  lemma ApplyKeeps(t: Tables, ev: Event)
    requires Consistent(t)
    ensures Apply(t, ev).Ok?
    ensures Consistent(Apply(t, ev).value) && Conserved(t, Apply(t, ev).value)
  {
    hide Consistent, Balance;
    EventRecorded(t, ev.id);
    EffectKeeps(t.(events := t.events + {ev.id}), ChargeRef("mock", ev.chargeId));
  }

  /** The three effects a webhook can have. */
  lemma EffectKeeps(t: Tables, k: ChargeRef)
    requires Consistent(t)
    ensures k in t.charges && t.orders[t.charges[k].order].status == PendingPayment ==>
              && Consistent(FailPending(t, k, t.charges[k].order))
              && Conserved(t, FailPending(t, k, t.charges[k].order))
              && Consistent(PayPending(t, k, t.charges[k].order)) && Conserved(t, PayPending(t, k, t.charges[k].order))
    ensures k in t.charges && t.orders[t.charges[k].order].status == Expired ==>
              Consistent(PayExpired(t, k, t.charges[k].order)) && Conserved(t, PayExpired(t, k, t.charges[k].order))
  {
    if k in t.charges {
      var status := t.orders[t.charges[k].order].status;
      if status == PendingPayment {
        FailKeeps(t, k);
        PayPendingKeeps(t, k);
      } else if status == Expired {
        PayExpiredKeeps(t, k);
      }
    }
  }
}
