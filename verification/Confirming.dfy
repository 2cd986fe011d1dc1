/** A confirm keeps the invariant, and what exactly it changes. */
module Confirming {
  import opened Prelude
  import opened Schema
  import opened Text
  import opened StockLoops
  import opened Money
  import opened Protocol
  import opened Ledger
  import opened Invariants
  import opened Preservation

  /** What the quote computation guarantees of a stored quote. */
  ghost predicate QuoteComputed(q: Quote) {
    && (forall l :: l in q.lines ==> 1 <= l.quantity <= 99)
    && q.subtotal == Subtotal(q.lines)
    && (q.subtotal >= 0 ==> 0 <= q.discount <= q.subtotal)
    && q.total == ComputeTotal(q.subtotal, q.shipping, q.discount)
  }

  /** What the confirm pre-check guarantees of the plan it hands over. */
  ghost predicate PlanMade(plan: Plan) {
    && QuoteComputed(plan.quote) && plan.quote.lines != []
    && plan.quote.user == plan.user
    && plan.charge.order == plan.order && plan.charge.amount == plan.quote.total
    && plan.requestHash == plan.quote.id
  }

  function PicksOf(plan: Plan): seq<Pick> {
    LockOrder(Mapped(plan.quote.lines, LinePick))
  }

  lemma {:induction false} InsertItemsExact(items: seq<Item>, o: OrderId, lines: seq<QuoteLine>)
    ensures InsertItems(items, o, lines)
         == if forall l :: l in lines ==> ItemAllowed(LineItem(o)(l))
            then Ok(items + Mapped(lines, LineItem(o))) else Err(ConstraintViolation)
  {
    if lines == [] {
      assert items + Mapped(lines, LineItem(o)) == items;
    } else {
      var init, l := lines[..|lines| - 1], lines[|lines| - 1];
      InsertItemsExact(items, o, init);
      assert lines == init + [l];
      assert items + Mapped(lines, LineItem(o)) == items + Mapped(init, LineItem(o)) + [LineItem(o)(l)];
    }
  }

  /** A confirm that goes through, table by table. */
  lemma ConfirmClosed(t: Tables, plan: Plan, now: int)
    requires ConfirmTx(t, plan, now).Ok?
    ensures var t', o, picks := ConfirmTx(t, plan, now).value, plan.order, PicksOf(plan);
            && ActiveCart(t.carts, User(plan.user)).Some?
            && o !in t.orders && OrderAllowed(NewOrder(plan))
            && Positive(picks) && Fits(t.stock, picks)
            && (forall l :: l in plan.quote.lines ==> ItemAllowed(LineItem(o)(l)))
            && RedeemIfAny(t.coupons, plan.quote.coupon, now).Ok?
            && RefOf(plan) !in t.charges && (plan.user, plan.key) !in t.keys
            && t' == t.(
                 stock := ReservedStock(t.stock, picks),
                 reservations := t.reservations + Mapped(picks, Hold(o, plan.holdUntil)),
                 orders := t.orders[o := NewOrder(plan)],
                 items := t.items + Mapped(plan.quote.lines, LineItem(o)),
                 coupons := RedeemIfAny(t.coupons, plan.quote.coupon, now).value,
                 carts := SetCartStatus(t.carts, ActiveCart(t.carts, User(plan.user)).value, Converted),
                 charges := t.charges[RefOf(plan) := NewCharge(plan)],
                 keys := t.keys[(plan.user, plan.key) := KeyRow(plan.requestHash, o, Answer(plan))],
                 log := t.log + [Transition(o, None, PendingPayment, "checkout_confirmed", "system")])
  {
    PlaceHoldsExact(t.stock, t.reservations, plan.order, PicksOf(plan), plan.holdUntil);
    InsertItemsExact(t.items, plan.order, plan.quote.lines);
  }

  /** The rows that a confirm adds to orders, items and charges. */
  lemma ConfirmAdds(t: Tables, plan: Plan, now: int)
    requires ConfirmTx(t, plan, now).Ok?
    ensures var t' := ConfirmTx(t, plan, now).value;
            && plan.order !in t.orders && t'.orders == t.orders[plan.order := NewOrder(plan)]
            && t'.items == t.items + Mapped(plan.quote.lines, LineItem(plan.order))
            && t'.charges == t.charges[RefOf(plan) := NewCharge(plan)]
            && t'.events == t.events
  {
    hide ConfirmTx;
    ConfirmClosed(t, plan, now);
  }

  /** What a confirm takes from stock and coupons. */
  lemma ConfirmTakes(t: Tables, plan: Plan, now: int)
    requires ConfirmTx(t, plan, now).Ok?
    ensures var t' := ConfirmTx(t, plan, now).value;
            && t'.stock == ReservedStock(t.stock, PicksOf(plan))
            && RedeemIfAny(t.coupons, plan.quote.coupon, now) == Ok(t'.coupons)
  {
    hide ConfirmTx;
    ConfirmClosed(t, plan, now);
  }

  /**
   * A confirm goes through exactly when the user still has an active cart, every line fits what is available together
   * with the other lines of its variant, the coupon can still be redeemed, order id, charge and key are new, and the
   * amounts and items satisfy the CHECK constraints.
   */
  lemma ConfirmGoesThrough(t: Tables, plan: Plan, now: int)
    ensures ConfirmTx(t, plan, now).Ok? <==>
              && (exists c :: c in t.carts && c.owner == User(plan.user) && c.status == Active)
              && plan.order !in t.orders && OrderAllowed(NewOrder(plan))
              && Positive(PicksOf(plan)) && Fits(t.stock, PicksOf(plan))
              && (forall l :: l in plan.quote.lines ==> ItemAllowed(LineItem(plan.order)(l)))
              && (plan.quote.coupon != "" ==> RedeemRow(t.coupons, plan.quote.coupon, now).Some?)
              && RefOf(plan) !in t.charges && plan.charge.amount >= 0
              && (plan.user, plan.key) !in t.keys
  {
    hide RedeemRow, LockOrder;
    ActiveCartFound(t.carts, User(plan.user));
    PlaceHoldsExact(t.stock, t.reservations, plan.order, PicksOf(plan), plan.holdUntil);
    InsertItemsExact(t.items, plan.order, plan.quote.lines);
  }

  // The same in terms of the quoted lines alone

  function LineQty(v: VariantId): QuoteLine -> int {
    (l: QuoteLine) => if l.variant == v then Int32(l.quantity) else 0
  }

  function LineOf(v: VariantId): QuoteLine -> int {
    (l: QuoteLine) => if l.variant == v then 1 else 0
  }

  /** Quantity of v in the quoted lines. */
  function QuotedDemand(lines: seq<QuoteLine>, v: VariantId): int {
    Sum(lines, LineQty(v))
  }

  lemma QuotedDemandIsDemand(plan: Plan, v: VariantId)
    ensures Demand(PicksOf(plan), v) == QuotedDemand(plan.quote.lines, v)
    ensures Visits(PicksOf(plan), v) == Sum(plan.quote.lines, LineOf(v))
  {
    var picks := Mapped(plan.quote.lines, LinePick);
    LockOrderAscends(picks);
    DemandPermuted(PicksOf(plan), picks, v);
    SumMapped(plan.quote.lines, LinePick, Wanted(v), LineQty(v));
    SumMapped(plan.quote.lines, LinePick, Naming(v), LineOf(v));
  }

  /** Per variant, the quoted quantity is available. */
  ghost predicate QuoteFits(stock: Stock, lines: seq<QuoteLine>) {
    forall l :: l in lines ==> l.variant in stock && QuotedDemand(lines, l.variant) <= stock[l.variant].available
  }

  lemma PicksAreLines(plan: Plan)
    ensures forall p :: p in PicksOf(plan) <==> exists l :: l in plan.quote.lines && LinePick(l) == p
    ensures forall l :: l in plan.quote.lines ==> LinePick(l) in PicksOf(plan)
  {
    var picks := Mapped(plan.quote.lines, LinePick);
    LockOrderKeeps(picks);
    forall p ensures p in picks <==> exists l :: l in plan.quote.lines && LinePick(l) == p {
      if p in picks {
        var i: nat :| i < |picks| && picks[i] == p;
        assert plan.quote.lines[i] in plan.quote.lines;
      }
      if l :| l in plan.quote.lines && LinePick(l) == p {
        var i: nat :| i < |picks| && plan.quote.lines[i] == l;
        assert picks[i] == p;
      }
    }
    forall l | l in plan.quote.lines ensures LinePick(l) in PicksOf(plan) {
      assert LinePick(l) in picks;
    }
  }

  lemma FitsAsQuoted(stock: Stock, plan: Plan)
    ensures Fits(stock, PicksOf(plan)) <==> QuoteFits(stock, plan.quote.lines)
    ensures Positive(PicksOf(plan)) <==> forall l :: l in plan.quote.lines ==> Int32(l.quantity) > 0
  {
    hide PicksOf, Demand, QuotedDemand, Visits;
    PicksAreLines(plan);
    forall v ensures Demand(PicksOf(plan), v) == QuotedDemand(plan.quote.lines, v) {
      QuotedDemandIsDemand(plan, v);
    }
    forall l | l in plan.quote.lines ensures LinePick(l) in PicksOf(plan) && LinePick(l).quantity == Int32(l.quantity) {
    }
  }

  /**
   * A confirm goes through exactly when the user still has an active cart, the quoted quantity of every variant is
   * available, all lines together, the coupon is active, alive and below its limit, order id, charge and key are new,
   * and amounts, quantities and prices satisfy the CHECK constraints.
   */
  lemma ConfirmSucceedsExactly(t: Tables, plan: Plan, now: int)
    ensures var q := plan.quote;
            ConfirmTx(t, plan, now).Ok? <==>
              && (exists c :: c in t.carts && c.owner == User(plan.user) && c.status == Active)
              && plan.order !in t.orders
              && q.subtotal >= 0 && q.shipping >= 0 && q.discount >= 0 && q.total >= 0
              && QuoteFits(t.stock, q.lines)
              && (forall l :: l in q.lines ==> 0 < Int32(l.quantity) <= 99 && l.unitPrice >= 0)
              && (q.coupon != "" ==> CouponAlive(t.coupons, q.coupon, now))
              && ChargeRef(plan.charge.provider, plan.charge.chargeId) !in t.charges && plan.charge.amount >= 0
              && (plan.user, plan.key) !in t.keys
  {
    hide PicksOf, Fits, Positive, QuoteFits;
    ConfirmGoesThrough(t, plan, now);
    FitsAsQuoted(t.stock, plan);
    ItemsAsQuoted(plan);
  }

  /** The coupon exists, is active, not used up and not run out. */
  predicate CouponAlive(coupons: Coupons, code: string, now: int) {
    && code in coupons && coupons[code].active
    && (coupons[code].usageLimit == None || coupons[code].usedCount < coupons[code].usageLimit.value)
    && (coupons[code].expiresAt == None || now < coupons[code].expiresAt.value)
  }

  lemma ItemsAsQuoted(plan: Plan)
    ensures (forall l :: l in plan.quote.lines ==> ItemAllowed(LineItem(plan.order)(l)))
            <==> forall l :: l in plan.quote.lines ==> 0 < Int32(l.quantity) <= 99 && l.unitPrice >= 0
  {
    forall l | l in plan.quote.lines
      ensures ItemAllowed(LineItem(plan.order)(l)) <==> 0 < Int32(l.quantity) <= 99 && l.unitPrice >= 0
    {
    }
  }

  /** Why a confirm is refused, check by check in the order of the statements. */
  lemma ConfirmDecides(t: Tables, plan: Plan, now: int)
    requires PlanMade(plan)
    ensures var r, q := ConfirmTx(t, plan, now), plan.quote;
            if !exists c :: c in t.carts && c.owner == User(plan.user) && c.status == Active then r == Err(CartChanged)
            else if plan.order in t.orders || q.subtotal < 0 || q.shipping < 0 || q.discount < 0 || q.total < 0 then
              r == Err(ConstraintViolation)
            else if !QuoteFits(t.stock, q.lines) then r == Err(InsufficientStock)
            else if exists l :: l in q.lines && l.unitPrice < 0 then r == Err(ConstraintViolation)
            else if q.coupon != "" && !CouponAlive(t.coupons, q.coupon, now) then r == Err(CouponUnavailable)
            else if ChargeRef(plan.charge.provider, plan.charge.chargeId) in t.charges then
              r == Err(ConstraintViolation)
            else if (plan.user, plan.key) in t.keys then r == Err(KeyConflict)
            else r.Ok?
  {
    hide PicksOf, Fits, Positive, QuoteFits, QuoteComputed, PlaceHolds, InsertItems;
    ActiveCartFound(t.carts, User(plan.user));
    FitsAsQuoted(t.stock, plan);
    ItemsAsQuoted(plan);
    QuantitiesNarrow(plan);
    PlaceHoldsExact(t.stock, t.reservations, plan.order, PicksOf(plan), plan.holdUntil);
    PlaceHoldsRefuses(t.stock, t.reservations, plan.order, PicksOf(plan), plan.holdUntil);
    InsertItemsExact(t.items, plan.order, plan.quote.lines);
    assert PicksOf(plan) == LockOrder(Mapped(plan.quote.lines, LinePick)) by {
      PicksNamed(plan);
    }
  }

  lemma PicksNamed(plan: Plan)
    ensures PicksOf(plan) == LockOrder(Mapped(plan.quote.lines, LinePick))
  {
  }

  lemma QuantitiesNarrow(plan: Plan)
    requires PlanMade(plan)
    ensures forall l :: l in plan.quote.lines ==> 0 < Int32(l.quantity) <= 99 && Int32(l.quantity) == l.quantity
    ensures Positive(PicksOf(plan)) && plan.charge.amount == plan.quote.total
  {
    FitsAsQuoted(map[], plan);
  }

  /** The order row that a confirm writes. */
  function OrderRow(plan: Plan): Order {
    Order(plan.user, PendingPayment, plan.quote.subtotal, plan.quote.shipping, plan.quote.discount, plan.quote.total,
          if plan.quote.coupon == "" then None else Some(plan.quote.coupon))
  }

  /** The reservation rows that a confirm owes its lines. */
  function OwedHolds(plan: Plan): seq<Reservation> {
    seq(|plan.quote.lines|, i requires 0 <= i < |plan.quote.lines| =>
      Reservation(plan.order, plan.quote.lines[i].variant, Int32(plan.quote.lines[i].quantity), Held, plan.holdUntil))
  }

  /** The item rows, in quote order. */
  function OwedItems(plan: Plan): seq<Item> {
    seq(|plan.quote.lines|, i requires 0 <= i < |plan.quote.lines| =>
      Item(plan.order, plan.quote.lines[i].variant, Int32(plan.quote.lines[i].quantity), plan.quote.lines[i].unitPrice))
  }

  /** Everything that a successful confirm writes, row by row and field by field, and that it writes nothing else. */
  lemma ConfirmEffect(t: Tables, plan: Plan, now: int)
    requires ConfirmTx(t, plan, now).Ok?
    ensures var t', o, q := ConfirmTx(t, plan, now).value, plan.order, plan.quote;
            var ref := ChargeRef(plan.charge.provider, plan.charge.chargeId);
            && o !in t.orders && t'.orders == t.orders[o := OrderRow(plan)]
            && t'.items == t.items + OwedItems(plan)
            && t'.charges == t.charges[ref := Charge(o, plan.charge.payMethod, plan.charge.amount, ChargePending)]
            && t'.keys == t.keys[(plan.user, plan.key) := KeyRow(plan.requestHash, o,
                                                                 Confirmation(o, OrderRow(plan), plan.charge))]
            && t'.log == t.log + [Transition(o, None, PendingPayment, "checkout_confirmed", "system")]
            && t'.cartItems == t.cartItems && t'.quotes == t.quotes && t'.events == t.events
  {
    hide ConfirmTx;
    ConfirmClosed(t, plan, now);
    assert Mapped(plan.quote.lines, LineItem(plan.order)) == OwedItems(plan);
  }

  lemma HoldsAsOwed(plan: Plan)
    ensures var added := Mapped(PicksOf(plan), Hold(plan.order, plan.holdUntil));
            && |added| == |plan.quote.lines| && multiset(added) == multiset(OwedHolds(plan))
            && forall i, j :: 0 <= i < j < |added| ==> AtMost(added[i].variant.text, added[j].variant.text)
  {
    var lines := Mapped(plan.quote.lines, LinePick);
    LockOrderAscends(lines);
    hide LockOrder, AtMost;
    MappedPermuted(PicksOf(plan), lines, Hold(plan.order, plan.holdUntil));
    assert Mapped(lines, Hold(plan.order, plan.holdUntil)) == OwedHolds(plan);
  }

  lemma RowsAppended(t: Tables, plan: Plan, now: int)
    requires ConfirmTx(t, plan, now).Ok?
    ensures ConfirmTx(t, plan, now).value.reservations
         == t.reservations + Mapped(PicksOf(plan), Hold(plan.order, plan.holdUntil))
  {
    hide ConfirmTx, PicksOf;
    ConfirmClosed(t, plan, now);
  }

  /** The reservations it adds, in lock order. */
  lemma ConfirmHolds(t: Tables, plan: Plan, now: int)
    requires ConfirmTx(t, plan, now).Ok?
    ensures var rows, rows' := t.reservations, ConfirmTx(t, plan, now).value.reservations;
            && |rows'| == |rows| + |plan.quote.lines| && rows'[..|rows|] == rows
            && multiset(rows'[|rows|..]) == multiset(OwedHolds(plan))
            && forall i, j :: |rows| <= i < j < |rows'| ==> AtMost(rows'[i].variant.text, rows'[j].variant.text)
  {
    hide ConfirmTx, PicksOf, OwedHolds, AtMost;
    var added := Mapped(PicksOf(plan), Hold(plan.order, plan.holdUntil));
    RowsAppended(t, plan, now);
    HoldsAsOwed(plan);
    var rows' := t.reservations + added;
    assert rows'[..|t.reservations|] == t.reservations && rows'[|t.reservations|..] == added;
    forall i, j | |t.reservations| <= i < j < |rows'|
      ensures AtMost(rows'[i].variant.text, rows'[j].variant.text)
    {
      assert rows'[i] == added[i - |t.reservations|] && rows'[j] == added[j - |t.reservations|];
    }
  }

  /** Stock and coupon: the quoted quantities move from available to reserved, one use is taken. */
  lemma ConfirmMoves(t: Tables, plan: Plan, now: int)
    requires ConfirmTx(t, plan, now).Ok?
    ensures var t', q := ConfirmTx(t, plan, now).value, plan.quote;
            && t'.stock.Keys == t.stock.Keys
            && (forall v :: v in t.stock ==>
                  t'.stock[v] == StockRow(t.stock[v].available - QuotedDemand(q.lines, v),
                                          t.stock[v].reserved + QuotedDemand(q.lines, v),
                                          t.stock[v].version + Sum(q.lines, LineOf(v))))
            && (if q.coupon == "" then t'.coupons == t.coupons
                else q.coupon in t.coupons
                     && var c := t.coupons[q.coupon];
                        t'.coupons == t.coupons[q.coupon := c.(usedCount := c.usedCount + 1)])
  {
    hide ConfirmTx, PicksOf, Redeemable, QuotedDemand, Demand, Visits;
    ConfirmTakes(t, plan, now);
    forall v ensures Demand(PicksOf(plan), v) == QuotedDemand(plan.quote.lines, v)
                  && Visits(PicksOf(plan), v) == Sum(plan.quote.lines, LineOf(v))
    {
      QuotedDemandIsDemand(plan, v);
    }
  }

  /** Carts: the user's active cart, and no other row, becomes converted. */
  lemma ConfirmConverts(t: Tables, plan: Plan, now: int)
    requires CartsUnique(t.carts) && ConfirmTx(t, plan, now).Ok?
    ensures var carts' := ConfirmTx(t, plan, now).value.carts;
            && |carts'| == |t.carts|
            && (exists i :: 0 <= i < |t.carts| && t.carts[i].owner == User(plan.user) && t.carts[i].status == Active)
            && forall i :: 0 <= i < |t.carts| ==>
                 carts'[i] == if t.carts[i].owner == User(plan.user) && t.carts[i].status == Active
                              then t.carts[i].(status := Converted) else t.carts[i]
  {
    var id := ActiveCart(t.carts, User(plan.user)).value;
    ConfirmClosed(t, plan, now);
    ActiveCartFound(t.carts, User(plan.user));
    hide ConfirmTx, ActiveCart;
    var c :| c in t.carts && c.id == id && c.owner == User(plan.user) && c.status == Active;
    var n: nat :| n < |t.carts| && t.carts[n] == c;
    forall i | 0 <= i < |t.carts|
      ensures t.carts[i].id == id <==> t.carts[i].owner == User(plan.user) && t.carts[i].status == Active
    {
      assert i != n ==> t.carts[i].id != id && (t.carts[i].owner != c.owner || t.carts[i].status != Active);
    }
  }

  /** The order's lines, its picks and its items ask for the same quantities. */
  lemma LinesAgree(plan: Plan, v: VariantId)
    ensures Sum(Mapped(plan.quote.lines, LineItem(plan.order)), OrderedQty(plan.order, v)) == Demand(PicksOf(plan), v)
  {
    var lines := plan.quote.lines;
    var wanted := (l: QuoteLine) => if l.variant == v then Int32(l.quantity) else 0;
    SumMapped(lines, LineItem(plan.order), OrderedQty(plan.order, v), wanted);
    SumMapped(lines, LinePick, Wanted(v), wanted);
    LockOrderKeeps(Mapped(lines, LinePick));
  }

  lemma NewItemsKnown(t: Tables, plan: Plan)
    requires ItemsKnown(t.orders, t.items, t.stock) && Fits(t.stock, PicksOf(plan))
    requires forall l :: l in plan.quote.lines ==> ItemAllowed(LineItem(plan.order)(l))
    ensures ItemsKnown(t.orders[plan.order := NewOrder(plan)], t.items + Mapped(plan.quote.lines, LineItem(plan.order)),
                       ReservedStock(t.stock, PicksOf(plan)))
  {
    var added := Mapped(plan.quote.lines, LineItem(plan.order));
    LockOrderKeeps(Mapped(plan.quote.lines, LinePick));
    forall it | it in added ensures it.order == plan.order && ItemAllowed(it) && it.variant in t.stock {
      var i: nat :| i < |added| && added[i] == it;
      assert Mapped(plan.quote.lines, LinePick)[i] in PicksOf(plan);
    }
  }

  lemma NewHoldsMatch(t: Tables, plan: Plan)
    requires HoldsMatch(t.orders, t.reservations, t.items) && plan.order !in t.orders
    requires forall it :: it in t.items ==> it.order in t.orders
    ensures HoldsMatch(t.orders[plan.order := NewOrder(plan)],
                       t.reservations + Mapped(PicksOf(plan), Hold(plan.order, plan.holdUntil)),
                       t.items + Mapped(plan.quote.lines, LineItem(plan.order)))
  {
    var orders', o := t.orders[plan.order := NewOrder(plan)], plan.order;
    var added := Mapped(plan.quote.lines, LineItem(o));
    var rows' := t.reservations + Mapped(PicksOf(plan), Hold(o, plan.holdUntil));
    forall x, v | x in orders' && orders'[x].status == PendingPayment
      ensures HeldOf(rows', x, v) == Ordered(t.items + added, x, v)
    {
      HoldsAdded(t.reservations, o, PicksOf(plan), plan.holdUntil, v);
      SumConcat(t.items, added, OrderedQty(x, v));
      if x == o {
        LinesAgree(plan, v);
        SumZero(t.reservations, HeldQtyOf(o, v));
        SumZero(t.items, OrderedQty(o, v));
      } else {
        SumZero(added, OrderedQty(x, v));
      }
    }
  }

  lemma NewCharges(t: Tables, plan: Plan)
    requires ChargesAgree(t.orders, t.charges) && plan.order !in t.orders && RefOf(plan) !in t.charges
    requires plan.charge.amount == plan.quote.total
    ensures ChargesAgree(t.orders[plan.order := NewOrder(plan)], t.charges[RefOf(plan) := NewCharge(plan)])
  {
    var charges' := t.charges[RefOf(plan) := NewCharge(plan)];
    assert RefOf(plan) in charges' && charges'[RefOf(plan)].order == plan.order;
    forall o | o in t.orders ensures exists k :: k in charges' && charges'[k].order == o {
      var k :| k in t.charges && t.charges[k].order == o;
      assert k in charges' && charges'[k].order == o;
    }
  }

  lemma NewKeys(t: Tables, plan: Plan)
    requires KeysMatch(t.orders, t.keys) && plan.order !in t.orders && (plan.user, plan.key) !in t.keys
    ensures KeysMatch(t.orders[plan.order := NewOrder(plan)],
                      t.keys[(plan.user, plan.key) := KeyRow(plan.requestHash, plan.order, Answer(plan))])
  {
    var k0, orders' := (plan.user, plan.key), t.orders[plan.order := NewOrder(plan)];
    var keys' := t.keys[k0 := KeyRow(plan.requestHash, plan.order, Answer(plan))];
    forall o | o in orders' ensures exists k :: k in keys' && keys'[k].order == o {
      if o == plan.order {
        assert k0 in keys' && keys'[k0].order == o;
      } else {
        var k :| k in t.keys && t.keys[k].order == o;
        assert k in keys' && keys'[k].order == o;
      }
    }
  }

  lemma {:induction false} UnknownHasNoLog(log: seq<Transition>, o: OrderId)
    requires forall e :: e in log ==> e.order != o
    ensures LogOf(log, o) == []
  {
    if log == [] {
    } else {
      UnknownHasNoLog(log[..|log| - 1], o);
    }
  }

  /** An order that is not known has no entry, and so has not given anything back. */
  lemma UnknownNotLogged(orders: Orders, log: seq<Transition>, o: OrderId)
    requires LogReplays(orders, log) && o !in orders
    ensures LogOf(log, o) == [] && !GaveBack(log, o)
  {
    forall e | e in log ensures e.order != o {
      var i: nat :| i < |log| && log[i] == e;
    }
    hide LogReplays, LogOf;
    UnknownHasNoLog(log, o);
  }

  lemma FirstLink(e: Transition)
    requires e.from == None && e.to == PendingPayment
    ensures Chain([e], PendingPayment)
  {
  }

  lemma NewLog(orders: Orders, log: seq<Transition>, o: OrderId, row: Order, e: Transition)
    requires LogReplays(orders, log) && o !in orders && row.status == PendingPayment
    requires e.order == o && e.from == None && e.to == PendingPayment
    ensures LogReplays(orders[o := row], log + [e]) && !GaveBack(log + [e], o)
  {
    hide Chain, LogOf, GaveBack;
    UnknownNotLogged(orders, log, o);
    GaveBackAppend(log, e, o);
    FirstLink(e);
    assert [] + [e] == [e];
    forall x | x in orders[o := row] ensures Chain(LogOf(log + [e], x), orders[o := row][x].status) {
      LogOfAppend(log, e, x);
    }
  }

  /** The redeemed counter and the new order count each other; the limit is respected. */
  lemma NewCouponUse(t: Tables, plan: Plan, now: int, e: Transition)
    requires CouponsCount(t.orders, t.log, t.coupons) && plan.order !in t.orders
    requires RedeemIfAny(t.coupons, plan.quote.coupon, now).Ok?
    requires e.order == plan.order && e.to == PendingPayment && !GaveBack(t.log + [e], plan.order)
    ensures CouponsCount(t.orders[plan.order := NewOrder(plan)], t.log + [e],
                         RedeemIfAny(t.coupons, plan.quote.coupon, now).value)
  {
    hide CouponUsers;
    var orders' := t.orders[plan.order := NewOrder(plan)];
    forall code | code in t.coupons
      ensures |CouponUsers(orders', t.log + [e], code)|
           == t.coupons[code].usedCount + (if NewOrder(plan).coupon == Some(code) then 1 else 0)
    {
      UserAdded(t.orders, t.log, e, NewOrder(plan), code);
    }
  }

  lemma UserAdded(orders: Orders, log: seq<Transition>, e: Transition, row: Order, code: string)
    requires e.order !in orders && e.to == PendingPayment && !GaveBack(log + [e], e.order)
    ensures |CouponUsers(orders[e.order := row], log + [e], code)|
         == |CouponUsers(orders, log, code)| + (if row.coupon == Some(code) then 1 else 0)
  {
    forall o | o in orders ensures GaveBack(log + [e], o) == GaveBack(log, o) {
      GaveBackAppend(log, e, o);
    }
    hide GaveBack;
    if row.coupon == Some(code) {
      assert CouponUsers(orders[e.order := row], log + [e], code) == CouponUsers(orders, log, code) + {e.order};
    } else {
      assert CouponUsers(orders[e.order := row], log + [e], code) == CouponUsers(orders, log, code);
    }
  }

  // Carts

  lemma {:induction false} ActiveCartFound(carts: seq<Cart>, owner: Owner)
    ensures match ActiveCart(carts, owner)
            case Some(id) => exists c :: c in carts && c.id == id && c.owner == owner && c.status == Active
            case None => forall c :: c in carts ==> c.owner != owner || c.status != Active
  {
    if carts == [] {
    } else {
      ActiveCartFound(carts[..|carts| - 1], owner);
      assert carts == carts[..|carts| - 1] + [carts[|carts| - 1]];
    }
  }

  /** One row with the id: any count over the id is one. */
  lemma {:induction false} OnlyRow(carts: seq<Cart>, c: Cart, f: Cart -> int)
    requires forall i, j :: 0 <= i < j < |carts| ==> carts[i].id != carts[j].id
    requires c in carts && forall x :: x in carts && x.id != c.id ==> f(x) == 0
    ensures Sum(carts, f) == f(c)
  {
    var init, last := carts[..|carts| - 1], carts[|carts| - 1];
    assert carts == init + [last];
    if last == c {
      SumZero(init, f);
    } else {
      OnlyRow(init, c, f);
    }
  }

  lemma ConvertedCounts(carts: seq<Cart>, c: Cart, u: UserId)
    requires CartsUnique(carts) && c in carts && c.status != Converted
    ensures Sum(SetCartStatus(carts, c.id, Converted), ConvertedOne(u))
         == Sum(carts, ConvertedOne(u)) + (if c.owner == User(u) then 1 else 0)
  {
    var after := (x: Cart) => ConvertedOne(u)(SetCartRow(c.id, Converted)(x));
    var extra := (x: Cart) => if x.id == c.id then after(x) - ConvertedOne(u)(x) else 0;
    SumMapped(carts, SetCartRow(c.id, Converted), ConvertedOne(u), after);
    SumSplit(carts, after, ConvertedOne(u), extra);
    OnlyRow(carts, c, extra);
  }

  lemma RetiredUnique(carts: seq<Cart>, id: CartId, status: CartStatus)
    requires CartsUnique(carts) && status != Active
    ensures CartsUnique(SetCartStatus(carts, id, status))
  {
  }

  /** Retiring one owner's cart leaves every other owner's active cart where it is. */
  lemma {:induction false} OthersStayActive(carts: seq<Cart>, id: CartId, owner: Owner, other: Owner,
                                            status: CartStatus)
    requires forall c :: c in carts && c.id == id ==> c.owner == owner
    requires other != owner
    ensures ActiveCart(SetCartStatus(carts, id, status), other) == ActiveCart(carts, other)
  {
    if carts == [] {
    } else {
      OthersStayActive(carts[..|carts| - 1], id, owner, other, status);
      assert SetCartStatus(carts, id, status)[..|carts| - 1] == SetCartStatus(carts[..|carts| - 1], id, status);
    }
  }

  lemma RetiredIsGone(carts: seq<Cart>, id: CartId, owner: Owner, status: CartStatus)
    requires CartsUnique(carts) && ActiveCart(carts, owner) == Some(id) && status != Active
    ensures ActiveCart(SetCartStatus(carts, id, status), owner) == None
    ensures forall c :: c in carts && c.id == id ==> c.owner == owner && c.status == Active
  {
    ActiveCartFound(carts, owner);
    ActiveCartFound(SetCartStatus(carts, id, status), owner);
    var c :| c in carts && c.id == id && c.owner == owner && c.status == Active;
    var i: nat :| i < |carts| && carts[i] == c;
    forall j | 0 <= j < |carts|
      ensures SetCartStatus(carts, id, status)[j].owner != owner || SetCartStatus(carts, id, status)[j].status != Active
    {
      assert j != i ==> carts[j].id != id && (carts[j].owner != owner || carts[j].status != Active);
    }
  }

  lemma NewCarts(t: Tables, plan: Plan)
    requires CartsMatch(t.orders, t.carts) && plan.order !in t.orders
    requires ActiveCart(t.carts, User(plan.user)).Some?
    ensures CartsMatch(t.orders[plan.order := NewOrder(plan)],
                       SetCartStatus(t.carts, ActiveCart(t.carts, User(plan.user)).value, Converted))
  {
    hide CartsUnique;
    var id := ActiveCart(t.carts, User(plan.user)).value;
    ActiveCartFound(t.carts, User(plan.user));
    var c :| c in t.carts && c.id == id && c.owner == User(plan.user) && c.status == Active;
    RetiredUnique(t.carts, id, Converted);
    forall u
      ensures |OrdersOf(t.orders[plan.order := NewOrder(plan)], u)|
          == Sum(SetCartStatus(t.carts, id, Converted), ConvertedOne(u))
    {
      ConvertedCounts(t.carts, c, u);
      OrderCounted(t.orders, plan.order, NewOrder(plan), u);
    }
  }

  lemma OrderCounted(orders: Orders, o: OrderId, row: Order, u: UserId)
    requires o !in orders
    ensures |OrdersOf(orders[o := row], u)| == |OrdersOf(orders, u)| + (if row.user == u then 1 else 0)
  {
    assert OrdersOf(orders[o := row], u) == OrdersOf(orders, u) + (if row.user == u then {o} else {});
  }

  // Money

  /** The new order is priced by its own items. */
  lemma NewOrderPriced(plan: Plan)
    requires QuoteComputed(plan.quote) && OrderAllowed(NewOrder(plan))
    requires forall l :: l in plan.quote.lines ==> ItemAllowed(LineItem(plan.order)(l))
    ensures Priced(NewOrder(plan), Sum(Mapped(plan.quote.lines, LineItem(plan.order)), ItemValue(plan.order)))
  {
    var q := plan.quote;
    forall l | l in q.lines ensures PricedLine(l) && ItemValue(plan.order)(LineItem(plan.order)(l)) == LineValue(l) {
      assert ItemAllowed(LineItem(plan.order)(l));
    }
    SumMapped(q.lines, LineItem(plan.order), ItemValue(plan.order), LineValue);
    SubtotalExact(q.lines);
    TotalExact(q.subtotal, q.shipping, q.discount);
  }

  lemma NewMoney(t: Tables, plan: Plan)
    requires MoneyMatches(t.orders, t.items) && plan.order !in t.orders
    requires forall it :: it in t.items ==> it.order in t.orders
    requires QuoteComputed(plan.quote) && OrderAllowed(NewOrder(plan))
    requires forall l :: l in plan.quote.lines ==> ItemAllowed(LineItem(plan.order)(l))
    ensures MoneyMatches(t.orders[plan.order := NewOrder(plan)],
                         t.items + Mapped(plan.quote.lines, LineItem(plan.order)))
  {
    var added := Mapped(plan.quote.lines, LineItem(plan.order));
    NewOrderPriced(plan);
    forall o | o in t.orders || o == plan.order
      ensures Goods(t.items + added, o) == if o == plan.order then Sum(added, ItemValue(o)) else Goods(t.items, o)
    {
      SumConcat(t.items, added, ItemValue(o));
      if o == plan.order {
        SumZero(t.items, ItemValue(o));
      } else {
        SumZero(added, ItemValue(o));
      }
    }
  }

  /** The new order's items are not sold yet, and nobody else's sold quantity changes. */
  lemma NewOrderSoldNothing(orders: Orders, items: seq<Item>, o: OrderId, row: Order, added: seq<Item>, v: VariantId)
    requires o !in orders && row.status != Paid
    requires forall it :: it in items ==> it.order in orders
    requires forall it :: it in added ==> it.order == o
    ensures SoldTotal(orders[o := row], items + added, v) == SoldTotal(orders, items, v)
  {
    SumConcat(items, added, SoldQty(orders[o := row], v));
    SumZero(added, SoldQty(orders[o := row], v));
    SumSame(items, SoldQty(orders[o := row], v), SoldQty(orders, v));
  }

  /** Reserving moves stock from available to reserved, and a pending order has sold nothing yet. */
  lemma ConfirmBalances(t: Tables, plan: Plan, now: int, v: VariantId)
    requires ItemsKnown(t.orders, t.items, t.stock) && ConfirmTx(t, plan, now).Ok?
    ensures Balance(ConfirmTx(t, plan, now).value, v) == Balance(t, v)
  {
    hide ConfirmTx, SoldTotal, PicksOf;
    ConfirmClosed(t, plan, now);
    NewOrderSoldNothing(t.orders, t.items, plan.order, NewOrder(plan),
                        Mapped(plan.quote.lines, LineItem(plan.order)), v);
  }

  lemma ConfirmConsistent(t: Tables, plan: Plan, now: int)
    requires Consistent(t) && PlanMade(plan) && ConfirmTx(t, plan, now).Ok?
    ensures Consistent(ConfirmTx(t, plan, now).value)
  {
    ConfirmClosed(t, plan, now);
    var e := Transition(plan.order, None, PendingPayment, "checkout_confirmed", "system");
    PlaceHoldsExact(t.stock, t.reservations, plan.order, PicksOf(plan), plan.holdUntil);
    HoldingKeepsLedger(t.stock, t.reservations, plan.order, PicksOf(plan), plan.holdUntil);
    NewItemsKnown(t, plan);
    NewHoldsMatch(t, plan);
    NewCharges(t, plan);
    NewLog(t.orders, t.log, plan.order, NewOrder(plan), e);
    NewCouponUse(t, plan, now, e);
    NewKeys(t, plan);
    NewCarts(t, plan);
    NewMoney(t, plan);
  }

  lemma ConfirmKeeps(t: Tables, plan: Plan, now: int)
    requires Consistent(t) && PlanMade(plan) && ConfirmTx(t, plan, now).Ok?
    ensures Consistent(ConfirmTx(t, plan, now).value) && Conserved(t, ConfirmTx(t, plan, now).value)
  {
    hide PlanMade, Balance, ConfirmTx, Backed, HoldsMatch, ChargesAgree, LogReplays, CouponsCount, KeysMatch;
    hide CartsMatch, MoneyMatches;
    ConfirmConsistent(t, plan, now);
    forall v ensures Balance(ConfirmTx(t, plan, now).value, v) == Balance(t, v) {
      ConfirmBalances(t, plan, now, v);
    }
  }
}
