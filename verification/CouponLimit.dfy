/** What a coupon's usage limit limits: its counter, but not the orders that enjoy the discount. */
module CouponLimit {
  import opened Prelude
  import opened Schema
  import opened StockLoops
  import opened Money
  import opened Protocol
  import opened Ledger
  import opened Invariants
  import opened Preservation
  import opened Confirming
  import opened CheckoutService
  import opened Runs
  import opened RunTheorems
  import opened PurchaseExample

  // Over runs

  /** The order was paid after it had expired. */
  ghost predicate PaidAfterExpiry(log: seq<Transition>, o: OrderId) {
    exists e :: e in log && e.order == o && e.from == Some(Expired)
  }

  lemma {:induction false} ExpiryInChain(c: seq<Transition>, status: OrderStatus, i: nat)
    requires Chain(c, status) && KeepsDiscount(status) && i < |c| && (c[i].to == Expired || c[i].to == PaymentFailed)
    ensures exists e :: e in c && e.from == Some(Expired)
  {
    var next := i + 1;
    assert next < |c|;
    assert c[next].from == Some(c[i].to) && CanTransition(c[i].to, c[next].to);
    assert c[next] in c;
  }

  /** Among the discounted orders, having given the use back means having been paid after expiry. */
  lemma LatePaidMeans(orders: Orders, log: seq<Transition>, code: string)
    requires LogReplays(orders, log)
    ensures LatePaid(orders, log, code) == set o | o in Discounted(orders, code) && PaidAfterExpiry(log, o)
  {
    forall o | o in Discounted(orders, code) ensures GaveBack(log, o) <==> PaidAfterExpiry(log, o) {
      ExpiredOnce(orders, log, o);
    }
  }

  lemma ExpiredBefore(c: seq<Transition>, status: OrderStatus, j: nat)
    requires Chain(c, status) && j < |c| && c[j].from == Some(Expired)
    ensures exists e :: e in c && e.to == Expired
  {
    assert j > 0;
    var before := j - 1;
    assert c[j].from == Some(c[before].to) && c[before] in c;
  }

  lemma ExpiredOnce(orders: Orders, log: seq<Transition>, o: OrderId)
    requires LogReplays(orders, log) && o in orders && KeepsDiscount(orders[o].status)
    ensures GaveBack(log, o) <==> PaidAfterExpiry(log, o)
  {
    assert Chain(LogOf(log, o), orders[o].status);
    hide LogReplays, Chain, LogOf, GaveBack, PaidAfterExpiry;
    LogOfKeeps(log, o);
    if GaveBack(log, o) {
      PaidLater(log, o, LogOf(log, o), orders[o].status);
    }
    if PaidAfterExpiry(log, o) {
      ExpiredEarlier(log, o, LogOf(log, o), orders[o].status);
    }
  }

  lemma PaidLater(log: seq<Transition>, o: OrderId, c: seq<Transition>, status: OrderStatus)
    requires forall e :: e in c <==> e in log && e.order == o
    requires Chain(c, status) && KeepsDiscount(status) && GaveBack(log, o)
    ensures PaidAfterExpiry(log, o)
  {
    hide Chain;
    var e :| e in log && e.order == o && (e.to == Expired || e.to == PaymentFailed);
    var i: nat :| i < |c| && c[i] == e;
    ExpiryInChain(c, status, i);
  }

  lemma ExpiredEarlier(log: seq<Transition>, o: OrderId, c: seq<Transition>, status: OrderStatus)
    requires forall e :: e in c <==> e in log && e.order == o
    requires Chain(c, status) && PaidAfterExpiry(log, o)
    ensures GaveBack(log, o)
  {
    hide Chain;
    var e :| e in log && e.order == o && e.from == Some(Expired);
    var j: nat :| j < |c| && c[j] == e;
    ExpiredBefore(c, status, j);
  }

  /**
   * The exact condition, over every run: the discounted orders are as many as the counter says if and only if no order
   * with the code was paid after it had expired, and they are within a limit if and only if the counter and the late
   * paid orders together are.
   */
  lemma LimitExactly(run: seq<Step>, code: string)
    requires CheckoutOnly(run) && code in Exec(START, run).t.coupons
    ensures var t := Exec(START, run).t;
            var c, late := t.coupons[code], set o | o in Discounted(t.orders, code) && PaidAfterExpiry(t.log, o);
            && (|Discounted(t.orders, code)| == c.usedCount <==> late == {})
            && (c.usageLimit.Some? ==> (|Discounted(t.orders, code)| <= c.usageLimit.value
                                        <==> c.usedCount + |late| <= c.usageLimit.value))
            && (c.usageLimit.Some? && c.usageLimit.value >= 0 && late == {} ==>
                  |Discounted(t.orders, code)| <= c.usageLimit.value)
  {
    hide Exec, Discounted, LatePaid, PaidAfterExpiry;
    var t := Exec(START, run).t;
    CouponsCounted(run);
    StartIsSound();
    ReachableIsSound(START, run);
    LedgerAndCoupons(t);
    LatePaidMeans(t.orders, t.log, code);
  }

  // Step by step

  /** The event pays an expired order that has the code. */
  ghost predicate PaysLate(t: Tables, ev: Event, code: string) {
    && Effective(t, ev)
    && var o := t.charges[ChargeRef("mock", ev.chargeId)].order;
       t.orders[o].status == Expired && t.orders[o].coupon == Some(code)
  }

  lemma MovedIn(orders: Orders, o: OrderId, to: OrderStatus, code: string)
    requires o in orders && orders[o].coupon == Some(code) && !KeepsDiscount(orders[o].status) && KeepsDiscount(to)
    ensures |Discounted(Moved(orders, o, to), code)| == |Discounted(orders, code)| + 1
  {
    assert Discounted(Moved(orders, o, to), code) == Discounted(orders, code) + {o};
  }

  lemma MovedElsewhere(orders: Orders, o: OrderId, to: OrderStatus, code: string)
    requires o in orders
    requires KeepsDiscount(to) && orders[o].coupon == Some(code) ==> KeepsDiscount(orders[o].status)
    ensures Discounted(Moved(orders, o, to), code) <= Discounted(orders, code)
  {
  }

  lemma OrderedIn(orders: Orders, o: OrderId, row: Order, code: string)
    requires o !in orders && row.status == PendingPayment
    ensures |Discounted(orders[o := row], code)|
         == |Discounted(orders, code)| + (if row.coupon == Some(code) then 1 else 0)
    ensures row.coupon != Some(code) ==> Discounted(orders[o := row], code) == Discounted(orders, code)
  {
    if row.coupon == Some(code) {
      assert Discounted(orders[o := row], code) == Discounted(orders, code) + {o};
    } else {
      assert Discounted(orders[o := row], code) == Discounted(orders, code);
    }
  }

  lemma BookedParts(t: Tables, ev: Event)
    requires Effective(t, ev)
    ensures var k, t' := ChargeRef("mock", ev.chargeId), Booked(t, ev);
            && t'.orders == Moved(t.orders, t.charges[k].order, Outcome(t, ev, t.charges[k].order))
            && t'.events == t.events + {ev.id} && t'.items == t.items && t'.coupons == t.coupons
            && (forall x :: x in t.charges && x != k ==> x in t'.charges && t'.charges[x] == t.charges[x])
  {
    hide Outcome, Reason;
  }

  /** The effect of a payment, part by part. */
  lemma EffectParts(t: Tables, ev: Event)
    requires Effective(t, ev)
    ensures var k, t' := ChargeRef("mock", ev.chargeId), WebhookEffect(t, ev);
            var o := t.charges[k].order;
            && t'.orders == Moved(t.orders, o, Outcome(t, ev, o)) && t'.items == t.items
            && t'.events == t.events + {ev.id}
            && (forall x :: x in t.charges && x != k ==> x in t'.charges && t'.charges[x] == t.charges[x])
            && (ev.kind == "paid" ==> t'.coupons == t.coupons)
            && (ev.kind == "paid" && t.orders[o].status == PendingPayment ==>
                  t'.stock == CommittedStock(t.stock, HeldPicks(t.reservations, o)))
            && (ev.kind == "paid" && t.orders[o].status == Expired && Fits(t.stock, ItemPicks(t.items, o)) ==>
                  t'.stock == SoldStock(t.stock, ItemPicks(t.items, o)))
  {
    hide Booked, Moved, Fits, Outcome, HeldPicks, ItemPicks, ReleasedStock, CommittedStock, SoldStock, Settle;
    hide UseReturned;
    BookedParts(t, ev);
  }

  /**
   * A late payment adds a discounted order and leaves the counter alone. So it stays within a limit if and only if
   * there was room for one more, which nothing in the transaction looks at.
   */
  lemma LatePaymentAdds(t: Tables, ev: Event, code: string, limit: int)
    requires Consistent(t) && PaysLate(t, ev, code)
    ensures var t' := WebhookEffect(t, ev);
            && Apply(t, ev) == Ok(t') && t'.coupons == t.coupons
            && |Discounted(t'.orders, code)| == |Discounted(t.orders, code)| + 1
            && (|Discounted(t'.orders, code)| <= limit <==> |Discounted(t.orders, code)| < limit)
  {
    hide Consistent, Apply, WebhookEffect, Fits, ItemPicks, HeldPicks, SoldStock, Discounted;
    var o := t.charges[ChargeRef("mock", ev.chargeId)].order;
    EventActs(t, ev);
    EffectParts(t, ev);
    MovedIn(t.orders, o, Outcome(t, ev, o), code);
  }

  /**
   * A confirm adds one as well. Its guard compares the counter with the limit; it keeps the discounted orders within
   * the limit if and only if the counter and the orders paid late leave room together.
   */
  lemma ConfirmAddsDiscount(t: Tables, plan: Plan, now: int)
    requires Consistent(t) && ConfirmTx(t, plan, now).Ok? && plan.quote.coupon != ""
    ensures var code, t' := plan.quote.coupon, ConfirmTx(t, plan, now).value;
            && code in t.coupons
            && |Discounted(t'.orders, code)| == |Discounted(t.orders, code)| + 1
            && (t.coupons[code].usageLimit.Some? ==>
                  var limit := t.coupons[code].usageLimit.value;
                  && t.coupons[code].usedCount < limit
                  && (|Discounted(t'.orders, code)| <= limit
                      <==> t.coupons[code].usedCount + |LatePaid(t.orders, t.log, code)| < limit))
  {
    var code := plan.quote.coupon;
    hide Consistent, ConfirmTx, PicksOf, Fits, LogReplays, CouponsCount, Discounted, LatePaid, ItemAllowed;
    LedgerAndCoupons(t);
    RedeemedNow(t, plan, now);
    ConfirmAdds(t, plan, now);
    DiscountsCounted(t.orders, t.log, t.coupons, code);
    OrderedIn(t.orders, plan.order, NewOrder(plan), code);
  }

  lemma RedeemedNow(t: Tables, plan: Plan, now: int)
    requires ConfirmTx(t, plan, now).Ok? && plan.quote.coupon != ""
    ensures plan.quote.coupon in t.coupons && Redeemable(t.coupons[plan.quote.coupon], now)
  {
    hide ConfirmTx, PicksOf, Fits;
    ConfirmGoesThrough(t, plan, now);
  }

  /** Nothing else makes an order enjoy the coupon. */
  lemma OnlyTheseAdd(w: World, step: Step, code: string)
    requires Sound(w) && !step.RepoReserve? && !step.RepoResolve?
    requires step.SubmitConfirm? && step.client in w.plans ==> w.plans[step.client].quote.coupon != code
    requires step.Webhook? ==> !PaysLate(w.t, step.ev, code)
    ensures Discounted(Next(w, step).t.orders, code) <= Discounted(w.t.orders, code)
  {
    hide Consistent, MakeQuote, PreCheck, Apply, ConfirmTx, Discounted;
    match step
    case SubmitConfirm(client, now) =>
      if client in w.plans && ConfirmTx(w.t, w.plans[client], now).Ok? {
        ConfirmAdds(w.t, w.plans[client], now);
        OrderedIn(w.t.orders, w.plans[client].order, NewOrder(w.plans[client]), code);
      }
    case Webhook(ev) =>
      WebhookAddsNone(w.t, ev, code);
    case Expire(order) =>
      if ExpireOrder(w.t, order).Some? {
        MovedElsewhere(w.t.orders, order, Expired, code);
      }
    case _ =>
  }

  lemma WebhookAddsNone(t: Tables, ev: Event, code: string)
    requires Consistent(t) && !PaysLate(t, ev, code)
    ensures Apply(t, ev).Ok? && Discounted(Apply(t, ev).value.orders, code) <= Discounted(t.orders, code)
  {
    hide Consistent, Apply, WebhookEffect, Fits, ItemPicks, HeldPicks, Discounted;
    if Effective(t, ev) {
      var o := t.charges[ChargeRef("mock", ev.chargeId)].order;
      EventActs(t, ev);
      EffectParts(t, ev);
      MovedElsewhere(t.orders, o, Outcome(t, ev, o), code);
    } else {
      EventIgnored(t, ev);
    }
  }

  // A run beyond the limit

  const CODE := "SAVE"

  /** Ten cents off, for one order only. */
  function OneUse(used: int): Coupon {
    Coupon(Fixed, 10, None, Some(1), used, None, true)
  }

  function CartOf(id: UuidText): Cart {
    Cart(CartId(id), User(UserId(id)), Active)
  }

  function PieceIn(id: UuidText, v: VariantId): CartItem {
    CartItem(CartId(id), v, 1, 100)
  }

  function QuoteOf(id: UuidText, v: VariantId): Quote {
    Quote(QuoteId(id), UserId(id), Fingerprint.Preimage([CartLine(v, 1)]), [QuoteLine(v, 1, 100)],
          CODE, 100, 0, 10, 90, 10)
  }

  function PlanOf(id: UuidText, v: VariantId): Plan {
    Plan(UserId(id), OrderId(id), QuoteOf(id, v), ChargeFor(OrderId(id), 90, "pix"), "key", QuoteId(id), 5)
  }

  function PaymentOf(id: UuidText): Event {
    Event(id, "paid", "mock_" + id, 90)
  }

  /** Two shoppers with a piece each, the coupon, and as many quotes as given. */
  function Shop(a: UuidText, b: UuidText, quotes: map<QuoteId, Quote>): Tables {
    EmptyTables.(stock := map[VariantId(a) := StockRow(5, 0, 0)], coupons := map[CODE := OneUse(0)],
                 carts := [CartOf(a), CartOf(b)],
                 cartItems := [PieceIn(a, VariantId(a)), PieceIn(b, VariantId(a))],
                 quotes := quotes)
  }

  function BothQuotes(a: UuidText, b: UuidText): map<QuoteId, Quote> {
    map[QuoteId(a) := QuoteOf(a, VariantId(a)), QuoteId(b) := QuoteOf(b, VariantId(a))]
  }

  function AskFor(id: UuidText, v: UuidText): Step {
    AskQuote(QuoteId(id), QuoteInput(UserId(id), "", CODE), Offers(v, 100))
  }

  function CheckFor(client: nat, id: UuidText): Step {
    CheckConfirm(client, Request(id), OrderId(id), 0, 5)
  }

  /** Stock, coupon and carts; two quotes while the coupon is unused; two pre-checks. */
  function TwoInHand(a: UuidText, b: UuidText): seq<Step> {
    [AdminStock(VariantId(a), 5, 0), AddCoupon(CODE, OneUse(0)),
     EditCarts([CartOf(a), CartOf(b)], [PieceIn(a, VariantId(a)), PieceIn(b, VariantId(a))]),
     AskFor(a, a), AskFor(b, a), CheckFor(0, a), CheckFor(1, b)]
  }

  /** The first order expires, the second takes the freed use and is paid, and then the first one's payment arrives. */
  function TwoDiscounts(a: UuidText, b: UuidText): seq<Step> {
    TwoInHand(a, b)
    + [SubmitConfirm(0, 1), Expire(OrderId(a)), SubmitConfirm(1, 6), Webhook(PaymentOf(b)), Webhook(PaymentOf(a))]
  }

  lemma TwoCartsLegal(a: UuidText, b: UuidText)
    requires a != b
    ensures LegalEdit([], [CartOf(a), CartOf(b)], [PieceIn(a, VariantId(a)), PieceIn(b, VariantId(a))])
  {
    assert CartOf(a) in [CartOf(a), CartOf(b)] && CartOf(b) in [CartOf(a), CartOf(b)];
    forall u ensures Sum([CartOf(a), CartOf(b)], ConvertedOne(u)) == 0 {
      SumZero([CartOf(a), CartOf(b)], ConvertedOne(u));
    }
  }

  lemma CartLineOf(a: UuidText, b: UuidText, id: UuidText, quotes: map<QuoteId, Quote>)
    requires a != b && (id == a || id == b)
    ensures ActiveLines(Shop(a, b, quotes), UserId(id)) == [CartLine(VariantId(a), 1)]
  {
    var carts, items := [CartOf(a), CartOf(b)], [PieceIn(a, VariantId(a)), PieceIn(b, VariantId(a))];
    assert carts[..1] == [CartOf(a)] && items[..1] == [PieceIn(a, VariantId(a))];
    assert carts[..1][..0] == [] && items[..1][..0] == [];
    assert ActiveCart(carts[..1], User(UserId(a))) == Some(CartId(a));
    assert ActiveCart(carts, User(UserId(id))) == Some(CartId(id));
    assert LinesOf(items[..1], CartId(id)) == if id == a then [PieceIn(a, VariantId(a))] else [];
    assert LinesOf(items, CartId(id)) == [PieceIn(id, VariantId(a))];
  }

  lemma QuoteFor(a: UuidText, b: UuidText, id: UuidText, quotes: map<QuoteId, Quote>)
    requires a != b && (id == a || id == b) && QuoteId(id) !in quotes
    ensures MakeQuote(Shop(a, b, quotes), QuoteId(id), QuoteInput(UserId(id), "", CODE), Offers(a, 100))
         == Ok(QuoteOf(id, VariantId(a)))
  {
    CartLineOf(a, b, id, quotes);
    assert Wrap64(100) == 100;
    assert ComputeTotal(100, 0, 10) == 90;
    hide ActiveLines, PricedLines, Subtotal, Fingerprint.Preimage, Wrap64, ComputeTotal;
    LinePriced(CartLine(VariantId(a), 1), Offers(a, 100).prices);
    LineCounted(QuoteLine(VariantId(a), 1, 100));
  }

  lemma CheckPasses(a: UuidText, b: UuidText, id: UuidText)
    requires a != b && (id == a || id == b)
    ensures PreCheck(Shop(a, b, BothQuotes(a, b)), Request(id), OrderId(id), 0, 5) == Proceed(PlanOf(id, VariantId(a)))
  {
    CartLineOf(a, b, id, BothQuotes(a, b));
    hide ActiveLines, Fingerprint.Preimage;
  }

  lemma ShopOpens(a: UuidText, b: UuidText)
    requires a != b
    ensures Exec(START, TwoInHand(a, b)[..3]) == World(Shop(a, b, map[]), map[])
  {
    var s := TwoInHand(a, b);
    TwoCartsLegal(a, b);
    hide LegalEdit, Exec;
    Prefixes(START, s);
    assert Exec(START, s[..0]) == START;
    assert Exec(START, s[..1]) == World(EmptyTables.(stock := map[VariantId(a) := StockRow(5, 0, 0)]), map[]);
    assert Exec(START, s[..2]) == World(EmptyTables.(stock := map[VariantId(a) := StockRow(5, 0, 0)],
                                                     coupons := map[CODE := OneUse(0)]), map[]);
  }

  /** A run step by step: each prefix ends where the next step starts. */
  lemma Prefixes(w: World, run: seq<Step>)
    ensures Exec(w, run[..0]) == w
    ensures forall n :: 0 <= n < |run| ==> Exec(w, run[..n + 1]) == Next(Exec(w, run[..n]), run[n])
  {
    ExecNothing(w);
    hide Exec, Next;
    forall n | 0 <= n < |run| ensures Exec(w, run[..n + 1]) == Next(Exec(w, run[..n]), run[n]) {
      ExecAppend(w, run[..n], run[n]);
      assert run[..n + 1] == run[..n] + [run[n]];
    }
  }

  lemma Asked(a: UuidText, b: UuidText, id: UuidText, quotes: map<QuoteId, Quote>)
    requires a != b && (id == a || id == b) && QuoteId(id) !in quotes
    ensures Next(World(Shop(a, b, quotes), map[]), AskFor(id, a))
         == World(Shop(a, b, quotes[QuoteId(id) := QuoteOf(id, VariantId(a))]), map[])
  {
    QuoteFor(a, b, id, quotes);
    hide MakeQuote, QuoteOf;
  }

  lemma Checked(a: UuidText, b: UuidText, id: UuidText, client: nat, plans: map<nat, Plan>)
    requires a != b && (id == a || id == b)
    ensures Next(World(Shop(a, b, BothQuotes(a, b)), plans), CheckFor(client, id))
         == World(Shop(a, b, BothQuotes(a, b)), plans[client := PlanOf(id, VariantId(a))])
  {
    CheckPasses(a, b, id);
    hide PreCheck, BothQuotes, PlanOf, Shop;
  }

  lemma BothChecked(a: UuidText, b: UuidText)
    requires a != b
    ensures Exec(START, TwoInHand(a, b))
         == World(Shop(a, b, BothQuotes(a, b)), map[0 := PlanOf(a, VariantId(a)), 1 := PlanOf(b, VariantId(a))])
  {
    hide Exec, Next, QuoteOf, PlanOf, Shop;
    var s := TwoInHand(a, b);
    var one, plan := map[QuoteId(a) := QuoteOf(a, VariantId(a))], PlanOf(a, VariantId(a));
    ShopOpens(a, b);
    Prefixes(START, s);
    Asked(a, b, a, map[]);
    assert map[][QuoteId(a) := QuoteOf(a, VariantId(a))] == one;
    Asked(a, b, b, one);
    assert one[QuoteId(b) := QuoteOf(b, VariantId(a))] == BothQuotes(a, b);
    Checked(a, b, a, 0, map[]);
    assert map[][0 := plan] == map[0 := plan];
    Checked(a, b, b, 1, map[0 := plan]);
    assert map[0 := plan][1 := PlanOf(b, VariantId(a))] == map[0 := plan, 1 := PlanOf(b, VariantId(a))];
    assert Exec(START, s[..4]) == World(Shop(a, b, one), map[]);
    assert Exec(START, s[..5]) == World(Shop(a, b, BothQuotes(a, b)), map[]);
    assert Exec(START, s[..6]) == World(Shop(a, b, BothQuotes(a, b)), map[0 := plan]);
    assert s[..7] == s;
  }

  // The five transactions

  function RefFor(id: UuidText): ChargeRef {
    ChargeRef("mock", "mock_" + id)
  }

  lemma RefsDiffer(a: UuidText, b: UuidText)
    requires a != b
    ensures RefFor(a) != RefFor(b)
  {
    assert ("mock_" + a)[5..] == a && ("mock_" + b)[5..] == b;
  }

  /** The order is there, in the given status, with the discount. */
  ghost predicate Row(t: Tables, id: UuidText, status: OrderStatus) {
    && OrderId(id) in t.orders && t.orders[OrderId(id)].status == status
    && t.orders[OrderId(id)].coupon == Some(CODE) && t.orders[OrderId(id)].total == 90
  }

  /** Where the two orders stand, how often the coupon counts as used, and what is left of the stock at least. */
  ghost predicate Stand(t: Tables, a: UuidText, b: UuidText, first: OrderStatus, second: Option<OrderStatus>,
                        used: int, left: int)
  {
    var v := VariantId(a);
    && t.orders.Keys == (if second.Some? then {OrderId(a), OrderId(b)} else {OrderId(a)})
    && Row(t, a, first) && (second.Some? ==> Row(t, b, second.value))
    && t.items == (if second.Some? then [Item(OrderId(a), v, 1, 100), Item(OrderId(b), v, 1, 100)]
                   else [Item(OrderId(a), v, 1, 100)])
    && t.coupons == map[CODE := OneUse(used)]
    && v in t.stock && t.stock[v].available >= left
  }

  ghost predicate Unpaid(t: Tables, id: UuidText) {
    && RefFor(id) in t.charges && t.charges[RefFor(id)].order == OrderId(id) && t.charges[RefFor(id)].amount == 90
    && id !in t.events
  }

  lemma PlanOrders(id: UuidText, v: VariantId)
    ensures PicksOf(PlanOf(id, v)) == [Pick(v, 1)] && Demand([Pick(v, 1)], v) == 1
    ensures Mapped(PlanOf(id, v).quote.lines, LineItem(OrderId(id))) == [Item(OrderId(id), v, 1, 100)]
    ensures OrderAllowed(NewOrder(PlanOf(id, v))) && NewOrder(PlanOf(id, v)).total == 90
    ensures NewOrder(PlanOf(id, v)).coupon == Some(CODE) && NewOrder(PlanOf(id, v)).status == PendingPayment
  {
    hide Fingerprint.Preimage, PicksOf;
    OnePick(PlanOf(id, v), v, 1);
    assert Mapped([QuoteLine(v, 1, 100)], LineItem(OrderId(id))) == [LineItem(OrderId(id))(QuoteLine(v, 1, 100))];
  }

  lemma FirstConfirm(a: UuidText, b: UuidText)
    requires a != b
    ensures var t, plan := Shop(a, b, BothQuotes(a, b)), PlanOf(a, VariantId(a));
            && ConfirmTx(t, plan, 1).Ok?
            && var t' := ConfirmTx(t, plan, 1).value;
               && Stand(t', a, b, PendingPayment, None, 1, 4) && Unpaid(t', a)
               && t'.charges.Keys == {RefFor(a)} && t'.events == {} && t'.keys.Keys == {(UserId(a), "key")}
               && CartOf(b) in t'.carts
  {
    var t, v, plan := Shop(a, b, BothQuotes(a, b)), VariantId(a), PlanOf(a, VariantId(a));
    PlanOrders(a, v);
    hide PlanOf, BothQuotes, ConfirmTx, PicksOf, QuoteOf;
    PlanParts(a, v);
    assert CartOf(a) in t.carts;
    ConfirmGoesThrough(t, plan, 1);
    ConfirmClosed(t, plan, 1);
    SecondCartStays(a, b);
  }

  lemma PlanParts(id: UuidText, v: VariantId)
    ensures var plan := PlanOf(id, v);
            && plan.user == UserId(id) && plan.order == OrderId(id) && plan.key == "key" && RefOf(plan) == RefFor(id)
            && plan.quote.coupon == CODE && NewCharge(plan).order == OrderId(id)
            && NewCharge(plan).amount == plan.charge.amount == 90
            && forall l :: l in plan.quote.lines ==> ItemAllowed(LineItem(OrderId(id))(l))
  {
  }

  lemma SecondCartStays(a: UuidText, b: UuidText)
    requires a != b
    ensures ActiveCart([CartOf(a), CartOf(b)], User(UserId(a))) == Some(CartId(a))
    ensures CartOf(b) in SetCartStatus([CartOf(a), CartOf(b)], CartId(a), Converted)
  {
    var carts := [CartOf(a), CartOf(b)];
    assert carts[..1] == [CartOf(a)] && carts[..1][..0] == [];
    assert ActiveCart(carts[..1], User(UserId(a))) == Some(CartId(a));
    assert SetCartStatus(carts, CartId(a), Converted)[1] == CartOf(b);
  }

  lemma FirstExpires(t: Tables, a: UuidText, b: UuidText)
    requires Consistent(t) && Stand(t, a, b, PendingPayment, None, 1, 4)
    ensures ExpireOrder(t, OrderId(a)).Some?
    ensures var t' := ExpireOrder(t, OrderId(a)).value;
            && Stand(t', a, b, Expired, None, 0, 4)
            && t'.charges == t.charges && t'.events == t.events && t'.keys == t.keys && t'.carts == t.carts
  {
    hide Consistent, HasPaidCharge, ReleaseAll, HeldPicks, Settle;
    PendingUncharged(t, OrderId(a));
    StockComesBack(t, OrderId(a), VariantId(a));
    assert map[CODE := OneUse(1)][CODE := OneUse(0)] == map[CODE := OneUse(0)];
  }

  lemma StockComesBack(t: Tables, o: OrderId, v: VariantId)
    requires Consistent(t) && v in t.stock
    ensures var stock := ReleaseAll(t.stock, HeldPicks(t.reservations, o));
            v in stock && stock[v].available >= t.stock[v].available
  {
    LedgerAndCoupons(t);
    hide Consistent, Backed, LogReplays, CouponsCount, ReleaseAll, CommitAll, HeldPicks, Settle, MatchesAt, Demand;
    SettlingKeepsLedger(t.stock, t.reservations, o);
    HeldCovered(t.stock, t.reservations, o);
    DemandNonNegative(HeldPicks(t.reservations, o), v);
  }

  lemma PendingUncharged(t: Tables, o: OrderId)
    requires Consistent(t) && o in t.orders && t.orders[o].status == PendingPayment
    ensures !HasPaidCharge(t.charges, o)
  {
    forall k | k in t.charges && t.charges[k].order == o ensures t.charges[k].status != ChargePaid {
      ChargeIsKnown(t, k);
    }
  }

  lemma SecondConfirm(t: Tables, a: UuidText, b: UuidText)
    requires a != b && Stand(t, a, b, Expired, None, 0, 4) && Unpaid(t, a) && CartOf(b) in t.carts
    requires t.charges.Keys == {RefFor(a)} && t.events == {} && t.keys.Keys == {(UserId(a), "key")}
    ensures ConfirmTx(t, PlanOf(b, VariantId(a)), 6).Ok?
    ensures var t' := ConfirmTx(t, PlanOf(b, VariantId(a)), 6).value;
            Stand(t', a, b, Expired, Some(PendingPayment), 1, 3) && Unpaid(t', a) && Unpaid(t', b)
  {
    SecondGoesThrough(t, a, b);
    var v, plan := VariantId(a), PlanOf(b, VariantId(a));
    PlanOrders(b, v);
    PlanParts(b, v);
    hide Stand, PlanOf, NewOrder, NewCharge, ConfirmTx, PicksOf, QuoteOf, Demand, ReservedStock, RedeemIfAny, Unpaid;
    ConfirmAdds(t, plan, 6);
    ConfirmTakes(t, plan, 6);
    var t' := ConfirmTx(t, plan, 6).value;
    StandsAfter(t, t', a, b, NewOrder(plan));
    ChargeAdded(t, t', a, b, NewCharge(plan));
  }

  lemma StandsAfter(t: Tables, t': Tables, a: UuidText, b: UuidText, row: Order)
    requires a != b && Stand(t, a, b, Expired, None, 0, 4) && t'.orders == t.orders[OrderId(b) := row]
    requires row.status == PendingPayment && row.coupon == Some(CODE) && row.total == 90
    requires t'.items == t.items + [Item(OrderId(b), VariantId(a), 1, 100)]
    requires t'.stock == ReservedStock(t.stock, [Pick(VariantId(a), 1)])
    requires Demand([Pick(VariantId(a), 1)], VariantId(a)) == 1
    requires RedeemIfAny(t.coupons, CODE, 6) == Ok(t'.coupons)
    ensures Stand(t', a, b, Expired, Some(PendingPayment), 1, 3)
  {
    hide Row, Demand, Visits;
    RowsAfter(t, t', a, b, row);
    assert map[CODE := OneUse(0)][CODE := OneUse(1)] == map[CODE := OneUse(1)];
  }

  lemma RowsAfter(t: Tables, t': Tables, a: UuidText, b: UuidText, row: Order)
    requires a != b && t.orders.Keys == {OrderId(a)} && Row(t, a, Expired) && t'.orders == t.orders[OrderId(b) := row]
    requires row.status == PendingPayment && row.coupon == Some(CODE) && row.total == 90
    ensures t'.orders.Keys == {OrderId(a), OrderId(b)} && Row(t', a, Expired) && Row(t', b, PendingPayment)
  {
  }

  lemma ChargeAdded(t: Tables, t': Tables, a: UuidText, b: UuidText, charge: Charge)
    requires a != b && Unpaid(t, a) && t.events == {} && charge.order == OrderId(b) && charge.amount == 90
    requires t'.charges == t.charges[RefFor(b) := charge] && t'.events == t.events
    ensures Unpaid(t', a) && Unpaid(t', b)
  {
    RefsDiffer(a, b);
  }

  lemma SecondGoesThrough(t: Tables, a: UuidText, b: UuidText)
    requires a != b && Stand(t, a, b, Expired, None, 0, 4) && CartOf(b) in t.carts
    requires t.charges.Keys == {RefFor(a)} && t.keys.Keys == {(UserId(a), "key")}
    ensures ConfirmTx(t, PlanOf(b, VariantId(a)), 6).Ok?
  {
    PlanOrders(b, VariantId(a));
    PlanParts(b, VariantId(a));
    RefsDiffer(a, b);
    hide PlanOf, ConfirmTx, PicksOf, QuoteOf, Demand, ItemAllowed;
    ConfirmGoesThrough(t, PlanOf(b, VariantId(a)), 6);
  }

  lemma PaymentMatches(t: Tables, id: UuidText, status: OrderStatus)
    requires Row(t, id, status) && Unpaid(t, id) && (status == PendingPayment || status == Expired)
    ensures Effective(t, PaymentOf(id)) && t.charges[ChargeRef("mock", PaymentOf(id).chargeId)].order == OrderId(id)
  {
  }

  lemma SecondPaid(t: Tables, a: UuidText, b: UuidText)
    requires a != b && Consistent(t)
    requires Stand(t, a, b, Expired, Some(PendingPayment), 1, 3) && Unpaid(t, a) && Unpaid(t, b)
    ensures Apply(t, PaymentOf(b)).Ok?
    ensures var t' := Apply(t, PaymentOf(b)).value; Stand(t', a, b, Expired, Some(Paid), 1, 3) && Unpaid(t', a)
  {
    hide Consistent, Apply, Effective, WebhookEffect, HeldPicks, ItemPicks, Fits, Demand;
    RefsDiffer(a, b);
    PaymentMatches(t, b, PendingPayment);
    EventActs(t, PaymentOf(b));
    EffectParts(t, PaymentOf(b));
  }

  lemma FirstOfTwo(x: Item, y: Item)
    requires x.order != y.order
    ensures ItemPicks([x, y], x.order) == [Pick(x.variant, x.quantity)]
  {
    var items, none := [x, y], [];
    assert items[..1] == [x] && [x][..0] == none;
    assert ItemPicks(none, x.order) == [];
    assert ItemPicks([x], x.order) == [] + [Pick(x.variant, x.quantity)];
  }

  lemma OnePieceFits(t: Tables, a: UuidText, b: UuidText)
    requires a != b && Stand(t, a, b, Expired, Some(Paid), 1, 3)
    ensures ItemPicks(t.items, OrderId(a)) == [Pick(VariantId(a), 1)]
    ensures Demand([Pick(VariantId(a), 1)], VariantId(a)) == 1
    ensures Fits(t.stock, ItemPicks(t.items, OrderId(a)))
  {
    hide ItemPicks, Sum, Row;
    FirstOfTwo(Item(OrderId(a), VariantId(a), 1, 100), Item(OrderId(b), VariantId(a), 1, 100));
    SumSingle(Pick(VariantId(a), 1), Wanted(VariantId(a)));
  }

  lemma FirstPaidLate(t: Tables, a: UuidText, b: UuidText)
    requires a != b && Consistent(t) && Stand(t, a, b, Expired, Some(Paid), 1, 3) && Unpaid(t, a)
    ensures PaysLate(t, PaymentOf(a), CODE) && Apply(t, PaymentOf(a)).Ok?
    ensures Stand(Apply(t, PaymentOf(a)).value, a, b, Paid, Some(Paid), 1, 2)
  {
    hide Consistent, Apply, Effective, WebhookEffect, HeldPicks, ItemPicks, Fits, Demand;
    OnePieceFits(t, a, b);
    PaymentMatches(t, a, Expired);
    EventActs(t, PaymentOf(a));
    EffectParts(t, PaymentOf(a));
  }

  /** From empty tables to two paid orders on a coupon that may be used once; its counter says one. */
  lemma LimitExceeded(a: UuidText, b: UuidText)
    requires a != b
    ensures CheckoutOnly(TwoDiscounts(a, b))
    ensures var t := Exec(START, TwoDiscounts(a, b)).t;
            && t.coupons == map[CODE := OneUse(1)]
            && OrderId(a) in t.orders && t.orders[OrderId(a)].status == Paid
            && OrderId(b) in t.orders && t.orders[OrderId(b)].status == Paid
            && Discounted(t.orders, CODE) == {OrderId(a), OrderId(b)}
  {
    var s := TwoDiscounts(a, b);
    PlanOrders(a, VariantId(a));
    PlanOrders(b, VariantId(a));
    hide Exec, Sound, Consistent, PlanOf, ConfirmTx, Apply, ExpireOrder, Shop, TwoInHand, PaysLate, Unpaid;
    FiveTransactions(a, b);
    assert s[..|s|] == s;
  }

  lemma FiveTransactions(a: UuidText, b: UuidText)
    requires a != b
    ensures CheckoutOnly(TwoDiscounts(a, b))
    ensures Stand(Exec(START, TwoDiscounts(a, b)).t, a, b, Paid, Some(Paid), 1, 2)
  {
    var s := TwoDiscounts(a, b);
    BothChecked(a, b);
    TwoInHandFirst(a, b);
    hide TwoDiscounts;
    FirstHalf(a, b, s);
    SecondHalf(a, b, s);
  }

  /** Every prefix of a checkout run ends in a consistent state. */
  lemma PrefixConsistent(run: seq<Step>, n: nat)
    requires CheckoutOnly(run) && n <= |run|
    ensures Consistent(Exec(START, run[..n]).t)
  {
    hide Exec, Consistent;
    StartIsSound();
    ReachableIsSound(START, run[..n]);
    SoundIsConsistent(Exec(START, run[..n]));
  }

  /** After the second confirm. */
  lemma FirstHalf(a: UuidText, b: UuidText, s: seq<Step>)
    requires a != b && |s| == 12 && CheckoutOnly(s)
    requires s[7] == SubmitConfirm(0, 1) && s[8] == Expire(OrderId(a)) && s[9] == SubmitConfirm(1, 6)
    requires Exec(START, s[..7])
          == World(Shop(a, b, BothQuotes(a, b)), map[0 := PlanOf(a, VariantId(a)), 1 := PlanOf(b, VariantId(a))])
    ensures var t := Exec(START, s[..10]).t;
            Stand(t, a, b, Expired, Some(PendingPayment), 1, 3) && Unpaid(t, a) && Unpaid(t, b)
  {
    hide Exec, Consistent, PlanOf, ConfirmTx, ExpireOrder, Shop, Stand, Unpaid, BothQuotes, CheckoutOnly;
    var w7, w8, w9 := Exec(START, s[..7]), Exec(START, s[..8]), Exec(START, s[..9]);
    Prefixes(START, s);
    FirstConfirm(a, b);
    assert w8.t == ConfirmTx(w7.t, PlanOf(a, VariantId(a)), 1).value && w8.plans == map[1 := PlanOf(b, VariantId(a))];
    PrefixConsistent(s, 8);
    FirstExpires(w8.t, a, b);
    assert w9.t == ExpireOrder(w8.t, OrderId(a)).value && w9.plans == w8.plans;
    UnpaidKept(w8.t, w9.t, a);
    SecondConfirm(w9.t, a, b);
  }

  lemma UnpaidKept(t: Tables, t': Tables, id: UuidText)
    requires Unpaid(t, id) && t'.charges == t.charges && t'.events == t.events
    ensures Unpaid(t', id)
  {
  }

  lemma SecondHalf(a: UuidText, b: UuidText, s: seq<Step>)
    requires a != b && |s| == 12 && CheckoutOnly(s)
    requires s[10] == Webhook(PaymentOf(b)) && s[11] == Webhook(PaymentOf(a))
    requires var t := Exec(START, s[..10]).t;
             Stand(t, a, b, Expired, Some(PendingPayment), 1, 3) && Unpaid(t, a) && Unpaid(t, b)
    ensures Stand(Exec(START, s).t, a, b, Paid, Some(Paid), 1, 2)
  {
    hide Exec, Consistent, Apply, Stand, Unpaid, CheckoutOnly, PaysLate;
    Prefixes(START, s);
    PrefixConsistent(s, 10);
    SecondPaid(Exec(START, s[..10]).t, a, b);
    PrefixConsistent(s, 11);
    FirstPaidLate(Exec(START, s[..11]).t, a, b);
    assert s[..12] == s;
  }

  lemma TwoInHandFirst(a: UuidText, b: UuidText)
    ensures |TwoInHand(a, b)| == 7 && TwoDiscounts(a, b)[..7] == TwoInHand(a, b) && CheckoutOnly(TwoDiscounts(a, b))
  {
  }

  lemma SoundIsConsistent(w: World)
    requires Sound(w)
    ensures Consistent(w.t)
  {
  }
}
