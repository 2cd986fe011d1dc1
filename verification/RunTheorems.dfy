/** The guarantees of the checkout protocol over whole runs. */
module RunTheorems {
  import opened Prelude
  import opened Schema
  import opened StockLoops
  import opened Money
  import opened Protocol
  import opened Ledger
  import opened Invariants
  import opened Preservation
  import opened Confirming
  import opened CheckoutService
  import opened Transactions
  import opened Runs

  // Tables agree

  /** The order's one and only charge. */
  ghost predicate OnlyCharge(charges: Charges, k: ChargeRef, o: OrderId) {
    && k in charges && charges[k].order == o
    && forall other :: other in charges && charges[other].order == o ==> other == k
  }

  /** The charge's status tells the order's, and the other way round. */
  predicate Tells(charge: ChargeStatus, order: OrderStatus) {
    && (charge == ChargePaid <==> order == Paid || order == PaidAwaitingStock)
    && (charge == ChargeFailed <==> order == PaymentFailed)
    && (charge == ChargePending <==> order == PendingPayment || order == Expired)
  }

  /** Every charge belongs to an order, every order has exactly one charge, and the two statuses tell each other. */
  lemma ChargesFollowOrders(run: seq<Step>)
    requires CheckoutOnly(run)
    ensures var t := Exec(START, run).t;
            && (forall k :: k in t.charges ==> t.charges[k].order in t.orders)
            && (forall o :: o in t.orders ==>
                  exists k :: OnlyCharge(t.charges, k, o) && Tells(t.charges[k].status, t.orders[o].status))
  {
    hide Exec;
    var t := Exec(START, run).t;
    StartIsSound();
    ReachableIsSound(START, run);
    forall o | o in t.orders
      ensures exists k :: OnlyCharge(t.charges, k, o) && Tells(t.charges[k].status, t.orders[o].status)
    {
      ChargeFound(t.orders, t.charges, o);
    }
  }

  lemma ChargeFound(orders: Orders, charges: Charges, o: OrderId)
    requires ChargesAgree(orders, charges) && o in orders
    ensures exists k :: OnlyCharge(charges, k, o) && Tells(charges[k].status, orders[o].status)
  {
    var k :| k in charges && charges[k].order == o;
    assert Agree(charges[k].status, orders[o].status);
    assert OnlyCharge(charges, k, o);
  }

  /**
   * Held stock is exactly the items of the pending orders, order by order and variant by variant, and every held row
   * belongs to a pending order.
   */
  lemma HoldsFollowOrders(run: seq<Step>)
    requires CheckoutOnly(run)
    ensures var t := Exec(START, run).t;
            && (forall r :: r in t.reservations && r.status == Held ==>
                  r.order in t.orders && t.orders[r.order].status == PendingPayment)
            && (forall o, v :: HeldOf(t.reservations, o, v)
                  == if o in t.orders && t.orders[o].status == PendingPayment then Ordered(t.items, o, v) else 0)
  {
    hide Exec;
    var t := Exec(START, run).t;
    StartIsSound();
    ReachableIsSound(START, run);
    forall o, v
      ensures HeldOf(t.reservations, o, v)
           == if o in t.orders && t.orders[o].status == PendingPayment then Ordered(t.items, o, v) else 0
    {
      HeldByOrder(t.orders, t.reservations, t.items, o, v);
    }
  }

  lemma HeldByOrder(orders: Orders, rows: seq<Reservation>, items: seq<Item>, o: OrderId, v: VariantId)
    requires HoldsMatch(orders, rows, items)
    ensures HeldOf(rows, o, v) == if o in orders && orders[o].status == PendingPayment then Ordered(items, o, v) else 0
  {
    if !(o in orders && orders[o].status == PendingPayment) {
      SumZero(rows, HeldQtyOf(o, v));
    }
  }

  /**
   * Amounts travel unchanged from the quoted lines to the order and its charge; the webhook's second check never
   * fails.
   */
  lemma MoneyCarried(run: seq<Step>)
    requires CheckoutOnly(run)
    ensures var t := Exec(START, run).t;
            && (forall o :: o in t.orders ==> Priced(t.orders[o], Goods(t.items, o)))
            && (forall k :: k in t.charges ==>
                  t.charges[k].order in t.orders && t.charges[k].amount == t.orders[t.charges[k].order].total)
  {
    StartIsSound();
    ReachableIsSound(START, run);
  }

  /**
   * A coupon's counter is the number of the orders that never gave their use back, and stays within the limit; every
   * order that can still give its use back, that is every pending one, finds a counter above zero. The orders that
   * enjoy the discount are more than the counter by exactly those that were paid after they had expired.
   */
  lemma CouponsCounted(run: seq<Step>)
    requires CheckoutOnly(run)
    ensures var t := Exec(START, run).t;
            && (forall code :: code in t.coupons ==>
                  && t.coupons[code].usedCount == |CouponUsers(t.orders, t.log, code)|
                  && WithinLimit(t.coupons[code])
                  && |Discounted(t.orders, code)| == t.coupons[code].usedCount + |LatePaid(t.orders, t.log, code)|)
            && (forall o :: o in t.orders && t.orders[o].status == PendingPayment && t.orders[o].coupon.Some? ==>
                  t.orders[o].coupon.value in t.coupons && t.coupons[t.orders[o].coupon.value].usedCount > 0)
  {
    hide Exec;
    var t := Exec(START, run).t;
    StartIsSound();
    ReachableIsSound(START, run);
    forall o | o in t.orders && t.orders[o].status == PendingPayment && t.orders[o].coupon.Some?
      ensures t.orders[o].coupon.value in t.coupons && t.coupons[t.orders[o].coupon.value].usedCount > 0
    {
      ReleasePossible(t.orders, t.log, t.coupons, o);
    }
    forall code | code in t.coupons
      ensures |Discounted(t.orders, code)| == t.coupons[code].usedCount + |LatePaid(t.orders, t.log, code)|
    {
      DiscountsCounted(t.orders, t.log, t.coupons, code);
    }
  }

  /** An order that never expired or failed is still pending or paid. */
  lemma NeverGivenBack(orders: Orders, log: seq<Transition>, o: OrderId)
    requires LogReplays(orders, log) && o in orders && !GaveBack(log, o)
    ensures KeepsDiscount(orders[o].status)
  {
    var c := LogOf(log, o);
    LogOfKeeps(log, o);
    assert Chain(c, orders[o].status);
    assert c[|c| - 1] in c;
  }

  lemma DiscountsCounted(orders: Orders, log: seq<Transition>, coupons: Coupons, code: string)
    requires LogReplays(orders, log) && CouponsCount(orders, log, coupons) && code in coupons
    ensures |Discounted(orders, code)| == coupons[code].usedCount + |LatePaid(orders, log, code)|
  {
    forall o | o in CouponUsers(orders, log, code) ensures o in Discounted(orders, code) {
      NeverGivenBack(orders, log, o);
    }
    assert coupons[code].usedCount == |CouponUsers(orders, log, code)|;
    hide GaveBack, LogReplays, CouponsCount;
    assert Discounted(orders, code) == CouponUsers(orders, log, code) + LatePaid(orders, log, code);
    assert CouponUsers(orders, log, code) !! LatePaid(orders, log, code);
  }

  lemma ReleasePossible(orders: Orders, log: seq<Transition>, coupons: Coupons, o: OrderId)
    requires LogReplays(orders, log) && CouponsCount(orders, log, coupons)
    requires o in orders && orders[o].status == PendingPayment && orders[o].coupon.Some?
    ensures orders[o].coupon.value in coupons && coupons[orders[o].coupon.value].usedCount > 0
  {
    PendingIsFresh(orders, log, o);
    assert o in CouponUsers(orders, log, orders[o].coupon.value);
  }

  function Rank(s: OrderStatus): nat {
    match s
    case PendingPayment => 2
    case Expired => 1
    case _ => 0
  }

  lemma {:induction false} ChainIsShort(c: seq<Transition>, n: nat)
    requires 0 < n <= |c| && c[0].to == PendingPayment
    requires forall i, j :: 0 <= i && j == i + 1 && j < |c| ==> CanTransition(c[i].to, c[j].to)
    ensures n + Rank(c[n - 1].to) <= 3
  {
    if n == 1 {
    } else {
      ChainIsShort(c, n - 1);
      var i, j := n - 2, n - 1;
      assert CanTransition(c[i].to, c[j].to);
    }
  }

  /** Every order's log replays its status through permitted moves, in three entries at most. */
  lemma AuditReplays(run: seq<Step>, o: OrderId)
    requires CheckoutOnly(run) && o in Exec(START, run).t.orders
    ensures var t := Exec(START, run).t; Chain(LogOf(t.log, o), t.orders[o].status) && |LogOf(t.log, o)| <= 3
  {
    var c := LogOf(Exec(START, run).t.log, o);
    StartIsSound();
    ReachableIsSound(START, run);
    ChainIsShort(c, |c|);
  }

  // Conservation

  /** What a step writes as admin, less what was there: zero when the write is refused or is for another variant. */
  function AdminChange(t: Tables, step: Step, v: VariantId): int {
    if step.AdminStock? && step.variant == v && Int32(step.available) >= 0
       && (v !in t.stock || t.stock[v].version == Int32(step.expected))
    then Int32(step.available) - AvailableOf(t, v)
    else 0
  }

  /** What the admin writes of a run add to the available quantity of v. */
  ghost function Adjusted(w: World, run: seq<Step>, v: VariantId): int
    decreases |run|
  {
    if run == [] then 0
    else AdminChange(w.t, run[0], v) + Adjusted(Next(w, run[0]), run[1..], v)
  }

  function AvailableOf(t: Tables, v: VariantId): int {
    if v in t.stock then t.stock[v].available else 0
  }

  lemma StepConserves(w: World, step: Step, v: VariantId)
    requires Sound(w) && !step.RepoReserve? && !step.RepoResolve?
    ensures Balance(Next(w, step).t, v) == Balance(w.t, v) + AdminChange(w.t, step, v)
  {
    hide Consistent, ConfirmTx, Apply, ExpireOrder, SetStock, MakeQuote, PreCheck, PlanMade, SoldTotal, Int32;
    match step
    case SubmitConfirm(client, now) =>
      if client in w.plans && ConfirmTx(w.t, w.plans[client], now).Ok? {
        ConfirmKeeps(w.t, w.plans[client], now);
      }
    case Webhook(ev) =>
      ApplyKeeps(w.t, ev);
    case Expire(order) =>
      if ExpireOrder(w.t, order).Some? {
        ExpireKeeps(w.t, order);
      }
    case AdminStock(variant, available, expected) =>
      SetStockExact(w.t, variant, available, expected);
    case _ =>
  }

  /**
   * Conservation: over every run, available plus reserved plus sold quantity of a variant changes by exactly what the
   * admin wrote, on both routes to a paid order.
   */
  lemma {:induction false} StockConserved(w: World, run: seq<Step>, v: VariantId)
    requires Sound(w) && CheckoutOnly(run)
    ensures Balance(Exec(w, run).t, v) == Balance(w.t, v) + Adjusted(w, run, v)
    decreases |run|
  {
    hide Sound, Next, Balance;
    if run == [] {
    } else {
      assert run[0] in run && forall step :: step in run[1..] ==> step in run;
      StepKeeps(w, run[0]);
      StepConserves(w, run[0], v);
      StockConserved(Next(w, run[0]), run[1..], v);
    }
  }

  // The stock ledger, with the inventory repository's own steps

  ghost predicate LedgerSound(t: Tables) {
    Backed(t.stock, t.reservations) && forall it :: it in t.items ==> ItemAllowed(it)
  }

  lemma ConfirmKeepsLedger(t: Tables, plan: Plan, now: int)
    requires LedgerSound(t) && ConfirmTx(t, plan, now).Ok?
    ensures LedgerSound(ConfirmTx(t, plan, now).value)
  {
    ConfirmClosed(t, plan, now);
    PlaceHoldsExact(t.stock, t.reservations, plan.order, PicksOf(plan), plan.holdUntil);
    HoldingKeepsLedger(t.stock, t.reservations, plan.order, PicksOf(plan), plan.holdUntil);
  }

  lemma EffectKeepsLedger(t: Tables, k: ChargeRef, o: OrderId)
    requires LedgerSound(t)
    ensures LedgerSound(FailPending(t, k, o)) && LedgerSound(PayPending(t, k, o)) && LedgerSound(PayExpired(t, k, o))
  {
    SettlingKeepsLedger(t.stock, t.reservations, o);
    ItemPicksPositive(t.items, o);
    LockOrderKeeps(ItemPicks(t.items, o));
    SellingKeepsLedger(t.stock, t.reservations, LockOrder(ItemPicks(t.items, o)));
  }

  lemma ApplyKeepsLedger(t: Tables, ev: Event)
    requires LedgerSound(t) && Apply(t, ev).Ok?
    ensures LedgerSound(Apply(t, ev).value)
  {
    hide Backed, FailPending, PayPending, PayExpired;
    var k := ChargeRef("mock", ev.chargeId);
    if k in t.charges {
      EffectKeepsLedger(t.(events := t.events + {ev.id}), k, t.charges[k].order);
    }
  }

  lemma ResolveKeepsLedger(t: Tables, o: OrderId, to: HoldStatus)
    requires LedgerSound(t)
    ensures LedgerSound(RepositoryResolve(t, o, to))
  {
    SettlingKeepsLedger(t.stock, t.reservations, o);
    if to == Held {
      assert Settle(t.reservations, o, Held) == t.reservations;
    }
  }

  lemma StepKeepsLedger(w: World, step: Step)
    requires LedgerSound(w.t)
    ensures LedgerSound(Next(w, step).t)
  {
    hide Backed, ConfirmTx, Apply, MakeQuote, PreCheck, RepositoryResolve;
    match step
    case SubmitConfirm(client, now) =>
      if client in w.plans && ConfirmTx(w.t, w.plans[client], now).Ok? {
        ConfirmKeepsLedger(w.t, w.plans[client], now);
      }
    case Webhook(ev) =>
      if Apply(w.t, ev).Ok? {
        ApplyKeepsLedger(w.t, ev);
      }
    case Expire(order) =>
      SettlingKeepsLedger(w.t.stock, w.t.reservations, order);
    case AdminStock(v, available, expected) =>
      if SetStock(w.t, v, available, expected).Ok? {
        UpsertKeepsLedger(w.t.stock, w.t.reservations, v, Int32(available), Int32(expected));
      }
    case RepoReserve(picks, order, expiresAt) =>
      if RepositoryReserve(w.t, picks, order, expiresAt).Ok? {
        HoldingKeepsLedger(w.t.stock, w.t.reservations, order, Mapped(LockOrder(picks), NarrowPick), expiresAt);
      }
    case RepoResolve(order, to) =>
      ResolveKeepsLedger(w.t, order, to);
    case _ =>
  }

  /**
   * In every reachable state, including runs with the inventory repository's own steps, reserved counters are backed by
   * held rows and available is not negative; hence no unchecked guard of a release or commit loop ever misses its row.
   */
  lemma {:induction false} LedgerAlwaysBacked(w: World, run: seq<Step>)
    requires LedgerSound(w.t)
    ensures var t := Exec(w, run).t;
            && LedgerSound(t)
            && forall o, n :: 0 <= n < |HeldPicks(t.reservations, o)| ==>
                 MatchesAt(t.stock, HeldPicks(t.reservations, o), n)
    decreases |run|
  {
    hide Next;
    if run == [] {
      forall o, n | 0 <= n < |HeldPicks(w.t.reservations, o)|
        ensures MatchesAt(w.t.stock, HeldPicks(w.t.reservations, o), n)
      {
        SettlingKeepsLedger(w.t.stock, w.t.reservations, o);
      }
    } else {
      StepKeepsLedger(w, run[0]);
      LedgerAlwaysBacked(Next(w, run[0]), run[1..]);
    }
  }

  // Reservations settle once

  /** Reservation rows stay, keep all but their status, and a row that has been settled is never touched again. */
  ghost predicate RowsKept(rows: seq<Reservation>, rows': seq<Reservation>) {
    |rows| <= |rows'| && forall i :: 0 <= i < |rows| ==>
      rows'[i].(status := rows[i].status) == rows[i] && (rows[i].status != Held ==> rows'[i].status == rows[i].status)
  }

  lemma RowsKeptTransitive(a: seq<Reservation>, b: seq<Reservation>, c: seq<Reservation>)
    requires RowsKept(a, b) && RowsKept(b, c)
    ensures RowsKept(a, c)
  {
    forall i | 0 <= i < |a|
      ensures c[i].(status := a[i].status) == a[i] && (a[i].status != Held ==> c[i].status == a[i].status)
    {
      assert b[i].(status := a[i].status) == a[i] && c[i].(status := b[i].status) == b[i];
    }
  }

  lemma EffectKeepsRows(t: Tables, k: ChargeRef, o: OrderId)
    ensures RowsKept(t.reservations, FailPending(t, k, o).reservations)
    ensures RowsKept(t.reservations, PayPending(t, k, o).reservations)
    ensures RowsKept(t.reservations, PayExpired(t, k, o).reservations)
  {
    hide ReleaseAll, CommitAll, SellAll, HeldPicks, ReleaseCouponOf, TransitionRow, SetChargeRow;
  }

  lemma ApplyKeepsRows(t: Tables, ev: Event)
    requires Apply(t, ev).Ok?
    ensures RowsKept(t.reservations, Apply(t, ev).value.reservations)
  {
    hide FailPending, PayPending, PayExpired, Apply, RowsKept;
    var k := ChargeRef("mock", ev.chargeId);
    ApplyCases(t, ev);
    RowsKeptItself(t.reservations);
    if k in t.charges {
      EffectKeepsRows(t.(events := t.events + {ev.id}), k, t.charges[k].order);
    }
  }

  lemma StepKeepsRows(w: World, step: Step)
    ensures RowsKept(w.t.reservations, Next(w, step).t.reservations)
  {
    hide MakeQuote, PreCheck, Apply, ConfirmTx, PlaceHolds, ReleaseAll, CommitAll, HeldPicks, ReleaseUse;
    match step
    case SubmitConfirm(client, now) =>
      if client in w.plans && ConfirmTx(w.t, w.plans[client], now).Ok? {
        ConfirmClosed(w.t, w.plans[client], now);
      }
    case Webhook(ev) =>
      if Apply(w.t, ev).Ok? {
        ApplyKeepsRows(w.t, ev);
      }
    case RepoReserve(picks, order, expiresAt) =>
      if RepositoryReserve(w.t, picks, order, expiresAt).Ok? {
        PlaceHoldsExact(w.t.stock, w.t.reservations, order, Mapped(LockOrder(picks), NarrowPick), expiresAt);
      }
    case _ =>
  }

  /** Over every run, a held row is committed or released at most once. */
  lemma {:induction false} ReservationsSettleOnce(w: World, run: seq<Step>)
    ensures RowsKept(w.t.reservations, Exec(w, run).t.reservations)
    decreases |run|
  {
    hide Next, RowsKept;
    if run == [] {
      assert RowsKept(w.t.reservations, w.t.reservations) by {
        RowsKeptItself(w.t.reservations);
      }
    } else {
      StepKeepsRows(w, run[0]);
      ReservationsSettleOnce(Next(w, run[0]), run[1..]);
      RowsKeptTransitive(w.t.reservations, Next(w, run[0]).t.reservations, Exec(w, run).t.reservations);
    }
  }

  lemma RowsKeptItself(rows: seq<Reservation>)
    ensures RowsKept(rows, rows)
  {
  }

  // Versions

  lemma ConfirmMovesForward(t: Tables, plan: Plan, now: int)
    requires ConfirmTx(t, plan, now).Ok?
    ensures Later(t.stock, ConfirmTx(t, plan, now).value.stock)
  {
    PlaceHoldsMovesForward(t.stock, t.reservations, plan.order, PicksOf(plan), plan.holdUntil);
  }

  lemma EffectMovesForward(t: Tables, k: ChargeRef, o: OrderId)
    ensures Later(t.stock, FailPending(t, k, o).stock) && Later(t.stock, PayPending(t, k, o).stock)
    ensures Later(t.stock, PayExpired(t, k, o).stock)
  {
    LoopsMoveForward(t.stock, HeldPicks(t.reservations, o));
    LoopsMoveForward(t.stock, LockOrder(ItemPicks(t.items, o)));
  }

  lemma ApplyMovesForward(t: Tables, ev: Event)
    requires Apply(t, ev).Ok?
    ensures Later(t.stock, Apply(t, ev).value.stock)
  {
    hide FailPending, PayPending, PayExpired;
    var k := ChargeRef("mock", ev.chargeId);
    if k in t.charges {
      EffectMovesForward(t.(events := t.events + {ev.id}), k, t.charges[k].order);
    }
  }

  lemma StepMovesForward(w: World, step: Step)
    ensures Later(w.t.stock, Next(w, step).t.stock)
  {
    hide ConfirmTx, Apply, MakeQuote, PreCheck;
    match step
    case SubmitConfirm(client, now) =>
      if client in w.plans && ConfirmTx(w.t, w.plans[client], now).Ok? {
        ConfirmMovesForward(w.t, w.plans[client], now);
      }
    case Webhook(ev) =>
      if Apply(w.t, ev).Ok? {
        ApplyMovesForward(w.t, ev);
      }
    case Expire(order) =>
      LoopsMoveForward(w.t.stock, HeldPicks(w.t.reservations, order));
    case RepoReserve(picks, order, expiresAt) =>
      if RepositoryReserve(w.t, picks, order, expiresAt).Ok? {
        PlaceHoldsMovesForward(w.t.stock, w.t.reservations, order, Mapped(LockOrder(picks), NarrowPick), expiresAt);
      }
    case RepoResolve(order, to) =>
      LoopsMoveForward(w.t.stock, HeldPicks(w.t.reservations, order));
    case _ =>
  }

  lemma {:induction false} RunMovesForward(w: World, run: seq<Step>)
    ensures Later(w.t.stock, Exec(w, run).t.stock)
    decreases |run|
  {
    hide Next;
    if run == [] {
    } else {
      StepMovesForward(w, run[0]);
      RunMovesForward(Next(w, run[0]), run[1..]);
    }
  }

  // Optimistic writes

  lemma {:induction false} LoopsKeepRows(stock: Stock, picks: seq<Pick>)
    ensures ReleaseAll(stock, picks).Keys == stock.Keys && CommitAll(stock, picks).Keys == stock.Keys
    ensures SellAll(stock, picks).Some? ==> SellAll(stock, picks).value.Keys == stock.Keys
  {
    if picks == [] {
    } else {
      LoopsKeepRows(stock, picks[..|picks| - 1]);
    }
  }

  lemma EffectKeepsStockRows(t: Tables, k: ChargeRef, o: OrderId)
    ensures FailPending(t, k, o).stock.Keys == t.stock.Keys && PayPending(t, k, o).stock.Keys == t.stock.Keys
    ensures PayExpired(t, k, o).stock.Keys == t.stock.Keys
  {
    hide ReleaseAll, CommitAll, SellAll, HeldPicks, Settle, ReleaseCouponOf, SetChargeRow, TransitionRow;
    LoopsKeepRows(t.stock, HeldPicks(t.reservations, o));
    LoopsKeepRows(t.stock, LockOrder(ItemPicks(t.items, o)));
  }

  lemma ApplyKeepsStockRows(t: Tables, ev: Event)
    requires Apply(t, ev).Ok?
    ensures Apply(t, ev).value.stock.Keys == t.stock.Keys
  {
    hide FailPending, PayPending, PayExpired, Apply;
    var k := ChargeRef("mock", ev.chargeId);
    ApplyCases(t, ev);
    if k in t.charges {
      EffectKeepsStockRows(t.(events := t.events + {ev.id}), k, t.charges[k].order);
    }
  }

  /** A stock row only ever comes from an admin's write, with nothing reserved and version 0. */
  lemma StepAddsRow(w: World, step: Step, v: VariantId)
    requires v !in w.t.stock && v in Next(w, step).t.stock
    ensures step.AdminStock? && step.variant == v && Next(w, step).t.stock[v] == StockRow(Int32(step.available), 0, 0)
  {
    hide ConfirmTx, Apply, MakeQuote, PreCheck, PlaceHolds, ReleaseAll, CommitAll, HeldPicks, Settle, Int32;
    match step
    case SubmitConfirm(client, now) =>
      if client in w.plans && ConfirmTx(w.t, w.plans[client], now).Ok? {
        ConfirmClosed(w.t, w.plans[client], now);
      }
    case Webhook(ev) =>
      if Apply(w.t, ev).Ok? {
        ApplyKeepsStockRows(w.t, ev);
      }
    case Expire(order) =>
      LoopsKeepRows(w.t.stock, HeldPicks(w.t.reservations, order));
    case RepoReserve(picks, order, expiresAt) =>
      if RepositoryReserve(w.t, picks, order, expiresAt).Ok? {
        PlaceHoldsExact(w.t.stock, w.t.reservations, order, Mapped(LockOrder(picks), NarrowPick), expiresAt);
      }
    case RepoResolve(order, to) =>
      LoopsKeepRows(w.t.stock, HeldPicks(w.t.reservations, order));
    case _ =>
  }

  /** The row is as an admin's write of this run first made it. */
  ghost predicate FirstWritten(run: seq<Step>, v: VariantId, row: StockRow) {
    exists step :: step in run && step.AdminStock? && step.variant == v && row == StockRow(Int32(step.available), 0, 0)
  }

  lemma {:induction false} VersionZeroIsFirstWrite(w: World, run: seq<Step>, v: VariantId)
    requires v !in w.t.stock && v in Exec(w, run).t.stock && Exec(w, run).t.stock[v].version == 0
    ensures FirstWritten(run, v, Exec(w, run).t.stock[v])
    decreases |run|
  {
    hide Next, FirstWritten, Int32;
    if run == [] {
    } else {
      var w' := Next(w, run[0]);
      if v in w'.t.stock {
        StepAddsRow(w, run[0], v);
        RunMovesForward(w', run[1..]);
        assert FirstWritten(run, v, w'.t.stock[v]) by {
          OneWrite(run, run[0], v, w'.t.stock[v]);
        }
      } else {
        VersionZeroIsFirstWrite(w', run[1..], v);
        LongerRun(run, v, Exec(w', run[1..]).t.stock[v]);
      }
    }
  }

  lemma OneWrite(run: seq<Step>, step: Step, v: VariantId, row: StockRow)
    requires step in run && step.AdminStock? && step.variant == v && row == StockRow(Int32(step.available), 0, 0)
    ensures FirstWritten(run, v, row)
  {
  }

  lemma LongerRun(run: seq<Step>, v: VariantId, row: StockRow)
    requires run != [] && FirstWritten(run[1..], v, row)
    ensures FirstWritten(run, v, row)
  {
    var step :| step in run[1..] && step.AdminStock? && step.variant == v
             && row == StockRow(Int32(step.available), 0, 0);
    assert step in run;
  }

  function RowOf(stock: Stock, v: VariantId): Option<StockRow> {
    if v in stock then Some(stock[v]) else None
  }

  /**
   * An optimistic write with the version read earlier, whatever run lies in between, overwrites something else than
   * what was read if and only if nothing was there to read and by then there is a row at just the version sent. Without
   * a row to read the version sent defaults to 0, and a row at version 0 is another admin's first write of that run.
   */
  lemma NoLostUpdate(w: World, run: seq<Step>, v: VariantId, available: int, expected: int)
    requires v in w.t.stock ==> Int32(expected) == w.t.stock[v].version
    ensures var t := Exec(w, run).t;
            && (SetStock(t, v, available, expected).Ok? && RowOf(t.stock, v) != RowOf(w.t.stock, v)
                <==> Int32(available) >= 0 && v !in w.t.stock && v in t.stock && t.stock[v].version == Int32(expected))
            && (v !in w.t.stock && v in t.stock && t.stock[v].version == 0 ==> FirstWritten(run, v, t.stock[v]))
  {
    hide Exec, Int32, FirstWritten;
    RunMovesForward(w, run);
    var t := Exec(w, run).t;
    if v !in w.t.stock && v in t.stock && t.stock[v].version == 0 {
      VersionZeroIsFirstWrite(w, run, v);
    }
  }

  /** Two admins who both saw no row: the second write goes through and the first one's five pieces are gone. */
  lemma FirstWriteLost(v: VariantId)
    ensures var t := Exec(START, [AdminStock(v, 5, 0)]).t;
            && t.stock == map[v := StockRow(5, 0, 0)]
            && SetStock(t, v, 7, 0) == Ok(t.(stock := map[v := StockRow(7, 0, 1)]))
  {
    var run: seq<Step> := [AdminStock(v, 5, 0)];
    assert run[1..] == [];
    var w := Next(START, run[0]);
    assert Exec(START, run) == Exec(w, []) == w;
    assert w.t.stock == map[v := StockRow(5, 0, 0)];
    assert SetStock(w.t, v, 7, 0).value.stock == map[v := StockRow(7, 0, 1)];
  }

  // Confirm at most once

  /** Stored answers are never changed or removed. */
  ghost predicate KeysKept(keys: Keys, keys': Keys) {
    forall k :: k in keys ==> k in keys' && keys'[k] == keys[k]
  }

  lemma StepKeepsKeys(w: World, step: Step)
    ensures KeysKept(w.t.keys, Next(w, step).t.keys)
  {
    hide MakeQuote, PreCheck, Apply;
    match step
    case SubmitConfirm(client, now) =>
      if client in w.plans && ConfirmTx(w.t, w.plans[client], now).Ok? {
        ConfirmClosed(w.t, w.plans[client], now);
      }
    case Webhook(ev) =>
      if Apply(w.t, ev).Ok? {
        ApplyKeepsKeys(w.t, ev);
      }
    case _ =>
  }

  lemma ApplyKeepsKeys(t: Tables, ev: Event)
    requires Apply(t, ev).Ok?
    ensures Apply(t, ev).value.keys == t.keys
  {
    hide FailPending, PayPending, PayExpired, Apply;
    var k := ChargeRef("mock", ev.chargeId);
    ApplyCases(t, ev);
    if k in t.charges && t.charges[k].order in t.orders {
      EffectOnOrders(t.(events := t.events + {ev.id}), k, t.charges[k].order);
    }
  }

  lemma {:induction false} RunKeepsKeys(w: World, run: seq<Step>)
    ensures KeysKept(w.t.keys, Exec(w, run).t.keys)
    decreases |run|
  {
    hide Next;
    if run == [] {
    } else {
      StepKeepsKeys(w, run[0]);
      RunKeepsKeys(Next(w, run[0]), run[1..]);
    }
  }

  /**
   * After a confirm has gone through, whatever run follows: the same key and quote replay exactly the stored answer,
   * the same key with another quote is a conflict, and no other confirm with that key can succeed any more.
   */
  lemma ConfirmedOnce(w: World, plan: Plan, now: int, run: seq<Step>)
    requires ConfirmTx(w.t, plan, now).Ok?
    ensures var t := Exec(w.(t := ConfirmTx(w.t, plan, now).value), run).t;
            && (forall input: ConfirmInput, order, time, hold :: input.user == plan.user && input.key == plan.key ==>
                  PreCheck(t, input, order, time, hold)
                  == if input.quote == plan.requestHash
                     then Replay(Confirmation(plan.order, OrderRow(plan), plan.charge))
                     else Refused(IdempotencyConflict))
            && (forall other: Plan, time :: other.user == plan.user && other.key == plan.key ==>
                 ConfirmTx(t, other, time).Err?)
  {
    ConfirmEffect(w.t, plan, now);
    var w' := w.(t := ConfirmTx(w.t, plan, now).value);
    RunKeepsKeys(w', run);
    var t := Exec(w', run).t;
    assert (plan.user, plan.key) in w'.t.keys;
    hide ConfirmTx, Exec, OrderRow;
    forall other: Plan, time | other.user == plan.user && other.key == plan.key ensures ConfirmTx(t, other, time).Err? {
      if ConfirmTx(t, other, time).Ok? {
        ConfirmClosed(t, other, time);
      }
    }
  }

  /** A step that is not this client's. */
  predicate NotBy(step: Step, client: nat) {
    (step.CheckConfirm? ==> step.client != client) && (step.SubmitConfirm? ==> step.client != client)
  }

  lemma {:induction false} RunKeepsPlan(w: World, run: seq<Step>, client: nat)
    requires client in w.plans && forall step :: step in run ==> NotBy(step, client)
    ensures client in Exec(w, run).plans && Exec(w, run).plans[client] == w.plans[client]
    decreases |run|
  {
    if run == [] {
    } else {
      assert run[0] in run && forall step :: step in run[1..] ==> step in run;
      StepKeepsPlan(w, run[0], client);
      hide Next, NotBy;
      RunKeepsPlan(Next(w, run[0]), run[1..], client);
    }
  }

  lemma StepKeepsPlan(w: World, step: Step, client: nat)
    requires client in w.plans && NotBy(step, client)
    ensures client in Next(w, step).plans && Next(w, step).plans[client] == w.plans[client]
  {
    hide MakeQuote, PreCheck, ConfirmTx, Apply, ExpireOrder, SetStock, RepositoryReserve, RepositoryResolve;
  }

  /**
   * From the client's side: a request passes the pre-check, other steps happen, its transaction goes through, other
   * steps happen, and the identical request comes again. It gets exactly the answer of the first time; the same key
   * with another quote is a conflict, and nothing else goes through with that key.
   */
  lemma RequestRepeats(w: World, client: nat, input: ConfirmInput, order: OrderId, checkedAt: int, holdUntil: int,
                       between: seq<Step>, now: int, run: seq<Step>)
    requires PreCheck(w.t, input, order, checkedAt, holdUntil).Proceed?
    requires forall step :: step in between ==> NotBy(step, client)
    ensures var quote := w.t.quotes[input.quote];
            var charge := ChargeView(order, quote.total, input.payMethod, "mock", "mock_" + order.text);
            var row := Order(input.user, PendingPayment, quote.subtotal, quote.shipping, quote.discount, quote.total,
                             if quote.coupon == "" then None else Some(quote.coupon));
            var w1 := Exec(Next(w, CheckConfirm(client, input, order, checkedAt, holdUntil)), between);
            var w2 := Next(w1, SubmitConfirm(client, now));
            client in w1.plans
            && (ConfirmTx(w1.t, w1.plans[client], now).Ok? ==>
                  var t := Exec(w2, run).t;
                  && order in w2.t.orders && w2.t.orders[order] == row
                  && (forall again: OrderId, time, hold ::
                        PreCheck(t, input, again, time, hold) == Replay(Confirmation(order, row, charge)))
                  && (forall other: ConfirmInput, again, time, hold ::
                        other.user == input.user && other.key == input.key && other.quote != input.quote ==>
                        PreCheck(t, other, again, time, hold) == Refused(IdempotencyConflict))
                  && (forall other: Plan, time :: other.user == input.user && other.key == input.key ==>
                        ConfirmTx(t, other, time).Err?))
  {
    PlanOfRequest(w.t, input, order, checkedAt, holdUntil);
    var plan := PreCheck(w.t, input, order, checkedAt, holdUntil).plan;
    var w0 := Next(w, CheckConfirm(client, input, order, checkedAt, holdUntil));
    assert w0.plans == w.plans[client := plan];
    hide PreCheck, ConfirmTx, Exec, NotBy;
    RunKeepsPlan(w0, between, client);
    var w1 := Exec(w0, between);
    if ConfirmTx(w1.t, plan, now).Ok? {
      var w2 := Next(w1, SubmitConfirm(client, now));
      assert w2 == World(ConfirmTx(w1.t, plan, now).value, w1.plans - {client});
      ConfirmEffect(w1.t, plan, now);
      ConfirmedOnce(w1.(plans := w2.plans), plan, now, run);
    }
  }

  lemma PlanOfRequest(t: Tables, input: ConfirmInput, order: OrderId, now: int, holdUntil: int)
    requires PreCheck(t, input, order, now, holdUntil).Proceed?
    ensures input.quote in t.quotes
    ensures PreCheck(t, input, order, now, holdUntil).plan == PlanFor(t, input, order, holdUntil)
  {
    hide Fingerprint.Preimage, ActiveLines;
  }

  /** Keys and orders correspond one to one, and every user has one order per converted cart. */
  lemma OrdersMatchCarts(run: seq<Step>)
    requires CheckoutOnly(run)
    ensures var t := Exec(START, run).t;
            && KeysMatch(t.orders, t.keys)
            && (forall u :: |OrdersOf(t.orders, u)| == Sum(t.carts, ConvertedOne(u)))
  {
    StartIsSound();
    ReachableIsSound(START, run);
  }

  // Payment

  /** Statuses that no step leaves. */
  predicate Final(s: OrderStatus) {
    s == Paid || s == PaidAwaitingStock || s == PaymentFailed
  }

  ghost predicate FinalKept(orders: Orders, orders': Orders) {
    forall o :: o in orders && Final(orders[o].status) ==> o in orders' && orders'[o].status == orders[o].status
  }

  /** Answers, event ids, quotes and carts stay, and charges keep their orders. */
  ghost predicate LeavesAlone(t: Tables, t': Tables) {
    && t'.keys == t.keys && t'.events == t.events && t'.quotes == t.quotes
    && t'.carts == t.carts && t'.cartItems == t.cartItems
    && t'.charges.Keys == t.charges.Keys
    && forall k :: k in t.charges ==> t'.charges[k].order == t.charges[k].order
  }

  /** The bookkeeping that ends every effect of a webhook. */
  lemma MoveLeavesAlone(t: Tables, s: Tables, k: ChargeRef, status: ChargeStatus, e: Transition, from: OrderStatus)
    requires s == t.(stock := s.stock, reservations := s.reservations, coupons := s.coupons)
    ensures var t' := Move(Charged(s, k, status), e.order, from, e.to, e.reason, e.actor);
            LeavesAlone(t, t') && t'.orders == TransitionRow(t.orders, e.order, from, e.to)
  {
    hide TransitionRow;
  }

  /** What the effects of a webhook leave alone, and the status they lead to. */
  lemma EffectOnOrders(t: Tables, k: ChargeRef, o: OrderId)
    ensures FailPending(t, k, o).orders == TransitionRow(t.orders, o, PendingPayment, PaymentFailed)
    ensures PayPending(t, k, o).orders == TransitionRow(t.orders, o, PendingPayment, Paid)
    ensures PayExpired(t, k, o).orders
         == TransitionRow(t.orders, o, Expired,
                          if SellAll(t.stock, LockOrder(ItemPicks(t.items, o))).Some? then Paid else PaidAwaitingStock)
    ensures LeavesAlone(t, FailPending(t, k, o)) && LeavesAlone(t, PayPending(t, k, o))
        && LeavesAlone(t, PayExpired(t, k, o))
  {
    hide LeavesAlone, Move, Charged, TransitionRow, ReleaseAll, CommitAll, SellAll, HeldPicks, Settle, ReleaseCouponOf;
    var held := HeldPicks(t.reservations, o);
    var committed := t.(stock := CommitAll(t.stock, held), reservations := Settle(t.reservations, o, Committed));
    MoveLeavesAlone(t, GiveBack(t, o), k, ChargeFailed,
                    Transition(o, None, PaymentFailed, "charge_failed", "webhook"), PendingPayment);
    MoveLeavesAlone(t, committed, k, ChargePaid, Transition(o, None, Paid, "charge_paid", "webhook"), PendingPayment);
    match SellAll(t.stock, LockOrder(ItemPicks(t.items, o)))
    case Some(s) =>
      MoveLeavesAlone(t, t.(stock := s), k, ChargePaid,
                      Transition(o, None, Paid, "charge_paid_after_expiry", "webhook"), Expired);
    case None =>
      MoveLeavesAlone(t, t, k, ChargePaid, Transition(o, None, PaidAwaitingStock, "paid_no_stock", "webhook"), Expired);
  }

  /** A webhook leaves the tables, records its event only, or has one of three effects on a known order. */
  lemma ApplyCases(t: Tables, ev: Event)
    requires Apply(t, ev).Ok?
    ensures var t', k := Apply(t, ev).value, ChargeRef("mock", ev.chargeId);
            var t1 := t.(events := t.events + {ev.id});
            if ev.id in t.events then t' == t
            else t' == t1 || (k in t.charges && t.charges[k].order in t.orders
                              && var o := t.charges[k].order;
                                 t' == FailPending(t1, k, o) || t' == PayPending(t1, k, o)
                                 || t' == PayExpired(t1, k, o))
  {
    hide FailPending, PayPending, PayExpired;
  }

  lemma TransitionKeepsFinal(orders: Orders, o: OrderId, from: OrderStatus, to: OrderStatus)
    requires !Final(from)
    ensures FinalKept(orders, TransitionRow(orders, o, from, to))
  {
  }

  lemma FinalKeptItself(orders: Orders)
    ensures FinalKept(orders, orders)
  {
  }

  lemma ApplyKeepsFinal(t: Tables, ev: Event)
    requires Apply(t, ev).Ok?
    ensures FinalKept(t.orders, Apply(t, ev).value.orders)
  {
    hide FailPending, PayPending, PayExpired, Apply, FinalKept, TransitionRow, LeavesAlone;
    var k := ChargeRef("mock", ev.chargeId);
    ApplyCases(t, ev);
    FinalKeptItself(t.orders);
    if k in t.charges && t.charges[k].order in t.orders {
      var o := t.charges[k].order;
      EffectOnOrders(t.(events := t.events + {ev.id}), k, o);
      TransitionKeepsFinal(t.orders, o, PendingPayment, PaymentFailed);
      TransitionKeepsFinal(t.orders, o, PendingPayment, Paid);
      TransitionKeepsFinal(t.orders, o, Expired, Paid);
      TransitionKeepsFinal(t.orders, o, Expired, PaidAwaitingStock);
    }
  }

  lemma StepKeepsFinal(w: World, step: Step)
    ensures FinalKept(w.t.orders, Next(w, step).t.orders)
  {
    hide MakeQuote, PreCheck, Apply;
    match step
    case SubmitConfirm(client, now) =>
      if client in w.plans && ConfirmTx(w.t, w.plans[client], now).Ok? {
        ConfirmClosed(w.t, w.plans[client], now);
      }
    case Webhook(ev) =>
      if Apply(w.t, ev).Ok? {
        ApplyKeepsFinal(w.t, ev);
      }
    case _ =>
  }

  lemma {:induction false} RunKeepsFinal(w: World, run: seq<Step>)
    ensures FinalKept(w.t.orders, Exec(w, run).t.orders)
    decreases |run|
  {
    hide Next;
    if run == [] {
    } else {
      StepKeepsFinal(w, run[0]);
      RunKeepsFinal(Next(w, run[0]), run[1..]);
    }
  }

  /**
   * A payment is never lost: a first-seen paid event with the right charge and amount settles a pending order as paid,
   * and an expired one as paid exactly when the whole order is still available and as waiting for stock otherwise;
   * whatever run follows, the order keeps that status.
   */
  lemma PaymentNeverLost(w: World, ev: Event, run: seq<Step>)
    requires Sound(w) && ev.id !in w.t.events && ev.kind == "paid"
    requires var k := ChargeRef("mock", ev.chargeId);
             && k in w.t.charges && ev.amount == w.t.charges[k].amount
             && var s := w.t.orders[w.t.charges[k].order].status; s == PendingPayment || s == Expired
    ensures var o := w.t.charges[ChargeRef("mock", ev.chargeId)].order;
            var t := Exec(Next(w, Webhook(ev)), run).t;
            && o in t.orders
            && t.orders[o].status
                == (if w.t.orders[o].status == PendingPayment || Fits(w.t.stock, ItemPicks(w.t.items, o))
                                      then Paid else PaidAwaitingStock)
  {
    hide Exec, Consistent;
    ChargeIsKnown(w.t, ChargeRef("mock", ev.chargeId));
    PaidEventSettles(w.t, ev);
    RunKeepsFinal(Next(w, Webhook(ev)), run);
  }

  lemma PaidEventSettles(t: Tables, ev: Event)
    requires Consistent(t) && ev.id !in t.events && ev.kind == "paid"
    requires var k := ChargeRef("mock", ev.chargeId);
             && k in t.charges && ev.amount == t.charges[k].amount
             && t.charges[k].order in t.orders
             && var s := t.orders[t.charges[k].order].status; s == PendingPayment || s == Expired
    ensures var o := t.charges[ChargeRef("mock", ev.chargeId)].order;
            && o in t.orders && Apply(t, ev).Ok? && o in Apply(t, ev).value.orders
            && Apply(t, ev).value.orders[o].status
               == (if t.orders[o].status == PendingPayment || Fits(t.stock, ItemPicks(t.items, o)) then Paid
                   else PaidAwaitingStock)
  {
    hide Consistent, FailPending, PayPending, PayExpired, SellAll, Fits;
    var k := ChargeRef("mock", ev.chargeId);
    var t1 := t.(events := t.events + {ev.id});
    ChargeIsKnown(t, k);
    LateSale(t, t.charges[k].order);
    EffectOnOrders(t1, k, t.charges[k].order);
  }

  /** What a webhook event has to be to have an effect. */
  ghost predicate Effective(t: Tables, ev: Event) {
    var k := ChargeRef("mock", ev.chargeId);
    && ev.id !in t.events
    && k in t.charges && ev.amount == t.charges[k].amount && t.charges[k].order in t.orders
    && var s := t.orders[t.charges[k].order].status;
       (ev.kind == "failed" && s == PendingPayment) || (ev.kind == "paid" && (s == PendingPayment || s == Expired))
  }

  /** Where an effective event takes its order. */
  ghost function Outcome(t: Tables, ev: Event, o: OrderId): OrderStatus
    requires o in t.orders
  {
    if ev.kind == "failed" then PaymentFailed
    else if t.orders[o].status == PendingPayment || Fits(t.stock, ItemPicks(t.items, o)) then Paid
    else PaidAwaitingStock
  }

  /** The reason that goes into the log. */
  ghost function Reason(t: Tables, ev: Event, o: OrderId): string
    requires o in t.orders
  {
    if ev.kind == "failed" then "charge_failed"
    else if t.orders[o].status == PendingPayment then "charge_paid"
    else if Fits(t.stock, ItemPicks(t.items, o)) then "charge_paid_after_expiry"
    else "paid_no_stock"
  }

  /** One use of the order's coupon, if it has one, is given back. */
  function UseReturned(coupons: Coupons, code: Option<string>): Coupons {
    if code.Some? && code.value in coupons
    then coupons[code.value := coupons[code.value].(usedCount := coupons[code.value].usedCount - 1)]
    else coupons
  }

  /** The bookkeeping that all effects share: event, order, charge, log. */
  ghost function Booked(t: Tables, ev: Event): Tables
    requires Effective(t, ev)
  {
    var k := ChargeRef("mock", ev.chargeId);
    var o := t.charges[k].order;
    t.(events := t.events + {ev.id},
       orders := Moved(t.orders, o, Outcome(t, ev, o)),
       charges := t.charges[k := t.charges[k].(status := if ev.kind == "failed" then ChargeFailed else ChargePaid)],
       log := t.log + [Transition(o, Some(t.orders[o].status), Outcome(t, ev, o), Reason(t, ev, o), "webhook")])
  }

  /**
   * The tables after an effective event, in closed form: a failure releases what the order holds and returns its coupon
   * use, a payment in time commits what it holds, a late one takes its items from available if they all fit.
   */
  ghost function WebhookEffect(t: Tables, ev: Event): Tables
    requires Effective(t, ev)
  {
    var o := t.charges[ChargeRef("mock", ev.chargeId)].order;
    var held, ordered := HeldPicks(t.reservations, o), ItemPicks(t.items, o);
    if ev.kind == "failed" then
      Booked(t, ev).(stock := ReleasedStock(t.stock, held), reservations := Marked(t.reservations, o, Released),
                     coupons := UseReturned(t.coupons, t.orders[o].coupon))
    else if t.orders[o].status == PendingPayment then
      Booked(t, ev).(stock := CommittedStock(t.stock, held), reservations := Marked(t.reservations, o, Committed))
    else if Fits(t.stock, ordered) then
      Booked(t, ev).(stock := SoldStock(t.stock, ordered))
    else Booked(t, ev)
  }

  /**
   * An event acts exactly when it is new, its charge and amount are right and the order can still move that way; it
   * then does to all tables what the closed form says, and a pending order holds what it ordered, variant by variant.
   * Every other event leaves no trace but its id.
   */
  lemma WebhookActsExactly(t: Tables, ev: Event)
    requires Consistent(t)
    ensures Apply(t, ev) == Ok(if Effective(t, ev) then WebhookEffect(t, ev) else t.(events := t.events + {ev.id}))
    ensures forall o, v :: o in t.orders && t.orders[o].status == PendingPayment ==>
              Demand(HeldPicks(t.reservations, o), v) == Ordered(t.items, o, v)
  {
    hide Consistent, Apply, WebhookEffect, Effective, HeldPicks, Demand, Ordered;
    if Effective(t, ev) {
      EventActs(t, ev);
    } else {
      EventIgnored(t, ev);
    }
    PendingHoldsOrdered(t);
  }

  /** What an effective event moves, in terms of the order's items: back, out of reserved, or out of available. */
  lemma WebhookMoves(t: Tables, ev: Event, v: VariantId)
    requires Consistent(t) && Effective(t, ev) && v in t.stock
    ensures var o := t.charges[ChargeRef("mock", ev.chargeId)].order;
            var q, row, late := Ordered(t.items, o, v), t.stock[v], t.orders[o].status == Expired;
            && v in WebhookEffect(t, ev).stock
            && var row' := WebhookEffect(t, ev).stock[v];
               && row'.reserved == row.reserved - (if late then 0 else q)
               && row'.available
                  == row.available + (if ev.kind == "failed" then q
                                      else if late && Fits(t.stock, ItemPicks(t.items, o)) then -q else 0)
  {
    var o := t.charges[ChargeRef("mock", ev.chargeId)].order;
    PendingHoldsOrdered(t);
    ItemPicksDemand(t.items, o, v);
    hide Consistent, Booked, Fits, HeldPicks, ItemPicks, Demand, Visits, Ordered, Marked, UseReturned;
    StockBooked(t, ev);
  }

  lemma StockBooked(t: Tables, ev: Event)
    requires Effective(t, ev)
    ensures Booked(t, ev).stock == t.stock
  {
  }

  lemma EventIgnored(t: Tables, ev: Event)
    requires Consistent(t) && !Effective(t, ev)
    ensures Apply(t, ev) == Ok(t.(events := t.events + {ev.id}))
  {
    hide Consistent, FailPending, PayPending, PayExpired;
    var k := ChargeRef("mock", ev.chargeId);
    if k in t.charges {
      ChargeIsKnown(t, k);
    }
    if ev.id in t.events {
      assert t.events + {ev.id} == t.events;
    }
  }

  lemma EventActs(t: Tables, ev: Event)
    requires Consistent(t) && Effective(t, ev)
    ensures Apply(t, ev) == Ok(WebhookEffect(t, ev))
  {
    hide Consistent, FailPending, PayPending, PayExpired, WebhookEffect;
    var k := ChargeRef("mock", ev.chargeId);
    ChargeIsKnown(t, k);
    if ev.kind == "failed" {
      FailureFollows(t, ev);
    } else if t.orders[t.charges[k].order].status == PendingPayment {
      PaymentFollows(t, ev);
    } else {
      LatePaymentFollows(t, ev);
    }
  }

  lemma PendingHoldsOrdered(t: Tables)
    requires Consistent(t)
    ensures forall o, v :: o in t.orders && t.orders[o].status == PendingPayment ==>
              Demand(HeldPicks(t.reservations, o), v) == Ordered(t.items, o, v)
  {
    assert HoldsMatch(t.orders, t.reservations, t.items);
    hide Consistent;
    forall o, v | o in t.orders && t.orders[o].status == PendingPayment
      ensures Demand(HeldPicks(t.reservations, o), v) == Ordered(t.items, o, v)
    {
      HeldPicksDemand(t.reservations, o, v);
    }
  }

  /** The parts of the invariant that decide what a webhook does. */
  lemma LedgerAndCoupons(t: Tables)
    requires Consistent(t)
    ensures Backed(t.stock, t.reservations) && LogReplays(t.orders, t.log) && CouponsCount(t.orders, t.log, t.coupons)
  {
  }

  lemma FailureFollows(t: Tables, ev: Event)
    requires Consistent(t) && Effective(t, ev) && ev.kind == "failed"
    ensures var k := ChargeRef("mock", ev.chargeId);
            FailPending(t.(events := t.events + {ev.id}), k, t.charges[k].order) == WebhookEffect(t, ev)
  {
    LedgerAndCoupons(t);
    hide Consistent, Backed, LogReplays, CouponsCount, ReleaseAll, CommitAll, HeldPicks, Settle, MatchesAt;
    hide ReleasedStock, CommittedStock;
    hide Marked;
    var o := t.charges[ChargeRef("mock", ev.chargeId)].order;
    SettleMarks(t.reservations, o, Released);
    SettlingKeepsLedger(t.stock, t.reservations, o);
    if t.orders[o].coupon.Some? {
      ReleasePossible(t.orders, t.log, t.coupons, o);
    }
  }

  lemma PaymentFollows(t: Tables, ev: Event)
    requires Consistent(t) && Effective(t, ev) && ev.kind == "paid"
    requires t.orders[t.charges[ChargeRef("mock", ev.chargeId)].order].status == PendingPayment
    ensures var k := ChargeRef("mock", ev.chargeId);
            PayPending(t.(events := t.events + {ev.id}), k, t.charges[k].order) == WebhookEffect(t, ev)
  {
    LedgerAndCoupons(t);
    hide Consistent, Backed, LogReplays, CouponsCount, ReleaseAll, CommitAll, HeldPicks, Settle, MatchesAt;
    hide ReleasedStock, CommittedStock, Marked;
    SettleMarks(t.reservations, t.charges[ChargeRef("mock", ev.chargeId)].order, Committed);
    SettlingKeepsLedger(t.stock, t.reservations, t.charges[ChargeRef("mock", ev.chargeId)].order);
  }

  /** The late sale in closed form. */
  lemma LateStock(t: Tables, o: OrderId)
    requires Consistent(t)
    ensures SellAll(t.stock, LockOrder(ItemPicks(t.items, o)))
         == if Fits(t.stock, ItemPicks(t.items, o)) then Some(SoldStock(t.stock, ItemPicks(t.items, o))) else None
  {
    var picks := ItemPicks(t.items, o);
    ItemPicksPositive(t.items, o);
    LedgerAndCoupons(t);
    HeldCovered(t.stock, t.reservations, o);
    hide Consistent, Backed, SellAll, Fits, SoldStock, ItemPicks;
    LockOrderKeeps(picks);
    SellAllExact(t.stock, picks);
    SellAllAnyOrder(t.stock, picks, LockOrder(picks));
  }

  lemma LatePaymentFollows(t: Tables, ev: Event)
    requires Consistent(t) && Effective(t, ev) && ev.kind == "paid"
    requires t.orders[t.charges[ChargeRef("mock", ev.chargeId)].order].status == Expired
    ensures var k := ChargeRef("mock", ev.chargeId);
            PayExpired(t.(events := t.events + {ev.id}), k, t.charges[k].order) == WebhookEffect(t, ev)
  {
    hide Consistent, Fits, SellAll, SoldStock, LockOrder, ItemPicks;
    LateStock(t, t.charges[ChargeRef("mock", ev.chargeId)].order);
  }

  /** An order whose charge is paid never changes its status again; in particular it never expires. */
  lemma PaidChargeStays(w: World, k: ChargeRef, run: seq<Step>)
    requires Sound(w) && k in w.t.charges && w.t.charges[k].status == ChargePaid
    ensures var o, t := w.t.charges[k].order, Exec(w, run).t;
            o in w.t.orders && o in t.orders && t.orders[o].status == w.t.orders[o].status
            && (t.orders[o].status == Paid || t.orders[o].status == PaidAwaitingStock)
  {
    hide Exec, Consistent;
    ChargeIsKnown(w.t, k);
    RunKeepsFinal(w, run);
  }

  // Redelivery

  ghost predicate ChargesKnown(t: Tables) {
    forall k :: k in t.charges ==> t.charges[k].order in t.orders
  }

  /** The run without the webhook steps whose event id came up before. */
  function Pruned(run: seq<Step>, seen: set<string>): seq<Step> {
    if run == [] then []
    else if run[0].Webhook? then
      if run[0].ev.id in seen then Pruned(run[1..], seen)
      else [run[0]] + Pruned(run[1..], seen + {run[0].ev.id})
    else [run[0]] + Pruned(run[1..], seen)
  }

  lemma ApplyRecords(t: Tables, ev: Event)
    requires ChargesKnown(t)
    ensures Apply(t, ev).Ok? && ChargesKnown(Apply(t, ev).value)
    ensures Apply(t, ev).value.events == t.events + {ev.id}
    ensures ev.id in t.events ==> Apply(t, ev).value == t
  {
    hide FailPending, PayPending, PayExpired;
    var k := ChargeRef("mock", ev.chargeId);
    assert Apply(t, ev).Ok?;
    ApplyCases(t, ev);
    hide Apply;
    if k in t.charges {
      EffectOnOrders(t.(events := t.events + {ev.id}), k, t.charges[k].order);
    }
  }

  lemma StepRecords(w: World, step: Step)
    requires ChargesKnown(w.t)
    ensures ChargesKnown(Next(w, step).t)
    ensures Next(w, step).t.events == w.t.events + (if step.Webhook? then {step.ev.id} else {})
  {
    hide MakeQuote, PreCheck, Apply;
    match step
    case SubmitConfirm(client, now) =>
      if client in w.plans && ConfirmTx(w.t, w.plans[client], now).Ok? {
        ConfirmClosed(w.t, w.plans[client], now);
      }
    case Webhook(ev) =>
      ApplyRecords(w.t, ev);
    case _ =>
  }

  /** Redelivery is invisible: leaving out every repeated event gives the same final state, whatever lies between. */
  lemma {:induction false} RedeliveryInvisible(w: World, run: seq<Step>, seen: set<string>)
    requires ChargesKnown(w.t) && seen <= w.t.events
    ensures Exec(w, Pruned(run, seen)) == Exec(w, run)
    decreases |run|
  {
    if run == [] {
    } else {
      var step := run[0];
      StepRecords(w, step);
      if step.Webhook? && step.ev.id in seen {
        ApplyRecords(w.t, step.ev);
        assert Next(w, step) == w;
        RedeliveryInvisible(w, run[1..], seen);
      } else {
        var seen' := seen + (if step.Webhook? then {step.ev.id} else {});
        assert seen' == if step.Webhook? then seen + {step.ev.id} else seen;
        RedeliveryInvisible(Next(w, step), run[1..], seen');
        assert Pruned(run, seen) == [step] + Pruned(run[1..], seen');
        assert Pruned(run, seen)[1..] == Pruned(run[1..], seen');
      }
    }
  }
}
