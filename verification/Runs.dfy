/** Runs of the whole system: any finite interleaving of atomic steps, and what holds in every state they reach. */
module Runs {
  import opened Prelude
  import opened Schema
  import opened StockLoops
  import opened Money
  import opened Protocol
  import opened Ledger
  import opened Invariants
  import opened Preservation
  import opened Confirming
  import opened CheckoutService
  import opened CartMerge

  /** The database and the plans that confirming clients have in hand between pre-check and transaction. */
  datatype World = World(t: Tables, plans: map<nat, Plan>)

  const START := World(EmptyTables, map[])

  /** One atomic step; the last two belong to the inventory repository's own interface. */
  datatype Step =
    | AskQuote(id: QuoteId, quoteInput: QuoteInput, answers: Answers)
    | CheckConfirm(client: nat, input: ConfirmInput, order: OrderId, now: int, holdUntil: int)
    | SubmitConfirm(client: nat, now: int)
    | Webhook(ev: Event)
    | Expire(order: OrderId)
    | AdminStock(variant: VariantId, available: int, expected: int)
    | AddCoupon(code: string, coupon: Coupon)
    | EditCarts(carts: seq<Cart>, cartItems: seq<CartItem>)
    | RepoReserve(picks: seq<Pick>, order: OrderId, expiresAt: int)
    | RepoResolve(order: OrderId, to: HoldStatus)

  /** Any change of the cart tables that the schema allows and that converts no cart. */
  ghost predicate LegalEdit(before: seq<Cart>, carts: seq<Cart>, items: seq<CartItem>) {
    CartTables(carts, items) && forall u :: Sum(carts, ConvertedOne(u)) == Sum(before, ConvertedOne(u))
  }

  /** CHECK constraints and defaults of a new coupon row. */
  predicate NewCouponAllowed(c: Coupon) {
    c.usedCount == 0 && c.active && c.value > 0 && (c.kind == Percent ==> c.value <= 100)
  }

  ghost function Next(w: World, step: Step): World {
    match step
    case AskQuote(id, input, answers) =>
      (match MakeQuote(w.t, id, input, answers)
       case Ok(q) => w.(t := w.t.(quotes := w.t.quotes[id := q]))
       case Err(_) => w)
    case CheckConfirm(client, input, order, now, holdUntil) =>
      (match PreCheck(w.t, input, order, now, holdUntil)
       case Proceed(plan) => w.(plans := w.plans[client := plan])
       case _ => w)
    case SubmitConfirm(client, now) =>
      if client !in w.plans then w
      else
        (match ConfirmTx(w.t, w.plans[client], now)
         case Ok(t) => World(t, w.plans - {client})
         case Err(_) => w.(plans := w.plans - {client}))
    case Webhook(ev) =>
      (match Apply(w.t, ev)
       case Ok(t) => w.(t := t)
       case Err(_) => w)
    case Expire(order) =>
      (match ExpireOrder(w.t, order)
       case Some(t) => w.(t := t)
       case None => w)
    case AdminStock(v, available, expected) =>
      (match SetStock(w.t, v, available, expected)
       case Ok(t) => w.(t := t)
       case Err(_) => w)
    case AddCoupon(code, coupon) =>
      if code !in w.t.coupons && NewCouponAllowed(coupon)
      then w.(t := w.t.(coupons := w.t.coupons[code := coupon])) else w
    case EditCarts(carts, items) =>
      if LegalEdit(w.t.carts, carts, items) then w.(t := w.t.(carts := carts, cartItems := items)) else w
    case RepoReserve(picks, order, expiresAt) =>
      (match RepositoryReserve(w.t, picks, order, expiresAt)
       case Ok(t) => w.(t := t)
       case Err(_) => w)
    case RepoResolve(order, to) => w.(t := RepositoryResolve(w.t, order, to))
  }

  ghost function Exec(w: World, run: seq<Step>): World
    decreases |run|
  {
    if run == [] then w else Exec(Next(w, run[0]), run[1..])
  }

  lemma ExecNothing(w: World)
    ensures Exec(w, []) == w
  {
  }

  /** Doing one more step at the end. */
  lemma {:induction false} ExecAppend(w: World, run: seq<Step>, step: Step)
    ensures Exec(w, run + [step]) == Next(Exec(w, run), step)
    decreases |run|
  {
    hide Next;
    if run == [] {
      assert run + [step] == [step];
    } else {
      assert (run + [step])[1..] == run[1..] + [step];
      ExecAppend(Next(w, run[0]), run[1..], step);
    }
  }

  /** Runs of the wired checkout flow, without the inventory repository's own reserve and resolve. */
  ghost predicate CheckoutOnly(run: seq<Step>) {
    forall step :: step in run ==> !step.RepoReserve? && !step.RepoResolve?
  }

  // Every reachable state is consistent

  ghost predicate Sound(w: World) {
    && Consistent(w.t)
    && QuotesStored(w.t.quotes)
    && CartItemsAllowed(w.t.cartItems)
    && forall c :: c in w.plans ==> PlanMade(w.plans[c])
  }

  lemma StartIsSound()
    ensures Sound(START)
  {
    forall u ensures OrdersOf(EmptyTables.orders, u) == {} {
    }
  }

  lemma CouponAdded(t: Tables, code: string, coupon: Coupon)
    requires Consistent(t) && code !in t.coupons && NewCouponAllowed(coupon)
    ensures Consistent(t.(coupons := t.coupons[code := coupon]))
  {
    hide CouponsCount;
    UnusedCoupon(t.orders, t.log, t.coupons, code, coupon);
  }

  lemma UnusedCoupon(orders: Orders, log: seq<Transition>, coupons: Coupons, code: string, coupon: Coupon)
    requires CouponsCount(orders, log, coupons) && code !in coupons && NewCouponAllowed(coupon)
    ensures CouponsCount(orders, log, coupons[code := coupon])
  {
    assert CouponUsers(orders, log, code) == {};
  }

  lemma StockSet(t: Tables, v: VariantId, available: int, expected: int)
    requires Consistent(t) && SetStock(t, v, available, expected).Ok?
    ensures Consistent(SetStock(t, v, available, expected).value)
  {
    var stock := SetStock(t, v, available, expected).value.stock;
    LedgerPart(t);
    UpsertKeepsLedger(t.stock, t.reservations, v, Int32(available), Int32(expected));
    hide Consistent, Backed;
    StockReplaced(t, stock);
  }

  lemma LedgerPart(t: Tables)
    requires Consistent(t)
    ensures Backed(t.stock, t.reservations)
  {
  }

  lemma CartsEdited(t: Tables, carts: seq<Cart>, items: seq<CartItem>)
    requires Consistent(t) && LegalEdit(t.carts, carts, items)
    ensures Consistent(t.(carts := carts, cartItems := items)) && CartItemsAllowed(items)
  {
  }

  /** A cart merge is one of the legal edits. */
  lemma MergeIsLegalEdit(t: Tables, session: string, user: UserId, newId: CartId)
    requires CartTables(t.carts, t.cartItems) && MergeOnce(t.carts, t.cartItems, session, user, newId).Ok?
    ensures var (carts, items) := MergeOnce(t.carts, t.cartItems, session, user, newId).value;
            LegalEdit(t.carts, carts, items)
  {
    MergedTables(t.carts, t.cartItems, session, user, newId);
  }

  lemma QuoteAdded(t: Tables, id: QuoteId, q: Quote)
    requires Consistent(t)
    ensures Consistent(t.(quotes := t.quotes[id := q]))
  {
  }

  lemma ConfirmLeaves(t: Tables, plan: Plan, now: int)
    requires ConfirmTx(t, plan, now).Ok?
    ensures ConfirmTx(t, plan, now).value.quotes == t.quotes && ConfirmTx(t, plan, now).value.cartItems == t.cartItems
  {
  }

  lemma ApplyLeaves(t: Tables, ev: Event)
    requires Apply(t, ev).Ok?
    ensures Apply(t, ev).value.quotes == t.quotes && Apply(t, ev).value.cartItems == t.cartItems
  {
    hide ReleaseAll, CommitAll, SellAll, HeldPicks, Settle, ReleaseUse, TransitionRow;
  }

  /** Every step of the checkout flow keeps the state sound. */
  lemma StepKeeps(w: World, step: Step)
    requires Sound(w) && !step.RepoReserve? && !step.RepoResolve?
    ensures Sound(Next(w, step))
  {
    hide Consistent, QuotesStored, CartItemsAllowed, PlanMade, PreCheck, MakeQuote, ConfirmTx, Apply;
    hide ExpireOrder, SetStock;
    match step
    case AskQuote(id, input, answers) =>
      if MakeQuote(w.t, id, input, answers).Ok? {
        QuoteIsStored(w.t, id, input, answers);
        QuotesGrow(w.t.quotes, id, MakeQuote(w.t, id, input, answers).value);
        QuoteAdded(w.t, id, MakeQuote(w.t, id, input, answers).value);
      }
    case CheckConfirm(client, input, order, now, holdUntil) =>
      PreCheckProceeds(w.t, input, order, now, holdUntil);
    case SubmitConfirm(client, now) =>
      if client in w.plans && ConfirmTx(w.t, w.plans[client], now).Ok? {
        ConfirmKeeps(w.t, w.plans[client], now);
        ConfirmLeaves(w.t, w.plans[client], now);
      }
    case Webhook(ev) =>
      ApplyKeeps(w.t, ev);
      ApplyLeaves(w.t, ev);
    case Expire(order) =>
      if ExpireOrder(w.t, order).Some? {
        ExpireKeeps(w.t, order);
        ExpireLeaves(w.t, order);
      }
    case AdminStock(v, available, expected) =>
      if SetStock(w.t, v, available, expected).Ok? {
        StockSet(w.t, v, available, expected);
        SetStockLeaves(w.t, v, available, expected);
      }
    case AddCoupon(code, coupon) =>
      if code !in w.t.coupons && NewCouponAllowed(coupon) {
        CouponAdded(w.t, code, coupon);
      }
    case EditCarts(carts, items) =>
      if LegalEdit(w.t.carts, carts, items) {
        CartsEdited(w.t, carts, items);
      }
  }

  lemma QuotesGrow(quotes: map<QuoteId, Quote>, id: QuoteId, q: Quote)
    requires QuotesStored(quotes) && q.id == id && QuoteStored(q)
    ensures QuotesStored(quotes[id := q])
  {
  }

  lemma ExpireLeaves(t: Tables, o: OrderId)
    requires ExpireOrder(t, o).Some?
    ensures ExpireOrder(t, o).value.quotes == t.quotes && ExpireOrder(t, o).value.cartItems == t.cartItems
  {
  }

  lemma SetStockLeaves(t: Tables, v: VariantId, available: int, expected: int)
    requires SetStock(t, v, available, expected).Ok?
    ensures SetStock(t, v, available, expected).value == t.(stock := SetStock(t, v, available, expected).value.stock)
  {
  }

  /** Main result: every state that a run of the checkout flow reaches is sound. */
  lemma {:induction false} ReachableIsSound(w: World, run: seq<Step>)
    requires Sound(w) && CheckoutOnly(run)
    ensures Sound(Exec(w, run))
    decreases |run|
  {
    hide Sound, Next;
    if run == [] {
    } else {
      assert run[0] in run && forall step :: step in run[1..] ==> step in run;
      StepKeeps(w, run[0]);
      ReachableIsSound(Next(w, run[0]), run[1..]);
    }
  }
}
