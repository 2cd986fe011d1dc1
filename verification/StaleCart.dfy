/** Does a confirm order the cart as it is? The fingerprint is compared before the transaction, not inside it. */
module StaleCart {
  import opened Prelude
  import opened Schema
  import opened Protocol
  import opened Invariants
  import opened Confirming
  import opened CheckoutService
  import opened Runs
  import opened RunTheorems
  import opened PurchaseExample

  function PickedLine(p: Pick): CartLine {
    CartLine(p.variant, p.quantity)
  }

  /** Variants and quantities of an order's items. */
  function OrderedLines(items: seq<Item>, o: OrderId): seq<CartLine> {
    Mapped(ItemPicks(items, o), PickedLine)
  }

  /** The transaction orders exactly what is in the cart at that moment, from a quote that has not run out. */
  ghost predicate OrdersTheCart(t: Tables, plan: Plan, now: int)
    requires ConfirmTx(t, plan, now).Ok?
  {
    && multiset(OrderedLines(ConfirmTx(t, plan, now).value.items, plan.order))
       == InCart(t.carts, t.cartItems, plan.user)
    && plan.quote.expiresAt > now
  }

  // What a confirm orders

  lemma {:induction false} NoPicks(items: seq<Item>, o: OrderId)
    requires forall it :: it in items ==> it.order != o
    ensures ItemPicks(items, o) == []
  {
    if items == [] {
    } else {
      NoPicks(items[..|items| - 1], o);
    }
  }

  lemma {:induction false} NewPicks(items: seq<Item>, o: OrderId, lines: seq<QuoteLine>)
    requires forall it :: it in items ==> it.order != o
    ensures ItemPicks(items + Mapped(lines, LineItem(o)), o) == Mapped(lines, LinePick)
  {
    var all := items + Mapped(lines, LineItem(o));
    if lines == [] {
      assert all == items;
      NoPicks(items, o);
    } else {
      var init := lines[..|lines| - 1];
      NewPicks(items, o, init);
      assert all[..|all| - 1] == items + Mapped(init, LineItem(o));
      assert Mapped(lines, LinePick) == Mapped(init, LinePick) + [LinePick(lines[|lines| - 1])];
    }
  }

  lemma PicksAsQuoted(lines: seq<QuoteLine>)
    requires forall l :: l in lines ==> 1 <= l.quantity <= 99
    ensures Mapped(Mapped(lines, LinePick), PickedLine) == Mapped(lines, QuotedLine)
  {
    forall i | 0 <= i < |lines| ensures PickedLine(LinePick(lines[i])) == QuotedLine(lines[i]) {
      assert lines[i] in lines;
    }
  }

  /** A confirm orders the quoted lines, whatever the cart holds by then. */
  lemma QuoteIsOrdered(t: Tables, plan: Plan, now: int)
    requires PlanMade(plan) && ConfirmTx(t, plan, now).Ok?
    requires forall it :: it in t.items ==> it.order in t.orders
    ensures OrderedLines(ConfirmTx(t, plan, now).value.items, plan.order) == Mapped(plan.quote.lines, QuotedLine)
  {
    hide ConfirmTx, ItemPicks;
    ConfirmAdds(t, plan, now);
    NewPicks(t.items, plan.order, plan.quote.lines);
    PicksAsQuoted(plan.quote.lines);
  }

  /**
   * The promise and its exact condition. A confirm that goes through orders the cart as it is, from a living quote, if
   * and only if the quote has not run out by then and the cart holds the same lines as at the pre-check.
   */
  lemma ConfirmsCartExactly(before: Tables, input: ConfirmInput, order: OrderId, checkedAt: int, holdUntil: int,
                            t: Tables, now: int)
    requires QuotesStored(before.quotes) && PreCheck(before, input, order, checkedAt, holdUntil).Proceed?
    requires CartsUnique(before.carts)
    requires ConfirmTx(t, PreCheck(before, input, order, checkedAt, holdUntil).plan, now).Ok?
    requires forall it :: it in t.items ==> it.order in t.orders
    ensures var plan := PreCheck(before, input, order, checkedAt, holdUntil).plan;
            OrdersTheCart(t, plan, now) <==>
              && plan.quote.expiresAt > now
              && InCart(t.carts, t.cartItems, input.user) == InCart(before.carts, before.cartItems, input.user)
  {
    hide PreCheck, ConfirmTx, ActiveLines, OrderedLines, QuotesStored, PlanMade, CartsUnique, InCart;
    PlanFromQuote(before, input, order, checkedAt, holdUntil);
    ActiveLinesExact(before, input.user);
    QuoteIsOrdered(t, PreCheck(before, input, order, checkedAt, holdUntil).plan, now);
  }

  lemma PlanFromQuote(t: Tables, input: ConfirmInput, order: OrderId, now: int, holdUntil: int)
    requires QuotesStored(t.quotes) && PreCheck(t, input, order, now, holdUntil).Proceed?
    ensures var plan := PreCheck(t, input, order, now, holdUntil).plan;
            PlanMade(plan) && plan.user == input.user && plan.order == order
            && multiset(Mapped(plan.quote.lines, QuotedLine)) == multiset(ActiveLines(t, input.user))
  {
    PreCheckProceeds(t, input, order, now, holdUntil);
  }

  // Runs that leave the cart alone

  /** A step that edits no cart and is not this client's. */
  predicate LeavesCart(step: Step, client: nat) {
    && !step.EditCarts?
    && (step.CheckConfirm? ==> step.client != client)
    && (step.SubmitConfirm? ==> step.client != client)
  }

  /** The cart lines are as they were, and the user's active cart is the same or gone. */
  ghost predicate CartKept(t: Tables, t': Tables, u: UserId) {
    && t'.cartItems == t.cartItems
    && (ActiveCart(t'.carts, User(u)) == None || ActiveCart(t'.carts, User(u)) == ActiveCart(t.carts, User(u)))
  }

  lemma ConfirmKeepsCart(t: Tables, plan: Plan, now: int, u: UserId)
    requires CartsUnique(t.carts) && ConfirmTx(t, plan, now).Ok?
    ensures CartKept(t, ConfirmTx(t, plan, now).value, u)
  {
    hide ConfirmTx, CartsUnique;
    ConfirmClosed(t, plan, now);
    var id := ActiveCart(t.carts, User(plan.user)).value;
    RetiredIsGone(t.carts, id, User(plan.user), Converted);
    if u != plan.user {
      OthersStayActive(t.carts, id, User(plan.user), User(u), Converted);
    }
  }

  lemma ApplyKeepsCart(t: Tables, ev: Event)
    requires Apply(t, ev).Ok?
    ensures Apply(t, ev).value.carts == t.carts && Apply(t, ev).value.cartItems == t.cartItems
  {
    hide FailPending, PayPending, PayExpired, Apply;
    var k := ChargeRef("mock", ev.chargeId);
    ApplyCases(t, ev);
    if k in t.charges && t.charges[k].order in t.orders {
      EffectOnOrders(t.(events := t.events + {ev.id}), k, t.charges[k].order);
    }
  }

  lemma StepKeepsCart(w: World, step: Step, client: nat, u: UserId)
    requires CartsUnique(w.t.carts) && LeavesCart(step, client)
    ensures CartKept(w.t, Next(w, step).t, u)
    ensures client in w.plans ==> client in Next(w, step).plans && Next(w, step).plans[client] == w.plans[client]
  {
    hide MakeQuote, PreCheck, ConfirmTx, Apply, CartsUnique, ActiveCart;
    match step
    case SubmitConfirm(c, now) =>
      if c in w.plans && ConfirmTx(w.t, w.plans[c], now).Ok? {
        ConfirmKeepsCart(w.t, w.plans[c], now, u);
      }
    case Webhook(ev) =>
      if Apply(w.t, ev).Ok? {
        ApplyKeepsCart(w.t, ev);
      }
    case _ =>
  }

  lemma SoundCarts(w: World)
    requires Sound(w)
    ensures CartsUnique(w.t.carts) && QuotesStored(w.t.quotes)
    ensures forall it :: it in w.t.items ==> it.order in w.t.orders
  {
  }

  lemma {:induction false} RunKeepsCart(w: World, run: seq<Step>, client: nat, u: UserId)
    requires Sound(w) && CheckoutOnly(run) && forall step :: step in run ==> LeavesCart(step, client)
    ensures CartKept(w.t, Exec(w, run).t, u)
    ensures client in w.plans ==> client in Exec(w, run).plans && Exec(w, run).plans[client] == w.plans[client]
    decreases |run|
  {
    hide Sound, Next, ActiveCart;
    if run == [] {
    } else {
      assert run[0] in run && forall step :: step in run[1..] ==> step in run;
      SoundCarts(w);
      StepKeeps(w, run[0]);
      StepKeepsCart(w, run[0], client, u);
      RunKeepsCart(Next(w, run[0]), run[1..], client, u);
    }
  }

  lemma SameLines(t: Tables, t': Tables, u: UserId)
    requires CartKept(t, t', u) && ActiveCart(t'.carts, User(u)).Some?
    ensures ActiveLines(t', u) == ActiveLines(t, u)
  {
  }

  /**
   * Over runs: after a client's pre-check, any run in which nobody edits carts, whatever else happens and whoever else
   * confirms, and then the client's transaction before the quote runs out. If it goes through, it orders exactly the
   * cart; it never orders a stale one.
   */
  lemma QuietConfirmOrdersCart(w: World, client: nat, input: ConfirmInput, order: OrderId, checkedAt: int,
                               holdUntil: int, run: seq<Step>, now: int)
    requires Sound(w) && PreCheck(w.t, input, order, checkedAt, holdUntil).Proceed?
    requires CheckoutOnly(run) && forall step :: step in run ==> LeavesCart(step, client)
    requires now < PreCheck(w.t, input, order, checkedAt, holdUntil).plan.quote.expiresAt
    ensures var plan := PreCheck(w.t, input, order, checkedAt, holdUntil).plan;
            var w' := Exec(Next(w, CheckConfirm(client, input, order, checkedAt, holdUntil)), run);
            && client in w'.plans && w'.plans[client] == plan
            && (ConfirmTx(w'.t, plan, now).Ok? ==> OrdersTheCart(w'.t, plan, now))
  {
    var check := CheckConfirm(client, input, order, checkedAt, holdUntil);
    var plan := PreCheck(w.t, input, order, checkedAt, holdUntil).plan;
    var w1 := Next(w, check);
    assert w1 == w.(plans := w.plans[client := plan]);
    hide Sound, Next, PreCheck, ConfirmTx, Exec, ActiveLines, OrdersTheCart, LeavesCart, InCart, CartsUnique;
    StepKeeps(w, check);
    RunKeepsCart(w1, run, client, input.user);
    ReachableIsSound(w1, run);
    SoundCarts(w);
    SoundCarts(Exec(w1, run));
    if ConfirmTx(Exec(w1, run).t, plan, now).Ok? {
      ConfirmsCartExactly(w.t, input, order, checkedAt, holdUntil, Exec(w1, run).t, now);
      PlanFromQuote(w.t, input, order, checkedAt, holdUntil);
      ConfirmClosed(Exec(w1, run).t, plan, now);
      SameLines(w.t, Exec(w1, run).t, input.user);
      ActiveLinesExact(w.t, input.user);
      ActiveLinesExact(Exec(w1, run).t, input.user);
    }
  }

  // A run that breaks the promise

  /** A second piece goes into the cart between pre-check and transaction. */
  function Hurried(id: UuidText): seq<Step> {
    Prepared(id, 1, 100) + [CartEdit(id, 2, 100)]
  }

  lemma HurriedEnds(id: UuidText)
    ensures Exec(START, Hurried(id)) == World(Quoted(id, 2, 1, 100), map[0 := HandedOver(id, 1, 100)])
  {
    hide Exec, LegalEdit, TheQuote, HandedOver;
    PreparedEnds(id, 1, 100);
    CartEditIsLegal(id, Quoted(id, 1, 1, 100).carts, 2, 100);
    ExecAppend(START, Prepared(id, 1, 100), CartEdit(id, 2, 100));
  }

  /**
   * From empty tables to a stale order: two pieces are in the cart and a new pre-check would refuse, yet the
   * transaction under way goes through and orders one.
   */
  lemma StaleCartExample(id: UuidText)
    ensures var before, after := Exec(START, Hurried(id)), Exec(START, Hurried(id) + [SubmitConfirm(0, 1)]);
            && InCart(before.t.carts, before.t.cartItems, UserId(id)) == multiset{CartLine(VariantId(id), 2)}
            && (forall order :: PreCheck(before.t, Request(id), order, 1, 5) == Refused(CartChangedSinceQuote))
            && OrderId(id) !in before.t.orders && OrderId(id) in after.t.orders
            && OrderedLines(after.t.items, OrderId(id)) == [CartLine(VariantId(id), 1)]
  {
    hide Exec, ConfirmTx, OrderedLines, InCart, PreCheck, TheQuote, HandedOver, Quoted;
    HurriedEnds(id);
    TransactionPasses(id, 2, 1, 100);
    TwoInCart(id);
    ExecAppend(START, Hurried(id), SubmitConfirm(0, 1));
    forall order ensures PreCheck(Quoted(id, 2, 1, 100), Request(id), order, 1, 5) == Refused(CartChangedSinceQuote) {
      NewCheckRefuses(id, order);
    }
    OneIsOrdered(id);
  }

  lemma TwoInCart(id: UuidText)
    ensures var t := Quoted(id, 2, 1, 100);
            InCart(t.carts, t.cartItems, UserId(id)) == multiset{CartLine(VariantId(id), 2)}
  {
    CartHolds(id, 2, 1, 100);
    ActiveLinesExact(Quoted(id, 2, 1, 100), UserId(id));
  }

  lemma NewCheckRefuses(id: UuidText, order: OrderId)
    ensures PreCheck(Quoted(id, 2, 1, 100), Request(id), order, 1, 5) == Refused(CartChangedSinceQuote)
  {
    CartHolds(id, 2, 1, 100);
    DifferentPrints(id);
    hide ActiveLines, Fingerprint.Preimage;
  }

  lemma OneIsOrdered(id: UuidText)
    requires ConfirmTx(Quoted(id, 2, 1, 100), HandedOver(id, 1, 100), 1).Ok?
    ensures var t, t' := Quoted(id, 2, 1, 100), ConfirmTx(Quoted(id, 2, 1, 100), HandedOver(id, 1, 100), 1).value;
            && OrderId(id) !in t.orders && OrderId(id) in t'.orders
            && OrderedLines(t'.items, OrderId(id)) == [CartLine(VariantId(id), 1)]
  {
    hide ConfirmTx, Fingerprint.Preimage, OrderedLines;
    var plan := HandedOver(id, 1, 100);
    LineCounted(QuoteLine(VariantId(id), 1, 100));
    ConfirmClosed(Quoted(id, 2, 1, 100), plan, 1);
    QuoteIsOrdered(Quoted(id, 2, 1, 100), plan, 1);
    assert Mapped(plan.quote.lines, QuotedLine) == [CartLine(VariantId(id), 1)];
  }

  lemma DifferentPrints(id: UuidText)
    ensures Fingerprint.Preimage([CartLine(VariantId(id), 2)]) != Fingerprint.Preimage([CartLine(VariantId(id), 1)])
  {
    Fingerprint.FingerprintExact([CartLine(VariantId(id), 2)], [CartLine(VariantId(id), 1)]);
    assert multiset([CartLine(VariantId(id), 1)])[CartLine(VariantId(id), 2)] == 0;
  }
}
