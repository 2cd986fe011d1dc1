/** One shopper from empty tables on: the runs that the theorems speak of do go all the way through. */
module PurchaseExample {
  import opened Prelude
  import opened Schema
  import opened StockLoops
  import opened Money
  import opened Protocol
  import opened Invariants
  import opened Confirming
  import opened CheckoutService
  import opened Runs
  import opened RunTheorems

  function Request(id: UuidText): ConfirmInput {
    ConfirmInput(UserId(id), QuoteId(id), "key", "pix")
  }

  function Offers(id: UuidText, price: int): Answers {
    Answers(true, map[VariantId(id) := price], [ShippingOption("pac", 0)], 0, 10)
  }

  function Amount(pieces: int, price: int): int {
    Wrap64(price * pieces)
  }

  /** Up to five pieces, at a price whose 64-bit product is not negative. */
  predicate Affordable(pieces: int, price: int) {
    1 <= pieces <= 5 && price >= 0 && Amount(pieces, price) >= 0
  }

  function CartEdit(id: UuidText, pieces: int, price: int): Step {
    EditCarts([Cart(CartId(id), User(UserId(id)), Active)], [CartItem(CartId(id), VariantId(id), pieces, price)])
  }

  /** Stock, a cart with some pieces, a quote, and the pre-check of a confirm. */
  function Prepared(id: UuidText, pieces: int, price: int): seq<Step> {
    [AdminStock(VariantId(id), 5, 0), CartEdit(id, pieces, price)]
    + [AskQuote(QuoteId(id), QuoteInput(UserId(id), "", ""), Offers(id, price))]
    + [CheckConfirm(0, Request(id), OrderId(id), 0, 5)]
  }

  function Stocked(id: UuidText): Tables {
    EmptyTables.(stock := map[VariantId(id) := StockRow(5, 0, 0)])
  }

  function Filled(id: UuidText, pieces: int, price: int): Tables {
    Stocked(id).(carts := [Cart(CartId(id), User(UserId(id)), Active)],
                 cartItems := [CartItem(CartId(id), VariantId(id), pieces, price)])
  }

  function TheQuote(id: UuidText, pieces: int, price: int): Quote {
    Quote(QuoteId(id), UserId(id), Fingerprint.Preimage([CartLine(VariantId(id), pieces)]),
          [QuoteLine(VariantId(id), pieces, price)], "", Amount(pieces, price), 0, 0, Amount(pieces, price), 10)
  }

  /** The tables with a quote for some pieces and a cart with perhaps others. */
  function Quoted(id: UuidText, carted: int, pieces: int, price: int): Tables {
    Filled(id, carted, price).(quotes := map[QuoteId(id) := TheQuote(id, pieces, price)])
  }

  /** The plan that the pre-check hands over. */
  function HandedOver(id: UuidText, pieces: int, price: int): Plan {
    Plan(UserId(id), OrderId(id), TheQuote(id, pieces, price), ChargeFor(OrderId(id), Amount(pieces, price), "pix"),
         "key", QuoteId(id), 5)
  }

  // The steps, one by one

  lemma CartEditIsLegal(id: UuidText, before: seq<Cart>, pieces: int, price: int)
    requires before == [] || before == [Cart(CartId(id), User(UserId(id)), Active)]
    requires Affordable(pieces, price)
    ensures LegalEdit(before, CartEdit(id, pieces, price).carts, CartEdit(id, pieces, price).cartItems)
  {
    var cart := Cart(CartId(id), User(UserId(id)), Active);
    assert cart in CartEdit(id, pieces, price).carts;
    forall u ensures Sum([cart], ConvertedOne(u)) == 0 {
      SumSingle(cart, ConvertedOne(u));
    }
  }

  lemma LinePriced(line: CartLine, prices: map<VariantId, int>)
    requires line.variant in prices
    ensures PricedLines([line], prices) == Some([QuoteLine(line.variant, line.quantity, prices[line.variant])])
  {
    var none: seq<QuoteLine> := [];
    var quoted := QuoteLine(line.variant, line.quantity, prices[line.variant]);
    assert [line][..0] == [] && none + [quoted] == [quoted];
  }

  lemma LineCounted(line: QuoteLine)
    ensures Subtotal([line]) == Wrap64(LineValue(line))
  {
    SubtotalWraps([line]);
    SumSingle(line, LineValue);
  }

  lemma CartHolds(id: UuidText, carted: int, pieces: int, price: int)
    ensures ActiveLines(Filled(id, carted, price), UserId(id)) == [CartLine(VariantId(id), carted)]
    ensures ActiveLines(Quoted(id, carted, pieces, price), UserId(id)) == [CartLine(VariantId(id), carted)]
  {
    var it := CartItem(CartId(id), VariantId(id), carted, price);
    assert [it][..0] == [] && LinesOf([it], CartId(id)) == [it];
  }

  lemma CartQuoted(id: UuidText, pieces: int, price: int)
    requires Affordable(pieces, price)
    ensures MakeQuote(Filled(id, pieces, price), QuoteId(id), QuoteInput(UserId(id), "", ""), Offers(id, price))
         == Ok(TheQuote(id, pieces, price))
  {
    CartHolds(id, pieces, pieces, price);
    WrapInRange(price * pieces);
    TotalExact(Amount(pieces, price), 0, 0);
    hide ActiveLines, PricedLines, Subtotal, Fingerprint.Preimage, ComputeTotal, Wrap64;
    LinePriced(CartLine(VariantId(id), pieces), Offers(id, price).prices);
    LineCounted(QuoteLine(VariantId(id), pieces, price));
  }

  lemma PreCheckPasses(id: UuidText, pieces: int, price: int)
    ensures PreCheck(Quoted(id, pieces, pieces, price), Request(id), OrderId(id), 0, 5)
        == Proceed(HandedOver(id, pieces, price))
  {
    CartHolds(id, pieces, pieces, price);
    hide ActiveLines, Fingerprint.Preimage, Wrap64;
  }

  lemma OnePick(plan: Plan, v: VariantId, pieces: int)
    requires |plan.quote.lines| == 1 && LinePick(plan.quote.lines[0]) == Pick(v, pieces)
    ensures PicksOf(plan) == [Pick(v, pieces)] && Demand([Pick(v, pieces)], v) == pieces
  {
    var picks := Mapped(plan.quote.lines, LinePick);
    assert picks == [Pick(v, pieces)] && picks[..0] == [] && LockOrder(picks[..0]) == [];
    SumSingle(Pick(v, pieces), Wanted(v));
  }

  lemma TransactionPasses(id: UuidText, carted: int, pieces: int, price: int)
    requires Affordable(pieces, price)
    ensures ConfirmTx(Quoted(id, carted, pieces, price), HandedOver(id, pieces, price), 1).Ok?
  {
    hide Fingerprint.Preimage, ConfirmTx, PicksOf, Wrap64;
    OnePick(HandedOver(id, pieces, price), VariantId(id), pieces);
    assert Cart(CartId(id), User(UserId(id)), Active) in Quoted(id, carted, pieces, price).carts;
    ConfirmGoesThrough(Quoted(id, carted, pieces, price), HandedOver(id, pieces, price), 1);
  }

  lemma CartFilled(id: UuidText, pieces: int, price: int)
    requires Affordable(pieces, price)
    ensures Exec(START, [AdminStock(VariantId(id), 5, 0), CartEdit(id, pieces, price)])
        == World(Filled(id, pieces, price), map[])
  {
    CartEditIsLegal(id, [], pieces, price);
    var stocking: seq<Step> := [AdminStock(VariantId(id), 5, 0)];
    ExecAppend(START, [], stocking[0]);
    ExecAppend(START, stocking, CartEdit(id, pieces, price));
    assert [] + [stocking[0]] == stocking;
    assert stocking + [CartEdit(id, pieces, price)] == [stocking[0], CartEdit(id, pieces, price)];
    hide LegalEdit, Exec;
    assert Next(START, stocking[0]) == World(Stocked(id), map[]);
    assert Exec(START, []) == START by {
      ExecNothing(START);
    }
  }

  lemma PreparedEnds(id: UuidText, pieces: int, price: int)
    requires Affordable(pieces, price)
    ensures Exec(START, Prepared(id, pieces, price))
         == World(Quoted(id, pieces, pieces, price), map[0 := HandedOver(id, pieces, price)])
  {
    hide Exec, MakeQuote, PreCheck, TheQuote, HandedOver, CartEdit;
    CartFilled(id, pieces, price);
    CartQuoted(id, pieces, price);
    PreCheckPasses(id, pieces, price);
    var filling: seq<Step> := [AdminStock(VariantId(id), 5, 0), CartEdit(id, pieces, price)];
    var quoting := AskQuote(QuoteId(id), QuoteInput(UserId(id), "", ""), Offers(id, price));
    ExecAppend(START, filling, quoting);
    assert map[][QuoteId(id) := TheQuote(id, pieces, price)] == map[QuoteId(id) := TheQuote(id, pieces, price)];
    assert Exec(START, filling + [quoting]) == World(Quoted(id, pieces, pieces, price), map[]);
    assert map[][0 := HandedOver(id, pieces, price)] == map[0 := HandedOver(id, pieces, price)];
    ExecAppend(START, filling + [quoting], CheckConfirm(0, Request(id), OrderId(id), 0, 5));
  }

  // Where the runs lead

  function Payment(id: UuidText, amount: int): Event {
    Event("event", "paid", "mock_" + id, amount)
  }

  function Shopping(id: UuidText, pieces: int, price: int): seq<Step> {
    Prepared(id, pieces, price) + [SubmitConfirm(0, 1)]
  }

  lemma ShoppingEnds(id: UuidText, pieces: int, price: int)
    requires Affordable(pieces, price)
    ensures CheckoutOnly(Shopping(id, pieces, price)) && Sound(Exec(START, Shopping(id, pieces, price)))
    ensures ConfirmTx(Quoted(id, pieces, pieces, price), HandedOver(id, pieces, price), 1)
         == Ok(Exec(START, Shopping(id, pieces, price)).t)
  {
    hide Exec, ConfirmTx, Sound, Quoted, HandedOver, Affordable;
    PreparedEnds(id, pieces, price);
    TransactionPasses(id, pieces, pieces, price);
    ExecAppend(START, Prepared(id, pieces, price), SubmitConfirm(0, 1));
    StartIsSound();
    ReachableIsSound(START, Shopping(id, pieces, price));
  }

  /** The order, its item and its charge, as the whole run leaves them. */
  lemma ShoppingLeaves(id: UuidText, pieces: int, price: int)
    requires 1 <= pieces <= 5 && Affordable(pieces, price)
    ensures var t, plan := Exec(START, Shopping(id, pieces, price)).t, HandedOver(id, pieces, price);
            && t.orders == map[OrderId(id) := NewOrder(plan)]
            && t.items == [Item(OrderId(id), VariantId(id), pieces, price)]
            && t.charges == map[ChargeRef("mock", "mock_" + id) := NewCharge(plan)]
            && t.events == {}
  {
    hide Exec, ConfirmTx, Wrap64, Fingerprint.Preimage, Shopping, Quoted, Affordable;
    var plan, t := HandedOver(id, pieces, price), Exec(START, Shopping(id, pieces, price)).t;
    ShoppingEnds(id, pieces, price);
    ConfirmAdds(Quoted(id, pieces, pieces, price), plan, 1);
    NothingOrdered(id, pieces, price);
    FirstOrderOnly(Quoted(id, pieces, pieces, price), plan, t);
    OneItem(id, pieces, price);
  }

  lemma NothingOrdered(id: UuidText, pieces: int, price: int)
    ensures var t := Quoted(id, pieces, pieces, price);
            t.orders == map[] && t.items == [] && t.charges == map[] && t.events == {}
  {
  }

  lemma OneItem(id: UuidText, pieces: int, price: int)
    requires 1 <= pieces <= 5
    ensures Mapped(HandedOver(id, pieces, price).quote.lines, LineItem(OrderId(id)))
         == [Item(OrderId(id), VariantId(id), pieces, price)]
  {
    hide Wrap64, Fingerprint.Preimage;
    assert Mapped([QuoteLine(VariantId(id), pieces, price)], LineItem(OrderId(id)))
        == [LineItem(OrderId(id))(QuoteLine(VariantId(id), pieces, price))];
  }

  /** In tables without orders, the rows of the first one are the only ones. */
  lemma FirstOrderOnly(t: Tables, plan: Plan, t': Tables)
    requires t.orders == map[] && t.items == [] && t.charges == map[]
    requires t'.orders == t.orders[plan.order := NewOrder(plan)]
    requires t'.items == t.items + Mapped(plan.quote.lines, LineItem(plan.order))
    requires t'.charges == t.charges[RefOf(plan) := NewCharge(plan)]
    ensures t'.orders == map[plan.order := NewOrder(plan)]
    ensures t'.items == Mapped(plan.quote.lines, LineItem(plan.order))
    ensures t'.charges == map[RefOf(plan) := NewCharge(plan)]
  {
  }

  /** The purchase goes through: the order is pending after the confirm and paid after the webhook. */
  lemma PurchaseGoesThrough(id: UuidText)
    ensures var t := Exec(START, Shopping(id, 1, 100)).t;
            && OrderId(id) in t.orders && t.orders[OrderId(id)].status == PendingPayment
            && Apply(t, Payment(id, 100)).Ok?
            && OrderId(id) in Apply(t, Payment(id, 100)).value.orders
            && Apply(t, Payment(id, 100)).value.orders[OrderId(id)].status == Paid
  {
    assert Amount(1, 100) == 100;
    hide Exec, Consistent, Apply, Next, Shopping, TheQuote, Fits, ConfirmTx;
    ShoppingEnds(id, 1, 100);
    ShoppingLeaves(id, 1, 100);
    QuotedAmount(id, 1, 100);
    PaidEventSettles(Exec(START, Shopping(id, 1, 100)).t, Payment(id, 100));
  }

  lemma QuotedAmount(id: UuidText, pieces: int, price: int)
    ensures TheQuote(id, pieces, price).subtotal == TheQuote(id, pieces, price).total == Amount(pieces, price)
  {
  }

  /** Overflow reaches the books: an order for goods worth 2^64 cents, with nothing to pay and a charge of nothing. */
  lemma OverflowReachesOrder(id: UuidText)
    ensures var t, k := Exec(START, Shopping(id, 4, 0x4000_0000_0000_0000)).t, ChargeRef("mock", "mock_" + id);
            && OrderId(id) in t.orders && k in t.charges && t.charges[k].order == OrderId(id)
            && t.orders[OrderId(id)].subtotal == t.orders[OrderId(id)].total == t.charges[k].amount == 0
            && Goods(t.items, OrderId(id)) == TWO_TO_64
  {
    assert Amount(4, 0x4000_0000_0000_0000) == 0;
    hide Exec, Shopping, TheQuote, Wrap64;
    ShoppingLeaves(id, 4, 0x4000_0000_0000_0000);
    QuotedAmount(id, 4, 0x4000_0000_0000_0000);
    SumSingle(Item(OrderId(id), VariantId(id), 4, 0x4000_0000_0000_0000), ItemValue(OrderId(id)));
  }
}
