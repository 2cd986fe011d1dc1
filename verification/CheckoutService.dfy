/** Quoting a cart, and the checks before a confirm. */
module CheckoutService {
  import opened Prelude
  import opened Schema
  import opened Money
  import opened Fingerprint
  import opened Confirming
  import opened Invariants
  import opened Database
  import opened Protocol
  import opened StockLoops

  datatype ShippingOption = ShippingOption(serviceId: string, price: int)
  datatype QuoteInput = QuoteInput(user: UserId, serviceId: string, coupon: string)
  datatype QuoteError = CartEmpty | AddressMissing | PriceMissing | ShippingUnavailable | CouponInvalid | QuoteIdTaken
  datatype ConfirmInput = ConfirmInput(user: UserId, quote: QuoteId, key: string, payMethod: string)
  datatype CheckError = IdempotencyConflict | QuoteNotFound | QuoteExpired | CartChangedSinceQuote

  /** What the pre-check of a confirm ends in. */
  datatype Check = Replay(stored: Confirmation) | Refused(error: CheckError) | Proceed(plan: Plan)

  /** Prices, address and shipping as the other modules answer, and the clock. */
  datatype Answers = Answers(addressFound: bool, prices: map<VariantId, int>, options: seq<ShippingOption>, now: int,
                             expiresAt: int)

  // Shipping

  function Cheapest(options: seq<ShippingOption>): ShippingOption
    requires options != []
  {
    var last := options[|options| - 1];
    if |options| == 1 then last
    else
      var best := Cheapest(options[..|options| - 1]);
      if last.price < best.price then last else best
  }

  function FirstWith(options: seq<ShippingOption>, serviceId: string): Option<ShippingOption> {
    if options == [] then None
    else if options[0].serviceId == serviceId then Some(options[0])
    else FirstWith(options[1..], serviceId)
  }

  function Picked(options: seq<ShippingOption>, serviceId: string): Option<ShippingOption> {
    if serviceId != "" then FirstWith(options, serviceId)
    else if options == [] then None
    else Some(Cheapest(options))
  }

  method PickShipping(options: seq<ShippingOption>, serviceId: string) returns (chosen: Option<ShippingOption>)
    ensures chosen == Picked(options, serviceId)
  {
    if serviceId == "" {
      if options == [] {
        return None;
      }
      var cheapest := options[0];
      var i := 1;
      while i < |options|
        invariant 1 <= i <= |options|
        invariant cheapest == Cheapest(options[..i])
      {
        assert options[..i + 1][..i] == options[..i];
        if options[i].price < cheapest.price {
          cheapest := options[i];
        }
        i := i + 1;
      }
      assert options[..|options|] == options;
      return Some(cheapest);
    }
    var i := 0;
    while i < |options|
      invariant 0 <= i <= |options|
      invariant FirstWith(options, serviceId) == FirstWith(options[i..], serviceId)
    {
      if options[i].serviceId == serviceId {
        return Some(options[i]);
      }
      i := i + 1;
    }
    return None;
  }

  /** Without a requested service the choice is the first of the cheapest options. */
  lemma {:induction false} CheapestIsFirstMinimum(options: seq<ShippingOption>)
    requires options != []
    ensures exists i :: 0 <= i < |options| && options[i] == Cheapest(options)
                     && (forall j :: 0 <= j < i ==> options[j].price > options[i].price)
                     && (forall j :: i <= j < |options| ==> options[i].price <= options[j].price)
  {
    var init, last := options[..|options| - 1], options[|options| - 1];
    if |options| == 1 {
      assert options[0] == Cheapest(options);
    } else {
      CheapestIsFirstMinimum(init);
      var i :| 0 <= i < |init| && init[i] == Cheapest(init)
            && (forall j :: 0 <= j < i ==> init[j].price > init[i].price)
            && (forall j :: i <= j < |init| ==> init[i].price <= init[j].price);
      assert forall j :: 0 <= j < |init| ==> options[j] == init[j];
      var k := if last.price < init[i].price then |init| else i;
      assert options[k] == Cheapest(options);
      assert forall j :: 0 <= j < k ==> options[j].price > options[k].price;
      assert forall j :: k <= j < |options| ==> options[k].price <= options[j].price;
    }
  }

  // Coupons

  function Validate(coupons: Coupons, code: string, subtotal: int, now: int): Option<int> {
    if code !in coupons then None
    else
      var c := coupons[code];
      if !c.active then None
      else if c.expiresAt.Some? && !(c.expiresAt.value > now) then None
      else if c.usageLimit.Some? && c.usedCount >= c.usageLimit.value then None
      else if c.minOrder.Some? && subtotal < c.minOrder.value then None
      else Some(ComputeDiscount(c.kind, c.value, subtotal))
  }

  /**
   * The quote accepts a coupon exactly when a confirm at the same time would redeem it and the minimum order is met;
   * the discount then stays within the subtotal.
   */
  lemma ValidateAgreesWithRedeem(coupons: Coupons, code: string, subtotal: int, now: int)
    ensures Validate(coupons, code, subtotal, now).Some? <==>
              && RedeemRow(coupons, code, now).Some?
              && (coupons[code].minOrder.Some? ==> coupons[code].minOrder.value <= subtotal)
    ensures subtotal >= 0 && Validate(coupons, code, subtotal, now).Some? ==>
              0 <= Validate(coupons, code, subtotal, now).value <= subtotal
  {
    if subtotal >= 0 && code in coupons {
      DiscountWithinSubtotal(coupons[code].kind, coupons[code].value, subtotal);
    }
  }

  // Quote

  function AsCartLine(it: CartItem): CartLine {
    CartLine(it.variant, it.quantity)
  }

  function QuotedLine(l: QuoteLine): CartLine {
    CartLine(l.variant, l.quantity)
  }

  /** The lines of the user's active cart; no active cart reads as an empty one. */
  function ActiveLines(t: Tables, user: UserId): seq<CartLine> {
    match ActiveCart(t.carts, User(user))
    case None => []
    case Some(cart) => Mapped(LinesOf(t.cartItems, cart), AsCartLine)
  }

  /** The cart with this id is the user's active one. */
  ghost predicate Owns(carts: seq<Cart>, u: UserId, id: CartId) {
    exists c :: c in carts && c.id == id && c.owner == User(u) && c.status == Active
  }

  /** What the cart tables say is in the user's cart: one line for each row of it. */
  ghost function InCart(carts: seq<Cart>, items: seq<CartItem>, u: UserId): multiset<CartLine> {
    if items == [] then multiset{}
    else
      var last := items[|items| - 1];
      InCart(carts, items[..|items| - 1], u)
      + if Owns(carts, u, last.cart) then multiset{CartLine(last.variant, last.quantity)} else multiset{}
  }

  /** Exact value of these rows at the given prices. */
  ghost function CartValue(carts: seq<Cart>, items: seq<CartItem>, u: UserId, prices: map<VariantId, int>): int {
    if items == [] then 0
    else
      var last := items[|items| - 1];
      CartValue(carts, items[..|items| - 1], u, prices)
      + if Owns(carts, u, last.cart) && last.variant in prices then prices[last.variant] * last.quantity else 0
  }

  lemma OwnsOne(carts: seq<Cart>, u: UserId)
    requires CartsUnique(carts)
    ensures match ActiveCart(carts, User(u))
            case Some(id) => forall x :: Owns(carts, u, x) <==> x == id
            case None => forall x :: !Owns(carts, u, x)
  {
    hide ActiveCart;
    ActiveCartFound(carts, User(u));
  }

  lemma {:induction false} LinesAreRows(carts: seq<Cart>, items: seq<CartItem>, u: UserId, id: CartId)
    requires forall x :: Owns(carts, u, x) <==> x == id
    ensures multiset(Mapped(LinesOf(items, id), AsCartLine)) == InCart(carts, items, u)
  {
    if items == [] {
      assert Mapped(LinesOf(items, id), AsCartLine) == [];
    } else {
      var init, last := items[..|items| - 1], items[|items| - 1];
      LinesAreRows(carts, init, u, id);
      if last.cart == id {
        assert Mapped(LinesOf(items, id), AsCartLine) == Mapped(LinesOf(init, id), AsCartLine) + [AsCartLine(last)];
      }
    }
  }

  lemma {:induction false} NothingInCart(carts: seq<Cart>, items: seq<CartItem>, u: UserId)
    requires forall x :: !Owns(carts, u, x)
    ensures InCart(carts, items, u) == multiset{}
  {
    if items == [] {
    } else {
      NothingInCart(carts, items[..|items| - 1], u);
    }
  }

  /** The quote and the pre-check see the whole cart of the user, and nothing else. */
  lemma ActiveLinesExact(t: Tables, u: UserId)
    requires CartsUnique(t.carts)
    ensures multiset(ActiveLines(t, u)) == InCart(t.carts, t.cartItems, u)
  {
    hide CartsUnique, ActiveCart, LinesOf, Owns;
    OwnsOne(t.carts, u);
    match ActiveCart(t.carts, User(u))
    case Some(id) => LinesAreRows(t.carts, t.cartItems, u, id);
    case None => NothingInCart(t.carts, t.cartItems, u);
  }

  /** Price times quantity of a cart row. */
  function Costs(prices: map<VariantId, int>): CartItem -> int {
    (it: CartItem) => if it.variant in prices then prices[it.variant] * it.quantity else 0
  }

  lemma {:induction false} RowsCost(carts: seq<Cart>, items: seq<CartItem>, u: UserId, id: CartId,
                                    prices: map<VariantId, int>)
    requires forall x :: Owns(carts, u, x) <==> x == id
    ensures Sum(LinesOf(items, id), Costs(prices)) == CartValue(carts, items, u, prices)
  {
    if items == [] {
    } else {
      var init := LinesOf(items[..|items| - 1], id);
      RowsCost(carts, items[..|items| - 1], u, id, prices);
      assert forall it :: (init + [it])[..|init|] == init;
    }
  }

  /** The priced lines; None when a variant has no price. */
  function PricedLines(lines: seq<CartLine>, prices: map<VariantId, int>): Option<seq<QuoteLine>> {
    if lines == [] then Some([])
    else
      match PricedLines(lines[..|lines| - 1], prices)
      case None => None
      case Some(done) =>
        var l := lines[|lines| - 1];
        if l.variant in prices then Some(done + [QuoteLine(l.variant, l.quantity, prices[l.variant])]) else None
  }

  function MakeQuote(t: Tables, id: QuoteId, input: QuoteInput, a: Answers): Result<Quote, QuoteError> {
    var lines := ActiveLines(t, input.user);
    if lines == [] then Err(CartEmpty)
    else if !a.addressFound then Err(AddressMissing)
    else
      match PricedLines(lines, a.prices)
      case None => Err(PriceMissing)
      case Some(priced) =>
        var subtotal := Subtotal(priced);
        match Picked(a.options, input.serviceId)
        case None => Err(ShippingUnavailable)
        case Some(chosen) =>
          match if input.coupon == "" then Some(0) else Validate(t.coupons, input.coupon, subtotal, a.now)
          case None => Err(CouponInvalid)
          case Some(discount) =>
            if id in t.quotes then Err(QuoteIdTaken)
            else Ok(Quote(id, input.user, Preimage(lines), priced, input.coupon, subtotal, chosen.price, discount,
                          ComputeTotal(subtotal, chosen.price, discount), a.expiresAt))
  }

  /** Prices the active cart and stores the quote row. */
  method QuoteCart(db: Db, id: QuoteId, input: QuoteInput, a: Answers) returns (r: Result<Quote, QuoteError>)
    modifies db`quotes
    ensures r == MakeQuote(old(db.View()), id, input, a)
    ensures db.View() == if r.Ok? then old(db.View()).(quotes := old(db.quotes)[id := r.value]) else old(db.View())
  {
    var lines := ActiveLines(db.View(), input.user);
    if |lines| == 0 {
      return Err(CartEmpty);
    }
    if !a.addressFound {
      return Err(AddressMissing);
    }
    var subtotal, priced := 0, [];
    var i := 0;
    while i < |lines|
      invariant 0 <= i <= |lines|
      invariant PricedLines(lines[..i], a.prices) == Some(priced) && subtotal == Subtotal(priced)
    {
      assert lines[..i + 1][..i] == lines[..i];
      if lines[i].variant !in a.prices {
        PricedLinesStop(lines, a.prices, i + 1);
        return Err(PriceMissing);
      }
      var line := QuoteLine(lines[i].variant, lines[i].quantity, a.prices[lines[i].variant]);
      subtotal := Wrap64(subtotal + Wrap64(LineValue(line)));
      assert (priced + [line])[..|priced|] == priced;
      priced := priced + [line];
      i := i + 1;
    }
    assert lines[..|lines|] == lines;
    var chosen := PickShipping(a.options, input.serviceId);
    if chosen == None {
      return Err(ShippingUnavailable);
    }
    var discount := if input.coupon == "" then Some(0) else Validate(db.coupons, input.coupon, subtotal, a.now);
    if discount == None {
      return Err(CouponInvalid);
    }
    if id in db.quotes {
      return Err(QuoteIdTaken);
    }
    var fingerprint := Fingerprint.Build(lines);
    var q := Quote(id, input.user, fingerprint, priced, input.coupon, subtotal, chosen.value.price, discount.value,
                   ComputeTotal(subtotal, chosen.value.price, discount.value), a.expiresAt);
    db.quotes := db.quotes[id := q];
    return Ok(q);
  }

  lemma {:induction false} PricedLinesStop(lines: seq<CartLine>, prices: map<VariantId, int>, n: nat)
    requires n <= |lines| && PricedLines(lines[..n], prices).None?
    ensures PricedLines(lines, prices).None?
  {
    if n == |lines| {
      assert lines[..n] == lines;
    } else {
      assert lines[..|lines| - 1][..n] == lines[..n];
      PricedLinesStop(lines[..|lines| - 1], prices, n);
    }
  }

  lemma {:induction false} PricedLinesKeep(lines: seq<CartLine>, prices: map<VariantId, int>)
    requires PricedLines(lines, prices).Some?
    ensures Mapped(PricedLines(lines, prices).value, QuotedLine) == lines
  {
    if lines == [] {
    } else {
      PricedLinesKeep(lines[..|lines| - 1], prices);
      var done := PricedLines(lines[..|lines| - 1], prices).value;
      assert lines == Mapped(done, QuotedLine) + [lines[|lines| - 1]];
    }
  }

  /** CHECK constraint of cart_items, and the unique index over cart and variant. */
  ghost predicate CartItemsAllowed(items: seq<CartItem>) {
    && (forall it :: it in items ==> 1 <= it.quantity <= 99 && it.unitPrice >= 0)
    && (forall i, j :: 0 <= i < j < |items| && items[i].cart == items[j].cart ==> items[i].variant != items[j].variant)
  }

  lemma {:induction false} LinesOfKeep(items: seq<CartItem>, cart: CartId)
    ensures forall it :: it in LinesOf(items, cart) <==> it in items && it.cart == cart
  {
    if items == [] {
    } else {
      LinesOfKeep(items[..|items| - 1], cart);
      assert items == items[..|items| - 1] + [items[|items| - 1]];
    }
  }

  /** A stored quote: computed from its own lines, and fingerprinted over exactly these lines. */
  ghost predicate QuoteStored(q: Quote) {
    QuoteComputed(q) && q.lines != [] && q.fingerprint == Preimage(Mapped(q.lines, QuotedLine))
  }

  ghost predicate QuotesStored(quotes: map<QuoteId, Quote>) {
    forall id :: id in quotes ==> quotes[id].id == id && QuoteStored(quotes[id])
  }

  /** What the computation of a quote puts where. */
  lemma QuoteParts(t: Tables, id: QuoteId, input: QuoteInput, a: Answers)
    requires MakeQuote(t, id, input, a).Ok?
    ensures var q, lines := MakeQuote(t, id, input, a).value, ActiveLines(t, input.user);
            && PricedLines(lines, a.prices) == Some(q.lines) && lines != []
            && q.id == id && q.user == input.user && q.fingerprint == Preimage(lines)
            && q.subtotal == Subtotal(q.lines) && q.total == ComputeTotal(q.subtotal, q.shipping, q.discount)
            && (if input.coupon == "" then q.discount == 0
                else Validate(t.coupons, input.coupon, q.subtotal, a.now) == Some(q.discount))
  {
    hide ActiveLines, PricedLines, Subtotal, ComputeTotal, Picked, Validate, Preimage;
  }

  lemma CartQuantities(t: Tables, u: UserId)
    requires CartItemsAllowed(t.cartItems)
    ensures forall l :: l in ActiveLines(t, u) ==> 1 <= l.quantity <= 99
  {
    var lines := ActiveLines(t, u);
    if ActiveCart(t.carts, User(u)).Some? {
      var rows := LinesOf(t.cartItems, ActiveCart(t.carts, User(u)).value);
      LinesOfKeep(t.cartItems, ActiveCart(t.carts, User(u)).value);
      forall l | l in lines ensures 1 <= l.quantity <= 99 {
        var i: nat :| i < |lines| && lines[i] == l;
        assert rows[i] in t.cartItems;
      }
    }
  }

  lemma QuoteIsStored(t: Tables, id: QuoteId, input: QuoteInput, a: Answers)
    requires CartItemsAllowed(t.cartItems) && MakeQuote(t, id, input, a).Ok?
    ensures var q := MakeQuote(t, id, input, a).value;
            && q.id == id && q.user == input.user && QuoteStored(q)
            && Mapped(q.lines, QuotedLine) == ActiveLines(t, input.user)
            && (CartsUnique(t.carts) ==>
                  && multiset(Mapped(q.lines, QuotedLine)) == InCart(t.carts, t.cartItems, input.user)
                  && q.subtotal == Wrap64(CartValue(t.carts, t.cartItems, input.user, a.prices)))
  {
    hide MakeQuote, ActiveLines, PricedLines, Subtotal, ComputeTotal, Validate, Preimage, Wrap64, CartValue, InCart;
    hide CartsUnique, CartItemsAllowed;
    var lines, q := ActiveLines(t, input.user), MakeQuote(t, id, input, a).value;
    QuoteParts(t, id, input, a);
    PricedLinesKeep(lines, a.prices);
    CartQuantities(t, input.user);
    forall l | l in q.lines ensures 1 <= l.quantity <= 99 {
      var i: nat :| i < |q.lines| && q.lines[i] == l;
      assert lines[i] == QuotedLine(l);
    }
    if input.coupon != "" {
      ValidateAgreesWithRedeem(t.coupons, input.coupon, q.subtotal, a.now);
    }
    if CartsUnique(t.carts) {
      ActiveLinesExact(t, input.user);
      CartWorth(t, input.user, a.prices);
    }
  }

  lemma {:induction false} PricedLinesPrices(lines: seq<CartLine>, prices: map<VariantId, int>)
    requires PricedLines(lines, prices).Some?
    ensures forall l :: l in PricedLines(lines, prices).value ==>
              l.variant in prices && l.unitPrice == prices[l.variant]
  {
    if lines == [] {
    } else {
      PricedLinesPrices(lines[..|lines| - 1], prices);
    }
  }

  /** The subtotal is the value of the cart's rows at today's prices, wrapped. */
  lemma CartWorth(t: Tables, u: UserId, prices: map<VariantId, int>)
    requires CartsUnique(t.carts) && PricedLines(ActiveLines(t, u), prices).Some?
    ensures Subtotal(PricedLines(ActiveLines(t, u), prices).value) == Wrap64(CartValue(t.carts, t.cartItems, u, prices))
  {
    var lines, priced := ActiveLines(t, u), PricedLines(ActiveLines(t, u), prices).value;
    PricedLinesKeep(lines, prices);
    PricedLinesPrices(lines, prices);
    SubtotalWraps(priced);
    OwnsOne(t.carts, u);
    hide CartsUnique, ActiveCart, LinesOf, Owns, PricedLines, Subtotal, Wrap64, CartValue, Sum;
    match ActiveCart(t.carts, User(u)) {
      case Some(id) =>
        var rows := LinesOf(t.cartItems, id);
        RowsCost(t.carts, t.cartItems, u, id, prices);
        forall i | 0 <= i < |rows| ensures LineValue(priced[i]) == Costs(prices)(rows[i]) {
          assert QuotedLine(priced[i]) == lines[i] == AsCartLine(rows[i]);
          assert priced[i] in priced;
        }
        SumIndexwise(priced, rows, LineValue, Costs(prices));
      case None =>
        NothingWorth(t.carts, t.cartItems, u, prices);
        assert priced == [];
        SumNothing(LineValue);
    }
  }

  lemma SumNothing<T>(f: T -> int)
    ensures Sum([], f) == 0
  {
  }

  lemma {:induction false} NothingWorth(carts: seq<Cart>, items: seq<CartItem>, u: UserId, prices: map<VariantId, int>)
    requires forall x :: !Owns(carts, u, x)
    ensures CartValue(carts, items, u, prices) == 0
  {
    if items == [] {
    } else {
      NothingWorth(carts, items[..|items| - 1], u, prices);
    }
  }

  lemma {:induction false} FirstWithFound(options: seq<ShippingOption>, serviceId: string)
    ensures match FirstWith(options, serviceId)
            case Some(o) => exists i :: 0 <= i < |options| && options[i] == o && o.serviceId == serviceId
                                      && forall j :: 0 <= j < i ==> options[j].serviceId != serviceId
            case None => forall o :: o in options ==> o.serviceId != serviceId
  {
    if options == [] {
    } else if options[0].serviceId == serviceId {
      assert options[0] == FirstWith(options, serviceId).value;
    } else {
      var rest := options[1..];
      FirstWithFound(rest, serviceId);
      assert options == [options[0]] + rest;
      if FirstWith(rest, serviceId).Some? {
        var i :| 0 <= i < |rest| && rest[i] == FirstWith(rest, serviceId).value
              && forall j :: 0 <= j < i ==> rest[j].serviceId != serviceId;
        forall j | 0 <= j < i + 1 ensures options[j].serviceId != serviceId {
          assert j > 0 ==> options[j] == rest[j - 1];
        }
        assert options[i + 1] == rest[i];
      }
    }
  }

  /**
   * Where the amounts of a quote come from: today's prices, the price of the named or of a cheapest shipping option,
   * and the coupon's own discount, which a redemption at that time would grant.
   */
  lemma QuotePriced(t: Tables, id: QuoteId, input: QuoteInput, a: Answers)
    requires MakeQuote(t, id, input, a).Ok?
    ensures var q := MakeQuote(t, id, input, a).value;
            && (forall l :: l in q.lines ==> l.variant in a.prices && l.unitPrice == a.prices[l.variant])
            && (exists o :: o in a.options && o.price == q.shipping
                  && if input.serviceId != "" then o.serviceId == input.serviceId
                     else forall other :: other in a.options ==> o.price <= other.price)
            && q.coupon == input.coupon && q.expiresAt == a.expiresAt
            && (if q.coupon == "" then q.discount == 0
                else RedeemRow(t.coupons, q.coupon, a.now).Some?
                     && q.discount == ComputeDiscount(t.coupons[q.coupon].kind, t.coupons[q.coupon].value, q.subtotal))
  {
    PricedLinesPrices(ActiveLines(t, input.user), a.prices);
    hide ActiveLines, PricedLines, Subtotal, Preimage, ComputeTotal, ComputeDiscount;
    if input.serviceId != "" {
      FirstWithFound(a.options, input.serviceId);
    } else {
      CheapestIsFirstMinimum(a.options);
      assert Cheapest(a.options) in a.options;
      assert forall other :: other in a.options ==> Cheapest(a.options).price <= other.price;
    }
  }

  // Confirm, before the transaction

  datatype Hit = Absent | SameRequest(stored: Confirmation) | OtherRequest

  function Lookup(keys: Keys, user: UserId, key: string, requestHash: QuoteId): Hit {
    if (user, key) !in keys then Absent
    else if keys[(user, key)].requestHash != requestHash then OtherRequest
    else SameRequest(keys[(user, key)].response)
  }

  /** The payment provider's answer: the requested amount, and a charge id derived from the order. */
  function ChargeFor(order: OrderId, amount: int, payMethod: string): ChargeView {
    ChargeView(order, amount, payMethod, "mock", "mock_" + order.text)
  }

  function PreCheck(t: Tables, input: ConfirmInput, order: OrderId, now: int, holdUntil: int): Check {
    match Lookup(t.keys, input.user, input.key, input.quote)
    case SameRequest(stored) => Replay(stored)
    case OtherRequest => Refused(IdempotencyConflict)
    case Absent =>
      if input.quote !in t.quotes || t.quotes[input.quote].user != input.user then Refused(QuoteNotFound)
      else
        var q := t.quotes[input.quote];
        if !(q.expiresAt > now) then Refused(QuoteExpired)
        else if Preimage(ActiveLines(t, input.user)) != q.fingerprint then Refused(CartChangedSinceQuote)
        else
          var charge := ChargeFor(order, q.total, input.payMethod);
          Proceed(Plan(input.user, order, q, charge, input.key, input.quote, holdUntil))
  }

  /** The plan that a pre-check hands over. */
  function PlanFor(t: Tables, input: ConfirmInput, order: OrderId, holdUntil: int): Plan
    requires input.quote in t.quotes
  {
    var q := t.quotes[input.quote];
    Plan(input.user, order, q, ChargeView(order, q.total, input.payMethod, "mock", "mock_" + order.text), input.key,
         input.quote, holdUntil)
  }

  lemma PreCheckOutcome(t: Tables, input: ConfirmInput, order: OrderId, now: int, holdUntil: int)
    requires QuotesStored(t.quotes)
    ensures PreCheck(t, input, order, now, holdUntil)
         == if (input.user, input.key) in t.keys then
              if t.keys[(input.user, input.key)].requestHash == input.quote
              then Replay(t.keys[(input.user, input.key)].response) else Refused(IdempotencyConflict)
            else if input.quote !in t.quotes || t.quotes[input.quote].user != input.user then Refused(QuoteNotFound)
            else if t.quotes[input.quote].expiresAt <= now then Refused(QuoteExpired)
            else if multiset(ActiveLines(t, input.user)) != multiset(Mapped(t.quotes[input.quote].lines, QuotedLine))
            then Refused(CartChangedSinceQuote)
            else Proceed(PlanFor(t, input, order, holdUntil))
  {
    hide Preimage, ActiveLines, QuoteComputed;
    if input.quote in t.quotes {
      FingerprintExact(ActiveLines(t, input.user), Mapped(t.quotes[input.quote].lines, QuotedLine));
    }
  }

  /**
   * A confirm goes on exactly when the key is new, the user's quote is alive, and the active cart holds a permutation
   * of the quoted lines; the plan it hands over is well made and carries the client's own key, quote and pay method.
   */
  lemma PreCheckProceeds(t: Tables, input: ConfirmInput, order: OrderId, now: int, holdUntil: int)
    requires QuotesStored(t.quotes)
    ensures PreCheck(t, input, order, now, holdUntil).Proceed? <==>
              && (input.user, input.key) !in t.keys
              && input.quote in t.quotes && t.quotes[input.quote].user == input.user
              && t.quotes[input.quote].expiresAt > now
              && multiset(ActiveLines(t, input.user)) == multiset(Mapped(t.quotes[input.quote].lines, QuotedLine))
    ensures PreCheck(t, input, order, now, holdUntil).Proceed? ==>
              && PlanMade(PreCheck(t, input, order, now, holdUntil).plan)
              && PreCheck(t, input, order, now, holdUntil).plan == PlanFor(t, input, order, holdUntil)
    ensures CartsUnique(t.carts) ==> multiset(ActiveLines(t, input.user)) == InCart(t.carts, t.cartItems, input.user)
  {
    hide PreCheck, ActiveLines, QuoteComputed, CartsUnique, InCart;
    PreCheckOutcome(t, input, order, now, holdUntil);
    if CartsUnique(t.carts) {
      ActiveLinesExact(t, input.user);
    }
  }

  /** All that a pre-check can end in, read off the tables. */
  lemma PreCheckDecides(t: Tables, input: ConfirmInput, order: OrderId, now: int, holdUntil: int)
    requires QuotesStored(t.quotes) && CartsUnique(t.carts)
    ensures PreCheck(t, input, order, now, holdUntil)
         == if (input.user, input.key) in t.keys then
              if t.keys[(input.user, input.key)].requestHash == input.quote
              then Replay(t.keys[(input.user, input.key)].response) else Refused(IdempotencyConflict)
            else if input.quote !in t.quotes || t.quotes[input.quote].user != input.user then Refused(QuoteNotFound)
            else if t.quotes[input.quote].expiresAt <= now then Refused(QuoteExpired)
            else if InCart(t.carts, t.cartItems, input.user)
                    != multiset(Mapped(t.quotes[input.quote].lines, QuotedLine))
            then Refused(CartChangedSinceQuote)
            else Proceed(PlanFor(t, input, order, holdUntil))
  {
    hide PreCheck, ActiveLines, CartsUnique, InCart, QuotesStored;
    ActiveLinesExact(t, input.user);
    PreCheckOutcome(t, input, order, now, holdUntil);
  }

  // When a quote is given

  ghost predicate Offered(options: seq<ShippingOption>, serviceId: string) {
    exists o :: o in options && (serviceId == "" || o.serviceId == serviceId)
  }

  lemma OfferedExactly(options: seq<ShippingOption>, serviceId: string)
    ensures Picked(options, serviceId).Some? <==> Offered(options, serviceId)
  {
    if serviceId != "" {
      FirstWithFound(options, serviceId);
    } else if options != [] {
      assert options[0] in options;
    }
  }

  lemma {:induction false} PricedExactly(lines: seq<CartLine>, prices: map<VariantId, int>)
    ensures PricedLines(lines, prices).Some? <==> forall l :: l in lines ==> l.variant in prices
  {
    if lines == [] {
    } else {
      PricedExactly(lines[..|lines| - 1], prices);
      assert lines == lines[..|lines| - 1] + [lines[|lines| - 1]];
    }
  }

  /** The coupon can be redeemed now and its minimum order is met. */
  ghost predicate Grants(coupons: Coupons, code: string, subtotal: int, now: int) {
    CouponAlive(coupons, code, now) && (coupons[code].minOrder == None || coupons[code].minOrder.value <= subtotal)
  }

  /** When a quote goes through, and the reason of each refusal, check by check. */
  lemma QuoteDecides(t: Tables, id: QuoteId, input: QuoteInput, a: Answers)
    requires CartsUnique(t.carts)
    ensures var r, lines := MakeQuote(t, id, input, a), InCart(t.carts, t.cartItems, input.user);
            var value := CartValue(t.carts, t.cartItems, input.user, a.prices);
            if lines == multiset{} then r == Err(CartEmpty)
            else if !a.addressFound then r == Err(AddressMissing)
            else if exists l :: l in lines && l.variant !in a.prices then r == Err(PriceMissing)
            else if !Offered(a.options, input.serviceId) then r == Err(ShippingUnavailable)
            else if input.coupon != "" && !Grants(t.coupons, input.coupon, Wrap64(value), a.now) then
              r == Err(CouponInvalid)
            else if id in t.quotes then r == Err(QuoteIdTaken)
            else r.Ok?
  {
    hide CartsUnique, ActiveLines, PricedLines, Subtotal, InCart, CartValue, Wrap64, Picked, Offered, Preimage;
    hide ComputeTotal, Validate, Grants;
    CartFacts(t, input.user, a.prices);
    OfferedExactly(a.options, input.serviceId);
    GrantsExactly(t.coupons, input.coupon, Wrap64(CartValue(t.carts, t.cartItems, input.user, a.prices)), a.now);
  }

  lemma GrantsExactly(coupons: Coupons, code: string, subtotal: int, now: int)
    ensures Validate(coupons, code, subtotal, now).Some? <==> Grants(coupons, code, subtotal, now)
  {
  }

  lemma CartFacts(t: Tables, u: UserId, prices: map<VariantId, int>)
    requires CartsUnique(t.carts)
    ensures var lines, rows := ActiveLines(t, u), InCart(t.carts, t.cartItems, u);
            && (lines == [] <==> rows == multiset{})
            && (PricedLines(lines, prices).Some? <==> !exists l :: l in rows && l.variant !in prices)
            && (PricedLines(lines, prices).Some? ==>
                  Subtotal(PricedLines(lines, prices).value) == Wrap64(CartValue(t.carts, t.cartItems, u, prices)))
  {
    hide CartsUnique, ActiveLines, PricedLines, Subtotal, InCart, CartValue, Wrap64;
    var lines := ActiveLines(t, u);
    ActiveLinesExact(t, u);
    PricedExactly(lines, prices);
    assert lines != [] ==> lines[0] in multiset(lines);
    assert forall l :: l in multiset(lines) <==> l in lines;
    if PricedLines(lines, prices).Some? {
      CartWorth(t, u, prices);
    }
  }

  datatype ConfirmFailure = CheckFailed(reason: CheckError) | TransactionFailed(error: ConfirmError)

  /** Pre-check and transaction in one go, when no other step comes between them. */
  method Confirm(db: Db, input: ConfirmInput, order: OrderId, now: int, holdUntil: int)
    returns (r: Result<Confirmation, ConfirmFailure>)
    modifies db
    ensures match PreCheck(old(db.View()), input, order, now, holdUntil)
            case Replay(stored) => r == Ok(stored) && db.View() == old(db.View())
            case Refused(e) => r == Err(CheckFailed(e)) && db.View() == old(db.View())
            case Proceed(plan) =>
              match ConfirmTx(old(db.View()), plan, now)
              case Ok(t) => r == Ok(Answer(plan)) && db.View() == t
              case Err(e) => r == Err(TransactionFailed(e)) && db.View() == old(db.View())
  {
    match Lookup(db.keys, input.user, input.key, input.quote) {
      case SameRequest(stored) => return Ok(stored);
      case OtherRequest => return Err(CheckFailed(IdempotencyConflict));
      case Absent =>
    }
    if input.quote !in db.quotes || db.quotes[input.quote].user != input.user {
      return Err(CheckFailed(QuoteNotFound));
    }
    var q := db.quotes[input.quote];
    if !(q.expiresAt > now) {
      return Err(CheckFailed(QuoteExpired));
    }
    var fingerprint := Fingerprint.Build(ActiveLines(db.View(), input.user));
    if fingerprint != q.fingerprint {
      return Err(CheckFailed(CartChangedSinceQuote));
    }
    var charge := ChargeFor(order, q.total, input.payMethod);
    var placed := db.ConfirmTx(Plan(input.user, order, q, charge, input.key, input.quote, holdUntil), now);
    match placed {
      case Ok(confirmation) => return Ok(confirmation);
      case Err(e) => return Err(TransactionFailed(e));
    }
  }
}
