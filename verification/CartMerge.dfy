/** Folding an anonymous cart into a user's cart, with quantities that saturate at 99. */
module CartMerge {
  import opened Prelude
  import opened Schema
  import opened Invariants
  import opened Confirming
  import opened CheckoutService
  import opened Database

  datatype MergeError = UniqueViolation | CheckViolation

  const MAX_QUANTITY := 99

  function Clamp(q: int): int {
    if q < MAX_QUANTITY then q else MAX_QUANTITY
  }

  lemma ClampIsMinimum(q: int)
    ensures Clamp(q) <= q && Clamp(q) <= 99 && (Clamp(q) == q || Clamp(q) == 99)
  {
  }

  function AddToRow(line: CartItem): CartItem -> CartItem {
    (it: CartItem) =>
      if it.cart == line.cart && it.variant == line.variant
      then it.(quantity := Clamp(it.quantity + line.quantity), unitPrice := line.unitPrice) else it
  }

  /** Adds a line, or tops up the cart's line of the same variant; None when the offered line breaks a constraint. */
  function UpsertItem(items: seq<CartItem>, line: CartItem): Option<seq<CartItem>> {
    if !(1 <= line.quantity <= MAX_QUANTITY && line.unitPrice >= 0) then None
    else if exists it :: it in items && it.cart == line.cart && it.variant == line.variant
    then Some(Mapped(items, AddToRow(line)))
    else Some(items + [line])
  }

  function UpsertAll(items: seq<CartItem>, cart: CartId, lines: seq<CartItem>): Option<seq<CartItem>> {
    if lines == [] then Some(items)
    else
      match UpsertAll(items, cart, lines[..|lines| - 1])
      case None => None
      case Some(done) => UpsertItem(done, lines[|lines| - 1].(cart := cart))
  }

  /** The user's active cart, created when there is none. */
  function EnsureUserCart(carts: seq<Cart>, user: UserId, newId: CartId): Result<(seq<Cart>, CartId), MergeError> {
    match ActiveCart(carts, User(user))
    case Some(id) => Ok((carts, id))
    case None =>
      if exists c :: c in carts && c.id == newId then Err(UniqueViolation)
      else Ok((carts + [Cart(newId, User(user), Active)], newId))
  }

  function MergeOnce(carts: seq<Cart>, items: seq<CartItem>, session: string, user: UserId, newId: CartId)
    : Result<(seq<Cart>, seq<CartItem>), MergeError>
  {
    match ActiveCart(carts, Anonymous(session))
    case None => Ok((carts, items))
    case Some(anon) =>
      var ensured :- EnsureUserCart(carts, user, newId);
      match UpsertAll(items, ensured.1, LinesOf(items, anon))
      case None => Err(CheckViolation)
      case Some(merged) => Ok((SetCartStatus(ensured.0, anon, Merged), merged))
  }

  /** Two attempts; only a unique violation is tried again. */
  function Merge(carts: seq<Cart>, items: seq<CartItem>, session: string, user: UserId, first: CartId, second: CartId)
    : Result<(seq<Cart>, seq<CartItem>), MergeError>
  {
    var r := MergeOnce(carts, items, session, user, first);
    if r == Err(UniqueViolation) then MergeOnce(carts, items, session, user, second) else r
  }

  method UpsertCartItem(db: Db, line: CartItem) returns (ok: bool)
    modifies db`cartItems
    ensures match UpsertItem(old(db.cartItems), line)
            case Some(items) => ok && db.cartItems == items
            case None => !ok && db.cartItems == old(db.cartItems)
  {
    if !(1 <= line.quantity <= MAX_QUANTITY && line.unitPrice >= 0) {
      return false;
    }
    if exists it :: it in db.cartItems && it.cart == line.cart && it.variant == line.variant {
      db.cartItems := Mapped(db.cartItems, AddToRow(line));
    } else {
      db.cartItems := db.cartItems + [line];
    }
    return true;
  }

  method MergeAttempt(db: Db, session: string, user: UserId, newId: CartId) returns (failure: Option<MergeError>)
    modifies db`carts, db`cartItems
    ensures match MergeOnce(old(db.carts), old(db.cartItems), session, user, newId)
            case Ok(merged) => failure == None && db.carts == merged.0 && db.cartItems == merged.1
            case Err(e) => failure == Some(e) && db.carts == old(db.carts) && db.cartItems == old(db.cartItems)
  {
    var carts, items := db.carts, db.cartItems;
    var anon := ActiveCart(db.carts, Anonymous(session));
    if anon == None {
      return None;
    }
    var cart := ActiveCart(db.carts, User(user));
    if cart == None {
      if exists c :: c in db.carts && c.id == newId {
        return Some(UniqueViolation);
      }
      db.carts := db.carts + [Cart(newId, User(user), Active)];
      cart := Some(newId);
    }
    var ok := UpsertLines(db, cart.value, LinesOf(db.cartItems, anon.value));
    if !ok {
      db.carts, db.cartItems := carts, items;
      return Some(CheckViolation);
    }
    db.carts := SetCartStatus(db.carts, anon.value, Merged);
    return None;
  }

  method UpsertLines(db: Db, cart: CartId, lines: seq<CartItem>) returns (ok: bool)
    modifies db`cartItems
    ensures match UpsertAll(old(db.cartItems), cart, lines)
            case Some(items) => ok && db.cartItems == items
            case None => !ok
  {
    var i := 0;
    while i < |lines|
      invariant 0 <= i <= |lines|
      invariant UpsertAll(old(db.cartItems), cart, lines[..i]) == Some(db.cartItems)
    {
      assert lines[..i + 1][..i] == lines[..i];
      ok := UpsertCartItem(db, lines[i].(cart := cart));
      if !ok {
        UpsertAllStops(old(db.cartItems), cart, lines, i + 1);
        return;
      }
      i := i + 1;
    }
    assert lines[..|lines|] == lines;
    return true;
  }

  method MergeCarts(db: Db, session: string, user: UserId, ids: seq<CartId>) returns (failure: Option<MergeError>)
    requires |ids| == 2
    modifies db`carts, db`cartItems
    ensures match Merge(old(db.carts), old(db.cartItems), session, user, ids[0], ids[1])
            case Ok(merged) => failure == None && db.carts == merged.0 && db.cartItems == merged.1
            case Err(e) => failure == Some(e) && db.carts == old(db.carts) && db.cartItems == old(db.cartItems)
  {
    failure := None;
    var attempt := 0;
    while attempt < 2
      invariant 0 <= attempt <= 2
      invariant db.carts == old(db.carts) && db.cartItems == old(db.cartItems)
      invariant attempt > 0 ==> failure == Some(UniqueViolation)
      invariant attempt > 0 ==> MergeOnce(db.carts, db.cartItems, session, user, ids[0]) == Err(UniqueViolation)
      invariant attempt == 2 ==> MergeOnce(db.carts, db.cartItems, session, user, ids[1]) == Err(UniqueViolation)
    {
      failure := MergeAttempt(db, session, user, ids[attempt]);
      if failure != Some(UniqueViolation) {
        return;
      }
      attempt := attempt + 1;
    }
  }

  lemma {:induction false} UpsertAllStops(items: seq<CartItem>, cart: CartId, lines: seq<CartItem>, n: nat)
    requires n <= |lines| && UpsertAll(items, cart, lines[..n]).None?
    ensures UpsertAll(items, cart, lines).None?
  {
    if n == |lines| {
      assert lines[..n] == lines;
    } else {
      assert lines[..|lines| - 1][..n] == lines[..n];
      UpsertAllStops(items, cart, lines[..|lines| - 1], n);
    }
  }

  // Quantities

  function QuantityIn(cart: CartId, v: VariantId): CartItem -> int {
    (it: CartItem) => if it.cart == cart && it.variant == v then it.quantity else 0
  }

  /** Quantity of v in a cart; zero when the cart has no such line. */
  function Quantity(items: seq<CartItem>, cart: CartId, v: VariantId): int {
    Sum(items, QuantityIn(cart, v))
  }

  function OfVariant(v: VariantId): CartItem -> int {
    (it: CartItem) => if it.variant == v then it.quantity else 0
  }

  /** A line's own row is the whole quantity, by the unique index. */
  lemma {:induction false} QuantityIsRow(items: seq<CartItem>, row: CartItem)
    requires CartItemsAllowed(items) && row in items
    ensures Quantity(items, row.cart, row.variant) == row.quantity
  {
    var init, last := items[..|items| - 1], items[|items| - 1];
    assert items == init + [last];
    if row == last {
      SumZero(init, QuantityIn(row.cart, row.variant));
    } else {
      QuantityIsRow(init, row);
    }
  }

  lemma QuantityBounds(items: seq<CartItem>, cart: CartId, v: VariantId)
    requires CartItemsAllowed(items)
    ensures 0 <= Quantity(items, cart, v) <= MAX_QUANTITY
    ensures Quantity(items, cart, v) > 0 <==> exists it :: it in items && it.cart == cart && it.variant == v
  {
    if it :| it in items && it.cart == cart && it.variant == v {
      QuantityIsRow(items, it);
    } else {
      SumZero(items, QuantityIn(cart, v));
    }
  }

  /** The quantities of one line after an upsert, and no line of any other cart or variant moves. */
  lemma UpsertEffect(items: seq<CartItem>, line: CartItem)
    requires CartItemsAllowed(items) && UpsertItem(items, line).Some?
    ensures var items' := UpsertItem(items, line).value;
            && CartItemsAllowed(items')
            && (forall v :: Quantity(items', line.cart, v)
                 == if v == line.variant then Clamp(Quantity(items, line.cart, v) + line.quantity)
                     else Quantity(items, line.cart, v))
            && (forall it :: it in items' && it.cart == line.cart && it.variant == line.variant ==>
                  it.unitPrice == line.unitPrice)
            && (forall c :: c != line.cart ==> LinesOf(items', c) == LinesOf(items, c))
  {
    var items' := UpsertItem(items, line).value;
    UpsertAllowed(items, line);
    UpsertPrice(items, line);
    hide Quantity, CartItemsAllowed;
    forall v
      ensures Quantity(items', line.cart, v)
           == if v == line.variant then Clamp(Quantity(items, line.cart, v) + line.quantity)
               else Quantity(items, line.cart, v)
    {
      UpsertQuantity(items, line, v);
    }
    forall c | c != line.cart ensures LinesOf(items', c) == LinesOf(items, c) {
      if items' == items + [line] {
        assert items'[..|items|] == items;
      } else {
        OthersKept(items, line, c);
      }
    }
  }

  /** The line offered also brings its price. */
  lemma UpsertPrice(items: seq<CartItem>, line: CartItem)
    requires UpsertItem(items, line).Some?
    ensures forall it :: it in UpsertItem(items, line).value && it.cart == line.cart && it.variant == line.variant
                         ==> it.unitPrice == line.unitPrice
  {
    var items' := UpsertItem(items, line).value;
    forall it | it in items' && it.cart == line.cart && it.variant == line.variant
      ensures it.unitPrice == line.unitPrice
    {
      var i: nat :| i < |items'| && items'[i] == it;
      if i < |items| {
        assert items[i] in items;
      }
    }
  }

  lemma UpsertAllowed(items: seq<CartItem>, line: CartItem)
    requires CartItemsAllowed(items) && UpsertItem(items, line).Some?
    ensures CartItemsAllowed(UpsertItem(items, line).value)
  {
    AddToRowAllowed(items, line);
  }

  lemma UpsertQuantity(items: seq<CartItem>, line: CartItem, v: VariantId)
    requires CartItemsAllowed(items) && UpsertItem(items, line).Some?
    ensures Quantity(UpsertItem(items, line).value, line.cart, v)
         == if v == line.variant then Clamp(Quantity(items, line.cart, v) + line.quantity)
             else Quantity(items, line.cart, v)
  {
    if row :| row in items && row.cart == line.cart && row.variant == line.variant {
      AddedQuantity(items, line, row, v);
    } else {
      assert (items + [line])[..|items|] == items;
      QuantityBounds(items, line.cart, v);
    }
  }

  /** The row that is there takes the whole change. */
  lemma AddedQuantity(items: seq<CartItem>, line: CartItem, row: CartItem, v: VariantId)
    requires CartItemsAllowed(items) && 1 <= line.quantity <= MAX_QUANTITY && line.unitPrice >= 0
    requires row in items && row.cart == line.cart && row.variant == line.variant
    ensures Quantity(Mapped(items, AddToRow(line)), line.cart, v)
         == if v == line.variant then Clamp(Quantity(items, line.cart, v) + line.quantity)
             else Quantity(items, line.cart, v)
  {
    hide CartItemsAllowed, Sum;
    var items' := Mapped(items, AddToRow(line));
    AddToRowAllowed(items, line);
    if v == line.variant {
      var i: nat :| i < |items| && items[i] == row;
      assert items'[i] == AddToRow(line)(row);
      QuantityIsRow(items, row);
      QuantityIsRow(items', AddToRow(line)(row));
    } else {
      SumMapped(items, AddToRow(line), QuantityIn(line.cart, v), QuantityIn(line.cart, v));
    }
  }

  lemma AddToRowAllowed(items: seq<CartItem>, line: CartItem)
    requires CartItemsAllowed(items) && 1 <= line.quantity <= MAX_QUANTITY && line.unitPrice >= 0
    ensures CartItemsAllowed(Mapped(items, AddToRow(line)))
  {
    var items' := Mapped(items, AddToRow(line));
    forall it | it in items' ensures 1 <= it.quantity <= 99 && it.unitPrice >= 0 {
      var i: nat :| i < |items'| && items'[i] == it;
      assert items[i] in items;
    }
  }

  lemma {:induction false} OthersKept(items: seq<CartItem>, line: CartItem, c: CartId)
    requires c != line.cart
    ensures LinesOf(Mapped(items, AddToRow(line)), c) == LinesOf(items, c)
  {
    if items == [] {
    } else {
      OthersKept(items[..|items| - 1], line, c);
      assert Mapped(items, AddToRow(line))[..|items| - 1] == Mapped(items[..|items| - 1], AddToRow(line));
    }
  }

  /** All upserts together: the sum of the quantities, clamped once. */
  lemma {:induction false} UpsertAllEffect(items: seq<CartItem>, cart: CartId, lines: seq<CartItem>)
    requires CartItemsAllowed(items)
    requires forall it :: it in lines ==> 1 <= it.quantity <= MAX_QUANTITY && it.unitPrice >= 0
    ensures UpsertAll(items, cart, lines).Some?
    ensures var items' := UpsertAll(items, cart, lines).value;
            && CartItemsAllowed(items')
            && (forall v :: Quantity(items', cart, v) == Clamp(Quantity(items, cart, v) + Sum(lines, OfVariant(v))))
            && (forall c :: c != cart ==> LinesOf(items', c) == LinesOf(items, c))
  {
    hide CartItemsAllowed, Quantity, LinesOf;
    if lines == [] {
      forall v ensures Quantity(items, cart, v) == Clamp(Quantity(items, cart, v)) {
        QuantityBounds(items, cart, v);
      }
    } else {
      var init, last := lines[..|lines| - 1], lines[|lines| - 1];
      assert lines == init + [last];
      UpsertAllEffect(items, cart, init);
      var done := UpsertAll(items, cart, init).value;
      assert UpsertItem(done, last.(cart := cart)).Some?;
      hide UpsertItem, Sum;
      UpsertEffect(done, last.(cart := cart));
      var items' := UpsertAll(items, cart, lines).value;
      forall v ensures Quantity(items', cart, v) == Clamp(Quantity(items, cart, v) + Sum(lines, OfVariant(v))) {
        SumLast(lines, OfVariant(v));
      }
    }
  }

  lemma {:induction false} LinesQuantity(items: seq<CartItem>, cart: CartId, v: VariantId)
    ensures Sum(LinesOf(items, cart), OfVariant(v)) == Quantity(items, cart, v)
  {
    if items == [] {
    } else {
      LinesQuantity(items[..|items| - 1], cart, v);
      var init := LinesOf(items[..|items| - 1], cart);
      assert forall it :: (init + [it])[..|init|] == init;
    }
  }

  // Merging

  /** The cart tables as the schema allows them: unique carts, allowed lines, every line in a known cart. */
  ghost predicate CartTables(carts: seq<Cart>, items: seq<CartItem>) {
    && CartsUnique(carts) && CartItemsAllowed(items)
    && (forall it :: it in items ==> exists c :: c in carts && c.id == it.cart)
  }

  /** Quantity of v in the owner's active cart. */
  function OwnedQuantity(carts: seq<Cart>, items: seq<CartItem>, owner: Owner, v: VariantId): int {
    match ActiveCart(carts, owner)
    case None => 0
    case Some(cart) => Quantity(items, cart, v)
  }

  /** An attempt that ensures the user's cart: nobody else's active cart changes and the quantities stay. */
  lemma EnsuredCart(carts: seq<Cart>, items: seq<CartItem>, user: UserId, newId: CartId)
    requires CartTables(carts, items) && EnsureUserCart(carts, user, newId).Ok?
    ensures var (carts', cart) := EnsureUserCart(carts, user, newId).value;
            && CartTables(carts', items)
            && ActiveCart(carts', User(user)) == Some(cart)
            && (forall other :: other != User(user) ==> ActiveCart(carts', other) == ActiveCart(carts, other))
            && (forall v :: Quantity(items, cart, v) == OwnedQuantity(carts, items, User(user), v))
            && (forall u :: Sum(carts', ConvertedOne(u)) == Sum(carts, ConvertedOne(u)))
  {
    hide CartItemsAllowed, Quantity;
    ActiveCartFound(carts, User(user));
    var (carts', cart) := EnsureUserCart(carts, user, newId).value;
    if carts' != carts {
      assert carts' == carts + [Cart(newId, User(user), Active)] && carts'[..|carts|] == carts;
      forall it | it in items ensures it.cart != newId && exists c :: c in carts' && c.id == it.cart {
        var c :| c in carts && c.id == it.cart;
        assert c in carts';
      }
      forall v ensures Quantity(items, cart, v) == 0 {
        NoLines(items, cart, v);
      }
    }
  }

  lemma NoLines(items: seq<CartItem>, cart: CartId, v: VariantId)
    requires forall it :: it in items ==> it.cart != cart
    ensures Quantity(items, cart, v) == 0
  {
    SumZero(items, QuantityIn(cart, v));
  }

  /** The upserts go to known carts. */
  lemma {:induction false} UpsertAllKnown(items: seq<CartItem>, cart: CartId, lines: seq<CartItem>, carts: seq<Cart>)
    requires UpsertAll(items, cart, lines).Some? && exists c :: c in carts && c.id == cart
    requires forall it :: it in items ==> exists c :: c in carts && c.id == it.cart
    ensures forall it :: it in UpsertAll(items, cart, lines).value ==> exists c :: c in carts && c.id == it.cart
  {
    if lines == [] {
    } else {
      UpsertAllKnown(items, cart, lines[..|lines| - 1], carts);
      var done := UpsertAll(items, cart, lines[..|lines| - 1]).value;
      var items' := UpsertAll(items, cart, lines).value;
      forall it | it in items' ensures exists c :: c in carts && c.id == it.cart {
        var i: nat :| i < |items'| && items'[i] == it;
        if i < |done| {
          assert done[i] in done && it.cart == done[i].cart;
        }
      }
    }
  }

  lemma NothingToClamp(carts: seq<Cart>, items: seq<CartItem>, user: UserId)
    requires CartTables(carts, items)
    ensures forall v :: Clamp(OwnedQuantity(carts, items, User(user), v)) == OwnedQuantity(carts, items, User(user), v)
  {
    forall v ensures Clamp(OwnedQuantity(carts, items, User(user), v)) == OwnedQuantity(carts, items, User(user), v) {
      if ActiveCart(carts, User(user)).Some? {
        QuantityBounds(items, ActiveCart(carts, User(user)).value, v);
      }
    }
  }

  /** Two owners never share a cart. */
  lemma OwnersApart(carts: seq<Cart>, a: Owner, b: Owner)
    requires CartsUnique(carts) && a != b && ActiveCart(carts, a).Some? && ActiveCart(carts, b).Some?
    ensures ActiveCart(carts, a) != ActiveCart(carts, b)
  {
    ActiveCartFound(carts, a);
    ActiveCartFound(carts, b);
    var x :| x in carts && x.id == ActiveCart(carts, a).value && x.owner == a;
    var y :| y in carts && y.id == ActiveCart(carts, b).value && y.owner == b;
    var i: nat :| i < |carts| && carts[i] == x;
    var j: nat :| j < |carts| && carts[j] == y;
    assert i != j;
  }

  /**
   * After a merge the schema still holds, the anonymous cart is not active any more, everybody else's cart still is.
   */
  lemma MergedTables(carts: seq<Cart>, items: seq<CartItem>, session: string, user: UserId, newId: CartId)
    requires CartTables(carts, items) && MergeOnce(carts, items, session, user, newId).Ok?
    ensures var (carts', items') := MergeOnce(carts, items, session, user, newId).value;
            && CartTables(carts', items')
            && ActiveCart(carts', Anonymous(session)) == None
            && (ActiveCart(carts, Anonymous(session)).Some? ==> ActiveCart(carts', User(user)).Some?)
            && (forall other :: other != User(user) && other != Anonymous(session) ==>
                  ActiveCart(carts', other) == ActiveCart(carts, other))
            && (forall u :: Sum(carts', ConvertedOne(u)) == Sum(carts, ConvertedOne(u)))
  {
    var anon := ActiveCart(carts, Anonymous(session));
    if anon.Some? {
      EnsuredCart(carts, items, user, newId);
      var (ensured, cart) := EnsureUserCart(carts, user, newId).value;
      ActiveCartFound(ensured, User(user));
      LinesOfKeep(items, anon.value);
      UpsertAllEffect(items, cart, LinesOf(items, anon.value));
      UpsertAllKnown(items, cart, LinesOf(items, anon.value), ensured);
      MarkingKeepsTables(ensured, UpsertAll(items, cart, LinesOf(items, anon.value)).value, anon.value, session);
    }
  }

  lemma MarkingKeepsTables(carts: seq<Cart>, items: seq<CartItem>, anon: CartId, session: string)
    requires CartTables(carts, items) && ActiveCart(carts, Anonymous(session)) == Some(anon)
    ensures var carts' := SetCartStatus(carts, anon, Merged);
            && CartTables(carts', items)
            && ActiveCart(carts', Anonymous(session)) == None
            && (forall other :: other != Anonymous(session) ==> ActiveCart(carts', other) == ActiveCart(carts, other))
            && (forall u :: Sum(carts', ConvertedOne(u)) == Sum(carts, ConvertedOne(u)))
  {
    var carts' := SetCartStatus(carts, anon, Merged);
    RetiredIsGone(carts, anon, Anonymous(session), Merged);
    RetiredUnique(carts, anon, Merged);
    forall other | other != Anonymous(session) ensures ActiveCart(carts', other) == ActiveCart(carts, other) {
      OthersStayActive(carts, anon, Anonymous(session), other, Merged);
    }
    forall u ensures Sum(carts', ConvertedOne(u)) == Sum(carts, ConvertedOne(u)) {
      SumMapped(carts, SetCartRow(anon, Merged), ConvertedOne(u), ConvertedOne(u));
    }
    forall it | it in items ensures exists c :: c in carts' && c.id == it.cart {
      var c :| c in carts && c.id == it.cart;
      var i: nat :| i < |carts| && carts[i] == c;
      assert carts'[i] in carts' && carts'[i].id == it.cart;
    }
  }

  /**
   * One merge: in the user's cart every quantity becomes the clamped sum, and every cart other than the user's keeps
   * exactly its lines.
   */
  lemma MergeQuantities(carts: seq<Cart>, items: seq<CartItem>, session: string, user: UserId, newId: CartId)
    requires CartTables(carts, items) && MergeOnce(carts, items, session, user, newId).Ok?
    ensures var (carts', items') := MergeOnce(carts, items, session, user, newId).value;
            && (forall v :: OwnedQuantity(carts', items', User(user), v)
                 == Clamp(OwnedQuantity(carts, items, User(user), v)
                     + OwnedQuantity(carts, items, Anonymous(session), v)))
            && (forall c :: Some(c) != ActiveCart(carts', User(user)) ==> LinesOf(items', c) == LinesOf(items, c))
  {
    hide CartTables, LinesOf, Quantity, SetCartStatus, ActiveCart;
    var anon := ActiveCart(carts, Anonymous(session));
    if anon.None? {
      NothingToClamp(carts, items, user);
    } else {
      AnonymousLines(carts, items, session);
      EnsuredCart(carts, items, user, newId);
      var (ensured, cart) := EnsureUserCart(carts, user, newId).value;
      hide EnsureUserCart;
      UpsertAllEffect(items, cart, LinesOf(items, anon.value));
      MarkingKeepsTables(ensured, items, anon.value, session);
    }
  }

  lemma AnonymousLines(carts: seq<Cart>, items: seq<CartItem>, session: string)
    requires CartTables(carts, items) && ActiveCart(carts, Anonymous(session)).Some?
    ensures CartItemsAllowed(items)
    ensures var cart := ActiveCart(carts, Anonymous(session)).value;
            && (forall it :: it in LinesOf(items, cart) ==> 1 <= it.quantity <= MAX_QUANTITY && it.unitPrice >= 0)
            && (forall v ::
                  Sum(LinesOf(items, cart), OfVariant(v)) == OwnedQuantity(carts, items, Anonymous(session), v))
  {
    var cart := ActiveCart(carts, Anonymous(session)).value;
    LinesOfKeep(items, cart);
    forall v ensures Sum(LinesOf(items, cart), OfVariant(v)) == Quantity(items, cart, v) {
      LinesQuantity(items, cart, v);
    }
  }

  /** With the id free a merge always goes through; merging the same session again changes nothing. */
  lemma MergeAgainIsNothing(carts: seq<Cart>, items: seq<CartItem>, session: string, user: UserId, newId: CartId)
    requires CartTables(carts, items)
    ensures MergeOnce(carts, items, session, user, newId).Ok? <==>
              (ActiveCart(carts, Anonymous(session)).Some? && ActiveCart(carts, User(user)).None? ==>
                 forall c :: c in carts ==> c.id != newId)
    ensures MergeOnce(carts, items, session, user, newId).Ok? ==>
              var (carts', items') := MergeOnce(carts, items, session, user, newId).value;
              forall again :: MergeOnce(carts', items', session, user, again) == Ok((carts', items'))
  {
    var anon := ActiveCart(carts, Anonymous(session));
    if anon.Some? {
      LinesOfKeep(items, anon.value);
      var ensured := EnsureUserCart(carts, user, newId);
      if ensured.Ok? {
        UpsertAllEffect(items, ensured.value.1, LinesOf(items, anon.value));
      }
    }
    if MergeOnce(carts, items, session, user, newId).Ok? {
      MergedTables(carts, items, session, user, newId);
    }
  }

  // Prices and cart rows after a merge

  ghost predicate DistinctVariants(lines: seq<CartItem>) {
    forall i, j :: 0 <= i < j < |lines| ==> lines[i].variant != lines[j].variant
  }

  /** Rows of other variants, and of other carts, are not touched by an upsert. */
  lemma UpsertLeaves(items: seq<CartItem>, line: CartItem)
    requires UpsertItem(items, line).Some?
    ensures forall it :: it in UpsertItem(items, line).value && (it.cart != line.cart || it.variant != line.variant)
                         ==> it in items
  {
    var items' := UpsertItem(items, line).value;
    forall it | it in items' && (it.cart != line.cart || it.variant != line.variant) ensures it in items {
      var i: nat :| i < |items'| && items'[i] == it;
      if i < |items| {
        assert items[i] in items;
      }
    }
  }

  /** Every merged line brings its price, every other row of the cart stays as it was. */
  lemma {:induction false} UpsertAllPrices(items: seq<CartItem>, cart: CartId, lines: seq<CartItem>)
    requires UpsertAll(items, cart, lines).Some? && DistinctVariants(lines)
    ensures var items' := UpsertAll(items, cart, lines).value;
            && (forall l, it :: l in lines && it in items' && it.cart == cart && it.variant == l.variant ==>
                  it.unitPrice == l.unitPrice)
            && (forall it :: it in items' && it.cart == cart && (forall l :: l in lines ==> l.variant != it.variant) ==>
                  it in items)
  {
    if lines == [] {
    } else {
      var init, last := lines[..|lines| - 1], lines[|lines| - 1];
      var done, items' := UpsertAll(items, cart, init).value, UpsertAll(items, cart, lines).value;
      UpsertAllPrices(items, cart, init);
      UpsertPrice(done, last.(cart := cart));
      UpsertLeaves(done, last.(cart := cart));
      hide UpsertItem;
      assert lines == init + [last];
      forall l, it | l in lines && it in items' && it.cart == cart && it.variant == l.variant
        ensures it.unitPrice == l.unitPrice
      {
        if l != last {
          var i: nat :| i < |lines| && lines[i] == l;
          assert l.variant != last.variant && l in init && it in done;
        }
      }
      forall it | it in items' && it.cart == cart && (forall l :: l in lines ==> l.variant != it.variant)
        ensures it in items
      {
        assert last in lines && it.variant != last.variant;
        assert forall l :: l in init ==> l in lines;
      }
    }
  }

  lemma {:induction false} LinesDistinct(items: seq<CartItem>, cart: CartId)
    requires CartItemsAllowed(items)
    ensures DistinctVariants(LinesOf(items, cart))
  {
    if items == [] {
    } else {
      var init, last := items[..|items| - 1], items[|items| - 1];
      LinesDistinct(init, cart);
      LinesOfKeep(init, cart);
      forall x | x in init && x.cart == last.cart ensures x.variant != last.variant {
        var i: nat :| i < |init| && init[i] == x;
        assert items[i] == x;
      }
    }
  }

  /** The cart has a row of the variant. */
  ghost predicate Lists(items: seq<CartItem>, cart: CartId, v: VariantId) {
    exists l :: l in items && l.cart == cart && l.variant == v
  }

  /** In the user's cart the merged variants carry the anonymous cart's prices, the others keep their rows. */
  lemma MergePrices(carts: seq<Cart>, items: seq<CartItem>, session: string, user: UserId, newId: CartId)
    requires CartTables(carts, items) && MergeOnce(carts, items, session, user, newId).Ok?
    requires ActiveCart(carts, Anonymous(session)).Some?
    ensures var (carts', items') := MergeOnce(carts, items, session, user, newId).value;
            var anon, cart := ActiveCart(carts, Anonymous(session)).value, ActiveCart(carts', User(user));
            && cart.Some?
            && (forall l, it ::
                  l in items && l.cart == anon && it in items' && it.cart == cart.value && it.variant == l.variant ==>
                  it.unitPrice == l.unitPrice)
            && (forall it ::
                  it in items' && it.cart == cart.value && !Lists(items, anon, it.variant) ==> it in items)
  {
    hide CartTables, LinesOf, SetCartStatus, ActiveCart, CartItemsAllowed;
    var anon := ActiveCart(carts, Anonymous(session)).value;
    AnonymousLines(carts, items, session);
    EnsuredCart(carts, items, user, newId);
    var (ensured, cart) := EnsureUserCart(carts, user, newId).value;
    hide EnsureUserCart;
    LinesDistinct(items, anon);
    LinesOfKeep(items, anon);
    UpsertAllPrices(items, cart, LinesOf(items, anon));
    MarkingKeepsTables(ensured, items, anon, session);
  }

  /** Of the cart rows, exactly the session's active one becomes merged; at most a new cart for the user is added. */
  lemma MergedCarts(carts: seq<Cart>, items: seq<CartItem>, session: string, user: UserId, newId: CartId)
    requires CartTables(carts, items) && MergeOnce(carts, items, session, user, newId).Ok?
    ensures var carts' := MergeOnce(carts, items, session, user, newId).value.0;
            && |carts| <= |carts'| <= |carts| + 1
            && (forall i :: 0 <= i < |carts| ==>
                  carts'[i] == if carts[i].owner == Anonymous(session) && carts[i].status == Active
                               then carts[i].(status := Merged) else carts[i])
            && (|carts'| > |carts| ==>
                  carts'[|carts|] == Cart(newId, User(user), Active)
                  && forall c :: c in carts ==> c.owner != User(user) || c.status != Active)
  {
    ActiveCartFound(carts, Anonymous(session));
    ActiveCartFound(carts, User(user));
    hide ActiveCart, UpsertAll, LinesOf;
    var anon := ActiveCart(carts, Anonymous(session));
    if anon.Some? {
      OnlyActive(carts, Anonymous(session), anon.value);
      var (ensured, cart) := EnsureUserCart(carts, user, newId).value;
      if ensured != carts {
        assert ensured == carts + [Cart(newId, User(user), Active)];
        var c :| c in carts && c.id == anon.value;
        assert newId != anon.value;
      }
    }
  }

  /** The row with the id of the owner's active cart is that cart, and no other row of the owner is active. */
  lemma OnlyActive(carts: seq<Cart>, owner: Owner, id: CartId)
    requires CartsUnique(carts) && exists c :: c in carts && c.id == id && c.owner == owner && c.status == Active
    ensures forall i :: 0 <= i < |carts| ==>
              (carts[i].id == id <==> carts[i].owner == owner && carts[i].status == Active)
  {
    var c :| c in carts && c.id == id && c.owner == owner && c.status == Active;
    var n: nat :| n < |carts| && carts[n] == c;
    forall i | 0 <= i < |carts| ensures carts[i].id == id <==> carts[i].owner == owner && carts[i].status == Active {
      assert i != n ==> carts[i].id != id && (carts[i].owner != owner || carts[i].status != Active);
    }
  }

  /**
   * With its retry a merge goes through if and only if it needs no new cart or one of the two ids is free, and it is
   * the attempt with the first free id.
   */
  lemma MergeWithRetry(carts: seq<Cart>, items: seq<CartItem>, session: string, user: UserId, first: CartId,
                       second: CartId)
    requires CartTables(carts, items)
    ensures var needed := ActiveCart(carts, Anonymous(session)).Some? && ActiveCart(carts, User(user)).None?;
            var taken := (id: CartId) => exists c :: c in carts && c.id == id;
            && (Merge(carts, items, session, user, first, second).Ok? <==> (needed ==> !taken(first) || !taken(second)))
            && Merge(carts, items, session, user, first, second)
               == MergeOnce(carts, items, session, user, if needed && taken(first) then second else first)
  {
    MergeAgainIsNothing(carts, items, session, user, first);
    MergeAgainIsNothing(carts, items, session, user, second);
    OnlyUniqueViolations(carts, items, session, user, first);
    hide MergeOnce, CartTables, ActiveCart;
  }

  lemma OnlyUniqueViolations(carts: seq<Cart>, items: seq<CartItem>, session: string, user: UserId, newId: CartId)
    requires CartTables(carts, items)
    ensures var r := MergeOnce(carts, items, session, user, newId); r.Err? ==> r.error == UniqueViolation
  {
    hide CartTables, LinesOf, ActiveCart, UpsertAll;
    if ActiveCart(carts, Anonymous(session)).Some? && EnsureUserCart(carts, user, newId).Ok? {
      AnonymousLines(carts, items, session);
      UpsertAllEffect(items, EnsureUserCart(carts, user, newId).value.1,
                      LinesOf(items, ActiveCart(carts, Anonymous(session)).value));
    }
  }

  // Quotes and carts

  function QuotedOf(v: VariantId): QuoteLine -> int {
    (l: QuoteLine) => if l.variant == v then l.quantity else 0
  }

  /** A quote has the quantity of every variant that the user's cart has, and one line for each of the cart's rows. */
  lemma QuotedQuantities(t: Tables, id: QuoteId, input: QuoteInput, a: Answers, v: VariantId)
    requires MakeQuote(t, id, input, a).Ok?
    ensures var q, cart := MakeQuote(t, id, input, a).value, ActiveCart(t.carts, User(input.user));
            && Sum(q.lines, QuotedOf(v)) == OwnedQuantity(t.carts, t.cartItems, User(input.user), v)
            && cart.Some? && |q.lines| == |Positions(t.cartItems, cart.value)|
  {
    hide MakeQuote, PricedLines, LinesOf, Validate, Sum;
    var q, lines := MakeQuote(t, id, input, a).value, ActiveLines(t, input.user);
    QuoteParts(t, id, input, a);
    PricedLinesKeep(lines, a.prices);
    var cart := ActiveCart(t.carts, User(input.user)).value;
    var rows := LinesOf(t.cartItems, cart);
    forall i | 0 <= i < |rows| ensures QuotedOf(v)(q.lines[i]) == OfVariant(v)(rows[i]) {
      assert QuotedLine(q.lines[i]) == lines[i] == AsCartLine(rows[i]);
    }
    SumIndexwise(q.lines, rows, QuotedOf(v), OfVariant(v));
    LinesQuantity(t.cartItems, cart, v);
    RowsCounted(t.cartItems, cart);
  }

  /** The positions of the cart's rows. */
  ghost function Positions(items: seq<CartItem>, cart: CartId): set<nat> {
    set i: nat | i < |items| && items[i].cart == cart
  }

  lemma PositionAdded(items: seq<CartItem>, cart: CartId)
    requires items != []
    ensures var n := |items| - 1;
            Positions(items, cart) == Positions(items[..n], cart) + (if items[n].cart == cart then {n} else {})
    ensures |items| - 1 !in Positions(items[..|items| - 1], cart)
  {
  }

  lemma {:induction false} RowsCounted(items: seq<CartItem>, cart: CartId)
    ensures |LinesOf(items, cart)| == |Positions(items, cart)|
  {
    if items == [] {
      assert Positions(items, cart) == {};
    } else {
      hide Positions;
      RowsCounted(items[..|items| - 1], cart);
      PositionAdded(items, cart);
    }
  }

  // Several sessions

  /** Merges the sessions one after the other. */
  function MergeAll(carts: seq<Cart>, items: seq<CartItem>, sessions: seq<string>, user: UserId, newId: CartId)
    : Result<(seq<Cart>, seq<CartItem>), MergeError>
  {
    if sessions == [] then Ok((carts, items))
    else
      var done :- MergeAll(carts, items, sessions[..|sessions| - 1], user, newId);
      MergeOnce(done.0, done.1, sessions[|sessions| - 1], user, newId)
  }

  function SessionQuantity(carts: seq<Cart>, items: seq<CartItem>, v: VariantId): string -> int {
    (session: string) => OwnedQuantity(carts, items, Anonymous(session), v)
  }

  ghost predicate Distinct(sessions: seq<string>) {
    forall i, j :: 0 <= i < j < |sessions| ==> sessions[i] != sessions[j]
  }

  /** After all merges the user holds, per variant, the clamped sum over all sessions. */
  lemma {:induction false} MergeAllEffect(carts: seq<Cart>, items: seq<CartItem>, sessions: seq<string>,
                                          user: UserId, newId: CartId)
    requires CartTables(carts, items) && Distinct(sessions)
    requires MergeAll(carts, items, sessions, user, newId).Ok?
    ensures var (carts', items') := MergeAll(carts, items, sessions, user, newId).value;
            && CartTables(carts', items')
            && (forall v :: OwnedQuantity(carts', items', User(user), v)
                 == Clamp(OwnedQuantity(carts, items, User(user), v) + Sum(sessions, SessionQuantity(carts, items, v))))
            && (forall s, v :: s !in sessions ==>
                 OwnedQuantity(carts', items', Anonymous(s), v) == OwnedQuantity(carts, items, Anonymous(s), v))
  {
    hide CartTables, MergeOnce, OwnedQuantity, Sum, Clamp;
    if sessions == [] {
      assert forall v :: Sum(sessions, SessionQuantity(carts, items, v)) == 0 by {
        NoSessions(carts, items);
      }
      NothingToClamp(carts, items, user);
    } else {
      var init, last := sessions[..|sessions| - 1], sessions[|sessions| - 1];
      assert sessions == init + [last];
      MergeAllEffect(carts, items, init, user, newId);
      var done := MergeAll(carts, items, init, user, newId).value;
      MergedTables(done.0, done.1, last, user, newId);
      forall v ensures OwnedQuantity(MergeAll(carts, items, sessions, user, newId).value.0,
                                     MergeAll(carts, items, sessions, user, newId).value.1, User(user), v)
                 == Clamp(OwnedQuantity(carts, items, User(user), v) + Sum(sessions, SessionQuantity(carts, items, v)))
      {
        OneMoreSession(carts, items, sessions, done.0, done.1, user, newId, v);
      }
      forall s, v | s !in sessions
        ensures var r := MergeAll(carts, items, sessions, user, newId).value;
                OwnedQuantity(r.0, r.1, Anonymous(s), v) == OwnedQuantity(carts, items, Anonymous(s), v)
      {
        OtherSessionKept(done.0, done.1, last, user, newId, s, v);
      }
    }
  }

  /** The last session adds its share to what the sessions before it have brought. */
  lemma OneMoreSession(carts: seq<Cart>, items: seq<CartItem>, sessions: seq<string>,
                       doneCarts: seq<Cart>, doneItems: seq<CartItem>, user: UserId, newId: CartId, v: VariantId)
    requires CartTables(carts, items) && CartTables(doneCarts, doneItems) && sessions != []
    requires var init, last := sessions[..|sessions| - 1], sessions[|sessions| - 1];
             && MergeOnce(doneCarts, doneItems, last, user, newId).Ok?
             && OwnedQuantity(doneCarts, doneItems, User(user), v)
                == Clamp(OwnedQuantity(carts, items, User(user), v) + Sum(init, SessionQuantity(carts, items, v)))
             && OwnedQuantity(doneCarts, doneItems, Anonymous(last), v)
                 == OwnedQuantity(carts, items, Anonymous(last), v)
    ensures var r := MergeOnce(doneCarts, doneItems, sessions[|sessions| - 1], user, newId).value;
            OwnedQuantity(r.0, r.1, User(user), v)
            == Clamp(OwnedQuantity(carts, items, User(user), v) + Sum(sessions, SessionQuantity(carts, items, v)))
  {
    hide CartTables, MergeOnce, OwnedQuantity, Sum, Clamp;
    var init, last := sessions[..|sessions| - 1], sessions[|sessions| - 1];
    MergeQuantities(doneCarts, doneItems, last, user, newId);
    SessionsNonNegative(carts, items, sessions, v);
    SumLast(sessions, SessionQuantity(carts, items, v));
    ClampTwice(OwnedQuantity(carts, items, User(user), v) + Sum(init, SessionQuantity(carts, items, v)),
               OwnedQuantity(carts, items, Anonymous(last), v));
  }

  lemma ClampTwice(a: int, b: int)
    requires b >= 0
    ensures Clamp(Clamp(a) + b) == Clamp(a + b)
  {
  }

  lemma NoSessions(carts: seq<Cart>, items: seq<CartItem>)
    ensures forall v :: Sum([], SessionQuantity(carts, items, v)) == 0
  {
  }

  lemma OtherSessionKept(carts: seq<Cart>, items: seq<CartItem>, session: string, user: UserId, newId: CartId,
                         s: string, v: VariantId)
    requires CartTables(carts, items) && MergeOnce(carts, items, session, user, newId).Ok? && s != session
    ensures var (carts', items') := MergeOnce(carts, items, session, user, newId).value;
            OwnedQuantity(carts', items', Anonymous(s), v) == OwnedQuantity(carts, items, Anonymous(s), v)
  {
    var (carts', items') := MergeOnce(carts, items, session, user, newId).value;
    MergedTables(carts, items, session, user, newId);
    MergeQuantities(carts, items, session, user, newId);
    if ActiveCart(carts', Anonymous(s)).Some? {
      var c := ActiveCart(carts', Anonymous(s)).value;
      if ActiveCart(carts', User(user)).Some? {
        OwnersApart(carts', Anonymous(s), User(user));
      }
      LinesQuantity(items, c, v);
      LinesQuantity(items', c, v);
    }
  }

  lemma SessionsNonNegative(carts: seq<Cart>, items: seq<CartItem>, sessions: seq<string>, v: VariantId)
    requires CartTables(carts, items)
    ensures Sum(sessions, SessionQuantity(carts, items, v)) >= 0
    ensures forall s :: s in sessions ==> OwnedQuantity(carts, items, Anonymous(s), v) >= 0
  {
    forall s | s in sessions ensures SessionQuantity(carts, items, v)(s) >= 0 {
      if ActiveCart(carts, Anonymous(s)).Some? {
        QuantityBounds(items, ActiveCart(carts, Anonymous(s)).value, v);
      }
    }
    SumCovers(sessions, SessionQuantity(carts, items, v));
  }

  /** With the id free, or the user's cart there already, every merge goes through. */
  lemma {:induction false} MergeAllGoesThrough(carts: seq<Cart>, items: seq<CartItem>, sessions: seq<string>,
                                               user: UserId, newId: CartId)
    requires CartTables(carts, items) && Distinct(sessions)
    requires ActiveCart(carts, User(user)).Some? || forall c :: c in carts ==> c.id != newId
    ensures MergeAll(carts, items, sessions, user, newId).Ok?
    ensures var (carts', items') := MergeAll(carts, items, sessions, user, newId).value;
            ActiveCart(carts', User(user)).Some? || forall c :: c in carts' ==> c.id != newId
  {
    if sessions == [] {
    } else {
      var init, last := sessions[..|sessions| - 1], sessions[|sessions| - 1];
      MergeAllGoesThrough(carts, items, init, user, newId);
      MergeAllEffect(carts, items, init, user, newId);
      var done := MergeAll(carts, items, init, user, newId).value;
      MergeAgainIsNothing(done.0, done.1, last, user, newId);
      MergedTables(done.0, done.1, last, user, newId);
    }
  }

  /** The order in which the anonymous carts are merged does not matter for the quantities. */
  lemma MergeAnyOrder(carts: seq<Cart>, items: seq<CartItem>, a: seq<string>, b: seq<string>, user: UserId,
                      newId: CartId, v: VariantId)
    requires CartTables(carts, items) && Distinct(a) && Distinct(b) && multiset(a) == multiset(b)
    requires ActiveCart(carts, User(user)).Some? || forall c :: c in carts ==> c.id != newId
    ensures MergeAll(carts, items, a, user, newId).Ok? && MergeAll(carts, items, b, user, newId).Ok?
    ensures var (ca, ia) := MergeAll(carts, items, a, user, newId).value;
            var (cb, ib) := MergeAll(carts, items, b, user, newId).value;
            OwnedQuantity(ca, ia, User(user), v) == OwnedQuantity(cb, ib, User(user), v)
  {
    MergeAllGoesThrough(carts, items, a, user, newId);
    MergeAllGoesThrough(carts, items, b, user, newId);
    MergeAllEffect(carts, items, a, user, newId);
    MergeAllEffect(carts, items, b, user, newId);
    SumPermutation(a, b, SessionQuantity(carts, items, v));
  }
}
