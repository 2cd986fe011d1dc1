/** The line-by-line stock loops, the aggregate question each of them decides, and row versions. */
module StockLoops {
  import opened Prelude
  import opened Schema
  import opened Text

  datatype ConfirmError = CartChanged | InsufficientStock | CouponUnavailable | KeyConflict | ConstraintViolation

  function VariantKey(p: Pick): string {
    p.variant.text
  }

  /** The lock order of the source: ascending variant id. */
  function LockOrder(picks: seq<Pick>): seq<Pick> {
    Sorted(picks, VariantKey)
  }

  function Wanted(v: VariantId): Pick -> int {
    (p: Pick) => if p.variant == v then p.quantity else 0
  }

  function Naming(v: VariantId): Pick -> int {
    (p: Pick) => if p.variant == v then 1 else 0
  }

  /** Total quantity of v in the picks. */
  function Demand(picks: seq<Pick>, v: VariantId): int {
    Sum(picks, Wanted(v))
  }

  /** Number of picks of v. */
  function Visits(picks: seq<Pick>, v: VariantId): int {
    Sum(picks, Naming(v))
  }

  ghost predicate Positive(picks: seq<Pick>) {
    forall p :: p in picks ==> p.quantity > 0
  }

  /** Per variant, the whole demand is available. */
  ghost predicate Fits(stock: Stock, picks: seq<Pick>) {
    forall p :: p in picks ==> p.variant in stock && Demand(picks, p.variant) <= stock[p.variant].available
  }

  /** Per variant, the whole demand is reserved. */
  ghost predicate Covered(stock: Stock, picks: seq<Pick>) {
    forall p :: p in picks ==> p.variant in stock && Demand(picks, p.variant) <= stock[p.variant].reserved
  }

  // The loops, one line after the other

  /** Reserve a line, then insert its reservation; the first failure ends the loop. */
  function PlaceHolds(stock: Stock, rows: seq<Reservation>, o: OrderId, picks: seq<Pick>, expiresAt: int)
    : Result<(Stock, seq<Reservation>), ConfirmError>
  {
    if picks == [] then Ok((stock, rows))
    else
      var done :- PlaceHolds(stock, rows, o, picks[..|picks| - 1], expiresAt);
      var p := picks[|picks| - 1];
      match ReserveRow(done.0, p.variant, p.quantity)
      case None => Err(InsufficientStock)
      case Some(s) =>
        if p.quantity <= 0 then Err(ConstraintViolation)
        else Ok((s, done.1 + [Hold(o, expiresAt)(p)]))
  }

  function Hold(o: OrderId, expiresAt: int): Pick -> Reservation {
    (p: Pick) => Reservation(o, p.variant, p.quantity, Held, expiresAt)
  }

  /** Reserve a line and commit it at once; None when a line finds too little stock. */
  function SellAll(stock: Stock, picks: seq<Pick>): Option<Stock> {
    if picks == [] then Some(stock)
    else
      match SellAll(stock, picks[..|picks| - 1])
      case None => None
      case Some(s) =>
        var p := picks[|picks| - 1];
        match ReserveRow(s, p.variant, p.quantity)
        case None => None
        case Some(s') => Some(CommitRow(s', p))
  }

  function ReleaseAll(stock: Stock, picks: seq<Pick>): Stock {
    if picks == [] then stock else ReleaseRow(ReleaseAll(stock, picks[..|picks| - 1]), picks[|picks| - 1])
  }

  function CommitAll(stock: Stock, picks: seq<Pick>): Stock {
    if picks == [] then stock else CommitRow(CommitAll(stock, picks[..|picks| - 1]), picks[|picks| - 1])
  }

  // The same effects in closed form

  function ReservedStock(stock: Stock, picks: seq<Pick>): Stock {
    map v | v in stock :: StockRow(stock[v].available - Demand(picks, v), stock[v].reserved + Demand(picks, v),
                                   stock[v].version + Visits(picks, v))
  }

  function SoldStock(stock: Stock, picks: seq<Pick>): Stock {
    map v | v in stock :: StockRow(stock[v].available - Demand(picks, v), stock[v].reserved,
                                   stock[v].version + 2 * Visits(picks, v))
  }

  function ReleasedStock(stock: Stock, picks: seq<Pick>): Stock {
    map v | v in stock :: StockRow(stock[v].available + Demand(picks, v), stock[v].reserved - Demand(picks, v),
                                   stock[v].version + Visits(picks, v))
  }

  function CommittedStock(stock: Stock, picks: seq<Pick>): Stock {
    map v | v in stock :: StockRow(stock[v].available, stock[v].reserved - Demand(picks, v),
                                   stock[v].version + Visits(picks, v))
  }

  // Demand

  lemma DemandNonNegative(picks: seq<Pick>, v: VariantId)
    requires Positive(picks)
    ensures Demand(picks, v) >= 0
    ensures (exists p :: p in picks && p.variant == v) ==> Demand(picks, v) > 0
  {
    SumCovers(picks, Wanted(v));
  }

  lemma DemandUnlisted(picks: seq<Pick>, v: VariantId)
    requires forall p :: p in picks ==> p.variant != v
    ensures Demand(picks, v) == 0 && Visits(picks, v) == 0
  {
    SumZero(picks, Wanted(v));
    SumZero(picks, Naming(v));
  }

  /** Leaving out the last line never raises the demand. */
  lemma PrefixFits(stock: Stock, picks: seq<Pick>)
    requires picks != [] && Positive(picks)
    ensures Fits(stock, picks) ==> Fits(stock, picks[..|picks| - 1])
    ensures Covered(stock, picks) ==> Covered(stock, picks[..|picks| - 1])
  {
    assert forall p :: p in picks[..|picks| - 1] ==> p in picks;
    assert picks[|picks| - 1] in picks;
    forall v ensures Demand(picks[..|picks| - 1], v) <= Demand(picks, v) {
    }
  }

  lemma DemandPermuted(a: seq<Pick>, b: seq<Pick>, v: VariantId)
    requires multiset(a) == multiset(b)
    ensures Demand(a, v) == Demand(b, v) && Visits(a, v) == Visits(b, v)
  {
    SumPermutation(a, b, Wanted(v));
    SumPermutation(a, b, Naming(v));
  }

  lemma LockOrderKeeps(picks: seq<Pick>)
    ensures multiset(LockOrder(picks)) == multiset(picks)
    ensures forall p :: p in LockOrder(picks) <==> p in picks
    ensures forall v :: Demand(LockOrder(picks), v) == Demand(picks, v)
  {
    SortedKeeps(picks, VariantKey);
    forall p ensures p in LockOrder(picks) <==> p in picks {
      assert p in multiset(picks) <==> p in multiset(LockOrder(picks));
    }
    forall v ensures Demand(LockOrder(picks), v) == Demand(picks, v) {
      DemandPermuted(LockOrder(picks), picks, v);
    }
  }

  /** The lock order is ascending by variant id. */
  lemma LockOrderAscends(picks: seq<Pick>)
    ensures multiset(LockOrder(picks)) == multiset(picks) && |LockOrder(picks)| == |picks|
    ensures forall i, j :: 0 <= i < j < |picks| ==>
              AtMost(LockOrder(picks)[i].variant.text, LockOrder(picks)[j].variant.text)
  {
    SortedKeeps(picks, VariantKey);
    var sorted := LockOrder(picks);
    assert |multiset(sorted)| == |multiset(picks)|;
    forall i, j | 0 <= i < j < |picks| ensures AtMost(sorted[i].variant.text, sorted[j].variant.text) {
      assert AtMost(VariantKey(sorted[i]), VariantKey(sorted[j]));
    }
  }

  // The reservation loops decide the aggregate question

  /** One more reserved line in closed form. */
  lemma ReservedStep(stock: Stock, picks: seq<Pick>)
    requires picks != []
    ensures var p, done := picks[|picks| - 1], ReservedStock(stock, picks[..|picks| - 1]);
            ReserveRow(done, p.variant, p.quantity) ==
            if p.variant in stock && Demand(picks, p.variant) <= stock[p.variant].available
            then Some(ReservedStock(stock, picks)) else None
  {
    var p, done := picks[|picks| - 1], ReservedStock(stock, picks[..|picks| - 1]);
    if p.variant in stock && Demand(picks, p.variant) <= stock[p.variant].available {
      assert ReserveRow(done, p.variant, p.quantity).value == ReservedStock(stock, picks);
    }
  }

  lemma FitsSplit(stock: Stock, picks: seq<Pick>)
    requires picks != []
    requires Fits(stock, picks[..|picks| - 1])
    requires var p := picks[|picks| - 1]; p.variant in stock && Demand(picks, p.variant) <= stock[p.variant].available
    ensures Fits(stock, picks)
  {
    var p := picks[|picks| - 1];
    forall q | q in picks ensures q.variant in stock && Demand(picks, q.variant) <= stock[q.variant].available {
      if q.variant != p.variant {
        assert q in picks[..|picks| - 1];
      }
    }
  }

  lemma HoldsOfPrefix(rows: seq<Reservation>, o: OrderId, picks: seq<Pick>, expiresAt: int)
    requires picks != []
    ensures rows + Mapped(picks, Hold(o, expiresAt))
         == rows + Mapped(picks[..|picks| - 1], Hold(o, expiresAt)) + [Hold(o, expiresAt)(picks[|picks| - 1])]
  {
  }

  /**
   * The line-by-line loop succeeds exactly when every quantity is positive and, per variant, the total demand is
   * available, repeated variants included; it then moves exactly that demand and appends one held row per line.
   */
  lemma {:induction false} PlaceHoldsExact(stock: Stock, rows: seq<Reservation>, o: OrderId, picks: seq<Pick>,
                                           expiresAt: int)
    ensures var r := PlaceHolds(stock, rows, o, picks, expiresAt);
            && (r.Ok? <==> Positive(picks) && Fits(stock, picks))
            && (r.Ok? ==> r.value == (ReservedStock(stock, picks), rows + Mapped(picks, Hold(o, expiresAt))))
  {
    if picks == [] {
      assert ReservedStock(stock, picks) == stock;
      assert rows + Mapped(picks, Hold(o, expiresAt)) == rows;
    } else {
      var init, p := picks[..|picks| - 1], picks[|picks| - 1];
      PlaceHoldsExact(stock, rows, o, init, expiresAt);
      ReservedStep(stock, picks);
      HoldsOfPrefix(rows, o, picks, expiresAt);
      hide ReservedStock, ReserveRow, Demand;
      assert picks == init + [p];
      if Positive(init) && p.quantity > 0 {
        PrefixFits(stock, picks);
        if Fits(stock, init) && p.variant in stock && Demand(picks, p.variant) <= stock[p.variant].available {
          FitsSplit(stock, picks);
        }
      }
    }
  }

  /** A failed line fails the whole loop with the same error. */
  lemma {:induction false} PlaceHoldsStops(stock: Stock, rows: seq<Reservation>, o: OrderId, picks: seq<Pick>,
                                           n: nat, expiresAt: int)
    requires n <= |picks| && PlaceHolds(stock, rows, o, picks[..n], expiresAt).Err?
    ensures PlaceHolds(stock, rows, o, picks, expiresAt) == Err(PlaceHolds(stock, rows, o, picks[..n], expiresAt).error)
  {
    if n == |picks| {
      assert picks[..n] == picks;
    } else {
      assert picks[..|picks| - 1][..n] == picks[..n];
      PlaceHoldsStops(stock, rows, o, picks[..|picks| - 1], n, expiresAt);
    }
  }

  /** The new rows of a loop that goes through, field by field, in the order of the picks. */
  lemma HoldsPlaced(stock: Stock, rows: seq<Reservation>, o: OrderId, picks: seq<Pick>, expiresAt: int)
    requires PlaceHolds(stock, rows, o, picks, expiresAt).Ok?
    ensures PlaceHolds(stock, rows, o, picks, expiresAt).value.1
         == rows + seq(|picks|, i requires 0 <= i < |picks| =>
                       Reservation(o, picks[i].variant, picks[i].quantity, Held, expiresAt))
  {
    PlaceHoldsExact(stock, rows, o, picks, expiresAt);
    assert Mapped(picks, Hold(o, expiresAt))
        == seq(|picks|, i requires 0 <= i < |picks| =>
                 Reservation(o, picks[i].variant, picks[i].quantity, Held, expiresAt));
  }

  /**
   * The first line that does not go through decides: a shortage if its variant has too little left for it and the
   * lines before it, otherwise the constraint that refuses a quantity below one.
   */
  lemma {:induction false} FirstFailureDecides(stock: Stock, rows: seq<Reservation>, o: OrderId, picks: seq<Pick>,
                                               expiresAt: int)
    requires PlaceHolds(stock, rows, o, picks, expiresAt).Err?
    ensures exists n :: 0 <= n < |picks| && FailsAt(stock, picks, n, PlaceHolds(stock, rows, o, picks, expiresAt).error)
  {
    var init, last, n := picks[..|picks| - 1], picks[|picks| - 1], |picks| - 1;
    PlaceHoldsExact(stock, rows, o, init, expiresAt);
    if PlaceHolds(stock, rows, o, init, expiresAt).Err? {
      FirstFailureDecides(stock, rows, o, init, expiresAt);
      var m :| 0 <= m < |init| && FailsAt(stock, init, m, PlaceHolds(stock, rows, o, init, expiresAt).error);
      assert init[..m] == picks[..m] && init[..m + 1] == picks[..m + 1] && init[m] == picks[m];
      assert FailsAt(stock, picks, m, PlaceHolds(stock, rows, o, picks, expiresAt).error);
    } else {
      ReservedStep(stock, picks);
      assert picks[..n + 1] == picks;
      assert FailsAt(stock, picks, n, PlaceHolds(stock, rows, o, picks, expiresAt).error);
    }
  }

  /** The lines before n go through, line n does not, for the given reason. */
  ghost predicate FailsAt(stock: Stock, picks: seq<Pick>, n: nat, e: ConfirmError)
    requires n < |picks|
  {
    var v := picks[n].variant;
    && Positive(picks[..n]) && Fits(stock, picks[..n])
    && if v in stock && Demand(picks[..n + 1], v) <= stock[v].available
       then picks[n].quantity <= 0 && e == ConstraintViolation
       else e == InsufficientStock
  }

  /** With positive quantities the only reason to fail is a shortage. */
  lemma {:induction false} PlaceHoldsRefuses(stock: Stock, rows: seq<Reservation>, o: OrderId, picks: seq<Pick>,
                                             expiresAt: int)
    requires Positive(picks)
    ensures var r := PlaceHolds(stock, rows, o, picks, expiresAt); r.Err? ==> r.error == InsufficientStock
  {
    if picks == [] {
    } else {
      assert picks[|picks| - 1] in picks;
      PlaceHoldsRefuses(stock, rows, o, picks[..|picks| - 1], expiresAt);
    }
  }

  /** The order of the lines changes neither the verdict nor the stock, only the order of the reservation rows. */
  lemma PlaceHoldsAnyOrder(stock: Stock, rows: seq<Reservation>, o: OrderId, a: seq<Pick>, b: seq<Pick>, expiresAt: int)
    requires multiset(a) == multiset(b)
    ensures var ra, rb := PlaceHolds(stock, rows, o, a, expiresAt), PlaceHolds(stock, rows, o, b, expiresAt);
            ra.Ok? == rb.Ok? && (ra.Ok? ==> ra.value.0 == rb.value.0)
  {
    hide PlaceHolds, Demand, Visits;
    PlaceHoldsExact(stock, rows, o, a, expiresAt);
    PlaceHoldsExact(stock, rows, o, b, expiresAt);
    SamePicks(a, b);
    assert ReservedStock(stock, a) == ReservedStock(stock, b);
  }

  lemma SamePicks(a: seq<Pick>, b: seq<Pick>)
    requires multiset(a) == multiset(b)
    ensures forall p :: p in a <==> p in b
    ensures forall v :: Demand(a, v) == Demand(b, v) && Visits(a, v) == Visits(b, v)
  {
    forall p ensures p in a <==> p in b {
      assert p in multiset(a) <==> p in multiset(b);
    }
    forall v ensures Demand(a, v) == Demand(b, v) && Visits(a, v) == Visits(b, v) {
      DemandPermuted(a, b, v);
    }
  }

  ghost predicate ReservedNonNegative(stock: Stock) {
    forall v :: v in stock ==> stock[v].reserved >= 0
  }

  lemma SoldStep(stock: Stock, picks: seq<Pick>)
    requires picks != [] && ReservedNonNegative(stock)
    ensures var p, done := picks[|picks| - 1], SoldStock(stock, picks[..|picks| - 1]);
            if p.variant in stock && Demand(picks, p.variant) <= stock[p.variant].available
            then ReserveRow(done, p.variant, p.quantity).Some?
              && CommitRow(ReserveRow(done, p.variant, p.quantity).value, p) == SoldStock(stock, picks)
            else ReserveRow(done, p.variant, p.quantity).None?
  {
    var p, done := picks[|picks| - 1], SoldStock(stock, picks[..|picks| - 1]);
    if p.variant in stock && Demand(picks, p.variant) <= stock[p.variant].available {
      assert CommitRow(ReserveRow(done, p.variant, p.quantity).value, p) == SoldStock(stock, picks);
    }
  }

  /** The savepoint loop answers the same question and leaves every reserved counter as it was. */
  lemma {:induction false} SellAllExact(stock: Stock, picks: seq<Pick>)
    requires Positive(picks) && ReservedNonNegative(stock)
    ensures SellAll(stock, picks) == if Fits(stock, picks) then Some(SoldStock(stock, picks)) else None
  {
    if picks == [] {
      assert SoldStock(stock, picks) == stock;
    } else {
      var init, p := picks[..|picks| - 1], picks[|picks| - 1];
      assert picks == init + [p];
      SellAllExact(stock, init);
      SoldStep(stock, picks);
      PrefixFits(stock, picks);
      if Fits(stock, init) && p.variant in stock && Demand(picks, p.variant) <= stock[p.variant].available {
        FitsSplit(stock, picks);
      }
    }
  }

  /** The order of the lines does not matter to the savepoint loop either. */
  lemma SellAllAnyOrder(stock: Stock, a: seq<Pick>, b: seq<Pick>)
    requires multiset(a) == multiset(b)
    requires Positive(a) && ReservedNonNegative(stock)
    ensures SellAll(stock, a) == SellAll(stock, b)
  {
    SamePicks(a, b);
    SellAllExact(stock, a);
    SellAllExact(stock, b);
    assert SoldStock(stock, a) == SoldStock(stock, b);
  }

  lemma {:induction false} SellAllStops(stock: Stock, picks: seq<Pick>, n: nat)
    requires n <= |picks| && SellAll(stock, picks[..n]).None?
    ensures SellAll(stock, picks).None?
  {
    if n == |picks| {
      assert picks[..n] == picks;
    } else {
      assert picks[..|picks| - 1][..n] == picks[..n];
      SellAllStops(stock, picks[..|picks| - 1], n);
    }
  }

  // Release and commit: the unchecked guards

  /** One more released line in closed form: its guard matches. */
  lemma ReleaseStep(stock: Stock, init: seq<Pick>, p: Pick)
    requires p.variant in stock && Demand(init + [p], p.variant) <= stock[p.variant].reserved
    ensures GuardMatches(ReleasedStock(stock, init), p)
    ensures ReleaseRow(ReleasedStock(stock, init), p) == ReleasedStock(stock, init + [p])
  {
    assert (init + [p])[..|init|] == init;
    assert ReleaseRow(ReleasedStock(stock, init), p) == ReleasedStock(stock, init + [p]);
  }

  lemma CommitStep(stock: Stock, init: seq<Pick>, p: Pick)
    requires p.variant in stock && Demand(init + [p], p.variant) <= stock[p.variant].reserved
    ensures GuardMatches(CommittedStock(stock, init), p)
    ensures CommitRow(CommittedStock(stock, init), p) == CommittedStock(stock, init + [p])
  {
    assert (init + [p])[..|init|] == init;
    assert CommitRow(CommittedStock(stock, init), p) == CommittedStock(stock, init + [p]);
  }

  ghost predicate MatchesAt(stock: Stock, picks: seq<Pick>, n: nat)
    requires n < |picks|
  {
    GuardMatches(ReleaseAll(stock, picks[..n]), picks[n]) && GuardMatches(CommitAll(stock, picks[..n]), picks[n])
  }

  lemma MatchesExtend(stock: Stock, init: seq<Pick>, last: Pick)
    requires forall n :: 0 <= n < |init| ==> MatchesAt(stock, init, n)
    requires GuardMatches(ReleaseAll(stock, init), last) && GuardMatches(CommitAll(stock, init), last)
    ensures forall n :: 0 <= n < |init + [last]| ==> MatchesAt(stock, init + [last], n)
  {
    hide GuardMatches, ReleaseAll, CommitAll;
    forall n | 0 <= n < |init + [last]| ensures MatchesAt(stock, init + [last], n) {
      if n < |init| {
        assert MatchesAt(stock, init, n) && init[..n] == (init + [last])[..n];
      } else {
        assert (init + [last])[..n] == init;
      }
    }
  }

  /**
   * When the reserved counters cover the picks, no guard of the release or commit loop ever misses its row, also not
   * in the middle of the loop, and the loop moves exactly the demand.
   */
  lemma {:induction false} GuardsMatch(stock: Stock, picks: seq<Pick>)
    requires Positive(picks) && Covered(stock, picks)
    ensures ReleaseAll(stock, picks) == ReleasedStock(stock, picks)
    ensures CommitAll(stock, picks) == CommittedStock(stock, picks)
    ensures forall n :: 0 <= n < |picks| ==> MatchesAt(stock, picks, n)
  {
    if picks == [] {
      assert ReleasedStock(stock, picks) == stock && CommittedStock(stock, picks) == stock;
    } else {
      var init, last := picks[..|picks| - 1], picks[|picks| - 1];
      assert forall p :: p in init ==> p in picks;
      PrefixFits(stock, picks);
      GuardsMatch(stock, init);
      assert picks == init + [last] && last in picks;
      ReleaseStep(stock, init, last);
      CommitStep(stock, init, last);
      MatchesExtend(stock, init, last);
    }
  }

  // Versions

  /** Rows are never deleted, versions never fall, and a row whose version stands still has not been written. */
  ghost predicate Later(stock: Stock, stock': Stock) {
    forall v :: v in stock ==>
      && v in stock' && stock[v].version <= stock'[v].version
      && (stock[v].version == stock'[v].version ==> stock[v] == stock'[v])
  }

  /** Every stock loop only ever moves rows forward, whether its guards match or not. */
  lemma {:induction false} LoopsMoveForward(stock: Stock, picks: seq<Pick>)
    ensures Later(stock, ReleaseAll(stock, picks)) && Later(stock, CommitAll(stock, picks))
    ensures SellAll(stock, picks).Some? ==> Later(stock, SellAll(stock, picks).value)
  {
    if picks == [] {
    } else {
      LoopsMoveForward(stock, picks[..|picks| - 1]);
    }
  }

  lemma {:induction false} PlaceHoldsMovesForward(stock: Stock, rows: seq<Reservation>, o: OrderId, picks: seq<Pick>,
                                                  expiresAt: int)
    requires PlaceHolds(stock, rows, o, picks, expiresAt).Ok?
    ensures Later(stock, PlaceHolds(stock, rows, o, picks, expiresAt).value.0)
  {
    if picks == [] {
    } else {
      PlaceHoldsMovesForward(stock, rows, o, picks[..|picks| - 1], expiresAt);
    }
  }
}
