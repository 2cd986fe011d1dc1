/** The stock ledger: reserved counters are backed by held reservations, and available is never negative. */
module Ledger {
  import opened Prelude
  import opened Schema
  import opened StockLoops
  import opened Protocol

  function HeldQty(v: VariantId): Reservation -> int {
    (r: Reservation) => if r.status == Held && r.variant == v then r.quantity else 0
  }

  function HeldQtyOf(o: OrderId, v: VariantId): Reservation -> int {
    (r: Reservation) => if r.status == Held && r.order == o && r.variant == v then r.quantity else 0
  }

  /** Quantity of v held by all orders. */
  function HeldTotal(rows: seq<Reservation>, v: VariantId): int {
    Sum(rows, HeldQty(v))
  }

  /** Quantity of v held by one order. */
  function HeldOf(rows: seq<Reservation>, o: OrderId, v: VariantId): int {
    Sum(rows, HeldQtyOf(o, v))
  }

  ghost predicate Backed(stock: Stock, rows: seq<Reservation>) {
    && (forall v :: v in stock ==> stock[v].available >= 0 && stock[v].reserved == HeldTotal(rows, v))
    && (forall r :: r in rows && r.status == Held ==> r.variant in stock && r.quantity > 0)
  }

  // What the loops over an order's held rows add up to

  lemma {:induction false} HeldPicksDemand(rows: seq<Reservation>, o: OrderId, v: VariantId)
    ensures Demand(HeldPicks(rows, o), v) == HeldOf(rows, o, v)
  {
    if rows == [] {
    } else {
      var init := HeldPicks(rows[..|rows| - 1], o);
      HeldPicksDemand(rows[..|rows| - 1], o, v);
      assert forall p :: (init + [p])[..|init|] == init;
    }
  }

  lemma {:induction false} HeldPicksAreHeld(rows: seq<Reservation>, o: OrderId)
    ensures forall p :: p in HeldPicks(rows, o) ==>
      exists r :: r in rows && r.status == Held && r.order == o && r.variant == p.variant && r.quantity == p.quantity
  {
    if rows == [] {
    } else {
      var init, last := rows[..|rows| - 1], rows[|rows| - 1];
      HeldPicksAreHeld(init, o);
      assert forall r :: r in init ==> r in rows;
      assert last in rows;
    }
  }

  /** No order holds more of a variant than the ledger says is reserved. */
  lemma HeldCovered(stock: Stock, rows: seq<Reservation>, o: OrderId)
    requires Backed(stock, rows)
    ensures Positive(HeldPicks(rows, o)) && Covered(stock, HeldPicks(rows, o))
    ensures ReservedNonNegative(stock)
  {
    HeldPicksAreHeld(rows, o);
    forall p | p in HeldPicks(rows, o)
      ensures p.variant in stock && Demand(HeldPicks(rows, o), p.variant) <= stock[p.variant].reserved
    {
      HeldPicksDemand(rows, o, p.variant);
      SumAtMost(rows, HeldQtyOf(o, p.variant), HeldQty(p.variant));
    }
    forall v | v in stock ensures stock[v].reserved >= 0 {
      SumCovers(rows, HeldQty(v));
    }
  }

  /** Settling an order's held rows takes exactly its share out of the totals. */
  lemma SettledTotals(rows: seq<Reservation>, o: OrderId, to: HoldStatus, v: VariantId)
    requires to != Held
    ensures HeldTotal(Settle(rows, o, to), v) == HeldTotal(rows, v) - HeldOf(rows, o, v)
  {
    var left := (r: Reservation) => if r.status == Held && r.order != o && r.variant == v then r.quantity else 0;
    SumMapped(rows, SettleRow(o, to), HeldQty(v), left);
    SumSplit(rows, HeldQty(v), left, HeldQtyOf(o, v));
  }

  lemma SettledOf(rows: seq<Reservation>, o: OrderId, to: HoldStatus, other: OrderId, v: VariantId)
    requires to != Held
    ensures HeldOf(Settle(rows, o, to), other, v) == if other == o then 0 else HeldOf(rows, other, v)
  {
    var left := (r: Reservation) =>
      if r.status == Held && r.order == other && r.order != o && r.variant == v then r.quantity else 0;
    SumMapped(rows, SettleRow(o, to), HeldQtyOf(other, v), left);
    if other == o {
      SumZero(rows, left);
    } else {
      SumSame(rows, left, HeldQtyOf(other, v));
    }
  }

  lemma SettledRows(rows: seq<Reservation>, o: OrderId, to: HoldStatus)
    requires to != Held
    ensures forall r :: r in Settle(rows, o, to) ==> r.status == Held ==> r in rows && r.order != o
    ensures forall r :: r in Settle(rows, o, to) ==> exists r' :: r' in rows && r'.order == r.order
  {
    forall r | r in Settle(rows, o, to)
      ensures (r.status == Held ==> r in rows && r.order != o) && exists r' :: r' in rows && r'.order == r.order
    {
      var i: nat :| i < |rows| && Settle(rows, o, to)[i] == r;
      assert rows[i] in rows && rows[i].order == r.order;
    }
  }

  lemma HoldsAdded(rows: seq<Reservation>, o: OrderId, picks: seq<Pick>, expiresAt: int, v: VariantId)
    ensures HeldTotal(rows + Mapped(picks, Hold(o, expiresAt)), v) == HeldTotal(rows, v) + Demand(picks, v)
    ensures forall x :: HeldOf(rows + Mapped(picks, Hold(o, expiresAt)), x, v)
                     == HeldOf(rows, x, v) + (if x == o then Demand(picks, v) else 0)
  {
    var added := Mapped(picks, Hold(o, expiresAt));
    SumConcat(rows, added, HeldQty(v));
    SumMapped(picks, Hold(o, expiresAt), HeldQty(v), Wanted(v));
    forall x ensures HeldOf(rows + added, x, v) == HeldOf(rows, x, v) + (if x == o then Demand(picks, v) else 0) {
      SumConcat(rows, added, HeldQtyOf(x, v));
      if x == o {
        SumMapped(picks, Hold(o, expiresAt), HeldQtyOf(x, v), Wanted(v));
      } else {
        SumZero(added, HeldQtyOf(x, v));
      }
    }
  }

  // Every stock operation keeps the ledger

  /** The release and commit loops hit every guard and keep the ledger. */
  lemma SettlingKeepsLedger(stock: Stock, rows: seq<Reservation>, o: OrderId)
    requires Backed(stock, rows)
    ensures var picks := HeldPicks(rows, o);
            && ReleaseAll(stock, picks) == ReleasedStock(stock, picks)
            && CommitAll(stock, picks) == CommittedStock(stock, picks)
            && (forall n :: 0 <= n < |picks| ==> MatchesAt(stock, picks, n))
            && Backed(ReleaseAll(stock, picks), Settle(rows, o, Released))
            && Backed(CommitAll(stock, picks), Settle(rows, o, Committed))
  {
    var picks := HeldPicks(rows, o);
    HeldCovered(stock, rows, o);
    GuardsMatch(stock, picks);
    SettledRows(rows, o, Released);
    SettledRows(rows, o, Committed);
    forall v | v in stock
      ensures ReleasedStock(stock, picks)[v].reserved == HeldTotal(Settle(rows, o, Released), v)
      ensures CommittedStock(stock, picks)[v].reserved == HeldTotal(Settle(rows, o, Committed), v)
      ensures ReleasedStock(stock, picks)[v].available >= 0
    {
      SettledTotals(rows, o, Released, v);
      SettledTotals(rows, o, Committed, v);
      HeldPicksDemand(rows, o, v);
      DemandNonNegative(picks, v);
    }
  }

  lemma HoldingKeepsLedger(stock: Stock, rows: seq<Reservation>, o: OrderId, picks: seq<Pick>, expiresAt: int)
    requires Backed(stock, rows)
    requires PlaceHolds(stock, rows, o, picks, expiresAt).Ok?
    ensures var held := PlaceHolds(stock, rows, o, picks, expiresAt).value; Backed(held.0, held.1)
  {
    PlaceHoldsExact(stock, rows, o, picks, expiresAt);
    var rows' := rows + Mapped(picks, Hold(o, expiresAt));
    forall v | v in stock
      ensures ReservedStock(stock, picks)[v].reserved == HeldTotal(rows', v)
          && ReservedStock(stock, picks)[v].available >= 0
    {
      HoldsAdded(rows, o, picks, expiresAt, v);
      if Demand(picks, v) > stock[v].available {
        if p :| p in picks && p.variant == v {
          assert false;
        } else {
          DemandUnlisted(picks, v);
        }
      }
    }
  }

  lemma SellingKeepsLedger(stock: Stock, rows: seq<Reservation>, picks: seq<Pick>)
    requires Backed(stock, rows) && Positive(picks)
    ensures SellAll(stock, picks).Some? <==> Fits(stock, picks)
    ensures SellAll(stock, picks).Some? ==> SellAll(stock, picks).value == SoldStock(stock, picks)
    ensures SellAll(stock, picks).Some? ==> Backed(SellAll(stock, picks).value, rows)
  {
    forall v | v in stock ensures stock[v].reserved >= 0 {
      SumCovers(rows, HeldQty(v));
    }
    SellAllExact(stock, picks);
    if Fits(stock, picks) {
      forall v | v in stock ensures Demand(picks, v) <= stock[v].available {
        if forall p :: p in picks ==> p.variant != v {
          DemandUnlisted(picks, v);
        }
      }
    }
  }

  lemma UpsertKeepsLedger(stock: Stock, rows: seq<Reservation>, v: VariantId, available: int, expected: int)
    requires Backed(stock, rows)
    requires UpsertRow(stock, v, available, expected).Ok?
    ensures Backed(UpsertRow(stock, v, available, expected).value, rows)
  {
    if v !in stock {
      SumZero(rows, HeldQty(v));
    }
  }
}
