/** The smaller transactions in closed form, in terms of their inputs and the rows they find. */
module Transactions {
  import opened Prelude
  import opened Schema
  import opened StockLoops
  import opened Money
  import opened Protocol
  import opened Ledger

  // The admin's stock write

  /**
   * The admin's write goes through exactly for a quantity that is not negative and a variant without a row or with the
   * expected version. It then leaves exactly the given quantity, counts the version up, or starts it at 0, and touches
   * nothing else.
   */
  lemma SetStockExact(t: Tables, v: VariantId, available: int, expected: int)
    ensures var r := SetStock(t, v, available, expected);
            && (r.Ok? <==> Int32(available) >= 0 && (v in t.stock ==> t.stock[v].version == Int32(expected)))
            && (r.Err? ==> r.error == if Int32(available) < 0 then NegativeStock else StockConflict)
            && (r.Ok? ==>
                  && r.value == t.(stock := r.value.stock)
                  && r.value.stock.Keys == t.stock.Keys + {v}
                  && (forall x :: x in t.stock && x != v ==> r.value.stock[x] == t.stock[x])
                  && r.value.stock[v].available == Int32(available)
                  && r.value.stock[v].reserved == (if v in t.stock then t.stock[v].reserved else 0)
                  && r.value.stock[v].version == (if v in t.stock then t.stock[v].version + 1 else 0))
  {
    hide Int32;
  }

  // Expiry

  /**
   * One transaction of the expiry job goes through exactly for a pending order without a paid charge. Whatever state it
   * finds, the order row is expired, no other order row changes, and one entry is logged.
   */
  lemma ExpireExactly(t: Tables, o: OrderId)
    ensures var r := ExpireOrder(t, o);
            && (r.Some? <==>
                  && o in t.orders && t.orders[o].status == PendingPayment
                  && forall k :: k in t.charges && t.charges[k].order == o ==> t.charges[k].status != ChargePaid)
            && (r.Some? ==>
                  && r.value.orders == t.orders[o := t.orders[o].(status := Expired)]
                  && r.value.reservations == Marked(t.reservations, o, Released)
                  && r.value.log == t.log + [Transition(o, Some(PendingPayment), Expired, "reservation_expired", "job")]
                  && r.value == t.(stock := r.value.stock, reservations := r.value.reservations,
                                   orders := r.value.orders, coupons := r.value.coupons, log := r.value.log))
  {
    hide ReleaseAll, HeldPicks, Settle, ReleaseCouponOf;
    SettleMarks(t.reservations, o, Released);
  }

  // The inventory repository

  function Narrowed(v: VariantId): Pick -> int {
    (p: Pick) => if p.variant == v then Int32(p.quantity) else 0
  }

  /** Quantity of v in the items, each narrowed to 32 bits. */
  function NarrowDemand(picks: seq<Pick>, v: VariantId): int {
    Sum(picks, Narrowed(v))
  }

  function NarrowPicks(picks: seq<Pick>): seq<Pick> {
    Mapped(LockOrder(picks), NarrowPick)
  }

  lemma NarrowDemandIsDemand(picks: seq<Pick>, v: VariantId)
    ensures Demand(NarrowPicks(picks), v) == NarrowDemand(picks, v)
    ensures Visits(NarrowPicks(picks), v) == Visits(picks, v)
  {
    LockOrderAscends(picks);
    SumMapped(LockOrder(picks), NarrowPick, Wanted(v), Narrowed(v));
    SumMapped(LockOrder(picks), NarrowPick, Naming(v), Naming(v));
    SumPermutation(LockOrder(picks), picks, Narrowed(v));
    SumPermutation(LockOrder(picks), picks, Naming(v));
  }

  lemma NarrowPicksListed(picks: seq<Pick>)
    ensures forall p :: p in picks ==> NarrowPick(p) in NarrowPicks(picks)
    ensures forall n :: n in NarrowPicks(picks) ==> exists p :: p in picks && NarrowPick(p) == n
  {
    var sorted := LockOrder(picks);
    LockOrderKeeps(picks);
    hide LockOrder, NarrowPick;
    forall p | p in picks ensures NarrowPick(p) in NarrowPicks(picks) {
      var i: nat :| i < |sorted| && sorted[i] == p;
      assert NarrowPicks(picks)[i] == NarrowPick(p);
    }
    forall n | n in NarrowPicks(picks) ensures exists p :: p in picks && NarrowPick(p) == n {
      var i: nat :| i < |sorted| && NarrowPicks(picks)[i] == n;
      assert sorted[i] in picks;
    }
  }

  lemma NarrowPicksFit(stock: Stock, picks: seq<Pick>)
    ensures Positive(NarrowPicks(picks)) && Fits(stock, NarrowPicks(picks))
            <==> forall p :: p in picks ==>
                   && Int32(p.quantity) > 0 && p.variant in stock
                   && NarrowDemand(picks, p.variant) <= stock[p.variant].available
  {
    hide NarrowPicks, NarrowDemand, Demand, Visits, Int32;
    NarrowPicksListed(picks);
    forall v ensures Demand(NarrowPicks(picks), v) == NarrowDemand(picks, v) {
      NarrowDemandIsDemand(picks, v);
    }
    forall p | p in picks
      ensures NarrowPick(p) in NarrowPicks(picks) && NarrowPick(p) == Pick(p.variant, Int32(p.quantity))
    {
    }
  }

  /** The rows that a reserve owes its items. */
  function OwedRows(picks: seq<Pick>, o: OrderId, expiresAt: int): seq<Reservation> {
    seq(|picks|, i requires 0 <= i < |picks| =>
      Reservation(o, picks[i].variant, Int32(picks[i].quantity), Held, expiresAt))
  }

  /**
   * The repository's reserve goes through exactly when every quantity is positive and all items of a variant together
   * are available; it moves these quantities and adds one held row for each item, with the given end.
   */
  lemma ReserveExactly(t: Tables, picks: seq<Pick>, o: OrderId, expiresAt: int)
    ensures var r := RepositoryReserve(t, picks, o, expiresAt);
            && (r.Ok? <==> forall p :: p in picks ==>
                             && Int32(p.quantity) > 0 && p.variant in t.stock
                             && NarrowDemand(picks, p.variant) <= t.stock[p.variant].available)
            && (r.Ok? ==>
                  && r.value == t.(stock := r.value.stock, reservations := r.value.reservations)
                  && r.value.stock.Keys == t.stock.Keys
                  && (forall v :: v in t.stock ==>
                        r.value.stock[v] == StockRow(t.stock[v].available - NarrowDemand(picks, v),
                                                     t.stock[v].reserved + NarrowDemand(picks, v),
                                                     t.stock[v].version + Visits(picks, v)))
                  && |r.value.reservations| == |t.reservations| + |picks|
                  && r.value.reservations[..|t.reservations|] == t.reservations
                  && multiset(r.value.reservations[|t.reservations|..]) == multiset(OwedRows(picks, o, expiresAt)))
  {
    hide NarrowDemand, Demand, Visits, OwedRows, Fits, Positive;
    var n := NarrowPicks(picks);
    PlaceHoldsExact(t.stock, t.reservations, o, n, expiresAt);
    NarrowPicksFit(t.stock, picks);
    assert RepositoryReserve(t, picks, o, expiresAt).Ok? <==> PlaceHolds(t.stock, t.reservations, o, n, expiresAt).Ok?;
    hide PlaceHolds, NarrowPicks;
    forall v ensures Demand(n, v) == NarrowDemand(picks, v) && Visits(n, v) == Visits(picks, v) {
      NarrowDemandIsDemand(picks, v);
    }
    RowsAsOwed(picks, o, expiresAt);
    var added := Mapped(n, Hold(o, expiresAt));
    assert (t.reservations + added)[|t.reservations|..] == added;
    assert (t.reservations + added)[..|t.reservations|] == t.reservations;
  }

  lemma RowsAsOwed(picks: seq<Pick>, o: OrderId, expiresAt: int)
    ensures |NarrowPicks(picks)| == |picks|
    ensures multiset(Mapped(NarrowPicks(picks), Hold(o, expiresAt))) == multiset(OwedRows(picks, o, expiresAt))
  {
    LockOrderAscends(picks);
    hide LockOrder;
    MappedPermuted(LockOrder(picks), picks, NarrowPick);
    MappedPermuted(NarrowPicks(picks), Mapped(picks, NarrowPick), Hold(o, expiresAt));
    assert Mapped(Mapped(picks, NarrowPick), Hold(o, expiresAt)) == OwedRows(picks, o, expiresAt);
  }

  /**
   * The repository's commit and release, whenever the ledger is backed: the order's held quantities leave the reserved
   * counters, come back to available on release only, and exactly the held rows are marked.
   */
  lemma ResolveExactly(t: Tables, o: OrderId, to: HoldStatus)
    requires Backed(t.stock, t.reservations) && to != Held
    ensures var t' := RepositoryResolve(t, o, to);
            && t' == t.(stock := t'.stock, reservations := Marked(t.reservations, o, to))
            && t'.stock.Keys == t.stock.Keys
            && forall v :: v in t.stock ==>
                 && t'.stock[v].reserved == t.stock[v].reserved - HeldOf(t.reservations, o, v)
                 && t'.stock[v].available
                    == t.stock[v].available + (if to == Released then HeldOf(t.reservations, o, v) else 0)
  {
    hide Backed, HeldPicks, ReleaseAll, CommitAll, Settle, MatchesAt, Demand, Visits, HeldOf, Marked;
    SettleMarks(t.reservations, o, to);
    SettlingKeepsLedger(t.stock, t.reservations, o);
    forall v ensures Demand(HeldPicks(t.reservations, o), v) == HeldOf(t.reservations, o, v) {
      HeldPicksDemand(t.reservations, o, v);
    }
  }
}
