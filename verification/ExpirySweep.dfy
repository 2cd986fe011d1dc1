/** The expiry job run on its own: what a whole sweep does to the tables, in closed form. */
module ExpirySweep {
  import opened Prelude
  import opened Schema
  import opened StockLoops
  import opened Protocol
  import opened Ledger
  import opened Invariants
  import opened Preservation
  import opened Runs

  predicate HeldBy(r: Reservation, expiring: set<OrderId>, v: VariantId) {
    r.status == Held && r.order in expiring && r.variant == v
  }

  function HeldQtyIn(expiring: set<OrderId>, v: VariantId): Reservation -> int {
    (r: Reservation) => if HeldBy(r, expiring, v) then r.quantity else 0
  }

  function HeldRowIn(expiring: set<OrderId>, v: VariantId): Reservation -> int {
    (r: Reservation) => if HeldBy(r, expiring, v) then 1 else 0
  }

  /** Quantity of v that a set of orders holds. */
  function HeldIn(rows: seq<Reservation>, expiring: set<OrderId>, v: VariantId): int {
    Sum(rows, HeldQtyIn(expiring, v))
  }

  /** Number of held rows of v in a set of orders. */
  function RowsIn(rows: seq<Reservation>, expiring: set<OrderId>, v: VariantId): int {
    Sum(rows, HeldRowIn(expiring, v))
  }

  function ReleaseIn(expiring: set<OrderId>): Reservation -> Reservation {
    (r: Reservation) => if r.order in expiring && r.status == Held then r.(status := Released) else r
  }

  function UsesIn(orders: Orders, expiring: set<OrderId>, code: string): set<OrderId> {
    set o | o in expiring && o in orders && orders[o].coupon == Some(code)
  }

  function StockAfter(t: Tables, expiring: set<OrderId>): Stock {
    map v | v in t.stock ::
      StockRow(t.stock[v].available + HeldIn(t.reservations, expiring, v),
               t.stock[v].reserved - HeldIn(t.reservations, expiring, v),
               t.stock[v].version + RowsIn(t.reservations, expiring, v))
  }

  function OrdersAfter(orders: Orders, expiring: set<OrderId>): Orders {
    map o | o in orders :: if o in expiring then orders[o].(status := Expired) else orders[o]
  }

  function CouponsAfter(t: Tables, expiring: set<OrderId>): Coupons {
    map code | code in t.coupons ::
      t.coupons[code].(usedCount := t.coupons[code].usedCount - |UsesIn(t.orders, expiring, code)|)
  }

  /** The tables once all the given orders have expired, whichever came first; only the log shows their order. */
  function Swept(t: Tables, expiring: set<OrderId>, log: seq<Transition>): Tables {
    t.(stock := StockAfter(t, expiring),
       reservations := Mapped(t.reservations, ReleaseIn(expiring)),
       orders := OrdersAfter(t.orders, expiring),
       coupons := CouponsAfter(t, expiring),
       log := log)
  }

  function ExpiryEntry(o: OrderId): Transition {
    Transition(o, Some(PendingPayment), Expired, "reservation_expired", "job")
  }

  function IdSet(ids: seq<OrderId>): set<OrderId> {
    set o | o in ids
  }

  ghost predicate Distinct(ids: seq<OrderId>) {
    forall i, j :: 0 <= i < j < |ids| ==> ids[i] != ids[j]
  }

  ghost predicate AllPending(orders: Orders, ids: seq<OrderId>) {
    forall o :: o in ids ==> o in orders && orders[o].status == PendingPayment
  }

  // One more order, table by table

  lemma {:induction false} HeldPicksVisits(rows: seq<Reservation>, o: OrderId, v: VariantId)
    ensures Visits(HeldPicks(rows, o), v) == RowsIn(rows, {o}, v)
  {
    if rows == [] {
    } else {
      var init := HeldPicks(rows[..|rows| - 1], o);
      HeldPicksVisits(rows[..|rows| - 1], o, v);
      assert forall p :: (init + [p])[..|init|] == init;
    }
  }

  lemma {:induction false} HeldPicksUntouched(rows: seq<Reservation>, expiring: set<OrderId>, o: OrderId)
    requires o !in expiring
    ensures HeldPicks(Mapped(rows, ReleaseIn(expiring)), o) == HeldPicks(rows, o)
  {
    if rows == [] {
    } else {
      HeldPicksUntouched(rows[..|rows| - 1], expiring, o);
      assert Mapped(rows, ReleaseIn(expiring))[..|rows| - 1] == Mapped(rows[..|rows| - 1], ReleaseIn(expiring));
    }
  }

  lemma OneMoreHolds(rows: seq<Reservation>, expiring: set<OrderId>, o: OrderId, v: VariantId)
    requires o !in expiring
    ensures HeldIn(rows, expiring + {o}, v) == HeldIn(rows, expiring, v) + Demand(HeldPicks(rows, o), v)
    ensures RowsIn(rows, expiring + {o}, v) == RowsIn(rows, expiring, v) + Visits(HeldPicks(rows, o), v)
  {
    HeldPicksDemand(rows, o, v);
    HeldPicksVisits(rows, o, v);
    SumSplit(rows, HeldQtyIn(expiring + {o}, v), HeldQtyIn(expiring, v), HeldQtyOf(o, v));
    SumSplit(rows, HeldRowIn(expiring + {o}, v), HeldRowIn(expiring, v), HeldRowIn({o}, v));
  }

  lemma OneMoreReleased(t: Tables, expiring: set<OrderId>, o: OrderId)
    requires o !in expiring
    ensures ReleasedStock(StockAfter(t, expiring), HeldPicks(t.reservations, o)) == StockAfter(t, expiring + {o})
  {
    hide HeldIn, RowsIn, HeldPicks, Demand, Visits;
    forall v | v in t.stock
      ensures ReleasedStock(StockAfter(t, expiring), HeldPicks(t.reservations, o))[v]
          == StockAfter(t, expiring + {o})[v]
    {
      OneMoreHolds(t.reservations, expiring, o, v);
    }
  }

  lemma OneMoreStock(t: Tables, expiring: set<OrderId>, o: OrderId)
    requires o !in expiring
    requires Backed(StockAfter(t, expiring), Mapped(t.reservations, ReleaseIn(expiring)))
    ensures ReleaseAll(StockAfter(t, expiring), HeldPicks(Mapped(t.reservations, ReleaseIn(expiring)), o))
         == StockAfter(t, expiring + {o})
  {
    hide StockAfter, Backed, ReleaseAll, ReleasedStock, CommitAll, CommittedStock, HeldPicks, MatchesAt, Settle;
    HeldPicksUntouched(t.reservations, expiring, o);
    OneMoreReleased(t, expiring, o);
    SettlingKeepsLedger(StockAfter(t, expiring), Mapped(t.reservations, ReleaseIn(expiring)), o);
  }

  lemma OneMoreRows(rows: seq<Reservation>, expiring: set<OrderId>, o: OrderId)
    ensures Settle(Mapped(rows, ReleaseIn(expiring)), o, Released) == Mapped(rows, ReleaseIn(expiring + {o}))
  {
  }

  lemma OneMoreUse(orders: Orders, expiring: set<OrderId>, o: OrderId, code: string)
    requires o !in expiring && o in orders
    ensures |UsesIn(orders, expiring + {o}, code)|
         == |UsesIn(orders, expiring, code)| + (if orders[o].coupon == Some(code) then 1 else 0)
  {
    if orders[o].coupon == Some(code) {
      assert UsesIn(orders, expiring + {o}, code) == UsesIn(orders, expiring, code) + {o};
    } else {
      assert UsesIn(orders, expiring + {o}, code) == UsesIn(orders, expiring, code);
    }
  }

  /** The coupon's counter still allows one more release. */
  lemma OneMoreCoupon(t: Tables, expiring: set<OrderId>, o: OrderId)
    requires o !in expiring && o in t.orders
    requires t.orders[o].coupon.Some? ==>
               var code := t.orders[o].coupon.value;
               code in t.coupons && CouponsAfter(t, expiring)[code].usedCount > 0
    ensures ReleaseCouponOf(CouponsAfter(t, expiring), OrdersAfter(t.orders, expiring), o)
        == CouponsAfter(t, expiring + {o})
  {
    hide UsesIn;
    var after := ReleaseCouponOf(CouponsAfter(t, expiring), OrdersAfter(t.orders, expiring), o);
    forall code | code in t.coupons ensures after[code] == CouponsAfter(t, expiring + {o})[code] {
      OneMoreUse(t.orders, expiring, o, code);
    }
    assert after.Keys == t.coupons.Keys;
  }

  lemma OneMoreOrder(orders: Orders, expiring: set<OrderId>, o: OrderId)
    requires o !in expiring && o in orders && orders[o].status == PendingPayment
    ensures TransitionRow(OrdersAfter(orders, expiring), o, PendingPayment, Expired)
        == OrdersAfter(orders, expiring + {o})
  {
  }

  lemma NothingPaid(orders: Orders, charges: Charges, o: OrderId)
    requires ChargesAgree(orders, charges) && o in orders && orders[o].status == PendingPayment
    ensures !HasPaidCharge(charges, o)
  {
    forall k | k in charges && charges[k].order == o ensures charges[k].status != ChargePaid {
      assert Agree(charges[k].status, orders[charges[k].order].status);
    }
  }

  lemma OneMoreExpired(t: Tables, expiring: set<OrderId>, log: seq<Transition>, o: OrderId)
    requires Consistent(Swept(t, expiring, log))
    requires o !in expiring && o in t.orders && t.orders[o].status == PendingPayment
    ensures ExpireOrder(Swept(t, expiring, log), o) == Some(Swept(t, expiring + {o}, log + [ExpiryEntry(o)]))
  {
    var s := Swept(t, expiring, log);
    NothingPaid(s.orders, s.charges, o);
    PendingIsFresh(s.orders, s.log, o);
    OneMoreStock(t, expiring, o);
    OneMoreRows(t.reservations, expiring, o);
    UseGivenBack(s.orders, s.log, s.coupons, ExpiryEntry(o));
    OneMoreCoupon(t, expiring, o);
    OneMoreOrder(t.orders, expiring, o);
  }

  // The whole sweep

  lemma NothingSwept(t: Tables)
    ensures Swept(t, {}, t.log) == t
  {
    forall v | v in t.stock ensures StockAfter(t, {})[v] == t.stock[v] {
      SumZero(t.reservations, HeldQtyIn({}, v));
      SumZero(t.reservations, HeldRowIn({}, v));
    }
    forall code | code in t.coupons ensures CouponsAfter(t, {})[code] == t.coupons[code] {
      assert UsesIn(t.orders, {}, code) == {};
    }
    assert StockAfter(t, {}) == t.stock && CouponsAfter(t, {}) == t.coupons && OrdersAfter(t.orders, {}) == t.orders;
    assert Mapped(t.reservations, ReleaseIn({})) == t.reservations;
  }

  lemma LastIsNew(ids: seq<OrderId>)
    requires ids != [] && Distinct(ids)
    ensures Distinct(ids[..|ids| - 1])
    ensures ids[|ids| - 1] !in IdSet(ids[..|ids| - 1])
    ensures IdSet(ids) == IdSet(ids[..|ids| - 1]) + {ids[|ids| - 1]}
  {
    assert ids == ids[..|ids| - 1] + [ids[|ids| - 1]];
  }

  /**
   * Sweeping any list of distinct pending orders expires all of them: no iteration is skipped, no unchecked guard
   * misses, and the tables depend on the set of orders alone, up to the order of the new log entries.
   */
  lemma {:induction false} SweepIsExact(t: Tables, ids: seq<OrderId>)
    requires Consistent(t) && Distinct(ids) && AllPending(t.orders, ids)
    ensures SweepOrders(t, ids) == (Swept(t, IdSet(ids), t.log + Mapped(ids, ExpiryEntry)), |ids|)
    ensures Consistent(SweepOrders(t, ids).0) && Conserved(t, SweepOrders(t, ids).0)
  {
    hide Consistent, Swept, ExpireOrder, Balance;
    if ids == [] {
      NothingSwept(t);
      assert t.log + Mapped(ids, ExpiryEntry) == t.log;
      assert IdSet(ids) == {};
    } else {
      var init, o := ids[..|ids| - 1], ids[|ids| - 1];
      LastIsNew(ids);
      assert o in ids && forall x :: x in init ==> x in ids;
      SweepIsExact(t, init);
      OneMoreExpired(t, IdSet(init), t.log + Mapped(init, ExpiryEntry), o);
      assert t.log + Mapped(init, ExpiryEntry) + [ExpiryEntry(o)] == t.log + Mapped(ids, ExpiryEntry);
      ExpireKeeps(SweepOrders(t, init).0, o);
    }
  }

  lemma ExpiredArePending(t: Tables, now: int)
    requires Consistent(t)
    ensures Distinct(ExpiredIds(t.reservations, now)) && AllPending(t.orders, ExpiredIds(t.reservations, now))
  {
  }

  ghost predicate Overdue(rows: seq<Reservation>, o: OrderId, now: int) {
    exists r :: r in rows && r.order == o && r.status == Held && r.expiresAt < now
  }

  lemma {:induction false} DistinctSize(ids: seq<OrderId>)
    requires Distinct(ids)
    ensures |IdSet(ids)| == |ids|
  {
    if ids == [] {
      assert IdSet(ids) == {};
    } else {
      LastIsNew(ids);
      DistinctSize(ids[..|ids| - 1]);
    }
  }

  /**
   * An uninterrupted sweep at a given time expires exactly the orders with an overdue hold and touches no other order
   * row, leaves no overdue hold behind, reports their number, and a second sweep at the same time finds nothing to do.
   */
  lemma SweepCorrect(t: Tables, now: int)
    requires Consistent(t)
    ensures var (t', n) := Sweep(t, now);
            && Consistent(t') && Conserved(t, t')
            && (forall r :: r in t'.reservations && r.status == Held ==> r.expiresAt >= now)
            && t'.orders.Keys == t.orders.Keys
            && (forall o :: o in t.orders ==>
                  && (Overdue(t.reservations, o, now) ==> t.orders[o].status == PendingPayment)
                  && t'.orders[o]
                     == if Overdue(t.reservations, o, now) then t.orders[o].(status := Expired) else t.orders[o])
            && n == |set o | o in t.orders && Overdue(t.reservations, o, now)|
            && Sweep(t', now) == (t', 0)
  {
    hide Consistent, Conserved, HeldIn, RowsIn, CouponsAfter, StockAfter;
    var ids := ExpiredIds(t.reservations, now);
    ExpiredArePending(t, now);
    SweepIsExact(t, ids);
    DistinctSize(ids);
    assert IdSet(ids) == set o | o in t.orders && Overdue(t.reservations, o, now);
    NoneOverdue(t.reservations, now);
    assert SweepOrders(Sweep(t, now).0, []) == (Sweep(t, now).0, 0);
  }

  lemma NoneOverdue(rows: seq<Reservation>, now: int)
    ensures var rows' := Mapped(rows, ReleaseIn(IdSet(ExpiredIds(rows, now))));
            && (forall r :: r in rows' && r.status == Held ==> r.expiresAt >= now)
            && ExpiredIds(rows', now) == []
  {
    var ids := ExpiredIds(rows, now);
    var rows' := Mapped(rows, ReleaseIn(IdSet(ids)));
    forall r | r in rows' && r.status == Held ensures r.expiresAt >= now {
      var i: nat :| i < |rows| && rows'[i] == r;
      assert rows[i] in rows;
    }
    if ExpiredIds(rows', now) != [] {
      assert ExpiredIds(rows', now)[0] in ExpiredIds(rows', now);
    }
  }

  /** The order in which the job visits the orders matters for nothing but the order of the new log entries. */
  lemma SweepAnyOrder(t: Tables, now: int, ids: seq<OrderId>)
    requires Consistent(t) && multiset(ids) == multiset(ExpiredIds(t.reservations, now))
    ensures var r, s := SweepOrders(t, ids), Sweep(t, now);
            && r.1 == s.1
            && r.0.(log := []) == s.0.(log := [])
            && multiset(r.0.log) == multiset(s.0.log)
  {
    hide Consistent, Conserved, StockAfter, OrdersAfter, CouponsAfter, ReleaseIn;
    var sorted := ExpiredIds(t.reservations, now);
    ExpiredArePending(t, now);
    SameIds(ids, sorted);
    SweepIsExact(t, ids);
    SweepIsExact(t, sorted);
    MappedPermuted(ids, sorted, ExpiryEntry);
  }

  lemma SameIds(a: seq<OrderId>, b: seq<OrderId>)
    requires multiset(a) == multiset(b) && Distinct(b)
    ensures Distinct(a) && IdSet(a) == IdSet(b) && |a| == |b|
    ensures forall o :: o in a <==> o in b
  {
    forall o ensures o in a <==> o in b {
      assert o in multiset(a) <==> o in multiset(b);
    }
    assert |multiset(a)| == |a| && |multiset(b)| == |b|;
    assert IdSet(a) == IdSet(b);
    DistinctSize(b);
    FullSizeDistinct(a);
  }

  lemma {:induction false} FullSizeDistinct(ids: seq<OrderId>)
    ensures |IdSet(ids)| <= |ids|
    ensures |IdSet(ids)| == |ids| ==> Distinct(ids)
  {
    if ids == [] {
      assert IdSet(ids) == {};
    } else {
      var init, o := ids[..|ids| - 1], ids[|ids| - 1];
      assert ids == init + [o];
      assert IdSet(ids) == IdSet(init) + {o};
      FullSizeDistinct(init);
      if o in init {
        assert IdSet(ids) == IdSet(init);
      }
    }
  }

  // The sweep as part of a run

  /**
   * A sweep is a run of expiry steps, so the run theorems also cover sweeps with other steps between their
   * iterations.
   */
  lemma {:induction false} SweepIsARun(w: World, ids: seq<OrderId>)
    ensures Exec(w, Mapped(ids, (o: OrderId) => Expire(o))) == w.(t := SweepOrders(w.t, ids).0)
  {
    hide Exec, ExpireOrder;
    if ids == [] {
      assert Exec(w, []) == w by {
        ExecNothing(w);
      }
    } else {
      var init := ids[..|ids| - 1];
      SweepIsARun(w, init);
      ExecAppend(w, Mapped(init, (o: OrderId) => Expire(o)), Expire(ids[|ids| - 1]));
      assert Mapped(ids, (o: OrderId) => Expire(o))
          == Mapped(init, (o: OrderId) => Expire(o)) + [Expire(ids[|ids| - 1])];
    }
  }
}
