/** What a reservation row tells about its order, and how long a confirmed order is safe from the expiry job. */
module ReservationRuns {
  import opened Prelude
  import opened Schema
  import opened StockLoops
  import opened Protocol
  import opened Ledger
  import opened Invariants
  import opened Preservation
  import opened Confirming
  import opened CheckoutService
  import opened Transactions
  import opened Runs
  import opened RunTheorems
  import opened ExpirySweep

  // Status of the rows

  /** Held for a pending order, committed for one paid in time, released for one that expired or failed. */
  ghost predicate Tells(orders: Orders, log: seq<Transition>, r: Reservation) {
    && r.order in orders
    && match r.status
       case Held => orders[r.order].status == PendingPayment
       case Committed => orders[r.order].status == Paid && !GaveBack(log, r.order)
       case Released => GaveBack(log, r.order)
  }

  ghost predicate RowsTell(orders: Orders, log: seq<Transition>, rows: seq<Reservation>) {
    forall i :: 0 <= i < |rows| ==> Tells(orders, log, rows[i])
  }

  /** Settling a pending order's rows as the order moves on. */
  lemma SettledRowsTell(orders: Orders, log: seq<Transition>, rows: seq<Reservation>, e: Transition, to: HoldStatus)
    requires RowsTell(orders, log, rows)
    requires e.order in orders && orders[e.order].status == PendingPayment && !GaveBack(log, e.order)
    requires if e.to == Paid then to == Committed else to == Released && (e.to == Expired || e.to == PaymentFailed)
    ensures RowsTell(Moved(orders, e.order, e.to), log + [e], Marked(rows, e.order, to))
  {
    hide GaveBack;
    var rows' := Marked(rows, e.order, to);
    forall i | 0 <= i < |rows'| ensures Tells(Moved(orders, e.order, e.to), log + [e], rows'[i]) {
      assert Tells(orders, log, rows[i]);
      GaveBackAppend(log, e, rows[i].order);
    }
  }

  /** A late payment leaves the rows alone; they were released when the order expired. */
  lemma LateRowsTell(orders: Orders, log: seq<Transition>, rows: seq<Reservation>, e: Transition)
    requires RowsTell(orders, log, rows)
    requires e.order in orders && orders[e.order].status == Expired && (e.to == Paid || e.to == PaidAwaitingStock)
    ensures RowsTell(Moved(orders, e.order, e.to), log + [e], rows)
  {
    hide GaveBack;
    forall i | 0 <= i < |rows| ensures Tells(Moved(orders, e.order, e.to), log + [e], rows[i]) {
      assert Tells(orders, log, rows[i]);
      GaveBackAppend(log, e, rows[i].order);
    }
  }

  lemma NewRowsTell(t: Tables, plan: Plan, now: int)
    requires RowsTell(t.orders, t.log, t.reservations) && ConfirmTx(t, plan, now).Ok?
    ensures var t' := ConfirmTx(t, plan, now).value; RowsTell(t'.orders, t'.log, t'.reservations)
  {
    hide ConfirmTx, PicksOf, GaveBack, OrderRow;
    ConfirmEffect(t, plan, now);
    RowsAppended(t, plan, now);
    PendingRow(plan);
    var t' := ConfirmTx(t, plan, now).value;
    var e := Transition(plan.order, None, PendingPayment, "checkout_confirmed", "system");
    forall i | 0 <= i < |t'.reservations| ensures Tells(t'.orders, t'.log, t'.reservations[i]) {
      if i < |t.reservations| {
        assert t'.reservations[i] == t.reservations[i] && Tells(t.orders, t.log, t.reservations[i]);
        GaveBackAppend(t.log, e, t.reservations[i].order);
      }
    }
  }

  lemma PendingRow(plan: Plan)
    ensures OrderRow(plan).status == PendingPayment
  {
  }

  /** The parts of a webhook's effect that the rows depend on. */
  lemma EffectRows(t: Tables, ev: Event)
    requires Effective(t, ev)
    ensures var t', o := WebhookEffect(t, ev), t.charges[ChargeRef("mock", ev.chargeId)].order;
            var e := Transition(o, Some(t.orders[o].status), Outcome(t, ev, o), Reason(t, ev, o), "webhook");
            && t'.orders == Moved(t.orders, o, e.to) && t'.log == t.log + [e]
            && t'.reservations == if t.orders[o].status == Expired then t.reservations
                                  else Marked(t.reservations, o, if ev.kind == "failed" then Released else Committed)
  {
    hide Booked, Moved, Marked, HeldPicks, ItemPicks, Fits, ReleasedStock, CommittedStock, SoldStock, UseReturned;
    hide Outcome, Reason;
    BookedRows(t, ev);
  }

  lemma BookedRows(t: Tables, ev: Event)
    requires Effective(t, ev)
    ensures var t', o := Booked(t, ev), t.charges[ChargeRef("mock", ev.chargeId)].order;
            && t'.orders == Moved(t.orders, o, Outcome(t, ev, o)) && t'.reservations == t.reservations
            && t'.log == t.log + [Transition(o, Some(t.orders[o].status), Outcome(t, ev, o), Reason(t, ev, o),
                                             "webhook")]
  {
    hide Moved, Outcome, Reason;
  }

  lemma OutcomeFits(t: Tables, ev: Event)
    requires Effective(t, ev)
    ensures var o := t.charges[ChargeRef("mock", ev.chargeId)].order;
            var to := Outcome(t, ev, o);
            if ev.kind == "failed" then to == PaymentFailed && t.orders[o].status == PendingPayment
            else if t.orders[o].status == PendingPayment then to == Paid
            else t.orders[o].status == Expired && (to == Paid || to == PaidAwaitingStock)
  {
  }

  lemma EffectRowsTell(t: Tables, ev: Event)
    requires Consistent(t) && Effective(t, ev) && RowsTell(t.orders, t.log, t.reservations)
    ensures var t' := WebhookEffect(t, ev); RowsTell(t'.orders, t'.log, t'.reservations)
  {
    var o := t.charges[ChargeRef("mock", ev.chargeId)].order;
    hide Consistent, RowsTell, Marked, Moved, WebhookEffect, Outcome, Reason, GaveBack, Backed, CouponsCount;
    hide LogReplays;
    LedgerAndCoupons(t);
    EffectRows(t, ev);
    OutcomeFits(t, ev);
    var e := Transition(o, Some(t.orders[o].status), Outcome(t, ev, o), Reason(t, ev, o), "webhook");
    if t.orders[o].status == PendingPayment {
      PendingIsFresh(t.orders, t.log, o);
      SettledRowsTell(t.orders, t.log, t.reservations, e, if ev.kind == "failed" then Released else Committed);
    } else {
      LateRowsTell(t.orders, t.log, t.reservations, e);
    }
  }

  lemma ExpiryRowsTell(t: Tables, o: OrderId)
    requires Consistent(t) && ExpireOrder(t, o).Some? && RowsTell(t.orders, t.log, t.reservations)
    ensures var t' := ExpireOrder(t, o).value; RowsTell(t'.orders, t'.log, t'.reservations)
  {
    LedgerAndCoupons(t);
    hide Consistent, RowsTell, Marked, ExpireOrder, GaveBack, Backed, CouponsCount, LogReplays;
    ExpireExactly(t, o);
    PendingIsFresh(t.orders, t.log, o);
    SettledRowsTell(t.orders, t.log, t.reservations, ExpiryEntry(o), Released);
  }

  lemma WebhookRowsTell(t: Tables, ev: Event)
    requires Consistent(t) && RowsTell(t.orders, t.log, t.reservations)
    ensures Apply(t, ev).Ok?
    ensures var t' := Apply(t, ev).value; RowsTell(t'.orders, t'.log, t'.reservations)
  {
    hide Consistent, RowsTell, Apply, Effective, WebhookEffect;
    if Effective(t, ev) {
      EventActs(t, ev);
      EffectRowsTell(t, ev);
    } else {
      EventIgnored(t, ev);
    }
  }

  lemma StepRowsTell(w: World, step: Step)
    requires Sound(w) && !step.RepoReserve? && !step.RepoResolve?
    requires RowsTell(w.t.orders, w.t.log, w.t.reservations)
    ensures var t := Next(w, step).t; RowsTell(t.orders, t.log, t.reservations)
  {
    hide Consistent, RowsTell, ConfirmTx, Apply, ExpireOrder, MakeQuote, PreCheck, Effective, WebhookEffect;
    match step
    case SubmitConfirm(client, now) =>
      if client in w.plans && ConfirmTx(w.t, w.plans[client], now).Ok? {
        NewRowsTell(w.t, w.plans[client], now);
      }
    case Webhook(ev) =>
      WebhookRowsTell(w.t, ev);
    case Expire(order) =>
      if ExpireOrder(w.t, order).Some? {
        ExpiryRowsTell(w.t, order);
      }
    case _ =>
  }

  lemma {:induction false} RunRowsTell(w: World, run: seq<Step>)
    requires Sound(w) && CheckoutOnly(run) && RowsTell(w.t.orders, w.t.log, w.t.reservations)
    ensures var t := Exec(w, run).t; RowsTell(t.orders, t.log, t.reservations)
    decreases |run|
  {
    hide Sound, Next, RowsTell;
    if run == [] {
    } else {
      assert run[0] in run && forall step :: step in run[1..] ==> step in run;
      StepKeeps(w, run[0]);
      StepRowsTell(w, run[0]);
      RunRowsTell(Next(w, run[0]), run[1..]);
    }
  }

  /**
   * Over every run, each reservation row tells its order's story and the other way round: held if and only if the
   * order is pending, committed if and only if it was paid without having expired, released if and only if it expired
   * or failed.
   */
  lemma RowsFollowOrders(run: seq<Step>)
    requires CheckoutOnly(run)
    ensures var t := Exec(START, run).t;
            forall r :: r in t.reservations ==>
              && r.order in t.orders
              && var s := t.orders[r.order].status;
                 && (r.status == Held <==> s == PendingPayment)
                 && (r.status == Committed <==> s == Paid && !GaveBack(t.log, r.order))
                 && (r.status == Released <==> GaveBack(t.log, r.order))
  {
    hide Exec;
    var t := Exec(START, run).t;
    StartIsSound();
    assert RowsTell(START.t.orders, START.t.log, START.t.reservations);
    RunRowsTell(START, run);
    ReachableIsSound(START, run);
    LedgerAndCoupons(t);
    hide Consistent, Backed, CouponsCount, LogReplays, GaveBack;
    forall r | r in t.reservations
      ensures Tells(t.orders, t.log, r) && (t.orders[r.order].status == PendingPayment ==> !GaveBack(t.log, r.order))
    {
      var i: nat :| i < |t.reservations| && t.reservations[i] == r;
      assert Tells(t.orders, t.log, t.reservations[i]);
      if t.orders[r.order].status == PendingPayment {
        PendingIsFresh(t.orders, t.log, r.order);
      }
    }
  }

  // How long a hold lasts

  /** Every row of the order ends at the given time, and there is one. */
  ghost predicate HoldsUntil(rows: seq<Reservation>, o: OrderId, until: int) {
    && (forall i :: 0 <= i < |rows| && rows[i].order == o ==> rows[i].expiresAt == until)
    && exists i :: 0 <= i < |rows| && rows[i].order == o
  }

  lemma ConfirmHoldsUntil(t: Tables, plan: Plan, now: int)
    requires ConfirmTx(t, plan, now).Ok? && plan.quote.lines != []
    requires forall r :: r in t.reservations ==> r.order in t.orders
    ensures HoldsUntil(ConfirmTx(t, plan, now).value.reservations, plan.order, plan.holdUntil)
    ensures plan.order in ConfirmTx(t, plan, now).value.orders
  {
    hide ConfirmTx, PicksOf;
    ConfirmAdds(t, plan, now);
    ConfirmHolds(t, plan, now);
    var n, rows' := |t.reservations|, ConfirmTx(t, plan, now).value.reservations;
    var added := rows'[n..];
    forall i | n <= i < |rows'| ensures rows'[i].order == plan.order && rows'[i].expiresAt == plan.holdUntil {
      assert added[i - n] in multiset(added) && multiset(added) == multiset(OwedHolds(plan));
      assert rows'[i] in OwedHolds(plan);
    }
    forall i | 0 <= i < n ensures rows'[i].order in t.orders {
      assert rows'[i] == rows'[..n][i] == t.reservations[i];
    }
    assert rows'[n].order == plan.order;
  }

  /** No step touches the end of a hold, and later rows are for later orders. */
  lemma StepKeepsHolds(w: World, step: Step, o: OrderId, until: int)
    requires !step.RepoReserve? && !step.RepoResolve?
    requires o in w.t.orders && HoldsUntil(w.t.reservations, o, until)
    ensures o in Next(w, step).t.orders && HoldsUntil(Next(w, step).t.reservations, o, until)
  {
    StepAddsRows(w, step, o);
    StepKeepsRows(w, step);
    var rows, rows' := w.t.reservations, Next(w, step).t.reservations;
    hide Next;
    forall i | 0 <= i < |rows'| && rows'[i].order == o ensures rows'[i].expiresAt == until {
      if i < |rows| {
        assert rows'[i].(status := rows[i].status) == rows[i];
      }
    }
    var i :| 0 <= i < |rows| && rows[i].order == o;
    assert rows'[i].(status := rows[i].status) == rows[i];
  }

  lemma StepAddsRows(w: World, step: Step, o: OrderId)
    requires !step.RepoReserve? && !step.RepoResolve? && o in w.t.orders
    ensures o in Next(w, step).t.orders
    ensures forall i :: |w.t.reservations| <= i < |Next(w, step).t.reservations| ==>
              Next(w, step).t.reservations[i].order != o
  {
    hide MakeQuote, PreCheck, Apply, ConfirmTx, PicksOf, ReleaseAll, HeldPicks, ReleaseCouponOf;
    match step
    case SubmitConfirm(client, now) =>
      if client in w.plans && ConfirmTx(w.t, w.plans[client], now).Ok? {
        ConfirmAdds(w.t, w.plans[client], now);
        RowsAppended(w.t, w.plans[client], now);
      }
    case Webhook(ev) =>
      if Apply(w.t, ev).Ok? {
        ApplyAddsNoRows(w.t, ev, o);
      }
    case _ =>
  }

  lemma ApplyAddsNoRows(t: Tables, ev: Event, o: OrderId)
    requires Apply(t, ev).Ok? && o in t.orders
    ensures |Apply(t, ev).value.reservations| == |t.reservations| && o in Apply(t, ev).value.orders
  {
    hide FailPending, PayPending, PayExpired, Apply;
    var k := ChargeRef("mock", ev.chargeId);
    ApplyCases(t, ev);
    if k in t.charges {
      EffectAddsNoRows(t.(events := t.events + {ev.id}), k, t.charges[k].order, o);
    }
  }

  lemma SettleLength(rows: seq<Reservation>, o: OrderId, to: HoldStatus)
    ensures |Settle(rows, o, to)| == |rows|
  {
  }

  lemma TransitionKeepsOrders(orders: Orders, moved: OrderId, from: OrderStatus, to: OrderStatus)
    ensures TransitionRow(orders, moved, from, to).Keys == orders.Keys
  {
  }

  lemma EffectAddsNoRows(t: Tables, k: ChargeRef, moved: OrderId, o: OrderId)
    requires o in t.orders
    ensures var f, p, l := FailPending(t, k, moved), PayPending(t, k, moved), PayExpired(t, k, moved);
            && |f.reservations| == |p.reservations| == |l.reservations| == |t.reservations|
            && o in f.orders && o in p.orders && o in l.orders
  {
    hide Settle, TransitionRow, ReleaseAll, CommitAll, SellAll, HeldPicks, ReleaseCouponOf, SetChargeRow;
    SettleLength(t.reservations, moved, Released);
    SettleLength(t.reservations, moved, Committed);
    TransitionKeepsOrders(t.orders, moved, PendingPayment, PaymentFailed);
    TransitionKeepsOrders(t.orders, moved, PendingPayment, Paid);
    TransitionKeepsOrders(t.orders, moved, Expired, Paid);
    TransitionKeepsOrders(t.orders, moved, Expired, PaidAwaitingStock);
  }

  lemma {:induction false} RunKeepsHolds(w: World, run: seq<Step>, o: OrderId, until: int)
    requires CheckoutOnly(run) && o in w.t.orders && HoldsUntil(w.t.reservations, o, until)
    ensures o in Exec(w, run).t.orders && HoldsUntil(Exec(w, run).t.reservations, o, until)
    decreases |run|
  {
    hide Next, HoldsUntil;
    if run == [] {
    } else {
      assert run[0] in run && forall step :: step in run[1..] ==> step in run;
      StepKeepsHolds(w, run[0], o, until);
      RunKeepsHolds(Next(w, run[0]), run[1..], o, until);
    }
  }

  lemma {:induction false} ExecConcat(w: World, a: seq<Step>, b: seq<Step>)
    ensures Exec(w, a + b) == Exec(Exec(w, a), b)
    decreases |b|
  {
    hide Next;
    if b == [] {
      assert a + b == a;
      ExecNothing(Exec(w, a));
    } else {
      assert a + b == (a + [b[0]]) + b[1..];
      ExecConcat(w, a + [b[0]], b[1..]);
      ExecAppend(w, a, b[0]);
    }
  }

  /**
   * The end of the hold that a confirm was given decides about the job: after the confirm and any further run, an order
   * that is still pending survives a sweep at any time up to that end, and expires in a sweep at any later time.
   */
  lemma HoldLastsExactly(before: seq<Step>, client: nat, confirmedAt: int, after: seq<Step>, now: int)
    requires CheckoutOnly(before) && CheckoutOnly(after)
    requires var w := Exec(START, before); client in w.plans && ConfirmTx(w.t, w.plans[client], confirmedAt).Ok?
    ensures var w := Exec(START, before);
            var plan, t := w.plans[client], Exec(Next(w, SubmitConfirm(client, confirmedAt)), after).t;
            plan.order in t.orders
            && (t.orders[plan.order].status == PendingPayment ==>
                  && plan.order in Sweep(t, now).0.orders
                  && Sweep(t, now).0.orders[plan.order].status
                     == if now <= plan.holdUntil then PendingPayment else Expired)
  {
    hide Exec, Next, ConfirmTx, Sweep, HoldsUntil, CheckoutOnly;
    HoldsInRun(before, client, confirmedAt, after);
    var w, submit := Exec(START, before), SubmitConfirm(client, confirmedAt);
    var plan := w.plans[client];
    if Exec(Next(w, submit), after).t.orders[plan.order].status == PendingPayment {
      SweepDecides(before + [submit] + after, plan.order, plan.holdUntil, now);
    }
  }

  /** The holds of a confirm, wherever the run goes from there. */
  lemma HoldsInRun(before: seq<Step>, client: nat, confirmedAt: int, after: seq<Step>)
    requires CheckoutOnly(before) && CheckoutOnly(after)
    requires var w := Exec(START, before); client in w.plans && ConfirmTx(w.t, w.plans[client], confirmedAt).Ok?
    ensures var w, submit := Exec(START, before), SubmitConfirm(client, confirmedAt);
            var plan, t := w.plans[client], Exec(Next(w, submit), after).t;
            && CheckoutOnly(before + [submit] + after) && t == Exec(START, before + [submit] + after).t
            && plan.order in t.orders && HoldsUntil(t.reservations, plan.order, plan.holdUntil)
  {
    var w, submit := Exec(START, before), SubmitConfirm(client, confirmedAt);
    var plan, w' := w.plans[client], Next(w, submit);
    assert w'.t == ConfirmTx(w.t, plan, confirmedAt).value;
    hide Exec, Next, ConfirmTx, HoldsUntil, Consistent;
    PlanHasLines(before, client);
    RowsFollowOrders(before);
    ConfirmHoldsUntil(w.t, plan, confirmedAt);
    RunKeepsHolds(w', after, plan.order, plan.holdUntil);
    ExecAppend(START, before, submit);
    ExecConcat(START, before + [submit], after);
  }

  lemma PlanHasLines(run: seq<Step>, client: nat)
    requires CheckoutOnly(run) && client in Exec(START, run).plans
    ensures Exec(START, run).plans[client].quote.lines != []
  {
    hide Exec, Consistent;
    StartIsSound();
    ReachableIsSound(START, run);
  }

  lemma SweepDecides(run: seq<Step>, o: OrderId, until: int, now: int)
    requires CheckoutOnly(run)
    requires var t := Exec(START, run).t;
             o in t.orders && t.orders[o].status == PendingPayment && HoldsUntil(t.reservations, o, until)
    ensures var t := Exec(START, run).t;
            && o in Sweep(t, now).0.orders
            && Sweep(t, now).0.orders[o].status == if now <= until then PendingPayment else Expired
  {
    hide Exec, Sweep, Consistent, HoldsUntil, Overdue, Conserved;
    var t := Exec(START, run).t;
    StartIsSound();
    ReachableIsSound(START, run);
    RowsFollowOrders(run);
    SweepCorrect(t, now);
    OverdueExactly(t.reservations, o, until, now);
  }

  lemma OverdueExactly(rows: seq<Reservation>, o: OrderId, until: int, now: int)
    requires HoldsUntil(rows, o, until) && forall r :: r in rows && r.order == o ==> r.status == Held
    ensures Overdue(rows, o, now) <==> until < now
  {
    var i :| 0 <= i < |rows| && rows[i].order == o;
    assert rows[i] in rows;
    if Overdue(rows, o, now) {
      var r :| r in rows && r.order == o && r.status == Held && r.expiresAt < now;
      var j: nat :| j < |rows| && rows[j] == r;
    }
  }
}
