/**
 * The lives of payments and orders: which event moves which status where, and what holds of the two statuses together
 * at every moment of every run.
 */
module Lifecycles {
  import opened Common
  import opened Tables
  import opened Inventory
  import opened Fulfilment
  import opened Refunds
  import opened Machine
  import opened Charges
  import opened RefundUndo
  import opened Resolutions
  import opened SlotConservation
  import opened BundleHolds
  import opened Growth
  import opened Closings

  // ---- One event -------------------------------------------------------------------------

  /** The status a delivery ends a payment with. */
  function DeliveredStatus(how: Ending, refundGranted: bool): PaymentStatus {
    match how
    case Closed => Failed
    case GivenUp => if refundGranted then Refunded else Failed
    case Sold => Success
    case BrokenOff => Success
  }

  function DeliveredOrder(how: Ending, was: OrderStatus): OrderStatus {
    match how
    case Closed => if was == PendingPayment then OrderFailed else was
    case GivenUp => OrderFailed
    case Sold => Paid
    case BrokenOff => was
  }

  /** The status of a payment after an event. */
  function StatusAfter(w: World, e: Event, pid: Id): PaymentStatus
    requires pid in w.db.payments
  {
    var p := w.db.payments[pid];
    match e
    case EChargeSuccess(x, granted) =>
      if x == pid && (p.status == Pending || p.status == Failed)
      then DeliveredStatus(EndingOf(w.db, pid, w.now), granted) else p.status
    case EAdminVerify(x, granted) =>
      if x == pid && p.manual && p.status == Pending
      then DeliveredStatus(EndingOf(w.db, pid, w.now), granted) else p.status
    case EChargeFailed(x) => if x == pid && p.status != Refunded then Failed else p.status
    case ECancel(x) => if x == pid && p.status == Pending then Failed else p.status
    case ERefund(x) => if x == pid && p.status == Success then Refunded else p.status
    case _ => p.status
  }

  /** The status of an order after an event. */
  function OrderAfter(w: World, e: Event, oid: Id): OrderStatus
    requires oid in w.db.orders
  {
    var was := w.db.orders[oid].status;
    match e
    case EChargeSuccess(x, _) =>
      if x in w.db.payments && w.db.payments[x].orderId == Some(oid)
         && (w.db.payments[x].status == Pending || w.db.payments[x].status == Failed)
      then DeliveredOrder(EndingOf(w.db, x, w.now), was) else was
    case EAdminVerify(x, _) =>
      if x in w.db.payments && w.db.payments[x].orderId == Some(oid) && w.db.payments[x].manual
         && w.db.payments[x].status == Pending
      then DeliveredOrder(EndingOf(w.db, x, w.now), was) else was
    case EChargeFailed(x) =>
      if x in w.db.payments && w.db.payments[x].orderId == Some(oid) && was == PendingPayment then OrderFailed else was
    case ECancel(x) =>
      if x in w.db.payments && w.db.payments[x].orderId == Some(oid) && w.db.payments[x].status == Pending
         && was == PendingPayment
      then OrderFailed else was
    case _ => was
  }

  lemma DeliveryMoves(db: Db, pid: Id, refundGranted: bool, now: int)
    requires pid in db.payments && WellFormed(db.payments[pid])
    ensures var d := ApplySuccess(SetStatus(db, pid, Success), pid, refundGranted, now); var p := db.payments[pid];
      && d.payments == db.payments[pid := p.(status := DeliveredStatus(EndingOf(db, pid, now), refundGranted))]
      && d.orders.Keys == db.orders.Keys
      && forall o | o in db.orders ::
           d.orders[o].status == if p.orderId == Some(o)
             then DeliveredOrder(EndingOf(db, pid, now), db.orders[o].status)
             else db.orders[o].status
  {
    var marked := SetStatus(db, pid, Success);
    assert WellFormed(marked.payments[pid]);
    hide *;
    DeliveryConcludes(marked, pid, refundGranted, now);
    MidRows(marked, pid, now);
    MarkedEnds(db, pid, now);
    ConclusionMoves(db, marked, Mid(marked, pid, now), ApplySuccess(marked, pid, refundGranted, now), pid,
                    EndingOf(db, pid, now), refundGranted);
  }

  lemma ConclusionMoves(db: Db, marked: Db, mid: Db, d: Db, pid: Id, how: Ending, refundGranted: bool)
    requires pid in db.payments && marked == SetStatus(db, pid, Success)
    requires mid.payments == marked.payments && mid.orders == marked.orders
    requires Concludes(mid, d, pid, how, refundGranted)
    ensures var p := db.payments[pid];
      && d.payments == db.payments[pid := p.(status := DeliveredStatus(how, refundGranted))]
      && d.orders.Keys == db.orders.Keys
      && forall o | o in db.orders ::
           d.orders[o].status == if p.orderId == Some(o) then DeliveredOrder(how, db.orders[o].status)
             else db.orders[o].status
  {
    hide RowsEnd, HoldsEnd;
  }

  lemma ClosingMoves(before: Db, after: Db, pid: Id, status: PaymentStatus)
    requires pid in before.payments && IsClosed(before, after, pid, status)
    ensures after.payments == before.payments[pid := before.payments[pid].(status := status)]
    ensures after.orders.Keys == before.orders.Keys
    ensures forall o | o in before.orders ::
      after.orders[o].status ==
        if before.payments[pid].orderId == Some(o) && before.orders[o].status == PendingPayment then OrderFailed
        else before.orders[o].status
  {
    hide RowsEnd, HoldsEnd;
  }

  /** What an event may have added is a pending payment and its pending order. */
  ghost predicate Moves(w: World, e: Event, d: Db) {
    && (forall pid | pid in w.db.payments :: pid in d.payments && d.payments[pid].status == StatusAfter(w, e, pid))
    && (forall o | o in w.db.orders :: o in d.orders && d.orders[o].status == OrderAfter(w, e, o))
    && (forall pid | pid in d.payments && pid !in w.db.payments :: d.payments[pid].status == Pending)
    && (forall o | o in d.orders && o !in w.db.orders :: d.orders[o].status == PendingPayment)
  }

  /** One payment moves, and no payment or order is added. */
  lemma OneMoves(w: World, e: Event, d: Db, pid: Id, status: PaymentStatus)
    requires pid in w.db.payments && d.payments == w.db.payments[pid := w.db.payments[pid].(status := status)]
    requires status == StatusAfter(w, e, pid)
    requires forall x | x in w.db.payments && x != pid :: StatusAfter(w, e, x) == w.db.payments[x].status
    requires d.orders.Keys == w.db.orders.Keys
    requires forall o | o in w.db.orders :: d.orders[o].status == OrderAfter(w, e, o)
    ensures Moves(w, e, d)
  {
    hide StatusAfter, OrderAfter;
  }

  lemma NothingMoved(w: World, e: Event, d: Db)
    requires d.payments == w.db.payments && d.orders == w.db.orders
    requires forall x | x in w.db.payments :: StatusAfter(w, e, x) == w.db.payments[x].status
    requires forall o | o in w.db.orders :: OrderAfter(w, e, o) == w.db.orders[o].status
    ensures Moves(w, e, d)
  {
    hide StatusAfter, OrderAfter;
  }

  lemma ChargeMoves(w: World, e: Event, pid: Id, refundGranted: bool)
    requires AllSound(w.db) && (e == EChargeSuccess(pid, refundGranted) || e == EAdminVerify(pid, refundGranted))
    ensures Moves(w, e, Next(w, e))
  {
    hide ApplySuccess, EndingOf, WellFormed, SetStatus, DeliveredOrder, DeliveredStatus, AllSound, Moves;
    if Delivers(w, e) {
      assert WellFormed(w.db.payments[pid]) by { SoundIsFormed(w.db, pid); }
      DeliveryMoves(w.db, pid, refundGranted, w.now);
      OneMoves(w, e, Next(w, e), pid, DeliveredStatus(EndingOf(w.db, pid, w.now), refundGranted));
    } else {
      NothingMoved(w, e, w.db);
    }
  }

  lemma SoundIsFormed(db: Db, pid: Id)
    requires AllSound(db) && pid in db.payments
    ensures WellFormed(db.payments[pid])
  {
    assert Sound(db, pid);
  }

  lemma FailureMoves(w: World, pid: Id)
    ensures Moves(w, EChargeFailed(pid), ChargeFailed(w.db, pid)) && Moves(w, ECancel(pid), CancelPending(w.db, pid))
  {
    FailedChargeCloses(w.db, pid);
    CancellationCloses(w.db, pid);
    hide ChargeFailed, CancelPending, IsClosed, Moves;
    if pid in w.db.payments {
      var p := w.db.payments[pid];
      var status := if p.status == Refunded then Refunded else Failed;
      ClosingMoves(w.db, ChargeFailed(w.db, pid), pid, status);
      OneMoves(w, EChargeFailed(pid), ChargeFailed(w.db, pid), pid, status);
      if p.status == Pending {
        ClosingMoves(w.db, CancelPending(w.db, pid), pid, Failed);
        OneMoves(w, ECancel(pid), CancelPending(w.db, pid), pid, Failed);
      } else {
        NothingMoved(w, ECancel(pid), w.db);
      }
    } else {
      NothingMoved(w, EChargeFailed(pid), w.db);
      NothingMoved(w, ECancel(pid), w.db);
    }
  }

  lemma RefundMoves(w: World, pid: Id)
    requires AllSound(w.db)
    ensures Moves(w, ERefund(pid), RefundPayment(w.db, pid))
  {
    hide Reverse, WellFormed, AllSound, SetStatus, Moves, Grown, Copied, Credit;
    if pid in w.db.payments && w.db.payments[pid].status == Success {
      SoundIsFormed(w.db, pid);
      RefundTables(w.db, pid);
      hide RefundPayment;
      OneMoves(w, ERefund(pid), RefundPayment(w.db, pid), pid, Refunded);
    } else {
      NothingMoved(w, ERefund(pid), w.db);
    }
  }

  /** A pending payment joins the others, or nothing does. */
  lemma PaymentJoins(w: World, e: Event, d: Db, pid: Id)
    requires e.EInitSingle? || e.EInitPlan?
    requires pid !in w.db.payments && pid in d.payments && d.payments[pid].status == Pending
    requires d.payments == w.db.payments[pid := d.payments[pid]] && d.orders == w.db.orders
    ensures Moves(w, e, d)
  {
  }

  lemma OrderJoins(w: World, e: Event, d: Db, pid: Id, oid: Id)
    requires e.ECheckout? && pid !in w.db.payments && oid !in w.db.orders
    requires pid in d.payments && d.payments[pid].status == Pending
    requires oid in d.orders && d.orders[oid].status == PendingPayment
    requires d.payments == w.db.payments[pid := d.payments[pid]] && d.orders == w.db.orders[oid := d.orders[oid]]
    ensures Moves(w, e, d)
  {
  }

  lemma StartMoves(w: World, e: Event)
    requires e.EInitSingle? || e.EInitPlan? || e.ECheckout?
    ensures Moves(w, e, Next(w, e))
  {
    var d := Next(w, e);
    NothingStarted(w, e);
    if d != w.db {
      match e
      case EInitSingle(b, _, _) =>
        hide Moves;
        PaymentJoins(w, e, d, b.pid);
      case EInitPlan(b, planId, expiresAt) =>
        InitPlanTables(w.db, b, planId, expiresAt, w.now, w.rule);
        hide InitPlan, Moves;
        PaymentJoins(w, e, d, b.pid);
      case ECheckout(oid, b, items, expiresAt) =>
        CheckoutTables(w.db, oid, b, items, expiresAt, w.now, w.rule);
        hide Checkout, CheckoutIsAllowed, OnlyHolds, PlanIds, Moves;
        OrderJoins(w, e, d, b.pid, oid);
    }
  }

  lemma NothingStarted(w: World, e: Event)
    requires e.EInitSingle? || e.EInitPlan? || e.ECheckout?
    ensures Moves(w, e, w.db)
  {
  }

  /** Every event moves every payment and every order exactly so. */
  lemma StatusStep(w: World, e: Event)
    requires AllSound(w.db)
    ensures Moves(w, e, Next(w, e))
  {
    hide AllSound, Moves, ApplySuccess, RefundPayment, InitSingle, InitPlan, Checkout, ChargeFailed, CancelPending,
         SetStatus;
    match e
    case EChargeSuccess(pid, granted) => ChargeMoves(w, e, pid, granted);
    case EAdminVerify(pid, granted) => ChargeMoves(w, e, pid, granted);
    case EChargeFailed(pid) => FailureMoves(w, pid);
    case ECancel(pid) => FailureMoves(w, pid);
    case ERefund(pid) => RefundMoves(w, pid);
    case EInitSingle(_, _, _) => StartMoves(w, e);
    case EInitPlan(_, _, _) => StartMoves(w, e);
    case ECheckout(_, _, _, _) => StartMoves(w, e);
    case _ => QuietMoves(w, e);
  }

  lemma QuietMoves(w: World, e: Event)
    requires e.ECleanup? || e.ETick? || e.EAssignSlot? || e.EUnassignSlot? || e.ESetTotalSlots? || e.ERemoveSlot?
    ensures Moves(w, e, Next(w, e))
  {
    hide KeepHolds, ClearHolds, Without, Debit, Credit, Moves;
    NothingMoved(w, e, Next(w, e));
  }

  // ---- Runs ------------------------------------------------------------------------------

  /** The event that takes a successful payment back. */
  predicate TakesBack(e: Event, pid: Id) {
    e == ERefund(pid) || e == EChargeFailed(pid)
  }

  /**
   * A refunded payment stays refunded whatever comes, and a successful one stays successful until it is refunded or
   * reported failed.
   */
  lemma {:induction false} ClosedPaymentsStay(w: World, events: seq<Event>, pid: Id)
    requires AllSound(w.db) && pid in w.db.payments
    requires var status := w.db.payments[pid].status;
      status == Refunded || (status == Success && forall k | 0 <= k < |events| :: !TakesBack(events[k], pid))
    ensures AllSound(Run(w, events).db) && Grown(w.db, Run(w, events).db)
    ensures var d := Run(w, events).db; pid in d.payments && d.payments[pid] == w.db.payments[pid]
    decreases events
  {
    if events == [] {
      NothingGrown(w.db);
    } else {
      var next := Step(w, events[0]);
      SoundStep(w, events[0]);
      StatusStep(w, events[0]);
      assert next.db.payments[pid].status == w.db.payments[pid].status by { hide AllSound, Grown; }
      assert next.db.payments[pid] == w.db.payments[pid] by { hide AllSound, Moves; }
      assert forall k | 0 <= k < |events[1..]| :: events[1..][k] == events[k + 1];
      hide AllSound, Moves, Grown, Next;
      ClosedPaymentsStay(next, events[1..], pid);
      GrownTwice(w.db, next.db, Run(next, events[1..]).db);
    }
  }

  /** An order has one payment; it waits while that is pending, and does not wait any more once that has failed. */
  ghost predicate InStep(db: Db) {
    forall pid | pid in db.payments && db.payments[pid].kind == OrderPayment :: OrderInStep(db, pid)
  }

  ghost predicate OrderInStep(db: Db, pid: Id)
    requires pid in db.payments
  {
    var p := db.payments[pid];
    && p.orderId.Some? && p.orderId.value in db.orders
    && (p.status == Pending ==> db.orders[p.orderId.value].status == PendingPayment)
    && (p.status == Failed ==> db.orders[p.orderId.value].status != PendingPayment)
    && forall x | x in db.payments && db.payments[x].orderId == p.orderId :: x == pid
  }

  lemma StoredInStep(w: World, e: Event, pid: Id)
    requires pid in w.db.payments && w.db.payments[pid].kind == OrderPayment && OrderInStep(w.db, pid)
    ensures var oid := w.db.payments[pid].orderId.value;
      && (StatusAfter(w, e, pid) == Pending ==> OrderAfter(w, e, oid) == PendingPayment)
      && (StatusAfter(w, e, pid) == Failed ==> OrderAfter(w, e, oid) != PendingPayment)
  {
    hide EndingOf;
  }

  /** Only a checkout adds a payment with an order, and that order is new. */
  lemma NewPaymentsOrder(w: World, e: Event, x: Id)
    requires AllSound(w.db) && x in Next(w, e).payments && x !in w.db.payments
    ensures var p := Next(w, e).payments[x];
      && (p.kind == OrderPayment || p.orderId.Some? ==>
            e.ECheckout? && p.orderId == Some(e.oid) && e.oid !in w.db.orders)
      && (e.ECheckout? ==> x == e.b.pid)
  {
    if !e.EInitSingle? && !e.EInitPlan? && !e.ECheckout? {
      AllSoundIsStored(w.db);
      hide Next;
      NoPaymentAdded(w, e);
    } else {
      StartedPayment(w, e, x);
    }
  }

  lemma StartedPayment(w: World, e: Event, x: Id)
    requires e.EInitSingle? || e.EInitPlan? || e.ECheckout?
    requires x in Next(w, e).payments && x !in w.db.payments
    ensures var p := Next(w, e).payments[x];
      && (p.kind == OrderPayment || p.orderId.Some? ==>
            e.ECheckout? && p.orderId == Some(e.oid) && e.oid !in w.db.orders)
      && (e.ECheckout? ==> x == e.b.pid)
  {
    match e
    case EInitSingle(b, _, _) =>
    case EInitPlan(b, planId, expiresAt) =>
      InitPlanTables(w.db, b, planId, expiresAt, w.now, w.rule);
      hide InitPlan;
    case ECheckout(oid, b, items, expiresAt) =>
      CheckoutTables(w.db, oid, b, items, expiresAt, w.now, w.rule);
      hide Checkout, CheckoutIsAllowed, OnlyHolds, PlanIds;
  }

  lemma OneOrderEach(w: World, e: Event, pid: Id, x: Id)
    requires AllSound(w.db) && InStep(w.db)
    requires var d := Next(w, e);
      && pid in d.payments && d.payments[pid].kind == OrderPayment && x in d.payments
      && d.payments[x].orderId == d.payments[pid].orderId
    ensures x == pid
  {
    SoundStep(w, e);
    if pid !in w.db.payments { NewPaymentsOrder(w, e, pid); } else { assert OrderInStep(w.db, pid); }
    if x !in w.db.payments { NewPaymentsOrder(w, e, x); }
    if x in w.db.payments && pid !in w.db.payments { SoundOrder(w.db, x); }
    hide Next, AllSound;
  }

  lemma SoundOrder(db: Db, x: Id)
    requires AllSound(db) && x in db.payments && db.payments[x].orderId.Some?
    ensures db.payments[x].orderId.value in db.orders
  {
    assert Sound(db, x);
  }

  lemma InStepStep(w: World, e: Event)
    requires AllSound(w.db) && InStep(w.db)
    ensures InStep(Next(w, e))
  {
    var d := Next(w, e);
    SoundStep(w, e);
    StatusStep(w, e);
    forall pid | pid in d.payments && d.payments[pid].kind == OrderPayment ensures OrderInStep(d, pid) {
      forall x | x in d.payments && d.payments[x].orderId == d.payments[pid].orderId ensures x == pid {
        OneOrderEach(w, e, pid, x);
      }
      assert d.payments[pid].orderId.Some? && d.payments[pid].orderId.value in d.orders by { assert Sound(d, pid); }
      if pid in w.db.payments {
        assert OrderInStep(w.db, pid);
        StoredInStep(w, e, pid);
      } else {
        NewPaymentsOrder(w, e, pid);
      }
      hide Next, AllSound, InStep, StatusAfter, OrderAfter;
    }
  }

  /**
   * In every run that starts in step: a pending payment's order waits, a failed payment's order does not, and no two
   * payments share an order.
   */
  lemma {:induction false} OrdersKeepInStep(w: World, events: seq<Event>)
    requires AllSound(w.db) && InStep(w.db)
    ensures InStep(Run(w, events).db)
    decreases events
  {
    if events != [] {
      SoundStep(w, events[0]);
      InStepStep(w, events[0]);
      hide AllSound, InStep, Next, Grown;
      OrdersKeepInStep(Step(w, events[0]), events[1..]);
    }
  }
}
