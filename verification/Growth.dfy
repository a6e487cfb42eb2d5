/** What every event keeps of payments and orders: they are only added, and only their status changes. */
module Growth {
  import opened Common
  import opened Tables
  import opened Inventory
  import opened Fulfilment
  import opened Refunds
  import opened BundleResolution
  import opened Machine
  import opened Charges
  import opened RefundUndo
  import opened Resolutions
  import opened SlotConservation
  import opened Ownership
  import opened BundleHolds

  lemma CheckoutAdds(db: Db, oid: Id, b: Purchase, items: seq<Item>, expiresAt: int, now: int, rule: NullRule)
    requires Checkout(db, oid, b, items, expiresAt, now, rule) != db
    ensures Grown(db, Checkout(db, oid, b, items, expiresAt, now, rule))
  {
    CheckoutTables(db, oid, b, items, expiresAt, now, rule);
    hide Checkout, OnlyHolds, CheckoutIsAllowed, PlanIds;
  }

  lemma MissingPayment(db: Db, pid: Id)
    requires pid !in db.payments
    ensures ChargeFailed(db, pid) == db && CancelPending(db, pid) == db
  {
  }

  lemma NothingGrown(db: Db)
    ensures Grown(db, db)
  {
  }

  /** Payments and orders are never deleted, and only their status changes. */
  lemma GrownStep(w: World, e: Event)
    requires Stored(w.db)
    ensures Grown(w.db, Next(w, e))
  {
    NothingGrown(w.db);
    hide Stored, WellFormed, Grown, ApplySuccess, RefundPayment, InitSingle, InitPlan, Checkout, ChargeFailed,
         CancelPending, SetStatus, Debit, Credit, KeepHolds, ClearHolds, Without;
    var d := Next(w, e);
    match e
    case EInitSingle(b, kind, targetId) => InitsGrow(w, e);
    case EInitPlan(b, planId, until) => InitsGrow(w, e);
    case ECheckout(oid, b, items, until) => CheckoutGrows(w.db, oid, b, items, until, w.now, w.rule);
    case EChargeSuccess(pid, granted) => if Delivers(w, e) { DeliveryGrows(w, pid, granted); }
    case EAdminVerify(pid, granted) => if Delivers(w, e) { DeliveryGrows(w, pid, granted); }
    case EChargeFailed(pid) => ClosingGrows(w.db, pid);
    case ECancel(pid) => ClosingGrows(w.db, pid);
    case ERefund(pid) => RefundGrows(w.db, pid);
    case ETick(_) =>
    case _ => SameTablesGrow(w.db, d);
  }

  lemma InitsGrow(w: World, e: Event)
    requires e.EInitSingle? || e.EInitPlan?
    ensures Grown(w.db, Next(w, e))
  {
    NothingGrown(w.db);
    if e.EInitPlan? && Next(w, e) != w.db { InitPlanTables(w.db, e.b, e.planId, e.expiresAt, w.now, w.rule); }
    hide InitPlan;
  }

  lemma DeliveryGrows(w: World, pid: Id, refundGranted: bool)
    requires Stored(w.db) && pid in w.db.payments
    ensures Grown(w.db, ApplySuccess(SetStatus(w.db, pid, Success), pid, refundGranted, w.now))
  {
    assert WellFormed(w.db.payments[pid]);
    hide *;
    ChargedTables(w.db, pid, refundGranted, w.now);
  }

  lemma RefundGrows(db: Db, pid: Id)
    requires Stored(db)
    ensures Grown(db, RefundPayment(db, pid))
  {
    NothingGrown(db);
    if pid in db.payments && db.payments[pid].status == Success {
      assert WellFormed(db.payments[pid]);
      RefundTables(db, pid);
    }
    hide Reverse, Grown, WellFormed;
  }

  lemma CheckoutGrows(db: Db, oid: Id, b: Purchase, items: seq<Item>, expiresAt: int, now: int, rule: NullRule)
    ensures Grown(db, Checkout(db, oid, b, items, expiresAt, now, rule))
  {
    NothingGrown(db);
    if Checkout(db, oid, b, items, expiresAt, now, rule) != db {
      CheckoutAdds(db, oid, b, items, expiresAt, now, rule);
    }
  }

  lemma ClosingGrows(db: Db, pid: Id)
    ensures Grown(db, ChargeFailed(db, pid)) && Grown(db, CancelPending(db, pid))
  {
    NothingGrown(db);
    if pid in db.payments {
      var p := db.payments[pid];
      ClosingTables(db, pid);
      hide *;
      TidiedGrows(db, ChargeFailed(db, pid), pid, if p.status == Refunded then Refunded else Failed);
      if p.status == Pending { TidiedGrows(db, CancelPending(db, pid), pid, Failed); }
    } else {
      MissingPayment(db, pid);
    }
  }

  lemma DeliveryAddsNoPayment(db: Db, pid: Id, refundGranted: bool, now: int)
    requires pid in db.payments && WellFormed(db.payments[pid])
    ensures ApplySuccess(SetStatus(db, pid, Success), pid, refundGranted, now).payments.Keys == db.payments.Keys
  {
    ChargedTables(db, pid, refundGranted, now);
    hide ApplySuccess, Net, Debit, StatusAfter, Grown;
  }

  lemma ClosingAddsNoPayment(db: Db, pid: Id)
    ensures ChargeFailed(db, pid).payments.Keys == CancelPending(db, pid).payments.Keys == db.payments.Keys
    ensures pid in db.payments && WellFormed(db.payments[pid]) ==>
      RefundPayment(db, pid).payments.Keys == db.payments.Keys
    ensures pid !in db.payments ==> RefundPayment(db, pid) == db
  {
    if pid in db.payments {
      ClosingTables(db, pid);
      if db.payments[pid].status == Success && WellFormed(db.payments[pid]) { RefundTables(db, pid); }
      hide ChargeFailed, CancelPending, Released, OrdersKeep, Grown, Reverse;
    }
  }

  /** Only the start of a payment and a checkout add a payment. */
  lemma NoPaymentAdded(w: World, e: Event)
    requires Stored(w.db) && !e.EInitSingle? && !e.EInitPlan? && !e.ECheckout?
    ensures Next(w, e).payments.Keys == w.db.payments.Keys
  {
    hide ApplySuccess, RefundPayment, ChargeFailed, CancelPending, SetStatus, WellFormed, KeepHolds, ClearHolds,
         Without;
    match e
    case EChargeSuccess(pid, granted) => if Delivers(w, e) { DeliveryAddsNoPayment(w.db, pid, granted, w.now); }
    case EAdminVerify(pid, granted) => if Delivers(w, e) { DeliveryAddsNoPayment(w.db, pid, granted, w.now); }
    case EChargeFailed(pid) => ClosingAddsNoPayment(w.db, pid);
    case ECancel(pid) => ClosingAddsNoPayment(w.db, pid);
    case ERefund(pid) => ClosingAddsNoPayment(w.db, pid);
    case _ =>
  }

  lemma {:induction false} GrownRun(w: World, events: seq<Event>)
    requires Stored(w.db) && Consistent(w.db.assets)
    ensures Grown(w.db, Run(w, events).db)
    decreases events
  {
    NothingGrown(w.db);
    if events != [] {
      var next := Step(w, events[0]);
      GrownStep(w, events[0]);
      OwnershipStep(w, events[0]);
      hide Stored, Consistent, Next, Grown;
      GrownRun(next, events[1..]);
      GrownTwice(w.db, next.db, Run(next, events[1..]).db);
    }
  }

  lemma GrownTwice(a: Db, b: Db, c: Db)
    requires Grown(a, b) && Grown(b, c)
    ensures Grown(a, c)
  {
  }

  ghost predicate AllSound(db: Db) {
    forall pid | pid in db.payments :: Sound(db, pid)
  }

  lemma AllSoundIsStored(db: Db)
    requires AllSound(db)
    ensures Stored(db)
  {
    forall pid | pid in db.payments ensures WellFormed(db.payments[pid]) { assert Sound(db, pid); }
  }

  lemma NewPaymentIsSound(w: World, e: Event, pid: Id)
    requires e.EInitSingle? || e.EInitPlan? || e.ECheckout?
    requires pid in Next(w, e).payments && pid !in w.db.payments
    ensures Sound(Next(w, e), pid)
  {
    if e.ECheckout? {
      CheckoutIsSound(w.db, e.oid, e.b, e.items, e.expiresAt, w.now, w.rule);
      hide Checkout;
    } else {
      if e.EInitPlan? { InitPlanTables(w.db, e.b, e.planId, e.expiresAt, w.now, w.rule); }
      hide InitPlan;
    }
  }

  /** Every event keeps every payment sound. */
  lemma SoundStep(w: World, e: Event)
    requires AllSound(w.db)
    ensures AllSound(Next(w, e)) && Grown(w.db, Next(w, e))
  {
    var d := Next(w, e);
    AllSoundIsStored(w.db);
    GrownStep(w, e);
    forall pid | pid in d.payments ensures Sound(d, pid) {
      if pid in w.db.payments {
        SoundStays(w.db, d, pid);
      } else if e.EInitSingle? || e.EInitPlan? || e.ECheckout? {
        NewPaymentIsSound(w, e, pid);
      } else {
        NoPaymentAdded(w, e);
      }
      hide Next, Sound, Stored, Rows, Copied, Grown;
    }
  }
}
