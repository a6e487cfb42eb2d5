/** A row that has an owner changes hands only after a refund of a payment by that owner. */
module Ownership {
  import opened Common
  import opened CheckoutHold
  import opened Tables
  import opened Inventory
  import opened Fulfilment
  import opened Refunds
  import opened BundleResolution
  import opened Machine
  import opened Effects
  import opened Charges
  import opened Reversals
  import opened RefundUndo
  import opened Resolutions
  import opened SlotConservation

  // ---- What every step keeps of payments and orders --------------------------------------

  ghost predicate Stored(db: Db) {
    forall pid | pid in db.payments :: WellFormed(db.payments[pid])
  }

  lemma StoredStays(before: Db, after: Db)
    requires Stored(before) && Grown(before, after) && after.payments.Keys == before.payments.Keys
    ensures Stored(after)
  {
    forall pid | pid in after.payments ensures WellFormed(after.payments[pid]) {
      assert WellFormed(before.payments[pid]);
    }
  }

  // ---- Rows ------------------------------------------------------------------------------

  /** A row keeps its owner, or a free row gets one. */
  ghost predicate Kept(before: map<AssetId, Asset>, after: map<AssetId, Asset>) {
    && after.Keys == before.Keys
    && forall a | a in before ::
         (before[a].owner.Some? ==> after[a].owner == before[a].owner)
         && (after[a].taken <==> after[a].owner.Some?)
  }

  lemma ClaimsKeep(before: map<AssetId, Asset>, after: map<AssetId, Asset>, q: Buyer, a: set<AssetId>)
    requires Consistent(before) && Claims(before, after, q, a)
    ensures Kept(before, after)
  {
    forall x | x in before
      ensures (before[x].owner.Some? ==> after[x].owner == before[x].owner)
          && (after[x].taken <==> after[x].owner.Some?)
    {
      assert Claimed(before[x], after[x], Party(q, x.kind), q);
    }
  }

  lemma ReleasedKeep(before: map<AssetId, Asset>, mid: map<AssetId, Asset>, after: map<AssetId, Asset>, pid: Id,
                     orderId: Option<Id>)
    requires Kept(before, mid) && Released(mid, after, pid, orderId)
    ensures Kept(before, after)
  {
  }

  lemma DeliveryKeeps(db: Db, pid: Id, refundGranted: bool, now: int)
    requires pid in db.payments && Stored(db) && Consistent(db.assets)
    ensures Kept(db.assets, ApplySuccess(SetStatus(db, pid, Success), pid, refundGranted, now).assets)
  {
    var marked := SetStatus(db, pid, Success);
    assert marked.assets == db.assets && WellFormed(marked.payments[pid]);
    var p := marked.payments[pid];
    var mid := Mid(marked, pid, now);
    hide *;
    assert Claims(db.assets, mid.assets, PaymentBuyer(marked, pid, now), ItemsAssets(Lines(marked, p), p.bundles)) by {
      MidEffect(marked, pid, now);
    }
    ClaimsKeep(db.assets, mid.assets, PaymentBuyer(marked, pid, now), ItemsAssets(Lines(marked, p), p.bundles));
    var d := ApplySuccess(marked, pid, refundGranted, now);
    DeliveryEffect(marked, pid, refundGranted, now);
    TidiedKeeps(db.assets, mid, d, pid, StatusAfter(marked, pid, refundGranted, now));
  }

  lemma TidiedKeeps(before: map<AssetId, Asset>, mid: Db, after: Db, pid: Id, status: PaymentStatus)
    requires pid in mid.payments && Kept(before, mid.assets) && Tidied(mid, after, pid, status)
    ensures Kept(before, after.assets)
  {
    ReleasedKeep(before, mid.assets, after.assets, pid, mid.payments[pid].orderId);
  }

  lemma ClosingKeeps(db: Db, pid: Id, now: int)
    requires Consistent(db.assets)
    ensures Kept(db.assets, ChargeFailed(db, pid).assets)
    ensures Kept(db.assets, CancelPending(db, pid).assets)
    ensures Kept(db.assets, ReleaseExpired(db, now).assets)
  {
    if pid in db.payments {
      ClosingTables(db, pid);
      hide ChargeFailed, CancelPending, Released, OrdersKeep, ReleaseExpired, Tidied;
      var p := db.payments[pid];
      TidiedKeeps(db.assets, db, ChargeFailed(db, pid), pid, if p.status == Refunded then Refunded else Failed);
      if p.status == Pending { TidiedKeeps(db.assets, db, CancelPending(db, pid), pid, Failed); }
    }
    CleanupKeeps(db, now);
  }

  lemma CleanupKeeps(db: Db, now: int)
    requires Consistent(db.assets)
    ensures Kept(db.assets, ReleaseExpired(db, now).assets)
  {
  }

  lemma OnlyHoldsKeep(before: Db, after: Db)
    requires OnlyHolds(before, after) && Consistent(before.assets)
    ensures Kept(before.assets, after.assets)
  {
  }

  /** The event is the refund of a payment of this party that stands for the row. */
  predicate ReversesFor(db: Db, e: Event, a: AssetId, owner: Id) {
    && e.ERefund? && e.pid in db.payments && db.payments[e.pid].status == Success
    && a in Rows(db, db.payments[e.pid]) && Holder(db.payments[e.pid], a.kind) == Some(owner)
  }

  /** A refund frees rows of its own party only. */
  lemma RefundFreesOwnRows(db: Db, pid: Id)
    requires Stored(db) && Consistent(db.assets)
    ensures var d := RefundPayment(db, pid);
      && d.assets.Keys == db.assets.Keys && Consistent(d.assets)
      && forall a | a in db.assets && db.assets[a].owner.Some? ::
           d.assets[a].owner == db.assets[a].owner || ReversesFor(db, ERefund(pid), a, db.assets[a].owner.value)
  {
    if pid in db.payments && db.payments[pid].status == Success {
      RefundIsUndone(db, pid);
      hide RefundPayment, Reverse, Credit, Existing, ItemsAssets, ItemsSlots, ItemsKobo, Lines;
    }
  }

  lemma InitPlanKeeps(db: Db, b: Purchase, planId: Id, expiresAt: int, now: int, rule: NullRule)
    requires Stored(db) && Consistent(db.assets)
    ensures var d := InitPlan(db, b, planId, expiresAt, now, rule); Stored(d) && Kept(db.assets, d.assets)
  {
    ResolvePlanOnlyHolds(db, planId, ForPayment(b.pid), expiresAt, now, rule);
    var r := ResolvePlan(db, planId, ForPayment(b.pid), expiresAt, now, rule);
    hide ResolvePlan, OnlyHolds;
    OnlyHoldsKeep(db, db);
    if r.Some? {
      OnlyHoldsRows(db, r.value.db);
      OnlyHoldsKeep(db, r.value.db);
    }
  }

  lemma CheckoutKeeps(db: Db, oid: Id, b: Purchase, items: seq<Item>, expiresAt: int, now: int, rule: NullRule)
    requires Stored(db) && Consistent(db.assets)
    ensures var d := Checkout(db, oid, b, items, expiresAt, now, rule); Stored(d) && Kept(db.assets, d.assets)
  {
    OnlyHoldsKeep(db, db);
    var d := Checkout(db, oid, b, items, expiresAt, now, rule);
    if d != db {
      CheckoutTables(db, oid, b, items, expiresAt, now, rule);
      hide Checkout, CheckoutIsAllowed, PlanIds;
      OnlyHoldsKeep(db, d.(orders := db.orders, payments := db.payments));
    }
  }

  lemma DeliveryStores(db: Db, pid: Id, refundGranted: bool, now: int)
    requires pid in db.payments && Stored(db)
    ensures Stored(ApplySuccess(SetStatus(db, pid, Success), pid, refundGranted, now))
  {
    ChargedTables(db, pid, refundGranted, now);
    hide ApplySuccess, Net, StatusAfter, Debit;
    StoredStays(db, ApplySuccess(SetStatus(db, pid, Success), pid, refundGranted, now));
  }

  lemma ClosingStores(db: Db, pid: Id)
    requires Stored(db)
    ensures Stored(ChargeFailed(db, pid)) && Stored(CancelPending(db, pid)) && Stored(RefundPayment(db, pid))
  {
    if pid in db.payments {
      var p := db.payments[pid];
      ClosingTables(db, pid);
      TidiedGrows(db, ChargeFailed(db, pid), pid, if p.status == Refunded then Refunded else Failed);
      StoredStays(db, ChargeFailed(db, pid));
      if p.status == Pending {
        TidiedGrows(db, CancelPending(db, pid), pid, Failed);
        StoredStays(db, CancelPending(db, pid));
      }
      if p.status == Success {
        RefundTables(db, pid);
        StoredStays(db, RefundPayment(db, pid));
      }
    }
  }

  ghost predicate Settled(before: Db, after: Db, e: Event) {
    && Stored(after) && Consistent(after.assets) && after.assets.Keys == before.assets.Keys
    && forall a | a in before.assets && before.assets[a].owner.Some? ::
         after.assets[a].owner == before.assets[a].owner || ReversesFor(before, e, a, before.assets[a].owner.value)
  }

  lemma KeptIsSettled(before: Db, after: Db, e: Event)
    requires Stored(after) && Kept(before.assets, after.assets)
    ensures Settled(before, after, e)
  {
    hide WellFormed, ReversesFor;
  }

  lemma UnchangedIsSettled(db: Db, e: Event)
    requires Stored(db) && Consistent(db.assets)
    ensures Settled(db, db, e)
  {
  }

  lemma AdminIsSettled(before: Db, after: Db, e: Event)
    requires Stored(before) && Consistent(before.assets) && after.assets == before.assets
        && after.payments == before.payments
    ensures Settled(before, after, e)
  {
  }

  lemma RefundIsSettled(db: Db, pid: Id)
    requires Stored(db) && Consistent(db.assets)
    ensures Settled(db, RefundPayment(db, pid), ERefund(pid))
  {
    RefundFreesOwnRows(db, pid);
    ClosingStores(db, pid);
    hide RefundPayment, Stored, ReversesFor;
  }

  lemma InitSingleKeeps(db: Db, b: Purchase, kind: PaymentKind, targetId: Id)
    requires Stored(db) && Consistent(db.assets)
    ensures var d := InitSingle(db, b, kind, targetId); Stored(d) && Kept(db.assets, d.assets)
  {
  }

  lemma CleanupStores(db: Db, now: int)
    requires Stored(db)
    ensures Stored(ReleaseExpired(db, now))
  {
    hide WellFormed;
  }

  lemma OwnershipStep(w: World, e: Event)
    requires Stored(w.db) && Consistent(w.db.assets)
    ensures Settled(w.db, Next(w, e), e)
  {
    hide Stored, Kept, Settled, Consistent, ApplySuccess, RefundPayment, Checkout, InitPlan;
    var d := Next(w, e);
    UnchangedIsSettled(w.db, e);
    match e
    case EInitSingle(b, kind, targetId) => InitSingleKeeps(w.db, b, kind, targetId); KeptIsSettled(w.db, d, e);
    case EInitPlan(b, planId, expiresAt) =>
      InitPlanKeeps(w.db, b, planId, expiresAt, w.now, w.rule); KeptIsSettled(w.db, d, e);
    case ECheckout(oid, b, items, expiresAt) =>
      CheckoutKeeps(w.db, oid, b, items, expiresAt, w.now, w.rule); KeptIsSettled(w.db, d, e);
    case EChargeSuccess(pid, granted) =>
      if d != w.db {
        DeliveryKeeps(w.db, pid, granted, w.now);
        DeliveryStores(w.db, pid, granted, w.now);
        KeptIsSettled(w.db, d, e);
      }
    case EAdminVerify(pid, granted) =>
      if d != w.db {
        DeliveryKeeps(w.db, pid, granted, w.now);
        DeliveryStores(w.db, pid, granted, w.now);
        KeptIsSettled(w.db, d, e);
      }
    case EChargeFailed(pid) => ClosingKeeps(w.db, pid, w.now); ClosingStores(w.db, pid); KeptIsSettled(w.db, d, e);
    case ECancel(pid) => ClosingKeeps(w.db, pid, w.now); ClosingStores(w.db, pid); KeptIsSettled(w.db, d, e);
    case ECleanup => CleanupKeeps(w.db, w.now); CleanupStores(w.db, w.now); KeptIsSettled(w.db, d, e);
    case ERefund(pid) => RefundIsSettled(w.db, pid);
    case ETick(_) =>
    case EAssignSlot(company, s) => AdminIsSettled(w.db, d, e);
    case EUnassignSlot(s) => AdminIsSettled(w.db, d, e);
    case ESetTotalSlots(s, n) => AdminIsSettled(w.db, d, e);
    case ERemoveSlot(s) => AdminIsSettled(w.db, d, e);
  }

  /**
   * Ownership never moves silently: if a row that belonged to a party does not belong to it at the end of a run,
   * then at some step of the run a payment of that party standing for that row was refunded while it still owned it.
   */
  lemma {:induction false} OwnershipNeverMovesSilently(w: World, events: seq<Event>, a: AssetId, owner: Id)
                                                       returns (i: nat)
    requires Stored(w.db) && Consistent(w.db.assets)
    requires a in w.db.assets && w.db.assets[a].owner == Some(owner)
    requires a !in Run(w, events).db.assets || Run(w, events).db.assets[a].owner != Some(owner)
    ensures i < |events|
    ensures var at := Run(w, events[..i]);
      a in at.db.assets && at.db.assets[a].owner == Some(owner) && ReversesFor(at.db, events[i], a, owner)
    decreases events
  {
    var next := Step(w, events[0]);
    OwnershipStep(w, events[0]);
    assert events[..0] == [] && Run(w, []) == w;
    hide Stored, Next, ReversesFor;
    if next.db.assets[a].owner != Some(owner) {
      i := 0;
    } else {
      var j := OwnershipNeverMovesSilently(next, events[1..], a, owner);
      i := j + 1;
      assert events[..i][1..] == events[1..][..j];
    }
  }

  // ---- How a row gets an owner -----------------------------------------------------------

  /** No row gets an owner it did not have. */
  predicate NoNewOwners(before: map<AssetId, Asset>, after: map<AssetId, Asset>) {
    && after.Keys == before.Keys
    && forall a | a in before :: after[a].owner == before[a].owner || after[a].owner == None
  }

  lemma TidiedTakesNoRow(before: Db, after: Db, pid: Id, status: PaymentStatus)
    requires pid in before.payments && Tidied(before, after, pid, status)
    ensures NoNewOwners(before.assets, after.assets)
  {
    hide OrdersKeep;
  }

  lemma SameRowsTaken(assets: map<AssetId, Asset>)
    ensures NoNewOwners(assets, assets)
  {
  }

  lemma CleanupTakesNoRow(db: Db, now: int)
    ensures NoNewOwners(db.assets, ReleaseExpired(db, now).assets)
  {
  }

  lemma ClosingTakesNoRow(db: Db, pid: Id)
    ensures NoNewOwners(db.assets, ChargeFailed(db, pid).assets)
    ensures NoNewOwners(db.assets, CancelPending(db, pid).assets)
  {
    if pid in db.payments {
      ClosingTables(db, pid);
      hide *;
      var status := if db.payments[pid].status == Refunded then Refunded else Failed;
      TidiedTakesNoRow(db, ChargeFailed(db, pid), pid, status);
      SameRowsTaken(db.assets);
      if db.payments[pid].status == Pending { TidiedTakesNoRow(db, CancelPending(db, pid), pid, Failed); }
    } else {
      SameRowsTaken(db.assets);
    }
  }

  lemma FreedTakesNoRow(assets: map<AssetId, Asset>, p: Payment, a: set<AssetId>)
    ensures NoNewOwners(assets, Freed(assets, p, a))
  {
  }

  lemma RefundTakesNoRow(db: Db, pid: Id)
    requires Stored(db)
    ensures NoNewOwners(db.assets, RefundPayment(db, pid).assets)
  {
    if pid in db.payments && db.payments[pid].status == Success {
      var p := db.payments[pid];
      assert WellFormed(p);
      RefundIsUndone(db, pid);
      FreedTakesNoRow(db.assets, p, Rows(db, p));
      hide RefundPayment, Reverse, Rows, Copied, Lines, ItemsKobo, Credit, Existing, Freed, NoNewOwners, CompaniesMoved,
           WellFormed;
    } else {
      SameRowsTaken(db.assets);
    }
  }

  lemma CheckoutTakesNoRow(w: World, e: Event)
    requires e.EInitSingle? || e.EInitPlan? || e.ECheckout?
    ensures NoNewOwners(w.db.assets, Next(w, e).assets)
  {
    match e
    case EInitSingle(b, kind, targetId) =>
    case EInitPlan(b, planId, expiresAt) => ResolvePlanOnlyHolds(w.db, planId, ForPayment(b.pid), expiresAt, w.now,
                                                                 w.rule);
    case ECheckout(oid, b, items, expiresAt) =>
      if Next(w, e) != w.db { CheckoutTables(w.db, oid, b, items, expiresAt, w.now, w.rule); }
      hide Checkout, CheckoutIsAllowed, PlanIds;
    hide ResolvePlan;
  }

  lemma QuietStepTakesNoRow(w: World, e: Event)
    requires Stored(w.db) && !e.EChargeSuccess? && !e.EAdminVerify?
    ensures NoNewOwners(w.db.assets, Next(w, e).assets)
  {
    SameRowsTaken(w.db.assets);
    hide Stored, NoNewOwners, RefundPayment, Checkout, InitPlan, InitSingle, ChargeFailed, CancelPending,
         ReleaseExpired, Debit, Credit, KeepHolds, Without;
    match e
    case EInitSingle(_, _, _) => CheckoutTakesNoRow(w, e);
    case EInitPlan(_, _, _) => CheckoutTakesNoRow(w, e);
    case ECheckout(_, _, _, _) => CheckoutTakesNoRow(w, e);
    case EChargeFailed(pid) => ClosingTakesNoRow(w.db, pid);
    case ECancel(pid) => ClosingTakesNoRow(w.db, pid);
    case ERefund(pid) => RefundTakesNoRow(w.db, pid);
    case ECleanup => CleanupTakesNoRow(w.db, w.now);
    case _ =>
  }

  /** The checkout a payment's fulfilment speaks for: its order, or the payment itself. */
  function OwnExclude(p: Payment, pid: Id): Exclude {
    if p.kind == OrderPayment then Exclude(p.orderId, None) else Exclude(p.orderId, Some(pid))
  }

  /** The row was free, for sale and not held by another checkout, and this payment stands for it. */
  predicate IsEarned(db: Db, pid: Id, now: int, a: AssetId, owner: Id) {
    && pid in db.payments && a in db.assets && a in Rows(db, db.payments[pid])
    && Some(owner)
       == (if a.kind == HotelRoom then Some(db.payments[pid].userId) else ActingCompany(db, db.payments[pid]))
    && db.assets[a].owner.None? && IsForSale(a, db.assets[a])
    && !IsBlockedByOther(db.assets[a].hold, OwnExclude(db.payments[pid], pid), now)
  }

  lemma TidiedOwners(before: Db, after: Db, pid: Id, status: PaymentStatus, a: AssetId)
    requires pid in before.payments && Tidied(before, after, pid, status) && a in after.assets
    ensures a in before.assets && after.assets[a].owner == before.assets[a].owner
  {
  }

  lemma MidIsEarned(db: Db, pid: Id, now: int, a: AssetId)
    requires pid in db.payments && WellFormed(db.payments[pid]) && Consistent(db.assets)
    requires var mid := Mid(db, pid, now);
        a in mid.assets && a in db.assets && mid.assets[a].owner != db.assets[a].owner
    ensures var owner := Mid(db, pid, now).assets[a].owner; owner.Some? && IsEarned(db, pid, now, a, owner.value)
  {
    var p := db.payments[pid];
    var q := PaymentBuyer(db, pid, now);
    var mid := Mid(db, pid, now);
    MidEffect(db, pid, now);
    hide Mid, Lines, ItemsAssets, ItemsSlots, ServedLines, Debit, OwnBooths, WellFormed;
    assert Claimed(db.assets[a], mid.assets[a], Party(q, a.kind), q);
  }

  lemma DeliveredIsEarned(db: Db, pid: Id, refundGranted: bool, now: int, a: AssetId)
    requires pid in db.payments && Stored(db) && Consistent(db.assets)
    requires var d := ApplySuccess(SetStatus(db, pid, Success), pid, refundGranted, now);
      a in d.assets && a in db.assets && d.assets[a].owner != db.assets[a].owner
    ensures var owner := ApplySuccess(SetStatus(db, pid, Success), pid, refundGranted, now).assets[a].owner;
      owner.Some? && IsEarned(db, pid, now, a, owner.value)
  {
    var marked := SetStatus(db, pid, Success);
    assert marked.assets == db.assets && WellFormed(db.payments[pid]) && WellFormed(marked.payments[pid]);
    EarnedAlike(db, pid, now, a);
    var d := ApplySuccess(marked, pid, refundGranted, now);
    var mid := Mid(marked, pid, now);
    hide *;
    DeliveryEffect(marked, pid, refundGranted, now);
    TidiedOwners(mid, d, pid, StatusAfter(marked, pid, refundGranted, now), a);
    MidIsEarned(marked, pid, now, a);
  }

  lemma EarnedAlike(db: Db, pid: Id, now: int, a: AssetId)
    requires pid in db.payments
    ensures forall owner ::
        IsEarned(SetStatus(db, pid, Success), pid, now, a, owner) ==> IsEarned(db, pid, now, a, owner)
  {
    hide ItemsAssets, IsBlockedByOther;
    assert Lines(SetStatus(db, pid, Success), SetStatus(db, pid, Success).payments[pid]) == Lines(db, db.payments[pid]);
  }

  /**
   * A row gets a new owner only by a delivery of a payment that stands for it, made while the row was free to be sold.
   */
  lemma OwnersAreEarned(w: World, e: Event, a: AssetId)
    requires Stored(w.db) && Consistent(w.db.assets) && a in w.db.assets && a in Next(w, e).assets
    requires Next(w, e).assets[a].owner.Some? && Next(w, e).assets[a].owner != w.db.assets[a].owner
    ensures (e.EChargeSuccess? || e.EAdminVerify?) && Delivers(w, e)
    ensures IsEarned(w.db, e.pid, w.now, a, Next(w, e).assets[a].owner.value)
  {
    if !e.EChargeSuccess? && !e.EAdminVerify? { QuietStepTakesNoRow(w, e); }
    hide Stored, Consistent, ApplySuccess, RefundPayment, Checkout, InitPlan, InitSingle, ChargeFailed, CancelPending,
         ReleaseExpired, AssignSlot, UnassignSlot, SetTotalSlots, RemoveSlot, IsEarned, SetStatus;
    if (e.EChargeSuccess? || e.EAdminVerify?) && Delivers(w, e) {
      DeliveredIsEarned(w.db, e.pid, e.refundGranted, w.now, a);
    }
  }
}
