/**
 * A live bundle hold is always honoured: it lasts until it expires or its own checkout ends, whatever other checkouts
 * do, and until then the copies it stands for can be taken.
 */
module HoldsHonoured {
  import opened Common
  import opened CompanyTier
  import opened Tables
  import opened Inventory
  import opened Fulfilment
  import opened Refunds
  import opened BundleResolution
  import opened Machine
  import opened Effects
  import opened Charges
  import opened RefundUndo
  import opened SlotConservation
  import opened Obstacles
  import opened FreshShops
  import opened BundleHolds
  import opened Ownership
  import opened Growth

  // ---- A hold lasts until it expires or its own checkout ends ----------------------------

  /** The event ends this checkout: a charge, a failure or a cancellation of its payment. */
  predicate Ends(db: Db, e: Event, t: Target) {
    var pid := match e
      case EChargeSuccess(pid, _) => Some(pid)
      case EChargeFailed(pid) => Some(pid)
      case EAdminVerify(pid, _) => Some(pid)
      case ECancel(pid) => Some(pid)
      case _ => None;
    pid.Some? && pid.value in db.payments
    && (t == ForPayment(pid.value) || (db.payments[pid.value].orderId.Some?
        && t == ForOrder(db.payments[pid.value].orderId.value)))
  }

  ghost predicate Spared(before: Db, after: Db, s: SlotId, t: Target, until: int) {
    && Own(after.slotHolds, s, t, until) >= Own(before.slotHolds, s, t, until)
    && (s in before.slots ==> s in after.slots && after.slots[s].reserved == before.slots[s].reserved)
    && (forall pid | pid in before.payments ::
          pid in after.payments && after.payments[pid].bundles == before.payments[pid].bundles)
  }

  lemma ReleaseSpares(db: Db, id: Id, s: SlotId, t: Target, until: int)
    requires HoldsAreKnown(db)
    ensures t != ForPayment(id)
        ==> Own(ReleaseForPayment(db, id).slotHolds, s, t, until) == Own(db.slotHolds, s, t, until)
    ensures t != ForOrder(id) ==> Own(ReleaseForOrder(db, id).slotHolds, s, t, until) == Own(db.slotHolds, s, t, until)
    ensures HoldsAreKnown(ReleaseForPayment(db, id))
  {
    KeptHolds(db.slotHolds, (h: SlotHold) => h.paymentId == Some(id), s, t, until);
    KeptHolds(db.slotHolds, (h: SlotHold) => h.orderId == Some(id), s, t, until);
  }

  lemma ReleaseAllSpares(db: Db, pid: Id, orderId: Option<Id>, s: SlotId, t: Target, until: int)
    requires HoldsAreKnown(db) && t != ForPayment(pid) && (orderId.Some? ==> t != ForOrder(orderId.value))
    ensures Own(ReleaseAll(db, pid, orderId).slotHolds, s, t, until) == Own(db.slotHolds, s, t, until)
  {
    ReleaseSpares(db, pid, s, t, until);
    if orderId.Some? { ReleaseSpares(ReleaseForPayment(db, pid), orderId.value, s, t, until); }
    hide ReleaseForPayment, ReleaseForOrder, Own, HoldsAreKnown;
  }

  /** Not a hold of this payment or of its order. */
  predicate IsForeign(p: Payment, pid: Id, t: Target) {
    t != ForPayment(pid) && (p.orderId.Some? ==> t != ForOrder(p.orderId.value))
  }

  lemma SettleSpares(db: Db, pid: Id, status: PaymentStatus, s: SlotId, t: Target, until: int)
    requires pid in db.payments && HoldsAreKnown(db) && IsForeign(db.payments[pid], pid, t)
    ensures Own(Settle(db, pid, db.payments[pid].orderId, status).slotHolds, s, t, until)
        == Own(db.slotHolds, s, t, until)
  {
    ReleaseAllSpares(SetStatus(db, pid, status), pid, db.payments[pid].orderId, s, t, until);
    hide ReleaseAll, Own;
  }

  lemma AbortSpares(db: Db, pid: Id, returned: multiset<SlotId>, refundGranted: bool, s: SlotId, t: Target, until: int)
    requires pid in db.payments && HoldsAreKnown(db) && IsForeign(db.payments[pid], pid, t)
    ensures Own(Abort(db, pid, db.payments[pid], returned, refundGranted).slotHolds, s, t, until)
        == Own(db.slotHolds, s, t, until)
  {
    hide Settle, Credit, Own;
    SettleSpares(db, pid, RefundStatus(refundGranted), s, t, until);
    SettleSpares(db.(slots := Credit(db.slots, returned)), pid, RefundStatus(refundGranted), s, t, until);
  }

  lemma FinishSpares(db: Db, pid: Id, s: SlotId, t: Target, until: int)
    requires pid in db.payments && HoldsAreKnown(db) && IsForeign(db.payments[pid], pid, t)
    ensures Own(Finish(db, pid, db.payments[pid]).slotHolds, s, t, until) == Own(db.slotHolds, s, t, until)
  {
    hide ReleaseForPayment, ReleaseForOrder, Own;
    ReleaseSpares(db, pid, s, t, until);
    if db.payments[pid].orderId.Some? { ReleaseSpares(db, db.payments[pid].orderId.value, s, t, until); }
  }

  /** Another checkout's delivery, whatever its end, leaves these holds alone. */
  lemma DeliverySparesHolds(db: Db, pid: Id, refundGranted: bool, now: int, s: SlotId, t: Target, until: int)
    requires pid in db.payments && WellFormed(db.payments[pid]) && HoldsAreKnown(db)
        && IsForeign(db.payments[pid], pid, t)
    ensures Own(ApplySuccess(db, pid, refundGranted, now).slotHolds, s, t, until) == Own(db.slotHolds, s, t, until)
  {
    hide *;
    var mid := Mid(db, pid, now);
    DeliveredIs(db, pid, refundGranted, now);
    MidRows(db, pid, now);
    KnownAlike(db, mid);
    SettleSpares(db, pid, Failed, s, t, until);
    AbortSpares(mid, pid, Returned(db, pid, now), refundGranted, s, t, until);
    FinishSpares(mid, pid, s, t, until);
  }

  lemma SparedByDelivery(db: Db, pid: Id, refundGranted: bool, now: int, s: SlotId, t: Target, until: int)
    requires pid in db.payments && WellFormed(db.payments[pid]) && HoldsAreKnown(db)
        && IsForeign(db.payments[pid], pid, t)
    ensures Spared(db, ApplySuccess(SetStatus(db, pid, Success), pid, refundGranted, now), s, t, until)
  {
    var marked := SetStatus(db, pid, Success);
    assert WellFormed(marked.payments[pid]) && HoldsAreKnown(marked) && marked.slotHolds == db.slotHolds;
    ChargedTables(db, pid, refundGranted, now);
    DeliverySparesHolds(marked, pid, refundGranted, now, s, t, until);
    hide ApplySuccess, Own, Net, StatusAfter, WellFormed, HoldsAreKnown;
  }

  lemma SparedByClosing(db: Db, pid: Id, s: SlotId, t: Target, until: int)
    requires pid in db.payments && HoldsAreKnown(db) && IsForeign(db.payments[pid], pid, t)
    ensures Spared(db, ChargeFailed(db, pid), s, t, until) && Spared(db, CancelPending(db, pid), s, t, until)
  {
    var p := db.payments[pid];
    ClosingTables(db, pid);
    SettleSpares(db, pid, Failed, s, t, until);
    ReleaseAllSpares(db, pid, p.orderId, s, t, until);
    TidiedGrows(db, ChargeFailed(db, pid), pid, if p.status == Refunded then Refunded else Failed);
    if p.status == Pending { TidiedGrows(db, CancelPending(db, pid), pid, Failed); }
    assert CancelPending(db, pid) == if p.status == Pending then Settle(db, pid, p.orderId, Failed) else db;
    assert ChargeFailed(db, pid)
      == if p.status == Refunded then ReleaseAll(db, pid, p.orderId) else Settle(db, pid, p.orderId, Failed);
    hide ChargeFailed, CancelPending, Settle, ReleaseAll, Own, Tidied, HoldsAreKnown;
  }

  lemma SparedByRefund(db: Db, pid: Id, s: SlotId, t: Target, until: int)
    requires pid in db.payments ==> WellFormed(db.payments[pid])
    ensures Spared(db, RefundPayment(db, pid), s, t, until)
  {
    if pid in db.payments && db.payments[pid].status == Success { RefundTables(db, pid); }
    hide Reverse, Own, Copied;
  }

  lemma SparedByCleanup(db: Db, now: int, s: SlotId, t: Target, until: int)
    requires now <= until
    ensures Spared(db, ReleaseExpired(db, now), s, t, until)
  {
    KeptHolds(db.slotHolds, (h: SlotHold) => h.expiresAt < now, s, t, until);
  }

  lemma MoreHoldsSpare(db: Db, d: Db, more: seq<SlotHold>, s: SlotId, t: Target, until: int)
    requires d.slotHolds == db.slotHolds + more && d.slots == db.slots && Grown(db, d)
    ensures Spared(db, d, s, t, until)
  {
    LiveOfBoth(db.slotHolds, more, s, t, until);
    hide Own, Live;
  }

  lemma SparedByInitPlan(w: World, b: Purchase, planId: Id, expiresAt: int, s: SlotId, t: Target, until: int)
    ensures Spared(w.db, InitPlan(w.db, b, planId, expiresAt, w.now, w.rule), s, t, until)
  {
    NothingSpared(w.db, s, t, until);
    var d := InitPlan(w.db, b, planId, expiresAt, w.now, w.rule);
    if d != w.db {
      hide *;
      InitPlanTables(w.db, b, planId, expiresAt, w.now, w.rule);
      MoreHoldsSpare(w.db, d, SlotHolds(w.db.plans[planId].slots, ForPayment(b.pid), expiresAt), s, t, until);
    }
  }

  lemma SparedByCheckout(w: World, oid: Id, b: Purchase, items: seq<Item>, expiresAt: int, s: SlotId, t: Target,
                         until: int)
    ensures Spared(w.db, Checkout(w.db, oid, b, items, expiresAt, w.now, w.rule), s, t, until)
  {
    NothingSpared(w.db, s, t, until);
    var d := Checkout(w.db, oid, b, items, expiresAt, w.now, w.rule);
    if d != w.db {
      hide *;
      OrderPaymentLines(w.db, oid, b, items, expiresAt, w.now, w.rule);
      AcceptedCartHasOnePlan(w.db, b.company, items);
      CheckoutAdds(w.db, oid, b, items, expiresAt, w.now, w.rule);
      var held := CheckoutSlotHolds(w.db, oid, b, items, expiresAt, w.now, w.rule);
      if PlanIds(items) != [] {
        var planId := PlanIds(items)[0];
        ResolvedTables(held, planId, ForOrder(oid), expiresAt, w.now, w.rule);
        MoreHoldsSpare(w.db, d, SlotHolds(held.plans[planId].slots, ForOrder(oid), expiresAt), s, t, until);
      } else {
        assert d.slotHolds == w.db.slotHolds + [];
        MoreHoldsSpare(w.db, d, [], s, t, until);
      }
    }
  }

  lemma SparedByInitSingle(db: Db, b: Purchase, kind: PaymentKind, targetId: Id, s: SlotId, t: Target, until: int)
    ensures Spared(db, InitSingle(db, b, kind, targetId), s, t, until)
  {
    hide Own;
  }

  lemma NothingSpared(db: Db, s: SlotId, t: Target, until: int)
    ensures Spared(db, db, s, t, until)
  {
  }

  lemma SparedByAdmin(w: World, e: Event, s: SlotId, t: Target, until: int)
    requires e.EAssignSlot? || e.EUnassignSlot? || e.ESetTotalSlots?
    ensures Spared(w.db, Next(w, e), s, t, until)
  {
    hide Own;
  }

  /** Payments are sound, and every hold belongs to one that exists. */
  ghost predicate IsKnown(db: Db) {
    AllSound(db) && HoldsAreKnown(db)
  }

  lemma SparedStep(w: World, e: Event, s: SlotId, t: Target, until: int)
    requires IsKnown(w.db) && e != ERemoveSlot(s) && !Ends(w.db, e, t) && w.now <= until
    ensures Spared(w.db, Next(w, e), s, t, until)
  {
    AllSoundIsStored(w.db);
    assert forall pid | pid in w.db.payments :: WellFormed(w.db.payments[pid]);
    NothingSpared(w.db, s, t, until);
    hide AllSound, Stored, ApplySuccess, RefundPayment, ReleaseExpired, ChargeFailed, CancelPending, InitSingle,
         InitPlan, Checkout, RemoveSlot, AssignSlot, UnassignSlot, SetTotalSlots, Own, PlanIds, WellFormed,
         HoldsAreKnown, Spared, SetStatus;
    match e
    case EInitSingle(b, kind, targetId) => SparedByInitSingle(w.db, b, kind, targetId, s, t, until);
    case EInitPlan(b, planId, expiresAt) => SparedByInitPlan(w, b, planId, expiresAt, s, t, until);
    case ECheckout(oid, b, items, expiresAt) => SparedByCheckout(w, oid, b, items, expiresAt, s, t, until);
    case EChargeSuccess(pid, granted) => if Delivers(w, e) { SparedByDelivery(w.db, pid, granted, w.now, s, t, until); }
    case EAdminVerify(pid, granted) => if Delivers(w, e) { SparedByDelivery(w.db, pid, granted, w.now, s, t, until); }
    case EChargeFailed(pid) => SparedByEnding(w.db, pid, s, t, until);
    case ECancel(pid) => SparedByEnding(w.db, pid, s, t, until);
    case ERefund(pid) => SparedByRefund(w.db, pid, s, t, until);
    case ECleanup => SparedByCleanup(w.db, w.now, s, t, until);
    case ETick(_) =>
    case EAssignSlot(_, _) => SparedByAdmin(w, e, s, t, until);
    case EUnassignSlot(_) => SparedByAdmin(w, e, s, t, until);
    case ESetTotalSlots(_, _) => SparedByAdmin(w, e, s, t, until);
    case ERemoveSlot(other) => RemovalSpares(w.db, other, s, t, until);
  }

  lemma SparedByEnding(db: Db, pid: Id, s: SlotId, t: Target, until: int)
    requires pid in db.payments ==> HoldsAreKnown(db) && IsForeign(db.payments[pid], pid, t)
    ensures Spared(db, ChargeFailed(db, pid), s, t, until) && Spared(db, CancelPending(db, pid), s, t, until)
  {
    hide Spared, ChargeFailed, CancelPending, HoldsAreKnown;
    if pid in db.payments {
      SparedByClosing(db, pid, s, t, until);
    } else {
      MissingPayment(db, pid);
      NothingSpared(db, s, t, until);
    }
  }

  lemma RemovalSpares(db: Db, other: SlotId, s: SlotId, t: Target, until: int)
    requires other != s
    ensures Spared(db, RemoveSlot(db, other), s, t, until)
  {
    KeptHolds(db.slotHolds, (h: SlotHold) => h.slot == other, s, t, until);
    NothingSpared(db, s, t, until);
    hide KeepHolds, Without;
  }

  /** No hold is added, and payments and orders stay. */
  lemma FewerHoldsKnown(before: Db, after: Db)
    requires HoldsAreKnown(before) && Grown(before, after) && forall h | h in after.slotHolds :: h in before.slotHolds
    ensures HoldsAreKnown(after)
  {
  }

  lemma MoreHoldsKnown(before: Db, after: Db, t: Target, slots: seq<SlotId>, expiresAt: int)
    requires HoldsAreKnown(before) && Grown(before, after)
    requires after.slotHolds == before.slotHolds + SlotHolds(slots, t, expiresAt)
    requires if t.ForOrder? then t.id in after.orders
             else t.id in after.payments && after.payments[t.id].kind == PlanPayment
    ensures HoldsAreKnown(after)
  {
    PlacedHolds(slots, t, expiresAt, SlotId(Advert, 0), 0);
  }

  lemma CheckoutsKeepKnown(w: World, e: Event)
    requires HoldsAreKnown(w.db) && (e.EInitPlan? || e.ECheckout?) && Next(w, e) != w.db
    ensures HoldsAreKnown(Next(w, e))
  {
    var d := Next(w, e);
    hide HoldsAreKnown, Grown, SlotHolds, ResolvePlan;
    if e.EInitPlan? {
      InitPlanTables(w.db, e.b, e.planId, e.expiresAt, w.now, w.rule);
      hide InitPlan, SlotsAreAvailable;
      MoreHoldsKnown(w.db, d, ForPayment(e.b.pid), w.db.plans[e.planId].slots, e.expiresAt);
    } else {
      OrderPaymentLines(w.db, e.oid, e.b, e.items, e.expiresAt, w.now, w.rule);
      AcceptedCartHasOnePlan(w.db, e.b.company, e.items);
      CheckoutAdds(w.db, e.oid, e.b, e.items, e.expiresAt, w.now, w.rule);
      var held := CheckoutSlotHolds(w.db, e.oid, e.b, e.items, e.expiresAt, w.now, w.rule);
      var ids := PlanIds(e.items);
      hide Checkout, CheckoutIsAllowed, PlanIds;
      if ids != [] {
        ResolvedTables(held, ids[0], ForOrder(e.oid), e.expiresAt, w.now, w.rule);
        MoreHoldsKnown(w.db, d, ForOrder(e.oid), held.plans[ids[0]].slots, e.expiresAt);
      } else {
        FewerHoldsKnown(w.db, d);
      }
    }
  }

  /** A delivery adds no hold. */
  lemma DeliveryHoldsFewer(db: Db, pid: Id, refundGranted: bool, now: int)
    requires pid in db.payments && Sound(db, pid) && HoldsAreKnown(db)
    ensures forall h | h in ApplySuccess(SetStatus(db, pid, Success), pid, refundGranted, now).slotHolds ::
      h in db.slotHolds
  {
    var marked := SetStatus(db, pid, Success);
    assert marked.slotHolds == db.slotHolds && Sound(marked, pid) && HoldsAreKnown(marked);
    hide ApplySuccess, BreaksOff, Sound, HoldsAreKnown, Own, CountHolds;
    DeliveryDropsOwn(marked, pid, refundGranted, now, SlotId(Advert, 0));
  }

  lemma ReleasesHoldFewer(db: Db, pid: Id, now: int, s: SlotId)
    ensures forall h | h in ChargeFailed(db, pid).slotHolds :: h in db.slotHolds
    ensures forall h | h in CancelPending(db, pid).slotHolds :: h in db.slotHolds
    ensures forall h | h in ReleaseExpired(db, now).slotHolds :: h in db.slotHolds
    ensures forall h | h in RemoveSlot(db, s).slotHolds :: h in db.slotHolds
  {
    if pid in db.payments { ClosingThins(db, pid, s, now); } else { MissingPayment(db, pid); }
    KeptHolds(db.slotHolds, (h: SlotHold) => h.expiresAt < now, s, ForPayment(0), now);
    KeptHolds(db.slotHolds, (h: SlotHold) => h.slot == s, s, ForPayment(0), now);
    hide ChargeFailed, CancelPending, KeepHolds, ClearHolds, Without, Live, Own, CountHolds;
  }

  lemma RefundHoldsFewer(db: Db, pid: Id)
    requires AllSound(db)
    ensures RefundPayment(db, pid).slotHolds == db.slotHolds
  {
    if pid in db.payments && db.payments[pid].status == Success {
      assert Sound(db, pid);
      RefundTables(db, pid);
    }
  }

  lemma QuietHoldsFewer(w: World, e: Event)
    requires IsKnown(w.db) && !e.EInitPlan? && !e.ECheckout?
    ensures forall h | h in Next(w, e).slotHolds :: h in w.db.slotHolds
  {
    hide HoldsAreKnown, ApplySuccess, RefundPayment, ChargeFailed, CancelPending, ReleaseExpired, RemoveSlot, SetStatus,
         Sound, WellFormed;
    match e
    case EChargeSuccess(pid, granted) => if Delivers(w, e) { DeliveryHoldsFewer(w.db, pid, granted, w.now); }
    case EAdminVerify(pid, granted) => if Delivers(w, e) { DeliveryHoldsFewer(w.db, pid, granted, w.now); }
    case EChargeFailed(pid) => ReleasesHoldFewer(w.db, pid, w.now, SlotId(Advert, 0));
    case ECancel(pid) => ReleasesHoldFewer(w.db, pid, w.now, SlotId(Advert, 0));
    case ERefund(pid) => RefundHoldsFewer(w.db, pid);
    case ECleanup => ReleasesHoldFewer(w.db, 0, w.now, SlotId(Advert, 0));
    case ERemoveSlot(s) => ReleasesHoldFewer(w.db, 0, w.now, s);
    case _ =>
  }

  /** Every event keeps the tables known. */
  lemma KnownStep(w: World, e: Event)
    requires IsKnown(w.db)
    ensures IsKnown(Next(w, e))
  {
    SoundStep(w, e);
    hide Next, AllSound, HoldsAreKnown, Grown;
    if e.EInitPlan? || e.ECheckout? {
      if Next(w, e) != w.db { CheckoutsKeepKnown(w, e); }
    } else {
      QuietHoldsFewer(w, e);
      FewerHoldsKnown(w.db, Next(w, e));
    }
  }

  ghost predicate NeverEnds(w: World, events: seq<Event>, t: Target)
    decreases events
  {
    events == [] || (!Ends(w.db, events[0], t) && NeverEnds(Step(w, events[0]), events[1..], t))
  }

  lemma {:induction false} TimeGoesOn(w: World, events: seq<Event>)
    ensures w.now <= Run(w, events).now
    decreases events
  {
    hide Next;
    if events != [] { TimeGoesOn(Step(w, events[0]), events[1..]); }
  }

  /**
   * Over every run in which the slot is not deleted, the live holds of a
   * checkout stay until they expire or it ends.
   */
  lemma {:induction false} HoldsLast(w: World, events: seq<Event>, s: SlotId, t: Target)
    requires IsKnown(w.db) && NeverEnds(w, events, t) && ERemoveSlot(s) !in events
    ensures Spared(w.db, Run(w, events).db, s, t, Run(w, events).now)
    decreases events
  {
    NothingSpared(w.db, s, t, w.now);
    if events != [] {
      var next := Step(w, events[0]);
      var until := Run(w, events).now;
      TimeGoesOn(w, events);
      SparedStep(w, events[0], s, t, until);
      KnownStep(w, events[0]);
      hide IsKnown, Next, Ends, Own;
      HoldsLast(next, events[1..], s, t);
    }
  }

  lemma KeptIsKnown(w: World, s: SlotId)
    requires HoldsKept(w, s)
    ensures IsKnown(w.db)
  {
    forall pid | pid in w.db.payments ensures Sound(w.db, pid) { BuysByPlanSound(w.db, pid, s); }
  }

  /** A slot that is left alone is not deleted. */
  lemma {:induction false} NotDeleted(w: World, events: seq<Event>, s: SlotId)
    requires HoldAllowedRun(w, events, s)
    ensures ERemoveSlot(s) !in events
    decreases events
  {
    hide Next, HasRoom;
    if events != [] { NotDeleted(Step(w, events[0]), events[1..], s); }
  }

  // ---- The hold is honoured --------------------------------------------------------------

  lemma FitsCovers(db: Db, s: SlotId, t: Target, now: int)
    requires Fits(db, s, now)
    ensures s in db.slots && Own(db.slotHolds, s, t, now) <= db.slots[s].available
  {
    LiveIsOwnAndOthers(db.slotHolds, s, t, now);
  }

  lemma EarlierCopies(ids: seq<SlotId>, n: nat)
    requires n < |ids|
    ensures multiset(ids[..n])[ids[n]] < multiset(ids)[ids[n]]
  {
    assert ids == ids[..n] + [ids[n]] + ids[n + 1..];
  }

  /** Enough copies for everybody's live holds are enough for one checkout's. */
  lemma CoveredSlotsAreServed(db: Db, q: Buyer, ids: seq<SlotId>, t: Target, now: int)
    requires forall s | s in ids ::
      Fits(db, s, now) && !db.slots[s].reserved && multiset(ids)[s] <= Own(db.slotHolds, s, t, now)
    ensures TakeBundleSlots(db, q, ids).verdict == Done
  {
    hide Fits, Own, Served;
    var n := Served(db.slots, ids, 0);
    if n < |ids| {
      FitsCovers(db, ids[n], t, now);
      EarlierCopies(ids, n);
    }
  }

  ghost predicate HoldsBundle(w: World, ids: seq<SlotId>, t: Target, until: int) {
    forall s | s in ids :: s in w.db.slots && !w.db.slots[s].reserved
        && multiset(ids)[s] <= Own(w.db.slotHolds, s, t, until)
  }

  /** From holding a bundle to any later moment of the run: still held, and still there to be taken. */
  lemma HeldBundleIsServed(w: World, events: seq<Event>, ids: seq<SlotId>, t: Target, q: Buyer)
    requires forall s | s in ids :: HoldsKept(w, s) && HoldAllowedRun(w, events, s)
    requires NeverEnds(w, events, t) && HoldsBundle(w, ids, t, Run(w, events).now)
    ensures TakeBundleSlots(Run(w, events).db, q, ids).verdict == Done
  {
    var z := Run(w, events);
    forall s | s in ids
      ensures Fits(z.db, s, z.now) && !z.db.slots[s].reserved && multiset(ids)[s] <= Own(z.db.slotHolds, s, t, z.now)
    {
      LiveHoldsFit(w, events, s);
      KeptIsKnown(w, s);
      NotDeleted(w, events, s);
      HoldsLast(w, events, s, t);
      hide HoldsKept, HoldAllowedRun, NeverEnds, Run, Own, Live;
    }
    hide Fits, HoldsKept, HoldAllowedRun, NeverEnds, Run, Own, TakeBundleSlots;
    CoveredSlotsAreServed(z.db, q, ids, t, z.now);
  }

  lemma InitPlanHoldsBundle(w: World, b: Purchase, planId: Id, expiresAt: int, until: int)
    requires InitPlan(w.db, b, planId, expiresAt, w.now, w.rule) != w.db && until < expiresAt
    ensures var d := InitPlan(w.db, b, planId, expiresAt, w.now, w.rule);
      HoldsBundle(World(d, w.now, w.rule), w.db.plans[planId].slots, ForPayment(b.pid), until)
  {
    var t := ForPayment(b.pid);
    InitPlanTables(w.db, b, planId, expiresAt, w.now, w.rule);
    var d := InitPlan(w.db, b, planId, expiresAt, w.now, w.rule);
    var ids := w.db.plans[planId].slots;
    forall s | s in ids ensures s in d.slots && !d.slots[s].reserved
        && multiset(ids)[s] <= Own(d.slotHolds, s, t, until) {
      var k :| 0 <= k < |ids| && ids[k] == s;
      assert SlotIsAvailable(w.db, ids[k], t, w.now, w.rule);
      PlacedHolds(ids, t, expiresAt, s, until);
      LiveOfBoth(w.db.slotHolds, SlotHolds(ids, t, expiresAt), s, t, until);
    }
  }

  /**
   * A live hold is always honoured: once a plan payment was started, and as long as its hold has not expired and the
   * payment was neither charged, failed nor cancelled, the slots of its bundle can all be taken, whatever happened
   * since.
   */
  lemma LiveHoldIsHonoured(w: World, b: Purchase, planId: Id, expiresAt: int, events: seq<Event>, q: Buyer)
    requires var e := EInitPlan(b, planId, expiresAt);
      && Next(w, e) != w.db && planId in w.db.plans
      && (forall s | s in w.db.plans[planId].slots ::
            HoldsKept(w, s) && HoldAllowed(w, e, s) && HoldAllowedRun(Step(w, e), events, s))
      && NeverEnds(Step(w, e), events, ForPayment(b.pid)) && Run(Step(w, e), events).now < expiresAt
    ensures var d := Run(Step(w, EInitPlan(b, planId, expiresAt)), events).db;
      TakeBundleSlots(d, q, w.db.plans[planId].slots).verdict == Done
  {
    var e := EInitPlan(b, planId, expiresAt);
    var ids := w.db.plans[planId].slots;
    var next := Step(w, e);
    assert next == World(InitPlan(w.db, b, planId, expiresAt, w.now, w.rule), w.now, w.rule);
    InitPlanHoldsBundle(w, b, planId, expiresAt, Run(next, events).now);
    forall s | s in ids ensures HoldsKept(next, s) {
      HoldStep(w, e, s);
    }
    hide HoldsKept, HoldAllowedRun, NeverEnds, Run, HoldsBundle, TakeBundleSlots, HoldAllowed;
    HeldBundleIsServed(next, events, ids, ForPayment(b.pid), q);
  }

  /** An accepted cart with a plan holds the plan's bundle for its order. */
  lemma CheckoutHoldsBundle(w: World, oid: Id, b: Purchase, items: seq<Item>, expiresAt: int, until: int)
    requires Checkout(w.db, oid, b, items, expiresAt, w.now, w.rule) != w.db && PlanIds(items) != []
    requires until < expiresAt
    ensures var d := Checkout(w.db, oid, b, items, expiresAt, w.now, w.rule); var planId := PlanIds(items)[0];
      planId in w.db.plans && HoldsBundle(World(d, w.now, w.rule), w.db.plans[planId].slots, ForOrder(oid), until)
  {
    var t := ForOrder(oid);
    var planId := PlanIds(items)[0];
    OrderPaymentLines(w.db, oid, b, items, expiresAt, w.now, w.rule);
    AcceptedCartHasOnePlan(w.db, b.company, items);
    var held := CheckoutSlotHolds(w.db, oid, b, items, expiresAt, w.now, w.rule);
    ResolvedTables(held, planId, t, expiresAt, w.now, w.rule);
    var ids := w.db.plans[planId].slots;
    var d := Checkout(w.db, oid, b, items, expiresAt, w.now, w.rule);
    assert d.slotHolds == w.db.slotHolds + SlotHolds(ids, t, expiresAt) && d.slots == w.db.slots == held.slots;
    hide Checkout, ResolvePlan, PlanIds, CheckoutIsAllowed, Own, Live, CountHolds;
    forall s | s in ids
      ensures s in d.slots && !d.slots[s].reserved && multiset(ids)[s] <= Own(d.slotHolds, s, t, until)
    {
      var k :| 0 <= k < |ids| && ids[k] == s;
      assert SlotIsAvailable(held, ids[k], t, w.now, w.rule);
      PlacedHolds(ids, t, expiresAt, s, until);
      LiveOfBoth(w.db.slotHolds, SlotHolds(ids, t, expiresAt), s, t, until);
    }
  }

  /**
   * The same for a plan bought through a cart: until the order's hold
   * expires or its payment ends, its slots can be taken.
   */
  lemma OrderHoldIsHonoured(w: World, oid: Id, b: Purchase, items: seq<Item>, expiresAt: int, events: seq<Event>,
                            q: Buyer)
    requires var e := ECheckout(oid, b, items, expiresAt);
      && Next(w, e) != w.db && PlanIds(items) != [] && PlanIds(items)[0] in w.db.plans
      && (forall s | s in w.db.plans[PlanIds(items)[0]].slots ::
            HoldsKept(w, s) && HoldAllowed(w, e, s) && HoldAllowedRun(Step(w, e), events, s))
      && NeverEnds(Step(w, e), events, ForOrder(oid)) && Run(Step(w, e), events).now < expiresAt
    ensures var d := Run(Step(w, ECheckout(oid, b, items, expiresAt)), events).db;
      TakeBundleSlots(d, q, w.db.plans[PlanIds(items)[0]].slots).verdict == Done
  {
    var e := ECheckout(oid, b, items, expiresAt);
    var ids := w.db.plans[PlanIds(items)[0]].slots;
    var next := Step(w, e);
    assert next == World(Checkout(w.db, oid, b, items, expiresAt, w.now, w.rule), w.now, w.rule);
    hide Checkout, PlanIds, HoldsKept, HoldAllowedRun, NeverEnds, Run, HoldsBundle, TakeBundleSlots, HoldAllowed;
    CheckoutHoldsBundle(w, oid, b, items, expiresAt, Run(next, events).now);
    forall s | s in ids ensures HoldsKept(next, s) {
      assert IsLeftAlone(e, s) by { AllowedIsLeftAlone(w, e, s); }
      HoldStep(w, e, s);
    }
    HeldBundleIsServed(next, events, ids, ForOrder(oid), q);
  }

  lemma AllowedIsLeftAlone(w: World, e: Event, s: SlotId)
    requires HoldAllowed(w, e, s)
    ensures IsLeftAlone(e, s)
  {
  }

  // ---- Where the conditions are needed ---------------------------------------------------

  const BARE_PLAN := Plan(Gold, true, None, SessionRule(None, None), SessionRule(None, None), [ADVERT])
  const BARE_ENTRY := BundleEntry(4, None, None, None, [ADVERT])

  function PlanPaymentOf(company: Id): Payment {
    Payment(PlanPayment, Pending, false, 5, Some(company), None, Some(4), 100, [BARE_ENTRY])
  }

  /** One advert copy, sold through one plan; company 0 has started to pay for it and holds it until `until`. */
  function OneCopyShop(until: int): Db {
    Db(map[], map[ADVERT := Slot(1, 1, false)], [SlotHold(ADVERT, None, Some(7), until)], {},
       map[0 := Company(None, 0), 1 := Company(None, 0)], map[4 := BARE_PLAN], map[7 := PlanPaymentOf(0)], map[])
  }

  lemma OneCopyShopIsKept(until: int, now: int, rule: NullRule)
    ensures HoldsKept(World(OneCopyShop(until), now, rule), ADVERT)
  {
    var db := OneCopyShop(until);
    assert db.slotHolds[1..] == [];
    assert Live(db.slotHolds, ADVERT, now) <= 1;
    assert ADVERT in db.plans[4].slots;
    assert forall s :: multiset([ADVERT])[s] <= 1;
    assert Lines(db, db.payments[7])[1..] == [];
    PlanPaymentIsSound(db, 7, ADVERT);
    hide Sound;
  }

  lemma OneSlotResolves(db: Db, t: Target, expiresAt: int, now: int, rule: NullRule)
    requires 4 in db.plans && db.plans[4] == BARE_PLAN
    ensures var r := ResolvePlan(db, 4, t, expiresAt, now, rule);
      && r.Some? == SlotIsAvailable(db, ADVERT, t, now, rule)
      && (r.Some? ==> r.value.db == db.(slotHolds := db.slotHolds + [TargetSlotHold(t, ADVERT, expiresAt)]))
  {
    assert SlotHolds([ADVERT], t, expiresAt)
      == [TargetSlotHold(t, ADVERT, expiresAt)] + SlotHolds([ADVERT][1..], t, expiresAt);
    assert SlotsAreAvailable(db, [ADVERT], t, now, rule) <==> SlotIsAvailable(db, [ADVERT][0], t, now, rule);
  }

  /** The cart of the other company, up to the resolution of its plan. */
  lemma SecondCartResolves(rule: NullRule)
    ensures var db := OneCopyShop(100); var b := Purchase(8, 6, Some(1), 100, false);
      var r := ResolvePlan(db, 4, ForOrder(9), 100, 0, rule);
      var d := Checkout(db, 9, b, [PlanItem(Some(4), 100, 1)], 100, 0, rule);
      && (r.None? ==> d == db)
      && (r.Some? ==> d.slots == r.value.db.slots && d.slotHolds == r.value.db.slotHolds)
  {
    var db := OneCopyShop(100);
    var items := [PlanItem(Some(4), 100, 1)];
    var t := ForOrder(9);
    assert items[1..] == [];
    assert PlanIds(items) == [4] + PlanIds(items[1..]) == [4];
    assert CheckoutIsAllowed(db, Some(1), items) by { assert OwnBooths(db.assets, Some(1)) == {}; }
    assert PlaceHolds(db, items, TargetHold(t, 100)) == PlaceHolds(db, items[1..], TargetHold(t, 100)) == Some(db);
    OneResolution(db, [4], t, 100, 0, rule);
    hide ResolvePlan, ResolveAll, CheckoutIsAllowed, PlaceHolds;
  }

  /**
   * With null columns left out of the count, an order is let through beside a plan payment for the same last copy;
   * with null columns counted it is refused.
   */
  lemma MixedPurchasesOverbook()
    ensures var db := OneCopyShop(100); var b := Purchase(8, 6, Some(1), 100, false);
        var items := [PlanItem(Some(4), 100, 1)];
      && Checkout(db, 9, b, items, 100, 0, NullIsOther) == db
      && !Fits(Checkout(db, 9, b, items, 100, 0, NullIsUnknown), ADVERT, 0)
  {
    var db := OneCopyShop(100);
    var t := ForOrder(9);
    assert db.slotHolds[1..] == [];
    assert CountHolds(db.slotHolds, ADVERT, t, 0, NullIsOther) == 1;
    assert CountHolds(db.slotHolds, ADVERT, t, 0, NullIsUnknown) == 0;
    OneSlotResolves(db, t, 100, 0, NullIsOther);
    OneSlotResolves(db, t, 100, 0, NullIsUnknown);
    SecondCartResolves(NullIsOther);
    SecondCartResolves(NullIsUnknown);
    hide ResolvePlan, Checkout;
    LiveOfBoth(db.slotHolds, [TargetSlotHold(t, ADVERT, 100)], ADVERT, t, 0);
    assert [TargetSlotHold(t, ADVERT, 100)][1..] == [];
  }

  /**
   * A charge that arrives after its hold has expired can take the copy another company holds: the plan payment of
   * company 1 was let through at time 10, and once the late charge of company 0 is in, its live hold is worth nothing.
   */
  lemma LateChargeTakesHeldCopy(q: Buyer, refundGranted: bool)
    ensures var w := World(OneCopyShop(5), 10, NullIsOther);
        var e := EInitPlan(Purchase(8, 6, Some(1), 100, false), 4, 100);
      && Next(w, e) != w.db && HoldAllowed(w, e, ADVERT) && HoldsKept(w, ADVERT)
      && !HoldAllowed(Step(w, e), EChargeSuccess(7, refundGranted), ADVERT)
      && TakeBundleSlots(Next(Step(w, e), EChargeSuccess(7, refundGranted)), q, [ADVERT]).verdict == Unavailable
  {
    var w := World(OneCopyShop(5), 10, NullIsOther);
    var e := EInitPlan(Purchase(8, 6, Some(1), 100, false), 4, 100);
    var d := Next(w, e);
    assert d == InitPlan(OneCopyShop(5), Purchase(8, 6, Some(1), 100, false), 4, 100, 10, NullIsOther);
    assert HoldAllowed(w, e, ADVERT) && Step(w, e) == World(d, 10, NullIsOther);
    assert 0 in OneCopyShop(5).companies && ADVERT in OneCopyShop(5).slots;
    assert OneCopyShop(5).slots[ADVERT] == Slot(1, 1, false);
    assert 4 in OneCopyShop(5).plans && OneCopyShop(5).plans[4] == BARE_PLAN;
    hide *;
    OneCopyShopIsKept(5, 10, NullIsOther);
    SecondPlanIsLetThrough(d);
    LateCharge(d, 7, refundGranted, 10, q);
    NoRoomNotAllowed(World(d, 10, NullIsOther), 7, refundGranted, ADVERT);
  }

  lemma NoRoomNotAllowed(w: World, pid: Id, refundGranted: bool, s: SlotId)
    requires pid in w.db.payments && w.db.payments[pid] == PlanPaymentOf(0) && !HasRoom(w.db, pid, w.now, s)
    ensures !HoldAllowed(w, EChargeSuccess(pid, refundGranted), s)
    ensures Next(w, EChargeSuccess(pid, refundGranted)) == ChargeSuccess(w.db, pid, refundGranted, w.now)
  {
    hide HasRoom, ChargeSuccess;
  }

  lemma SecondPlanIsLetThrough(d: Db)
    requires d == InitPlan(OneCopyShop(5), Purchase(8, 6, Some(1), 100, false), 4, 100, 10, NullIsOther)
    ensures d != OneCopyShop(5) && d.slots == OneCopyShop(5).slots && d.companies == OneCopyShop(5).companies
    ensures d.plans == OneCopyShop(5).plans && 7 in d.payments && d.payments[7] == PlanPaymentOf(0)
    ensures !HasRoom(d, 7, 10, ADVERT)
  {
    var db := OneCopyShop(5);
    var x := TargetSlotHold(ForPayment(8), ADVERT, 100);
    assert db.slotHolds[1..] == [] && CountHolds(db.slotHolds, ADVERT, ForPayment(8), 10, NullIsOther) == 0;
    OneSlotResolves(db, ForPayment(8), 100, 10, NullIsOther);
    assert [PlanItem(Some(4), 0, 1)][1..] == [] && PlanIds([PlanItem(Some(4), 0, 1)]) == [4];
    assert PlanIsBuyable(db, Some(1), 4);
    assert d.slotHolds == [SlotHold(ADVERT, None, Some(7), 5), x];
    assert d.slotHolds[1..] == [x] && [x][1..] == [];
    assert Others([x], ADVERT, ForPayment(7), 10) == 1 && Others(d.slotHolds, ADVERT, ForPayment(7), 10) == 1;
    hide ResolvePlan, CountHolds, WouldTake;
    OneCopyWanted(d, 7, 10);
  }

  lemma OneCopyWanted(d: Db, pid: Id, now: int)
    requires pid in d.payments && d.payments[pid] == PlanPaymentOf(0) && 0 in d.companies && 4 in d.plans
    requires d.plans[4] == BARE_PLAN && ADVERT in d.slots && d.slots[ADVERT] == Slot(1, 1, false)
    ensures WouldTake(d, pid, now)[ADVERT] == 1
  {
    var q := PaymentBuyer(d, pid, now);
    var items := Lines(d, d.payments[pid]);
    assert items == [PlanItem(Some(4), 100, 1)] && items[1..] == [] && items[..0] == [] && items[..1] == items;
    assert FindEntry([BARE_ENTRY], 4) == Some(BARE_ENTRY) && ItemsSlots([], [BARE_ENTRY]) == multiset{};
    assert SlotsAreLeft(d.slots, [ADVERT], multiset{});
    assert OutcomeAt(d, q, [BARE_ENTRY], items, 0) == Done;
    assert FirstObstacle(d, q, [BARE_ENTRY], items, 1) == 1 == FirstObstacle(d, q, [BARE_ENTRY], items, 0);
  }

  lemma LateCharge(d: Db, pid: Id, refundGranted: bool, now: int, q: Buyer)
    requires pid in d.payments && d.payments[pid] == PlanPaymentOf(0) && 0 in d.companies && 4 in d.plans
        && d.plans[4] == BARE_PLAN
    requires ADVERT in d.slots && d.slots[ADVERT] == Slot(1, 1, false)
    ensures var z := ChargeSuccess(d, pid, refundGranted, now); TakeBundleSlots(z, q, [ADVERT]).verdict == Unavailable
  {
    var marked := SetStatus(d, pid, Success);
    var p := marked.payments[pid];
    var buyer := PaymentBuyer(marked, pid, now);
    assert FindEntry(p.bundles, 4) == Some(BARE_ENTRY) == PlanEntry(p);
    var rows := TakeBundleRows(marked, buyer, BARE_ENTRY);
    assert rows == Outcome(marked, Done);
    assert CanTakeCopy(marked.slots, [ADVERT][..0], [ADVERT][0]);
    assert Served(marked.slots, [ADVERT], 0) == Served(marked.slots, [ADVERT], 1) == 1;
    var taken := TakeBundle(marked, buyer, BARE_ENTRY);
    assert taken.verdict == Done && taken.db.slots[ADVERT] == Slot(1, 0, false);
    var r := BuyPlan(marked, buyer, Some(BARE_ENTRY), BARE_PLAN, 100);
    assert r.verdict == Done && r.db.slots == taken.db.slots;
    var z := ChargeSuccess(d, pid, refundGranted, now);
    assert z.slots == r.db.slots by { hide BuyPlan, ReleaseForPayment; assert z
        == ReleaseForPayment(r.db, pid); ReleaseForPaymentEffect(r.db, pid, None); }
    assert !CanTakeCopy(z.slots, [ADVERT][..0], [ADVERT][0]);
  }
}
