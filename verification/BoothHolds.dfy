/**
 * High-tier booth holds are exclusive over whole runs: carts sell silver, bronze and untiered booths only, bundles ask
 * for gold, platinum and headliner booths only, so nothing but its own checkout touches a bundle's booth.
 */
module BoothHolds {
  import opened Common
  import opened CompanyTier
  import opened CheckoutHold
  import opened Tables
  import opened Inventory
  import opened Fulfilment
  import opened Refunds
  import opened BundleResolution
  import opened Machine
  import opened Effects
  import opened Charges
  import opened Reversals
  import opened RefundUndo
  import opened Resolutions
  import opened SlotConservation
  import opened Ownership
  import opened Growth
  import opened HoldsHonoured

  /** The tiers a booth in a cart may have. */
  predicate IsCartTier(tier: Option<Tier>) {
    tier == None || tier == Some(Silver) || tier == Some(Bronze)
  }

  /** What validateConferenceCatalogItem leaves in a cart. */
  predicate CartBooths(assets: map<AssetId, Asset>, items: seq<Item>) {
    forall i | 0 <= i < |items| ::
      items[i].AssetItem? && items[i].asset == Booth && items[i].assetId.Some?
          && AssetId(Booth, items[i].assetId.value) in assets
      ==> IsCartTier(assets[AssetId(Booth, items[i].assetId.value)].tier)
  }

  predicate TargetExists(db: Db, t: Target) {
    if t.ForOrder? then t.id in db.orders else t.id in db.payments
  }

  /** A free booth of a bundle tier that this checkout holds. */
  predicate HoldsBooth(db: Db, a: AssetId, t: Target, expiresAt: int) {
    && a in db.assets && a.kind == Booth && db.assets[a].tier.Some? && IsBundleTier(db.assets[a].tier.value)
    && db.assets[a].hold == TargetHold(t, expiresAt) && !db.assets[a].taken && db.assets[a].owner.None?
    && TargetExists(db, t)
  }

  predicate SameRow(before: Db, after: Db, a: AssetId) {
    a in before.assets && a in after.assets && after.assets[a] == before.assets[a]
  }

  // ---- Other purchases -------------------------------------------------------------------

  lemma PicksMissTheBooth(db: Db, a: AssetId, t: Target, expiresAt: int, plan: Plan, other: Target, now: int)
    requires HoldsBooth(db, a, t, expiresAt) && now < expiresAt && other != t
    ensures var p := PickRows(db, plan, other, now);
        p.booth != Some(a) && p.masterclass != Some(a) && p.presentation != Some(a)
  {
    if plan.boothTier.Some? {
      assert IsBlockedByOther(db.assets[a].hold, TargetExclude(other), now);
      assert a !in EligibleBooths(db, plan.boothTier.value, other, now);
    }
    hide EligibleBooths, IsBlockedByOther;
  }

  lemma HoldPickElsewhere(db: Db, x: Option<AssetId>, hold: Hold, a: AssetId)
    requires a in db.assets && x != Some(a)
    ensures SameRow(db, HoldPick(db, x, hold), a)
  {
  }

  /** The booth blocks every other checkout's resolution. */
  lemma HeldBoothIsNotPicked(db: Db, a: AssetId, t: Target, expiresAt: int, planId: Id, other: Target, until: int,
                             now: int, rule: NullRule)
    requires HoldsBooth(db, a, t, expiresAt) && now < expiresAt && other != t
    ensures var r := ResolvePlan(db, planId, other, until, now, rule); r.Some? ==> SameRow(db, r.value.db, a)
  {
    var r := ResolvePlan(db, planId, other, until, now, rule);
    if r.Some? {
      var plan := db.plans[planId];
      var p := PickRows(db, plan, other, now);
      var hold := TargetHold(other, until);
      PicksMissTheBooth(db, a, t, expiresAt, plan, other, now);
      assert r.value.db.assets
        == HoldPick(HoldPick(HoldPick(db, p.booth, hold), p.masterclass, hold), p.presentation, hold).assets by {
        hide PickRows, HoldPick, SlotsAreAvailable, HoldsBooth;
      }
      assert a in db.assets;
      hide ResolvePlan, PickRows, HoldPick, HoldsBooth;
      HoldPickElsewhere(db, p.booth, hold, a);
      HoldPickElsewhere(HoldPick(db, p.booth, hold), p.masterclass, hold, a);
      HoldPickElsewhere(HoldPick(HoldPick(db, p.booth, hold), p.masterclass, hold), p.presentation, hold, a);
    }
  }

  lemma {:induction false} HeldBoothIsNeverPicked(db: Db, a: AssetId, t: Target, expiresAt: int, ids: seq<Id>,
                                                  other: Target, until: int, now: int, rule: NullRule)
    requires HoldsBooth(db, a, t, expiresAt) && now < expiresAt && other != t
    ensures var r := ResolveAll(db, ids, other, until, now, rule); r.Some? ==> SameRow(db, r.value.db, a)
    decreases ids
  {
    if ids != [] {
      HeldBoothIsNotPicked(db, a, t, expiresAt, ids[0], other, until, now, rule);
      ResolvePlanOnlyHolds(db, ids[0], other, until, now, rule);
      var first := ResolvePlan(db, ids[0], other, until, now, rule);
      if first.Some? {
        OnlyHoldsRows(db, first.value.db);
        assert HoldsBooth(first.value.db, a, t, expiresAt) by { hide ResolvePlan, OnlyHolds; }
        hide ResolvePlan, OnlyHolds, HoldsBooth;
        HeldBoothIsNeverPicked(first.value.db, a, t, expiresAt, ids[1..], other, until, now, rule);
      }
    }
  }

  lemma {:induction false} CartNeverWritesTheBooth(db: Db, a: AssetId, t: Target, expiresAt: int, items: seq<Item>,
                                                   hold: Hold)
    requires HoldsBooth(db, a, t, expiresAt) && CartBooths(db.assets, items)
    ensures var r := PlaceHolds(db, items, hold);
        r.Some? ==> SameRow(db, r.value, a) && HoldsBooth(r.value, a, t, expiresAt)
    decreases items
  {
    if items != [] {
      assert forall i | 0 <= i < |items[1..]| :: items[1..][i] == items[i + 1];
      if items[0].AssetItem? && items[0].assetId.Some? {
        var x := AssetId(items[0].asset, items[0].assetId.value);
        if x in db.assets {
          var next := PutHold(db, x, hold);
          assert x != a;
          assert CartBooths(next.assets, items[1..]);
          hide CartBooths;
          CartNeverWritesTheBooth(next, a, t, expiresAt, items[1..], hold);
        }
      } else {
        CartNeverWritesTheBooth(db, a, t, expiresAt, items[1..], hold);
      }
    }
  }

  lemma CheckoutMissesTheBooth(db: Db, a: AssetId, t: Target, expiresAt: int, oid: Id, b: Purchase, items: seq<Item>,
                               until: int, now: int, rule: NullRule)
    requires HoldsBooth(db, a, t, expiresAt) && now < expiresAt && CartBooths(db.assets, items)
    ensures SameRow(db, Checkout(db, oid, b, items, until, now, rule), a)
  {
    var other := ForOrder(oid);
    if oid !in db.orders {
      assert other != t;
      CartNeverWritesTheBooth(db, a, t, expiresAt, items, TargetHold(other, until));
      var held := PlaceHolds(db, items, TargetHold(other, until));
      if held.Some? { HeldBoothIsNeverPicked(held.value, a, t, expiresAt, PlanIds(items), other, until, now, rule); }
    }
    assert a in db.assets;
    hide PlaceHolds, ResolveAll, CheckoutIsAllowed, PlanIds, HoldsBooth;
  }

  lemma InitPlanMissesTheBooth(db: Db, a: AssetId, t: Target, expiresAt: int, b: Purchase, planId: Id, until: int,
                               now: int, rule: NullRule)
    requires HoldsBooth(db, a, t, expiresAt) && now < expiresAt
    ensures SameRow(db, InitPlan(db, b, planId, until, now, rule), a)
  {
    if b.pid !in db.payments {
      assert ForPayment(b.pid) != t;
      HeldBoothIsNotPicked(db, a, t, expiresAt, planId, ForPayment(b.pid), until, now, rule);
    }
    hide ResolvePlan;
  }

  // ---- Other deliveries ------------------------------------------------------------------

  /** A row blocked for this buyer is not claimed, and another payment's epilogue does not release it. */
  lemma BlockedRowStays(before: map<AssetId, Asset>, after: map<AssetId, Asset>, q: Buyer, rows: set<AssetId>,
                        a: AssetId)
    requires Claims(before, after, q, rows) && a in before && IsBlockedByOther(before[a].hold, q.exclude, q.now)
    ensures a in after && after[a] == before[a]
  {
    assert Claimed(before[a], after[a], Party(q, a.kind), q);
  }

  lemma TidiedRowStays(before: Db, after: Db, pid: Id, status: PaymentStatus, a: AssetId, t: Target, expiresAt: int)
    requires pid in before.payments && Tidied(before, after, pid, status) && a in before.assets
    requires before.assets[a].hold == TargetHold(t, expiresAt) && IsForeign(before.payments[pid], pid, t)
    ensures SameRow(before, after, a)
  {
  }

  lemma DeliveryMissesTheBooth(db: Db, a: AssetId, t: Target, expiresAt: int, pid: Id, refundGranted: bool, now: int)
    requires HoldsBooth(db, a, t, expiresAt) && now < expiresAt
    requires pid in db.payments && WellFormed(db.payments[pid]) && IsForeign(db.payments[pid], pid, t)
    ensures SameRow(db, ApplySuccess(db, pid, refundGranted, now), a)
  {
    var p := db.payments[pid];
    var q := PaymentBuyer(db, pid, now);
    var mid := Mid(db, pid, now);
    var d := ApplySuccess(db, pid, refundGranted, now);
    assert IsBlockedByOther(db.assets[a].hold, q.exclude, q.now);
    MidEffect(db, pid, now);
    BlockedRowStays(db.assets, mid.assets, q, ItemsAssets(Lines(db, p), p.bundles), a);
    assert db.assets[a].hold == TargetHold(t, expiresAt);
    hide *;
    DeliveryEffect(db, pid, refundGranted, now);
    TidiedRowStays(mid, d, pid, StatusAfter(db, pid, refundGranted, now), a, t, expiresAt);
    SameRowTwice(db, mid, d, a);
  }

  lemma SameRowTwice(x: Db, y: Db, z: Db, a: AssetId)
    requires a in x.assets && a in y.assets && x.assets[a] == y.assets[a] && SameRow(y, z, a)
    ensures SameRow(x, z, a)
  {
  }

  lemma ClosingMissesTheBooth(db: Db, a: AssetId, t: Target, expiresAt: int, pid: Id)
    requires HoldsBooth(db, a, t, expiresAt) && pid in db.payments && IsForeign(db.payments[pid], pid, t)
    ensures SameRow(db, ChargeFailed(db, pid), a) && SameRow(db, CancelPending(db, pid), a)
  {
    var p := db.payments[pid];
    assert a in db.assets && db.assets[a].hold == TargetHold(t, expiresAt) && SameRow(db, db, a);
    ClosingTables(db, pid);
    hide *;
    TidiedRowStays(db, ChargeFailed(db, pid), pid, if p.status == Refunded then Refunded else Failed, a, t, expiresAt);
    if p.status == Pending { TidiedRowStays(db, CancelPending(db, pid), pid, Failed, a, t, expiresAt); }
  }

  lemma RefundMissesTheBooth(db: Db, a: AssetId, t: Target, expiresAt: int, pid: Id)
    requires HoldsBooth(db, a, t, expiresAt) && Stored(db)
    ensures SameRow(db, RefundPayment(db, pid), a)
  {
    if pid in db.payments && db.payments[pid].status == Success {
      assert WellFormed(db.payments[pid]);
      RefundIsUndone(db, pid);
      hide RefundPayment, Reverse, Rows, Copied, ItemsKobo, Lines, Credit, Existing, CompaniesMoved;
    }
  }

  // ---- Runs ------------------------------------------------------------------------------

  predicate BoothAllowed(db: Db, e: Event) {
    e.ECheckout? ==> CartBooths(db.assets, e.items)
  }

  lemma BoothStep(w: World, e: Event, a: AssetId, t: Target, expiresAt: int)
    requires HoldsBooth(w.db, a, t, expiresAt) && Stored(w.db) && w.now < expiresAt
    requires BoothAllowed(w.db, e) && !Ends(w.db, e, t)
    ensures SameRow(w.db, Next(w, e), a)
  {
    var d := Next(w, e);
    assert SameRow(w.db, w.db, a);
    AdminMissesTheBooth(w, e, a);
    hide HoldsBooth, Stored, ApplySuccess, RefundPayment, InitPlan, Checkout, CancelPending, ChargeFailed,
         ReleaseExpired, SetStatus, AssignSlot, UnassignSlot, SetTotalSlots, RemoveSlot, InitSingle, SameRow,
         CartBooths;
    match e
    case EInitSingle(_, _, _) =>
    case EInitPlan(b, planId, until) => InitPlanMissesTheBooth(w.db, a, t, expiresAt, b, planId, until, w.now, w.rule);
    case ECheckout(oid, b, items, until) => CheckoutMissesTheBooth(w.db, a, t, expiresAt, oid, b, items, until, w.now,
                                                                   w.rule);
    case EChargeSuccess(pid, granted) => if Delivers(w, e) { MarkedDeliveryMisses(w, a, t, expiresAt, pid, granted); }
    case EAdminVerify(pid, granted) => if Delivers(w, e) { MarkedDeliveryMisses(w, a, t, expiresAt, pid, granted); }
    case EChargeFailed(pid) =>
      if pid in w.db.payments { ClosingMissesTheBooth(w.db, a, t, expiresAt, pid); } else { MissingPayment(w.db, pid); }
    case ECancel(pid) =>
      if pid in w.db.payments { ClosingMissesTheBooth(w.db, a, t, expiresAt, pid); } else { MissingPayment(w.db, pid); }
    case ERefund(pid) => RefundMissesTheBooth(w.db, a, t, expiresAt, pid);
    case ECleanup => CleanupMissesTheBooth(w.db, a, t, expiresAt, w.now);
    case _ =>
  }

  lemma CleanupMissesTheBooth(db: Db, a: AssetId, t: Target, expiresAt: int, now: int)
    requires HoldsBooth(db, a, t, expiresAt) && now < expiresAt
    ensures SameRow(db, ReleaseExpired(db, now), a)
  {
    hide KeepHolds;
  }

  lemma AdminMissesTheBooth(w: World, e: Event, a: AssetId)
    requires a in w.db.assets
    ensures e.EInitSingle? || e.ETick? || e.EAssignSlot? || e.EUnassignSlot? || e.ESetTotalSlots? || e.ERemoveSlot?
            ==> SameRow(w.db, Next(w, e), a)
  {
    hide ApplySuccess, RefundPayment, InitPlan, Checkout, CancelPending, ChargeFailed, ReleaseExpired, Debit, Credit,
         KeepHolds, Without;
  }

  lemma MarkedDeliveryMisses(w: World, a: AssetId, t: Target, expiresAt: int, pid: Id, refundGranted: bool)
    requires HoldsBooth(w.db, a, t, expiresAt) && Stored(w.db) && w.now < expiresAt
    requires pid in w.db.payments && IsForeign(w.db.payments[pid], pid, t)
    ensures SameRow(w.db, ApplySuccess(SetStatus(w.db, pid, Success), pid, refundGranted, w.now), a)
  {
    var marked := SetStatus(w.db, pid, Success);
    assert WellFormed(w.db.payments[pid]) && WellFormed(marked.payments[pid]) && HoldsBooth(marked, a, t, expiresAt)
        && marked.assets == w.db.assets;
    assert IsForeign(marked.payments[pid], pid, t);
    hide *;
    DeliveryMissesTheBooth(marked, a, t, expiresAt, pid, refundGranted, w.now);
    SameRowFrom(w.db, marked, ApplySuccess(marked, pid, refundGranted, w.now), a);
  }

  lemma SameRowFrom(x: Db, y: Db, z: Db, a: AssetId)
    requires x.assets == y.assets && SameRow(y, z, a)
    ensures SameRow(x, z, a)
  {
  }

  ghost predicate BoothAllowedRun(w: World, events: seq<Event>, t: Target)
    decreases events
  {
    events == [] || (BoothAllowed(w.db, events[0]) && !Ends(w.db, events[0], t)
        && BoothAllowedRun(Step(w, events[0]), events[1..], t))
  }

  /**
   * Whatever else happens, as long as the hold has not expired and its own payment was neither charged, failed nor
   * cancelled, the whole row of a high-tier booth held by a bundle stays as it is.
   */
  lemma {:induction false} BoothHoldIsExclusive(w: World, events: seq<Event>, a: AssetId, t: Target, expiresAt: int)
    requires HoldsBooth(w.db, a, t, expiresAt) && Stored(w.db) && Consistent(w.db.assets)
    requires BoothAllowedRun(w, events, t) && Run(w, events).now < expiresAt
    ensures SameRow(w.db, Run(w, events).db, a) && HoldsBooth(Run(w, events).db, a, t, expiresAt)
    decreases events
  {
    if events != [] {
      var next := Step(w, events[0]);
      TimeGoesOn(w, events);
      BoothStep(w, events[0], a, t, expiresAt);
      OwnershipStep(w, events[0]);
      GrownStep(w, events[0]);
      StillHeld(w.db, next.db, a, t, expiresAt);
      hide HoldsBooth, Stored, Consistent, Next, BoothAllowed, Ends;
      BoothHoldIsExclusive(next, events[1..], a, t, expiresAt);
    }
  }

  lemma StillHeld(before: Db, after: Db, a: AssetId, t: Target, expiresAt: int)
    requires HoldsBooth(before, a, t, expiresAt) && SameRow(before, after, a) && Grown(before, after)
    ensures HoldsBooth(after, a, t, expiresAt)
  {
  }
}
