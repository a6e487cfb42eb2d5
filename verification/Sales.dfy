/** When the charge of a single row, copy or plan is a sale, in the columns of the tables before it. */
module Sales {
  import opened Common
  import opened CheckoutHold
  import opened Tables
  import opened Inventory
  import opened Fulfilment
  import opened Effects
  import opened Charges
  import opened RefundUndo
  import opened Obstacles
  import opened Closings

  /** A hold that is running, is somebody's and is not this payment's. */
  predicate IsHeldAgainst(h: Hold, pid: Id, now: int) {
    && h.expiresAt.Some? && h.expiresAt.value > now
    && (h.orderId.Some? || h.paymentId.Some?) && h.paymentId != Some(pid)
  }

  /** The company holds another booth than this one. */
  predicate HasAnotherBooth(db: Db, company: Option<Id>, a: AssetId) {
    && company.Some? && company.value in db.companies
    && exists b | b in db.assets :: b.kind == Booth && b != a && db.assets[b].owner == company
  }

  /** A row that a payment of its own can buy for this party: a company or, for a hotel room, a user. */
  predicate CanBuyRow(db: Db, a: AssetId, company: Option<Id>, party: Option<Id>, pid: Id, now: int) {
    && a in db.assets
    && (a.kind == Booth ==> !HasAnotherBooth(db, company, a))
    && (a.kind == Masterclass || a.kind == Panel || a.kind == Presentation ==> db.assets[a].published)
    && !db.assets[a].reserved
    && (db.assets[a].taken ==> db.assets[a].owner == party)
    && !IsHeldAgainst(db.assets[a].hold, pid, now)
  }

  /** The refusals of fulfilment, column by column. */
  lemma RefusalIs(db: Db, q: Buyer, company: Option<Id>, a: AssetId, pid: Id, bundled: bool)
    requires q.exclude == Exclude(None, Some(pid)) && a in db.assets
    requires q.ownBooths == if HasCompany(db, company) then OwnBooths(db.assets, company) else {}
    ensures IsRefused(q, a, db.assets[a], bundled) <==>
      || (a.kind == Booth && HasAnotherBooth(db, company, a))
      || ((a.kind == Masterclass || a.kind == Panel || a.kind == Presentation) && !db.assets[a].published)
      || (db.assets[a].reserved && !(bundled && a.kind == Booth))
      || (db.assets[a].taken && db.assets[a].owner != if a.kind == HotelRoom then Some(q.user) else q.company)
      || IsHeldAgainst(db.assets[a].hold, pid, q.now)
  {
    assert IsBlockedByOther(db.assets[a].hold, q.exclude, q.now) == IsHeldAgainst(db.assets[a].hold, pid, q.now);
    if HasAnotherBooth(db, company, a) {
      var b :| b in db.assets && b.kind == Booth && b != a && db.assets[b].owner == company;
      assert b in q.ownBooths;
    }
    hide IsBlockedByOther, IsHeldAgainst;
  }

  lemma RowOrThing(db: Db, pid: Id, now: int)
    requires pid in db.payments && WellFormed(db.payments[pid]) && !db.payments[pid].kind.OrderPayment?
    ensures var p := db.payments[pid]; var items := Lines(db, p);
      && |items| == 1
      && StopsWith(db, pid, now) == OutcomeAt(db, PaymentBuyer(db, pid, now), p.bundles, items, 0)
      && ItemsAssets(items[..0], p.bundles) == {} && ItemsSlots(items[..0], p.bundles) == multiset{}
  {
    hide LineOutcome;
  }

  lemma RowSaleIsDecided(db: Db, pid: Id, now: int)
    requires pid in db.payments && WellFormed(db.payments[pid]) && db.payments[pid].kind.AssetPayment?
    ensures var p := db.payments[pid]; var a := AssetId(p.kind.asset, p.targetId.value);
      var known := p.kind.asset == HotelRoom || (p.companyId.Some? && p.companyId.value in db.companies);
      var party := if p.kind.asset == HotelRoom then Some(p.userId) else p.companyId;
      EndingOf(db, pid, now)
      == if a !in db.assets || !known then Closed
         else if CanBuyRow(db, a, p.companyId, party, pid, now) then Sold else GivenUp
  {
    var p := db.payments[pid];
    var a := AssetId(p.kind.asset, p.targetId.value);
    var q := PaymentBuyer(db, pid, now);
    RowOrThing(db, pid, now);
    if a in db.assets { RefusalIs(db, q, p.companyId, a, pid, false); }
    hide StopsWith, ServedBefore, OwnBooths, IsRefused, HasAnotherBooth, IsHeldAgainst;
  }

  lemma CopySaleIsDecided(db: Db, pid: Id, now: int)
    requires pid in db.payments && WellFormed(db.payments[pid]) && db.payments[pid].kind.SlotPayment?
    ensures var p := db.payments[pid]; var s := SlotId(p.kind.slot, p.targetId.value);
      EndingOf(db, pid, now)
      == if s !in db.slots || p.companyId.None? || p.companyId.value !in db.companies then Closed
         else if !db.slots[s].reserved && db.slots[s].available > 0 then Sold else GivenUp
  {
    var p := db.payments[pid];
    var s := SlotId(p.kind.slot, p.targetId.value);
    RowOrThing(db, pid, now);
    assert [s][..0] == [];
    hide StopsWith, ServedBefore, OwnBooths;
  }

  /**
   * A row that a bundle can take: a booth may be reserved, but not somebody's; a session may be the company's already.
   */
  predicate CanBundleRow(db: Db, kind: AssetKind, id: Option<Id>, company: Id, pid: Id, now: int) {
    id.Some? ==>
      var a := AssetId(kind, id.value);
      && a in db.assets
      && (kind == Booth ==> !HasAnotherBooth(db, Some(company), a))
      && (kind != Booth ==> db.assets[a].published && !db.assets[a].reserved)
      && (db.assets[a].taken ==> db.assets[a].owner == Some(company))
      && !IsHeldAgainst(db.assets[a].hold, pid, now)
  }

  lemma BundleRowIs(db: Db, q: Buyer, kind: AssetKind, id: Option<Id>, company: Id, pid: Id)
    requires q.exclude == Exclude(None, Some(pid)) && q.company == Some(company) && company in db.companies
    requires q.ownBooths == OwnBooths(db.assets, Some(company)) && (kind == Booth || IsSession(kind))
    ensures OptionalRow(db, q, kind, id, {})
      == if CanBundleRow(db, kind, id, company, pid, q.now) then Done else Unavailable
  {
    if id.Some? && AssetId(kind, id.value) in db.assets {
      RefusalIs(db, q, Some(company), AssetId(kind, id.value), pid, true);
    }
    hide OwnBooths, IsRefused, HasAnotherBooth, IsHeldAgainst;
  }

  /** Every slot of the bundle has as many copies left as the bundle lists it times. */
  predicate CanBundleSlots(db: Db, ids: seq<SlotId>) {
    forall s | s in ids :: s in db.slots && !db.slots[s].reserved && multiset(ids)[s] <= db.slots[s].available
  }

  lemma EarlierCopies(ids: seq<SlotId>, k: nat)
    requires k < |ids|
    ensures multiset(ids[..k])[ids[k]] + 1 <= multiset(ids)[ids[k]]
  {
    assert ids == ids[..k] + ([ids[k]] + ids[k + 1..]);
  }

  lemma {:induction false} LastCopy(ids: seq<SlotId>, s: SlotId) returns (k: nat)
    requires s in ids
    ensures k < |ids| && ids[k] == s && multiset(ids[..k])[s] + 1 == multiset(ids)[s]
    decreases |ids|
  {
    var last := |ids| - 1;
    assert ids == ids[..last] + [ids[last]];
    if ids[last] == s {
      k := last;
    } else {
      k := LastCopy(ids[..last], s);
      assert ids[..last][..k] == ids[..k];
    }
  }

  lemma SlotsAreDecided(db: Db, ids: seq<SlotId>)
    ensures SlotsAreLeft(db.slots, ids, multiset{}) <==> CanBundleSlots(db, ids)
  {
    if CanBundleSlots(db, ids) {
      forall k | 0 <= k < |ids| ensures CopyIsLeft(db.slots, multiset{}, ids[..k], ids[k]) { EarlierCopies(ids, k); }
    }
    if SlotsAreLeft(db.slots, ids, multiset{}) {
      forall s | s in ids ensures s in db.slots && !db.slots[s].reserved && multiset(ids)[s] <= db.slots[s].available {
        var k := LastCopy(ids, s);
        assert CopyIsLeft(db.slots, multiset{}, ids[..k], ids[k]);
      }
    }
  }

  /**
   * A plan that is not on sale is given up like one whose bundle is not there any more: refunded, if that is granted.
   */
  lemma PlanSaleIsDecided(db: Db, pid: Id, now: int)
    requires pid in db.payments && WellFormed(db.payments[pid]) && db.payments[pid].kind == PlanPayment
    ensures var p := db.payments[pid]; var planId := p.targetId.value; var e := p.bundles[0];
      EndingOf(db, pid, now)
      == if planId !in db.plans || p.companyId.None? || p.companyId.value !in db.companies then Closed
         else if && db.plans[planId].active
                 && CanBundleRow(db, Booth, e.boothId, p.companyId.value, pid, now)
                 && CanBundleRow(db, Masterclass, e.masterclassId, p.companyId.value, pid, now)
                 && CanBundleRow(db, Presentation, e.presentationId, p.companyId.value, pid, now)
                 && CanBundleSlots(db, e.slots)
         then Sold else GivenUp
  {
    var p := db.payments[pid];
    var e := p.bundles[0];
    var q := PaymentBuyer(db, pid, now);
    RowOrThing(db, pid, now);
    SlotsAreDecided(db, e.slots);
    assert FindEntry(p.bundles, p.targetId.value) == Some(e);
    if HasCompany(db, p.companyId) {
      BundleRowIs(db, q, Booth, e.boothId, p.companyId.value, pid);
      BundleRowIs(db, q, Masterclass, e.masterclassId, p.companyId.value, pid);
      BundleRowIs(db, q, Presentation, e.presentationId, p.companyId.value, pid);
    }
    hide StopsWith, ServedBefore, SlotsAreLeft, CanBundleSlots, OptionalRow, CanBundleRow, OwnBooths, FindEntry;
  }

  /** The plan and the company are there, but the plan is not on sale. */
  predicate IsForAnInactivePlan(db: Db, p: Payment) {
    && p.kind == PlanPayment && p.targetId.Some? && p.targetId.value in db.plans
    && !db.plans[p.targetId.value].active && p.companyId.Some? && p.companyId.value in db.companies
  }

  lemma SingleItemEnding(db: Db, pid: Id, now: int)
    requires pid in db.payments && WellFormed(db.payments[pid]) && !db.payments[pid].kind.OrderPayment?
    ensures var p := db.payments[pid];
      && (EndingOf(db, pid, now) == Closed <==> IsMissing(db, pid, now)) && EndingOf(db, pid, now) != BrokenOff
      && (IsForAnInactivePlan(db, p) ==> EndingOf(db, pid, now) == GivenUp)
  {
    match db.payments[pid].kind
    case AssetPayment(_) =>
      RowSaleIsDecided(db, pid, now);
      hide StopsWith, IsMissing, CanBuyRow;
    case SlotPayment(_) =>
      CopySaleIsDecided(db, pid, now);
      hide StopsWith, IsMissing;
    case PlanPayment =>
      PlanSaleIsDecided(db, pid, now);
      hide StopsWith, IsMissing, CanBundleRow, CanBundleSlots;
  }

  /**
   * A payment for a single row, copy or plan is successful when it was a sale; when something it points at is missing
   * it fails, and otherwise, as for a plan that is not on sale, it is refunded if that is granted and else fails.
   */
  lemma SingleItemDeliveryEnds(db: Db, pid: Id, refundGranted: bool, now: int)
    requires pid in db.payments && WellFormed(db.payments[pid]) && !db.payments[pid].kind.OrderPayment?
    requires (db.payments[pid].status == Pending || db.payments[pid].status == Failed) && Consistent(db.assets)
    ensures var p := db.payments[pid]; var d := ChargeSuccess(db, pid, refundGranted, now);
      && pid in d.payments
      && d.payments[pid].status == (
           if IsMissing(db, pid, now) then Failed
           else if EndingOf(db, pid, now) == Sold then Success
           else if refundGranted then Refunded else Failed)
      && (IsForAnInactivePlan(db, p) ==> d.payments[pid].status == if refundGranted then Refunded else Failed)
  {
    SingleItemEnding(db, pid, now);
    DeliveryEnds(db, pid, refundGranted, now);
    hide ChargeSuccess, AdminVerify, EndingOf, IsMissing, OrdersEnd, HoldsEnd, FlagsEnd, WellFormed, Consistent;
  }

  // ---- The bundle of a plan --------------------------------------------------------------

  /** Entry number `k` is the first for this plan. */
  predicate IsFirstFor(bundles: seq<BundleEntry>, planId: Id, k: nat) {
    && k < |bundles| && bundles[k].planId == planId
    && forall j | 0 <= j < k :: bundles[j].planId != planId
  }

  lemma {:induction false} FoundEntryIs(bundles: seq<BundleEntry>, planId: Id)
    ensures var found := FindEntry(bundles, planId);
      if found.Some? then exists k: nat :: IsFirstFor(bundles, planId, k) && bundles[k] == found.value
      else forall e | e in bundles :: e.planId != planId
    decreases bundles
  {
    if bundles != [] {
      if bundles[0].planId == planId {
        assert IsFirstFor(bundles, planId, 0);
      } else {
        var rest := bundles[1..];
        FoundEntryIs(rest, planId);
        if k: nat :| IsFirstFor(rest, planId, k) && Some(rest[k]) == FindEntry(rest, planId) {
          assert forall j | 1 <= j <= k :: bundles[j] == rest[j - 1];
          assert IsFirstFor(bundles, planId, k + 1) && bundles[k + 1] == rest[k];
        }
      }
    }
  }

  /** A plan payment delivers the first entry stored for its plan, and without one the first entry stored, if any. */
  lemma PlanEntryIs(p: Payment)
    requires p.targetId.Some?
    ensures var entry := PlanEntry(p);
      if exists e :: e in p.bundles && e.planId == p.targetId.value
      then exists k: nat :: IsFirstFor(p.bundles, p.targetId.value, k) && entry == Some(p.bundles[k])
      else entry == if p.bundles == [] then None else Some(p.bundles[0])
  {
    FoundEntryIs(p.bundles, p.targetId.value);
    hide FindEntry;
  }
}
