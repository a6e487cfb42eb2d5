/**
 * The handlers, step by step, over the tables as fields. Each method is proved against the specification function of
 * the same step; the theorems are about those functions.
 */
module Handlers {
  import opened Common
  import opened CompanyTier
  import opened CheckoutHold
  import opened Tables
  import opened Inventory
  import opened Fulfilment
  import opened Refunds
  import opened BundleResolution
  import opened Machine
  import opened Charges
  import opened Closings

  /** The scan of a bundle's slots stops where the first copy cannot be taken. */
  lemma {:induction false} ServedIs(slots: map<SlotId, Slot>, ids: seq<SlotId>, n: nat, i: nat)
    requires n <= i <= |ids|
    requires forall k | n <= k < i :: CanTakeCopy(slots, ids[..k], ids[k])
    requires i < |ids| ==> !CanTakeCopy(slots, ids[..i], ids[i])
    ensures Served(slots, ids, n) == i
    decreases i - n
  {
    if n < i { ServedIs(slots, ids, n + 1, i); }
  }

  lemma TakenThenGivenBack(slots: map<SlotId, Slot>, held: set<(Id, SlotId)>, company: Option<Id>, m: multiset<SlotId>)
    ensures Credit(Debit(slots, m), m) == slots
    ensures held + Copies(company, m) - Copies(company, m) == held - Copies(company, m)
  {
    DebitCompose(slots, m, m);
  }

  class Shop {
    var assets: map<AssetId, Asset>
    var slots: map<SlotId, Slot>
    var slotHolds: seq<SlotHold>
    var assignments: set<(Id, SlotId)>
    var companies: map<Id, Company>
    var plans: map<Id, Plan>
    var payments: map<Id, Payment>
    var orders: map<Id, Order>

    constructor (db: Db)
      ensures View() == db
    {
      assets, slots, slotHolds, assignments := db.assets, db.slots, db.slotHolds, db.assignments;
      companies, plans, payments, orders := db.companies, db.plans, db.payments, db.orders;
    }

    function View(): Db
      reads this
    {
      Db(assets, slots, slotHolds, assignments, companies, plans, payments, orders)
    }

    // ---- Marketing slots -----------------------------------------------------------------

    /** The guarded update: one copy less, if there is one. */
    method TakeCopy(s: SlotId) returns (taken: bool)
      modifies this`slots
      ensures taken <==> s in old(slots) && old(slots)[s].available > 0
      ensures slots == if taken then Debit(old(slots), multiset{s}) else old(slots)
    {
      taken := s in slots && slots[s].available > 0;
      if taken {
        slots := slots[s := slots[s].(available := slots[s].available - 1)];
        assert slots == Debit(old(slots), multiset{s});
      }
    }

    method GiveCopyBack(s: SlotId)
      modifies this`slots
      ensures slots == Credit(old(slots), multiset{s})
    {
      if s in slots { slots := slots[s := slots[s].(available := slots[s].available + 1)]; }
      assert slots == Credit(old(slots), multiset{s});
    }

    method Assign(company: Option<Id>, s: SlotId)
      modifies this`assignments
      ensures assignments == old(assignments) + Copies(company, multiset{s})
    {
      if company.Some? { assignments := assignments + {(company.value, s)}; }
      assert company.Some? ==> Copies(company, multiset{s}) == {(company.value, s)};
    }

    /** Give back the copies taken so far and delete their assignments. */
    method RollBackSlots(company: Option<Id>, taken: seq<SlotId>)
      modifies this`slots, this`assignments
      ensures slots == Credit(old(slots), multiset(taken))
      ensures assignments == old(assignments) - Copies(company, multiset(taken))
    {
      NothingMoves(slots);
      for i := 0 to |taken|
        modifies this`slots
        invariant slots == Credit(old(slots), multiset(taken[..i]))
      {
        GiveCopyBack(taken[i]);
        CreditTwice(old(slots), multiset(taken[..i]), multiset{taken[i]});
        assert taken[..i + 1] == taken[..i] + [taken[i]];
      }
      assert taken[..|taken|] == taken;
      if company.Some? { assignments := assignments - set s | s in taken :: (company.value, s); }
      assert company.Some? ==> Copies(company, multiset(taken)) == set s | s in taken :: (company.value, s);
    }

    /** The slots of a bundle, one by one; when one cannot be taken, those taken before it are given back. */
    method TakeBundleSlots(q: Buyer, ids: seq<SlotId>) returns (verdict: Verdict)
      modifies this`slots, this`assignments
      ensures View() == Fulfilment.TakeBundleSlots(old(View()), q, ids).db
      ensures verdict == Fulfilment.TakeBundleSlots(old(View()), q, ids).verdict
    {
      hide Debit, Credit, Copies, Served, CanTakeCopy;
      var taken: seq<SlotId> := [];
      NothingMoves(slots);
      CopiesCompose(q.company, multiset{}, multiset{});
      for i := 0 to |ids|
        invariant taken == ids[..i]
        invariant slots == Debit(old(slots), multiset(taken))
        invariant assignments == old(assignments) + Copies(q.company, multiset(taken))
        invariant forall k | 0 <= k < i :: CanTakeCopy(old(slots), ids[..k], ids[k])
      {
        CopyIsLeft(old(slots), taken, ids[i]);
        var ok := ids[i] in slots && !slots[ids[i]].reserved;
        if ok { ok := TakeCopy(ids[i]); }
        if !ok {
          ServedIs(old(slots), ids, 0, i);
          RollBackSlots(q.company, taken);
          TakenThenGivenBack(old(slots), old(assignments), q.company, multiset(taken));
          return Unavailable;
        }
        DebitTwice(old(slots), multiset(taken), multiset{ids[i]});
        CopiesCompose(q.company, multiset(taken), multiset{ids[i]});
        assert ids[..i + 1] == ids[..i] + [ids[i]];
        taken := taken + [ids[i]];
        Assign(q.company, ids[i]);
      }
      assert ids[..|ids|] == ids;
      ServedIs(old(slots), ids, 0, |ids|);
      return Done;
    }

    // ---- Rows ----------------------------------------------------------------------------

    /** applyBoothTierToCompany */
    method ApplyBoothTier(company: Option<Id>, tier: Option<Tier>)
      modifies this`companies
      ensures View() == RaiseTier(old(View()), company, tier)
      ensures companies.Keys == old(companies).Keys
      ensures forall c | c in companies && Some(c) != company :: companies[c] == old(companies)[c]
      ensures company.Some? && company.value in companies ==>
        && companies[company.value] == old(companies)[company.value].(tier := companies[company.value].tier)
        && Rank(companies[company.value].tier) >= Rank(tier)
        && Rank(companies[company.value].tier) >= Rank(old(companies)[company.value].tier)
        && companies[company.value].tier in {tier, old(companies)[company.value].tier}
    {
      if tier.None? || company.None? || company.value !in companies { return; }
      var row := companies[company.value];
      if Rank(tier) > Rank(row.tier) { companies := companies[company.value := row.(tier := tier)]; }
    }

    /** Stand-alone rows: a booth, a session or a hotel room. */
    method TakeLine(q: Buyer, id: AssetId) returns (verdict: Verdict)
      modifies this`assets, this`companies
      ensures View() == Fulfilment.TakeLine(old(View()), q, id).db
      ensures verdict == Fulfilment.TakeLine(old(View()), q, id).verdict
    {
      hide OwnBooths, RaiseTier;
      if id !in assets { return Unavailable; }
      var row := assets[id];
      if IsRefused(q, id, row, false) { return Unavailable; }
      if !row.taken || row.owner != Party(q, id.kind) {
        if BreaksUniqueKey(assets, id, q.company) { return Crashed; }
        assets := assets[id := row.(taken := true, owner := Party(q, id.kind))];
      } else {
        assert assets[id := row.(taken := true, owner := Party(q, id.kind))] == assets;
      }
      if id.kind == Booth { ApplyBoothTier(q.company, row.tier); }
      return Done;
    }

    method TakeBundleBooth(q: Buyer, boothId: Option<Id>) returns (verdict: Verdict)
      modifies this`assets, this`companies
      ensures View() == Fulfilment.TakeBundleBooth(old(View()), q, boothId).db
      ensures verdict == Fulfilment.TakeBundleBooth(old(View()), q, boothId).verdict
    {
      hide OwnBooths, RaiseTier;
      if boothId.None? { return Done; }
      var id := AssetId(Booth, boothId.value);
      if id !in assets { return Unavailable; }
      var row := assets[id];
      if IsRefused(q, id, row, true) { return Unavailable; }
      if BreaksUniqueKey(assets, id, q.company) { return Crashed; }
      assets := assets[id := row.(taken := true, owner := q.company, reserved := false, hold := NO_HOLD)];
      ApplyBoothTier(q.company, row.tier);
      return Done;
    }

    method TakeBundleSession(q: Buyer, kind: AssetKind, sessionId: Option<Id>) returns (verdict: Verdict)
      requires IsSession(kind)
      modifies this`assets
      ensures View() == Fulfilment.TakeBundleSession(old(View()), q, kind, sessionId).db
      ensures verdict == Fulfilment.TakeBundleSession(old(View()), q, kind, sessionId).verdict
    {
      if sessionId.None? { return Done; }
      var id := AssetId(kind, sessionId.value);
      if id !in assets { return Unavailable; }
      var row := assets[id];
      if IsRefused(q, id, row, true) { return Unavailable; }
      if !row.taken || row.owner != q.company {
        assets := assets[id := row.(taken := true, owner := q.company, hold := NO_HOLD)];
      }
      return Done;
    }

    /** fulfillSponsorshipBundleFromSnapshot */
    method TakeBundle(q: Buyer, e: BundleEntry) returns (verdict: Verdict)
      modifies this`assets, this`slots, this`assignments, this`companies
      ensures View() == Fulfilment.TakeBundle(old(View()), q, e).db
      ensures verdict == Fulfilment.TakeBundle(old(View()), q, e).verdict
    {
      hide Fulfilment.TakeBundleBooth, Fulfilment.TakeBundleSession, Fulfilment.TakeBundleSlots;
      verdict := TakeBundleBooth(q, e.boothId);
      if verdict != Done { return; }
      verdict := TakeBundleSession(q, Masterclass, e.masterclassId);
      if verdict != Done { return; }
      verdict := TakeBundleSession(q, Presentation, e.presentationId);
      if verdict != Done { return; }
      verdict := TakeBundleSlots(q, e.slots);
    }

    /** A plan: its bundle, if the payment has one, and then the company's total and tier. */
    method BuyPlan(q: Buyer, entry: Option<BundleEntry>, plan: Plan, kobo: int) returns (verdict: Verdict)
      modifies this`assets, this`slots, this`assignments, this`companies
      ensures View() == Fulfilment.BuyPlan(old(View()), q, entry, plan, kobo).db
      ensures verdict == Fulfilment.BuyPlan(old(View()), q, entry, plan, kobo).verdict
    {
      hide Fulfilment.TakeBundle;
      if entry.Some? {
        verdict := TakeBundle(q, entry.value);
        if verdict != Done { return; }
      }
      if q.company.Some? && q.company.value in companies {
        var row := companies[q.company.value];
        row := row.(paidTotal := row.paidTotal + kobo);
        if Rank(Some(plan.tier)) > Rank(q.tier) { row := row.(tier := Some(plan.tier)); }
        companies := companies[q.company.value := row];
      }
      return Done;
    }

    method TakeSlotCopy(q: Buyer, s: SlotId) returns (verdict: Verdict)
      modifies this`slots, this`assignments
      ensures View() == Fulfilment.TakeSlotCopy(old(View()), q, s).db
      ensures verdict == Fulfilment.TakeSlotCopy(old(View()), q, s).verdict
    {
      hide Debit, Copies;
      if s !in slots || slots[s].reserved { return Unavailable; }
      var taken := TakeCopy(s);
      if !taken { return Unavailable; }
      Assign(q.company, s);
      return Done;
    }

    // ---- Orders --------------------------------------------------------------------------

    /** fulfillSingleOrderItem */
    method FulfilItem(q: Buyer, bundles: seq<BundleEntry>, item: Item) returns (verdict: Verdict)
      modifies this`assets, this`slots, this`assignments, this`companies
      ensures View() == Fulfilment.FulfilItem(old(View()), q, bundles, item).db
      ensures verdict == Fulfilment.FulfilItem(old(View()), q, bundles, item).verdict
    {
      hide Fulfilment.TakeLine, Fulfilment.TakeSlotCopy, Fulfilment.BuyPlan;
      match item
      case AssetItem(kind, id) =>
        if id.None? || Party(q, kind).None? { return Unavailable; }
        verdict := TakeLine(q, AssetId(kind, id.value));
      case SlotItem(kind, id) =>
        if id.None? || q.company.None? { return Unavailable; }
        verdict := TakeSlotCopy(q, SlotId(kind, id.value));
      case PlanItem(planId, unit, quantity) =>
        if planId.None? || q.company.None? { return Unavailable; }
        if planId.value !in plans || !plans[planId.value].active { return Unavailable; }
        verdict := BuyPlan(q, FindEntry(bundles, planId.value), plans[planId.value], unit * quantity);
    }

    /** The line loop of applySuccessfulOrderPayment: `sold` lists the stand-alone copies taken so far. */
    method FulfilItems(q: Buyer, bundles: seq<BundleEntry>, items: seq<Item>)
                       returns (verdict: Verdict, served: nat, sold: seq<SlotId>)
      modifies this`assets, this`slots, this`assignments, this`companies
      ensures LinesOutcome(View(), verdict, served) == Fulfilment.FulfilItems(old(View()), q, bundles, items)
      ensures served <= |items| && multiset(sold) == SlotLines(items[..served])
    {
      hide Fulfilment.FulfilItem;
      ghost var start := View();
      served := 0;
      sold := [];
      while served < |items|
        invariant served <= |items|
        invariant Fulfilment.FulfilItems(start, q, bundles, items) == Onward(View(), q, bundles, items, served)
        invariant multiset(sold) == SlotLines(items[..served])
      {
        var item := items[served];
        verdict := FulfilItem(q, bundles, item);
        if verdict != Done { return; }
        SlotLinesGrow(items, served);
        SlotLinesOfOne(item);
        if item.SlotItem? && item.slotId.Some? { sold := sold + [SlotId(item.slot, item.slotId.value)]; }
        assert items[served..][1..] == items[served + 1..];
        served := served + 1;
      }
      verdict := Done;
    }

    // ---- Holds and statuses --------------------------------------------------------------

    method ReleaseForPayment(pid: Id)
      modifies this`assets, this`slotHolds
      ensures View() == Inventory.ReleaseForPayment(old(View()), pid)
      ensures assets.Keys == old(assets).Keys
      ensures forall a | a in assets && old(assets)[a].hold.paymentId == Some(pid) ::
        assets[a] == old(assets)[a].(hold := NO_HOLD)
      ensures forall a | a in assets && old(assets)[a].hold.paymentId != Some(pid) :: assets[a] == old(assets)[a]
      ensures forall h :: multiset(slotHolds)[h] == if h.paymentId == Some(pid) then 0 else multiset(old(slotHolds))[h]
    {
      var own := (h: SlotHold) => h.paymentId == Some(pid);
      assets := ClearHolds(assets, (h: Hold) => h.paymentId == Some(pid));
      slotHolds := KeepHolds(slotHolds, own);
      KeptCounts(old(slotHolds), own);
    }

    method ReleaseForOrder(oid: Id)
      modifies this`assets, this`slotHolds
      ensures View() == Inventory.ReleaseForOrder(old(View()), oid)
      ensures assets.Keys == old(assets).Keys
      ensures forall a | a in assets && old(assets)[a].hold.orderId == Some(oid) ::
        assets[a] == old(assets)[a].(hold := NO_HOLD)
      ensures forall a | a in assets && old(assets)[a].hold.orderId != Some(oid) :: assets[a] == old(assets)[a]
      ensures forall h :: multiset(slotHolds)[h] == if h.orderId == Some(oid) then 0 else multiset(old(slotHolds))[h]
    {
      var own := (h: SlotHold) => h.orderId == Some(oid);
      assets := ClearHolds(assets, (h: Hold) => h.orderId == Some(oid));
      slotHolds := KeepHolds(slotHolds, own);
      KeptCounts(old(slotHolds), own);
    }

    /** releaseExpiredCheckoutHolds: nobody is blocked, now or later, who was not, and nobody is let through who was. */
    method ReleaseExpired(now: int)
      modifies this`assets, this`slotHolds
      ensures View() == Inventory.ReleaseExpired(old(View()), now)
      ensures assets.Keys == old(assets).Keys
      ensures forall a | a in assets :: assets[a] == old(assets)[a].(hold := assets[a].hold)
      ensures forall a | a in assets ::
        assets[a].hold == if old(assets)[a].hold.expiresAt.Some? && old(assets)[a].hold.expiresAt.value < now
          then Hold(None, None, None) else old(assets)[a].hold
      ensures forall a, ex, later | a in assets && later >= now ::
        IsBlockedByOther(assets[a].hold, ex, later) == IsBlockedByOther(old(assets)[a].hold, ex, later)
      ensures forall h :: multiset(slotHolds)[h] == if h.expiresAt < now then 0 else multiset(old(slotHolds))[h]
    {
      var expired := (h: SlotHold) => h.expiresAt < now;
      assets := ClearHolds(assets, (h: Hold) => h.expiresAt.Some? && h.expiresAt.value < now);
      slotHolds := KeepHolds(slotHolds, expired);
      KeptCounts(old(slotHolds), expired);
    }

    method MarkPayment(pid: Id, status: PaymentStatus)
      modifies this`payments
      ensures View() == SetStatus(old(View()), pid, status)
    {
      if pid in payments { payments := payments[pid := payments[pid].(status := status)]; }
    }

    method MarkOrder(oid: Id, status: OrderStatus)
      modifies this`orders
      ensures View() == SetOrderStatus(old(View()), oid, status)
    {
      if oid in orders { orders := orders[oid := orders[oid].(status := status)]; }
    }

    method ReleaseAll(pid: Id, orderId: Option<Id>)
      modifies this`assets, this`slotHolds, this`orders
      ensures View() == Inventory.ReleaseAll(old(View()), pid, orderId)
    {
      hide Inventory.ReleaseForPayment, Inventory.ReleaseForOrder;
      ReleaseForPayment(pid);
      if orderId.Some? {
        ReleaseForOrder(orderId.value);
        if orderId.value in orders && orders[orderId.value].status
            == PendingPayment { MarkOrder(orderId.value, OrderFailed); }
      }
    }

    /** markPaymentFailed, and the end of refundBecauseUnavailable */
    method Settle(pid: Id, orderId: Option<Id>, status: PaymentStatus)
      modifies this`payments, this`assets, this`slotHolds, this`orders
      ensures View() == Inventory.Settle(old(View()), pid, orderId, status)
    {
      hide Inventory.ReleaseAll;
      MarkPayment(pid, status);
      ReleaseAll(pid, orderId);
    }

    // ---- Deliveries ----------------------------------------------------------------------

    /** applySuccessfulOrderPayment */
    method ApplyOrder(pid: Id, refundGranted: bool, now: int)
      requires pid in payments
      modifies this
      ensures View() == Fulfilment.ApplyOrder(old(View()), pid, refundGranted, now)
    {
      hide Fulfilment.FulfilItems, Inventory.Settle, Inventory.ReleaseForOrder, SetOrderStatus, BuyerOf, Credit,
           SlotLines, NeedsCompany;
      var p := payments[pid];
      if p.orderId.None? || p.orderId.value !in orders { Settle(pid, p.orderId, Failed); return; }
      var oid := p.orderId.value;
      var o := orders[oid];
      var q := BuyerOf(View(), o.companyId, p.userId, Exclude(Some(oid), None), now);
      if NeedsCompany(o.items) && q.company.None? { Settle(pid, p.orderId, Failed); return; }
      var verdict, served, sold := FulfilItems(q, p.bundles, o.items);
      ghost var mid := View();
      match verdict
      case Done =>
        ReleaseForOrder(oid);
        MarkOrder(oid, Paid);
      case Unavailable =>
        GiveCopiesBack(sold);
        Settle(pid, Some(oid), RefundStatus(refundGranted));
        MarkOrder(oid, OrderFailed);
      case Crashed =>
    }

    method GiveCopiesBack(sold: seq<SlotId>)
      modifies this`slots
      ensures slots == Credit(old(slots), multiset(sold))
    {
      NothingMoves(slots);
      for i := 0 to |sold|
        invariant slots == Credit(old(slots), multiset(sold[..i]))
      {
        GiveCopyBack(sold[i]);
        CreditTwice(old(slots), multiset(sold[..i]), multiset{sold[i]});
        assert sold[..i + 1] == sold[..i] + [sold[i]];
      }
      assert sold[..|sold|] == sold;
    }

    /** refundBecauseUnavailable, when something was */
    method ConcludeDelivery(verdict: Verdict, pid: Id, refundGranted: bool)
      requires pid in payments
      modifies this`payments, this`assets, this`slotHolds, this`orders
      ensures View() == Conclude(Outcome(old(View()), verdict), pid, old(payments)[pid].orderId, refundGranted)
      ensures if verdict == Unavailable
        then IsClosed(old(View()), View(), pid, if refundGranted then Refunded else Failed)
        else View() == old(View())
    {
      SettledIsClosed(View(), pid, if refundGranted then Refunded else Failed);
      hide Inventory.Settle, IsClosed;
      if verdict == Unavailable { Settle(pid, payments[pid].orderId, RefundStatus(refundGranted)); }
    }

    /** applySuccessfulPayment, for every kind but registrations */
    method ApplySuccess(pid: Id, refundGranted: bool, now: int)
      requires pid in payments
      modifies this
      ensures View() == Fulfilment.ApplySuccess(old(View()), pid, refundGranted, now)
    {
      hide Fulfilment.ApplyOrder, Fulfilment.TakeLine, Fulfilment.TakeSlotCopy, Fulfilment.BuyPlan, Inventory.Settle,
           Inventory.ReleaseForPayment, BuyerOf;
      var p := payments[pid];
      var q := BuyerOf(View(), p.companyId, p.userId, Exclude(p.orderId, Some(pid)), now);
      var verdict: Verdict;
      match p.kind
      case OrderPayment =>
        ApplyOrder(pid, refundGranted, now);
        return;
      case AssetPayment(kind) =>
        if p.targetId.None? || AssetId(kind, p.targetId.value) !in assets
            || Party(q, kind).None? { Settle(pid, p.orderId, Failed); return; }
        verdict := TakeLine(q, AssetId(kind, p.targetId.value));
        ConcludeDelivery(verdict, pid, refundGranted);
        assert View() == Conclude(Fulfilment.TakeLine(old(View()), q, AssetId(kind, p.targetId.value)), pid, p.orderId,
                                  refundGranted);
      case SlotPayment(kind) =>
        if p.targetId.None? || SlotId(kind, p.targetId.value) !in slots
            || q.company.None? { Settle(pid, p.orderId, Failed); return; }
        verdict := TakeSlotCopy(q, SlotId(kind, p.targetId.value));
        ConcludeDelivery(verdict, pid, refundGranted);
        assert View() == Conclude(Fulfilment.TakeSlotCopy(old(View()), q, SlotId(kind, p.targetId.value)), pid,
                                  p.orderId, refundGranted);
      case PlanPayment =>
        if p.targetId.None? || p.targetId.value !in plans || q.company.None? { Settle(pid, p.orderId, Failed); return; }
        var plan := plans[p.targetId.value];
        if !plan.active { Settle(pid, p.orderId, RefundStatus(refundGranted)); return; }
        verdict := BuyPlan(q, PlanEntry(p), plan, p.baseAmount);
        if verdict == Done {
          ReleaseForPayment(pid);
        } else {
          ConcludeDelivery(verdict, pid, refundGranted);
          assert View() == Conclude(Fulfilment.BuyPlan(old(View()), q, PlanEntry(p), plan, p.baseAmount), pid,
                                    p.orderId, refundGranted);
        }
    }

    /** handleChargeSuccess: repeated and late deliveries find the payment closed. */
    method HandleChargeSuccess(pid: Id, refundGranted: bool, now: int)
      modifies this
      ensures View() == ChargeSuccess(old(View()), pid, refundGranted, now)
    {
      hide Fulfilment.ApplySuccess;
      if pid !in payments { return; }
      if payments[pid].status == Success || payments[pid].status == Refunded { return; }
      MarkPayment(pid, Success);
      ApplySuccess(pid, refundGranted, now);
    }

    method HandleChargeFailed(pid: Id)
      modifies this
      ensures View() == ChargeFailed(old(View()), pid)
      ensures if pid in old(payments)
        then IsClosed(old(View()), View(), pid, if old(payments)[pid].status == Refunded then Refunded else Failed)
        else View() == old(View())
    {
      FailedChargeCloses(View(), pid);
      hide Inventory.ReleaseAll, IsClosed;
      if pid !in payments { return; }
      var orderId := payments[pid].orderId;
      if payments[pid].status != Refunded { MarkPayment(pid, Failed); }
      ReleaseAll(pid, orderId);
    }

    /** adminVerifyPayment */
    method VerifyTransfer(pid: Id, refundGranted: bool, now: int)
      modifies this
      ensures View() == AdminVerify(old(View()), pid, refundGranted, now)
    {
      hide Fulfilment.ApplySuccess;
      if pid !in payments || !payments[pid].manual || payments[pid].status != Pending { return; }
      MarkPayment(pid, Success);
      ApplySuccess(pid, refundGranted, now);
    }

    method CancelPendingPayment(pid: Id)
      modifies this
      ensures View() == CancelPending(old(View()), pid)
      ensures if pid in old(payments) && old(payments)[pid].status == Pending
        then IsClosed(old(View()), View(), pid, Failed) else View() == old(View())
    {
      CancellationCloses(View(), pid);
      hide Inventory.Settle, IsClosed;
      if pid !in payments || payments[pid].status != Pending { return; }
      Settle(pid, payments[pid].orderId, Failed);
    }

    // ---- Refunds -------------------------------------------------------------------------

    method ReleaseAsset(id: AssetId, party: Option<Id>)
      modifies this`assets
      ensures View() == Refunds.ReleaseAsset(old(View()), id, party)
    {
      if id in assets && party.Some? && assets[id].owner == party {
        assets := assets[id := assets[id].(taken := false, owner := None)];
      }
    }

    /** The reduction over all tiers found: a later tier wins only by a higher rank. */
    method HighestTier(tiers: set<Tier>) returns (best: Option<Tier>)
      ensures best == BestTier(tiers)
    {
      best := None;
      var rest := tiers;
      while rest != {}
        invariant rest <= tiers
        invariant best.Some? ==> best.value in tiers && Rank(best) > 0
        invariant forall t | t in tiers - rest :: Rank(Some(t)) <= Rank(best)
        decreases |rest|
      {
        var t :| t in rest;
        if Rank(Some(t)) > Rank(best) { best := Some(t); }
        rest := rest - {t};
      }
      BestIsUnique(tiers, best);
    }

    /** recomputeCompanyTier */
    method RecomputeTier(company: Option<Id>, except: Id)
      modifies this`companies
      ensures View() == Refunds.RecomputeTier(old(View()), company, except)
    {
      hide BestTier, HeldTiers, PlanTiers;
      if company.None? || company.value !in companies { return; }
      var bought := PlanTiers(payments, plans, company.value, Some(except));
      var tier := HighestTier(HeldTiers(assets, company.value) + bought);
      companies := companies[company.value := companies[company.value].(tier := tier)];
    }

    method ReverseBooth(boothId: Option<Id>, company: Option<Id>, pid: Id)
      modifies this`assets, this`companies
      ensures View() == Refunds.ReverseBooth(old(View()), boothId, company, pid)
    {
      hide Refunds.RecomputeTier;
      if boothId.None? || company.None? { return; }
      ReleaseAsset(AssetId(Booth, boothId.value), company);
      RecomputeTier(company, pid);
    }

    method ReverseAsset(kind: AssetKind, id: Option<Id>, party: Option<Id>)
      modifies this`assets
      ensures View() == Refunds.ReverseAsset(old(View()), kind, id, party)
    {
      if id.Some? { ReleaseAsset(AssetId(kind, id.value), party); }
    }

    method ReverseSlot(company: Option<Id>, s: SlotId)
      modifies this`slots, this`assignments
      ensures View() == Refunds.ReverseSlot(old(View()), company, s)
    {
      if s !in slots || company.None? { return; }
      GiveCopyBack(s);
      assignments := assignments - {(company.value, s)};
    }

    method ReverseSlots(company: Option<Id>, ids: seq<SlotId>)
      modifies this`slots, this`assignments
      ensures View() == Refunds.ReverseSlots(old(View()), company, ids)
    {
      hide Refunds.ReverseSlot;
      for i := 0 to |ids|
        invariant Refunds.ReverseSlots(old(View()), company, ids) == Refunds.ReverseSlots(View(), company, ids[i..])
      {
        assert ids[i..][0] == ids[i] && ids[i..][1..] == ids[i + 1..];
        ReverseSlot(company, ids[i]);
      }
    }

    method ReverseBundle(company: Option<Id>, pid: Id, entry: Option<BundleEntry>)
      modifies this`assets, this`slots, this`assignments, this`companies
      ensures View() == Refunds.ReverseBundle(old(View()), company, pid, entry)
    {
      hide Refunds.ReverseBooth, Refunds.ReverseAsset, Refunds.ReverseSlots;
      if entry.None? { return; }
      var e := entry.value;
      ReverseBooth(e.boothId, company, pid);
      ReverseAsset(Masterclass, e.masterclassId, company);
      ReverseAsset(Presentation, e.presentationId, company);
      ReverseSlots(company, e.slots);
    }

    method SubtractSponsorship(company: Option<Id>, kobo: int)
      modifies this`companies
      ensures View() == Refunds.SubtractSponsorship(old(View()), company, kobo)
    {
      if company.Some? && company.value in companies {
        var row := companies[company.value];
        companies := companies[company.value := row.(paidTotal := row.paidTotal - kobo)];
      }
    }

    method ReverseItem(p: Payment, pid: Id, item: Item)
      modifies this`assets, this`slots, this`assignments, this`companies
      ensures View() == Refunds.ReverseItem(old(View()), p, pid, item)
    {
      hide Refunds.ReverseBooth, Refunds.ReverseAsset, Refunds.ReverseSlot, Refunds.ReverseBundle,
           Refunds.SubtractSponsorship;
      match item
      case AssetItem(kind, id) =>
        if kind == Booth { ReverseBooth(id, p.companyId, pid); } else { ReverseAsset(kind, id, Holder(p, kind)); }
      case SlotItem(kind, id) =>
        if id.Some? { ReverseSlot(p.companyId, SlotId(kind, id.value)); }
      case PlanItem(planId, unit, quantity) =>
        if planId.Some? && p.companyId.Some? {
          ReverseBundle(p.companyId, pid, FindEntry(p.bundles, planId.value));
          SubtractSponsorship(p.companyId, unit * quantity);
        }
    }

    /** The line loop of reverseOrderAssets */
    method ReverseItems(p: Payment, pid: Id, items: seq<Item>)
      modifies this`assets, this`slots, this`assignments, this`companies
      ensures View() == Refunds.ReverseItems(old(View()), p, pid, items)
    {
      hide Refunds.ReverseItem;
      for i := 0 to |items|
        invariant Refunds.ReverseItems(old(View()), p, pid, items) == Refunds.ReverseItems(View(), p, pid, items[i..])
      {
        assert items[i..][0] == items[i] && items[i..][1..] == items[i + 1..];
        ReverseItem(p, pid, items[i]);
      }
    }

    /** reverseFulfillment */
    method Reverse(pid: Id)
      requires pid in payments
      modifies this`assets, this`slots, this`assignments, this`companies
      ensures View() == Refunds.Reverse(old(View()), pid)
    {
      hide Refunds.ReverseItem, Refunds.ReverseItems, Refunds.ReverseBundle, Refunds.SubtractSponsorship,
           Refunds.RecomputeTier;
      var p := payments[pid];
      match p.kind
      case OrderPayment =>
        if p.orderId.None? || p.orderId.value !in orders { return; }
        ReverseItems(p, pid, orders[p.orderId.value].items);
        RecomputeTier(p.companyId, pid);
      case AssetPayment(kind) => ReverseItem(p, pid, AssetItem(kind, p.targetId));
      case SlotPayment(kind) => ReverseItem(p, pid, SlotItem(kind, p.targetId));
      case PlanPayment =>
        if p.companyId.None? { return; }
        ReverseBundle(p.companyId, pid, if p.bundles == [] then None else Some(p.bundles[0]));
        SubtractSponsorship(p.companyId, p.baseAmount);
        RecomputeTier(p.companyId, pid);
    }

    /** handleRefundProcessed, and the granted branch of adminInitiateRefund */
    method HandleRefund(pid: Id)
      modifies this
      ensures View() == RefundPayment(old(View()), pid)
    {
      hide Refunds.Reverse;
      if pid !in payments || payments[pid].status != Success { return; }
      Reverse(pid);
      MarkPayment(pid, Refunded);
    }

    // ---- Administration of marketing slots -----------------------------------------------

    method AssignAdmin(company: Id, s: SlotId)
      modifies this`slots
      ensures View() == AssignSlot(old(View()), company, s)
    {
      if company !in companies || s !in slots || slots[s].reserved { return; }
      var _ := TakeCopy(s);
    }

    method UnassignAdmin(s: SlotId)
      modifies this`slots
      ensures View() == UnassignSlot(old(View()), s)
    {
      if s !in slots || slots[s].available >= slots[s].total { return; }
      GiveCopyBack(s);
    }

    method UpdateTotalSlots(s: SlotId, newTotal: int)
      modifies this`slots
      ensures View() == SetTotalSlots(old(View()), s, newTotal)
    {
      if newTotal < 1 || s !in slots { return; }
      var sold := slots[s].total - slots[s].available;
      if newTotal < sold { return; }
      slots := slots[s := slots[s].(total := newTotal, available := newTotal - sold)];
    }

    // ---- Bundle resolution ---------------------------------------------------------------

    /** The first row of a query ordered by isReserved and then by id. */
    method FirstRow(rows: set<AssetId>) returns (first: AssetId)
      requires rows != {} && rows <= assets.Keys
      ensures first in rows && forall b | b in rows :: ComesFirst(assets, first, b)
    {
      first :| first in rows;
      var rest := rows - {first};
      while rest != {}
        invariant rest <= rows && first in rows
        invariant forall b | b in rows - rest :: ComesFirst(assets, first, b)
        decreases |rest|
      {
        var a :| a in rest;
        assert forall b | b in rows - (rest - {a}) :: b == a || b in rows - rest;
        if ComesFirst(assets, a, first) { first := a; }
        rest := rest - {a};
      }
    }

    /** The query's rows in order, and the first that no other checkout blocks. */
    method FirstUnblocked(rows: set<AssetId>, ex: Exclude, now: int) returns (pick: Option<AssetId>)
      requires rows <= assets.Keys
      ensures pick.None? ==> forall b | b in rows :: IsBlockedByOther(assets[b].hold, ex, now)
      ensures pick.Some? ==> pick.value in rows && !IsBlockedByOther(assets[pick.value].hold, ex, now)
      ensures pick.Some? ==>
        forall b | b in rows && !IsBlockedByOther(assets[b].hold, ex, now) :: ComesFirst(assets, pick.value, b)
    {
      var rest := rows;
      while rest != {}
        invariant rest <= rows
        invariant forall b | b in rows - rest :: IsBlockedByOther(assets[b].hold, ex, now)
        decreases |rest|
      {
        var a := FirstRow(rest);
        if !IsBlockedByOther(assets[a].hold, ex, now) { return Some(a); }
        rest := rest - {a};
      }
      return None;
    }

    /** pickFirstAvailableBooth */
    method PickBooth(tier: Tier, t: Target, now: int) returns (pick: Option<AssetId>)
      ensures pick == BundleResolution.PickBooth(View(), tier, t, now)
    {
      var rows := set a | a in assets && a.kind == Booth && assets[a].tier == Some(tier) && !assets[a].taken;
      pick := FirstUnblocked(rows, TargetExclude(t), now);
      BoothPickIs(View(), tier, t, now, rows, pick);
    }

    /** pickFirstAvailableMasterclass and pickFirstAvailablePresentation */
    method PickSession(kind: AssetKind, rule: SessionRule, t: Target, now: int) returns (pick: Option<AssetId>)
      ensures pick == BundleResolution.PickSession(View(), kind, rule, t, now)
    {
      var rows := set a | a in assets && a.kind == kind && assets[a].published
          && Some(assets[a].duration) == rule.duration
                          && Some(assets[a].day) == rule.day && !assets[a].taken && !assets[a].reserved;
      pick := FirstUnblocked(rows, TargetExclude(t), now);
      SessionPickIs(View(), kind, rule, t, now, rows, pick);
    }

    method PutHold(a: Option<AssetId>, hold: Hold)
      modifies this`assets
      ensures View() == HoldPick(old(View()), a, hold)
    {
      if a.Some? && a.value in assets { assets := assets[a.value := assets[a.value].(hold := hold)]; }
    }

    /** The slot loops: every slot is checked against the holds counted when the plan was read, and held. */
    method HoldSlots(ids: seq<SlotId>, t: Target, expiresAt: int, now: int, rule: NullRule) returns (ok: bool)
      modifies this`slotHolds
      ensures ok <==> SlotsAreAvailable(old(View()), ids, t, now, rule)
      ensures ok ==> slotHolds == old(slotHolds) + SlotHolds(ids, t, expiresAt)
    {
      var read := View();
      assert SlotHolds([], t, expiresAt) == [];
      for i := 0 to |ids|
        invariant forall k | 0 <= k < i :: SlotIsAvailable(read, ids[k], t, now, rule)
        invariant slotHolds == old(slotHolds) + SlotHolds(ids[..i], t, expiresAt)
      {
        if !SlotIsAvailable(read, ids[i], t, now, rule) { return false; }
        slotHolds := slotHolds + [TargetSlotHold(t, ids[i], expiresAt)];
        SlotHoldsGrow(ids, i, t, expiresAt);
      }
      assert ids[..|ids|] == ids;
      return true;
    }

    /** resolveSinglePlanAndPlaceHolds; without an entry the transaction is rolled back by the caller. */
    method ResolvePlan(planId: Id, t: Target, expiresAt: int, now: int, rule: NullRule)
                       returns (entry: Option<BundleEntry>)
      modifies this`assets, this`slotHolds
      ensures var r := BundleResolution.ResolvePlan(old(View()), planId, t, expiresAt, now, rule);
        && entry.Some? == r.Some?
        && (entry.Some? ==> View() == r.value.db && entry.value == r.value.entry)
    {
      hide BundleResolution.PickBooth, BundleResolution.PickSession, HoldPick, SlotsAreAvailable, SlotHolds;
      if planId !in plans || !plans[planId].active { return None; }
      var plan := plans[planId];
      if plan.boothTier.Some? && !IsBundleTier(plan.boothTier.value) { return None; }
      if IsPartial(plan.masterclass) || IsPartial(plan.presentation) { return None; }
      var hold := TargetHold(t, expiresAt);
      ghost var read := View();
      var ok := HoldSlots(plan.slots, t, expiresAt, now, rule);
      if !ok { return None; }
      ghost var holds := slotHolds;
      var booth: Option<AssetId>, masterclass: Option<AssetId>, presentation: Option<AssetId> := None, None, None;
      if plan.boothTier.Some? {
        booth := PickBooth(plan.boothTier.value, t, now);
        SamePicks(read, View(), plan, t, now);
        if booth.None? { return None; }
      }
      PutHold(booth, hold);
      HoldPickCommutes(read, holds, booth, hold);
      ghost var d1 := HoldPick(read, booth, hold);
      BoothHoldKeepsSessions(read, View(), plan, t, now, booth, hold);
      if IsFull(plan.masterclass) {
        masterclass := PickSession(Masterclass, plan.masterclass, t, now);
        if masterclass.None? { return None; }
      }
      PutHold(masterclass, hold);
      HoldPickCommutes(d1, holds, masterclass, hold);
      ghost var d2 := HoldPick(d1, masterclass, hold);
      SessionHoldKeepsPresentations(read, View(), plan, t, now, booth, masterclass, hold);
      if IsFull(plan.presentation) {
        presentation := PickSession(Presentation, plan.presentation, t, now);
        if presentation.None? { return None; }
      }
      PutHold(presentation, hold);
      HoldPickCommutes(d2, holds, presentation, hold);
      return Some(BundleEntry(planId, IdOf(booth), IdOf(masterclass), IdOf(presentation), plan.slots));
    }

    // ---- Purchases -----------------------------------------------------------------------

    /** initializeSponsorshipPlanPayment: an error in the transaction leaves no trace of it. */
    method StartPlanPayment(b: Purchase, planId: Id, expiresAt: int, now: int, rule: NullRule)
      modifies this`assets, this`slotHolds, this`payments
      ensures View() == InitPlan(old(View()), b, planId, expiresAt, now, rule)
    {
      hide BundleResolution.ResolvePlan, PlansAreCompatible;
      if b.pid in payments || !PlanIsBuyable(View(), b.company, planId) { return; }
      var savedAssets, savedHolds := assets, slotHolds;
      var entry := ResolvePlan(planId, ForPayment(b.pid), expiresAt, now, rule);
      if entry.None? {
        assets, slotHolds := savedAssets, savedHolds;
        return;
      }
      payments := payments[b.pid :=
        Payment(PlanPayment, Pending, b.manual, b.user, b.company, None, Some(planId), b.base, [entry.value])];
    }

    /** The charge of the new payment, when it comes, delivers one line: the row or the copy that was asked for. */
    method StartSinglePayment(b: Purchase, kind: PaymentKind, targetId: Id)
      modifies this`payments
      ensures View() == InitSingle(old(View()), b, kind, targetId)
      ensures b.pid in old(payments) || kind == OrderPayment || kind == PlanPayment <==> payments == old(payments)
      ensures forall pid | pid in old(payments) :: pid in payments && payments[pid] == old(payments)[pid]
      ensures payments != old(payments) ==>
        && payments.Keys == old(payments).Keys + {b.pid} && WellFormed(payments[b.pid])
        && payments[b.pid].status == Pending && ActingCompany(View(), payments[b.pid]) == b.company
        && payments[b.pid].baseAmount == b.base && payments[b.pid].userId == b.user
        && payments[b.pid].manual == b.manual
        && (kind.AssetPayment? ==> Lines(View(), payments[b.pid]) == [AssetItem(kind.asset, Some(targetId))])
        && (kind.SlotPayment? ==> Lines(View(), payments[b.pid]) == [SlotItem(kind.slot, Some(targetId))])
    {
      if b.pid in payments || !(kind.AssetPayment? || kind.SlotPayment?) { return; }
      payments := payments[b.pid :=
        Payment(kind, Pending, b.manual, b.user, b.company, None, Some(targetId), b.base, [])];
    }

    /** placeCheckoutHoldsTx: the row of every line is written; a missing row fails the transaction. */
    method PlaceCheckoutHolds(items: seq<Item>, hold: Hold) returns (ok: bool)
      modifies this`assets
      ensures ok == PlaceHolds(old(View()), items, hold).Some?
      ensures ok ==> View() == PlaceHolds(old(View()), items, hold).value
    {
      for i := 0 to |items|
        invariant PlaceHolds(old(View()), items, hold) == PlaceHolds(View(), items[i..], hold)
      {
        assert items[i..][0] == items[i] && items[i..][1..] == items[i + 1..];
        if items[i].AssetItem? && items[i].assetId.Some? {
          var a := AssetId(items[i].asset, items[i].assetId.value);
          if a !in assets { return false; }
          assets := assets[a := assets[a].(hold := hold)];
        }
      }
      return true;
    }

    /** resolveAllForCheckout */
    method ResolveAll(ids: seq<Id>, t: Target, expiresAt: int, now: int, rule: NullRule)
                      returns (bundles: Option<seq<BundleEntry>>)
      modifies this`assets, this`slotHolds
      ensures var r := Machine.ResolveAll(old(View()), ids, t, expiresAt, now, rule);
        bundles.Some? == r.Some? && (bundles.Some? ==> AllResolved(View(), bundles.value) == r.value)
    {
      hide BundleResolution.ResolvePlan;
      var entries: seq<BundleEntry> := [];
      AppendNothing(Machine.ResolveAll(View(), ids, t, expiresAt, now, rule));
      assert ids[0..] == ids;
      for i := 0 to |ids|
        invariant Machine.ResolveAll(old(View()), ids, t, expiresAt, now, rule)
                  == Appended(entries, Machine.ResolveAll(View(), ids[i..], t, expiresAt, now, rule))
      {
        assert ids[i..][0] == ids[i] && ids[i..][1..] == ids[i + 1..];
        ghost var before := View();
        var entry := ResolvePlan(ids[i], t, expiresAt, now, rule);
        if entry.None? { return None; }
        AppendOne(entries, entry.value, Machine.ResolveAll(View(), ids[i + 1..], t, expiresAt, now, rule));
        entries := entries + [entry.value];
      }
      return Some(entries);
    }

    /** The transaction of checkout: holds, bundles, order and payment, or nothing. */
    method Checkout(oid: Id, b: Purchase, items: seq<Item>, expiresAt: int, now: int, rule: NullRule)
      modifies this`assets, this`slotHolds, this`orders, this`payments
      ensures View() == Machine.Checkout(old(View()), oid, b, items, expiresAt, now, rule)
    {
      hide PlaceHolds, Machine.ResolveAll, CheckoutIsAllowed, PlanIds;
      if oid in orders || b.pid in payments || !CheckoutIsAllowed(View(), b.company, items) { return; }
      var savedAssets, savedHolds := assets, slotHolds;
      var t := ForOrder(oid);
      var held := PlaceCheckoutHolds(items, TargetHold(t, expiresAt));
      var bundles: Option<seq<BundleEntry>> := None;
      if held { bundles := ResolveAll(PlanIds(items), t, expiresAt, now, rule); }
      if bundles.None? {
        assets, slotHolds := savedAssets, savedHolds;
        return;
      }
      orders := orders[oid := Order(b.user, b.company, PendingPayment, items)];
      payments := payments[b.pid :=
        Payment(OrderPayment, Pending, b.manual, b.user, b.company, Some(oid), None, b.base, bundles.value)];
    }

    /** remove: the foreign keys cascade to holds, assignments and plan links. */
    method Remove(s: SlotId)
      modifies this`slots, this`slotHolds, this`assignments, this`plans
      ensures View() == RemoveSlot(old(View()), s)
      ensures if IsRemovable(old(View()), s) then IsRemoved(old(View()), View(), s) else View() == old(View())
    {
      RemovalIs(View(), s);
      hide IsRemoved;
      if s !in slots || slots[s].available < slots[s].total { return; }
      if exists pid | pid in payments :: payments[pid].kind == SlotPayment(s.kind)
          && payments[pid].targetId == Some(s.id)
           && payments[pid].status == Pending { return; }
      slots := slots - {s};
      slotHolds := KeepHolds(slotHolds, (h: SlotHold) => h.slot == s);
      assignments := set x | x in assignments && x.1 != s;
      plans := map p | p in plans :: plans[p].(slots := Without(plans[p].slots, s));
    }
  }

  /** The slot is there, no copy of it is out and no payment for it is pending. */
  predicate IsRemovable(db: Db, s: SlotId) {
    && s in db.slots && db.slots[s].available >= db.slots[s].total
    && forall pid | pid in db.payments ::
         db.payments[pid].kind == SlotPayment(s.kind) && db.payments[pid].targetId == Some(s.id) ==>
           db.payments[pid].status != Pending
  }

  /** The slot, its holds, its assignments and its links are gone, and nothing else. */
  ghost predicate IsRemoved(before: Db, after: Db, s: SlotId) {
    && after == before.(slots := before.slots - {s}, slotHolds := after.slotHolds, assignments := after.assignments,
                        plans := after.plans)
    && (forall h :: multiset(after.slotHolds)[h] == if h.slot == s then 0 else multiset(before.slotHolds)[h])
    && (forall x :: x in after.assignments <==> x in before.assignments && x.1 != s)
    && after.plans.Keys == before.plans.Keys
    && (forall p | p in before.plans :: after.plans[p] == before.plans[p].(slots := after.plans[p].slots))
    && forall p, x | p in before.plans ::
         multiset(after.plans[p].slots)[x] == if x == s then 0 else multiset(before.plans[p].slots)[x]
  }

  lemma RemovalIs(db: Db, s: SlotId)
    ensures if IsRemovable(db, s) then IsRemoved(db, RemoveSlot(db, s), s) else RemoveSlot(db, s) == db
  {
    KeptCounts(db.slotHolds, (h: SlotHold) => h.slot == s);
    forall p, x | p in db.plans
      ensures multiset(Without(db.plans[p].slots, s))[x] == if x == s then 0 else multiset(db.plans[p].slots)[x]
    {
      WithoutKeeps(db.plans[p].slots, s, x);
    }
    hide Without, KeepHolds;
  }

  ghost function Appended(entries: seq<BundleEntry>, rest: Option<AllResolved>): Option<AllResolved> {
    if rest.None? then None else Some(AllResolved(rest.value.db, entries + rest.value.bundles))
  }

  lemma AppendNothing(rest: Option<AllResolved>)
    ensures Appended([], rest) == rest
  {
    if rest.Some? { assert [] + rest.value.bundles == rest.value.bundles; }
  }

  lemma AppendOne(entries: seq<BundleEntry>, entry: BundleEntry, rest: Option<AllResolved>)
    ensures Appended(entries + [entry], rest) == Appended(entries, Appended([entry], rest))
  {
    if rest.Some? { assert entries + [entry] + rest.value.bundles == entries + ([entry] + rest.value.bundles); }
  }

  lemma FirstIsUnique(rows: set<AssetId>, kind: AssetKind, a: AssetId)
    requires a in rows && (forall b | b in rows :: b.kind == kind) && forall b | b in rows :: a.id <= b.id
    ensures FirstById(rows) == a
  {
  }

  /** Sorting and then searching finds what choosing the least of the eligible rows finds. */
  lemma BoothPickIs(db: Db, tier: Tier, t: Target, now: int, rows: set<AssetId>, pick: Option<AssetId>)
    requires rows == set a | a in db.assets && a.kind == Booth && db.assets[a].tier == Some(tier) && !db.assets[a].taken
    requires pick.None? ==> forall b | b in rows :: IsBlockedByOther(db.assets[b].hold, TargetExclude(t), now)
    requires pick.Some? ==> pick.value in rows && !IsBlockedByOther(db.assets[pick.value].hold, TargetExclude(t), now)
    requires pick.Some? ==>
      forall b | b in rows && !IsBlockedByOther(db.assets[b].hold, TargetExclude(t), now) ::
          ComesFirst(db.assets, pick.value, b)
    ensures pick == BundleResolution.PickBooth(db, tier, t, now)
  {
    hide IsBlockedByOther;
    var eligible := EligibleBooths(db, tier, t, now);
    var free := eligible - Reserved(db, eligible);
    assert forall b :: b in eligible <==> b in rows && !IsBlockedByOther(db.assets[b].hold, TargetExclude(t), now);
    if pick.Some? {
      var a := pick.value;
      assert a in eligible && forall b | b in eligible :: ComesFirst(db.assets, a, b);
      if !db.assets[a].reserved {
        assert a in free;
        FirstIsUnique(free, Booth, a);
      } else {
        assert free == {};
        FirstIsUnique(eligible, Booth, a);
      }
    } else {
      assert eligible == {};
    }
  }

  lemma SessionPickIs(db: Db, kind: AssetKind, rule: SessionRule, t: Target, now: int, rows: set<AssetId>,
                      pick: Option<AssetId>)
    requires rows == set a | a in db.assets && a.kind == kind && db.assets[a].published
        && Some(db.assets[a].duration) == rule.duration
                             && Some(db.assets[a].day) == rule.day && !db.assets[a].taken && !db.assets[a].reserved
    requires pick.None? ==> forall b | b in rows :: IsBlockedByOther(db.assets[b].hold, TargetExclude(t), now)
    requires pick.Some? ==> pick.value in rows && !IsBlockedByOther(db.assets[pick.value].hold, TargetExclude(t), now)
    requires pick.Some? ==>
      forall b | b in rows && !IsBlockedByOther(db.assets[b].hold, TargetExclude(t), now) ::
          ComesFirst(db.assets, pick.value, b)
    ensures pick == BundleResolution.PickSession(db, kind, rule, t, now)
  {
    hide IsBlockedByOther;
    var eligible := EligibleSessions(db, kind, rule, t, now);
    assert forall b :: b in eligible <==> b in rows && !IsBlockedByOther(db.assets[b].hold, TargetExclude(t), now);
    if pick.Some? {
      assert pick.value in eligible;
      FirstIsUnique(eligible, kind, pick.value);
    } else {
      assert eligible == {};
    }
  }

  lemma {:induction false} SlotHoldsOfBoth(a: seq<SlotId>, b: seq<SlotId>, t: Target, expiresAt: int)
    ensures SlotHolds(a + b, t, expiresAt) == SlotHolds(a, t, expiresAt) + SlotHolds(b, t, expiresAt)
    decreases a
  {
    if a == [] {
      assert a + b == b;
    } else {
      assert (a + b)[0] == a[0] && (a + b)[1..] == a[1..] + b;
      SlotHoldsOfBoth(a[1..], b, t, expiresAt);
    }
  }

  lemma SlotHoldsGrow(ids: seq<SlotId>, n: nat, t: Target, expiresAt: int)
    requires n < |ids|
    ensures SlotHolds(ids[..n + 1], t, expiresAt)
      == SlotHolds(ids[..n], t, expiresAt) + [TargetSlotHold(t, ids[n], expiresAt)]
  {
    assert ids[..n + 1] == ids[..n] + [ids[n]];
    SlotHoldsOfBoth(ids[..n], [ids[n]], t, expiresAt);
    assert [ids[n]][1..] == [];
  }

  lemma HoldPickCommutes(db: Db, holds: seq<SlotHold>, a: Option<AssetId>, hold: Hold)
    ensures HoldPick(db.(slotHolds := holds), a, hold) == HoldPick(db, a, hold).(slotHolds := holds)
  {
  }

  lemma SamePicks(read: Db, db: Db, plan: Plan, t: Target, now: int)
    requires db.assets == read.assets
    ensures plan.boothTier.Some? ==>
      BundleResolution.PickBooth(db, plan.boothTier.value, t, now)
          == BundleResolution.PickBooth(read, plan.boothTier.value, t, now)
  {
    if plan.boothTier.Some? {
      var tier := plan.boothTier.value;
      assert EligibleBooths(db, tier, t, now) == EligibleBooths(read, tier, t, now);
      var rows := EligibleBooths(db, tier, t, now);
      assert Reserved(db, rows) == Reserved(read, rows);
    }
  }

  /** Rows of one kind are picked alike when only rows of other kinds differ. */
  lemma SessionsAlike(a: Db, b: Db, kind: AssetKind, rule: SessionRule, t: Target, now: int)
    requires forall x: AssetId | x.kind == kind ::
        (x in a.assets <==> x in b.assets) && (x in a.assets ==> a.assets[x] == b.assets[x])
    ensures BundleResolution.PickSession(a, kind, rule, t, now) == BundleResolution.PickSession(b, kind, rule, t, now)
  {
    assert EligibleSessions(a, kind, rule, t, now) == EligibleSessions(b, kind, rule, t, now);
  }

  lemma PickedKinds(db: Db, plan: Plan, t: Target, now: int)
    ensures plan.boothTier.Some? && BundleResolution.PickBooth(db, plan.boothTier.value, t, now).Some? ==>
      BundleResolution.PickBooth(db, plan.boothTier.value, t, now).value.kind == Booth
    ensures BundleResolution.PickSession(db, Masterclass, plan.masterclass, t, now).Some? ==>
      BundleResolution.PickSession(db, Masterclass, plan.masterclass, t, now).value.kind == Masterclass
  {
    if plan.boothTier.Some? {
      var rows := EligibleBooths(db, plan.boothTier.value, t, now);
      assert forall x | x in rows :: x.kind == Booth;
    }
  }

  lemma BoothHoldKeepsSessions(read: Db, db: Db, plan: Plan, t: Target, now: int, booth: Option<AssetId>, hold: Hold)
    requires db.assets == HoldPick(read, booth, hold).assets
    requires booth
      == if plan.boothTier.Some? then BundleResolution.PickBooth(read, plan.boothTier.value, t, now) else None
    ensures BundleResolution.PickSession(db, Masterclass, plan.masterclass, t, now)
            == BundleResolution.PickSession(read, Masterclass, plan.masterclass, t, now)
  {
    PickedKinds(read, plan, t, now);
    hide BundleResolution.PickSession, BundleResolution.PickBooth;
    SessionsAlike(read, db, Masterclass, plan.masterclass, t, now);
  }

  lemma SessionHoldKeepsPresentations(read: Db, db: Db, plan: Plan, t: Target, now: int, booth: Option<AssetId>,
                                      masterclass: Option<AssetId>, hold: Hold)
    requires db.assets == HoldPick(HoldPick(read, booth, hold), masterclass, hold).assets
    requires booth
      == if plan.boothTier.Some? then BundleResolution.PickBooth(read, plan.boothTier.value, t, now) else None
    requires masterclass == if IsFull(plan.masterclass)
                            then BundleResolution.PickSession(read, Masterclass, plan.masterclass, t, now) else None
    ensures BundleResolution.PickSession(db, Presentation, plan.presentation, t, now)
            == BundleResolution.PickSession(read, Presentation, plan.presentation, t, now)
  {
    PickedKinds(read, plan, t, now);
    hide BundleResolution.PickSession, BundleResolution.PickBooth;
    SessionsAlike(read, db, Presentation, plan.presentation, t, now);
  }

  /** A tier of the highest rank is the best tier: no two tiers above zero share a rank. */
  lemma BestIsUnique(tiers: set<Tier>, best: Option<Tier>)
    requires best.Some? ==> best.value in tiers && Rank(best) > 0
    requires forall t | t in tiers :: Rank(Some(t)) <= Rank(best)
    ensures best == BestTier(tiers)
  {
    var b := BestTier(tiers);
    assert Rank(b) > 0 ==> Rank(b) <= Rank(best);
    assert best.Some? ==> Rank(best) <= Rank(b);
  }

  /** What is left of a slot in the middle of the scan decides whether the next copy can be taken. */
  lemma CopyIsLeft(slots: map<SlotId, Slot>, taken: seq<SlotId>, s: SlotId)
    ensures var left := Debit(slots, multiset(taken));
      CanTakeCopy(slots, taken, s) <==> s in left && !left[s].reserved && left[s].available > 0
  {
  }

  /** The rest of an order's lines, with `served` of them done. */
  ghost function Onward(db: Db, q: Buyer, bundles: seq<BundleEntry>, items: seq<Item>, served: nat): LinesOutcome
    requires served <= |items|
  {
    var rest := Fulfilment.FulfilItems(db, q, bundles, items[served..]);
    LinesOutcome(rest.db, rest.verdict, served + rest.served)
  }

  lemma {:induction false} SlotLinesOfBoth(a: seq<Item>, b: seq<Item>)
    ensures SlotLines(a + b) == SlotLines(a) + SlotLines(b)
    decreases a
  {
    if a == [] {
      assert a + b == b;
    } else {
      assert (a + b)[0] == a[0] && (a + b)[1..] == a[1..] + b;
      SlotLinesOfBoth(a[1..], b);
    }
  }

  lemma SlotLinesGrow(items: seq<Item>, n: nat)
    requires n < |items|
    ensures SlotLines(items[..n + 1]) == SlotLines(items[..n]) + SlotLines([items[n]])
  {
    assert items[..n + 1] == items[..n] + [items[n]];
    SlotLinesOfBoth(items[..n], [items[n]]);
  }

  lemma SlotLinesOfOne(item: Item)
    ensures SlotLines([item])
      == if item.SlotItem? && item.slotId.Some? then multiset{SlotId(item.slot, item.slotId.value)} else multiset{}
  {
    assert [item][1..] == [];
  }
}
