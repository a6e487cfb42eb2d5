/**
 * What a successful charge does to the tables: the specification the Shop class is proved against.
 * Source: src/payments/paystack.service.ts, applySuccessfulPayment and the functions below it.
 */
module Fulfilment {
  import opened Common
  import opened CompanyTier
  import opened CheckoutHold
  import opened Tables
  import opened Inventory

  /** `Crashed`: the write broke the unique key on Booth.takenById and the handler threw. */
  datatype Verdict = Done | Unavailable | Crashed

  datatype Outcome = Outcome(db: Db, verdict: Verdict)

  /** Who is buying, with the company row as it was read when the handler started. */
  datatype Buyer = Buyer(
    company: Option<Id>, user: Id, ownBooths: set<AssetId>, tier: Option<Tier>, exclude: Exclude, now: int)

  function Party(q: Buyer, kind: AssetKind): Option<Id> {
    if kind == HotelRoom then Some(q.user) else q.company
  }

  function BuyerOf(db: Db, company: Option<Id>, user: Id, exclude: Exclude, now: int): Buyer {
    if HasCompany(db, company)
    then Buyer(company, user, OwnBooths(db.assets, company), db.companies[company.value].tier, exclude, now)
    else Buyer(None, user, {}, None, exclude, now)
  }

  // ---- One row ---------------------------------------------------------------------------

  predicate IsSession(kind: AssetKind) {
    kind == Masterclass || kind == Panel || kind == Presentation
  }

  /** Why a row cannot go to this buyer; a bundle may take a reserved booth. */
  predicate IsRefused(q: Buyer, id: AssetId, a: Asset, bundled: bool) {
    || (id.kind == Booth && exists b | b in q.ownBooths :: b != id)
    || (IsSession(id.kind) && !a.published)
    || (a.reserved && !(bundled && id.kind == Booth))
    || (a.taken && a.owner != Party(q, id.kind))
    || IsBlockedByOther(a.hold, q.exclude, q.now)
  }

  /** The unique key on Booth.takenById would be broken by giving this booth to the company. */
  predicate BreaksUniqueKey(assets: map<AssetId, Asset>, id: AssetId, company: Option<Id>) {
    && id.kind == Booth && company.Some?
    && exists b | b in assets :: b.kind == Booth && b != id && assets[b].owner == company
  }

  function TakeLine(db: Db, q: Buyer, id: AssetId): Outcome {
    if id !in db.assets || IsRefused(q, id, db.assets[id], false) then Outcome(db, Unavailable)
    else
      var a := db.assets[id];
      var held := a.taken && a.owner == Party(q, id.kind);
      if !held && BreaksUniqueKey(db.assets, id, q.company) then Outcome(db, Crashed)
      else
        var taken := db.(assets := db.assets[id := a.(taken := true, owner := Party(q, id.kind))]);
        Outcome(if id.kind == Booth then RaiseTier(taken, q.company, a.tier) else taken, Done)
  }

  // ---- A sponsorship bundle --------------------------------------------------------------

  function TakeBundleBooth(db: Db, q: Buyer, boothId: Option<Id>): Outcome {
    if boothId.None? then Outcome(db, Done)
    else
      var id := AssetId(Booth, boothId.value);
      if id !in db.assets || IsRefused(q, id, db.assets[id], true) then Outcome(db, Unavailable)
      else if BreaksUniqueKey(db.assets, id, q.company) then Outcome(db, Crashed)
      else
        var a := db.assets[id].(taken := true, owner := q.company, reserved := false, hold := NO_HOLD);
        Outcome(RaiseTier(db.(assets := db.assets[id := a]), q.company, a.tier), Done)
  }

  function TakeBundleSession(db: Db, q: Buyer, kind: AssetKind, sessionId: Option<Id>): Outcome {
    if sessionId.None? then Outcome(db, Done)
    else
      var id := AssetId(kind, sessionId.value);
      if id !in db.assets || IsRefused(q, id, db.assets[id], true) then Outcome(db, Unavailable)
      else if db.assets[id].taken then Outcome(db, Done)
      else
        var a := db.assets[id].(taken := true, owner := q.company, hold := NO_HOLD);
        Outcome(db.(assets := db.assets[id := a]), Done)
  }

  predicate CanTakeCopy(slots: map<SlotId, Slot>, earlier: seq<SlotId>, s: SlotId) {
    s in slots && !slots[s].reserved && slots[s].available > multiset(earlier)[s]
  }

  /** The first slot of a bundle, from `n` on, that is missing, reserved or sold out; its length when there is none. */
  function Served(slots: map<SlotId, Slot>, ids: seq<SlotId>, n: nat): (r: nat)
    requires n <= |ids|
    ensures n <= r <= |ids|
    ensures forall k | n <= k < r :: CanTakeCopy(slots, ids[..k], ids[k])
    ensures r < |ids| ==> !CanTakeCopy(slots, ids[..r], ids[r])
    decreases |ids| - n
  {
    if n == |ids| || !CanTakeCopy(slots, ids[..n], ids[n]) then n else Served(slots, ids, n + 1)
  }

  /** All the slots of a bundle or, after the rollback, none of them. */
  function TakeBundleSlots(db: Db, q: Buyer, ids: seq<SlotId>): Outcome {
    var n := Served(db.slots, ids, 0);
    if n == |ids| then
      Outcome(db.(slots := Debit(db.slots, multiset(ids)),
                  assignments := db.assignments + Copies(q.company, multiset(ids))), Done)
    else
      Outcome(db.(assignments := db.assignments - Copies(q.company, multiset(ids[..n]))), Unavailable)
  }

  function TakeBundleRows(db: Db, q: Buyer, e: BundleEntry): Outcome {
    var booth := TakeBundleBooth(db, q, e.boothId);
    if booth.verdict != Done then booth
    else
      var masterclass := TakeBundleSession(booth.db, q, Masterclass, e.masterclassId);
      if masterclass.verdict != Done then masterclass
      else TakeBundleSession(masterclass.db, q, Presentation, e.presentationId)
  }

  function TakeBundle(db: Db, q: Buyer, e: BundleEntry): Outcome {
    var rows := TakeBundleRows(db, q, e);
    if rows.verdict != Done then rows else TakeBundleSlots(rows.db, q, e.slots)
  }

  function FindEntry(bundles: seq<BundleEntry>, planId: Id): Option<BundleEntry> {
    if bundles == [] then None
    else if bundles[0].planId == planId then Some(bundles[0])
    else FindEntry(bundles[1..], planId)
  }

  /** The sponsor total grows; the plan's tier is compared with the company row read at the start. */
  function AddSponsorship(db: Db, q: Buyer, plan: Plan, kobo: int): Db {
    if !HasCompany(db, q.company) then db
    else
      var c := db.companies[q.company.value];
      var tier := if Rank(Some(plan.tier)) > Rank(q.tier) then Some(plan.tier) else c.tier;
      db.(companies := db.companies[q.company.value := Company(tier, c.paidTotal + kobo)])
  }

  function BuyPlan(db: Db, q: Buyer, entry: Option<BundleEntry>, plan: Plan, kobo: int): Outcome {
    if entry.None? then Outcome(AddSponsorship(db, q, plan, kobo), Done)
    else
      var taken := TakeBundle(db, q, entry.value);
      if taken.verdict != Done then taken
      else Outcome(AddSponsorship(taken.db, q, plan, kobo), Done)
  }

  function TakeSlotCopy(db: Db, q: Buyer, s: SlotId): Outcome {
    if s !in db.slots || db.slots[s].reserved || db.slots[s].available <= 0 then Outcome(db, Unavailable)
    else
      Outcome(db.(slots := Debit(db.slots, multiset{s}),
                  assignments := db.assignments + Copies(q.company, multiset{s})), Done)
  }

  // ---- Orders ----------------------------------------------------------------------------

  function FulfilItem(db: Db, q: Buyer, bundles: seq<BundleEntry>, item: Item): Outcome {
    match item
    case AssetItem(kind, id) =>
      if id.None? || Party(q, kind).None? then Outcome(db, Unavailable)
      else TakeLine(db, q, AssetId(kind, id.value))
    case SlotItem(kind, id) =>
      if id.None? || q.company.None? then Outcome(db, Unavailable)
      else TakeSlotCopy(db, q, SlotId(kind, id.value))
    case PlanItem(planId, unit, quantity) =>
      if planId.None? || q.company.None? then Outcome(db, Unavailable)
      else if planId.value !in db.plans || !db.plans[planId.value].active then Outcome(db, Unavailable)
      else BuyPlan(db, q, FindEntry(bundles, planId.value), db.plans[planId.value], unit * quantity)
  }

  /** `served` lines were fulfilled; when the verdict is not Done, line number `served` stopped the loop. */
  datatype LinesOutcome = LinesOutcome(db: Db, verdict: Verdict, served: nat)

  function FulfilItems(db: Db, q: Buyer, bundles: seq<BundleEntry>, items: seq<Item>): (r: LinesOutcome)
    ensures r.served <= |items|
    ensures r.verdict == Done <==> r.served == |items|
    decreases items
  {
    if items == [] then LinesOutcome(db, Done, 0)
    else
      var first := FulfilItem(db, q, bundles, items[0]);
      if first.verdict != Done then LinesOutcome(first.db, first.verdict, 0)
      else
        var rest := FulfilItems(first.db, q, bundles, items[1..]);
        LinesOutcome(rest.db, rest.verdict, rest.served + 1)
  }

  predicate NeedsCompany(items: seq<Item>) {
    exists i | 0 <= i < |items| :: !(items[i].AssetItem? && items[i].asset == HotelRoom)
  }

  /** The copies taken by stand-alone slot lines; only these are given back when a later line fails. */
  function SlotLines(items: seq<Item>): multiset<SlotId> {
    if items == [] then multiset{}
    else
      (if items[0].SlotItem? && items[0].slotId.Some?
       then multiset{SlotId(items[0].slot, items[0].slotId.value)} else multiset{})
      + SlotLines(items[1..])
  }

  function ApplyOrder(db: Db, pid: Id, refundGranted: bool, now: int): Db
    requires pid in db.payments
  {
    var p := db.payments[pid];
    if p.orderId.None? || p.orderId.value !in db.orders then Settle(db, pid, p.orderId, Failed)
    else
      var oid := p.orderId.value;
      var o := db.orders[oid];
      var q := BuyerOf(db, o.companyId, p.userId, Exclude(Some(oid), None), now);
      if NeedsCompany(o.items) && q.company.None? then Settle(db, pid, p.orderId, Failed)
      else
        var r := FulfilItems(db, q, p.bundles, o.items);
        match r.verdict
        case Done => SetOrderStatus(ReleaseForOrder(r.db, oid), oid, Paid)
        case Unavailable => AbortOrder(r.db, pid, oid, SlotLines(o.items[..r.served]), refundGranted)
        case Crashed => r.db
  }

  function AbortOrder(db: Db, pid: Id, oid: Id, returned: multiset<SlotId>, refundGranted: bool): Db {
    var compensated := db.(slots := Credit(db.slots, returned));
    SetOrderStatus(Settle(compensated, pid, Some(oid), RefundStatus(refundGranted)), oid, OrderFailed)
  }

  // ---- Single-item payments --------------------------------------------------------------

  function RefundStatus(granted: bool): PaymentStatus {
    if granted then Refunded else Failed
  }

  function Conclude(r: Outcome, pid: Id, orderId: Option<Id>, refundGranted: bool): Db {
    if r.verdict == Unavailable then Settle(r.db, pid, orderId, RefundStatus(refundGranted)) else r.db
  }

  function ApplySuccess(db: Db, pid: Id, refundGranted: bool, now: int): Db
    requires pid in db.payments
  {
    var p := db.payments[pid];
    var q := BuyerOf(db, p.companyId, p.userId, Exclude(p.orderId, Some(pid)), now);
    match p.kind
    case OrderPayment => ApplyOrder(db, pid, refundGranted, now)
    case AssetPayment(kind) =>
      if p.targetId.None? || AssetId(kind, p.targetId.value) !in db.assets || Party(q, kind).None?
      then Settle(db, pid, p.orderId, Failed)
      else Conclude(TakeLine(db, q, AssetId(kind, p.targetId.value)), pid, p.orderId, refundGranted)
    case SlotPayment(kind) =>
      if p.targetId.None? || SlotId(kind, p.targetId.value) !in db.slots || q.company.None?
      then Settle(db, pid, p.orderId, Failed)
      else Conclude(TakeSlotCopy(db, q, SlotId(kind, p.targetId.value)), pid, p.orderId, refundGranted)
    case PlanPayment =>
      if p.targetId.None? || p.targetId.value !in db.plans || q.company.None? then Settle(db, pid, p.orderId, Failed)
      else ApplyPlan(db, pid, q, db.plans[p.targetId.value], refundGranted)
  }

  function ApplyPlan(db: Db, pid: Id, q: Buyer, plan: Plan, refundGranted: bool): Db
    requires pid in db.payments && db.payments[pid].targetId.Some?
  {
    var p := db.payments[pid];
    if !plan.active then Settle(db, pid, p.orderId, RefundStatus(refundGranted))
    else
      var r := BuyPlan(db, q, PlanEntry(p), plan, p.baseAmount);
      if r.verdict == Done then ReleaseForPayment(r.db, pid) else Conclude(r, pid, p.orderId, refundGranted)
  }

  /** A plan payment uses the entry of its own plan, or else the first entry stored. */
  function PlanEntry(p: Payment): Option<BundleEntry>
    requires p.targetId.Some?
  {
    var own := FindEntry(p.bundles, p.targetId.value);
    if own.Some? then own else if p.bundles == [] then None else Some(p.bundles[0])
  }

  function ChargeSuccess(db: Db, pid: Id, refundGranted: bool, now: int): Db {
    if pid !in db.payments then db
    else if db.payments[pid].status == Success || db.payments[pid].status == Refunded then db
    else ApplySuccess(SetStatus(db, pid, Success), pid, refundGranted, now)
  }

  /** charge.failed marks any payment that is not refunded, whatever it was before. */
  function ChargeFailed(db: Db, pid: Id): Db {
    if pid !in db.payments then db
    else
      var marked := if db.payments[pid].status == Refunded then db else SetStatus(db, pid, Failed);
      ReleaseAll(marked, pid, db.payments[pid].orderId)
  }

  /** Confirmation of a bank transfer by an administrator. */
  function AdminVerify(db: Db, pid: Id, refundGranted: bool, now: int): Db {
    if pid !in db.payments || !db.payments[pid].manual || db.payments[pid].status != Pending then db
    else ApplySuccess(SetStatus(db, pid, Success), pid, refundGranted, now)
  }

  function CancelPending(db: Db, pid: Id): Db {
    if pid !in db.payments || db.payments[pid].status != Pending then db
    else Settle(db, pid, db.payments[pid].orderId, Failed)
  }
}
