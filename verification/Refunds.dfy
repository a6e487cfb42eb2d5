/**
 * What a refund does to the tables: the specification of reverseFulfillment and the functions below it
 * (src/payments/paystack.service.ts).
 */
module Refunds {
  import opened Common
  import opened CompanyTier
  import opened Tables
  import opened Inventory
  import opened Fulfilment

  /** Give the row back if this party still holds it. */
  function ReleaseAsset(db: Db, id: AssetId, party: Option<Id>): Db {
    if id in db.assets && party.Some? && db.assets[id].owner == party
    then db.(assets := db.assets[id := db.assets[id].(taken := false, owner := None)])
    else db
  }

  /** The tiers of the booths a company holds. */
  function HeldTiers(assets: map<AssetId, Asset>, company: Id): set<Tier> {
    set a | a in assets && a.kind == Booth && assets[a].taken && assets[a].owner == Some(company)
        && assets[a].tier.Some?
      :: assets[a].tier.value
  }

  predicate CountsForTier(p: Payment, company: Id) {
    p.companyId == Some(company) && p.status == Success && (p.kind == PlanPayment || p.kind == OrderPayment)
  }

  /** The tiers of the plans in a company's successful payments, one payment left out. */
  function PlanTiers(payments: map<Id, Payment>, plans: map<Id, Plan>, company: Id, except: Option<Id>): set<Tier> {
    set pid, k | pid in payments && Some(pid) != except && CountsForTier(payments[pid], company)
                 && 0 <= k < |payments[pid].bundles| && payments[pid].bundles[k].planId in plans
      :: plans[payments[pid].bundles[k].planId].tier
  }

  /** The tiers that still speak for a company: its booths and the plans of its other successful payments. */
  function TierEvidence(db: Db, company: Id, except: Option<Id>): set<Tier> {
    HeldTiers(db.assets, company) + PlanTiers(db.payments, db.plans, company, except)
  }

  function RecomputeTier(db: Db, company: Option<Id>, except: Id): Db {
    if !HasCompany(db, company) then db
    else
      var tier := BestTier(TierEvidence(db, company.value, Some(except)));
      db.(companies := db.companies[company.value := db.companies[company.value].(tier := tier)])
  }

  function ReverseBooth(db: Db, boothId: Option<Id>, company: Option<Id>, pid: Id): Db {
    if boothId.None? || company.None? then db
    else RecomputeTier(ReleaseAsset(db, AssetId(Booth, boothId.value), company), company, pid)
  }

  function ReverseAsset(db: Db, kind: AssetKind, id: Option<Id>, party: Option<Id>): Db {
    if id.None? then db else ReleaseAsset(db, AssetId(kind, id.value), party)
  }

  /** reverseAdvertSlotAsset and reverseBrandingSlotAsset; a slot that no longer exists is reported and skipped. */
  function ReverseSlot(db: Db, company: Option<Id>, s: SlotId): Db {
    if s !in db.slots || company.None? then db
    else db.(slots := Credit(db.slots, multiset{s}), assignments := db.assignments - {(company.value, s)})
  }

  function ReverseSlots(db: Db, company: Option<Id>, ids: seq<SlotId>): Db
    decreases ids
  {
    if ids == [] then db else ReverseSlots(ReverseSlot(db, company, ids[0]), company, ids[1..])
  }

  function ReverseBundle(db: Db, company: Option<Id>, pid: Id, entry: Option<BundleEntry>): Db {
    if entry.None? then db
    else
      var e := entry.value;
      var booth := ReverseBooth(db, e.boothId, company, pid);
      var masterclass := ReverseAsset(booth, Masterclass, e.masterclassId, company);
      var presentation := ReverseAsset(masterclass, Presentation, e.presentationId, company);
      ReverseSlots(presentation, company, e.slots)
  }

  function SubtractSponsorship(db: Db, company: Option<Id>, kobo: int): Db {
    if !HasCompany(db, company) then db
    else
      var c := db.companies[company.value];
      db.(companies := db.companies[company.value := c.(paidTotal := c.paidTotal - kobo)])
  }

  /** Who holds what this payment bought. */
  function Holder(p: Payment, kind: AssetKind): Option<Id> {
    if kind == HotelRoom then Some(p.userId) else p.companyId
  }

  function ReverseItem(db: Db, p: Payment, pid: Id, item: Item): Db {
    match item
    case AssetItem(kind, id) =>
      if kind == Booth then ReverseBooth(db, id, p.companyId, pid)
      else ReverseAsset(db, kind, id, Holder(p, kind))
    case SlotItem(kind, id) =>
      if id.None? then db else ReverseSlot(db, p.companyId, SlotId(kind, id.value))
    case PlanItem(planId, unit, quantity) =>
      if planId.None? || p.companyId.None? then db
      else
        SubtractSponsorship(
          ReverseBundle(db, p.companyId, pid, FindEntry(p.bundles, planId.value)), p.companyId, unit * quantity)
  }

  function ReverseItems(db: Db, p: Payment, pid: Id, items: seq<Item>): Db
    decreases items
  {
    if items == [] then db else ReverseItems(ReverseItem(db, p, pid, items[0]), p, pid, items[1..])
  }

  function Reverse(db: Db, pid: Id): Db
    requires pid in db.payments
  {
    var p := db.payments[pid];
    match p.kind
    case OrderPayment =>
      if p.orderId.None? || p.orderId.value !in db.orders then db
      else RecomputeTier(ReverseItems(db, p, pid, db.orders[p.orderId.value].items), p.companyId, pid)
    case AssetPayment(kind) => ReverseItem(db, p, pid, AssetItem(kind, p.targetId))
    case SlotPayment(kind) => ReverseItem(db, p, pid, SlotItem(kind, p.targetId))
    case PlanPayment =>
      if p.companyId.None? then db
      else
        var entry := if p.bundles == [] then None else Some(p.bundles[0]);
        RecomputeTier(
          SubtractSponsorship(ReverseBundle(db, p.companyId, pid, entry), p.companyId, p.baseAmount),
          p.companyId, pid)
  }

  /** An administrator's refund, and the refund.processed webhook: only successful payments are reversed. */
  function RefundPayment(db: Db, pid: Id): Db {
    if pid !in db.payments || db.payments[pid].status != Success then db
    else SetStatus(Reverse(db, pid), pid, Refunded)
  }
}
