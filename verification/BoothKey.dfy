/** The unique key on Booth.takenById over whole runs: a company never holds two booths. */
module BoothKey {
  import opened Common
  import opened CompanyTier
  import opened Tables
  import opened Inventory
  import opened Fulfilment
  import opened Refunds
  import opened Machine
  import opened Charges
  import opened RefundUndo
  import opened Ownership

  predicate UniqueBooths(assets: map<AssetId, Asset>) {
    forall a, b | a in assets && b in assets && a.kind == Booth && b.kind == Booth ::
      assets[a].owner.Some? && assets[a].owner == assets[b].owner ==> a == b
  }

  lemma FewerOwnersStayUnique(before: map<AssetId, Asset>, after: map<AssetId, Asset>)
    requires UniqueBooths(before) && NoNewOwners(before, after)
    ensures UniqueBooths(after)
  {
  }

  lemma TakeLineKeepsKey(db: Db, q: Buyer, id: AssetId)
    requires UniqueBooths(db.assets)
    ensures UniqueBooths(TakeLine(db, q, id).db.assets)
  {
    assert forall d: Db, t: Option<Tier> :: RaiseTier(d, q.company, t).assets == d.assets;
    hide RaiseTier, IsRefused;
  }

  lemma TakeBundleBoothKeepsKey(db: Db, q: Buyer, boothId: Option<Id>)
    requires UniqueBooths(db.assets)
    ensures UniqueBooths(TakeBundleBooth(db, q, boothId).db.assets)
  {
    assert forall d: Db, t: Option<Tier> :: RaiseTier(d, q.company, t).assets == d.assets;
    hide RaiseTier, IsRefused;
  }

  lemma TakeBundleSessionKeepsKey(db: Db, q: Buyer, kind: AssetKind, id: Option<Id>)
    requires UniqueBooths(db.assets) && kind != Booth
    ensures UniqueBooths(TakeBundleSession(db, q, kind, id).db.assets)
  {
    hide IsRefused;
  }

  lemma TakeBundleKeepsKey(db: Db, q: Buyer, e: BundleEntry)
    requires UniqueBooths(db.assets)
    ensures UniqueBooths(TakeBundle(db, q, e).db.assets)
  {
    hide UniqueBooths, TakeBundleBooth, TakeBundleSession, Served, Debit, Copies;
    var booth := TakeBundleBooth(db, q, e.boothId).db;
    var masterclass := TakeBundleSession(booth, q, Masterclass, e.masterclassId).db;
    TakeBundleBoothKeepsKey(db, q, e.boothId);
    TakeBundleSessionKeepsKey(booth, q, Masterclass, e.masterclassId);
    TakeBundleSessionKeepsKey(masterclass, q, Presentation, e.presentationId);
  }

  lemma FulfilItemKeepsKey(db: Db, q: Buyer, bundles: seq<BundleEntry>, item: Item)
    requires UniqueBooths(db.assets)
    ensures UniqueBooths(FulfilItem(db, q, bundles, item).db.assets)
  {
    hide UniqueBooths, TakeLine, TakeBundle, FindEntry;
    match item
    case AssetItem(kind, id) => if id.Some? { TakeLineKeepsKey(db, q, AssetId(kind, id.value)); }
    case SlotItem(_, _) =>
    case PlanItem(planId, _, _) =>
      if planId.Some? && FindEntry(bundles, planId.value).Some? {
        TakeBundleKeepsKey(db, q, FindEntry(bundles, planId.value).value);
      }
  }

  lemma {:induction false} FulfilItemsKeepKey(db: Db, q: Buyer, bundles: seq<BundleEntry>, items: seq<Item>)
    requires UniqueBooths(db.assets)
    ensures UniqueBooths(FulfilItems(db, q, bundles, items).db.assets)
    decreases items
  {
    hide UniqueBooths, FulfilItem;
    if items != [] {
      FulfilItemKeepsKey(db, q, bundles, items[0]);
      FulfilItemsKeepKey(FulfilItem(db, q, bundles, items[0]).db, q, bundles, items[1..]);
    }
  }

  lemma DeliveryKeepsKey(db: Db, pid: Id, refundGranted: bool, now: int)
    requires Stored(db) && UniqueBooths(db.assets) && pid in db.payments
    ensures UniqueBooths(ApplySuccess(SetStatus(db, pid, Success), pid, refundGranted, now).assets)
  {
    var marked := SetStatus(db, pid, Success);
    var p := marked.payments[pid];
    assert marked.assets == db.assets && WellFormed(db.payments[pid]) && WellFormed(p);
    var mid := Mid(marked, pid, now);
    assert mid == marked || mid == FulfilItems(marked, PaymentBuyer(marked, pid, now), p.bundles, Lines(marked, p)).db;
    hide *;
    FulfilItemsKeepKey(marked, PaymentBuyer(marked, pid, now), p.bundles, Lines(marked, p));
    var d := ApplySuccess(marked, pid, refundGranted, now);
    DeliveryEffect(marked, pid, refundGranted, now);
    TidiedTakesNoRow(mid, d, pid, StatusAfter(marked, pid, refundGranted, now));
    FewerOwnersStayUnique(mid.assets, d.assets);
  }

  lemma KeyStep(w: World, e: Event)
    requires Stored(w.db) && UniqueBooths(w.db.assets)
    ensures UniqueBooths(Next(w, e).assets)
  {
    hide Stored, UniqueBooths, NoNewOwners, ApplySuccess, RefundPayment, Checkout, InitPlan, InitSingle, ChargeFailed,
         CancelPending, ReleaseExpired, SetStatus, Debit, Credit, KeepHolds, Without;
    var d := Next(w, e);
    if e.EChargeSuccess? || e.EAdminVerify? {
      if d != w.db { DeliveryKeepsKey(w.db, e.pid, e.refundGranted, w.now); }
    } else {
      QuietStepTakesNoRow(w, e);
      FewerOwnersStayUnique(w.db.assets, d.assets);
    }
  }

  /** Over every run, with carts of any content: no company ever holds two booths. */
  lemma {:induction false} OneBoothPerCompany(w: World, events: seq<Event>)
    requires Stored(w.db) && Consistent(w.db.assets) && UniqueBooths(w.db.assets)
    ensures UniqueBooths(Run(w, events).db.assets)
    decreases events
  {
    if events != [] {
      KeyStep(w, events[0]);
      OwnershipStep(w, events[0]);
      hide Stored, UniqueBooths, Consistent, Next;
      OneBoothPerCompany(Step(w, events[0]), events[1..]);
    }
  }
}
