/** Closed form of a reversal: what every table holds after any number of lines were reversed. */
module Reversals {
  import opened Common
  import opened CompanyTier
  import opened Tables
  import opened Inventory
  import opened Fulfilment
  import opened Refunds
  import opened Effects
  import opened Charges

  predicate IsFreed(row: Asset, p: Payment, kind: AssetKind) {
    Holder(p, kind).Some? && row.owner == Holder(p, kind)
  }

  /** The rows of `a` that the payment's party still holds are given back. */
  function Freed(assets: map<AssetId, Asset>, p: Payment, a: set<AssetId>): map<AssetId, Asset> {
    map x | x in assets ::
      if x in a && IsFreed(assets[x], p, x.kind) then assets[x].(taken := false, owner := None) else assets[x]
  }

  function Refundable(p: Payment, m: multiset<SlotId>): multiset<SlotId> {
    if p.companyId.Some? then m else multiset{}
  }

  /** The assignments a reversal deletes: those of slots that still exist. */
  function Existing(slots: map<SlotId, Slot>, company: Option<Id>, m: multiset<SlotId>): set<(Id, SlotId)> {
    if company.None? then {} else set s | s in m && s in slots :: (company.value, s)
  }

  ghost predicate Undone(before: Db, after: Db, p: Payment, a: set<AssetId>, m: multiset<SlotId>, kobo: int) {
    && SameRows(before, after)
    && after.assets == Freed(before.assets, p, a)
    && after.slots == Credit(before.slots, Refundable(p, m))
    && after.assignments == before.assignments - Existing(before.slots, p.companyId, m)
    && CompaniesMoved(before.companies, after.companies, p.companyId, -kobo)
  }

  lemma UndoneNone(db: Db, p: Payment)
    ensures Undone(db, db, p, {}, multiset{}, 0)
  {
    DebitCompose(db.slots, multiset{}, multiset{});
  }

  lemma FreedCompose(assets: map<AssetId, Asset>, p: Payment, a: set<AssetId>, b: set<AssetId>)
    ensures Freed(Freed(assets, p, a), p, b) == Freed(assets, p, a + b)
  {
  }

  lemma UndoneCompose(d0: Db, d1: Db, d2: Db, p: Payment, a: set<AssetId>, b: set<AssetId>,
                      m: multiset<SlotId>, n: multiset<SlotId>, k: int, l: int)
    requires Undone(d0, d1, p, a, m, k) && Undone(d1, d2, p, b, n, l)
    ensures Undone(d0, d2, p, a + b, m + n, k + l)
  {
    hide Freed;
    FreedCompose(d0.assets, p, a, b);
    DebitCompose(d0.slots, Refundable(p, m), Refundable(p, n));
    assert Refundable(p, m + n) == Refundable(p, m) + Refundable(p, n);
    assert Existing(d0.slots, p.companyId, m) + Existing(d1.slots, p.companyId, n)
           == Existing(d0.slots, p.companyId, m + n);
  }

  lemma RecomputeTierUndone(before: Db, db: Db, p: Payment, company: Option<Id>, pid: Id,
                            a: set<AssetId>, m: multiset<SlotId>, kobo: int)
    requires Undone(before, db, p, a, m, kobo) && company == p.companyId
    ensures Undone(before, RecomputeTier(db, company, pid), p, a, m, kobo)
  {
    hide TierEvidence, BestTier, Freed, Credit, Existing;
  }

  lemma ReleaseAssetUndone(db: Db, p: Payment, id: AssetId)
    ensures Undone(db, ReleaseAsset(db, id, Holder(p, id.kind)), p, {id}, multiset{}, 0)
  {
    UndoneNone(db, p);
    hide Credit;
    DebitCompose(db.slots, multiset{}, multiset{});
    assert ReleaseAsset(db, id, Holder(p, id.kind)).assets == Freed(db.assets, p, {id});
  }

  lemma ReverseBoothUndone(db: Db, p: Payment, pid: Id, boothId: Option<Id>)
    ensures Undone(db, ReverseBooth(db, boothId, p.companyId, pid), p, One(Booth, boothId), multiset{}, 0)
  {
    UndoneNone(db, p);
    var id := AssetId(Booth, if boothId.Some? then boothId.value else 0);
    ReleaseAssetUndone(db, p, id);
    hide Undone, RecomputeTier, ReleaseAsset;
    if boothId.Some? && p.companyId.Some? {
      RecomputeTierUndone(db, ReleaseAsset(db, id, p.companyId), p, p.companyId, pid, {id}, multiset{}, 0);
    } else if boothId.Some? {
      assert ReleaseAsset(db, id, p.companyId) == db by { NoPartyNoRelease(db, id); }
    }
  }

  lemma NoPartyNoRelease(db: Db, id: AssetId)
    ensures ReleaseAsset(db, id, None) == db
  {
  }

  lemma ReverseAssetUndone(db: Db, p: Payment, kind: AssetKind, id: Option<Id>)
    ensures Undone(db, ReverseAsset(db, kind, id, Holder(p, kind)), p, One(kind, id), multiset{}, 0)
  {
    UndoneNone(db, p);
    if id.Some? { ReleaseAssetUndone(db, p, AssetId(kind, id.value)); }
  }

  lemma ReverseSlotUndone(db: Db, p: Payment, s: SlotId)
    ensures Undone(db, ReverseSlot(db, p.companyId, s), p, {}, multiset{s}, 0)
  {
    UndoneNone(db, p);
    hide Credit;
    DebitCompose(db.slots, multiset{}, multiset{});
    if s !in db.slots { CreditMissing(db.slots, s); }
  }

  lemma {:induction false} ReverseSlotsUndone(db: Db, p: Payment, ids: seq<SlotId>)
    ensures Undone(db, ReverseSlots(db, p.companyId, ids), p, {}, multiset(ids), 0)
    decreases ids
  {
    if ids == [] {
      UndoneNone(db, p);
    } else {
      hide Undone, ReverseSlot;
      var one := ReverseSlot(db, p.companyId, ids[0]);
      ReverseSlotUndone(db, p, ids[0]);
      ReverseSlotsUndone(one, p, ids[1..]);
      var nothing: set<AssetId> := {};
      UndoneCompose(db, one, ReverseSlots(one, p.companyId, ids[1..]), p, nothing, nothing,
                    multiset{ids[0]}, multiset(ids[1..]), 0, 0);
      assert ids == [ids[0]] + ids[1..] && nothing + nothing == nothing;
    }
  }

  lemma ReverseBundleUndone(db: Db, p: Payment, pid: Id, entry: Option<BundleEntry>)
    ensures Undone(db, ReverseBundle(db, p.companyId, pid, entry), p, EntryAssets(entry), EntrySlots(entry), 0)
  {
    UndoneNone(db, p);
    if entry.Some? {
      hide Undone, ReverseBooth, ReverseAsset, ReverseSlots, One;
      var e := entry.value;
      var none: multiset<SlotId> := multiset{};
      var a1, a2, a3 := One(Booth, e.boothId), One(Masterclass, e.masterclassId), One(Presentation, e.presentationId);
      var d1 := ReverseBooth(db, e.boothId, p.companyId, pid);
      var d2 := ReverseAsset(d1, Masterclass, e.masterclassId, p.companyId);
      var d3 := ReverseAsset(d2, Presentation, e.presentationId, p.companyId);
      ReverseBoothUndone(db, p, pid, e.boothId);
      ReverseAssetUndone(d1, p, Masterclass, e.masterclassId);
      ReverseAssetUndone(d2, p, Presentation, e.presentationId);
      ReverseSlotsUndone(d3, p, e.slots);
      UndoneCompose(db, d1, d2, p, a1, a2, none, none, 0, 0);
      UndoneCompose(db, d2, d3, p, a1 + a2, a3, none + none, none, 0, 0);
      UndoneCompose(db, d3, ReverseSlots(d3, p.companyId, e.slots), p, a1 + a2 + a3, {}, none + none + none,
                    multiset(e.slots), 0, 0);
      assert none + none + none + multiset(e.slots) == multiset(e.slots);
      assert a1 + a2 + a3 + {} == a1 + a2 + a3;
    }
  }

  lemma SubtractUndone(before: Db, db: Db, p: Payment, a: set<AssetId>, m: multiset<SlotId>, kobo: int)
    requires Undone(before, db, p, a, m, 0)
    ensures Undone(before, SubtractSponsorship(db, p.companyId, kobo), p, a, m, kobo)
  {
    hide Freed, Credit, Existing;
  }

  /** Without a company a reversal of company rows and copies is no reversal at all. */
  lemma UndoneWithoutCompany(db: Db, p: Payment, a: set<AssetId>, m: multiset<SlotId>, kobo: int)
    requires p.companyId.None? && forall x | x in a :: x.kind != HotelRoom
    ensures Undone(db, db, p, a, m, kobo)
  {
    DebitCompose(db.slots, multiset{}, multiset{});
  }

  lemma ReverseItemUndone(db: Db, p: Payment, pid: Id, item: Item)
    ensures Undone(db, ReverseItem(db, p, pid, item), p, ItemAssets(item, p.bundles), ItemSlots(item, p.bundles),
                   ItemKobo(item))
  {
    UndoneNone(db, p);
    if item.PlanItem? && item.planId.Some? && p.companyId.None? {
      UndoneWithoutCompany(db, p, ItemAssets(item, p.bundles), ItemSlots(item, p.bundles), ItemKobo(item));
    }
    hide Undone, ReverseBooth, ReverseAsset, ReverseSlots, ReverseBundle, SubtractSponsorship, One, EntryAssets,
         EntrySlots;
    match item
    case AssetItem(kind, id) =>
      if kind == Booth { ReverseBoothUndone(db, p, pid, id); } else { ReverseAssetUndone(db, p, kind, id); }
    case SlotItem(kind, id) =>
      if id.Some? { ReverseSlotUndone(db, p, SlotId(kind, id.value)); }
      assert EntrySlots(None) == multiset{} && EntryAssets(None) == {} by { NoEntry(); }
    case PlanItem(planId, unit, quantity) =>
      if planId.Some? && p.companyId.Some? {
        var entry := FindEntry(p.bundles, planId.value);
        ReverseBundleUndone(db, p, pid, entry);
        SubtractUndone(db, ReverseBundle(db, p.companyId, pid, entry), p, EntryAssets(entry), EntrySlots(entry),
                       unit * quantity);
      }
      assert EntrySlots(None) == multiset{} && EntryAssets(None) == {} by { NoEntry(); }
  }

  lemma NoEntry()
    ensures EntrySlots(None) == multiset{} && EntryAssets(None) == {}
  {
  }

  /** Reversing any number of lines frees exactly their rows, returns exactly their copies and subtracts their sum. */
  lemma {:induction false} ReverseItemsUndone(db: Db, p: Payment, pid: Id, items: seq<Item>)
    ensures Undone(db, ReverseItems(db, p, pid, items), p, ItemsAssets(items, p.bundles), ItemsSlots(items, p.bundles),
                   ItemsKobo(items))
    decreases items
  {
    if items == [] {
      UndoneNone(db, p);
    } else {
      hide Undone, ReverseItem, ItemAssets, ItemSlots, ItemKobo;
      var first := ReverseItem(db, p, pid, items[0]);
      ReverseItemUndone(db, p, pid, items[0]);
      ReverseItemsUndone(first, p, pid, items[1..]);
      UndoneCompose(db, first, ReverseItems(first, p, pid, items[1..]), p,
                    ItemAssets(items[0], p.bundles), ItemsAssets(items[1..], p.bundles),
                    ItemSlots(items[0], p.bundles), ItemsSlots(items[1..], p.bundles),
                    ItemKobo(items[0]), ItemsKobo(items[1..]));
    }
  }

  /** A reversal is the reversal of the payment's lines, and then perhaps the tier once more. */
  lemma ReverseShape(db: Db, pid: Id)
    requires pid in db.payments && WellFormed(db.payments[pid])
    ensures var p := db.payments[pid]; var lines := ReverseItems(db, p, pid, Lines(db, p));
      Reverse(db, pid) == lines || Reverse(db, pid) == RecomputeTier(lines, p.companyId, pid)
  {
    hide RecomputeTier, ReverseBundle, SubtractSponsorship, ReverseBooth, ReverseAsset, ReverseSlot;
    var p := db.payments[pid];
    var items := Lines(db, p);
    if !p.kind.OrderPayment? {
      assert items[1..] == [];
      assert ReverseItems(db, p, pid, items) == ReverseItem(db, p, pid, items[0]);
      if p.kind.PlanPayment? { assert FindEntry(p.bundles, p.targetId.value) == Some(p.bundles[0]); }
    }
  }

  /** The same for a whole payment of any kind. */
  lemma ReverseUndone(db: Db, pid: Id)
    requires pid in db.payments && WellFormed(db.payments[pid])
    ensures var p := db.payments[pid]; var items := Lines(db, p);
      Undone(db, Reverse(db, pid), p, ItemsAssets(items, p.bundles), ItemsSlots(items, p.bundles), ItemsKobo(items))
  {
    hide *;
    var p := db.payments[pid];
    var items := Lines(db, p);
    var lines := ReverseItems(db, p, pid, items);
    ReverseShape(db, pid);
    ReverseItemsUndone(db, p, pid, items);
    RecomputeTierUndone(db, lines, p, p.companyId, pid, ItemsAssets(items, p.bundles), ItemsSlots(items, p.bundles),
                        ItemsKobo(items));
  }

  /** The reversal of a plan payment reads the first entry stored, whichever plan it is for. */
  lemma FirstBundleIsReversed(db: Db, pid: Id)
    requires pid in db.payments && db.payments[pid].kind == PlanPayment && db.payments[pid].companyId.Some?
    ensures var p := db.payments[pid]; var first := if p.bundles == [] then None else Some(p.bundles[0]);
      Undone(db, Reverse(db, pid), p, EntryAssets(first), EntrySlots(first), p.baseAmount)
  {
    hide ReverseBundle, SubtractSponsorship, RecomputeTier, Undone, EntryAssets, EntrySlots;
    var p := db.payments[pid];
    var first := if p.bundles == [] then None else Some(p.bundles[0]);
    var bundle := ReverseBundle(db, p.companyId, pid, first);
    ReverseBundleUndone(db, p, pid, first);
    SubtractUndone(db, bundle, p, EntryAssets(first), EntrySlots(first), p.baseAmount);
    RecomputeTierUndone(db, SubtractSponsorship(bundle, p.companyId, p.baseAmount), p, p.companyId, pid,
                        EntryAssets(first), EntrySlots(first), p.baseAmount);
  }
}
