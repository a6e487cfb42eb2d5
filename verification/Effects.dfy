/** Closed forms: what fulfilling or reversing lines does to each table, whatever the lines are. */
module Effects {
  import opened Common
  import opened CompanyTier
  import opened CheckoutHold
  import opened Tables
  import opened Inventory
  import opened Fulfilment

  // ---- Footprints ------------------------------------------------------------------------

  function One(kind: AssetKind, id: Option<Id>): set<AssetId> {
    if id.None? then {} else {AssetId(kind, id.value)}
  }

  function EntryAssets(e: Option<BundleEntry>): set<AssetId> {
    if e.None? then {}
    else
      One(Booth, e.value.boothId) + One(Masterclass, e.value.masterclassId)
      + One(Presentation, e.value.presentationId)
  }

  function EntrySlots(e: Option<BundleEntry>): multiset<SlotId> {
    if e.None? then multiset{} else multiset(e.value.slots)
  }

  function ItemEntry(item: Item, bundles: seq<BundleEntry>): Option<BundleEntry> {
    if item.PlanItem? && item.planId.Some? then FindEntry(bundles, item.planId.value) else None
  }

  function ItemAssets(item: Item, bundles: seq<BundleEntry>): set<AssetId> {
    if item.AssetItem? then One(item.asset, item.assetId) else EntryAssets(ItemEntry(item, bundles))
  }

  function ItemSlots(item: Item, bundles: seq<BundleEntry>): multiset<SlotId> {
    if item.SlotItem?
    then (if item.slotId.None? then multiset{} else multiset{SlotId(item.slot, item.slotId.value)})
    else EntrySlots(ItemEntry(item, bundles))
  }

  function ItemKobo(item: Item): int {
    if item.PlanItem? && item.planId.Some? then item.unit * item.quantity else 0
  }

  function ItemsAssets(items: seq<Item>, bundles: seq<BundleEntry>): set<AssetId> {
    if items == [] then {} else ItemAssets(items[0], bundles) + ItemsAssets(items[1..], bundles)
  }

  function ItemsSlots(items: seq<Item>, bundles: seq<BundleEntry>): multiset<SlotId> {
    if items == [] then multiset{} else ItemSlots(items[0], bundles) + ItemsSlots(items[1..], bundles)
  }

  function ItemsKobo(items: seq<Item>): int {
    if items == [] then 0 else ItemKobo(items[0]) + ItemsKobo(items[1..])
  }

  // ---- Fulfilment ------------------------------------------------------------------------

  /** A row before and after a fulfilment step: untouched, or newly in the hands of the buyer. */
  predicate Claimed(before: Asset, after: Asset, party: Option<Id>, q: Buyer) {
    || after == before
    || (&& !IsBlockedByOther(before.hold, q.exclude, q.now)
        && (before.taken ==> before.owner == party)
        && after.taken && after.owner == party && party.Some?
        && after.tier == before.tier && after.published == before.published
        && after.duration == before.duration && after.day == before.day
        && (after.hold == before.hold || after.hold == NO_HOLD))
  }

  /** Sessions are sold when published, and nothing reserved is sold but a booth inside a bundle. */
  predicate IsForSale(x: AssetId, row: Asset) {
    (IsSession(x.kind) ==> row.published) && (row.reserved ==> x.kind == Booth)
  }

  ghost predicate Claims(before: map<AssetId, Asset>, after: map<AssetId, Asset>, q: Buyer, a: set<AssetId>) {
    && after.Keys == before.Keys
    && (forall x | x in before :: Claimed(before[x], after[x], Party(q, x.kind), q))
    && (forall x | x in before && after[x] != before[x] :: IsForSale(x, before[x]))
    && (forall x | x in before && x !in a :: after[x] == before[x])
  }

  ghost predicate HeldBy(assets: map<AssetId, Asset>, q: Buyer, a: set<AssetId>) {
    forall x | x in a :: x in assets && assets[x].taken && assets[x].owner == Party(q, x.kind)
  }

  lemma ClaimsOne(m: map<AssetId, Asset>, q: Buyer, id: AssetId, row: Asset)
    requires id in m && Claimed(m[id], row, Party(q, id.kind), q) && (row != m[id] ==> IsForSale(id, m[id]))
    ensures Claims(m, m[id := row], q, {id})
  {
  }

  lemma ClaimsCompose(m0: map<AssetId, Asset>, m1: map<AssetId, Asset>, m2: map<AssetId, Asset>, q: Buyer,
                      a: set<AssetId>, b: set<AssetId>)
    requires Claims(m0, m1, q, a) && Claims(m1, m2, q, b)
    ensures Claims(m0, m2, q, a + b)
    ensures HeldBy(m1, q, a) ==> HeldBy(m2, q, a)
    ensures HeldBy(m1, q, a) && HeldBy(m2, q, b) ==> HeldBy(m2, q, a + b)
  {
    forall x | x in m0 ensures Claimed(m0[x], m2[x], Party(q, x.kind), q) {
      assert x in m1;
    }
  }

  /** Only the buyer's company row changes, and only its tier and total. */
  ghost predicate CompaniesMoved(before: map<Id, Company>, after: map<Id, Company>, c: Option<Id>, kobo: int) {
    && after.Keys == before.Keys
    && (forall x | x in before && Some(x) != c :: after[x] == before[x])
    && (c.Some? && c.value in before ==> after[c.value].paidTotal == before[c.value].paidTotal + kobo)
  }

  ghost predicate SameRows(before: Db, after: Db) {
    && after.payments == before.payments && after.orders == before.orders && after.plans == before.plans
    && after.slotHolds == before.slotHolds
  }

  /** Every slot of `m` exists and has that many copies left. */
  ghost predicate Affordable(slots: map<SlotId, Slot>, m: multiset<SlotId>) {
    forall s | s in m :: s in slots && m[s] <= slots[s].available
  }

  lemma AffordableCompose(slots: map<SlotId, Slot>, m: multiset<SlotId>, n: multiset<SlotId>)
    requires Affordable(slots, m) && Affordable(Debit(slots, m), n)
    ensures Affordable(slots, m + n)
  {
    forall s | s in m + n ensures s in slots && (m + n)[s] <= slots[s].available {
      assert s in m || s in n;
    }
  }

  /** When a whole bundle was served, its copies were there. */
  lemma {:induction false} ServedIsAffordable(slots: map<SlotId, Slot>, ids: seq<SlotId>, n: nat)
    requires n <= |ids| && forall k | 0 <= k < n :: CanTakeCopy(slots, ids[..k], ids[k])
    ensures Affordable(slots, multiset(ids[..n]))
  {
    if n > 0 {
      ServedIsAffordable(slots, ids, n - 1);
      assert CanTakeCopy(slots, ids[..n - 1], ids[n - 1]);
      assert ids[..n] == ids[..n - 1] + [ids[n - 1]];
    }
  }

  lemma AllServed(slots: map<SlotId, Slot>, ids: seq<SlotId>)
    requires Served(slots, ids, 0) == |ids|
    ensures Affordable(slots, multiset(ids))
  {
    var n := Served(slots, ids, 0);
    assert forall k | 0 <= k < n :: CanTakeCopy(slots, ids[..k], ids[k]);
    hide Served, Affordable;
    ServedIsAffordable(slots, ids, n);
    assert ids[..n] == ids;
  }

  lemma NothingIsAffordable(slots: map<SlotId, Slot>)
    ensures Affordable(slots, multiset{})
  {
  }

  /**
   * One fulfilment step or many: `a` are the rows it may claim, `m` the copies it takes, `kobo` what it adds to
   * the sponsor total. When it is `done`, every row of `a` is held and every copy of `m` is assigned.
   */
  ghost predicate Effect(before: Db, after: Db, q: Buyer, a: set<AssetId>, m: multiset<SlotId>, kobo: int, done: bool) {
    && SameRows(before, after)
    && Claims(before.assets, after.assets, q, a)
    && CompaniesMoved(before.companies, after.companies, q.company, kobo)
    && after.slots == Debit(before.slots, m) && Affordable(before.slots, m)
    && (done ==> HeldBy(after.assets, q, a) && after.assignments == before.assignments + Copies(q.company, m))
  }

  lemma EffectNone(db: Db, q: Buyer, a: set<AssetId>, done: bool)
    requires done ==> a == {}
    ensures Effect(db, db, q, a, multiset{}, 0, done)
  {
  }

  lemma EffectWiden(before: Db, after: Db, q: Buyer, a: set<AssetId>, b: set<AssetId>, m: multiset<SlotId>, kobo: int)
    requires Effect(before, after, q, a, m, kobo, false) && a <= b
    ensures Effect(before, after, q, b, m, kobo, false)
  {
  }

  lemma EffectCompose(d0: Db, d1: Db, d2: Db, q: Buyer, a: set<AssetId>, b: set<AssetId>,
                      m: multiset<SlotId>, n: multiset<SlotId>, k: int, l: int, done: bool)
    requires Effect(d0, d1, q, a, m, k, true) && Effect(d1, d2, q, b, n, l, done)
    ensures Effect(d0, d2, q, a + b, m + n, k + l, done)
  {
    hide Claims, HeldBy, Debit, Copies, Affordable;
    AffordableCompose(d0.slots, m, n);
    ClaimsCompose(d0.assets, d1.assets, d2.assets, q, a, b);
    DebitCompose(d0.slots, m, n);
    CopiesCompose(q.company, m, n);
    assert d0.assignments + Copies(q.company, m) + Copies(q.company, n)
           == d0.assignments + Copies(q.company, m + n);
  }

  lemma RaiseTierEffect(db: Db, company: Option<Id>, tier: Option<Tier>)
    ensures var r := RaiseTier(db, company, tier);
      && r == db.(companies := r.companies) && CompaniesMoved(db.companies, r.companies, company, 0)
  {
  }

  lemma TakeLineEffect(db: Db, q: Buyer, id: AssetId)
    requires Party(q, id.kind).Some?
    ensures var r := TakeLine(db, q, id); Effect(db, r.db, q, {id}, multiset{}, 0, r.verdict == Done)
  {
    hide RaiseTier, Claims, OwnBooths, BreaksUniqueKey, Debit, Copies;
    if id in db.assets && !IsRefused(q, id, db.assets[id], false) {
      var row := db.assets[id].(taken := true, owner := Party(q, id.kind));
      ClaimsOne(db.assets, q, id, row);
      RaiseTierEffect(db.(assets := db.assets[id := row]), q.company, row.tier);
    }
    EffectNone(db, q, {id}, false);
    CopiesCompose(q.company, multiset{}, multiset{});
    DebitCompose(db.slots, multiset{}, multiset{});
  }

  lemma TakeBundleBoothEffect(db: Db, q: Buyer, boothId: Option<Id>)
    requires q.company.Some?
    ensures var r := TakeBundleBooth(db, q, boothId);
      Effect(db, r.db, q, One(Booth, boothId), multiset{}, 0, r.verdict == Done)
  {
    hide RaiseTier, Claims, OwnBooths, BreaksUniqueKey, Debit, Copies;
    var id := AssetId(Booth, if boothId.Some? then boothId.value else 0);
    if boothId.Some? && id in db.assets && !IsRefused(q, id, db.assets[id], true) {
      var row := db.assets[id].(taken := true, owner := q.company, reserved := false, hold := NO_HOLD);
      ClaimsOne(db.assets, q, id, row);
      RaiseTierEffect(db.(assets := db.assets[id := row]), q.company, row.tier);
    }
    EffectNone(db, q, One(Booth, boothId), boothId.None?);
    CopiesCompose(q.company, multiset{}, multiset{});
    DebitCompose(db.slots, multiset{}, multiset{});
  }

  lemma TakeBundleSessionEffect(db: Db, q: Buyer, kind: AssetKind, sessionId: Option<Id>)
    requires q.company.Some? && kind != HotelRoom
    ensures var r := TakeBundleSession(db, q, kind, sessionId);
      Effect(db, r.db, q, One(kind, sessionId), multiset{}, 0, r.verdict == Done)
  {
    hide Claims, Debit, Copies;
    var id := AssetId(kind, if sessionId.Some? then sessionId.value else 0);
    if sessionId.Some? && id in db.assets && !IsRefused(q, id, db.assets[id], true) {
      ClaimsOne(db.assets, q, id, db.assets[id]);
      assert db.assets[id := db.assets[id]] == db.assets;
      var row := db.assets[id].(taken := true, owner := q.company, hold := NO_HOLD);
      ClaimsOne(db.assets, q, id, row);
    }
    EffectNone(db, q, One(kind, sessionId), sessionId.None?);
    CopiesCompose(q.company, multiset{}, multiset{});
    DebitCompose(db.slots, multiset{}, multiset{});
  }

  lemma TakeBundleSlotsEffect(db: Db, q: Buyer, ids: seq<SlotId>)
    ensures var r := TakeBundleSlots(db, q, ids);
      Effect(db, r.db, q, {}, if r.verdict == Done then multiset(ids) else multiset{}, 0, r.verdict == Done)
  {
    hide Debit, Copies, Served, Affordable;
    DebitCompose(db.slots, multiset{}, multiset{});
    NothingIsAffordable(db.slots);
    if Served(db.slots, ids, 0) == |ids| { AllServed(db.slots, ids); }
  }

  lemma TakeBundleRowsEffect(db: Db, q: Buyer, e: BundleEntry)
    requires q.company.Some?
    ensures var r := TakeBundleRows(db, q, e);
      Effect(db, r.db, q, EntryAssets(Some(e)), multiset{}, 0, r.verdict == Done)
  {
    hide TakeBundleBooth, TakeBundleSession, Effect, One;
    var a1, a2, a3 := One(Booth, e.boothId), One(Masterclass, e.masterclassId), One(Presentation, e.presentationId);
    var none: multiset<SlotId> := multiset{};
    assert none + none == none;
    var r1 := TakeBundleBooth(db, q, e.boothId);
    TakeBundleBoothEffect(db, q, e.boothId);
    if r1.verdict != Done { EffectWiden(db, r1.db, q, a1, a1 + a2 + a3, none, 0); return; }
    var r2 := TakeBundleSession(r1.db, q, Masterclass, e.masterclassId);
    TakeBundleSessionEffect(r1.db, q, Masterclass, e.masterclassId);
    EffectCompose(db, r1.db, r2.db, q, a1, a2, none, none, 0, 0, r2.verdict == Done);
    if r2.verdict != Done { EffectWiden(db, r2.db, q, a1 + a2, a1 + a2 + a3, none, 0); return; }
    var r3 := TakeBundleSession(r2.db, q, Presentation, e.presentationId);
    TakeBundleSessionEffect(r2.db, q, Presentation, e.presentationId);
    EffectCompose(db, r2.db, r3.db, q, a1 + a2, a3, none, none, 0, 0, r3.verdict == Done);
  }

  lemma TakeBundleEffect(db: Db, q: Buyer, e: BundleEntry)
    requires q.company.Some?
    ensures var r := TakeBundle(db, q, e);
      Effect(db, r.db, q, EntryAssets(Some(e)), if r.verdict == Done then multiset(e.slots) else multiset{}, 0,
             r.verdict == Done)
  {
    hide TakeBundleRows, TakeBundleSlots, Effect, EntryAssets;
    var rows := TakeBundleRows(db, q, e);
    TakeBundleRowsEffect(db, q, e);
    if rows.verdict == Done {
      var r := TakeBundleSlots(rows.db, q, e.slots);
      var m := if r.verdict == Done then multiset(e.slots) else multiset{};
      TakeBundleSlotsEffect(rows.db, q, e.slots);
      EffectCompose(db, rows.db, r.db, q, EntryAssets(Some(e)), {}, multiset{}, m, 0, 0, r.verdict == Done);
      assert EntryAssets(Some(e)) + {} == EntryAssets(Some(e)) && multiset{} + m == m;
    }
  }

  lemma AddSponsorshipEffect(db: Db, q: Buyer, plan: Plan, kobo: int)
    ensures HasCompany(db, q.company) ==> Effect(db, AddSponsorship(db, q, plan, kobo), q, {}, multiset{}, kobo, true)
  {
    EffectNone(db, q, {}, true);
  }

  lemma BuyPlanEffect(db: Db, q: Buyer, entry: Option<BundleEntry>, plan: Plan, kobo: int)
    requires q.company.Some? && q.company.value in db.companies
    ensures var r := BuyPlan(db, q, entry, plan, kobo);
      Effect(db, r.db, q, EntryAssets(entry), if r.verdict == Done then EntrySlots(entry) else multiset{},
             if r.verdict == Done then kobo else 0, r.verdict == Done)
  {
    hide TakeBundle, AddSponsorship, Claims, HeldBy, Affordable, Debit, Copies;
    var taken := if entry.Some? then TakeBundle(db, q, entry.value) else Outcome(db, Done);
    if entry.Some? { TakeBundleEffect(db, q, entry.value); } else { EffectNone(db, q, {}, true); }
    if taken.verdict == Done {
      assert HasCompany(taken.db, q.company);
      AddSponsorshipEffect(taken.db, q, plan, kobo);
      hide Effect, EntryAssets, EntrySlots, HasCompany;
      EffectCompose(db, taken.db, AddSponsorship(taken.db, q, plan, kobo), q, EntryAssets(entry), {},
                    EntrySlots(entry), multiset{}, 0, kobo, true);
      assert EntryAssets(entry) + {} == EntryAssets(entry);
      assert EntrySlots(entry) + multiset{} == EntrySlots(entry);
    }
  }

  lemma TakeSlotCopyEffect(db: Db, q: Buyer, s: SlotId)
    ensures var r := TakeSlotCopy(db, q, s);
      Effect(db, r.db, q, {}, if r.verdict == Done then multiset{s} else multiset{}, 0, r.verdict == Done)
  {
    hide Debit, Copies;
    DebitCompose(db.slots, multiset{}, multiset{});
  }

  ghost predicate ItemEffect(before: Db, after: Db, q: Buyer, bundles: seq<BundleEntry>, item: Item, done: bool) {
    Effect(before, after, q, ItemAssets(item, bundles), if done then ItemSlots(item, bundles) else multiset{},
           if done then ItemKobo(item) else 0, done)
  }

  lemma FulfilItemEffect(db: Db, q: Buyer, bundles: seq<BundleEntry>, item: Item)
    requires q.company.Some? ==> q.company.value in db.companies
    ensures var r := FulfilItem(db, q, bundles, item);
      ItemEffect(db, r.db, q, bundles, item, r.verdict == Done)
  {
    hide TakeLine, TakeSlotCopy, BuyPlan, Effect;
    EffectNone(db, q, ItemAssets(item, bundles), false);
    match item
    case AssetItem(kind, id) =>
      if id.Some? && Party(q, kind).Some? { TakeLineEffect(db, q, AssetId(kind, id.value)); }
    case SlotItem(kind, id) =>
      if id.Some? { TakeSlotCopyEffect(db, q, SlotId(kind, id.value)); }
    case PlanItem(planId, unit, quantity) =>
      if planId.Some? && q.company.Some? && planId.value in db.plans {
        BuyPlanEffect(db, q, FindEntry(bundles, planId.value), db.plans[planId.value], unit * quantity);
      }
  }

  lemma EffectKeepsCompanies(before: Db, after: Db, q: Buyer, a: set<AssetId>, m: multiset<SlotId>, kobo: int,
                             done: bool)
    requires Effect(before, after, q, a, m, kobo, done)
    ensures after.companies.Keys == before.companies.Keys
  {
  }

  /** Fulfilling any number of lines: exactly the served lines' footprint reaches counters, assignments and totals. */
  lemma {:induction false} FulfilItemsEffect(db: Db, q: Buyer, bundles: seq<BundleEntry>, items: seq<Item>)
    requires q.company.Some? ==> q.company.value in db.companies
    ensures var r := FulfilItems(db, q, bundles, items);
      Effect(db, r.db, q, ItemsAssets(items, bundles), ItemsSlots(items[..r.served], bundles),
             ItemsKobo(items[..r.served]), r.verdict == Done)
    decreases items
  {
    hide FulfilItem, ItemAssets, ItemSlots, ItemKobo, Effect;
    var r := FulfilItems(db, q, bundles, items);
    if items == [] {
      EffectNone(db, q, {}, true);
    } else {
      FulfilItemEffect(db, q, bundles, items[0]);
      var first := FulfilItem(db, q, bundles, items[0]);
      if first.verdict == Done {
        var rest := FulfilItems(first.db, q, bundles, items[1..]);
        EffectKeepsCompanies(db, first.db, q, ItemAssets(items[0], bundles), ItemSlots(items[0], bundles),
                             ItemKobo(items[0]), true);
        FulfilItemsEffect(first.db, q, bundles, items[1..]);
        assert items[..r.served][1..] == items[1..][..rest.served];
        EffectCompose(db, first.db, rest.db, q, ItemAssets(items[0], bundles), ItemsAssets(items[1..], bundles),
                      ItemSlots(items[0], bundles), ItemsSlots(items[1..][..rest.served], bundles),
                      ItemKobo(items[0]), ItemsKobo(items[1..][..rest.served]), rest.verdict == Done);
      } else {
        EffectWiden(db, first.db, q, ItemAssets(items[0], bundles), ItemsAssets(items, bundles), multiset{}, 0);
      }
    }
  }
}
