/** What checkouts and plan payments leave alone, and which booths they can ask for. */
module Resolutions {
  import opened Common
  import opened CheckoutHold
  import opened Tables
  import opened BundleResolution
  import opened Machine
  import opened Effects

  /** Only holds were placed. */
  ghost predicate OnlyHolds(before: Db, after: Db) {
    && after == before.(assets := after.assets, slotHolds := after.slotHolds)
    && after.assets.Keys == before.assets.Keys
    && forall a | a in before.assets :: after.assets[a] == before.assets[a].(hold := after.assets[a].hold)
  }

  lemma OnlyHoldsCompose(a: Db, b: Db, c: Db)
    requires OnlyHolds(a, b) && OnlyHolds(b, c)
    ensures OnlyHolds(a, c)
  {
  }

  lemma PutHoldOnlyHolds(db: Db, a: AssetId, hold: Hold)
    ensures OnlyHolds(db, PutHold(db, a, hold))
  {
  }

  lemma ResolvePlanOnlyHolds(db: Db, planId: Id, t: Target, expiresAt: int, now: int, rule: NullRule)
    ensures var r := ResolvePlan(db, planId, t, expiresAt, now, rule);
      r.Some? ==> OnlyHolds(db, r.value.db) && r.value.entry.planId == planId && planId in db.plans
                  && (r.value.entry.boothId.Some? ==> db.plans[planId].boothTier.Some?)
                  && r.value.entry.slots == db.plans[planId].slots
  {
    hide PutHold, OnlyHolds, SlotsAreAvailable, PickBooth, PickSession, SlotHolds;
    if PlanIsOffered(db, planId) {
      var p := PickRows(db, db.plans[planId], t, now);
      var hold := TargetHold(t, expiresAt);
      var d1 := HoldPick(db, p.booth, hold);
      var d2 := HoldPick(d1, p.masterclass, hold);
      var d3 := HoldPick(d2, p.presentation, hold);
      HoldPickOnlyHolds(db, p.booth, hold);
      HoldPickOnlyHolds(d1, p.masterclass, hold);
      HoldPickOnlyHolds(d2, p.presentation, hold);
      OnlyHoldsCompose(db, d1, d2);
      OnlyHoldsCompose(db, d2, d3);
      SlotHoldsOnlyHolds(db, d3, db.slotHolds + SlotHolds(db.plans[planId].slots, t, expiresAt));
    }
  }

  lemma HoldPickOnlyHolds(db: Db, a: Option<AssetId>, hold: Hold)
    ensures OnlyHolds(db, HoldPick(db, a, hold))
  {
    PutHoldOnlyHolds(db, if a.Some? then a.value else AssetId(Booth, 0), hold);
    assert a.None? ==> OnlyHolds(db, db);
    hide PutHold, OnlyHolds;
  }

  lemma SlotHoldsOnlyHolds(db: Db, d: Db, holds: seq<SlotHold>)
    requires OnlyHolds(db, d)
    ensures OnlyHolds(db, d.(slotHolds := holds))
  {
  }

  lemma {:induction false} ResolveAllOnlyHolds(db: Db, ids: seq<Id>, t: Target, expiresAt: int, now: int,
                                               rule: NullRule)
    ensures var r := ResolveAll(db, ids, t, expiresAt, now, rule);
      r.Some? ==> OnlyHolds(db, r.value.db) && |r.value.bundles| == |ids|
    decreases ids
  {
    hide ResolvePlan;
    if ids != [] {
      ResolvePlanOnlyHolds(db, ids[0], t, expiresAt, now, rule);
      var first := ResolvePlan(db, ids[0], t, expiresAt, now, rule);
      if first.Some? {
        ResolveAllOnlyHolds(first.value.db, ids[1..], t, expiresAt, now, rule);
        var rest := ResolveAll(first.value.db, ids[1..], t, expiresAt, now, rule);
        if rest.Some? { OnlyHoldsCompose(db, first.value.db, rest.value.db); }
      }
    }
  }

  lemma {:induction false} PlaceHoldsOnlyHolds(db: Db, items: seq<Item>, hold: Hold)
    ensures var r := PlaceHolds(db, items, hold); r.Some? ==> OnlyHolds(db, r.value)
    decreases items
  {
    if items != [] {
      var id := if items[0].AssetItem? && items[0].assetId.Some? then items[0].assetId.value else 0;
      var asset := if items[0].AssetItem? then items[0].asset else Booth;
      var next := if items[0].AssetItem? && items[0].assetId.Some? then PutHold(db, AssetId(asset, id), hold) else db;
      PutHoldOnlyHolds(db, AssetId(asset, id), hold);
      PlaceHoldsOnlyHolds(next, items[1..], hold);
      var r := PlaceHolds(next, items[1..], hold);
      if r.Some? { OnlyHoldsCompose(db, next, r.value); }
    }
  }

  // ---- Members of footprints -------------------------------------------------------------

  lemma {:induction false} RowOfALine(items: seq<Item>, bundles: seq<BundleEntry>, a: AssetId) returns (i: nat)
    requires a in ItemsAssets(items, bundles)
    ensures i < |items| && a in ItemAssets(items[i], bundles)
    decreases items
  {
    if a in ItemAssets(items[0], bundles) {
      i := 0;
    } else {
      i := RowOfALine(items[1..], bundles, a);
      i := i + 1;
    }
  }

  lemma {:induction false} PlanIsListed(items: seq<Item>, i: nat)
    requires i < |items| && items[i].PlanItem? && items[i].planId.Some?
    ensures items[i].planId.value in PlanIds(items)
    decreases items
  {
    if i > 0 { PlanIsListed(items[1..], i - 1); }
  }

  lemma {:induction false} PlanIdsOfBoth(a: seq<Item>, b: seq<Item>)
    ensures PlanIds(a + b) == PlanIds(a) + PlanIds(b)
    decreases a
  {
    if a == [] {
      assert a + b == b;
    } else {
      assert (a + b)[0] == a[0] && (a + b)[1..] == a[1..] + b;
      PlanIdsOfBoth(a[1..], b);
    }
  }

  // ---- An accepted checkout --------------------------------------------------------------

  lemma OnePlanResolved(db: Db, ids: seq<Id>, t: Target, expiresAt: int, now: int, rule: NullRule)
    requires |ids| == 1 && ResolveAll(db, ids, t, expiresAt, now, rule).Some?
    ensures var e := ResolveAll(db, ids, t, expiresAt, now, rule).value.bundles[0];
      && e.planId == ids[0] && e.planId in db.plans && (e.boothId.Some? ==> db.plans[e.planId].boothTier.Some?)
  {
    ResolvePlanOnlyHolds(db, ids[0], t, expiresAt, now, rule);
    hide ResolvePlan;
    assert ids[1..] == [];
  }

  /** What a checkout that went through has stored. */
  lemma CheckoutTables(db: Db, oid: Id, b: Purchase, items: seq<Item>, expiresAt: int, now: int, rule: NullRule)
    requires Checkout(db, oid, b, items, expiresAt, now, rule) != db
    ensures var d := Checkout(db, oid, b, items, expiresAt, now, rule);
      && oid !in db.orders && b.pid !in db.payments && CheckoutIsAllowed(db, b.company, items)
      && b.pid in d.payments
      && var bundles := d.payments[b.pid].bundles;
      && d.orders == db.orders[oid := Order(b.user, b.company, PendingPayment, items)]
      && d.payments == db.payments[b.pid :=
           Payment(OrderPayment, Pending, b.manual, b.user, b.company, Some(oid), None, b.base, bundles)]
      && OnlyHolds(db, d.(orders := db.orders, payments := db.payments))
      && |bundles| == |PlanIds(items)|
      && (|bundles| == 1 ==> bundles[0].planId == PlanIds(items)[0] && bundles[0].planId in db.plans
                             && (bundles[0].boothId.Some? ==> db.plans[bundles[0].planId].boothTier.Some?))
  {
    hide PlaceHolds, ResolveAll, OnlyHolds, CheckoutIsAllowed, PlanIds;
    var t := ForOrder(oid);
    var held := PlaceHolds(db, items, TargetHold(t, expiresAt));
    PlaceHoldsOnlyHolds(db, items, TargetHold(t, expiresAt));
    var all := ResolveAll(held.value, PlanIds(items), t, expiresAt, now, rule);
    ResolveAllOnlyHolds(held.value, PlanIds(items), t, expiresAt, now, rule);
    OnlyHoldsCompose(db, held.value, all.value.db);
    OnlyHoldsRows(db, all.value.db);
    OnlyHoldsRows(db, held.value);
    if |PlanIds(items)| == 1 { OnePlanResolved(held.value, PlanIds(items), t, expiresAt, now, rule); }
  }

  lemma OnlyHoldsRows(before: Db, after: Db)
    requires OnlyHolds(before, after)
    ensures after == before.(assets := after.assets, slotHolds := after.slotHolds)
  {
  }
}
