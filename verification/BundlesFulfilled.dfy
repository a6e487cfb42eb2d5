/**
 * Bundles honoured end to end: a charge that comes before the holds expire is fulfilled exactly when what no hold
 * protects is still there, for a plan bought singly and for a plan bought through a cart.
 */
module BundlesFulfilled {
  import opened Common
  import opened CheckoutHold
  import opened Tables
  import opened Inventory
  import opened Fulfilment
  import opened BundleResolution
  import opened Machine
  import opened Effects
  import opened Charges
  import opened RefundUndo
  import opened Resolutions
  import opened Obstacles
  import opened BoothClash
  import opened Ownership
  import opened BundleHolds
  import opened Growth
  import opened HoldsHonoured
  import opened FirstFit
  import opened BoothHolds

  // ---- What the holds protect, and what they do not --------------------------------------

  /**
   * The plan is still on offer, the company has no booth, and the sessions
   * of the bundle, which carts may take, are free.
   */
  predicate BundleIsLeft(db: Db, q: Buyer, e: BundleEntry, rows: set<AssetId>) {
    && e.planId in db.plans && db.plans[e.planId].active && (e.boothId.Some? ==> q.ownBooths == {})
    && OptionalRow(db, q, Masterclass, e.masterclassId, rows) == Done
    && OptionalRow(db, q, Presentation, e.presentationId, rows) == Done
  }

  predicate HoldsItsBooth(db: Db, e: BundleEntry, t: Target, expiresAt: int) {
    e.boothId.Some? ==> HoldsBooth(db, AssetId(Booth, e.boothId.value), t, expiresAt)
  }

  lemma HeldBoothIsLeft(db: Db, q: Buyer, e: BundleEntry, t: Target, expiresAt: int, rows: set<AssetId>)
    requires HoldsItsBooth(db, e, t, expiresAt) && q.exclude == TargetExclude(t) && ReadAtStart(db.assets, q)
    requires forall x | x in rows && e.boothId.Some? :: x.kind != Booth
    ensures OptionalRow(db, q, Booth, e.boothId, rows) == Done <==> (e.boothId.Some? ==> q.ownBooths == {})
  {
    if e.boothId.Some? {
      var a := AssetId(Booth, e.boothId.value);
      assert a !in q.ownBooths && !IsBlockedByOther(db.assets[a].hold, q.exclude, q.now);
      assert IsRefused(q, a, db.assets[a], true) <==> q.ownBooths != {} by {
        if q.ownBooths != {} {
          var b :| b in q.ownBooths;
          assert b != a;
        }
      }
    }
  }

  lemma HonouredSlotsAreLeft(db: Db, q: Buyer, ids: seq<SlotId>, copies: multiset<SlotId>)
    requires TakeBundleSlots(db, q, ids).verdict == Done && forall s | s in ids :: copies[s] == 0
    ensures SlotsAreLeft(db.slots, ids, copies)
  {
    NothingMoves(db.slots);
    ServedMeansLeft(db.slots, ids, multiset{});
    hide Served, Debit, Copies;
  }

  /** The line of a held bundle is served exactly when the rest is left. */
  lemma HeldLineOutcome(db: Db, q: Buyer, bundles: seq<BundleEntry>, item: Item, rows: set<AssetId>,
                        copies: multiset<SlotId>, e: BundleEntry, t: Target, expiresAt: int)
    requires item.PlanItem? && item.planId == Some(e.planId) && FindEntry(bundles, e.planId) == Some(e)
    requires q.company.Some?
    requires HoldsItsBooth(db, e, t, expiresAt) && q.exclude == TargetExclude(t) && ReadAtStart(db.assets, q)
    requires forall x | x in rows && e.boothId.Some? :: x.kind != Booth
    requires TakeBundleSlots(db, q, e.slots).verdict == Done && forall s | s in e.slots :: copies[s] == 0
    ensures LineOutcome(db, q, bundles, item, rows, copies) == Done <==> BundleIsLeft(db, q, e, rows)
  {
    HeldBoothIsLeft(db, q, e, t, expiresAt, rows);
    HonouredSlotsAreLeft(db, q, e.slots, copies);
    hide OptionalRow, SlotsAreLeft, HoldsItsBooth, ReadAtStart, TakeBundleSlots, FindEntry;
  }

  /** A charge that would be delivered. */
  predicate IsOpen(db: Db, pid: Id) {
    pid in db.payments && (db.payments[pid].status == Pending || db.payments[pid].status == Failed)
  }

  /** A delivery that is not missing anything fulfils its payment exactly when every line is served. */
  lemma FulfilsLineByLine(db: Db, pid: Id, now: int)
    requires pid in db.payments
    ensures var p := db.payments[pid]; var q := PaymentBuyer(db, pid, now);
      Fulfils(db, pid, now) <==>
      && IsOpen(db, pid) && !IsMissing(db, pid, now)
      && forall k | 0 <= k < |Lines(db, p)| :: OutcomeAt(db, q, p.bundles, Lines(db, p), k) == Done
  {
    if IsOpen(db, pid) { OutcomeIsForeseen(db, pid, now); }
    hide OutcomeAt, IsMissing, Lines, PaymentBuyer, Core;
  }

  // ---- Bundles as they are stored --------------------------------------------------------

  lemma ResolutionHoldsBooth(db: Db, planId: Id, t: Target, expiresAt: int, now: int, rule: NullRule)
    requires Consistent(db.assets) && ResolvePlan(db, planId, t, expiresAt, now, rule).Some?
    ensures var r := ResolvePlan(db, planId, t, expiresAt, now, rule).value;
      && r.entry.planId == planId && planId in db.plans && r.entry.slots == db.plans[planId].slots
      && forall d: Db | d.assets == r.db.assets && TargetExists(d, t) :: HoldsItsBooth(d, r.entry, t, expiresAt)
  {
    ResolvePlanOnlyHolds(db, planId, t, expiresAt, now, rule);
    EntryListsPicks(db, planId, t, expiresAt, now, rule);
    OnlyPickedRowsAreWritten(db, planId, t, expiresAt, now, rule);
    var r := ResolvePlan(db, planId, t, expiresAt, now, rule).value;
    if r.entry.boothId.Some? {
      var a := PickRows(db, db.plans[planId], t, now).booth.value;
      BoothIsFirstFit(db, db.plans[planId].boothTier.value, t, now);
      assert a in PickedRows(r.entry) && IsBundleTier(db.plans[planId].boothTier.value);
    }
    hide ResolvePlan, PickedRows, PickBooth, HoldPick, SlotsAreAvailable, IsBlockedByOther, OnlyHolds;
  }

  lemma InitPlanHolds(w: World, b: Purchase, planId: Id, expiresAt: int)
    requires Consistent(w.db.assets) && InitPlan(w.db, b, planId, expiresAt, w.now, w.rule) != w.db
    ensures var d := InitPlan(w.db, b, planId, expiresAt, w.now, w.rule);
      && planId in w.db.plans && b.pid in d.payments && d.payments[b.pid].kind == PlanPayment
      && d.payments[b.pid].targetId == Some(planId) && d.payments[b.pid].companyId == b.company
      && WellFormed(d.payments[b.pid])
      && var e := d.payments[b.pid].bundles[0];
      && e.slots == w.db.plans[planId].slots && HoldsItsBooth(d, e, ForPayment(b.pid), expiresAt)
  {
    InitPlanTables(w.db, b, planId, expiresAt, w.now, w.rule);
    ResolutionHoldsBooth(w.db, planId, ForPayment(b.pid), expiresAt, w.now, w.rule);
    hide ResolvePlan, PlanIsBuyable, HoldsItsBooth, SlotsAreAvailable, SlotHolds;
  }

  lemma BoothStaysHeld(w: World, events: seq<Event>, e: BundleEntry, t: Target, expiresAt: int)
    requires HoldsItsBooth(w.db, e, t, expiresAt) && Stored(w.db) && Consistent(w.db.assets)
    requires BoothAllowedRun(w, events, t) && Run(w, events).now < expiresAt
    ensures HoldsItsBooth(Run(w, events).db, e, t, expiresAt)
  {
    if e.boothId.Some? { BoothHoldIsExclusive(w, events, AssetId(Booth, e.boothId.value), t, expiresAt); }
  }

  // ---- A plan payment --------------------------------------------------------------------

  lemma PlanPaymentIs(db: Db, pid: Id, now: int, e: BundleEntry)
    requires pid in db.payments && WellFormed(db.payments[pid]) && db.payments[pid].kind == PlanPayment
    requires db.payments[pid].bundles == [e]
    ensures var p := db.payments[pid]; var q := PaymentBuyer(db, pid, now);
      && e.planId == p.targetId.value && FindEntry(p.bundles, e.planId) == Some(e)
      && Lines(db, p) == [PlanItem(Some(e.planId), p.baseAmount, 1)] && q.exclude == TargetExclude(ForPayment(pid))
      && ReadAtStart(db.assets, q) && (q.company.Some? <==> HasCompany(db, p.companyId))
      && (IsMissing(db, pid, now) <==> e.planId !in db.plans || !HasCompany(db, p.companyId))
  {
  }

  /**
   * A plan payment charged before its hold expires is fulfilled if and only if the company is still there, the plan is
   * on offer, the company has no booth beside a bundle with one, and the sessions of the bundle are free: booth and
   * slots always are, whatever other companies did in between.
   */
  lemma LiveBundleIsFulfilled(w: World, b: Purchase, planId: Id, expiresAt: int, events: seq<Event>)
    requires Stored(w.db) && Consistent(w.db.assets) && planId in w.db.plans
    requires Next(w, EInitPlan(b, planId, expiresAt)) != w.db
    requires forall s | s in w.db.plans[planId].slots ::
      && HoldsKept(w, s) && HoldAllowed(w, EInitPlan(b, planId, expiresAt), s)
      && HoldAllowedRun(Step(w, EInitPlan(b, planId, expiresAt)), events, s)
    requires var next := Step(w, EInitPlan(b, planId, expiresAt));
      && NeverEnds(next, events, ForPayment(b.pid)) && BoothAllowedRun(next, events, ForPayment(b.pid))
      && Run(next, events).now < expiresAt
    ensures var z := Run(Step(w, EInitPlan(b, planId, expiresAt)), events);
      b.pid in z.db.payments && |z.db.payments[b.pid].bundles| == 1 &&
      (Fulfils(z.db, b.pid, z.now) <==>
       && IsOpen(z.db, b.pid) && HasCompany(z.db, b.company)
       && BundleIsLeft(z.db, PaymentBuyer(z.db, b.pid, z.now), z.db.payments[b.pid].bundles[0], {}))
  {
    var ev := EInitPlan(b, planId, expiresAt);
    var t := ForPayment(b.pid);
    var next := Step(w, ev);
    var z := Run(next, events);
    assert next == World(InitPlan(w.db, b, planId, expiresAt, w.now, w.rule), w.now, w.rule);
    OwnershipStep(w, ev);
    hide *;
    InitPlanHolds(w, b, planId, expiresAt);
    GrownRun(next, events);
    var e := next.db.payments[b.pid].bundles[0];
    GrownPayment(next.db, z.db, b.pid);
    assert WellFormed(z.db.payments[b.pid]) && z.db.payments[b.pid].bundles == [e];
    BoothStaysHeld(next, events, e, t, expiresAt);
    var q := PaymentBuyer(z.db, b.pid, z.now);
    LiveHoldIsHonoured(w, b, planId, expiresAt, events, q);
    PlanPaymentIs(z.db, b.pid, z.now, e);
    FulfilsLineByLine(z.db, b.pid, z.now);
    PlanLineDecides(z.db, b.pid, z.now, e, expiresAt);
  }

  lemma GrownPayment(before: Db, after: Db, pid: Id)
    requires Grown(before, after) && pid in before.payments
    ensures pid in after.payments && after.payments[pid] == before.payments[pid].(status := after.payments[pid].status)
    ensures WellFormed(before.payments[pid]) <==> WellFormed(after.payments[pid])
    ensures before.payments[pid].orderId.Some? && before.payments[pid].orderId.value in before.orders ==>
      var oid := before.payments[pid].orderId.value;
      oid in after.orders && after.orders[oid] == before.orders[oid].(status := after.orders[oid].status)
    ensures WellFormed(before.payments[pid]) && before.payments[pid].kind == PlanPayment ==>
      |before.payments[pid].bundles| == 1
  {
  }

  /** Its one line decides. */
  lemma PlanLineDecides(db: Db, pid: Id, now: int, e: BundleEntry, expiresAt: int)
    requires pid in db.payments && WellFormed(db.payments[pid]) && db.payments[pid].kind == PlanPayment
    requires db.payments[pid].bundles == [e] && HoldsItsBooth(db, e, ForPayment(pid), expiresAt)
    requires TakeBundleSlots(db, PaymentBuyer(db, pid, now), e.slots).verdict == Done
    ensures Fulfils(db, pid, now) <==>
      && IsOpen(db, pid) && HasCompany(db, db.payments[pid].companyId)
      && BundleIsLeft(db, PaymentBuyer(db, pid, now), e, {})
  {
    var p := db.payments[pid];
    var q := PaymentBuyer(db, pid, now);
    var items := Lines(db, p);
    PlanPaymentIs(db, pid, now, e);
    FulfilsLineByLine(db, pid, now);
    assert items[..0] == [] && ItemsAssets([], p.bundles) == {} && ItemsSlots([], p.bundles) == multiset{};
    assert OutcomeAt(db, q, p.bundles, items, 0) == LineOutcome(db, q, p.bundles, items[0], {}, multiset{});
    hide LineOutcome, OutcomeAt, PaymentBuyer, Fulfils, IsMissing, Lines, HoldsItsBooth, FindEntry, TakeBundleSlots,
         ReadAtStart;
    if q.company.Some? {
      HeldLineOutcome(db, q, p.bundles, items[0], {}, multiset{}, e, ForPayment(pid), expiresAt);
    }
    assert BundleIsLeft(db, q, e, {}) ==> e.planId in db.plans;
  }

  // ---- An order --------------------------------------------------------------------------

  /** A cart's one plan line; the lines before it bring no plan. */
  lemma OnePlanLine(items: seq<Item>, j: nat)
    requires j < |items| && items[j].PlanItem? && items[j].planId.Some? && |PlanIds(items)| <= 1
    ensures PlanIds(items) == [items[j].planId.value] && PlanIds(items[..j]) == []
  {
    assert items == items[..j] + items[j..] && items[j..][0] == items[j];
    PlanIdsOfBoth(items[..j], items[j..]);
  }

  lemma MoreBoothLines(items: seq<Item>)
    requires items != [] && HasBoothLine(items[1..])
    ensures HasBoothLine(items)
  {
    var i :| 0 <= i < |items[1..]| && items[1..][i].AssetItem? && items[1..][i].asset == Booth
      && items[1..][i].assetId.Some?;
    assert items[i + 1] == items[1..][i];
  }

  lemma FirstBoothLine(items: seq<Item>, bundles: seq<BundleEntry>, a: AssetId)
    requires items != [] && PlanIds(items) == [] && a in ItemAssets(items[0], bundles) && a.kind == Booth
    ensures HasBoothLine(items)
  {
    assert items[0].AssetItem? && items[0].asset == Booth && items[0].assetId.Some?;
  }

  /** Lines without a plan stand for their own copies, and for a booth only if one of them is a booth line. */
  lemma {:induction false} PlainFootprint(items: seq<Item>, bundles: seq<BundleEntry>)
    requires PlanIds(items) == []
    ensures ItemsSlots(items, bundles) == SlotLines(items)
    ensures forall x | x in ItemsAssets(items, bundles) && x.kind == Booth :: HasBoothLine(items)
    decreases items
  {
    if items != [] {
      PlainFootprint(items[1..], bundles);
      hide HasBoothLine;
      if HasBoothLine(items[1..]) { MoreBoothLines(items); }
      forall x | x in ItemsAssets(items, bundles) && x.kind == Booth ensures HasBoothLine(items) {
        if x in ItemAssets(items[0], bundles) { FirstBoothLine(items, bundles, x); }
      }
    }
  }

  lemma FewerBoothLines(items: seq<Item>, n: nat)
    requires n <= |items| && HasBoothLine(items[..n])
    ensures HasBoothLine(items)
  {
    var i :| 0 <= i < n && items[..n][i].AssetItem? && items[..n][i].asset == Booth && items[..n][i].assetId.Some?;
    assert items[i] == items[..n][i];
  }

  /** A booth line beside the plan is let through only when the plan brings no booth. */
  predicate BoothsAreApart(e: BundleEntry, items: seq<Item>) {
    e.boothId.Some? ==> !HasBoothLine(items)
  }

  /** What an accepted cart with a plan has stored: one entry, its booth held, its slots among no stand-alone line. */
  lemma CheckoutHolds(w: World, oid: Id, b: Purchase, items: seq<Item>, expiresAt: int)
    requires Consistent(w.db.assets) && PlanIds(items) != []
    requires Checkout(w.db, oid, b, items, expiresAt, w.now, w.rule) != w.db
    ensures var d := Checkout(w.db, oid, b, items, expiresAt, w.now, w.rule); var planId := PlanIds(items)[0];
      && PlanIds(items) == [planId] && planId in w.db.plans && b.pid in d.payments
      && d.orders == w.db.orders[oid := Order(b.user, b.company, PendingPayment, items)]
      && var p := d.payments[b.pid];
      && p == Payment(OrderPayment, Pending, b.manual, b.user, b.company, Some(oid), None, b.base, p.bundles)
      && |p.bundles| == 1 && p.bundles[0].planId == planId && p.bundles[0].slots == w.db.plans[planId].slots
      && HoldsItsBooth(d, p.bundles[0], ForOrder(oid), expiresAt) && BoothsAreApart(p.bundles[0], items)
      && forall s | s in p.bundles[0].slots :: s !in SlotLines(items)
  {
    var d := Checkout(w.db, oid, b, items, expiresAt, w.now, w.rule);
    var t := ForOrder(oid);
    var planId := PlanIds(items)[0];
    OrderPaymentLines(w.db, oid, b, items, expiresAt, w.now, w.rule);
    AcceptedCartHasOnePlan(w.db, b.company, items);
    assert PlanIds(items) == [planId];
    CheckoutTables(w.db, oid, b, items, expiresAt, w.now, w.rule);
    var held := PlaceHolds(w.db, items, TargetHold(t, expiresAt)).value;
    PlaceHoldsKeepsSlots(w.db, items, TargetHold(t, expiresAt));
    PlaceHoldsOnlyHolds(w.db, items, TargetHold(t, expiresAt));
    OneResolution(held, [planId], t, expiresAt, w.now, w.rule);
    var r := ResolvePlan(held, planId, t, expiresAt, w.now, w.rule);
    assert r.Some? && d.assets == r.value.db.assets && d.payments[b.pid].bundles == [r.value.entry];
    assert Consistent(held.assets) && held.plans == w.db.plans;
    assert w.db.plans[planId].boothTier.Some? ==> !HasBoothLine(items) by {
      CartPlanApart(w.db, b.company, items);
    }
    hide Checkout, CheckoutIsAllowed, ResolvePlan, ResolveAll, PlaceHolds, OnlyHolds, PlanIds, Consistent,
         HoldsItsBooth, SlotLines;
    ResolutionHoldsBooth(held, planId, t, expiresAt, w.now, w.rule);
    ResolvePlanOnlyHolds(held, planId, t, expiresAt, w.now, w.rule);
    forall s | s in r.value.entry.slots ensures s !in SlotLines(items) {
      assert IsLinked(w.db, s);
      AllowedCart(w.db, b.company, items, s);
    }
  }

  lemma CartPlanApart(db: Db, company: Option<Id>, items: seq<Item>)
    requires CheckoutIsAllowed(db, company, items) && PlanIds(items) != [] && PlanIds(items)[0] in db.plans
    ensures db.plans[PlanIds(items)[0]].boothTier.Some? ==> !HasBoothLine(items)
  {
    if company.None? { NoPlansWithoutCompany(items); }
    hide PlanIds, HasBoothLine;
  }

  lemma OrderPaymentIs(db: Db, pid: Id, now: int, items: seq<Item>, j: nat)
    requires pid in db.payments && db.payments[pid].kind == OrderPayment && db.payments[pid].orderId.Some?
    requires var oid := db.payments[pid].orderId.value;
      oid in db.orders && db.orders[oid].items == items && db.orders[oid].companyId == db.payments[pid].companyId
    requires j < |items| && items[j].PlanItem?
    ensures var p := db.payments[pid]; var q := PaymentBuyer(db, pid, now);
      && Lines(db, p) == items && q.exclude == TargetExclude(ForOrder(p.orderId.value)) && ReadAtStart(db.assets, q)
      && (q.company.Some? <==> HasCompany(db, p.companyId))
      && (IsMissing(db, pid, now) <==> !HasCompany(db, p.companyId))
  {
    assert NeedsCompany(items);
  }

  /** In an order, the line of the held bundle is served exactly when the rest of it is left. */
  lemma OrderLineOutcome(db: Db, q: Buyer, e: BundleEntry, items: seq<Item>, j: nat, t: Target, expiresAt: int)
    requires j < |items| && items[j].PlanItem? && items[j].planId == Some(e.planId) && |PlanIds(items)| <= 1
    requires q.company.Some? && q.exclude == TargetExclude(t) && ReadAtStart(db.assets, q)
    requires HoldsItsBooth(db, e, t, expiresAt) && TakeBundleSlots(db, q, e.slots).verdict == Done
    requires BoothsAreApart(e, items) && forall s | s in e.slots :: s !in SlotLines(items)
    ensures OutcomeAt(db, q, [e], items, j) == Done <==> BundleIsLeft(db, q, e, ItemsAssets(items[..j], [e]))
  {
    var rows, copies := ItemsAssets(items[..j], [e]), ItemsSlots(items[..j], [e]);
    OnePlanLine(items, j);
    PlainFootprint(items[..j], [e]);
    FewerSlotLines(items, j);
    assert FindEntry([e], e.planId) == Some(e);
    if HasBoothLine(items[..j]) { FewerBoothLines(items, j); }
    hide LineOutcome, HoldsItsBooth, ReadAtStart, TakeBundleSlots, PlanIds, SlotLines, ItemsAssets, ItemsSlots,
         HasBoothLine, FindEntry;
    HeldLineOutcome(db, q, [e], items[j], rows, copies, e, t, expiresAt);
  }

  /** Every line but one is served as the charge finds the tables. */
  predicate OthersAreServed(db: Db, q: Buyer, bundles: seq<BundleEntry>, items: seq<Item>, j: nat) {
    forall k | 0 <= k < |items| && k != j :: OutcomeAt(db, q, bundles, items, k) == Done
  }

  /**
   * An order charged before its hold expires is fulfilled if and only if the company is still there, its other lines
   * can be served, and, of the plan's bundle, what no hold protects is left.
   */
  lemma LiveOrderIsFulfilled(w: World, oid: Id, b: Purchase, items: seq<Item>, expiresAt: int, events: seq<Event>,
                             j: nat)
    requires Stored(w.db) && Consistent(w.db.assets)
    requires j < |items| && items[j].PlanItem? && items[j].planId.Some? && items[j].planId.value in w.db.plans
    requires Next(w, ECheckout(oid, b, items, expiresAt)) != w.db
    requires forall s | s in w.db.plans[items[j].planId.value].slots ::
      && HoldsKept(w, s) && HoldAllowed(w, ECheckout(oid, b, items, expiresAt), s)
      && HoldAllowedRun(Step(w, ECheckout(oid, b, items, expiresAt)), events, s)
    requires var next := Step(w, ECheckout(oid, b, items, expiresAt));
      && NeverEnds(next, events, ForOrder(oid)) && BoothAllowedRun(next, events, ForOrder(oid))
      && Run(next, events).now < expiresAt
    ensures var z := Run(Step(w, ECheckout(oid, b, items, expiresAt)), events);
      b.pid in z.db.payments && |z.db.payments[b.pid].bundles| == 1 &&
      var q := PaymentBuyer(z.db, b.pid, z.now); var bundles := z.db.payments[b.pid].bundles;
      (Fulfils(z.db, b.pid, z.now) <==>
       && IsOpen(z.db, b.pid) && HasCompany(z.db, b.company) && OthersAreServed(z.db, q, bundles, items, j)
       && BundleIsLeft(z.db, q, bundles[0], ItemsAssets(items[..j], bundles)))
  {
    var ev := ECheckout(oid, b, items, expiresAt);
    var t := ForOrder(oid);
    var next := Step(w, ev);
    var z := Run(next, events);
    assert next == World(Checkout(w.db, oid, b, items, expiresAt, w.now, w.rule), w.now, w.rule);
    OwnershipStep(w, ev);
    hide *;
    OrderPaymentLines(w.db, oid, b, items, expiresAt, w.now, w.rule);
    AcceptedCartHasOnePlan(w.db, b.company, items);
    OnePlanLine(items, j);
    CheckoutHolds(w, oid, b, items, expiresAt);
    GrownRun(next, events);
    var e := next.db.payments[b.pid].bundles[0];
    assert next.db.payments[b.pid].bundles == [e];
    GrownPayment(next.db, z.db, b.pid);
    BoothStaysHeld(next, events, e, t, expiresAt);
    var q := PaymentBuyer(z.db, b.pid, z.now);
    OrderHoldIsHonoured(w, oid, b, items, expiresAt, events, q);
    OrderPaymentIs(z.db, b.pid, z.now, items, j);
    FulfilsLineByLine(z.db, b.pid, z.now);
    OneLineAndTheOthers(z.db, q, [e], items, j);
    if q.company.Some? { OrderLineOutcome(z.db, q, e, items, j, t, expiresAt); }
  }

  lemma OneLineAndTheOthers(db: Db, q: Buyer, bundles: seq<BundleEntry>, items: seq<Item>, j: nat)
    requires j < |items|
    ensures (forall k | 0 <= k < |items| :: OutcomeAt(db, q, bundles, items, k) == Done)
      <==> OutcomeAt(db, q, bundles, items, j) == Done && OthersAreServed(db, q, bundles, items, j)
  {
    hide OutcomeAt;
  }
}
