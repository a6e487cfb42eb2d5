/**
 * On a slot sold only through plans and left alone by administrators, the
 * live holds never exceed the copies available, over whole runs.
 */
module BundleHolds {
  import opened Common
  import opened CheckoutHold
  import opened Tables
  import opened Inventory
  import opened Fulfilment
  import opened Refunds
  import opened BundleResolution
  import opened Machine
  import opened Effects
  import opened Charges
  import opened RefundUndo
  import opened Resolutions
  import opened SlotConservation
  import opened Obstacles

  // ---- Counting holds --------------------------------------------------------------------

  predicate IsLive(h: SlotHold, s: SlotId, now: int) {
    h.slot == s && h.expiresAt > now
  }

  function Live(holds: seq<SlotHold>, s: SlotId, now: int): nat {
    if holds == [] then 0 else (if IsLive(holds[0], s, now) then 1 else 0) + Live(holds[1..], s, now)
  }

  /** The live holds of one checkout. */
  function Own(holds: seq<SlotHold>, s: SlotId, t: Target, now: int): nat {
    if holds == [] then 0
    else (if IsLive(holds[0], s, now) && IsOwn(holds[0], t) then 1 else 0) + Own(holds[1..], s, t, now)
  }

  /** The live holds of all other checkouts. */
  function Others(holds: seq<SlotHold>, s: SlotId, t: Target, now: int): nat {
    CountHolds(holds, s, t, now, NullIsOther)
  }

  lemma {:induction false} LiveIsOwnAndOthers(holds: seq<SlotHold>, s: SlotId, t: Target, now: int)
    ensures Live(holds, s, now) == Own(holds, s, t, now) + Others(holds, s, t, now)
  {
    if holds != [] { LiveIsOwnAndOthers(holds[1..], s, t, now); }
  }

  lemma {:induction false} LiveOfBoth(a: seq<SlotHold>, b: seq<SlotHold>, s: SlotId, t: Target, now: int)
    ensures Live(a + b, s, now) == Live(a, s, now) + Live(b, s, now)
    ensures Own(a + b, s, t, now) == Own(a, s, t, now) + Own(b, s, t, now)
  {
    if a == [] {
      assert a + b == b;
    } else {
      LiveOfBoth(a[1..], b, s, t, now);
      assert (a + b)[0] == a[0] && (a + b)[1..] == a[1..] + b;
    }
  }

  /** Holds only die as time passes. */
  lemma {:induction false} LiveFades(holds: seq<SlotHold>, s: SlotId, now: int, later: int)
    requires now <= later
    ensures Live(holds, s, later) <= Live(holds, s, now)
  {
    if holds != [] { LiveFades(holds[1..], s, now, later); }
  }

  lemma KeptStep(holds: seq<SlotHold>, drop: SlotHold -> bool)
    requires holds != []
    ensures KeepHolds(holds, drop) == (if drop(holds[0]) then [] else [holds[0]]) + KeepHolds(holds[1..], drop)
    ensures !drop(holds[0]) ==> KeepHolds(holds, drop) != [] && KeepHolds(holds, drop)[0] == holds[0]
                                && KeepHolds(holds, drop)[1..] == KeepHolds(holds[1..], drop)
    ensures drop(holds[0]) ==> KeepHolds(holds, drop) == KeepHolds(holds[1..], drop)
  {
  }

  lemma {:induction false} KeptHolds(holds: seq<SlotHold>, drop: SlotHold -> bool, s: SlotId, t: Target, now: int)
    ensures var kept := KeepHolds(holds, drop);
      && Live(kept, s, now) <= Live(holds, s, now)
      && Own(kept, s, t, now) <= Own(holds, s, t, now)
      && Others(kept, s, t, now) <= Others(holds, s, t, now)
    ensures (forall h | h in holds :: IsOwn(h, t) ==> drop(h)) ==> Own(KeepHolds(holds, drop), s, t, now) == 0
    ensures (forall h | h in holds :: IsOwn(h, t) && IsLive(h, s, now) ==> !drop(h))
            ==> Own(KeepHolds(holds, drop), s, t, now) == Own(holds, s, t, now)
    ensures forall h | h in KeepHolds(holds, drop) :: h in holds
  {
    if holds != [] {
      KeptHolds(holds[1..], drop, s, t, now);
      KeptStep(holds, drop);
      assert forall h | h in holds[1..] :: h in holds;
      hide KeepHolds, IsOwn, IsLive, IsCounted;
    }
  }

  /** Where every hold on the slot is in the counted column, the count the resolution reads is all of them. */
  lemma {:induction false} CountIsLive(holds: seq<SlotHold>, s: SlotId, t: Target, now: int, rule: NullRule)
    requires forall h | h in holds && h.slot == s :: !IsOwn(h, t) && (rule == NullIsUnknown ==> SameColumn(h, t))
    ensures CountHolds(holds, s, t, now, rule) == Live(holds, s, now)
  {
    if holds != [] {
      assert forall h | h in holds[1..] :: h in holds;
      CountIsLive(holds[1..], s, t, now, rule);
    }
  }

  lemma {:induction false} PlacedHolds(slots: seq<SlotId>, t: Target, expiresAt: int, s: SlotId, now: int)
    ensures var placed := SlotHolds(slots, t, expiresAt);
      && Live(placed, s, now) == Own(placed, s, t, now) == (if expiresAt > now then multiset(slots)[s] else 0)
      && forall h | h in placed :: h.orderId == (if t.ForOrder? then Some(t.id) else None)
                                   && h.paymentId == (if t.ForPayment? then Some(t.id) else None)
  {
    if slots != [] {
      PlacedHolds(slots[1..], t, expiresAt, s, now);
      assert slots == [slots[0]] + slots[1..];
      assert SlotHolds(slots, t, expiresAt)[1..] == SlotHolds(slots[1..], t, expiresAt);
    }
  }

  // ---- The invariant ---------------------------------------------------------------------

  function TargetOf(p: Payment, pid: Id): Target {
    if p.kind == OrderPayment && p.orderId.Some? then ForOrder(p.orderId.value) else ForPayment(pid)
  }

  /** The unique keys on the link tables: a plan lists a slot once. */
  ghost predicate LinksAreUnique(db: Db) {
    forall p, s | p in db.plans :: multiset(db.plans[p].slots)[s] <= 1
  }

  /** A hold belongs to an order or to a plan payment, not to both, and that exists. */
  predicate HoldsAreKnown(db: Db) {
    forall h | h in db.slotHolds ::
      && (h.orderId.Some? ==> h.orderId.value in db.orders)
      && (h.paymentId.Some? ==> h.paymentId.value in db.payments && db.payments[h.paymentId.value].kind == PlanPayment)
      && (h.orderId.None? || h.paymentId.None?)
  }

  /** The payment is well formed and no stand-alone line of it is for this slot. */
  predicate BuysByPlan(db: Db, pid: Id, s: SlotId)
    requires pid in db.payments
  {
    Sound(db, pid) && s !in SlotLines(Lines(db, db.payments[pid]))
  }

  predicate Fits(db: Db, s: SlotId, now: int) {
    s in db.slots && Live(db.slotHolds, s, now) <= db.slots[s].available
  }

  ghost predicate HoldsKept(w: World, s: SlotId) {
    && Fits(w.db, s, w.now) && IsLinked(w.db, s) && LinksAreUnique(w.db) && HoldsAreKnown(w.db)
    && forall pid | pid in w.db.payments :: BuysByPlan(w.db, pid, s)
  }

  // ---- Purchases ------------------------------------------------------------------------

  /** Beside all live holds there is room for the one that the plan is about to place. */
  predicate HasRoomToHold(db: Db, planId: Id, expiresAt: int, now: int, s: SlotId) {
    planId in db.plans && s in db.plans[planId].slots && expiresAt > now ==>
      s in db.slots && Live(db.slotHolds, s, now) < db.slots[s].available
  }

  /** A plan that could be resolved keeps the bound if and only if there was room for its hold. */
  lemma ResolutionFits(db: Db, planId: Id, t: Target, expiresAt: int, now: int, rule: NullRule, s: SlotId)
    requires ResolvePlan(db, planId, t, expiresAt, now, rule).Some? && Fits(db, s, now) && LinksAreUnique(db)
    ensures Fits(ResolvePlan(db, planId, t, expiresAt, now, rule).value.db, s, now) <==>
      HasRoomToHold(db, planId, expiresAt, now, s)
  {
    var slots := db.plans[planId].slots;
    ResolvedTables(db, planId, t, expiresAt, now, rule);
    PlacedHolds(slots, t, expiresAt, s, now);
    LiveOfBoth(db.slotHolds, SlotHolds(slots, t, expiresAt), s, t, now);
    hide ResolvePlan, Live, Own;
    assert multiset(slots)[s] <= 1;
  }

  /** The availability check leaves that room when the count it reads is of all holds, and then the condition is met. */
  lemma CheckedHasRoom(db: Db, planId: Id, t: Target, expiresAt: int, now: int, rule: NullRule, s: SlotId)
    requires ResolvePlan(db, planId, t, expiresAt, now, rule).Some?
    requires forall h | h in db.slotHolds && h.slot == s :: !IsOwn(h, t) && (rule == NullIsUnknown ==> SameColumn(h, t))
    ensures HasRoomToHold(db, planId, expiresAt, now, s)
  {
    var slots := db.plans[planId].slots;
    if s in slots {
      var k :| 0 <= k < |slots| && slots[k] == s;
      assert SlotIsAvailable(db, slots[k], t, now, rule);
      CountIsLive(db.slotHolds, s, t, now, rule);
    }
  }

  lemma ResolvedTables(db: Db, planId: Id, t: Target, expiresAt: int, now: int, rule: NullRule)
    requires ResolvePlan(db, planId, t, expiresAt, now, rule).Some?
    ensures var d := ResolvePlan(db, planId, t, expiresAt, now, rule).value.db;
      && planId in db.plans && SlotsAreAvailable(db, db.plans[planId].slots, t, now, rule)
      && d == db.(assets := d.assets, slotHolds := db.slotHolds + SlotHolds(db.plans[planId].slots, t, expiresAt))
  {
    ResolvePlanOnlyHolds(db, planId, t, expiresAt, now, rule);
    hide SlotsAreAvailable, PickRows, HoldPick;
  }

  lemma BuysByPlanStays(before: Db, after: Db, pid: Id, s: SlotId)
    requires Grown(before, after) && pid in before.payments && BuysByPlan(before, pid, s)
    ensures BuysByPlan(after, pid, s)
  {
    SoundStays(before, after, pid);
    hide Sound, Copied, Rows, SlotLines;
    assert Lines(after, after.payments[pid]) == Lines(before, before.payments[pid]) by {
      assert WellFormed(before.payments[pid]) && (before.payments[pid].kind == OrderPayment
          ==> before.payments[pid].orderId.value in before.orders) by {
        SoundParts(before, pid);
      }
    }
  }

  lemma SoundParts(db: Db, pid: Id)
    requires pid in db.payments && Sound(db, pid)
    ensures WellFormed(db.payments[pid]) && (db.payments[pid].kind == OrderPayment
        ==> db.payments[pid].orderId.value in db.orders)
  {
  }

  /** A new pending payment joins, with holds for its own checkout only. */
  lemma NewPaymentKeepsHolds(w: World, d: Db, s: SlotId, t: Target, pid: Id)
    requires HoldsKept(w, s)
    requires Grown(w.db, d) && pid !in w.db.payments && d.payments.Keys == w.db.payments.Keys + {pid}
    requires forall x | x in w.db.payments :: d.payments[x] == w.db.payments[x]
    requires Fits(d, s, w.now) && BuysByPlan(d, pid, s) && d.plans == w.db.plans
    requires if t.ForOrder? then t.id in d.orders else t.id in d.payments
    requires forall h | h in d.slotHolds ::
      || h in w.db.slotHolds
      || (if t.ForOrder? then h.orderId == Some(t.id) && h.paymentId == None
          else h.paymentId == Some(t.id) && h.orderId == None && d.payments[t.id].kind == PlanPayment)
    ensures HoldsKept(World(d, w.now, w.rule), s)
  {
    hide BuysByPlan, Fits;
    forall x | x in d.payments ensures BuysByPlan(d, x, s) {
      if x != pid { BuysByPlanStays(w.db, d, x, s); }
    }
  }

  lemma PlanPaymentIsSound(db: Db, pid: Id, s: SlotId)
    requires pid in db.payments && WellFormed(db.payments[pid]) && db.payments[pid].kind == PlanPayment
    ensures BuysByPlan(db, pid, s)
  {
    SingleLineHasOneBooth(db, pid);
    assert Lines(db, db.payments[pid])[1..] == [];
  }

  /** What a plan payment stores when its bundle could be resolved. */
  lemma InitPlanTables(db: Db, b: Purchase, planId: Id, expiresAt: int, now: int, rule: NullRule)
    requires InitPlan(db, b, planId, expiresAt, now, rule) != db
    ensures var d := InitPlan(db, b, planId, expiresAt, now, rule);
      var r := ResolvePlan(db, planId, ForPayment(b.pid), expiresAt, now, rule);
      && r.Some? && b.pid !in db.payments && planId in db.plans
      && SlotsAreAvailable(db, db.plans[planId].slots, ForPayment(b.pid), now, rule)
      && r.value.entry.planId == planId && r.value.entry.slots == db.plans[planId].slots
      && d.payments == db.payments[b.pid :=
           Payment(PlanPayment, Pending, b.manual, b.user, b.company, None, Some(planId), b.base, [r.value.entry])]
      && d.slotHolds == r.value.db.slotHolds
        == db.slotHolds + SlotHolds(db.plans[planId].slots, ForPayment(b.pid), expiresAt)
      && d.slots == r.value.db.slots == db.slots && d.plans == db.plans && d.orders == db.orders
      && WellFormed(d.payments[b.pid]) && Grown(db, d)
  {
    ResolvePlanOnlyHolds(db, planId, ForPayment(b.pid), expiresAt, now, rule);
    if ResolvePlan(db, planId, ForPayment(b.pid), expiresAt, now, rule).Some? {
      ResolvedTables(db, planId, ForPayment(b.pid), expiresAt, now, rule);
    }
    hide ResolvePlan, OnlyHolds, SlotsAreAvailable;
  }

  lemma AllParts(w: World, s: SlotId)
    requires HoldsKept(w, s)
    ensures Fits(w.db, s, w.now) && IsLinked(w.db, s) && LinksAreUnique(w.db)
        ensures forall pid | pid in w.db.payments :: BuysByPlan(w.db, pid, s)
  {
  }

  lemma InitPlanKeepsHolds(w: World, s: SlotId, b: Purchase, planId: Id, expiresAt: int)
    requires HoldsKept(w, s) && InitPlan(w.db, b, planId, expiresAt, w.now, w.rule) != w.db
    ensures var d := InitPlan(w.db, b, planId, expiresAt, w.now, w.rule);
      && (Fits(d, s, w.now) <==> HasRoomToHold(w.db, planId, expiresAt, w.now, s))
      && (Fits(d, s, w.now) ==> HoldsKept(World(d, w.now, w.rule), s))
  {
    var t := ForPayment(b.pid);
    var d := InitPlan(w.db, b, planId, expiresAt, w.now, w.rule);
    InitPlanTables(w.db, b, planId, expiresAt, w.now, w.rule);
    hide *;
    var r := ResolvePlan(w.db, planId, t, expiresAt, w.now, w.rule);
    PlacedHolds(w.db.plans[planId].slots, t, expiresAt, s, w.now);
    AllParts(w, s);
    ResolutionFits(w.db, planId, t, expiresAt, w.now, w.rule, s);
    FitsAlike(r.value.db, d, s, w.now);
    if Fits(d, s, w.now) {
      PlanPaymentIsSound(d, b.pid, s);
      NewPaymentKeepsHolds(w, d, s, t, b.pid);
    }
  }

  lemma FitsAlike(a: Db, b: Db, s: SlotId, now: int)
    requires a.slots == b.slots && a.slotHolds == b.slotHolds
    ensures Fits(a, s, now) <==> Fits(b, s, now)
  {
  }

  lemma {:induction false} PlaceHoldsKeepsSlots(db: Db, items: seq<Item>, hold: Hold)
    ensures var r := PlaceHolds(db, items, hold); r.Some? ==> r.value == db.(assets := r.value.assets)
    decreases items
  {
    if items != [] {
      hide PutHold;
      var isRow := items[0].AssetItem? && items[0].assetId.Some?;
      var a := if isRow then AssetId(items[0].asset, items[0].assetId.value) else AssetId(Booth, 0);
      assert PutHold(db, a, hold) == db.(assets := PutHold(db, a, hold).assets) by { PutHoldKeepsSlots(db, a, hold); }
      PlaceHoldsKeepsSlots(PutHold(db, a, hold), items[1..], hold);
      PlaceHoldsKeepsSlots(db, items[1..], hold);
    }
  }

  lemma PutHoldKeepsSlots(db: Db, a: AssetId, hold: Hold)
    ensures PutHold(db, a, hold) == db.(assets := PutHold(db, a, hold).assets)
  {
  }

  lemma {:induction false} NoPlansWithoutCompany(items: seq<Item>)
    requires !NeedsCompany(items)
    ensures PlanIds(items) == [] && SlotLines(items) == multiset{}
    decreases items
  {
    if items != [] {
      assert items[0].AssetItem?;
      assert forall i | 0 <= i < |items[1..]| :: items[1..][i] == items[i + 1];
      NoPlansWithoutCompany(items[1..]);
    }
  }

  lemma {:induction false} LinkedSlotIsNotALine(db: Db, items: seq<Item>, s: SlotId)
    requires SlotLinesAreSellable(db, items) && IsLinked(db, s)
    ensures s !in SlotLines(items)
    decreases items
  {
    if items != [] {
      assert forall i | 0 <= i < |items[1..]| :: items[1..][i] == items[i + 1];
      var p :| p in db.plans && s in db.plans[p].slots;
      assert items[0].SlotItem? && items[0].slotId.Some?
          ==> SlotId(items[0].slot, items[0].slotId.value) !in db.plans[p].slots;
      LinkedSlotIsNotALine(db, items[1..], s);
    }
  }

  /** A cart asks for one plan at most, and for a slot linked to a plan only through it. */
  lemma AllowedCart(db: Db, company: Option<Id>, items: seq<Item>, s: SlotId)
    requires CheckoutIsAllowed(db, company, items) && IsLinked(db, s)
    ensures |PlanIds(items)| <= 1 && s !in SlotLines(items)
  {
    hide PlanIds, SlotLines, HasBoughtPlan, HasBoothLine, IsLinked, SlotLinesAreSellable;
    if company.Some? { LinkedSlotIsNotALine(db, items, s); } else { NoPlansWithoutCompany(items); }
  }

  /** What is in an accepted cart has one plan at most. */
  lemma AcceptedCartHasOnePlan(db: Db, company: Option<Id>, items: seq<Item>)
    requires CheckoutIsAllowed(db, company, items)
    ensures |PlanIds(items)| <= 1
  {
    if company.None? { NoPlansWithoutCompany(items); }
    hide PlanIds;
  }

  lemma OneResolution(db: Db, ids: seq<Id>, t: Target, expiresAt: int, now: int, rule: NullRule)
    requires |ids| == 1
    ensures var all := ResolveAll(db, ids, t, expiresAt, now, rule);
        var one := ResolvePlan(db, ids[0], t, expiresAt, now, rule);
      && all.Some? == one.Some? && (one.Some? ==> all.value == AllResolved(one.value.db, [one.value.entry]))
  {
    hide ResolvePlan;
    assert ids[1..] == [];
  }

  /** Where an accepted checkout gets its slot holds from. */
  lemma CheckoutSlotHolds(db: Db, oid: Id, b: Purchase, items: seq<Item>, expiresAt: int, now: int, rule: NullRule)
                          returns (held: Db)
    requires Checkout(db, oid, b, items, expiresAt, now, rule) != db && |PlanIds(items)| <= 1
    ensures held == db.(assets := held.assets)
    ensures var d := Checkout(db, oid, b, items, expiresAt, now, rule); var ids := PlanIds(items);
      && d.slots == db.slots && d.plans == db.plans
      && (ids == [] ==> d.slotHolds == db.slotHolds)
      && (ids != [] ==>
            var r := ResolvePlan(held, ids[0], ForOrder(oid), expiresAt, now, rule);
            r.Some? && d.slotHolds == r.value.db.slotHolds && r.value.db.slots == db.slots)
  {
    var t := ForOrder(oid);
    held := PlaceHolds(db, items, TargetHold(t, expiresAt)).value;
    PlaceHoldsKeepsSlots(db, items, TargetHold(t, expiresAt));
    hide PlaceHolds, ResolvePlan, PlanIds, CheckoutIsAllowed, OnlyHolds;
    var ids := PlanIds(items);
    if ids != [] {
      OneResolution(held, ids, t, expiresAt, now, rule);
      hide ResolveAll;
      ResolvedTables(held, ids[0], t, expiresAt, now, rule);
    }
  }

  lemma OrderPaymentLines(db: Db, oid: Id, b: Purchase, items: seq<Item>, expiresAt: int, now: int, rule: NullRule)
    requires Checkout(db, oid, b, items, expiresAt, now, rule) != db
    ensures var d := Checkout(db, oid, b, items, expiresAt, now, rule);
      && b.pid in d.payments && Lines(d, d.payments[b.pid]) == items && oid !in db.orders && oid in d.orders
      && CheckoutIsAllowed(db, b.company, items)
  {
    CheckoutTables(db, oid, b, items, expiresAt, now, rule);
    hide Checkout, CheckoutIsAllowed, OnlyHolds, PlanIds;
  }

  lemma BuysByPlanIs(db: Db, pid: Id, s: SlotId)
    requires pid in db.payments && Sound(db, pid) && s !in SlotLines(Lines(db, db.payments[pid]))
    ensures BuysByPlan(db, pid, s)
  {
  }

  lemma CheckoutKeepsHolds(w: World, s: SlotId, oid: Id, b: Purchase, items: seq<Item>, expiresAt: int)
    requires HoldsKept(w, s) && Checkout(w.db, oid, b, items, expiresAt, w.now, w.rule) != w.db
    ensures var d := Checkout(w.db, oid, b, items, expiresAt, w.now, w.rule);
      && (Fits(d, s, w.now) <==>
          (PlanIds(items) != [] ==> HasRoomToHold(w.db, PlanIds(items)[0], expiresAt, w.now, s)))
      && (Fits(d, s, w.now) ==> HoldsKept(World(d, w.now, w.rule), s))
  {
    var t := ForOrder(oid);
    var d := Checkout(w.db, oid, b, items, expiresAt, w.now, w.rule);
    var ids := PlanIds(items);
    assert IsLinked(w.db, s);
    hide *;
    OrderPaymentLines(w.db, oid, b, items, expiresAt, w.now, w.rule);
    AllowedCart(w.db, b.company, items, s);
    CheckoutIsSound(w.db, oid, b, items, expiresAt, w.now, w.rule);
    BuysByPlanIs(d, b.pid, s);
    var held := CheckoutSlotHolds(w.db, oid, b, items, expiresAt, w.now, w.rule);
    AllParts(w, s);
    if ids != [] {
      var r := ResolvePlan(held, ids[0], t, expiresAt, w.now, w.rule);
      ResolvedTables(held, ids[0], t, expiresAt, w.now, w.rule);
      PlacedHolds(held.plans[ids[0]].slots, t, expiresAt, s, w.now);
      SameFits(w.db, held, ids[0], expiresAt, s, w.now);
      ResolutionFits(held, ids[0], t, expiresAt, w.now, w.rule, s);
      FitsAlike(r.value.db, d, s, w.now);
    } else {
      FitsAlike(w.db, d, s, w.now);
    }
    if Fits(d, s, w.now) { NewPaymentKeepsHolds(w, d, s, t, b.pid); }
  }

  lemma SameFits(a: Db, b: Db, planId: Id, expiresAt: int, s: SlotId, now: int)
    requires Fits(a, s, now) && LinksAreUnique(a)
    requires a.slots == b.slots && a.slotHolds == b.slotHolds && a.plans == b.plans
    ensures Fits(b, s, now) && LinksAreUnique(b)
    ensures HasRoomToHold(b, planId, expiresAt, now, s) <==> HasRoomToHold(a, planId, expiresAt, now, s)
  {
  }

  // ---- Deliveries ------------------------------------------------------------------------

  ghost predicate Thinned(before: seq<SlotHold>, after: seq<SlotHold>, s: SlotId, t: Target, now: int) {
    && Live(after, s, now) <= Live(before, s, now)
    && Own(after, s, t, now) <= Own(before, s, t, now)
    && Others(after, s, t, now) <= Others(before, s, t, now)
    && forall h | h in after :: h in before
  }

  lemma ThinnedTwice(a: seq<SlotHold>, b: seq<SlotHold>, c: seq<SlotHold>, s: SlotId, t: Target, now: int)
    requires Thinned(a, b, s, t, now) && Thinned(b, c, s, t, now)
    ensures Thinned(a, c, s, t, now)
  {
  }

  lemma ReleaseThins(db: Db, id: Id, s: SlotId, t: Target, now: int)
    ensures Thinned(db.slotHolds, ReleaseForPayment(db, id).slotHolds, s, t, now)
    ensures Thinned(db.slotHolds, ReleaseForOrder(db, id).slotHolds, s, t, now)
    ensures t == ForPayment(id) ==> Own(ReleaseForPayment(db, id).slotHolds, s, t, now) == 0
    ensures t == ForOrder(id) ==> Own(ReleaseForOrder(db, id).slotHolds, s, t, now) == 0
  {
    KeptHolds(db.slotHolds, (h: SlotHold) => h.paymentId == Some(id), s, t, now);
    KeptHolds(db.slotHolds, (h: SlotHold) => h.orderId == Some(id), s, t, now);
  }

  lemma ReleaseAllThins(db: Db, pid: Id, orderId: Option<Id>, s: SlotId, t: Target, now: int)
    ensures var d := ReleaseAll(db, pid, orderId);
      && Thinned(db.slotHolds, d.slotHolds, s, t, now)
      && (t == ForPayment(pid) || (orderId.Some? && t == ForOrder(orderId.value)) ==> Own(d.slotHolds, s, t, now) == 0)
  {
    ReleaseThins(db, pid, s, t, now);
    var d1 := ReleaseForPayment(db, pid);
    if orderId.Some? {
      ReleaseThins(d1, orderId.value, s, t, now);
      hide ReleaseForPayment, ReleaseForOrder, Live, Own, CountHolds;
      ThinnedTwice(db.slotHolds, d1.slotHolds, ReleaseForOrder(d1, orderId.value).slotHolds, s, t, now);
    }
  }

  lemma NothingThins(holds: seq<SlotHold>, s: SlotId, t: Target, now: int)
    ensures Thinned(holds, holds, s, t, now)
  {
  }

  lemma {:induction false} NothingDropped(holds: seq<SlotHold>, drop: SlotHold -> bool)
    requires forall h | h in holds :: !drop(h)
    ensures KeepHolds(holds, drop) == holds
  {
    if holds != [] {
      assert forall h | h in holds[1..] :: h in holds;
      NothingDropped(holds[1..], drop);
    }
  }

  lemma {:induction false} OthersStay(holds: seq<SlotHold>, drop: SlotHold -> bool, s: SlotId, t: Target, now: int)
    requires forall h | h in holds :: drop(h) ==> IsOwn(h, t)
    ensures Others(KeepHolds(holds, drop), s, t, now) == Others(holds, s, t, now)
  {
    if holds != [] {
      assert forall h | h in holds[1..] :: h in holds;
      OthersStay(holds[1..], drop, s, t, now);
      KeptStep(holds, drop);
      hide KeepHolds, IsOwn;
    }
  }

  /** The holds of this checkout are gone, and only they. */
  ghost predicate OwnDropped(before: seq<SlotHold>, after: seq<SlotHold>, s: SlotId, t: Target, now: int) {
    && Own(after, s, t, now) == 0 && Others(after, s, t, now) == Others(before, s, t, now)
    && forall h | h in after :: h in before
  }

  lemma {:induction false} NoOwnHolds(holds: seq<SlotHold>, s: SlotId, t: Target, now: int)
    requires forall h | h in holds :: !IsOwn(h, t)
    ensures OwnDropped(holds, holds, s, t, now)
  {
    if holds != [] { NoOwnHolds(holds[1..], s, t, now); }
  }

  lemma DroppedByPayment(db: Db, pid: Id, s: SlotId, now: int)
    ensures OwnDropped(db.slotHolds, ReleaseForPayment(db, pid).slotHolds, s, ForPayment(pid), now)
  {
    KeptHolds(db.slotHolds, (h: SlotHold) => h.paymentId == Some(pid), s, ForPayment(pid), now);
    OthersStay(db.slotHolds, (h: SlotHold) => h.paymentId == Some(pid), s, ForPayment(pid), now);
    hide KeepHolds, Own, CountHolds;
  }

  lemma DroppedByOrder(db: Db, oid: Id, s: SlotId, now: int)
    ensures OwnDropped(db.slotHolds, ReleaseForOrder(db, oid).slotHolds, s, ForOrder(oid), now)
  {
    KeptHolds(db.slotHolds, (h: SlotHold) => h.orderId == Some(oid), s, ForOrder(oid), now);
    OthersStay(db.slotHolds, (h: SlotHold) => h.orderId == Some(oid), s, ForOrder(oid), now);
    hide KeepHolds, Own, CountHolds;
  }

  /** Releasing a payment and its order drops exactly what their checkout holds. */
  lemma ReleaseAllDrops(db: Db, pid: Id, s: SlotId, now: int)
    requires pid in db.payments && WellFormed(db.payments[pid]) && HoldsAreKnown(db)
    ensures var p := db.payments[pid];
      OwnDropped(db.slotHolds, ReleaseAll(db, pid, p.orderId).slotHolds, s, TargetOf(p, pid), now)
  {
    var p := db.payments[pid];
    var d1 := ReleaseForPayment(db, pid);
    if p.kind == OrderPayment {
      assert d1.slotHolds == db.slotHolds by {
        NothingDropped(db.slotHolds, (h: SlotHold) => h.paymentId == Some(pid));
      }
      DroppedByOrder(d1, p.orderId.value, s, now);
    } else {
      DroppedByPayment(db, pid, s, now);
    }
    hide ReleaseForPayment, ReleaseForOrder, OwnDropped, HoldsAreKnown;
  }

  lemma SettleDrops(db: Db, pid: Id, status: PaymentStatus, s: SlotId, now: int)
    requires pid in db.payments && WellFormed(db.payments[pid]) && HoldsAreKnown(db)
    ensures var p := db.payments[pid];
      OwnDropped(db.slotHolds, Settle(db, pid, p.orderId, status).slotHolds, s, TargetOf(p, pid), now)
  {
    var marked := SetStatus(db, pid, status);
    assert marked.slotHolds == db.slotHolds && HoldsAreKnown(marked) && WellFormed(marked.payments[pid]);
    assert marked.payments[pid] == db.payments[pid].(status := status);
    hide ReleaseAll, OwnDropped, HoldsAreKnown, WellFormed;
    ReleaseAllDrops(marked, pid, s, now);
  }

  /** Every ending of a delivery but that drops the holds of its own checkout, and no other. */
  lemma DeliveryDropsOwn(db: Db, pid: Id, refundGranted: bool, now: int, s: SlotId)
    requires pid in db.payments && Sound(db, pid) && HoldsAreKnown(db)
    ensures var d := ApplySuccess(db, pid, refundGranted, now);
      && (BreaksOff(db, pid, now) ==> d.slotHolds == db.slotHolds)
      && (!BreaksOff(db, pid, now) ==> OwnDropped(db.slotHolds, d.slotHolds, s, TargetOf(db.payments[pid], pid), now))
  {
    var p := db.payments[pid];
    var t := TargetOf(p, pid);
    var mid := Mid(db, pid, now);
    SoundParts(db, pid);
    DeliveredIs(db, pid, refundGranted, now);
    MidRows(db, pid, now);
    DeliveryIsForeseen(db, pid, now);
    assert p.kind != OrderPayment && p.kind != PlanPayment ==> forall h | h in db.slotHolds :: !IsOwn(h, t);
    hide ApplySuccess, Mid, IsMissing, Core, Returned, StatusAfter, ReleaseForPayment, ReleaseForOrder, Settle,
         OwnDropped, Sound, HoldsAreKnown, IsOwn, StopsWith, ServedBefore;
    KnownAlike(db, mid);
    SettleDrops(db, pid, Failed, s, now);
    AbortDrops(mid, pid, Returned(db, pid, now), refundGranted, s, now);
    if p.kind == OrderPayment {
      DroppedByOrder(mid, p.orderId.value, s, now);
    } else if p.kind == PlanPayment {
      DroppedByPayment(mid, pid, s, now);
    } else {
      NoOwnHolds(db.slotHolds, s, t, now);
    }
  }

  lemma AbortDrops(db: Db, pid: Id, returned: multiset<SlotId>, refundGranted: bool, s: SlotId, now: int)
    requires pid in db.payments && WellFormed(db.payments[pid]) && HoldsAreKnown(db)
    ensures var p := db.payments[pid];
      OwnDropped(db.slotHolds, Abort(db, pid, p, returned, refundGranted).slotHolds, s, TargetOf(p, pid), now)
  {
    hide Settle, Credit, OwnDropped;
    var p := db.payments[pid];
    var x := if p.kind == OrderPayment && p.orderId.Some? then db.(slots := Credit(db.slots, returned)) else db;
    SettleDrops(x, pid, RefundStatus(refundGranted), s, now);
  }

  lemma KnownAlike(db: Db, d: Db)
    requires HoldsAreKnown(db) && d.slotHolds == db.slotHolds && d.payments == db.payments && d.orders == db.orders
    ensures HoldsAreKnown(d)
  {
  }

  /** The live holds after the delivery: those of all other checkouts, and its own too if it breaks off. */
  function HoldsLeft(db: Db, pid: Id, now: int, s: SlotId): nat
    requires pid in db.payments
  {
    if BreaksOff(db, pid, now) then Live(db.slotHolds, s, now)
    else Others(db.slotHolds, s, TargetOf(db.payments[pid], pid), now)
  }

  /** Beside them there is room for what the delivery would take. */
  predicate HasRoom(db: Db, pid: Id, now: int, s: SlotId)
    requires pid in db.payments
  {
    s in db.slots && WouldTake(db, pid, now)[s] + HoldsLeft(db, pid, now, s) <= db.slots[s].available
  }

  lemma {:induction false} FewerSlotLines(items: seq<Item>, n: nat)
    requires n <= |items|
    ensures SlotLines(items[..n]) <= SlotLines(items)
    decreases n
  {
    if n == 0 {
      assert items[..0] == [];
    } else {
      FewerSlotLines(items[1..], n - 1);
      FirstSlotLine(items);
      FirstSlotLine(items[..n]);
      assert items[..n][1..] == items[1..][..n - 1] && items[..n][0] == items[0];
      hide SlotLines;
    }
  }

  lemma FirstSlotLine(items: seq<Item>)
    requires items != []
    ensures SlotLines(items) == SlotLines([items[0]]) + SlotLines(items[1..])
  {
    assert [items[0]][1..] == [] && SlotLines([]) == multiset{};
  }

  /** A delivery takes the foreseen copies of a slot sold only through plans, and gives none of them back. */
  lemma NetIsForeseen(db: Db, pid: Id, now: int, s: SlotId)
    requires pid in db.payments && BuysByPlan(db, pid, s)
    ensures Net(db, pid, now)[s] == WouldTake(db, pid, now)[s]
  {
    var p := db.payments[pid];
    if !IsMissing(db, pid, now) {
      var n := Core(db, pid, now).served;
      DeliveryIsForeseen(db, pid, now);
      assert n <= |Lines(db, p)|;
      FewerSlotLines(Lines(db, p), n);
      hide ItemsSlots, SlotLines, Core, IsMissing, Lines, ServedBefore, StopsWith;
    }
  }

  /**
   * The exact condition for the bound: a delivery keeps it if and only if
   * there was room beside the live holds it leaves.
   */
  lemma DeliveryFits(db: Db, pid: Id, refundGranted: bool, now: int, s: SlotId)
    requires pid in db.payments && BuysByPlan(db, pid, s) && s in db.slots && HoldsAreKnown(db)
    ensures Fits(ApplySuccess(db, pid, refundGranted, now), s, now) <==> HasRoom(db, pid, now, s)
  {
    var p := db.payments[pid];
    var t := TargetOf(p, pid);
    var d := ApplySuccess(db, pid, refundGranted, now);
    BuysByPlanSound(db, pid, s);
    SoundParts(db, pid);
    DeliveryEffect(db, pid, refundGranted, now);
    DeliveryDropsOwn(db, pid, refundGranted, now, s);
    NetIsForeseen(db, pid, now, s);
    LiveIsOwnAndOthers(d.slotHolds, s, t, now);
    hide ApplySuccess, Net, WouldTake, BreaksOff, Live, Own, CountHolds, Tidied, Mid, StatusAfter, BuysByPlan,
         HoldsAreKnown;
  }

  /**
   * A charge that arrives while the payment's own live holds cover its copies
   * has room, unless it takes some and breaks off.
   */
  lemma LiveHoldHasRoom(db: Db, pid: Id, now: int, s: SlotId)
    requires pid in db.payments && Fits(db, s, now)
    requires Copied(db, db.payments[pid])[s] <= Own(db.slotHolds, s, TargetOf(db.payments[pid], pid), now)
    requires BreaksOff(db, pid, now) ==> s !in WouldTake(db, pid, now)
    ensures HasRoom(db, pid, now, s)
  {
    var p := db.payments[pid];
    LiveIsOwnAndOthers(db.slotHolds, s, TargetOf(p, pid), now);
    if !IsMissing(db, pid, now) {
      var n := ServedBefore(db, pid, now);
      assert n <= |Lines(db, p)|;
      hide ItemsSlots, Lines, ServedBefore, IsMissing, Live, Own, CountHolds, BreaksOff;
      ItemsSlotsSplit(Lines(db, p), p.bundles, n);
    }
  }

  // ---- Steps -----------------------------------------------------------------------------

  /** A step that creates no payment and no hold keeps the rest of the invariant. */
  lemma RestStays(w: World, d: Db, later: int, s: SlotId)
    requires HoldsKept(w, s) && Fits(d, s, later)
    requires Grown(w.db, d) && d.payments.Keys == w.db.payments.Keys
    requires IsLinked(d, s) && LinksAreUnique(d)
    requires forall h | h in d.slotHolds :: h in w.db.slotHolds
    ensures HoldsKept(World(d, later, w.rule), s)
  {
    hide Fits, BuysByPlan, IsLinked, LinksAreUnique;
    forall pid | pid in d.payments ensures BuysByPlan(d, pid, s) { BuysByPlanStays(w.db, d, pid, s); }
  }

  lemma PlansAlike(a: Db, b: Db, s: SlotId)
    requires a.plans == b.plans && IsLinked(a, s) && LinksAreUnique(a)
    ensures IsLinked(b, s) && LinksAreUnique(b)
  {
  }

  lemma SameRoom(db: Db, pid: Id, now: int, s: SlotId)
    requires pid in db.payments
    ensures HasRoom(SetStatus(db, pid, Success), pid, now, s) <==> HasRoom(db, pid, now, s)
  {
    MarkedIsAlike(db, pid, now);
    var marked := SetStatus(db, pid, Success);
    assert marked.slots == db.slots && marked.slotHolds == db.slotHolds;
    hide IsMissing, ServedBefore, StopsWith, ItemsSlots, Lines, CountHolds, Live;
  }

  lemma MarkedIsKnown(db: Db, pid: Id)
    requires pid in db.payments && HoldsAreKnown(db)
    ensures HoldsAreKnown(SetStatus(db, pid, Success))
  {
  }

  /** From the invariant, a delivery keeps all of it if there is room, and breaks the bound if there is none. */
  lemma DeliveryKeepsHolds(w: World, s: SlotId, pid: Id, refundGranted: bool)
    requires HoldsKept(w, s) && pid in w.db.payments
    ensures var d := ApplySuccess(SetStatus(w.db, pid, Success), pid, refundGranted, w.now);
      && (Fits(d, s, w.now) <==> HasRoom(w.db, pid, w.now, s))
      && (HasRoom(w.db, pid, w.now, s) ==> HoldsKept(World(d, w.now, w.rule), s))
  {
    var marked := SetStatus(w.db, pid, Success);
    var d := ApplySuccess(marked, pid, refundGranted, w.now);
    assert marked == w.db.(payments := marked.payments);
    AllParts(w, s);
    assert HoldsAreKnown(w.db) && BuysByPlan(w.db, pid, s) && s in marked.slots;
    hide *;
    BuysByPlanSound(w.db, pid, s);
    SoundParts(w.db, pid);
    ChargedTables(w.db, pid, refundGranted, w.now);
    BuysByPlanStays(w.db, marked, pid, s);
    BuysByPlanSound(marked, pid, s);
    MarkedIsKnown(w.db, pid);
    DeliveryFits(marked, pid, refundGranted, w.now, s);
    SameRoom(w.db, pid, w.now, s);
    if HasRoom(w.db, pid, w.now, s) {
      DeliveryDropsOwn(marked, pid, refundGranted, w.now, s);
      if !BreaksOff(marked, pid, w.now) {
        DroppedSubset(marked.slotHolds, d.slotHolds, s, TargetOf(marked.payments[pid], pid), w.now);
      }
      PlansAlike(w.db, d, s);
      ChargedKeys(w.db, d, pid, w.db.payments[pid].(status := StatusAfter(marked, pid, refundGranted, w.now)));
      RestStays(w, d, w.now, s);
    }
  }

  lemma DroppedSubset(before: seq<SlotHold>, after: seq<SlotHold>, s: SlotId, t: Target, now: int)
    requires OwnDropped(before, after, s, t, now)
    ensures forall h | h in after :: h in before
  {
  }

  lemma ChargedKeys(db: Db, d: Db, pid: Id, p: Payment)
    requires pid in db.payments && d.payments == db.payments[pid := p]
    ensures d.payments.Keys == db.payments.Keys
  {
  }

  lemma ThinnedSubset(before: seq<SlotHold>, after: seq<SlotHold>, s: SlotId, t: Target, now: int)
    requires Thinned(before, after, s, t, now)
    ensures Live(after, s, now) <= Live(before, s, now)
    ensures forall h | h in after :: h in before
  {
  }

  lemma BuysByPlanSound(db: Db, pid: Id, s: SlotId)
    requires pid in db.payments && BuysByPlan(db, pid, s)
    ensures Sound(db, pid)
  {
  }

  lemma RefundKeepsHolds(w: World, s: SlotId, pid: Id)
    requires HoldsKept(w, s)
    ensures HoldsKept(World(RefundPayment(w.db, pid), w.now, w.rule), s)
  {
    if pid in w.db.payments && w.db.payments[pid].status == Success {
      var d := RefundPayment(w.db, pid);
      AllParts(w, s);
      BuysByPlanSound(w.db, pid, s);
      SoundParts(w.db, pid);
      RefundTables(w.db, pid);
      PlansAlike(w.db, d, s);
      hide HoldsKept, RefundPayment, Copied, Live, BuysByPlan, IsLinked, LinksAreUnique;
      RestStays(w, d, w.now, s);
    }
  }

  /** Releasing holds and marking statuses. */
  lemma ReleaseKeepsHolds(w: World, d: Db, s: SlotId)
    requires HoldsKept(w, s)
    requires d.slots == w.db.slots && d.plans == w.db.plans && Grown(w.db, d) && d.payments.Keys == w.db.payments.Keys
    requires Live(d.slotHolds, s, w.now) <= Live(w.db.slotHolds, s, w.now)
        && forall h | h in d.slotHolds :: h in w.db.slotHolds
    ensures HoldsKept(World(d, w.now, w.rule), s)
  {
    AllParts(w, s);
    PlansAlike(w.db, d, s);
    hide HoldsKept, Live, BuysByPlan, IsLinked, LinksAreUnique, Grown;
    RestStays(w, d, w.now, s);
  }

  lemma ClosingThins(db: Db, pid: Id, s: SlotId, now: int)
    requires pid in db.payments
    ensures var t := ForPayment(pid);
      && Thinned(db.slotHolds, ChargeFailed(db, pid).slotHolds, s, t, now)
      && Thinned(db.slotHolds, CancelPending(db, pid).slotHolds, s, t, now)
  {
    hide ReleaseAll, Thinned;
    ReleaseAllThins(db, pid, db.payments[pid].orderId, s, ForPayment(pid), now);
    ReleaseAllThins(SetStatus(db, pid, Failed), pid, db.payments[pid].orderId, s, ForPayment(pid), now);
    NothingThins(db.slotHolds, s, ForPayment(pid), now);
  }

  lemma ClosingKeepsHolds(w: World, s: SlotId, pid: Id)
    requires HoldsKept(w, s)
    ensures HoldsKept(World(ChargeFailed(w.db, pid), w.now, w.rule), s)
    ensures HoldsKept(World(CancelPending(w.db, pid), w.now, w.rule), s)
  {
    if pid in w.db.payments {
      var p := w.db.payments[pid];
      var failed, cancelled := ChargeFailed(w.db, pid), CancelPending(w.db, pid);
      var status := if p.status == Refunded then Refunded else Failed;
      ClosingTables(w.db, pid);
      hide *;
      ClosingThins(w.db, pid, s, w.now);
      ThinnedSubset(w.db.slotHolds, failed.slotHolds, s, ForPayment(pid), w.now);
      ThinnedSubset(w.db.slotHolds, cancelled.slotHolds, s, ForPayment(pid), w.now);
      TidiedGrows(w.db, failed, pid, status);
      TidiedPlans(w.db, failed, pid, status);
      ReleaseKeepsHolds(w, failed, s);
      if p.status == Pending {
        TidiedGrows(w.db, cancelled, pid, Failed);
        TidiedPlans(w.db, cancelled, pid, Failed);
        ReleaseKeepsHolds(w, cancelled, s);
      }
    }
  }

  lemma TidiedPlans(before: Db, after: Db, pid: Id, status: PaymentStatus)
    requires pid in before.payments && Tidied(before, after, pid, status)
    ensures after.plans == before.plans
  {
  }

  lemma CleanupKeepsHolds(w: World, s: SlotId)
    requires HoldsKept(w, s)
    ensures HoldsKept(World(ReleaseExpired(w.db, w.now), w.now, w.rule), s)
  {
    KeptHolds(w.db.slotHolds, (h: SlotHold) => h.expiresAt < w.now, s, ForPayment(0), w.now);
    hide HoldsKept, Live, Own, CountHolds, ClearHolds;
    ReleaseKeepsHolds(w, ReleaseExpired(w.db, w.now), s);
  }

  lemma TickKeepsHolds(w: World, s: SlotId, elapsed: nat)
    requires HoldsKept(w, s)
    ensures HoldsKept(World(w.db, w.now + elapsed, w.rule), s)
  {
    LiveFades(w.db.slotHolds, s, w.now, w.now + elapsed);
    hide Live, BuysByPlan;
  }

  lemma InitSingleKeepsHolds(w: World, s: SlotId, b: Purchase, kind: PaymentKind, targetId: Id)
    requires HoldsKept(w, s) && (kind.SlotPayment? ==> SlotId(kind.slot, targetId) != s)
    ensures HoldsKept(World(InitSingle(w.db, b, kind, targetId), w.now, w.rule), s)
  {
    var d := InitSingle(w.db, b, kind, targetId);
    if d != w.db {
      SingleIsSound(w.db, b, kind, targetId, s);
      hide *;
      AllParts(w, s);
      FitsAlike(w.db, d, s, w.now);
      NewPaymentKeepsHolds(w, d, s, ForPayment(b.pid), b.pid);
    }
  }

  lemma SingleIsSound(db: Db, b: Purchase, kind: PaymentKind, targetId: Id, s: SlotId)
    requires InitSingle(db, b, kind, targetId) != db && (kind.SlotPayment? ==> SlotId(kind.slot, targetId) != s)
    ensures var d := InitSingle(db, b, kind, targetId);
      && b.pid !in db.payments && b.pid in d.payments && BuysByPlan(d, b.pid, s)
      && d.payments.Keys == db.payments.Keys + {b.pid} && Grown(db, d)
      && (forall x | x in db.payments :: d.payments[x] == db.payments[x])
      && d.slots == db.slots && d.slotHolds == db.slotHolds && d.plans == db.plans
  {
    var d := InitSingle(db, b, kind, targetId);
    var p := d.payments[b.pid];
    assert WellFormed(p) && Lines(d, p)[1..] == [];
    SingleLineHasOneBooth(d, b.pid);
    assert SlotLines(Lines(d, p)) == SlotLines([Lines(d, p)[0]]) && SlotLines([]) == multiset{};
    hide OneBooth, Rows;
  }

  lemma SameTablesGrow(db: Db, d: Db)
    requires d.payments == db.payments && d.orders == db.orders
    ensures Grown(db, d)
  {
  }

  lemma MoreCopiesFit(db: Db, d: Db, s: SlotId, now: int)
    requires Fits(db, s, now) && s in d.slots && d.slots[s].available >= db.slots[s].available
    requires Live(d.slotHolds, s, now) <= Live(db.slotHolds, s, now)
    ensures Fits(d, s, now)
  {
  }

  lemma AdminKeepsHolds(w: World, d: Db, s: SlotId)
    requires HoldsKept(w, s) && d.payments == w.db.payments && d.orders == w.db.orders && d.plans == w.db.plans
    requires s in w.db.slots && s in d.slots
    requires d.slotHolds == w.db.slotHolds && d.slots[s].available >= w.db.slots[s].available
    ensures HoldsKept(World(d, w.now, w.rule), s)
  {
    hide *;
    AllParts(w, s);
    PlansAlike(w.db, d, s);
    SameTablesGrow(w.db, d);
    MoreCopiesFit(w.db, d, s, w.now);
    RestStays(w, d, w.now, s);
  }

  lemma RemovalKeepsLinks(db: Db, s: SlotId, other: SlotId)
    requires IsLinked(db, s) && LinksAreUnique(db) && other != s
    ensures var d := RemoveSlot(db, other); IsLinked(d, s) && LinksAreUnique(d)
  {
    var d := RemoveSlot(db, other);
    if d != db {
      forall p, x | p in d.plans ensures multiset(d.plans[p].slots)[x] <= 1 {
        WithoutKeeps(db.plans[p].slots, other, x);
        assert multiset(db.plans[p].slots)[x] <= 1;
      }
      var p :| p in db.plans && s in db.plans[p].slots;
      WithoutKeeps(db.plans[p].slots, other, s);
      assert p in d.plans && s in d.plans[p].slots;
    }
  }

  lemma RemovalThins(db: Db, other: SlotId, s: SlotId, t: Target, now: int)
    requires other != s && s in db.slots
    ensures var d := RemoveSlot(db, other);
      && Thinned(db.slotHolds, d.slotHolds, s, t, now) && s in d.slots && d.slots[s] == db.slots[s]
      && d.payments == db.payments && d.orders == db.orders
      && Own(d.slotHolds, s, t, now) == Own(db.slotHolds, s, t, now)
  {
    KeptHolds(db.slotHolds, (h: SlotHold) => h.slot == other, s, t, now);
    NothingThins(db.slotHolds, s, t, now);
  }

  lemma RemovalKeepsHolds(w: World, s: SlotId, other: SlotId)
    requires HoldsKept(w, s) && other != s
    ensures HoldsKept(World(RemoveSlot(w.db, other), w.now, w.rule), s)
  {
    assert s in w.db.slots;
    hide *;
    var d := RemoveSlot(w.db, other);
    var t := ForPayment(0);
    AllParts(w, s);
    RemovalKeepsLinks(w.db, s, other);
    RemovalThins(w.db, other, s, t, w.now);
    ThinnedSubset(w.db.slotHolds, d.slotHolds, s, t, w.now);
    SameTablesGrow(w.db, d);
    MoreCopiesFit(w.db, d, s, w.now);
    RestStays(w, d, w.now, s);
  }

  // ---- Runs ------------------------------------------------------------------------------

  /** The slot is left alone by administrators and not sold singly. */
  predicate IsLeftAlone(e: Event, s: SlotId) {
    match e
    case EInitSingle(_, kind, targetId) => kind.SlotPayment? ==> SlotId(kind.slot, targetId) != s
    case EAssignSlot(_, x) => x != s
    case ESetTotalSlots(x, _) => x != s
    case ERemoveSlot(x) => x != s
    case _ => true
  }

  /** The plan whose bundle the event holds when it goes through. */
  function PlanHeld(e: Event): Option<Id> {
    if e.EInitPlan? then Some(e.planId)
    else if e.ECheckout? && PlanIds(e.items) != [] then Some(PlanIds(e.items)[0])
    else None
  }

  /**
   * A charge, however late, finds room beside the live holds of the others, and so does a hold beside all of them. The
   * latter is a condition only where null columns are left out of the count (`CountedHoldsHaveRoom`).
   */
  ghost predicate HoldAllowed(w: World, e: Event, s: SlotId) {
    && IsLeftAlone(e, s) && (Delivers(w, e) ==> HasRoom(w.db, e.pid, w.now, s))
    && (PlanHeld(e).Some? && Next(w, e) != w.db ==> HasRoomToHold(w.db, PlanHeld(e).value, e.expiresAt, w.now, s))
  }

  /** The holds on the slot are all by orders, for a checkout, or all by payments, for a plan payment. */
  predicate IsOneColumn(holds: seq<SlotHold>, s: SlotId, byOrder: bool) {
    forall h | h in holds && h.slot == s :: if byOrder then h.orderId.Some? else h.paymentId.Some?
  }

  /** Where null columns are counted, or there are none to leave out, what goes through always has room. */
  lemma CountedHoldsHaveRoom(w: World, e: Event, s: SlotId)
    requires HoldsKept(w, s) && IsLeftAlone(e, s) && PlanHeld(e).Some? && Next(w, e) != w.db
    requires w.rule == NullIsUnknown ==> IsOneColumn(w.db.slotHolds, s, e.ECheckout?)
    ensures HasRoomToHold(w.db, PlanHeld(e).value, e.expiresAt, w.now, s)
  {
    AllParts(w, s);
    assert IsLinked(w.db, s);
    if e.EInitPlan? {
      InitPlanTables(w.db, e.b, e.planId, e.expiresAt, w.now, w.rule);
      hide ResolvePlan, InitPlan, HasRoomToHold, Fits, SlotsAreAvailable;
      CheckedHasRoom(w.db, e.planId, ForPayment(e.b.pid), e.expiresAt, w.now, w.rule, s);
    } else {
      OrderPaymentLines(w.db, e.oid, e.b, e.items, e.expiresAt, w.now, w.rule);
      AllowedCart(w.db, e.b.company, e.items, s);
      var held := CheckoutSlotHolds(w.db, e.oid, e.b, e.items, e.expiresAt, w.now, w.rule);
      hide ResolvePlan, Checkout, CheckoutIsAllowed, PlanIds, HasRoomToHold, Fits;
      CheckedHasRoom(held, PlanIds(e.items)[0], ForOrder(e.oid), e.expiresAt, w.now, w.rule, s);
      SameFits(w.db, held, PlanIds(e.items)[0], e.expiresAt, s, w.now);
    }
  }

  lemma AdminStepKeepsHolds(w: World, e: Event, s: SlotId)
    requires HoldsKept(w, s) && IsLeftAlone(e, s)
    requires e.EAssignSlot? || e.EUnassignSlot? || e.ESetTotalSlots?
    ensures HoldsKept(World(Next(w, e), w.now, w.rule), s)
  {
    AllParts(w, s);
    var d := Next(w, e);
    assert d == w.db.(slots := d.slots) && s in d.slots && d.slots[s].available >= w.db.slots[s].available by {
      hide HoldsKept, Live, IsLinked, LinksAreUnique;
    }
    hide HoldsKept, Next;
    AdminKeepsHolds(w, d, s);
  }

  /** The exact step: an event keeps the invariant if and only if it is no delivery without room. */
  lemma HoldStep(w: World, e: Event, s: SlotId)
    requires HoldsKept(w, s) && IsLeftAlone(e, s)
    ensures HoldAllowed(w, e, s) ==> HoldsKept(Step(w, e), s)
    ensures !HoldAllowed(w, e, s) ==> !Fits(Step(w, e).db, s, w.now) && Step(w, e).now == w.now
  {
    hide HoldsKept, InitSingle, InitPlan, Checkout, ApplySuccess, RefundPayment, ReleaseExpired, ChargeFailed,
         CancelPending, AssignSlot, UnassignSlot, SetTotalSlots, RemoveSlot, HasRoom, PlanIds;
    match e
    case EInitSingle(b, kind, targetId) => InitSingleKeepsHolds(w, s, b, kind, targetId);
    case EInitPlan(b, planId, expiresAt) =>
      if Next(w, e) != w.db { InitPlanKeepsHolds(w, s, b, planId, expiresAt); }
    case ECheckout(oid, b, items, expiresAt) =>
      if Next(w, e) != w.db { CheckoutKeepsHolds(w, s, oid, b, items, expiresAt); }
    case EChargeSuccess(pid, granted) => if Delivers(w, e) { DeliveryKeepsHolds(w, s, pid, granted); }
    case EAdminVerify(pid, granted) => if Delivers(w, e) { DeliveryKeepsHolds(w, s, pid, granted); }
    case EChargeFailed(pid) => ClosingKeepsHolds(w, s, pid);
    case ECancel(pid) => ClosingKeepsHolds(w, s, pid);
    case ERefund(pid) => RefundKeepsHolds(w, s, pid);
    case ECleanup => CleanupKeepsHolds(w, s);
    case ETick(elapsed) => TickKeepsHolds(w, s, elapsed);
    case EAssignSlot(_, _) => AdminStepKeepsHolds(w, e, s);
    case EUnassignSlot(_) => AdminStepKeepsHolds(w, e, s);
    case ESetTotalSlots(_, _) => AdminStepKeepsHolds(w, e, s);
    case ERemoveSlot(other) => RemovalKeepsHolds(w, s, other);
  }

  ghost predicate HoldAllowedRun(w: World, events: seq<Event>, s: SlotId)
    decreases events
  {
    events != [] ==>
      HoldAllowed(w, events[0], s) && HoldAllowedRun(Step(w, events[0]), events[1..], s)
  }

  /** Over every such run the live holds on the slot fit in the copies that are available. */
  lemma {:induction false} LiveHoldsFit(w: World, events: seq<Event>, s: SlotId)
    requires HoldsKept(w, s) && HoldAllowedRun(w, events, s)
    ensures HoldsKept(Run(w, events), s)
    ensures Fits(Run(w, events).db, s, Run(w, events).now)
    decreases events
  {
    AllParts(w, s);
    if events != [] {
      HoldStep(w, events[0], s);
      hide HoldsKept, Step, IsLeftAlone, HasRoom, Fits;
      LiveHoldsFit(Step(w, events[0]), events[1..], s);
    }
  }

  ghost predicate LeftAloneRun(w: World, events: seq<Event>, s: SlotId)
    decreases events
  {
    events != [] ==>
      IsLeftAlone(events[0], s) && LeftAloneRun(Step(w, events[0]), events[1..], s)
  }

  ghost predicate FitsThroughout(w: World, events: seq<Event>, s: SlotId)
    decreases events
  {
    Fits(w.db, s, w.now) && (events == [] || FitsThroughout(Step(w, events[0]), events[1..], s))
  }

  /**
   * With the slot left alone, the bound holds at every moment of a run if
   * and only if every delivery of it found room.
   */
  lemma {:induction false} BoundIsExact(w: World, events: seq<Event>, s: SlotId)
    requires HoldsKept(w, s) && LeftAloneRun(w, events, s)
    ensures FitsThroughout(w, events, s) <==> HoldAllowedRun(w, events, s)
    decreases events
  {
    AllParts(w, s);
    if events != [] {
      var next := Step(w, events[0]);
      HoldStep(w, events[0], s);
      hide HoldsKept, Step, IsLeftAlone, HasRoom, Fits;
      if HoldAllowed(w, events[0], s) { BoundIsExact(next, events[1..], s); }
    }
  }
}
