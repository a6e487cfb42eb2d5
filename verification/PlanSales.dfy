/**
 * Which plan purchases begin: exact conditions on the tables for starting a plan payment and for a checkout, and that
 * no company buys a second plan.
 */
module PlanSales {
  import opened Common
  import opened CompanyTier
  import opened CheckoutHold
  import opened Tables
  import opened Inventory
  import opened BundleResolution
  import opened Machine
  import opened Charges
  import opened BundleHolds
  import opened Growth
  import opened Outcomes
  import opened FirstFit
  import opened Lifecycles

  // ---- What counts as bought -------------------------------------------------------------

  /** The payment was for a plan: it is a plan payment, or the payment of an order with a plan line. */
  predicate IsForAPlan(db: Db, p: Payment) {
    || p.kind == PlanPayment
    || (&& p.kind == OrderPayment && p.orderId.Some? && p.orderId.value in db.orders
        && exists i | 0 <= i < |db.orders[p.orderId.value].items| :: db.orders[p.orderId.value].items[i].PlanItem?)
  }

  predicate IsPlanSale(db: Db, company: Id, pid: Id) {
    && pid in db.payments && db.payments[pid].companyId == Some(company) && db.payments[pid].status == Success
    && IsForAPlan(db, db.payments[pid])
  }

  lemma BoughtIs(db: Db, company: Id)
    ensures HasBoughtPlan(db, company) <==> exists pid :: IsPlanSale(db, company, pid)
  {
    if pid :| IsPlanSale(db, company, pid) { assert pid in db.payments; }
    if HasBoughtPlan(db, company) {
      var pid :| pid in db.payments &&
        var p := db.payments[pid];
        && p.companyId == Some(company) && p.status == Success
        && (p.kind == PlanPayment
            || (&& p.kind == OrderPayment && p.orderId.Some? && p.orderId.value in db.orders
                && exists i | 0 <= i < |db.orders[p.orderId.value].items| ::
                    db.orders[p.orderId.value].items[i].PlanItem?));
      assert IsPlanSale(db, company, pid);
    }
  }

  // ---- Starting a plan payment -----------------------------------------------------------

  /** A payment of this company for this plan that is still pending. */
  predicate IsPendingSale(db: Db, company: Id, planId: Id, pid: Id) {
    && pid in db.payments && db.payments[pid].kind == PlanPayment && db.payments[pid].companyId == Some(company)
    && db.payments[pid].targetId == Some(planId) && db.payments[pid].status == Pending
  }

  predicate HasABooth(db: Db, company: Id) {
    exists a | a in db.assets :: a.kind == Booth && db.assets[a].owner == Some(company)
  }

  /**
   * The plan exists and is on sale, its booth is of a high tier and its session rules are complete or absent, and for
   * this checkout every slot of it is there and every row it asks for is free.
   */
  ghost predicate IsOnSale(db: Db, planId: Id, t: Target, now: int, rule: NullRule) {
    && planId in db.plans && db.plans[planId].active
    && var plan := db.plans[planId]; var m, p := plan.masterclass, plan.presentation;
    && plan.boothTier in {None, Some(Gold), Some(Platinum), Some(Headliner)}
    && (m.duration.Some? <==> m.day.Some?) && (p.duration.Some? <==> p.day.Some?)
    && (forall s | s in plan.slots :: SlotIsThere(db, s, t, now, rule))
    && (plan.boothTier.Some? ==> exists a :: IsFreeBooth(db, a, plan.boothTier.value, t, now))
    && (m.duration.Some? ==> exists a :: IsFreeSession(db, a, Masterclass, m, t, now))
    && (p.duration.Some? ==> exists a :: IsFreeSession(db, a, Presentation, p, t, now))
  }

  lemma SinglePlanIsCompatible(db: Db, company: Id, planId: Id)
    ensures PlansAreCompatible(db, company, [PlanItem(Some(planId), 0, 1)]) <==>
      && (forall pid :: !IsPlanSale(db, company, pid))
      && (planId in db.plans && db.plans[planId].boothTier.Some? ==> !HasABooth(db, company))
  {
    var items := [PlanItem(Some(planId), 0, 1)];
    assert items[1..] == [];
    assert PlanIds(items) == [planId];
    BoughtIs(db, company);
    assert OwnBooths(db.assets, Some(company)) == {} <==> !HasABooth(db, company) by {
      if HasABooth(db, company) {
        var a :| a in db.assets && a.kind == Booth && db.assets[a].owner == Some(company);
        assert a in OwnBooths(db.assets, Some(company));
      }
    }
    hide HasBoughtPlan, IsPlanSale, OwnBooths, HasABooth;
  }

  lemma BuyableIs(db: Db, company: Option<Id>, planId: Id)
    ensures PlanIsBuyable(db, company, planId) <==>
      && company.Some? && company.value in db.companies
      && (forall pid :: !IsPendingSale(db, company.value, planId, pid) && !IsPlanSale(db, company.value, pid))
      && (planId in db.plans && db.plans[planId].boothTier.Some? ==> !HasABooth(db, company.value))
  {
    if company.Some? {
      SinglePlanIsCompatible(db, company.value, planId);
      hide PlansAreCompatible, IsPlanSale, HasABooth;
      if pid :| IsPendingSale(db, company.value, planId, pid) {
        assert pid in db.payments && !PlanIsBuyable(db, company, planId);
      } else {
        assert forall pid | pid in db.payments :: !IsPendingSale(db, company.value, planId, pid);
      }
    }
  }

  /**
   * A plan payment starts if and only if its id is new, the company exists, has no payment pending for the plan, has
   * bought no plan and, for a plan with a booth, has no booth, and the plan is on sale.
   */
  lemma PlanPaymentStarts(db: Db, b: Purchase, planId: Id, expiresAt: int, now: int, rule: NullRule)
    ensures InitPlan(db, b, planId, expiresAt, now, rule) != db <==>
      && b.pid !in db.payments && b.company.Some? && b.company.value in db.companies
      && (forall pid :: !IsPendingSale(db, b.company.value, planId, pid) && !IsPlanSale(db, b.company.value, pid))
      && (planId in db.plans && db.plans[planId].boothTier.Some? ==> !HasABooth(db, b.company.value))
      && IsOnSale(db, planId, ForPayment(b.pid), now, rule)
  {
    BuyableIs(db, b.company, planId);
    ResolutionIsComplete(db, planId, ForPayment(b.pid), expiresAt, now, rule);
    var d := InitPlan(db, b, planId, expiresAt, now, rule);
    if b.pid !in db.payments && PlanIsBuyable(db, b.company, planId)
       && ResolvePlan(db, planId, ForPayment(b.pid), expiresAt, now, rule).Some? {
      assert b.pid in d.payments;
    }
    hide PlanIsBuyable, ResolvePlan, SlotIsThere, IsFreeBooth, IsFreeSession, IsPendingSale, IsPlanSale, HasABooth;
  }

  // ---- Checkout --------------------------------------------------------------------------

  /** A line for a plan of the catalogue. */
  predicate IsPlanLine(item: Item) {
    item.PlanItem? && item.planId.Some?
  }

  /** Line number `n` is the only one for a plan. */
  predicate IsOnlyPlanLine(items: seq<Item>, n: nat) {
    n < |items| && IsPlanLine(items[n]) && forall i | 0 <= i < |items| && IsPlanLine(items[i]) :: i == n
  }

  lemma {:induction false} NoPlanLines(items: seq<Item>)
    ensures PlanIds(items) == [] <==> forall i | 0 <= i < |items| :: !IsPlanLine(items[i])
    decreases items
  {
    if items != [] {
      NoPlanLines(items[1..]);
      assert forall i | 0 <= i < |items[1..]| :: items[1..][i] == items[i + 1];
      if forall i | 0 <= i < |items[1..]| :: !IsPlanLine(items[1..][i]) {
        assert forall i | 1 <= i < |items| :: items[i] == items[1..][i - 1];
      }
    }
  }

  lemma {:induction false} OnePlanLine(items: seq<Item>, n: nat)
    requires n < |items| && IsPlanLine(items[n])
    ensures |PlanIds(items)| == 1 <==> IsOnlyPlanLine(items, n)
    ensures IsOnlyPlanLine(items, n) ==> PlanIds(items) == [items[n].planId.value]
    decreases items
  {
    var rest := items[1..];
    assert forall i | 0 <= i < |rest| :: rest[i] == items[i + 1];
    assert forall i | 1 <= i < |items| :: items[i] == rest[i - 1];
    NoPlanLines(rest);
    if n > 0 {
      assert rest[n - 1] == items[n];
      OnePlanLine(rest, n - 1);
      if !IsPlanLine(items[0]) {
        assert IsOnlyPlanLine(items, n) <==> IsOnlyPlanLine(rest, n - 1);
      }
    }
    hide IsPlanLine;
  }

  /** The rows that the lines of a cart name. */
  predicate RowsExist(db: Db, items: seq<Item>) {
    forall i | 0 <= i < |items| && items[i].AssetItem? && items[i].assetId.Some? ::
      AssetId(items[i].asset, items[i].assetId.value) in db.assets
  }

  lemma {:induction false} LineRowsAre(db: Db, items: seq<Item>)
    ensures LineRows(items) <= db.assets.Keys <==> RowsExist(db, items)
    decreases items
  {
    if items != [] {
      var rest := items[1..];
      assert forall i | 0 <= i < |rest| :: rest[i] == items[i + 1];
      assert forall i | 1 <= i < |items| :: items[i] == rest[i - 1];
      LineRowsAre(db, rest);
    }
  }

  /** No line is for a slot that a plan is linked to. */
  predicate SlotLinesAreFree(db: Db, items: seq<Item>) {
    forall i, p | 0 <= i < |items| && items[i].SlotItem? && items[i].slotId.Some? && p in db.plans ::
      SlotId(items[i].slot, items[i].slotId.value) !in db.plans[p].slots
  }

  /** The plan of this line may be bought beside the other lines: it is the only one, and the company has none yet. */
  ghost predicate MayBuyPlan(db: Db, company: Id, items: seq<Item>, n: nat)
    requires n < |items| && IsPlanLine(items[n])
  {
    var planId := items[n].planId.value;
    && IsOnlyPlanLine(items, n) && items[n].quantity <= 1 && (forall pid :: !IsPlanSale(db, company, pid))
    && (planId in db.plans && db.plans[planId].boothTier.Some? ==>
          && !HasABooth(db, company)
          && forall i | 0 <= i < |items| && items[i].AssetItem? && items[i].assetId.Some? :: items[i].asset != Booth)
  }

  lemma CartIsCompatible(db: Db, company: Id, items: seq<Item>)
    ensures PlansAreCompatible(db, company, items)
      <==> forall n | 0 <= n < |items| && IsPlanLine(items[n]) :: MayBuyPlan(db, company, items, n)
  {
    BoughtIs(db, company);
    NoPlanLines(items);
    var ids := PlanIds(items);
    assert OwnBooths(db.assets, Some(company)) == {} <==> !HasABooth(db, company) by {
      if HasABooth(db, company) {
        var a :| a in db.assets && a.kind == Booth && db.assets[a].owner == Some(company);
        assert a in OwnBooths(db.assets, Some(company));
      }
    }
    if n: nat :| n < |items| && IsPlanLine(items[n]) {
      OnePlanLine(items, n);
      hide HasBoughtPlan, IsPlanSale, OwnBooths, HasABooth, PlanIds;
      forall m: nat | m < |items| && IsPlanLine(items[m])
        ensures MayBuyPlan(db, company, items, m) <==> PlansAreCompatible(db, company, items)
      {
        OnePlanLine(items, m);
      }
    }
  }

  lemma AllowedIs(db: Db, company: Option<Id>, items: seq<Item>)
    ensures CheckoutIsAllowed(db, company, items) <==>
      && items != []
      && ((exists i :: 0 <= i < |items| && !(items[i].AssetItem? && items[i].asset == HotelRoom)) ==>
            company.Some? && company.value in db.companies)
      && (company.Some? ==> SlotLinesAreFree(db, items))
      && (company.Some? ==>
            forall n | 0 <= n < |items| && IsPlanLine(items[n]) :: MayBuyPlan(db, company.value, items, n))
  {
    if company.Some? { CartIsCompatible(db, company.value, items); }
    hide PlansAreCompatible, MayBuyPlan, IsPlanLine;
  }

  lemma ResolvesWhen(held: Db, items: seq<Item>, t: Target, expiresAt: int, now: int, rule: NullRule)
    requires |PlanIds(items)| <= 1
    ensures ResolveAll(held, PlanIds(items), t, expiresAt, now, rule).Some?
      <==> forall n | 0 <= n < |items| && IsPlanLine(items[n]) :: IsOnSale(held, items[n].planId.value, t, now, rule)
  {
    var ids := PlanIds(items);
    NoPlanLines(items);
    if n: nat :| n < |items| && IsPlanLine(items[n]) {
      OnePlanLine(items, n);
      hide ResolveAll, IsOnSale, PlanIds;
      OneResolution(held, ids, t, expiresAt, now, rule);
      ResolutionIsComplete(held, ids[0], t, expiresAt, now, rule);
      OnSaleIs(held, ids[0], t, expiresAt, now, rule);
      assert forall m: nat | m < |items| && IsPlanLine(items[m]) :: m == n;
    } else {
      assert ids == [];
    }
  }

  lemma OnSaleIs(db: Db, planId: Id, t: Target, expiresAt: int, now: int, rule: NullRule)
    ensures ResolvePlan(db, planId, t, expiresAt, now, rule).Some? <==> IsOnSale(db, planId, t, now, rule)
  {
    ResolutionIsComplete(db, planId, t, expiresAt, now, rule);
    hide ResolvePlan, SlotIsThere, IsFreeBooth, IsFreeSession;
  }

  lemma NoPlanWithoutCompany(items: seq<Item>, n: nat)
    requires n < |items| && IsPlanLine(items[n])
    ensures exists i :: 0 <= i < |items| && !(items[i].AssetItem? && items[i].asset == HotelRoom)
  {
    assert !items[n].AssetItem?;
  }

  /**
   * A checkout goes through if and only if its ids are new, the cart is not empty and has a company unless it has only
   * rooms, no line is for a slot linked to a plan, its rows exist, and its plan, if it has one, may be bought and is on
   * sale once the rows are held.
   */
  lemma CheckoutGoesThrough(db: Db, oid: Id, b: Purchase, items: seq<Item>, expiresAt: int, now: int, rule: NullRule)
    ensures var held := PlaceHolds(db, items, Hold(Some(expiresAt), Some(oid), None));
      Checkout(db, oid, b, items, expiresAt, now, rule) != db <==>
      && oid !in db.orders && b.pid !in db.payments && items != []
      && ((exists i :: 0 <= i < |items| && !(items[i].AssetItem? && items[i].asset == HotelRoom)) ==>
            b.company.Some? && b.company.value in db.companies)
      && (b.company.Some? ==> SlotLinesAreFree(db, items))
      && RowsExist(db, items) && held.Some?
      && forall n | 0 <= n < |items| && IsPlanLine(items[n]) ::
           && b.company.Some? && MayBuyPlan(db, b.company.value, items, n)
           && IsOnSale(held.value, items[n].planId.value, ForOrder(oid), now, rule)
  {
    var t := ForOrder(oid);
    var hold := TargetHold(t, expiresAt);
    AllowedIs(db, b.company, items);
    CartHoldsItsRows(db, items, hold);
    LineRowsAre(db, items);
    forall n: nat | n < |items| && IsPlanLine(items[n])
      ensures exists i :: 0 <= i < |items| && !(items[i].AssetItem? && items[i].asset == HotelRoom)
    {
      NoPlanWithoutCompany(items, n);
    }
    var held := PlaceHolds(db, items, hold);
    if CheckoutIsAllowed(db, b.company, items) && held.Some? {
      AcceptedCartHasOnePlan(db, b.company, items);
      ResolvesWhen(held.value, items, t, expiresAt, now, rule);
    }
    CheckoutBranches(db, oid, b, items, expiresAt, now, rule);
    hide Checkout, CheckoutIsAllowed, PlaceHolds, ResolveAll, IsOnSale, MayBuyPlan, IsPlanLine, PlanIds, RowsExist,
         SlotLinesAreFree, LineRows;
  }

  lemma CheckoutBranches(db: Db, oid: Id, b: Purchase, items: seq<Item>, expiresAt: int, now: int, rule: NullRule)
    ensures var held := PlaceHolds(db, items, TargetHold(ForOrder(oid), expiresAt));
      Checkout(db, oid, b, items, expiresAt, now, rule) != db <==>
      && oid !in db.orders && b.pid !in db.payments && CheckoutIsAllowed(db, b.company, items) && held.Some?
      && ResolveAll(held.value, PlanIds(items), ForOrder(oid), expiresAt, now, rule).Some?
  {
    hide CheckoutIsAllowed, PlaceHolds, ResolveAll, PlanIds;
    var d := Checkout(db, oid, b, items, expiresAt, now, rule);
    assert d == db || oid in d.orders;
  }

  // ---- Runs ------------------------------------------------------------------------------

  /** The event would start a purchase of a plan for this company. */
  predicate StartsPlan(e: Event, company: Id) {
    || (e.EInitPlan? && e.b.company == Some(company))
    || (e.ECheckout? && e.b.company == Some(company)
        && exists n :: 0 <= n < |e.items| && IsPlanLine(e.items[n]))
  }

  lemma SecondPlanIsRefused(w: World, e: Event, company: Id, pid: Id)
    requires IsPlanSale(w.db, company, pid) && StartsPlan(e, company)
    ensures Next(w, e) == w.db
  {
    if e.EInitPlan? {
      PlanPaymentStarts(w.db, e.b, e.planId, e.expiresAt, w.now, w.rule);
      hide InitPlan, IsPlanSale, IsOnSale;
    } else {
      CheckoutGoesThrough(w.db, e.oid, e.b, e.items, e.expiresAt, w.now, w.rule);
      var n :| 0 <= n < |e.items| && IsPlanLine(e.items[n]);
      assert !MayBuyPlan(w.db, company, e.items, n) by { hide IsPlanSale; }
      hide Checkout, IsPlanSale, IsOnSale, MayBuyPlan;
    }
  }

  lemma SaleStays(before: Db, after: Db, company: Id, pid: Id)
    requires IsPlanSale(before, company, pid) && Grown(before, after)
    requires pid in after.payments && after.payments[pid] == before.payments[pid]
    ensures IsPlanSale(after, company, pid)
  {
  }

  /**
   * Once a company has bought a plan, singly or in a cart, and until that is taken back, no plan purchase of it begins.
   */
  lemma NoSecondPlan(w: World, events: seq<Event>, e: Event, company: Id, pid: Id)
    requires AllSound(w.db) && IsPlanSale(w.db, company, pid)
    requires forall k | 0 <= k < |events| :: !TakesBack(events[k], pid)
    requires StartsPlan(e, company)
    ensures var after := Run(w, events); Next(after, e) == after.db
  {
    ClosedPaymentsStay(w, events, pid);
    hide AllSound, Run, Next, Grown;
    SaleStays(w.db, Run(w, events).db, company, pid);
    SecondPlanIsRefused(Run(w, events), e, company, pid);
  }
}
