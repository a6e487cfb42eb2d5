/** A small shop in which nothing is bought yet, and what a checkout of one company stores in it; runs start here. */
module FreshShops {
  import opened Common
  import opened CompanyTier
  import opened CheckoutHold
  import opened Tables
  import opened Fulfilment
  import opened Refunds
  import opened BundleResolution
  import opened Machine
  import opened Resolutions

  const FREE_BOOTH := Asset(None, true, 0, 0, false, false, None, NO_HOLD)
  const ADVERT := SlotId(Advert, 3)
  const NO_RULE := SessionRule(None, None)
  const GOLD_PLAN := Plan(Gold, true, None, NO_RULE, NO_RULE, [])
  const GOLD_ENTRY := BundleEntry(4, None, None, None, [])
  const PLAN_LINE := PlanItem(Some(4), 100, 1)
  const ADVERT_LINE := SlotItem(Advert, Some(3))

  /** Company 0, which pays 100 with payment 7. */
  const BUYER := Purchase(7, 5, Some(0), 100, false)

  /** Two booths without a tier, one copy of an advert, a gold plan without a bundle, two companies, nothing bought. */
  function FreshShop(): Db {
    Db(map[AssetId(Booth, 1) := FREE_BOOTH, AssetId(Booth, 2) := FREE_BOOTH], map[ADVERT := Slot(1, 1, false)], [], {},
       map[0 := Company(None, 0), 1 := Company(None, 0)], map[4 := GOLD_PLAN], map[], map[])
  }

  function Opening(rule: NullRule): World {
    World(FreshShop(), 0, rule)
  }

  lemma PlanIsResolved(db: Db, t: Target, expiresAt: int, now: int, rule: NullRule)
    requires db.plans == FreshShop().plans
    ensures ResolvePlan(db, 4, t, expiresAt, now, rule) == Some(Resolved(db, GOLD_ENTRY))
  {
    assert db.slotHolds + [] == db.slotHolds;
  }

  lemma RunOfTwo(w: World, e0: Event, e1: Event)
    ensures Run(w, [e0, e1]) == Step(Step(w, e0), e1)
  {
    hide Step;
    assert [e0, e1][1..] == [e1] && [e1][1..] == [];
    assert Run(Step(w, e0), [e1]) == Run(Step(Step(w, e0), e1), []);
  }

  lemma RunOfThree(w: World, e0: Event, e1: Event, e2: Event)
    ensures Run(w, [e0, e1, e2]) == Step(Step(Step(w, e0), e1), e2)
  {
    hide Step;
    RunOfTwo(Step(w, e0), e1, e2);
    assert [e0, e1, e2][1..] == [e1, e2];
  }

  lemma ChargeStep(w: World, pid: Id, refundGranted: bool)
    ensures Step(w, EChargeSuccess(pid, refundGranted))
         == World(ChargeSuccess(w.db, pid, refundGranted, w.now), w.now, w.rule)
    ensures Step(w, EChargeFailed(pid)) == World(ChargeFailed(w.db, pid), w.now, w.rule)
    ensures Step(w, ERefund(pid)) == World(RefundPayment(w.db, pid), w.now, w.rule)
  {
    hide ChargeSuccess, ChargeFailed, RefundPayment;
  }

  /** The tables with order 9 for these lines and its payment 7, both pending. */
  function WithOrder(db: Db, items: seq<Item>, bundles: seq<BundleEntry>): Db {
    db.(orders := map[9 := Order(5, Some(0), PendingPayment, items)],
        payments := map[7 := Payment(OrderPayment, Pending, false, 5, Some(0), Some(9), None, 100, bundles)])
  }

  const HELD := Hold(Some(100), Some(9), None)

  /** A cart that passes checkout is stored, with the bundle of its plan. */
  lemma CartIsStored(items: seq<Item>, bundles: seq<BundleEntry>, held: Db, rule: NullRule)
    requires CheckoutIsAllowed(FreshShop(), Some(0), items) && PlaceHolds(FreshShop(), items, HELD) == Some(held)
    requires PlanIds(items) == (if bundles == [] then [] else [4]) && (bundles == [] || bundles == [GOLD_ENTRY])
    ensures Checkout(FreshShop(), 9, BUYER, items, 100, 0, rule) == WithOrder(held, items, bundles)
  {
    var db := FreshShop();
    PlaceHoldsOnlyHolds(db, items, HELD);
    OnlyHoldsRows(db, held);
    hide PlaceHolds, OnlyHolds, CheckoutIsAllowed, ResolvePlan;
    PlanIsResolved(held, ForOrder(9), 100, 0, rule);
    assert [4][1..] == [] && ResolveAll(held, [], ForOrder(9), 100, 0, rule) == Some(AllResolved(held, []));
    assert [GOLD_ENTRY] + [] == [GOLD_ENTRY];
    assert ResolveAll(held, [4], ForOrder(9), 100, 0, rule) == Some(AllResolved(held, [GOLD_ENTRY]));
  }

  // ---- Carts of two booths and one more line ---------------------------------------------

  function TwoBoothsAnd(last: Item): seq<Item> {
    [AssetItem(Booth, Some(1)), AssetItem(Booth, Some(2)), last]
  }

  /** Both booths held for the order. */
  function HeldShop(): Db {
    FreshShop().(assets := map[AssetId(Booth, 1) := FREE_BOOTH.(hold := HELD),
                               AssetId(Booth, 2) := FREE_BOOTH.(hold := HELD)])
  }

  lemma BoothsAreHeld(last: Item)
    requires !last.AssetItem?
    ensures PlaceHolds(FreshShop(), TwoBoothsAnd(last), HELD) == Some(HeldShop())
  {
    var db := FreshShop();
    var rest := [AssetItem(Booth, Some(2)), last];
    assert TwoBoothsAnd(last)[1..] == rest && rest[1..] == [last] && [last][1..] == [];
    var one := PutHold(db, AssetId(Booth, 1), HELD);
    var two := PutHold(one, AssetId(Booth, 2), HELD);
    assert two.assets == HeldShop().assets;
    assert PlaceHolds(two, [last], HELD) == Some(two);
    assert PlaceHolds(one, rest, HELD) == Some(two);
  }

  lemma TwoBoothsAreStored(last: Item, bundles: seq<BundleEntry>, rule: NullRule)
    requires (last == PLAN_LINE && bundles == [GOLD_ENTRY]) || (last == ADVERT_LINE && bundles == [])
    ensures Checkout(FreshShop(), 9, BUYER, TwoBoothsAnd(last), 100, 0, rule)
         == WithOrder(HeldShop(), TwoBoothsAnd(last), bundles)
  {
    var items := TwoBoothsAnd(last);
    var rest := [AssetItem(Booth, Some(2)), last];
    assert items[1..] == rest && rest[1..] == [last] && [last][1..] == [];
    assert PlanIds([]) == [];
    assert PlanIds([last]) == if last == PLAN_LINE then [4] else [];
    assert PlanIds(rest) == PlanIds([last]);
    assert PlanIds(items) == PlanIds(rest);
    assert NeedsCompany(items) by { assert !items[2].AssetItem?; }
    hide PlaceHolds, Checkout;
    BoothsAreHeld(last);
    CartIsStored(items, bundles, HeldShop(), rule);
  }
}
