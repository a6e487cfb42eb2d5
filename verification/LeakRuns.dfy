/** Runs from fresh shops in which an order is given up: after lines that were served, and half-way in a bundle. */
module LeakRuns {
  import opened Common
  import opened CompanyTier
  import opened CheckoutHold
  import opened Tables
  import opened Inventory
  import opened Fulfilment
  import opened BundleResolution
  import opened Machine
  import opened Effects
  import opened Charges
  import opened RefundUndo
  import opened Obstacles
  import opened SlotConservation
  import opened FreshShops
  import opened Leaks

  const PANEL := AssetId(Panel, 1)
  const SOUGHT := SlotId(Advert, 5)
  const BRANDING := SlotId(Branding, 6)
  const BRANDED_PLAN := Plan(Gold, true, None, NO_RULE, NO_RULE, [BRANDING])
  const BRANDED_ENTRY := BundleEntry(4, None, None, None, [BRANDING])
  const WHOLE_CART := [PLAN_LINE, AssetItem(Panel, Some(1)), ADVERT_LINE, SlotItem(Advert, Some(5))]

  /** A panel, one copy of each of two adverts and of a branding slot sold with a gold plan, two companies. */
  function LeakShop(): Db {
    Db(map[PANEL := FREE_BOOTH],
       map[ADVERT := Slot(1, 1, false), SOUGHT := Slot(1, 1, false), BRANDING := Slot(1, 1, false)], [], {},
       map[0 := Company(None, 0), 1 := Company(None, 0)], map[4 := BRANDED_PLAN], map[], map[])
  }

  /** Company 0 has checked out the plan, the panel and both adverts. */
  function LeakOrdered(): Db {
    WithOrder(LeakShop().(assets := map[PANEL := FREE_BOOTH.(hold := HELD)],
                          slotHolds := [SlotHold(BRANDING, Some(9), None, 100)]), WHOLE_CART, [BRANDED_ENTRY])
  }

  /** The other company has been given the second advert. */
  function LeakSold(): Db {
    LeakOrdered().(slots := map[ADVERT := Slot(1, 1, false), SOUGHT := Slot(1, 0, false),
                                BRANDING := Slot(1, 1, false)])
  }

  lemma BrandedPlanIsResolved(db: Db, rule: NullRule)
    requires db.plans == LeakShop().plans && db.slots == LeakShop().slots && db.slotHolds == []
    ensures ResolvePlan(db, 4, ForOrder(9), 100, 0, rule)
         == Some(Resolved(db.(slotHolds := [SlotHold(BRANDING, Some(9), None, 100)]), BRANDED_ENTRY))
  {
    assert [BRANDING][1..] == [] && SlotHolds([], ForOrder(9), 100) == [];
    assert SlotHolds([BRANDING], ForOrder(9), 100) == [SlotHold(BRANDING, Some(9), None, 100)];
    assert SlotIsAvailable(db, [BRANDING][0], ForOrder(9), 0, rule);
    assert SlotsAreAvailable(db, [BRANDING], ForOrder(9), 0, rule);
    assert db.slotHolds + SlotHolds([BRANDING], ForOrder(9), 100) == [SlotHold(BRANDING, Some(9), None, 100)];
  }

  lemma WholeCartIsAllowed()
    ensures CheckoutIsAllowed(LeakShop(), Some(0), WHOLE_CART) && PlanIds(WHOLE_CART) == [4]
  {
    var items := WHOLE_CART;
    var i1, i2, i3 := items[1..], items[2..], items[3..];
    assert i3 == [items[3]] && i3[1..] == [] && i2[1..] == i3 && i1[1..] == i2;
    assert i2[0] == ADVERT_LINE && i1[0] == AssetItem(Panel, Some(1));
    assert PlanIds(i3) == [];
    assert PlanIds(i2) == [];
    assert PlanIds(i1) == [];
    assert items[0] == PLAN_LINE;
    assert PlanIds(items) == [4];
    assert NeedsCompany(items) by { assert !items[0].AssetItem?; }
    hide PlanIds;
  }

  lemma PanelIsHeld()
    ensures PlaceHolds(LeakShop(), WHOLE_CART, HELD)
      == Some(LeakShop().(assets := map[PANEL := FREE_BOOTH.(hold := HELD)]))
  {
    var items := WHOLE_CART;
    var i1, i2, i3 := items[1..], items[2..], items[3..];
    assert i3 == [items[3]] && i3[1..] == [] && i2[1..] == i3 && i1[1..] == i2;
    var held := PutHold(LeakShop(), PANEL, HELD);
    assert held == LeakShop().(assets := map[PANEL := FREE_BOOTH.(hold := HELD)]);
    assert PlaceHolds(held, i3, HELD) == Some(held);
    assert PlaceHolds(held, i2, HELD) == Some(held);
    assert PlaceHolds(LeakShop(), i1, HELD) == Some(held);
  }

  lemma WholeCartIsStored(rule: NullRule)
    ensures Checkout(LeakShop(), 9, BUYER, WHOLE_CART, 100, 0, rule) == LeakOrdered()
  {
    var held := LeakShop().(assets := map[PANEL := FREE_BOOTH.(hold := HELD)]);
    WholeCartIsAllowed();
    PanelIsHeld();
    BrandedPlanIsResolved(held, rule);
    var d := held.(slotHolds := [SlotHold(BRANDING, Some(9), None, 100)]);
    hide ResolvePlan, PlaceHolds, CheckoutIsAllowed, PlanIds;
    assert [4][1..] == [] && ResolveAll(d, [], ForOrder(9), 100, 0, rule) == Some(AllResolved(d, []));
    assert [BRANDED_ENTRY] + [] == [BRANDED_ENTRY];
    assert ResolveAll(held, [4], ForOrder(9), 100, 0, rule) == Some(AllResolved(d, [BRANDED_ENTRY]));
  }

  // ---- The charge ------------------------------------------------------------------------

  lemma LinesOfTheCart()
    ensures var b := [BRANDED_ENTRY]; var items := WHOLE_CART;
      && ItemAssets(items[0], b) == {} && ItemSlots(items[0], b) == multiset{BRANDING}
      && ItemAssets(items[1], b) == {PANEL} && ItemSlots(items[1], b) == multiset{}
      && ItemAssets(items[2], b) == {} && ItemSlots(items[2], b) == multiset{ADVERT}
      && ItemsAssets([], b) == {} && ItemsSlots([], b) == multiset{}
  {
    var b := [BRANDED_ENTRY];
    assert FindEntry(b, 4) == Some(BRANDED_ENTRY);
    assert EntryAssets(Some(BRANDED_ENTRY)) == {} && multiset([BRANDING]) == multiset{BRANDING};
  }

  lemma PrefixesOfTheCart()
    ensures var b := [BRANDED_ENTRY];
      && WHOLE_CART[..0] == [] && ItemsAssets([], b) == {} && ItemsSlots([], b) == multiset{}
      && ItemsAssets(WHOLE_CART[..1], b) == {} && ItemsSlots(WHOLE_CART[..1], b) == multiset{BRANDING}
      && ItemsAssets(WHOLE_CART[..2], b) == {PANEL} && ItemsSlots(WHOLE_CART[..2], b) == multiset{BRANDING}
      && ItemsAssets(WHOLE_CART[..3], b) == {PANEL} && ItemsSlots(WHOLE_CART[..3], b) == multiset{BRANDING, ADVERT}
  {
    var b := [BRANDED_ENTRY];
    assert |WHOLE_CART| == 4 && WHOLE_CART[..0] == [];
    hide *;
    LinesOfTheCart();
    FootprintGrows(WHOLE_CART, b, 0);
    FootprintGrows(WHOLE_CART, b, 1);
    FootprintGrows(WHOLE_CART, b, 2);
  }

  lemma CopiesAreLeft()
    ensures var slots := LeakSold().slots;
      && SlotsAreLeft(slots, [BRANDING], multiset{}) && SlotsAreLeft(slots, [ADVERT], multiset{BRANDING})
      && !SlotsAreLeft(slots, [SOUGHT], multiset{BRANDING, ADVERT})
  {
    var slots := LeakSold().slots;
    assert [BRANDING][..0] == [] && [ADVERT][..0] == [];
    assert !CopyIsLeft(slots, multiset{BRANDING, ADVERT}, [SOUGHT][..0], [SOUGHT][0]);
  }

  lemma PlanLineServed(db: Db, q: Buyer)
    requires q.company.Some? && 4 in db.plans && db.plans[4] == BRANDED_PLAN
    requires SlotsAreLeft(db.slots, [BRANDING], multiset{})
    ensures LineOutcome(db, q, [BRANDED_ENTRY], PLAN_LINE, {}, multiset{}) == Done
  {
    assert FindEntry([BRANDED_ENTRY], 4) == Some(BRANDED_ENTRY);
    hide SlotsAreLeft;
  }

  lemma PanelLineServed(db: Db, q: Buyer)
    requires q.company.Some? && q.exclude == Exclude(Some(9), None)
    requires PANEL in db.assets && db.assets[PANEL] == FREE_BOOTH.(hold := HELD)
    ensures LineOutcome(db, q, [BRANDED_ENTRY], AssetItem(Panel, Some(1)), {}, multiset{BRANDING}) == Done
  {
    assert !IsRefused(q, PANEL, db.assets[PANEL], false);
  }

  lemma AdvertLines(db: Db, q: Buyer)
    requires q.company.Some? && SlotsAreLeft(db.slots, [ADVERT], multiset{BRANDING})
    requires !SlotsAreLeft(db.slots, [SOUGHT], multiset{BRANDING, ADVERT})
    ensures var b := [BRANDED_ENTRY];
      && LineOutcome(db, q, b, ADVERT_LINE, {PANEL}, multiset{BRANDING}) == Done
      && LineOutcome(db, q, b, SlotItem(Advert, Some(5)), {PANEL}, multiset{BRANDING, ADVERT}) == Unavailable
  {
    hide SlotsAreLeft;
  }

  lemma LeakSoldIs(now: int)
    ensures var db := LeakSold(); var q := PaymentBuyer(db, 7, now);
      && Lines(db, db.payments[7]) == WHOLE_CART && db.payments[7].bundles == [BRANDED_ENTRY]
      && db.payments[7].status == Pending && !IsMissing(db, 7, now)
      && q.company == Some(0) && q.exclude == Exclude(Some(9), None)
      && PANEL in db.assets && db.assets[PANEL] == FREE_BOOTH.(hold := HELD)
      && 4 in db.plans && db.plans[4] == BRANDED_PLAN
  {
  }

  lemma CartIs()
    ensures |WHOLE_CART| == 4 && WHOLE_CART[0] == PLAN_LINE && WHOLE_CART[1] == AssetItem(Panel, Some(1))
    ensures WHOLE_CART[2] == ADVERT_LINE && WHOLE_CART[3] == SlotItem(Advert, Some(5))
  {
  }

  lemma CartOutcomes(now: int)
    ensures |WHOLE_CART| == 4
    ensures var db := LeakSold(); var q := PaymentBuyer(db, 7, now); var b := [BRANDED_ENTRY];
      && OutcomeAt(db, q, b, WHOLE_CART, 0) == Done && OutcomeAt(db, q, b, WHOLE_CART, 1) == Done
      && OutcomeAt(db, q, b, WHOLE_CART, 2) == Done && OutcomeAt(db, q, b, WHOLE_CART, 3) == Unavailable
  {
    var db := LeakSold();
    CartIs();
    LeakSoldIs(now);
    PrefixesOfTheCart();
    CopiesAreLeft();
    var q := PaymentBuyer(db, 7, now);
    hide LineOutcome, LeakSold, PaymentBuyer, ItemsAssets, ItemsSlots, SlotsAreLeft, IsMissing, Lines;
    PlanLineServed(db, q);
    PanelLineServed(db, q);
    AdvertLines(db, q);
  }

  lemma LastLineStops(now: int)
    ensures IsGivenUp(LeakSold(), 7, now) && ServedBefore(LeakSold(), 7, now) == 3
    ensures PaymentBuyer(LeakSold(), 7, now).company == Some(0)
  {
    var db := LeakSold();
    var b := [BRANDED_ENTRY];
    LeakSoldIs(now);
    CartOutcomes(now);
    var q := PaymentBuyer(db, 7, now);
    hide OutcomeAt, LeakSold, PaymentBuyer, IsMissing, Lines;
    assert FirstObstacle(db, q, b, WHOLE_CART, 3) == 3;
    assert FirstObstacle(db, q, b, WHOLE_CART, 2) == 3;
    assert FirstObstacle(db, q, b, WHOLE_CART, 1) == 3;
    assert FirstObstacle(db, q, b, WHOLE_CART, 0) == 3;
  }

  lemma ServedCopies()
    ensures BundleSlots(WHOLE_CART[..3], [BRANDED_ENTRY]) == multiset{BRANDING} && ItemsKobo(WHOLE_CART[..3]) == 100
  {
    var b := [BRANDED_ENTRY];
    var i1, i2 := [WHOLE_CART[1], WHOLE_CART[2]], [WHOLE_CART[2]];
    assert WHOLE_CART[..3][1..] == i1 && i1[1..] == i2 && i2[1..] == [];
    assert FindEntry(b, 4) == Some(BRANDED_ENTRY) && multiset([BRANDING]) == multiset{BRANDING};
    assert BundleSlots(i2, b) == multiset{} && ItemsKobo(i2) == 0;
    assert BundleSlots(i1, b) == multiset{} && ItemsKobo(i1) == 0;
  }

  lemma ServedPart(now: int)
    ensures var db := LeakSold(); var b := [BRANDED_ENTRY];
      && LinesServed(db, 7, now) == WHOLE_CART[..3] && TakenRows(db, 7, now) == {PANEL}
      && WouldTake(db, 7, now) == multiset{BRANDING, ADVERT} && RolledBack(db, 7, now) == multiset{}
      && BundleSlots(WHOLE_CART[..3], b) == multiset{BRANDING} && ItemsKobo(WHOLE_CART[..3]) == 100
  {
    var db := LeakSold();
    LastLineStops(now);
    PrefixesOfTheCart();
    ServedCopies();
    assert Lines(db, db.payments[7]) == WHOLE_CART && db.payments[7].bundles == [BRANDED_ENTRY];
    assert |WHOLE_CART| == 4 && WHOLE_CART[3] == SlotItem(Advert, Some(5));
    assert {PANEL} + {} == {PANEL};
    hide ItemsAssets, ItemsSlots, ServedBefore, IsMissing, PaymentBuyer, BundleSlots, ItemsKobo, LeakSold, Lines,
         IsGivenUp, StopsWith;
  }

  lemma WholeLeak(refundGranted: bool)
    ensures var d := ChargeSuccess(LeakSold(), 7, refundGranted, 0);
      && 7 in d.payments && d.payments[7].status == RefundStatus(refundGranted)
      && PANEL in d.assets && d.assets[PANEL].taken && d.assets[PANEL].owner == Some(0)
      && d.slots == map[ADVERT := Slot(1, 1, false), SOUGHT := Slot(1, 0, false), BRANDING := Slot(1, 0, false)]
      && d.assignments == {(0, BRANDING), (0, ADVERT)}
      && 0 in d.companies && d.companies[0].paidTotal == 100
  {
    var db := LeakSold();
    LastLineStops(0);
    ServedPart(0);
    assert WellFormed(db.payments[7]) && Consistent(db.assets) && db.payments[7].bundles == [BRANDED_ENTRY];
    assert db.slots == map[ADVERT := Slot(1, 1, false), SOUGHT := Slot(1, 0, false), BRANDING := Slot(1, 1, false)];
    assert db.assignments == {} && PANEL in db.assets && 0 in db.companies && db.companies[0].paidTotal == 0;
    hide *;
    GivenUpDeliveriesLeak(db, 7, refundGranted, 0);
    LeakIs(db, ChargeSuccess(db, 7, refundGranted, 0));
  }

  lemma LeakIs(db: Db, d: Db)
    requires 7 in db.payments && DeliveryLeft(db, d, 7, 0) && d.slots == Debit(db.slots, multiset{BRANDING})
    requires db.slots == map[ADVERT := Slot(1, 1, false), SOUGHT := Slot(1, 0, false), BRANDING := Slot(1, 1, false)]
    requires db.assignments == {} && PANEL in db.assets && 0 in db.companies && db.companies[0].paidTotal == 0
    requires PaymentBuyer(db, 7, 0).company == Some(0) && TakenRows(db, 7, 0) == {PANEL}
    requires WouldTake(db, 7, 0) == multiset{BRANDING, ADVERT} && RolledBack(db, 7, 0) == multiset{}
    requires ItemsKobo(LinesServed(db, 7, 0)) == 100
    ensures PANEL in d.assets && d.assets[PANEL].taken && d.assets[PANEL].owner == Some(0)
    ensures d.slots == map[ADVERT := Slot(1, 1, false), SOUGHT := Slot(1, 0, false), BRANDING := Slot(1, 0, false)]
    ensures d.assignments == {(0, BRANDING), (0, ADVERT)} && 0 in d.companies && d.companies[0].paidTotal == 100
  {
    CopiesAre();
    SlotsAre(db.slots);
    RowIs(db.assets, d.assets, PaymentBuyer(db, 7, 0));
    hide PaymentBuyer, TakenRows, WouldTake, RolledBack, LinesServed, GivenBack, ItemsKobo, Copies, RowsGo, Debit;
  }

  lemma SlotsAre(slots: map<SlotId, Slot>)
    requires slots == map[ADVERT := Slot(1, 1, false), SOUGHT := Slot(1, 0, false), BRANDING := Slot(1, 1, false)]
    ensures Debit(slots, multiset{BRANDING})
         == map[ADVERT := Slot(1, 1, false), SOUGHT := Slot(1, 0, false), BRANDING := Slot(1, 0, false)]
  {
  }

  lemma RowIs(before: map<AssetId, Asset>, after: map<AssetId, Asset>, q: Buyer)
    requires PANEL in before && q.company == Some(0)
    ensures RowsGo(before, after, q, {PANEL}) ==>
      PANEL in after && after[PANEL].taken && after[PANEL].owner == Some(0)
  {
    assert PANEL in {PANEL};
  }

  lemma CopiesAre()
    ensures Copies(Some(0), multiset{BRANDING, ADVERT}) == {(0, BRANDING), (0, ADVERT)}
    ensures Copies(Some(0), multiset{}) == {}
  {
  }

  const WHOLE_CHECKOUT := ECheckout(9, BUYER, WHOLE_CART, 100)
  const SOUGHT_SALE := EAssignSlot(1, SOUGHT)

  lemma LeakWorld(rule: NullRule)
    ensures Step(Step(World(LeakShop(), 0, rule), WHOLE_CHECKOUT), SOUGHT_SALE) == World(LeakSold(), 0, rule)
  {
    WholeCartIsStored(rule);
    hide Checkout;
    assert LeakOrdered().slots[SOUGHT] == Slot(1, 1, false);
    assert Debit(LeakOrdered().slots, multiset{SOUGHT}) == LeakSold().slots;
  }

  /**
   * From a fresh shop, the plan, a panel and two adverts are ordered, and the second advert goes to another company
   * before the charge. The payment is refunded or failed, and the company keeps the panel, the branding copy, both
   * assignments, one of them without a copy, and the sponsor total.
   */
  lemma GivenUpOrderLeaks(refundGranted: bool, rule: NullRule)
    ensures IsFresh(LeakShop())
    ensures var d := Run(World(LeakShop(), 0, rule),
                         [WHOLE_CHECKOUT, SOUGHT_SALE, EChargeSuccess(7, refundGranted)]).db;
      && 7 in d.payments && d.payments[7].status == RefundStatus(refundGranted)
      && PANEL in d.assets && d.assets[PANEL].taken && d.assets[PANEL].owner == Some(0)
      && d.slots == map[ADVERT := Slot(1, 1, false), SOUGHT := Slot(1, 0, false), BRANDING := Slot(1, 0, false)]
      && d.assignments == {(0, BRANDING), (0, ADVERT)}
      && 0 in d.companies && d.companies[0].paidTotal == 100
  {
    var w := World(LeakShop(), 0, rule);
    var e := EChargeSuccess(7, refundGranted);
    assert IsFresh(LeakShop());
    hide *;
    LeakWorld(rule);
    WholeLeak(refundGranted);
    ChargeStep(World(LeakSold(), 0, rule), 7, refundGranted);
    RunOfThree(w, WHOLE_CHECKOUT, SOUGHT_SALE, e);
  }

  // ---- Half a bundle ---------------------------------------------------------------------

  const BOOTH := AssetId(Booth, 1)
  const GOLD_BOOTH := Asset(Some(Gold), true, 0, 0, false, false, None, NO_HOLD)
  const BOOTH_PLAN := Plan(Gold, true, Some(Gold), NO_RULE, NO_RULE, [BRANDING])
  const BOOTH_ENTRY := BundleEntry(4, Some(1), None, None, [BRANDING])

  /** A gold booth and one copy of a branding slot, both sold with a gold plan. */
  function BoothShop(): Db {
    Db(map[BOOTH := GOLD_BOOTH], map[BRANDING := Slot(1, 1, false)], [], {},
       map[0 := Company(None, 0), 1 := Company(None, 0)], map[4 := BOOTH_PLAN], map[], map[])
  }

  function BoothOrdered(): Db {
    WithOrder(BoothShop().(assets := map[BOOTH := GOLD_BOOTH.(hold := HELD)],
                           slotHolds := [SlotHold(BRANDING, Some(9), None, 100)]), [PLAN_LINE], [BOOTH_ENTRY])
  }

  /** An administrator has given the branding copy away. */
  function BrandingGone(): Db {
    BoothOrdered().(slots := map[BRANDING := Slot(1, 0, false)])
  }

  lemma BoothPlanIsResolved(rule: NullRule)
    ensures ResolvePlan(BoothShop(), 4, ForOrder(9), 100, 0, rule)
         == Some(Resolved(BoothShop().(assets := map[BOOTH := GOLD_BOOTH.(hold := HELD)],
                                       slotHolds := [SlotHold(BRANDING, Some(9), None, 100)]), BOOTH_ENTRY))
  {
    var db := BoothShop();
    var rows := EligibleBooths(db, Gold, ForOrder(9), 0);
    assert rows == {BOOTH} && Reserved(db, rows) == {} && rows - {} == rows;
    hide EligibleBooths;
    assert PickBooth(db, Gold, ForOrder(9), 0) == Some(BOOTH);
    hide PickBooth;
    assert [BRANDING][1..] == [] && SlotHolds([], ForOrder(9), 100) == [];
    assert SlotHolds([BRANDING], ForOrder(9), 100) == [SlotHold(BRANDING, Some(9), None, 100)];
    assert SlotIsAvailable(db, [BRANDING][0], ForOrder(9), 0, rule);
    assert SlotsAreAvailable(db, [BRANDING], ForOrder(9), 0, rule);
    assert db.slotHolds + SlotHolds([BRANDING], ForOrder(9), 100) == [SlotHold(BRANDING, Some(9), None, 100)];
    assert db.assets[BOOTH := GOLD_BOOTH.(hold := HELD)] == map[BOOTH := GOLD_BOOTH.(hold := HELD)];
  }

  lemma PlanCartIsStored(rule: NullRule)
    ensures Checkout(BoothShop(), 9, BUYER, [PLAN_LINE], 100, 0, rule) == BoothOrdered()
  {
    var db := BoothShop();
    var items := [PLAN_LINE];
    assert items[1..] == [] && PlanIds([]) == [];
    assert PlanIds(items) == [4];
    assert NeedsCompany(items) by { assert !items[0].AssetItem?; }
    assert OwnBooths(db.assets, Some(0)) == {} && CheckoutIsAllowed(db, Some(0), items);
    assert PlaceHolds(db, [], HELD) == Some(db) && PlaceHolds(db, items, HELD) == Some(db);
    BoothPlanIsResolved(rule);
    var d := ResolvePlan(db, 4, ForOrder(9), 100, 0, rule).value.db;
    hide ResolvePlan, PlaceHolds, CheckoutIsAllowed, PlanIds;
    assert [4][1..] == [] && ResolveAll(d, [], ForOrder(9), 100, 0, rule) == Some(AllResolved(d, []));
    assert [BOOTH_ENTRY] + [] == [BOOTH_ENTRY];
    assert ResolveAll(db, [4], ForOrder(9), 100, 0, rule) == Some(AllResolved(d, [BOOTH_ENTRY]));
  }

  lemma BundleStops(now: int)
    ensures var db := BrandingGone();
      && IsGivenUp(db, 7, now) && LinesServed(db, 7, now) == [] && TakenRows(db, 7, now) == {BOOTH}
      && PaymentBuyer(db, 7, now).company == Some(0)
  {
    var db := BrandingGone();
    var b := [BOOTH_ENTRY];
    var items := [PLAN_LINE];
    var q := PaymentBuyer(db, 7, now);
    assert Lines(db, db.payments[7]) == items && q.company == Some(0) && q.ownBooths == {} && items[..0] == [];
    assert NeedsCompany(items) by { assert !items[0].AssetItem?; }
    assert FindEntry(b, 4) == Some(BOOTH_ENTRY) && !IsRefused(q, BOOTH, db.assets[BOOTH], true);
    assert ItemsAssets([], b) == {} && ItemsSlots([], b) == multiset{};
    assert !CopyIsLeft(db.slots, multiset{}, [BRANDING][..0], [BRANDING][0]);
    hide IsRefused, Served, Debit;
    assert OptionalRow(db, q, Booth, Some(1), {}) == Done && !SlotsAreLeft(db.slots, [BRANDING], multiset{});
    assert OutcomeAt(db, q, b, items, 0) == Unavailable;
    assert StopRows(db, q, b, PLAN_LINE, {}) == EntryAssets(Some(BOOTH_ENTRY)) == {BOOTH};
    hide OutcomeAt, StopRows, StopSlots, SlotsAreLeft, OptionalRow;
    assert FirstObstacle(db, q, b, items, 0) == 0;
    assert {} + {BOOTH} == {BOOTH};
  }

  lemma BoothStays(refundGranted: bool)
    ensures var d := ChargeSuccess(BrandingGone(), 7, refundGranted, 0);
      && 7 in d.payments && d.payments[7].status == RefundStatus(refundGranted)
      && BOOTH in d.assets && d.assets[BOOTH].taken && d.assets[BOOTH].owner == Some(0)
      && d.slots == BrandingGone().slots
  {
    var db := BrandingGone();
    assert WellFormed(db.payments[7]) && Consistent(db.assets) && BOOTH in db.assets && BOOTH in {BOOTH};
    BundleStops(0);
    assert BundleSlots([], db.payments[7].bundles) == multiset{};
    hide *;
    var d := ChargeSuccess(db, 7, refundGranted, 0);
    GivenUpDeliveriesLeak(db, 7, refundGranted, 0);
    RowStays(db, d);
  }

  lemma RowStays(db: Db, d: Db)
    requires 7 in db.payments && DeliveryLeft(db, d, 7, 0) && PaymentBuyer(db, 7, 0).company == Some(0)
    requires BOOTH in TakenRows(db, 7, 0) && BOOTH in db.assets
    ensures BOOTH in d.assets && d.assets[BOOTH].taken && d.assets[BOOTH].owner == Some(0)
  {
    hide PaymentBuyer, TakenRows, WouldTake, RolledBack, LinesServed, GivenBack, ItemsKobo, Copies, Debit;
  }

  const PLAN_CHECKOUT := ECheckout(9, BUYER, [PLAN_LINE], 100)
  const BRANDING_SALE := EAssignSlot(1, BRANDING)

  lemma BrandingWorld(rule: NullRule)
    ensures Step(Step(World(BoothShop(), 0, rule), PLAN_CHECKOUT), BRANDING_SALE) == World(BrandingGone(), 0, rule)
  {
    PlanCartIsStored(rule);
    hide Checkout;
    assert Debit(BoothOrdered().slots, multiset{BRANDING}) == BrandingGone().slots;
  }

  /**
   * From a fresh shop, a plan with a booth and a branding slot is ordered, and the branding copy is given away before
   * the charge. The payment is refunded or failed, the order was not served at all, and the company keeps the booth.
   */
  lemma HalfABundleLeaks(refundGranted: bool, rule: NullRule)
    ensures IsFresh(BoothShop())
    ensures var d := Run(World(BoothShop(), 0, rule),
                         [PLAN_CHECKOUT, BRANDING_SALE, EChargeSuccess(7, refundGranted)]).db;
      && 7 in d.payments && d.payments[7].status == RefundStatus(refundGranted)
      && BOOTH in d.assets && d.assets[BOOTH].taken && d.assets[BOOTH].owner == Some(0)
  {
    var w := World(BoothShop(), 0, rule);
    assert IsFresh(BoothShop());
    hide *;
    BrandingWorld(rule);
    BoothStays(refundGranted);
    ChargeStep(World(BrandingGone(), 0, rule), 7, refundGranted);
    RunOfThree(w, PLAN_CHECKOUT, BRANDING_SALE, EChargeSuccess(7, refundGranted));
  }
}
