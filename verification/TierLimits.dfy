/**
 * Where the conditions of tier agreement bite: the stale company row in the plan branch, with the exact cases in which
 * the stored tier ends below the booth's, and runs from a fresh shop that part the tier shown from what the company
 * holds.
 */
module TierLimits {
  import opened Common
  import opened CompanyTier
  import opened CheckoutHold
  import opened Tables
  import opened Inventory
  import opened Fulfilment
  import opened Refunds
  import opened BundleResolution
  import opened Machine
  import opened Effects
  import opened Charges
  import opened RefundUndo
  import opened Obstacles
  import opened BoothClash
  import opened FreshShops
  import opened Leaks
  import opened Tiers
  import opened TierAgreement

  // ---- The stored tier -------------------------------------------------------------------

  predicate TierCovers(db: Db, c: Id) {
    c in db.companies && HeldRank(db, c) <= StoredRank(db, c)
  }

  /**
   * The plan branch on its own: with a stored tier that covers the booths, it leaves one that does not if and only if
   * the plan outranks the tier read at the start and is outranked by a booth.
   */
  lemma SponsorshipLags(db: Db, q: Buyer, plan: Plan, kobo: int, c: Id)
    requires TierCovers(db, c) && q.company == Some(c)
    ensures TierCovers(AddSponsorship(db, q, plan, kobo), c) <==>
      !(Rank(q.tier) < Rank(Some(plan.tier)) < HeldRank(db, c))
  {
    hide HeldTiers, BestTier;
    assert AddSponsorship(db, q, plan, kobo).assets == db.assets;
  }

  lemma TakenBoothIsCovered(db: Db, q: Buyer, boothId: Option<Id>, c: Id)
    requires TierCovers(db, c) && q.company == Some(c)
    ensures TierCovers(TakeBundleBooth(db, q, boothId).db, c)
  {
    var d := TakeBundleBooth(db, q, boothId).db;
    if d != db {
      var a := AssetId(Booth, boothId.value);
      var row := db.assets[a].(taken := true, owner := q.company, reserved := false, hold := NO_HOLD);
      var more := if row.tier.Some? then {row.tier.value} else {};
      HeldTiersGrow(db.assets, a, row, c);
      assert d == RaiseTier(db.(assets := db.assets[a := row]), q.company, row.tier);
      assert StoredRank(d, c) >= StoredRank(db, c) && StoredRank(d, c) >= Rank(row.tier);
      assert d.assets == db.assets[a := row];
      hide TakeBundleBooth, RaiseTier, HeldTiers, BestTier;
      BestRankOfUnion(HeldTiers(db.assets, c), more);
      BestRankOfUnion(HeldTiers(db.assets, c) + more, HeldTiers(d.assets, c));
      assert HeldTiers(db.assets, c) + more + HeldTiers(d.assets, c) == HeldTiers(db.assets, c) + more;
      if row.tier.Some? { BestRankOfOne(row.tier.value); } else { BestRankOfOne(Gold); }
    }
  }

  lemma HeldTiersGrow(assets: map<AssetId, Asset>, a: AssetId, row: Asset, c: Id)
    ensures HeldTiers(assets[a := row], c) <= HeldTiers(assets, c) + if row.tier.Some? then {row.tier.value} else {}
  {
  }

  lemma TakenBundleIsCovered(db: Db, q: Buyer, e: BundleEntry, c: Id)
    requires TierCovers(db, c) && q.company == Some(c)
    ensures TierCovers(TakeBundle(db, q, e).db, c)
  {
    TakenBoothIsCovered(db, q, e.boothId, c);
    OnlyTheBoothMovesTiers(db, q, e, c);
    hide TakeBundle, TakeBundleBooth, HeldTiers;
  }

  /** A plan line that is served, taken apart. */
  lemma PlanLineLags(db: Db, q: Buyer, bundles: seq<BundleEntry>, item: Item, c: Id)
    requires TierCovers(db, c) && BuysFor(db, q, c) && IsPlanLine(item)
    requires FulfilItem(db, q, bundles, item).verdict == Done
    ensures var d := FulfilItem(db, q, bundles, item).db;
      item.planId.value in db.plans &&
      (TierCovers(d, c) <==> !(StoredRank(db, c) < Rank(Some(db.plans[item.planId.value].tier)) < HeldRank(d, c)))
  {
    var entry := FindEntry(bundles, item.planId.value);
    var plan := db.plans[item.planId.value];
    var taken := if entry.Some? then TakeBundle(db, q, entry.value).db else db;
    if entry.Some? { TakenBundleIsCovered(db, q, entry.value, c); }
    assert FulfilItem(db, q, bundles, item).db == AddSponsorship(taken, q, plan, item.unit * item.quantity);
    hide TakeBundle, FulfilItem, HeldTiers, FindEntry;
    SponsorshipLags(taken, q, plan, item.unit * item.quantity, c);
    assert AddSponsorship(taken, q, plan, item.unit * item.quantity).assets == taken.assets;
  }

  /**
   * Exactly when the stored tier ends below the tier of the booth after a fulfilled plan payment: the plan outranks the
   * tier the company had, and the booth outranks the plan.
   */
  lemma StoredTierLags(db: Db, pid: Id, refundGranted: bool, now: int, c: Id)
    requires Fulfils(db, pid, now) && Consistent(db.assets) && TierCovers(db, c)
    requires var p := db.payments[pid]; p.kind == PlanPayment && WellFormed(p) && p.companyId == Some(c)
    ensures var p := db.payments[pid];
      p.targetId.value in db.plans &&
      (TierCovers(ChargeSuccess(db, pid, refundGranted, now), c) <==>
       !(StoredRank(db, c) < Rank(Some(db.plans[p.targetId.value].tier)) < HeldWith(db, p, 1, c)))
  {
    var p := db.payments[pid];
    var marked := SetStatus(db, pid, Success);
    var q := PaymentBuyer(marked, pid, now);
    var item := Lines(db, p)[0];
    PlanChargeIs(db, pid, refundGranted, now, c);
    hide *;
    var r := FulfilItem(marked, q, p.bundles, item);
    PlanLineLags(marked, q, p.bundles, item, c);
    HeldAfterLines(marked, q, p.bundles, [item], c);
    DeliveryEffect(marked, pid, refundGranted, now);
    var d := ApplySuccess(marked, pid, refundGranted, now);
    TidiedKeepsTiers(r.db, d, pid, StatusAfter(marked, pid, refundGranted, now), c);
    SameTiersCovered(d, r.db, c);
    SameTiersCovered(marked, db, c);
    HeldWithOneLine(db, p, c);
  }

  /** The delivery of a plan payment is that of its one line. */
  lemma PlanChargeIs(db: Db, pid: Id, refundGranted: bool, now: int, c: Id)
    requires Fulfils(db, pid, now) && Consistent(db.assets) && TierCovers(db, c)
    requires var p := db.payments[pid]; p.kind == PlanPayment && WellFormed(p) && p.companyId == Some(c)
    ensures var p := db.payments[pid]; var marked := SetStatus(db, pid, Success);
      var q := PaymentBuyer(marked, pid, now);
      && |Lines(db, p)| == 1
      && var item := Lines(db, p)[0]; var r := FulfilItem(marked, q, p.bundles, item);
      && Lines(db, p) == [item] && IsPlanLine(item) && item.planId == p.targetId && p.targetId.Some?
      && BuysFor(marked, q, c) && q.company == Some(c) && ReadAtStart(marked.assets, q) && r.verdict == Done
      && FulfilItems(marked, q, p.bundles, [item]).verdict == Done
      && FulfilItems(marked, q, p.bundles, [item]).db == r.db
      && Mid(marked, pid, now) == r.db
      && ChargeSuccess(db, pid, refundGranted, now) == ApplySuccess(marked, pid, refundGranted, now)
      && marked.assets == db.assets && marked.companies == db.companies && marked.plans == db.plans
      && c in marked.companies && Consistent(marked.assets) && WellFormed(marked.payments[pid])
      && HeldTiers(marked.assets, c) == HeldTiers(db.assets, c) && TierCovers(marked, c)
  {
    var p := db.payments[pid];
    var marked := SetStatus(db, pid, Success);
    var q := PaymentBuyer(marked, pid, now);
    var item := Lines(db, p)[0];
    assert ChargeSuccess(db, pid, refundGranted, now) == ApplySuccess(marked, pid, refundGranted, now) by {
      hide ApplySuccess;
    }
    hide ApplySuccess, FulfilItem, HeldRank, StoredRank, Consistent, OwnBooths, HeldTiers;
    assert Lines(db, p) == [item] && [item][1..] == [];
    var r := FulfilItem(marked, q, p.bundles, item);
    assert FulfilItems(r.db, q, p.bundles, []) == LinesOutcome(r.db, Done, 0);
    assert BuysFor(marked, q, c) && ReadAtStart(marked.assets, q);
    MarkedCovers(db, pid, c);
  }

  lemma MarkedCovers(db: Db, pid: Id, c: Id)
    requires TierCovers(db, c)
    ensures TierCovers(SetStatus(db, pid, Success), c)
  {
  }

  lemma SameTiersCovered(a: Db, b: Db, c: Id)
    requires HeldTiers(a.assets, c) == HeldTiers(b.assets, c) && a.companies == b.companies
    ensures HeldRank(a, c) == HeldRank(b, c) && (TierCovers(a, c) <==> TierCovers(b, c))
    ensures c in a.companies ==> StoredRank(a, c) == StoredRank(b, c)
  {
    SameHeldTiers(a, b, c);
    hide HeldRank;
  }

  lemma HeldWithOneLine(db: Db, p: Payment, c: Id)
    requires |Lines(db, p)| == 1
    ensures HeldWith(db, p, 1, c)
      == Max(HeldRank(db, c), BestRank(BoothTiers(db.assets, ItemsAssets(Lines(db, p), p.bundles))))
  {
    assert Lines(db, p)[..1] == Lines(db, p);
    hide HeldRank, BoothTiers, ItemsAssets, Lines, BestRank;
  }

  lemma SameHeldTiers(a: Db, b: Db, c: Id)
    requires HeldTiers(a.assets, c) == HeldTiers(b.assets, c)
    ensures HeldRank(a, c) == HeldRank(b, c)
  {
  }

  // ---- Runs from a fresh shop ------------------------------------------------------------

  lemma CompanyIsNew(rule: NullRule)
    ensures IsNewcomer(Opening(rule).db, 0)
  {
  }

  /** Nobody owns a booth and one payment is all there is: only that payment speaks for the company. */
  lemma OnlyThisPaymentSpeaks(db: Db, c: Id, pid: Id)
    requires OwnBooths(db.assets, Some(c)) == {} && db.payments.Keys == {pid}
    ensures HeldRank(db, c) == 0 && RestRank(db, c, pid) == 0
  {
    NoBoothHeld(db.assets, c);
    assert PlanTiers(db.payments, db.plans, c, Some(pid)) == {};
    BestRankOfOne(Gold);
  }

  /** What a delivery for the company leaves of its tier and its booths, however it ends. */
  lemma DeliveryRaises(db: Db, pid: Id, refundGranted: bool, now: int, c: Id)
    requires AwaitsDelivery(db, pid, c) && !IsMissing(db, pid, now)
    ensures var items := Lines(db, db.payments[pid]);
      ServedBefore(db, pid, now) <= |items| &&
      Raised(db, ApplySuccess(SetStatus(db, pid, Success), pid, refundGranted, now), c,
             PlanGain(db.plans, items[..ServedBefore(db, pid, now)]))
  {
    var marked := SetStatus(db, pid, Success);
    var p := db.payments[pid];
    var d := ApplySuccess(marked, pid, refundGranted, now);
    var n := ServedBefore(db, pid, now);
    assert n <= |Lines(db, p)|;
    MarkedIsAlike(db, pid, now);
    assert Mid(marked, pid, now) == Core(marked, pid, now).db;
    hide *;
    AwaitsIs(db, pid, c);
    MarkedIs(db, pid);
    CleanLines(db, p);
    StatusDoesNotMatter(db, p, Success);
    assert WellFormed(marked.payments[pid]) by { CleanIsWellFormed(db, marked.payments[pid]); }
    DeliveryIsForeseen(marked, pid, now);
    OwnMidRaises(marked, pid, now, c);
    DeliveryEffect(marked, pid, refundGranted, now);
    var gain := PlanGain(db.plans, Lines(db, p)[..n]);
    TidiedRaises(marked, Mid(marked, pid, now), d, pid, StatusAfter(marked, pid, refundGranted, now), c, gain);
    SameTablesRaise(db, marked, d, c, gain);
  }

  ghost predicate NoTiers(assets: map<AssetId, Asset>) {
    forall a | a in assets :: assets[a].tier == None
  }

  lemma NoTiersHeld(db: Db, c: Id)
    requires NoTiers(db.assets)
    ensures HeldRank(db, c) == 0
  {
    assert HeldTiers(db.assets, c) == {};
    BestRankOfOne(Gold);
  }

  lemma TiersAreNotDelivered(db: Db, pid: Id, refundGranted: bool, now: int)
    requires pid in db.payments && WellFormed(db.payments[pid]) && NoTiers(db.assets)
    ensures NoTiers(ApplySuccess(SetStatus(db, pid, Success), pid, refundGranted, now).assets)
  {
    var marked := SetStatus(db, pid, Success);
    var p := marked.payments[pid];
    var d := ApplySuccess(marked, pid, refundGranted, now);
    var mid := Mid(marked, pid, now);
    assert WellFormed(p) && marked.assets == db.assets;
    MidEffect(marked, pid, now);
    hide ApplySuccess, Mid, StatusAfter, Net, Debit, WellFormed, SetStatus, Claims, ItemsAssets, ItemsSlots, Lines,
         PaymentBuyer, ServedLines, OrdersKeep;
    ClaimsKeepTiers(marked.assets, mid.assets, PaymentBuyer(marked, pid, now),
                    ItemsAssets(Lines(marked, p), p.bundles));
    assert mid.assets.Keys == db.assets.Keys by { ClaimsKeys(marked, mid, pid, now); }
    DeliveryEffect(marked, pid, refundGranted, now);
    ReleasedTiers(mid, d, pid, StatusAfter(marked, pid, refundGranted, now));
  }

  lemma ClaimsKeys(db: Db, mid: Db, pid: Id, now: int)
    requires pid in db.payments
    requires var p := db.payments[pid];
      Claims(db.assets, mid.assets, PaymentBuyer(db, pid, now), ItemsAssets(Lines(db, p), p.bundles))
    ensures mid.assets.Keys == db.assets.Keys
  {
  }

  lemma ReleasedTiers(before: Db, after: Db, pid: Id, status: PaymentStatus)
    requires pid in before.payments && Tidied(before, after, pid, status)
    ensures NoTiers(before.assets) ==> NoTiers(after.assets)
  {
    hide OrdersKeep;
  }

  /** Where no booth has a tier, the tier stored after a delivery is the one of the plan served, if there is one. */
  lemma OnlyPlansGiveTiers(db: Db, pid: Id, refundGranted: bool, now: int, c: Id)
    requires AwaitsDelivery(db, pid, c) && !IsMissing(db, pid, now) && NoTiers(db.assets) && StoredRank(db, c) == 0
    ensures var items := Lines(db, db.payments[pid]);
      var d := ApplySuccess(SetStatus(db, pid, Success), pid, refundGranted, now);
      && ServedBefore(db, pid, now) <= |items| && c in d.companies
      && StoredRank(d, c) == PlanGain(db.plans, items[..ServedBefore(db, pid, now)])
  {
    var d := ApplySuccess(SetStatus(db, pid, Success), pid, refundGranted, now);
    var n := ServedBefore(db, pid, now);
    AwaitsIs(db, pid, c);
    CleanIsWellFormed(db, db.payments[pid]);
    hide *;
    DeliveryRaises(db, pid, refundGranted, now, c);
    TiersAreNotDelivered(db, pid, refundGranted, now);
    NoTiersHeld(db, c);
    NoTiersHeld(d, c);
    RaisedFromNothing(db, d, c, PlanGain(db.plans, Lines(db, db.payments[pid])[..n]));
  }

  lemma RaisedFromNothing(db: Db, d: Db, c: Id, gain: nat)
    requires Raised(db, d, c, gain) && StoredRank(db, c) == 0 && HeldRank(db, c) == 0 && HeldRank(d, c) == 0
    ensures c in d.companies && StoredRank(d, c) == gain
  {
    hide HeldRank;
  }

  /** The order waits for its charge in tables where nobody has a booth, a tier or a plan. */
  lemma OrderAwaits(db: Db)
    requires 7 in db.payments && IsStoredCleanly(db, db.payments[7]) && db.payments[7].companyId == Some(0)
    requires db.payments.Keys == {7} && db.payments[7].status == Pending && Consistent(db.assets)
    requires NoTiers(db.assets) && 0 in db.companies && db.companies[0].tier == None
    ensures AwaitsDelivery(db, 7, 0) && StoredRank(db, 0) == 0
  {
    NoTiersHeld(db, 0);
    NoPlanCounts(db.payments, db.plans, 0);
    BestRankOfOne(Gold);
    hide HeldRank, IsStoredCleanly, Consistent;
  }

  lemma RankIsGold(t: Option<Tier>)
    requires Rank(t) == 3
    ensures t == Some(Gold)
  {
  }

  // An order that is given up after its plan line.

  const PLAN_AND_ADVERT := [PLAN_LINE, ADVERT_LINE]

  /** The plan and the one copy of the advert; meanwhile an administrator gives the copy to the other company. */
  const PLAN_CHECKOUT := ECheckout(9, BUYER, PLAN_AND_ADVERT, 100)
  const SALE := EAssignSlot(1, ADVERT)

  lemma AdvertCartIsStored(rule: NullRule)
    ensures Checkout(FreshShop(), 9, BUYER, PLAN_AND_ADVERT, 100, 0, rule)
      == WithOrder(FreshShop(), PLAN_AND_ADVERT, [GOLD_ENTRY])
  {
    var db := FreshShop();
    var items := PLAN_AND_ADVERT;
    var rest := [ADVERT_LINE];
    assert items[0] == PLAN_LINE && items[1..] == rest && rest[1..] == [];
    assert PlanIds([]) == [];
    assert PlanIds(rest) == [];
    assert PlanIds(items) == [4];
    assert NeedsCompany(items) by { assert items[0].PlanItem?; }
    assert PlaceHolds(db, rest, HELD) == Some(db);
    assert PlaceHolds(db, items, HELD) == Some(db);
    hide PlanIds, PlaceHolds, Checkout;
    CartIsStored(items, [GOLD_ENTRY], db, rule);
  }

  function SoldOutShop(): Db {
    WithOrder(FreshShop().(slots := map[ADVERT := Slot(1, 0, false)]), PLAN_AND_ADVERT, [GOLD_ENTRY])
  }

  lemma GainOfPlanLine(plans: map<Id, Plan>)
    requires 4 in plans && plans[4] == GOLD_PLAN
    ensures PlanGain(plans, [PLAN_LINE]) == 3 == PlanGain(plans, [AssetItem(Booth, Some(2)), PLAN_LINE])
    ensures forall id :: PlanGain(plans, [AssetItem(Booth, id)]) == 0
  {
    assert [PLAN_LINE][1..] == [] && [AssetItem(Booth, Some(2)), PLAN_LINE][1..] == [PLAN_LINE];
    assert LineGain(plans, PLAN_LINE) == 3 && PlanGain(plans, []) == 0;
    assert PlanGain(plans, [PLAN_LINE]) == 3;
    forall id ensures PlanGain(plans, [AssetItem(Booth, id)]) == 0 { assert [AssetItem(Booth, id)][1..] == []; }
  }

  lemma PlanThenNoAdvert(now: int)
    ensures !TierSurvives(SoldOutShop(), 7, now, 0)
    ensures var db := SoldOutShop();
      && IsGivenUp(db, 7, now) && ServedBefore(db, 7, now) == 1 <= |Lines(db, db.payments[7])|
      && PlanGain(db.plans, Lines(db, db.payments[7])[..1]) == 3
  {
    var db := SoldOutShop();
    var items := PLAN_AND_ADVERT;
    var q := PaymentBuyer(db, 7, now);
    assert Lines(db, db.payments[7]) == items && q.company == Some(0) && !IsMissing(db, 7, now);
    assert items[..0] == [] && items[..1] == [PLAN_LINE] && [PLAN_LINE][1..] == [];
    assert FindEntry([GOLD_ENTRY], 4) == Some(GOLD_ENTRY);
    assert OutcomeAt(db, q, [GOLD_ENTRY], items, 0) == Done;
    assert OutcomeAt(db, q, [GOLD_ENTRY], items, 1) == Unavailable by { assert [ADVERT][0] == ADVERT; }
    assert FirstObstacle(db, q, [GOLD_ENTRY], items, 1) == 1 == FirstObstacle(db, q, [GOLD_ENTRY], items, 0);
    assert ItemsAssets([PLAN_LINE], [GOLD_ENTRY]) == {};
    assert BoothTiers(db.assets, {}) == {};
    GainOfPlanLine(db.plans);
    BestRankOfOne(Gold);
    OnlyThisPaymentSpeaks(db, 0, 7);
  }

  lemma SoldMeanwhileIsHarmless(rule: NullRule)
    ensures var w := Opening(rule);
      TierAllowed(w, PLAN_CHECKOUT, 0) && TierAllowed(Step(w, PLAN_CHECKOUT), SALE, 0)
  {
  }

  lemma AfterTheSale(rule: NullRule)
    ensures AssignSlot(Checkout(FreshShop(), 9, BUYER, PLAN_AND_ADVERT, 100, 0, rule), 1, ADVERT) == SoldOutShop()
  {
    AdvertCartIsStored(rule);
  }

  lemma {:induction false} RunAppends(w: World, events: seq<Event>, last: Event)
    ensures Run(w, events + [last]) == Step(Run(w, events), last)
    decreases events
  {
    hide Step;
    if events == [] {
      assert [] + [last] == [last] && [last][1..] == [];
      assert Run(w, [last]) == Run(Step(w, last), []);
    } else {
      RunAppends(Step(w, events[0]), events[1..], last);
      assert (events + [last])[1..] == events[1..] + [last];
    }
  }

  lemma {:induction false} TierKeptRun(w: World, events: seq<Event>, c: Id)
    requires TierKept(w.db, c) && TierAllowedRun(w, events, c)
    ensures TierKept(Run(w, events).db, c)
    decreases events
  {
    hide TierAllowed, Next, Agrees, Consistent, AllStoredCleanly;
    if events != [] {
      TierStep(w, events[0], c);
      TierKeptRun(Step(w, events[0]), events[1..], c);
    }
  }

  /** Where an event that is not allowed follows allowed ones, agreement holds up to it and is gone after it. */
  lemma LastEventParts(w: World, events: seq<Event>, last: Event, c: Id)
    requires TierKept(w.db, c) && TierAllowedRun(w, events, c) && !TierAllowed(Run(w, events), last, c)
    ensures AgreesThroughout(w, events, c) && !Agrees(Run(w, events + [last]).db, c)
  {
    assert Step(Run(w, events), last).db == Next(Run(w, events), last);
    hide *;
    TierRun(w, events, c);
    TierKeptRun(w, events, c);
    TierStep(Run(w, events), last, c);
    RunAppends(w, events, last);
  }

  lemma TwoAllowed(w: World, e0: Event, e1: Event, c: Id)
    requires TierAllowed(w, e0, c) && TierAllowed(Step(w, e0), e1, c)
    ensures TierAllowedRun(w, [e0, e1], c) && Run(w, [e0, e1]) == Step(Step(w, e0), e1)
  {
    hide TierAllowed, Step;
    assert [e0, e1][1..] == [e1] && [e1][1..] == [];
    assert TierAllowedRun(Step(Step(w, e0), e1), [], c);
    assert TierAllowedRun(Step(w, e0), [e1], c);
    assert Run(Step(w, e0), [e1]) == Run(Step(Step(w, e0), e1), []);
  }

  lemma DeliveryIsNotAllowed(w: World, pid: Id, refundGranted: bool, c: Id)
    requires pid in w.db.payments && w.db.payments[pid].status == Pending && w.db.payments[pid].companyId == Some(c)
    requires !TierSurvives(w.db, pid, w.now, c)
    ensures !TierAllowed(w, EChargeSuccess(pid, refundGranted), c)
  {
  }

  lemma StoppedOrderEnds(refundGranted: bool)
    ensures var d := ChargeSuccess(SoldOutShop(), 7, refundGranted, 0);
      && 0 in d.companies && d.companies[0].tier == Some(Gold)
      && 7 in d.payments && d.payments[7].status == RefundStatus(refundGranted)
  {
    var db := SoldOutShop();
    assert PlanIds(db.orders[9].items) == [4] by {
      assert PLAN_AND_ADVERT[1..] == [ADVERT_LINE] && [ADVERT_LINE][1..] == [] && PlanIds([ADVERT_LINE]) == [];
    }
    assert IsStoredCleanly(db, db.payments[7]) && Consistent(db.assets) && NoTiers(db.assets);
    assert db.payments.Keys == {7} && db.companies[0].tier == None && WellFormed(db.payments[7]);
    assert IsGivenUp(db, 7, 0) ==> !IsMissing(db, 7, 0) by { hide IsMissing, StopsWith; }
    hide *;
    OrderAwaits(db);
    PlanThenNoAdvert(0);
    GivenUpEnds(db, 7, refundGranted, 0);
    OnlyPlansGiveTiers(db, 7, refundGranted, 0, 0);
    StoredIsGold(ChargeSuccess(db, 7, refundGranted, 0), 0);
  }

  lemma StoredIsGold(db: Db, c: Id)
    requires c in db.companies && StoredRank(db, c) == 3
    ensures db.companies[c].tier == Some(Gold)
  {
    RankIsGold(db.companies[c].tier);
  }

  /** From a fresh shop: the payment ends refunded or failed, and the plan's tier stays with the company. */
  lemma StoppedOrderKeepsTier(refundGranted: bool, rule: NullRule)
    ensures IsNewcomer(Opening(rule).db, 0) && AgreesThroughout(Opening(rule), [PLAN_CHECKOUT, SALE], 0)
    ensures var d := Run(Opening(rule), [PLAN_CHECKOUT, SALE] + [EChargeSuccess(7, refundGranted)]).db;
      && !Agrees(d, 0) && 0 in d.companies && d.companies[0].tier == Some(Gold)
      && 7 in d.payments && d.payments[7].status == RefundStatus(refundGranted)
  {
    hide *;
    var w := Opening(rule);
    var e := EChargeSuccess(7, refundGranted);
    var w2 := Step(Step(w, PLAN_CHECKOUT), SALE);
    CompanyIsNew(rule);
    SoldMeanwhileIsHarmless(rule);
    SoldOutWorld(rule);
    ChargeStep(w2, 7, refundGranted);
    NewcomerAgrees(w.db, 0);
    TwoAllowed(w, PLAN_CHECKOUT, SALE, 0);
    PlanThenNoAdvert(0);
    DeliveryIsNotAllowed(w2, 7, refundGranted, 0);
    LastEventParts(w, [PLAN_CHECKOUT, SALE], e, 0);
    StoppedOrderEnds(refundGranted);
    RunOfThree(w, PLAN_CHECKOUT, SALE, e);
    assert [PLAN_CHECKOUT, SALE] + [e] == [PLAN_CHECKOUT, SALE, e];
  }

  lemma SoldOutWorld(rule: NullRule)
    ensures var w2 := Step(Step(Opening(rule), PLAN_CHECKOUT), SALE);
      && w2 == World(SoldOutShop(), 0, rule)
      && 7 in w2.db.payments && w2.db.payments[7].status == Pending && w2.db.payments[7].companyId == Some(0)
  {
    AfterTheSale(rule);
    hide Checkout;
  }

  // An order that is broken off before its plan line.

  const BOOTHS_AND_PLAN := TwoBoothsAnd(PLAN_LINE)

  lemma BoothsStop(now: int)
    ensures var db := WithOrder(HeldShop(), BOOTHS_AND_PLAN, [GOLD_ENTRY]);
      && Crashes(db, 7, now) && ServedBefore(db, 7, now) == 1 && Lines(db, db.payments[7]) == BOOTHS_AND_PLAN
      && StopsWith(db, 7, now) == Crashed && !IsMissing(db, 7, now)
  {
    var db := WithOrder(HeldShop(), BOOTHS_AND_PLAN, [GOLD_ENTRY]);
    var items := BOOTHS_AND_PLAN;
    var q := PaymentBuyer(db, 7, now);
    var b1, b2 := AssetId(Booth, 1), AssetId(Booth, 2);
    assert Lines(db, db.payments[7]) == items && q.company == Some(0) && !IsMissing(db, 7, now) && q.ownBooths == {};
    assert items[..0] == [] && items[..1] == [items[0]];
    assert ItemsAssets([items[0]], [GOLD_ENTRY]) == {b1} by { assert [items[0]][1..] == []; }
    assert !IsRefused(q, b1, db.assets[b1], false) && !IsRefused(q, b2, db.assets[b2], false);
    assert OutcomeAt(db, q, [GOLD_ENTRY], items, 0) == Done;
    assert OtherBooth({b1}, b2) by { assert b1 in {b1}; }
    assert OutcomeAt(db, q, [GOLD_ENTRY], items, 1) == Crashed;
    hide OutcomeAt, IsRefused;
    assert FirstObstacle(db, q, [GOLD_ENTRY], items, 1) == 1 == FirstObstacle(db, q, [GOLD_ENTRY], items, 0);
  }

  lemma NothingIsLeft(now: int)
    ensures var db := WithOrder(HeldShop(), BOOTHS_AND_PLAN, [GOLD_ENTRY]);
      1 <= |Lines(db, db.payments[7])| && LeftRank(db, 7, 1, 0) == 0
  {
    var db := WithOrder(HeldShop(), BOOTHS_AND_PLAN, [GOLD_ENTRY]);
    assert Lines(db, db.payments[7]) == BOOTHS_AND_PLAN && db.payments.Keys == {7};
    assert OwnBooths(db.assets, Some(0)) == {} && NoTiers(db.assets);
    var rows := ItemsAssets(BOOTHS_AND_PLAN[..1], [GOLD_ENTRY]);
    assert BoothTiers(db.assets, rows) == {} by { hide ItemsAssets; }
    BestRankOfOne(Gold);
    OnlyThisPaymentSpeaks(db, 0, 7);
    hide ItemsAssets, BoothTiers, HeldRank, RestRank;
  }

  lemma BoothsBeforePlan(now: int)
    ensures !TierSurvives(WithOrder(HeldShop(), BOOTHS_AND_PLAN, [GOLD_ENTRY]), 7, now, 0)
    ensures var db := WithOrder(HeldShop(), BOOTHS_AND_PLAN, [GOLD_ENTRY]);
      && Crashes(db, 7, now) && ServedBefore(db, 7, now) == 1 <= |Lines(db, db.payments[7])|
      && PlanGain(db.plans, Lines(db, db.payments[7])[..1]) == 0
  {
    var db := WithOrder(HeldShop(), BOOTHS_AND_PLAN, [GOLD_ENTRY]);
    var items := BOOTHS_AND_PLAN;
    assert items[..1] == [AssetItem(Booth, Some(1))] && items[1..] == [AssetItem(Booth, Some(2)), PLAN_LINE];
    BoothsStop(now);
    NothingIsLeft(now);
    GainOfPlanLine(db.plans);
    hide Crashes, StopsWith, ServedBefore, IsMissing, LeftRank, PlanGain, Lines;
  }

  lemma BrokenOrderEnds(refundGranted: bool)
    ensures var d := ChargeSuccess(WithOrder(HeldShop(), BOOTHS_AND_PLAN, [GOLD_ENTRY]), 7, refundGranted, 0);
      && 0 in d.companies && StoredRank(d, 0) == 0
      && 7 in d.payments && CountsForTier(d.payments[7], 0) && d.payments[7].bundles == [GOLD_ENTRY]
  {
    var db := WithOrder(HeldShop(), BOOTHS_AND_PLAN, [GOLD_ENTRY]);
    assert PlanIds(db.orders[9].items) == [4] by {
      assert BOOTHS_AND_PLAN[1..] == [BOOTHS_AND_PLAN[1], PLAN_LINE];
      assert BOOTHS_AND_PLAN[1..][1..] == [PLAN_LINE] && [PLAN_LINE][1..] == [] && PlanIds([PLAN_LINE]) == [4];
    }
    assert IsStoredCleanly(db, db.payments[7]) && Consistent(db.assets) && NoTiers(db.assets);
    assert db.payments.Keys == {7} && db.companies[0].tier == None && WellFormed(db.payments[7]);
    assert ChargeSuccess(db, 7, refundGranted, 0) == ApplySuccess(SetStatus(db, 7, Success), 7, refundGranted, 0) by {
      hide ApplySuccess;
    }
    assert Crashes(db, 7, 0) ==> !IsMissing(db, 7, 0) by { hide IsMissing, StopsWith; }
    assert CountsForTier(db.payments[7].(status := Success), 0);
    hide *;
    OrderAwaits(db);
    BoothsBeforePlan(0);
    CrashTakesServedLines(db, 7, refundGranted, 0);
    OnlyPlansGiveTiers(db, 7, refundGranted, 0, 0);
  }

  const BOOTH_CHECKOUT := ECheckout(9, BUYER, BOOTHS_AND_PLAN, 100)

  lemma BoothCheckoutIs(rule: NullRule)
    ensures var w1 := Step(Opening(rule), BOOTH_CHECKOUT);
      && w1 == World(WithOrder(HeldShop(), BOOTHS_AND_PLAN, [GOLD_ENTRY]), 0, rule)
      && 7 in w1.db.payments && w1.db.payments[7].status == Pending && w1.db.payments[7].companyId == Some(0)
      && TierAllowed(Opening(rule), BOOTH_CHECKOUT, 0)
  {
    TwoBoothsAreStored(PLAN_LINE, [GOLD_ENTRY], rule);
    hide Checkout;
  }

  /** From a fresh shop: the payment stays successful and its plan counts, but no tier was written. */
  lemma BrokenOrderLosesTier(refundGranted: bool, rule: NullRule)
    ensures IsNewcomer(Opening(rule).db, 0)
    ensures var d := Run(Opening(rule), [BOOTH_CHECKOUT, EChargeSuccess(7, refundGranted)]).db;
      && !Agrees(d, 0) && 0 in d.companies && StoredRank(d, 0) == 0
      && 7 in d.payments && CountsForTier(d.payments[7], 0) && d.payments[7].bundles == [GOLD_ENTRY]
  {
    hide *;
    var w := Opening(rule);
    var e := EChargeSuccess(7, refundGranted);
    var w1 := Step(w, BOOTH_CHECKOUT);
    CompanyIsNew(rule);
    BoothCheckoutIs(rule);
    NewcomerAgrees(w.db, 0);
    OneAllowed(w, BOOTH_CHECKOUT, 0);
    ChargeStep(w1, 7, refundGranted);
    BoothsBeforePlan(0);
    DeliveryIsNotAllowed(w1, 7, refundGranted, 0);
    LastEventParts(w, [BOOTH_CHECKOUT], e, 0);
    assert [BOOTH_CHECKOUT] + [e] == [BOOTH_CHECKOUT, e];
    BrokenOrderEnds(refundGranted);
    RunOfTwo(w, BOOTH_CHECKOUT, e);
  }

  lemma OneAllowed(w: World, e: Event, c: Id)
    requires TierAllowed(w, e, c)
    ensures TierAllowedRun(w, [e], c) && Run(w, [e]) == Step(w, e)
  {
    hide TierAllowed, Step;
    assert [e][1..] == [] && Run(Step(w, e), []) == Step(w, e);
  }

  // A charge.failed after the plan was bought.

  /** The tables with payment 7 for the plan. */
  function WithPlanPayment(db: Db, status: PaymentStatus): Db {
    db.(payments := map[7 := Payment(PlanPayment, status, false, 5, Some(0), None, Some(4), 100, [GOLD_ENTRY])])
  }

  lemma PlanPaymentIsStored(rule: NullRule)
    ensures InitPlan(FreshShop(), BUYER, 4, 100, 0, rule) == WithPlanPayment(FreshShop(), Pending)
  {
    PlanIsResolved(FreshShop(), ForPayment(7), 100, 0, rule);
    hide ResolvePlan;
    assert [PlanItem(Some(4), 0, 1)][1..] == [];
    assert PlanIds([PlanItem(Some(4), 0, 1)]) == [4];
    assert PlanIsBuyable(FreshShop(), Some(0), 4);
  }

  lemma PlanIsBought(refundGranted: bool)
    ensures var d := ChargeSuccess(WithPlanPayment(FreshShop(), Pending), 7, refundGranted, 0);
      && d.payments == WithPlanPayment(FreshShop(), Success).payments && d.assets == FreshShop().assets
      && d.plans == FreshShop().plans && 0 in d.companies && d.companies[0].tier == Some(Gold)
  {
    var db := WithPlanPayment(FreshShop(), Success);
    assert SetStatus(WithPlanPayment(FreshShop(), Pending), 7, Success) == db;
    assert FindEntry([GOLD_ENTRY], 4) == Some(GOLD_ENTRY);
    var q := PaymentBuyer(db, 7, 0);
    assert q.company == Some(0) && q.tier == None;
    EmptyBundleIsTaken(db, q);
    var taken := TakeBundle(db, q, GOLD_ENTRY);
    hide TakeBundle, OwnBooths;
    var bought := AddSponsorship(taken.db, q, GOLD_PLAN, 100);
    assert bought.assets == db.assets && bought.payments == db.payments && bought.plans == db.plans;
    assert 0 in bought.companies && bought.companies[0].tier == Some(Gold);
    assert PlanEntry(db.payments[7]) == Some(GOLD_ENTRY) && taken.verdict == Done;
    hide AddSponsorship, PlanEntry, FindEntry, ReleaseForPayment, PaymentBuyer, BuyerOf;
    assert BuyPlan(db, q, Some(GOLD_ENTRY), GOLD_PLAN, 100) == Outcome(bought, Done);
    hide BuyPlan;
    assert ApplyPlan(db, 7, q, GOLD_PLAN, refundGranted) == ReleaseForPayment(bought, 7);
    hide ApplyPlan;
    PlanPaymentIsApplied(db, q, refundGranted);
    NoHoldIsReleased(bought);
  }

  lemma PlanPaymentIsApplied(db: Db, q: Buyer, refundGranted: bool)
    requires db == WithPlanPayment(FreshShop(), Success) && q == PaymentBuyer(db, 7, 0) && q.company == Some(0)
    ensures ApplySuccess(db, 7, refundGranted, 0) == ApplyPlan(db, 7, q, GOLD_PLAN, refundGranted)
  {
    hide ApplyPlan, OwnBooths;
  }

  lemma NoHoldIsReleased(db: Db)
    requires db.assets == FreshShop().assets
    ensures var d := ReleaseForPayment(db, 7);
      d.assets == db.assets && d.payments == db.payments && d.plans == db.plans && d.companies == db.companies
  {
    hide KeepHolds;
  }

  lemma EmptyBundleIsTaken(db: Db, q: Buyer)
    ensures var taken := TakeBundle(db, q, GOLD_ENTRY);
      && taken.verdict == Done && taken.db.assets == db.assets && taken.db.payments == db.payments
      && taken.db.plans == db.plans && taken.db.companies == db.companies
  {
    assert Served(db.slots, [], 0) == 0;
    hide OwnBooths, Debit, Copies;
  }

  lemma PlanSpeaksAlone(db: Db)
    requires db.assets == FreshShop().assets && db.plans == FreshShop().plans
    requires db.payments == WithPlanPayment(FreshShop(), Success).payments
    ensures !FailureIsHarmless(db, 7, 0)
  {
    EntryRankIs(db.payments[7], db.plans);
    OnlyThisPaymentSpeaks(db, 0, 7);
    hide EntryRank, RestRank, HeldRank;
  }

  const PLAN_CHARGE := EInitPlan(BUYER, 4, 100)

  lemma FailedAfterwards(db: Db)
    requires 7 in db.payments && db.payments[7].status == Success && 0 in db.companies
    ensures var d := ChargeFailed(db, 7);
      d.companies == db.companies && 7 in d.payments && d.payments[7].status == Failed
  {
    ClosingTables(db, 7);
    hide ChargeFailed, Released, OrdersKeep;
  }

  lemma BoughtTables(refundGranted: bool, rule: NullRule)
    ensures var w := Opening(rule); var w1 := Step(w, PLAN_CHARGE);
      var w2 := Step(w1, EChargeSuccess(7, refundGranted));
      && w1 == World(WithPlanPayment(FreshShop(), Pending), 0, rule)
      && w2.db == ChargeSuccess(WithPlanPayment(FreshShop(), Pending), 7, refundGranted, 0)
      && 7 in w1.db.payments && WellFormed(w1.db.payments[7]) && w1.db.payments[7].kind == PlanPayment
  {
    PlanPaymentIsStored(rule);
    hide ChargeSuccess, InitPlan;
  }

  lemma PlanPaymentSucceeds()
    ensures var m := WithPlanPayment(FreshShop(), Success).payments; 7 in m && m[7].status == Success
  {
  }

  lemma BoughtWorld(refundGranted: bool, rule: NullRule)
    ensures var w := Opening(rule); var e1 := EChargeSuccess(7, refundGranted);
      var w2 := Step(Step(w, PLAN_CHARGE), e1);
      && TierAllowed(w, PLAN_CHARGE, 0) && TierAllowed(Step(w, PLAN_CHARGE), e1, 0)
      && !TierAllowed(w2, EChargeFailed(7), 0)
      && 7 in w2.db.payments && w2.db.payments[7].status == Success
      && 0 in w2.db.companies && w2.db.companies[0].tier == Some(Gold)
  {
    var w1 := Step(Opening(rule), PLAN_CHARGE);
    var w2 := Step(w1, EChargeSuccess(7, refundGranted));
    PlanIsBought(refundGranted);
    BoughtTables(refundGranted, rule);
    PlanPaymentSucceeds();
    hide ChargeSuccess, InitPlan, TierSurvives, FailureIsHarmless, Step, WithPlanPayment, FreshShop, WellFormed;
    SingleItemsSurvive(w1.db, 7, w1.now, 0);
    PlanSpeaksAlone(w2.db);
  }

  /** From a fresh shop: the plan's tier stays with the company after its payment was marked failed. */
  lemma LateFailureKeepsTier(refundGranted: bool, rule: NullRule)
    ensures IsNewcomer(Opening(rule).db, 0)
    ensures AgreesThroughout(Opening(rule), [PLAN_CHARGE, EChargeSuccess(7, refundGranted)], 0)
    ensures var d := Run(Opening(rule), [PLAN_CHARGE, EChargeSuccess(7, refundGranted)] + [EChargeFailed(7)]).db;
      && !Agrees(d, 0) && 0 in d.companies && d.companies[0].tier == Some(Gold)
      && 7 in d.payments && d.payments[7].status == Failed
  {
    hide *;
    var w := Opening(rule);
    var e1 := EChargeSuccess(7, refundGranted);
    var w2 := Step(Step(w, PLAN_CHARGE), e1);
    CompanyIsNew(rule);
    BoughtWorld(refundGranted, rule);
    ChargeStep(w2, 7, refundGranted);
    NewcomerAgrees(w.db, 0);
    TwoAllowed(w, PLAN_CHARGE, e1, 0);
    LastEventParts(w, [PLAN_CHARGE, e1], EChargeFailed(7), 0);
    FailedAfterwards(w2.db);
    RunOfThree(w, PLAN_CHARGE, e1, EChargeFailed(7));
    assert [PLAN_CHARGE, e1] + [EChargeFailed(7)] == [PLAN_CHARGE, e1, EChargeFailed(7)];
  }

  // A plan below its booth.

  const PLATINUM_BOOTH := Asset(Some(Platinum), true, 0, 0, false, false, None, NO_HOLD)
  const MIXED_PLAN := Plan(Gold, true, Some(Platinum), NO_RULE, NO_RULE, [])

  /** One platinum booth, and a gold plan that brings one. */
  function MixedShop(): Db {
    Db(map[AssetId(Booth, 1) := PLATINUM_BOOTH], map[], [], {}, map[0 := Company(None, 0)], map[4 := MIXED_PLAN], map[],
       map[])
  }

  /** Its tables when the plan payment 7 waits for its charge. */
  function MixedCharge(): Db {
    MixedShop().(assets := map[AssetId(Booth, 1) := PLATINUM_BOOTH.(hold := Hold(Some(100), None, Some(7)))],
                 payments := map[7 := Payment(PlanPayment, Pending, false, 5, Some(0), None, Some(4), 100,
                                              [BundleEntry(4, Some(1), None, None, [])])])
  }

  lemma MixedPlanIsStored(rule: NullRule)
    ensures InitPlan(MixedShop(), BUYER, 4, 100, 0, rule) == MixedCharge()
  {
    var db := MixedShop();
    var a := AssetId(Booth, 1);
    assert [PlanItem(Some(4), 0, 1)][1..] == [];
    assert PlanIds([PlanItem(Some(4), 0, 1)]) == [4];
    assert OwnBooths(db.assets, Some(0)) == {};
    assert PlanIsBuyable(db, Some(0), 4);
    var rows := EligibleBooths(db, Platinum, ForPayment(7), 0);
    assert rows == {a} && Reserved(db, rows) == {} && rows - {} == rows;
    hide EligibleBooths, PlanIsBuyable;
    assert PickBooth(db, Platinum, ForPayment(7), 0) == Some(a);
    hide PickBooth;
    assert db.slotHolds + SlotHolds([], ForPayment(7), 100) == [];
    assert db.assets[a := PLATINUM_BOOTH.(hold := Hold(Some(100), None, Some(7)))] == MixedCharge().assets;
    assert ResolvePlan(db, 4, ForPayment(7), 100, 0, rule)
      == Some(Resolved(db.(assets := MixedCharge().assets), BundleEntry(4, Some(1), None, None, [])));
  }

  lemma MixedPlanIsServed(now: int)
    ensures Fulfils(MixedCharge(), 7, now)
  {
    var db := MixedCharge();
    var p := db.payments[7];
    var q := PaymentBuyer(db, 7, now);
    var items := Lines(db, p);
    assert items == [PlanItem(Some(4), 100, 1)] && items[..0] == [];
    assert q.company == Some(0) && q.ownBooths == {} && !IsMissing(db, 7, now);
    assert FindEntry(p.bundles, 4) == Some(p.bundles[0]);
    assert !IsRefused(q, AssetId(Booth, 1), db.assets[AssetId(Booth, 1)], true);
    hide IsRefused;
    assert OutcomeAt(db, q, p.bundles, items, 0) == Done;
    hide OutcomeAt;
    assert FirstObstacle(db, q, p.bundles, items, 1) == 1 == FirstObstacle(db, q, p.bundles, items, 0);
    OutcomeIsForeseen(db, 7, now);
  }

  lemma MixedFootprint()
    ensures var db := MixedCharge(); var p := db.payments[7]; var a := AssetId(Booth, 1);
      && Lines(db, p)[..1] == Lines(db, p) && ItemsAssets(Lines(db, p), p.bundles) == {a}
      && BoothTiers(db.assets, {a}) == {Platinum}
  {
    var db := MixedCharge();
    var a := AssetId(Booth, 1);
    var p := db.payments[7];
    var items := Lines(db, p);
    assert items == [PlanItem(Some(4), 100, 1)] && items[..1] == items && items[1..] == [];
    assert FindEntry(p.bundles, 4) == Some(p.bundles[0]);
    assert ItemsAssets(items, p.bundles) == {a};
    assert db.assets[a].tier.value in BoothTiers(db.assets, {a});
  }

  lemma MixedPlanIsFulfilled(now: int)
    ensures var db := MixedCharge();
      && Fulfils(db, 7, now) && Consistent(db.assets) && TierCovers(db, 0) && StoredRank(db, 0) == 0
      && HeldWith(db, db.payments[7], 1, 0) == 4
  {
    var db := MixedCharge();
    MixedPlanIsServed(now);
    MixedFootprint();
    hide BoothTiers, ItemsAssets, Fulfils, Lines;
    NoBoothHeld(db.assets, 0);
    BestRankOfOne(Platinum);
  }

  lemma MixedCompanyIsNew()
    ensures IsNewcomer(MixedShop(), 0)
  {
    assert OwnBooths(MixedShop().assets, Some(0)) == {};
  }

  lemma MixedRun(refundGranted: bool, rule: NullRule)
    ensures Run(World(MixedShop(), 0, rule), [PLAN_CHARGE, EChargeSuccess(7, refundGranted)]).db
         == ChargeSuccess(MixedCharge(), 7, refundGranted, 0)
  {
    var e := EChargeSuccess(7, refundGranted);
    var w1 := World(MixedCharge(), 0, rule);
    MixedPlanIsStored(rule);
    hide ChargeSuccess, InitPlan, MixedShop, MixedCharge;
    assert Step(World(MixedShop(), 0, rule), PLAN_CHARGE) == w1;
    var w2 := Step(w1, e);
    assert [PLAN_CHARGE, e][1..] == [e] && [e][1..] == [];
    assert Run(w2, []) == w2 && Run(w1, [e]) == w2;
  }

  /** The stored tier does end below the booth's: gold is written over the platinum that the booth had just raised. */
  lemma StoredTierCanLag(refundGranted: bool, rule: NullRule)
    ensures IsNewcomer(MixedShop(), 0)
    ensures !TierCovers(Run(World(MixedShop(), 0, rule), [PLAN_CHARGE, EChargeSuccess(7, refundGranted)]).db, 0)
  {
    hide *;
    MixedCompanyIsNew();
    MixedRun(refundGranted, rule);
    MixedPlanIsFulfilled(0);
    MixedPayment();
    StoredTierLags(MixedCharge(), 7, refundGranted, 0, 0);
  }

  lemma MixedPayment()
    ensures var db := MixedCharge();
      && db.payments[7].kind == PlanPayment && WellFormed(db.payments[7]) && db.payments[7].companyId == Some(0)
      && db.payments[7].targetId.value == 4 && 4 in db.plans && Rank(Some(db.plans[4].tier)) == 3
  {
  }
}
