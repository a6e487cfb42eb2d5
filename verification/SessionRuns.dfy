/** A run from a fresh shop in which a cart takes the session that a live bundle hold was placed on. */
module SessionRuns {
  import opened Common
  import opened CompanyTier
  import opened CheckoutHold
  import opened Tables
  import opened Inventory
  import opened Fulfilment
  import opened BundleResolution
  import opened Machine
  import opened Effects
  import opened Charges
  import opened RefundUndo
  import opened SlotConservation
  import opened Obstacles
  import opened BoothClash
  import opened FreshShops
  import opened Leaks

  const SESSION := AssetId(Masterclass, 1)
  const FREE_SESSION := Asset(None, true, 30, 1, false, false, None, NO_HOLD)
  const SESSION_RULE := SessionRule(Some(30), Some(1))
  const SESSION_PLAN := Plan(Gold, true, None, SESSION_RULE, NO_RULE, [])
  const SESSION_ENTRY := BundleEntry(4, None, Some(1), None, [])
  const CART := [AssetItem(Masterclass, Some(1))]

  /** Company 1, which pays with payment 8. */
  const RIVAL := Purchase(8, 6, Some(1), 100, false)

  /** One masterclass, a plan that brings one like it, two companies. */
  function SessionShop(): Db {
    Db(map[SESSION := FREE_SESSION], map[], [], {}, map[0 := Company(None, 0), 1 := Company(None, 0)],
       map[4 := SESSION_PLAN], map[], map[])
  }

  const PLAN_PAYMENT := Payment(PlanPayment, Pending, false, 5, Some(0), None, Some(4), 100, [SESSION_ENTRY])
  const CART_PAYMENT := Payment(OrderPayment, Pending, false, 6, Some(1), Some(9), None, 100, [])

  /** Company 0 holds the session for the plan until 100. */
  function SessionHeld(): Db {
    SessionShop().(assets := map[SESSION := FREE_SESSION.(hold := Hold(Some(100), None, Some(7)))],
                   payments := map[7 := PLAN_PAYMENT])
  }

  /** The cart of company 1 has checked out and written its hold over the other. */
  function SessionOrdered(): Db {
    SessionShop().(assets := map[SESSION := FREE_SESSION.(hold := HELD)],
                   payments := map[7 := PLAN_PAYMENT, 8 := CART_PAYMENT],
                   orders := map[9 := Order(6, Some(1), PendingPayment, CART)])
  }

  lemma SessionIsHeld(rule: NullRule)
    ensures InitPlan(SessionShop(), BUYER, 4, 100, 0, rule) == SessionHeld()
  {
    var db := SessionShop();
    assert [PlanItem(Some(4), 0, 1)][1..] == [];
    assert PlanIds([PlanItem(Some(4), 0, 1)]) == [4];
    assert PlanIsBuyable(db, Some(0), 4);
    var rows := EligibleSessions(db, Masterclass, SESSION_RULE, ForPayment(7), 0);
    assert rows == {SESSION};
    hide EligibleSessions, PlanIsBuyable;
    assert PickSession(db, Masterclass, SESSION_RULE, ForPayment(7), 0) == Some(SESSION);
    hide PickSession;
    assert db.slotHolds + SlotHolds([], ForPayment(7), 100) == [];
    assert db.assets[SESSION := FREE_SESSION.(hold := Hold(Some(100), None, Some(7)))] == SessionHeld().assets;
    assert ResolvePlan(db, 4, ForPayment(7), 100, 0, rule)
      == Some(Resolved(db.(assets := SessionHeld().assets), SESSION_ENTRY));
  }

  lemma CartChecksOut(rule: NullRule)
    ensures Checkout(SessionHeld(), 9, RIVAL, CART, 100, 0, rule) == SessionOrdered()
  {
    var db := SessionHeld();
    assert CART[1..] == [] && PlanIds(CART) == [];
    assert NeedsCompany(CART) by { assert CART[0].asset != HotelRoom; }
    var held := PutHold(db, SESSION, HELD);
    assert held.assets == SessionOrdered().assets;
    assert PlaceHolds(held, [], HELD) == Some(held) && PlaceHolds(db, CART, HELD) == Some(held);
    assert ResolveAll(held, [], ForOrder(9), 100, 0, rule) == Some(AllResolved(held, []));
  }

  lemma CartIsServed()
    ensures Fulfils(SessionOrdered(), 8, 0)
  {
    var db := SessionOrdered();
    var q := PaymentBuyer(db, 8, 0);
    assert Lines(db, db.payments[8]) == CART && CART[..0] == [] && q.company == Some(1) && !IsMissing(db, 8, 0);
    assert !IsRefused(q, SESSION, db.assets[SESSION], false);
    hide IsRefused;
    assert OutcomeAt(db, q, [], CART, 0) == Done;
    hide OutcomeAt;
    assert FirstObstacle(db, q, [], CART, 1) == 1 == FirstObstacle(db, q, [], CART, 0);
    OutcomeIsForeseen(db, 8, 0);
  }

  /** The session is the other company's, and the plan payment waits as before. */
  ghost predicate SessionIsGone(db: Db) {
    && 7 in db.payments && db.payments[7] == PLAN_PAYMENT && 4 in db.plans && db.plans[4] == SESSION_PLAN
    && 0 in db.companies && SESSION in db.assets && db.assets[SESSION].taken && db.assets[SESSION].owner == Some(1)
  }

  lemma CartTakesTheSession(refundGranted: bool)
    ensures SessionIsGone(ChargeSuccess(SessionOrdered(), 8, refundGranted, 0))
  {
    var db := SessionOrdered();
    var p := db.payments[8];
    CartIsServed();
    assert WellFormed(p) && CompanyIsStored(db, p) && p.companyId == Some(1);
    assert SESSION in Rows(db, p) by { assert CART[0] == AssetItem(Masterclass, Some(1)); }
    assert ChargeSuccess(db, 8, refundGranted, 0) == ApplySuccess(SetStatus(db, 8, Success), 8, refundGranted, 0) by {
      hide ApplySuccess;
    }
    assert 7 in db.payments && db.payments[7] == PLAN_PAYMENT && 4 in db.plans && db.plans[4] == SESSION_PLAN;
    assert 0 in db.companies && SESSION in db.assets;
    ChargeIsBought(db, 8, refundGranted, 0);
    ChargedTables(db, 8, refundGranted, 0);
    hide SessionOrdered, ChargeSuccess, ApplySuccess, Rows, Copied, ItemsKobo, Fulfils, Debit, Copies, Affordable, Net,
         StatusAfter;
  }

  lemma PlanIsGivenUp(db: Db, now: int)
    requires SessionIsGone(db)
    ensures IsGivenUp(db, 7, now) && !Fulfils(db, 7, now) && WellFormed(db.payments[7])
  {
    var q := PaymentBuyer(db, 7, now);
    var items := Lines(db, db.payments[7]);
    assert items == [PlanItem(Some(4), 100, 1)] && q.company == Some(0) && !IsMissing(db, 7, now);
    assert FindEntry([SESSION_ENTRY], 4) == Some(SESSION_ENTRY);
    assert items[..0] == [] && ItemsAssets([], [SESSION_ENTRY]) == {};
    assert OutcomeAt(db, q, [SESSION_ENTRY], items, 0) == Unavailable;
    hide OutcomeAt;
    assert FirstObstacle(db, q, [SESSION_ENTRY], items, 0) == 0;
    OutcomeIsForeseen(db, 7, now);
  }

  const PLAN_START := EInitPlan(BUYER, 4, 100)
  const CART_CHECKOUT := ECheckout(9, RIVAL, CART, 100)

  lemma CartWorld(rule: NullRule)
    ensures Step(Step(World(SessionShop(), 0, rule), PLAN_START), CART_CHECKOUT) == World(SessionOrdered(), 0, rule)
  {
    SessionIsHeld(rule);
    CartChecksOut(rule);
    hide InitPlan, Checkout;
  }

  /**
   * From a fresh shop, a plan payment holds a masterclass until 100, a cart filled before checks out over the hold and
   * is charged, and the charge of the plan, at time 0, is not fulfilled.
   */
  lemma HeldSessionIsTaken(refundGranted: bool, rule: NullRule)
    ensures IsFresh(SessionShop())
    ensures var z := Run(World(SessionShop(), 0, rule), [PLAN_START, CART_CHECKOUT, EChargeSuccess(8, refundGranted)]);
      && z.now == 0 && SessionIsGone(z.db) && !Fulfils(z.db, 7, z.now)
      && var d := ChargeSuccess(z.db, 7, refundGranted, z.now);
      7 in d.payments && d.payments[7].status == RefundStatus(refundGranted)
  {
    var w := World(SessionShop(), 0, rule);
    assert IsFresh(SessionShop());
    hide *;
    CartWorld(rule);
    CartTakesTheSession(refundGranted);
    ChargeStep(World(SessionOrdered(), 0, rule), 8, refundGranted);
    PlanIsGivenUp(ChargeSuccess(SessionOrdered(), 8, refundGranted, 0), 0);
    GivenUpEnds(ChargeSuccess(SessionOrdered(), 8, refundGranted, 0), 7, refundGranted, 0);
    RunOfThree(w, PLAN_START, CART_CHECKOUT, EChargeSuccess(8, refundGranted));
  }
}
