/**
 * An order for two booths breaks the unique key on Booth.takenById in the middle of its delivery: exactly which orders
 * do, where they stop, and what a later refund returns too much.
 */
module BoothClash {
  import opened Common
  import opened Tables
  import opened Inventory
  import opened Fulfilment
  import opened Refunds
  import opened Effects
  import opened Charges
  import opened Reversals
  import opened RefundUndo
  import opened SlotConservation
  import opened BundleResolution
  import opened Machine
  import opened Obstacles
  import opened FreshShops

  /** The payment waits for its delivery, and the first line that cannot be served wants a second booth. */
  predicate Crashes(db: Db, pid: Id, now: int) {
    && pid in db.payments && (db.payments[pid].status == Pending || db.payments[pid].status == Failed)
    && !IsMissing(db, pid, now) && StopsWith(db, pid, now) == Crashed
  }

  /** What the delivery will do, before it is made. */
  lemma OutcomeIsForeseen(db: Db, pid: Id, now: int)
    requires pid in db.payments && (db.payments[pid].status == Pending || db.payments[pid].status == Failed)
    ensures var marked := SetStatus(db, pid, Success);
      && (Fulfils(db, pid, now) <==> !IsMissing(db, pid, now) && StopsWith(db, pid, now) == Done)
      && (Crashes(db, pid, now) <==> !IsMissing(marked, pid, now) && Core(marked, pid, now).verdict == Crashed)
      && (!IsMissing(db, pid, now) ==> |ServedLines(marked, pid, now)| == ServedBefore(db, pid, now))
  {
    var marked := SetStatus(db, pid, Success);
    MarkedIsAlike(db, pid, now);
    DeliveryIsForeseen(marked, pid, now);
    hide Core, ServedBefore, StopsWith, IsMissing, Lines, PaymentBuyer;
    assert !IsMissing(marked, pid, now) ==> Core(marked, pid, now).served <= |Lines(marked, marked.payments[pid])| by {
      CoreIsShort(marked, pid, now);
    }
  }

  lemma CoreIsShort(db: Db, pid: Id, now: int)
    requires pid in db.payments
    ensures Core(db, pid, now).served <= |Lines(db, db.payments[pid])|
  {
  }

  /** No line lacks its row or its copies; two booths are the only thing that can be in the way. */
  predicate NothingIsUnavailable(db: Db, pid: Id, now: int)
    requires pid in db.payments
  {
    var p := db.payments[pid];
    forall k | 0 <= k < |Lines(db, p)| ::
      OutcomeAt(db, PaymentBuyer(db, pid, now), p.bundles, Lines(db, p), k) != Unavailable
  }

  /**
   * If nothing is unavailable, a delivery breaks the key if and only if the payment's rows hold two booths, and is
   * fulfilled if and only if they do not; it stops at the first line that brings the second booth.
   */
  lemma CrashesExactlyOnTwoBooths(db: Db, pid: Id, now: int)
    requires pid in db.payments && (db.payments[pid].status == Pending || db.payments[pid].status == Failed)
    requires !IsMissing(db, pid, now) && NothingIsUnavailable(db, pid, now)
    ensures var p := db.payments[pid];
      && (Crashes(db, pid, now) <==> !OneBooth(Rows(db, p)))
      && (Fulfils(db, pid, now) <==> OneBooth(Rows(db, p)))
      && (Crashes(db, pid, now) ==> ClashesAt(p.bundles, Lines(db, p), ServedBefore(db, pid, now)))
  {
    var p := db.payments[pid];
    var q := PaymentBuyer(db, pid, now);
    assert ReadAtStart(db.assets, q);
    OutcomeIsForeseen(db, pid, now);
    DeliveryIsForeseen(db, pid, now);
    hide FirstObstacle, OutcomeAt, ServedBefore, StopsWith, FulfilItems, OneBooth, ItemsAssets, IsMissing, ReadAtStart,
         Lines, PaymentBuyer;
    TwoBoothsClash(db, q, p.bundles, Lines(db, p));
  }

  lemma CreditMoves(slots: map<SlotId, Slot>, m: multiset<SlotId>)
    ensures Credit(slots, m) == slots <==> forall s | s in m :: s !in slots
  {
    forall s | s in m && s in slots ensures Credit(slots, m)[s] != slots[s] {}
  }

  lemma CopiedIs(db: Db, d: Db, pid: Id)
    requires Grown(db, d) && pid in db.payments && WellFormed(db.payments[pid])
    requires db.payments[pid].kind == OrderPayment ==> db.payments[pid].orderId.value in db.orders
    ensures Copied(d, d.payments[pid]) == ItemsSlots(Lines(db, db.payments[pid]), db.payments[pid].bundles)
  {
    hide ItemsSlots;
    assert Lines(d, d.payments[pid]) == Lines(db, db.payments[pid]);
  }

  /** The delivery has taken the copies of the lines before the clash, and the payment stays successful. */
  lemma CrashTakesServedLines(db: Db, pid: Id, refundGranted: bool, now: int)
    requires Crashes(db, pid, now) && WellFormed(db.payments[pid])
    ensures var d := ChargeSuccess(db, pid, refundGranted, now); var p := db.payments[pid];
      && ServedBefore(db, pid, now) < |Lines(db, p)|
      && Grown(db, d) && pid in d.payments && d.payments[pid] == p.(status := Success)
      && d.slots == Debit(db.slots, ItemsSlots(Lines(db, p)[..ServedBefore(db, pid, now)], p.bundles))
  {
    var marked := SetStatus(db, pid, Success);
    var p := db.payments[pid];
    var n := ServedBefore(db, pid, now);
    OutcomeIsForeseen(db, pid, now);
    MarkedIsAlike(db, pid, now);
    DeliveryIsForeseen(marked, pid, now);
    assert ChargeSuccess(db, pid, refundGranted, now) == ApplySuccess(marked, pid, refundGranted, now);
    assert marked.payments[pid] == p.(status := Success);
    assert n < |Lines(db, p)| by { hide FirstObstacle, OutcomeAt; }
    hide *;
    CrashNet(marked, pid, refundGranted, now);
    ChargedTables(db, pid, refundGranted, now);
  }

  lemma CrashNet(db: Db, pid: Id, refundGranted: bool, now: int)
    requires pid in db.payments && !IsMissing(db, pid, now) && Core(db, pid, now).verdict == Crashed
    ensures var p := db.payments[pid]; var n := Core(db, pid, now).served;
      && n <= |Lines(db, p)| && Net(db, pid, now) == ItemsSlots(Lines(db, p)[..n], p.bundles)
      && StatusAfter(db, pid, refundGranted, now) == p.status
  {
    hide FulfilItems, ItemsSlots, IsMissing, Lines;
  }

  lemma TakenAndAllReturned(slots: map<SlotId, Slot>, m: multiset<SlotId>, n: multiset<SlotId>)
    ensures Credit(Debit(slots, m), m + n) == Credit(slots, n)
    ensures Credit(slots, n) == slots <==> forall s | s in n :: s !in slots
  {
    DebitCompose(slots, m, m);
    CreditTwice(Debit(slots, m), m, n);
    CreditMoves(slots, n);
    hide Debit, Credit;
  }

  /**
   * When a delivery breaks the key, a later refund returns the copies of every line, served or not: each counter ends
   * above where it began by exactly what the lines from the clash on stand for.
   */
  lemma CrashedOrderOverReturns(db: Db, pid: Id, refundGranted: bool, now: int)
    requires Crashes(db, pid, now) && WellFormed(db.payments[pid]) && db.payments[pid].companyId.Some?
    ensures var p := db.payments[pid]; var n := ServedBefore(db, pid, now);
      && n < |Lines(db, p)|
      && var unserved := ItemsSlots(Lines(db, p)[n..], p.bundles);
      && var back := RefundPayment(ChargeSuccess(db, pid, refundGranted, now), pid);
      && back.slots == Credit(db.slots, unserved)
      && (back.slots == db.slots <==> forall s | s in unserved :: s !in db.slots)
  {
    var p := db.payments[pid];
    var n := ServedBefore(db, pid, now);
    var d := ChargeSuccess(db, pid, refundGranted, now);
    assert p.kind == OrderPayment ==> p.orderId.Some? && p.orderId.value in db.orders;
    CrashTakesServedLines(db, pid, refundGranted, now);
    assert WellFormed(d.payments[pid]);
    assert Refundable(d.payments[pid], Copied(d, d.payments[pid])) == Copied(d, d.payments[pid]);
    hide *;
    RefundTables(d, pid);
    CopiedIs(db, d, pid);
    ItemsSlotsSplit(Lines(db, p), p.bundles, n);
    TakenAndAllReturned(db.slots, ItemsSlots(Lines(db, p)[..n], p.bundles), ItemsSlots(Lines(db, p)[n..], p.bundles));
  }

  // ---- A run -----------------------------------------------------------------------------

  lemma TwoBoothsCrash(now: int)
    ensures var db := WithOrder(HeldShop(), TwoBoothsAnd(ADVERT_LINE), []);
      Crashes(db, 7, now) && ServedBefore(db, 7, now) == 1
  {
    var db := WithOrder(HeldShop(), TwoBoothsAnd(ADVERT_LINE), []);
    var items := Lines(db, db.payments[7]);
    var q := PaymentBuyer(db, 7, now);
    var b1, b2 := AssetId(Booth, 1), AssetId(Booth, 2);
    assert items == TwoBoothsAnd(ADVERT_LINE) && NeedsCompany(items) by { assert !items[2].AssetItem?; }
    assert q.ownBooths == {} && q.company == Some(0) && !IsMissing(db, 7, now);
    assert items[..0] == [] && ItemsAssets([], []) == {} && items[..1] == [items[0]];
    assert ItemsAssets([items[0]], []) == {b1} by { assert [items[0]][1..] == []; }
    assert !IsRefused(q, b1, db.assets[b1], false) && !IsRefused(q, b2, db.assets[b2], false);
    assert OutcomeAt(db, q, [], items, 0) == Done;
    assert OtherBooth({b1}, b2) by { assert b1 in {b1}; }
    assert OutcomeAt(db, q, [], items, 1) == Crashed;
    hide OutcomeAt, IsRefused;
    assert FirstObstacle(db, q, [], items, 1) == 1 == FirstObstacle(db, q, [], items, 0);
  }

  lemma CopiesOfAdvertLine()
    ensures ItemsSlots([AssetItem(Booth, Some(2)), ADVERT_LINE], []) == multiset{ADVERT}
  {
    assert [AssetItem(Booth, Some(2)), ADVERT_LINE][1..] == [ADVERT_LINE] && [ADVERT_LINE][1..] == [];
    assert ItemsSlots([], []) == multiset{} && ItemSlots(ADVERT_LINE, []) == multiset{ADVERT};
    assert ItemsSlots([ADVERT_LINE], []) == multiset{ADVERT};
    assert ItemSlots(AssetItem(Booth, Some(2)), []) == multiset{};
  }

  lemma AdvertIsReturned(refundGranted: bool)
    ensures var db := WithOrder(HeldShop(), TwoBoothsAnd(ADVERT_LINE), []);
      RefundPayment(ChargeSuccess(db, 7, refundGranted, 0), 7).slots == map[ADVERT := Slot(1, 2, false)]
  {
    var db := WithOrder(HeldShop(), TwoBoothsAnd(ADVERT_LINE), []);
    var p := db.payments[7];
    var items := TwoBoothsAnd(ADVERT_LINE);
    assert p.bundles == [] && WellFormed(p) && p.companyId.Some? && Lines(db, p) == items;
    assert db.slots == map[ADVERT := Slot(1, 1, false)];
    assert Credit(db.slots, multiset{ADVERT}) == map[ADVERT := Slot(1, 2, false)];
    assert items[1..] == [AssetItem(Booth, Some(2)), ADVERT_LINE];
    CopiesOfAdvertLine();
    hide *;
    TwoBoothsCrash(0);
    CrashedOrderOverReturns(db, 7, refundGranted, 0);
  }

  const TWO_BOOTHS := ECheckout(9, BUYER, TwoBoothsAnd(ADVERT_LINE), 100)

  /**
   * From a fresh shop with one copy of an advert, an order for it and for two booths is charged and refunded: one copy
   * in all, and two available.
   */
  lemma TwoBoothsReturnTooMuch(refundGranted: bool, rule: NullRule)
    ensures IsFresh(Opening(rule).db) && Crashes(Step(Opening(rule), TWO_BOOTHS).db, 7, 0)
    ensures Run(Opening(rule), [TWO_BOOTHS, EChargeSuccess(7, refundGranted), ERefund(7)]).db.slots
         == map[ADVERT := Slot(1, 2, false)]
  {
    hide *;
    var w1 := World(WithOrder(HeldShop(), TwoBoothsAnd(ADVERT_LINE), []), 0, rule);
    TwoBoothsWorld(rule);
    ChargeStep(w1, 7, refundGranted);
    ChargeStep(Step(w1, EChargeSuccess(7, refundGranted)), 7, refundGranted);
    TwoBoothsCrash(0);
    AdvertIsReturned(refundGranted);
    RunOfThree(Opening(rule), TWO_BOOTHS, EChargeSuccess(7, refundGranted), ERefund(7));
  }

  lemma TwoBoothsWorld(rule: NullRule)
    ensures Step(Opening(rule), TWO_BOOTHS) == World(WithOrder(HeldShop(), TwoBoothsAnd(ADVERT_LINE), []), 0, rule)
    ensures IsFresh(Opening(rule).db)
  {
    TwoBoothsAreStored(ADVERT_LINE, [], rule);
    hide Checkout;
  }
}
