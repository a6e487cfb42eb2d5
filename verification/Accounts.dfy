/**
 * A company's sponsor total against the plan lines of its successful payments, over whole runs: exactly which events
 * part the two.
 */
module Accounts {
  import opened Common
  import opened Tables
  import opened Inventory
  import opened Fulfilment
  import opened Refunds
  import opened BundleResolution
  import opened Machine
  import opened Effects
  import opened Charges
  import opened Reversals
  import opened RefundUndo
  import opened Resolutions
  import opened SlotConservation
  import opened Obstacles
  import opened Ownership
  import opened BundleHolds
  import opened Growth
  import opened Leaks
  import opened Backing

  // ---- Sums ------------------------------------------------------------------------------

  ghost function SumOf(m: map<Id, int>, keys: set<Id>): int
    requires keys <= m.Keys
  {
    if keys == {} then 0
    else
      var k :| k in keys;
      m[k] + SumOf(m, keys - {k})
  }

  lemma {:induction false} SumTakesOut(m: map<Id, int>, keys: set<Id>, k: Id)
    requires keys <= m.Keys && k in keys
    ensures SumOf(m, keys) == m[k] + SumOf(m, keys - {k})
    decreases keys
  {
    var j :| j in keys && SumOf(m, keys) == m[j] + SumOf(m, keys - {j});
    if j != k {
      SumTakesOut(m, keys - {j}, k);
      SumTakesOut(m, keys - {k}, j);
      assert keys - {j} - {k} == keys - {k} - {j};
    }
  }

  lemma {:induction false} SumIgnores(m: map<Id, int>, keys: set<Id>, k: Id, v: int)
    requires keys <= m.Keys && k !in keys
    ensures SumOf(m[k := v], keys) == SumOf(m, keys)
    decreases keys
  {
    if keys != {} {
      var j :| j in keys && SumOf(m, keys) == m[j] + SumOf(m, keys - {j});
      SumTakesOut(m[k := v], keys, j);
      SumIgnores(m, keys - {j}, k, v);
    }
  }

  lemma SumAfter(m: map<Id, int>, k: Id, v: int)
    ensures var n := m[k := v];
      SumOf(n, n.Keys) == SumOf(m, m.Keys) - (if k in m then m[k] else 0) + v
  {
    var n := m[k := v];
    SumTakesOut(n, n.Keys, k);
    SumIgnores(m, m.Keys - {k}, k, v);
    assert n.Keys - {k} == m.Keys - {k};
    if k in m { SumTakesOut(m, m.Keys, k); } else { assert m.Keys - {k} == m.Keys; }
  }

  // ---- What a company's payments stand for -----------------------------------------------

  /** What the plan lines of this payment come to, as far as it is a successful payment of the company. */
  function Counted(db: Db, p: Payment, c: Id): int {
    if p.companyId == Some(c) && p.status == Success then ItemsKobo(Lines(db, p)) else 0
  }

  function AllCounted(db: Db, c: Id): map<Id, int> {
    map pid | pid in db.payments :: Counted(db, db.payments[pid], c)
  }

  ghost function Earned(db: Db, c: Id): int {
    SumOf(AllCounted(db, c), AllCounted(db, c).Keys)
  }

  ghost predicate TotalIsEarned(db: Db, c: Id) {
    c in db.companies && db.companies[c].paidTotal == Earned(db, c)
  }

  /** Payments are sound, and an order and its payment name one company. */
  ghost predicate OneCompany(db: Db) {
    AllSound(db) && forall pid | pid in db.payments :: ActingCompany(db, db.payments[pid]) == db.payments[pid].companyId
  }

  /** One payment changes its status, and nothing else that counts. */
  lemma EarnedAfter(before: Db, after: Db, c: Id, pid: Id)
    requires AllSound(before) && Grown(before, after) && after.payments.Keys == before.payments.Keys
    requires pid in before.payments
    requires forall x | x in before.payments && x != pid :: after.payments[x] == before.payments[x]
    ensures Earned(after, c)
         == Earned(before, c) - Counted(before, before.payments[pid], c) + Counted(after, after.payments[pid], c)
    ensures Lines(after, after.payments[pid]) == Lines(before, before.payments[pid])
  {
    var v := Counted(after, after.payments[pid], c);
    forall x | x in before.payments ensures Lines(after, after.payments[x]) == Lines(before, before.payments[x]) {
      assert Sound(before, x);
      LinesStay(before, after, x);
    }
    assert AllCounted(after, c) == AllCounted(before, c)[pid := v] by {
      hide Lines, ItemsKobo, Sound, Grown;
    }
    SumAfter(AllCounted(before, c), pid, v);
  }

  lemma LinesStay(before: Db, after: Db, pid: Id)
    requires Grown(before, after) && pid in before.payments && Sound(before, pid)
    ensures Lines(after, after.payments[pid]) == Lines(before, before.payments[pid])
    ensures ActingCompany(after, after.payments[pid]) == ActingCompany(before, before.payments[pid])
  {
  }

  /** At most one pending payment joins the others. */
  ghost predicate OnePaymentAtMost(before: Db, after: Db, pid: Id) {
    && (forall x | x in before.payments :: x in after.payments && after.payments[x] == before.payments[x])
    && (|| after.payments.Keys == before.payments.Keys
        || (&& pid !in before.payments && after.payments.Keys == before.payments.Keys + {pid}
            && after.payments[pid].status == Pending))
  }

  lemma EarnedStays(before: Db, after: Db, c: Id, pid: Id)
    requires AllSound(before) && Grown(before, after) && OnePaymentAtMost(before, after, pid)
    ensures Earned(after, c) == Earned(before, c)
  {
    forall x | x in before.payments
      ensures Counted(after, after.payments[x], c) == Counted(before, before.payments[x], c)
    {
      assert Sound(before, x);
      LinesStay(before, after, x);
    }
    hide AllSound, Grown, Earned;
    if after.payments.Keys == before.payments.Keys {
      SameCounted(before, after, c);
    } else {
      assert Counted(after, after.payments[pid], c) == 0;
      OneMoreCounted(before, after, c, pid);
    }
  }

  lemma SameCounted(before: Db, after: Db, c: Id)
    requires after.payments.Keys == before.payments.Keys
    requires forall x | x in before.payments ::
      Counted(after, after.payments[x], c) == Counted(before, before.payments[x], c)
    ensures Earned(after, c) == Earned(before, c)
  {
    hide Counted;
    assert AllCounted(after, c) == AllCounted(before, c);
  }

  lemma OneMoreCounted(before: Db, after: Db, c: Id, pid: Id)
    requires pid !in before.payments && after.payments.Keys == before.payments.Keys + {pid}
    requires Counted(after, after.payments[pid], c) == 0
    requires forall x | x in before.payments ::
      Counted(after, after.payments[x], c) == Counted(before, before.payments[x], c)
    ensures Earned(after, c) == Earned(before, c)
  {
    hide Counted;
    assert AllCounted(after, c) == AllCounted(before, c)[pid := 0];
    SumAfter(AllCounted(before, c), pid, 0);
  }

  // ---- Deliveries ------------------------------------------------------------------------

  lemma {:induction false} KoboSplits(items: seq<Item>, n: nat)
    requires n <= |items|
    ensures ItemsKobo(items) == ItemsKobo(items[..n]) + ItemsKobo(items[n..])
    decreases items
  {
    if n == 0 {
      assert items[..0] == [] && items[0..] == items;
    } else {
      KoboSplits(items[1..], n - 1);
      assert items[..n][1..] == items[1..][..n - 1] && items[1..][n - 1..] == items[n..];
    }
  }

  /**
   * The delivery adds to the total what its payment then counts for: not so when an order is given up after plan lines
   * that cost something, or broken off before them.
   */
  predicate TotalSurvives(db: Db, pid: Id, now: int)
    requires pid in db.payments
  {
    var items := Lines(db, db.payments[pid]);
    var n := ServedBefore(db, pid, now);
    IsMissing(db, pid, now) ||
    match StopsWith(db, pid, now)
    case Done => true
    case Unavailable => ItemsKobo(items[..n]) == 0
    case Crashed => ItemsKobo(items[n..]) == 0
  }

  lemma SurvivalIs(db: Db, pid: Id, now: int)
    requires pid in db.payments
    ensures var items := Lines(db, db.payments[pid]); var n := ServedBefore(db, pid, now);
      && n <= |items|
      && (IsMissing(db, pid, now) ==> TotalSurvives(db, pid, now) && LinesServed(db, pid, now) == [])
      && (!IsMissing(db, pid, now) ==>
          && LinesServed(db, pid, now) == items[..n]
          && (StopsWith(db, pid, now) == Done ==> n == |items| && TotalSurvives(db, pid, now))
          && (StopsWith(db, pid, now) == Unavailable ==> (TotalSurvives(db, pid, now) <==> ItemsKobo(items[..n]) == 0))
          && (StopsWith(db, pid, now) == Crashed ==> (TotalSurvives(db, pid, now) <==> ItemsKobo(items[n..]) == 0)))
  {
    assert ServedBefore(db, pid, now) <= |Lines(db, db.payments[pid])|;
    assert StopsWith(db, pid, now) == Done ==> ServedBefore(db, pid, now) == |Lines(db, db.payments[pid])|;
    hide IsMissing, ServedBefore, StopsWith, ItemsKobo, Lines;
  }

  lemma EndsSuccessful(db: Db, pid: Id, refundGranted: bool, now: int)
    requires pid in db.payments
    ensures StatusAfter(SetStatus(db, pid, Success), pid, refundGranted, now) != Success <==>
      (IsMissing(db, pid, now) || StopsWith(db, pid, now) == Unavailable)
  {
    MarkedIsAlike(db, pid, now);
    NetAtEnd(SetStatus(db, pid, Success), pid, refundGranted, now);
    hide IsMissing, StopsWith, StatusAfter, Net, BreaksOff, Unserved, Copied;
  }

  /** What was added against what then counts. */
  lemma AddedAndCounted(db: Db, pid: Id, refundGranted: bool, now: int)
    requires pid in db.payments
    ensures var success := StatusAfter(SetStatus(db, pid, Success), pid, refundGranted, now) == Success;
      ItemsKobo(LinesServed(db, pid, now)) == (if success then ItemsKobo(Lines(db, db.payments[pid])) else 0)
      <==> TotalSurvives(db, pid, now)
  {
    hide *;
    var items := Lines(db, db.payments[pid]);
    SurvivalIs(db, pid, now);
    EndsSuccessful(db, pid, refundGranted, now);
    KoboSplits(items, ServedBefore(db, pid, now));
    assert items[..|items|] == items;
    NoKobo();
  }

  lemma NoKobo()
    ensures ItemsKobo([]) == 0
  {
  }

  /** The company the delivery acts for has its row moved, and no other. */
  lemma DeliveryPays(db: Db, pid: Id, refundGranted: bool, now: int, c: Id)
    requires OneCompany(db) && Consistent(db.assets) && pid in db.payments && c in db.companies
    ensures var d := ApplySuccess(SetStatus(db, pid, Success), pid, refundGranted, now);
      && c in d.companies
      && d.companies[c].paidTotal - db.companies[c].paidTotal
         == if db.payments[pid].companyId == Some(c) then ItemsKobo(LinesServed(db, pid, now)) else 0
  {
    assert Sound(db, pid) && ActingCompany(db, db.payments[pid]) == db.payments[pid].companyId;
    var q := PaymentBuyer(db, pid, now);
    assert q.company == Some(c) <==> db.payments[pid].companyId == Some(c);
    DeliveryLeaves(db, pid, refundGranted, now);
    hide ApplySuccess, PaymentBuyer, RowsGo, TakenRows, WouldTake, GivenBack, RolledBack, LinesServed, ItemsKobo,
         Copies, Debit, ActingCompany, OneCompany, Sound;
  }

  lemma CountedIs(db: Db, d: Db, pid: Id, status: PaymentStatus, c: Id)
    requires pid in db.payments && db.payments[pid].status != Success
    requires d.payments == db.payments[pid := db.payments[pid].(status := status)]
    requires Lines(d, d.payments[pid]) == Lines(db, db.payments[pid])
    ensures Counted(db, db.payments[pid], c) == 0 && d.payments.Keys == db.payments.Keys
    ensures Counted(d, d.payments[pid], c)
         == if db.payments[pid].companyId == Some(c)
           && status == Success then ItemsKobo(Lines(db, db.payments[pid])) else 0
  {
    hide Lines, ItemsKobo;
  }

  /** The balance of one delivery. */
  lemma DeliveredEarns(db: Db, d: Db, pid: Id, status: PaymentStatus, c: Id, added: int)
    requires AllSound(db) && Grown(db, d) && TotalIsEarned(db, c) && c in d.companies
    requires pid in db.payments && db.payments[pid].status != Success
    requires d.payments == db.payments[pid := db.payments[pid].(status := status)]
    requires d.companies[c].paidTotal - db.companies[c].paidTotal == if db.payments[pid].companyId == Some(c)
      then added else 0
    ensures TotalIsEarned(d, c) <==>
      (db.payments[pid].companyId == Some(c) ==>
       added == if status == Success then ItemsKobo(Lines(db, db.payments[pid])) else 0)
  {
    TotalIs(d, c);
    TotalIs(db, c);
    assert Sound(db, pid);
    hide *;
    LinesStay(db, d, pid);
    CountedIs(db, d, pid, status, c);
    EarnedAfter(db, d, c, pid);
  }

  lemma DeliveryEarns(db: Db, pid: Id, refundGranted: bool, now: int, c: Id)
    requires OneCompany(db) && Consistent(db.assets) && TotalIsEarned(db, c)
    requires pid in db.payments && db.payments[pid].status != Success
    ensures TotalIsEarned(ApplySuccess(SetStatus(db, pid, Success), pid, refundGranted, now), c)
      <==> (db.payments[pid].companyId == Some(c) ==> TotalSurvives(db, pid, now))
  {
    var d := ApplySuccess(SetStatus(db, pid, Success), pid, refundGranted, now);
    var status := StatusAfter(SetStatus(db, pid, Success), pid, refundGranted, now);
    assert AllSound(db) && c in db.companies;
    assert WellFormed(db.payments[pid]) by { assert Sound(db, pid); }
    hide *;
    DeliveryPays(db, pid, refundGranted, now, c);
    AddedAndCounted(db, pid, refundGranted, now);
    ChargedTables(db, pid, refundGranted, now);
    DeliveredEarns(db, d, pid, status, c, ItemsKobo(LinesServed(db, pid, now)));
  }

  lemma TotalIs(db: Db, c: Id)
    requires c in db.companies
    ensures TotalIsEarned(db, c) <==> db.companies[c].paidTotal == Earned(db, c)
  {
  }

  // ---- Refunds and failures --------------------------------------------------------------

  lemma RefundEarns(db: Db, pid: Id, c: Id)
    requires OneCompany(db) && TotalIsEarned(db, c)
    ensures TotalIsEarned(RefundPayment(db, pid), c)
  {
    if pid in db.payments && db.payments[pid].status == Success {
      var d := RefundPayment(db, pid);
      assert AllSound(db) && Sound(db, pid);
      RefundIsUndone(db, pid);
      RefundTables(db, pid);
      assert d.companies == Reverse(db, pid).companies;
      hide RefundPayment, Reverse, Lines, ItemsKobo, Grown, Earned, AllSound, OneCompany, Freed, Credit, Existing, Rows,
           Copied;
      EarnedAfter(db, d, c, pid);
    } else {
      NotRefundable(db, pid);
    }
  }

  /** A charge.failed for a payment with plan lines that were bought leaves their sum in the total. */
  predicate FailureIsFree(db: Db, pid: Id, c: Id) {
    pid in db.payments && db.payments[pid].status == Success && db.payments[pid].companyId == Some(c) ==>
      ItemsKobo(Lines(db, db.payments[pid])) == 0
  }

  lemma ClosedEarns(db: Db, d: Db, pid: Id, status: PaymentStatus, c: Id)
    requires AllSound(db) && TotalIsEarned(db, c) && pid in db.payments && Tidied(db, d, pid, status)
    requires status != Success
    ensures TotalIsEarned(d, c) <==> FailureIsFree(db, pid, c)
  {
    TidiedGrows(db, d, pid, status);
    TidiedPayments(db, d, pid, status);
    hide Tidied, Earned, AllSound, Grown, Lines, ItemsKobo;
    EarnedAfter(db, d, c, pid);
  }

  lemma TidiedPayments(db: Db, d: Db, pid: Id, status: PaymentStatus)
    requires pid in db.payments && Tidied(db, d, pid, status)
    ensures d.companies == db.companies && d.payments == db.payments[pid := db.payments[pid].(status := status)]
  {
  }

  lemma ClosingEarns(db: Db, pid: Id, c: Id)
    requires AllSound(db) && TotalIsEarned(db, c)
    ensures TotalIsEarned(ChargeFailed(db, pid), c) <==> FailureIsFree(db, pid, c)
    ensures TotalIsEarned(CancelPending(db, pid), c)
  {
    if pid in db.payments {
      var p := db.payments[pid];
      ClosingTables(db, pid);
      assert p.status == Pending ==> FailureIsFree(db, pid, c);
      hide ChargeFailed, CancelPending, Tidied, TotalIsEarned, AllSound, FailureIsFree;
      ClosedEarns(db, ChargeFailed(db, pid), pid, if p.status == Refunded then Refunded else Failed, c);
      if p.status == Pending { ClosedEarns(db, CancelPending(db, pid), pid, Failed, c); }
    } else {
      MissingPayment(db, pid);
    }
  }

  // ---- The other events ------------------------------------------------------------------

  ghost predicate OnePendingAtMost(before: Db, after: Db, pid: Id) {
    after.companies == before.companies && OnePaymentAtMost(before, after, pid)
  }

  lemma CheckoutAddsOne(w: World, e: Event)
    requires e.EInitSingle? || e.EInitPlan? || e.ECheckout?
    ensures OnePendingAtMost(w.db, Next(w, e), e.b.pid)
  {
    if Next(w, e) != w.db {
      if e.EInitPlan? {
        ResolvePlanOnlyHolds(w.db, e.planId, ForPayment(e.b.pid), e.expiresAt, w.now, w.rule);
        InitPlanTables(w.db, e.b, e.planId, e.expiresAt, w.now, w.rule);
        hide ResolvePlan, PlanIsBuyable, SlotsAreAvailable;
      } else if e.ECheckout? {
        CheckoutTables(w.db, e.oid, e.b, e.items, e.expiresAt, w.now, w.rule);
        CheckoutIsSound(w.db, e.oid, e.b, e.items, e.expiresAt, w.now, w.rule);
        hide Checkout, CheckoutIsAllowed, PlanIds;
      }
    }
  }

  lemma QuietAddsOne(w: World, e: Event)
    requires !Delivers(w, e) && !e.ERefund? && !e.EChargeFailed? && !e.ECancel?
    ensures exists pid :: OnePendingAtMost(w.db, Next(w, e), pid)
  {
    hide OnePendingAtMost;
    if e.EInitSingle? || e.EInitPlan? || e.ECheckout? {
      CheckoutAddsOne(w, e);
    } else {
      OthersAddNone(w, e);
    }
  }

  lemma OthersAddNone(w: World, e: Event)
    requires !Delivers(w, e) && !e.ERefund? && !e.EChargeFailed? && !e.ECancel?
    requires !e.EInitSingle? && !e.EInitPlan? && !e.ECheckout?
    ensures OnePendingAtMost(w.db, Next(w, e), 0)
  {
    hide KeepHolds, ClearHolds, Without, ApplySuccess;
  }

  /** The stored company of a new payment is the one its order names. */
  lemma NewPaymentHasOneCompany(w: World, e: Event, pid: Id)
    requires e.EInitSingle? || e.EInitPlan? || e.ECheckout?
    requires pid in Next(w, e).payments && pid !in w.db.payments
    ensures ActingCompany(Next(w, e), Next(w, e).payments[pid]) == Next(w, e).payments[pid].companyId
  {
    if e.EInitPlan? {
      InitPlanTables(w.db, e.b, e.planId, e.expiresAt, w.now, w.rule);
      hide InitPlan;
    } else if e.ECheckout? {
      CheckoutTables(w.db, e.oid, e.b, e.items, e.expiresAt, w.now, w.rule);
      hide Checkout, CheckoutIsAllowed, PlanIds, OnlyHolds;
    }
  }

  lemma OneCompanyStep(w: World, e: Event)
    requires OneCompany(w.db)
    ensures OneCompany(Next(w, e)) && Grown(w.db, Next(w, e))
  {
    var d := Next(w, e);
    SoundStep(w, e);
    AllSoundIsStored(w.db);
    forall pid | pid in d.payments ensures ActingCompany(d, d.payments[pid]) == d.payments[pid].companyId {
      if pid in w.db.payments {
        assert Sound(w.db, pid);
        LinesStay(w.db, d, pid);
      } else if e.EInitSingle? || e.EInitPlan? || e.ECheckout? {
        NewPaymentHasOneCompany(w, e, pid);
      } else {
        NoPaymentAdded(w, e);
      }
      hide Next, Sound, Stored;
    }
  }

  // ---- Runs ------------------------------------------------------------------------------

  /** The only events that part a company's total from what its payments stand for. */
  predicate TotalAllowed(w: World, e: Event, c: Id) {
    && (Delivers(w, e) && w.db.payments[e.pid].companyId == Some(c) ==> TotalSurvives(w.db, e.pid, w.now))
    && (e.EChargeFailed? ==> FailureIsFree(w.db, e.pid, c))
  }

  /** The exact step: from a total that is earned, an event leaves one if and only if it is allowed. */
  lemma TotalStep(w: World, e: Event, c: Id)
    requires OneCompany(w.db) && Consistent(w.db.assets) && TotalIsEarned(w.db, c)
    ensures OneCompany(Next(w, e)) && Consistent(Next(w, e).assets)
    ensures TotalIsEarned(Next(w, e), c) <==> TotalAllowed(w, e, c)
  {
    var d := Next(w, e);
    assert AllSound(w.db);
    AllSoundIsStored(w.db);
    OneCompanyStep(w, e);
    OwnershipStep(w, e);
    hide OneCompany, AllSound, Consistent, Stored, TotalIsEarned, ApplySuccess, RefundPayment, ChargeFailed,
         CancelPending, InitSingle, InitPlan, Checkout, ReleaseExpired, AssignSlot, UnassignSlot, SetTotalSlots,
         RemoveSlot, SetStatus, TotalSurvives, FailureIsFree, Grown;
    if Delivers(w, e) {
      DeliveryEarns(w.db, e.pid, e.refundGranted, w.now, c);
    } else if e.ERefund? {
      RefundEarns(w.db, e.pid, c);
    } else if e.EChargeFailed? || e.ECancel? {
      ClosingEarns(w.db, e.pid, c);
    } else {
      QuietAddsOne(w, e);
      QuietEarns(w.db, d, c);
    }
  }

  lemma QuietEarns(db: Db, d: Db, c: Id)
    requires AllSound(db) && Grown(db, d) && TotalIsEarned(db, c) && exists pid :: OnePendingAtMost(db, d, pid)
    ensures TotalIsEarned(d, c)
  {
    var pid :| OnePendingAtMost(db, d, pid);
    EarnedStays(db, d, c, pid);
  }

  ghost predicate TotalAllowedRun(w: World, events: seq<Event>, c: Id)
    decreases events
  {
    events != [] ==> TotalAllowed(w, events[0], c) && TotalAllowedRun(Step(w, events[0]), events[1..], c)
  }

  ghost predicate EarnedThroughout(w: World, events: seq<Event>, c: Id)
    decreases events
  {
    TotalIsEarned(w.db, c) && (events != [] ==> EarnedThroughout(Step(w, events[0]), events[1..], c))
  }

  /**
   * Over every run, a company's sponsor total is at every moment the sum of the plan lines of its successful payments,
   * if and only if no delivery is given up after, or broken off before, plan lines that cost something, and no
   * charge.failed comes for a payment with such lines that was bought.
   */
  lemma {:induction false} TotalsAreEarned(w: World, events: seq<Event>, c: Id)
    requires OneCompany(w.db) && Consistent(w.db.assets) && TotalIsEarned(w.db, c)
    ensures EarnedThroughout(w, events, c) <==> TotalAllowedRun(w, events, c)
    decreases events
  {
    if events != [] {
      var next := Step(w, events[0]);
      TotalStep(w, events[0], c);
      hide OneCompany, Consistent, TotalIsEarned, TotalAllowed, Next;
      if TotalAllowed(w, events[0], c) { TotalsAreEarned(next, events[1..], c); }
    }
  }

  /** Before anything is bought the total is earned when it is zero. */
  lemma NothingIsEarnedYet(db: Db, c: Id)
    requires db.payments == map[] && c in db.companies && db.companies[c].paidTotal == 0
    ensures OneCompany(db) && TotalIsEarned(db, c)
  {
    assert AllCounted(db, c) == map[];
  }
}
