/**
 * An assignment should mean that a copy is out to the company: over whole runs, exactly which events leave an
 * assignment without one.
 */
module Assignments {
  import opened Common
  import opened Tables
  import opened Inventory
  import opened Fulfilment
  import opened Refunds
  import opened BundleResolution
  import opened Machine
  import opened Effects
  import opened Charges
  import opened Reversals
  import opened RefundUndo
  import opened Resolutions
  import opened SlotConservation
  import opened Obstacles
  import opened Ownership
  import opened BundleHolds
  import opened Growth
  import opened Leaks
  import opened Backing
  import opened Accounts

  /** A successful payment of the company, other than `except`, stands for a copy of the slot. */
  predicate IsOut(db: Db, x: (Id, SlotId), except: Option<Id>) {
    exists pid | pid in db.payments && Some(pid) != except ::
      && db.payments[pid].status == Success && db.payments[pid].companyId == Some(x.0)
      && x.1 in Copied(db, db.payments[pid])
  }

  ghost predicate AssignedAreOut(db: Db) {
    forall x | x in db.assignments :: x.1 in db.slots && IsOut(db, x, None)
  }

  /** One payment changes its status: the others speak for the same copies as before. */
  lemma OutAfter(db: Db, d: Db, pid: Id, status: PaymentStatus, x: (Id, SlotId))
    requires AllSound(db) && Grown(db, d) && pid in db.payments
    requires d.payments == db.payments[pid := db.payments[pid].(status := status)]
    ensures IsOut(d, x, None) <==>
      || IsOut(db, x, Some(pid))
      || (status == Success && db.payments[pid].companyId == Some(x.0) && x.1 in Copied(db, db.payments[pid]))
    ensures db.payments[pid].status != Success ==> (IsOut(db, x, Some(pid)) <==> IsOut(db, x, None))
  {
    forall y | y in db.payments ensures Copied(d, d.payments[y]) == Copied(db, db.payments[y]) {
      assert Sound(db, y);
      SoundStays(db, d, y);
    }
    hide Copied, Sound, Grown, AllSound;
  }

  // ---- Deliveries ------------------------------------------------------------------------

  /** The copies taken and not rolled back are out by some payment. */
  predicate RestIsOut(db: Db, c: Option<Id>, taken: multiset<SlotId>, back: multiset<SlotId>) {
    forall x | x in Copies(c, taken) && x !in Copies(c, back) :: IsOut(db, x, None)
  }

  /**
   * A delivery that ends without success leaves assigned only what other payments have out: the copies its lines took,
   * but for those of a bundle that was rolled back.
   */
  predicate AssignmentsSurvive(db: Db, pid: Id, now: int)
    requires pid in db.payments
  {
    IsMissing(db, pid, now) || StopsWith(db, pid, now) == Unavailable ==>
      RestIsOut(db, PaymentBuyer(db, pid, now).company, WouldTake(db, pid, now), RolledBack(db, pid, now))
  }

  lemma TakenExist(db: Db, pid: Id, now: int)
    requires pid in db.payments
    ensures forall s | s in WouldTake(db, pid, now) :: s in db.slots
    ensures WouldTake(db, pid, now) <= Copied(db, db.payments[pid])
  {
    var p := db.payments[pid];
    var q := PaymentBuyer(db, pid, now);
    DeliveryIsForeseen(db, pid, now);
    if IsMissing(db, pid, now) {
      assert ItemsSlots([], p.bundles) == multiset{};
    } else {
      var n := ServedBefore(db, pid, now);
      assert n <= |Lines(db, p)|;
      FulfilItemsEffect(db, q, p.bundles, Lines(db, p));
      hide FulfilItems, ItemsSlots, ItemsAssets, IsMissing, Claims, HeldBy, Debit, StopsWith, ServedBefore, Lines;
      ItemsSlotsSplit(Lines(db, p), p.bundles, n);
    }
  }

  /** The assignments after a delivery, against the copies that are then out. */
  lemma DeliveredAssigned(db: Db, d: Db, pid: Id, status: PaymentStatus, c: Option<Id>, taken: multiset<SlotId>,
                          back: multiset<SlotId>)
    requires AllSound(db) && Grown(db, d) && AssignedAreOut(db) && pid in db.payments
    requires db.payments[pid].status != Success
    requires d.payments == db.payments[pid := db.payments[pid].(status := status)] && d.slots.Keys == db.slots.Keys
    requires d.assignments == db.assignments + Copies(c, taken) - Copies(c, back)
    requires (forall s | s in taken :: s in db.slots) && taken <= Copied(db, db.payments[pid])
    requires c.Some? ==> db.payments[pid].companyId == c
    ensures AssignedAreOut(d) <==> (status != Success ==> RestIsOut(db, c, taken, back))
  {
    var p := db.payments[pid];
    forall x
      ensures IsOut(d, x, None) <==>
        (IsOut(db, x, None) || (status == Success && p.companyId == Some(x.0) && x.1 in Copied(db, p)))
    {
      OutAfter(db, d, pid, status, x);
    }
    assert forall x | x in Copies(c, taken) :: c == Some(x.0) && x.1 in taken && x.1 in Copied(db, db.payments[pid]);
    hide IsOut, Copied, AllSound, Grown, Copies;
    if status != Success && AssignedAreOut(d) {
      forall x | x in Copies(c, taken) && x !in Copies(c, back) ensures IsOut(db, x, None) {
        assert x in d.assignments;
      }
    }
  }

  lemma DeliveryAssigns(db: Db, pid: Id, refundGranted: bool, now: int)
    requires OneCompany(db) && Consistent(db.assets) && AssignedAreOut(db)
    requires pid in db.payments && db.payments[pid].status != Success
    ensures AssignedAreOut(ApplySuccess(SetStatus(db, pid, Success), pid, refundGranted, now))
      <==> AssignmentsSurvive(db, pid, now)
  {
    var marked := SetStatus(db, pid, Success);
    var d := ApplySuccess(marked, pid, refundGranted, now);
    var c := PaymentBuyer(db, pid, now).company;
    var status := StatusAfter(marked, pid, refundGranted, now);
    assert AllSound(db) && marked.payments[pid].status == Success;
    assert c.Some? ==> db.payments[pid].companyId == c by {
      assert ActingCompany(db, db.payments[pid]) == db.payments[pid].companyId;
    }
    assert WellFormed(db.payments[pid]) by { assert Sound(db, pid); }
    LeftAssignments(db, pid, refundGranted, now);
    hide *;
    SurvivesIs(db, pid, now);
    ChargedTables(db, pid, refundGranted, now);
    MarkedIsAlike(db, pid, now);
    NetAtEnd(marked, pid, refundGranted, now);
    TakenExist(db, pid, now);
    DeliveredAssigned(db, d, pid, status, c, WouldTake(db, pid, now), RolledBack(db, pid, now));
  }

  lemma SurvivesIs(db: Db, pid: Id, now: int)
    requires pid in db.payments
    ensures AssignmentsSurvive(db, pid, now) <==>
      (IsMissing(db, pid, now) || StopsWith(db, pid, now) == Unavailable ==>
       RestIsOut(db, PaymentBuyer(db, pid, now).company, WouldTake(db, pid, now), RolledBack(db, pid, now)))
  {
    hide IsMissing, StopsWith, RestIsOut;
  }

  lemma LeftAssignments(db: Db, pid: Id, refundGranted: bool, now: int)
    requires pid in db.payments && WellFormed(db.payments[pid]) && Consistent(db.assets)
    ensures var d := ApplySuccess(SetStatus(db, pid, Success), pid, refundGranted, now);
      var c := PaymentBuyer(db, pid, now).company;
      && d.assignments == db.assignments + Copies(c, WouldTake(db, pid, now)) - Copies(c, RolledBack(db, pid, now))
      && d.slots.Keys == db.slots.Keys
  {
    DeliveryLeaves(db, pid, refundGranted, now);
    DebitKeys(db.slots, WouldTake(db, pid, now) - GivenBack(db, pid, now));
    hide ApplySuccess, PaymentBuyer, WouldTake, GivenBack, RolledBack, TakenRows, LinesServed, RowsGo, Copies, Debit,
         ItemsKobo;
  }

  // ---- The other events ------------------------------------------------------------------

  /** Every assignment has a copy out by another payment. */
  predicate OthersSpeak(db: Db, pid: Id) {
    forall x | x in db.assignments :: IsOut(db, x, Some(pid))
  }

  lemma ClosedAssigned(db: Db, d: Db, pid: Id, status: PaymentStatus)
    requires AllSound(db) && AssignedAreOut(db) && pid in db.payments && Tidied(db, d, pid, status) && status != Success
    requires d.slots == db.slots
    ensures AssignedAreOut(d) <==> OthersSpeak(db, pid)
    ensures db.payments[pid].status != Success ==> OthersSpeak(db, pid)
  {
    TidiedGrows(db, d, pid, status);
    TidiedPayments(db, d, pid, status);
    assert d.assignments == db.assignments;
    forall x ensures IsOut(d, x, None) <==> IsOut(db, x, Some(pid)) { OutAfter(db, d, pid, status, x); }
    forall x | db.payments[pid].status != Success ensures IsOut(db, x, Some(pid)) <==> IsOut(db, x, None) {
      OutAfter(db, d, pid, status, x);
    }
    hide IsOut, Tidied, AllSound, Grown;
  }

  lemma ClosingAssigns(db: Db, pid: Id)
    requires AllSound(db) && AssignedAreOut(db)
    ensures AssignedAreOut(ChargeFailed(db, pid)) <==> (pid in db.payments ==> OthersSpeak(db, pid))
    ensures AssignedAreOut(CancelPending(db, pid))
  {
    if pid in db.payments {
      ClosingTables(db, pid);
      hide ChargeFailed, CancelPending, Tidied, AssignedAreOut, AllSound, OthersSpeak;
      ClosedAssigned(db, ChargeFailed(db, pid), pid, if db.payments[pid].status == Refunded then Refunded else Failed);
      if db.payments[pid].status == Pending { ClosedAssigned(db, CancelPending(db, pid), pid, Failed); }
    } else {
      MissingPayment(db, pid);
    }
  }

  /** A refund deletes the assignments it leaves without a copy, and perhaps more. */
  lemma RefundAssigns(db: Db, pid: Id)
    requires AllSound(db) && AssignedAreOut(db)
    ensures AssignedAreOut(RefundPayment(db, pid))
  {
    if pid in db.payments && db.payments[pid].status == Success {
      var d := RefundPayment(db, pid);
      var p := db.payments[pid];
      assert Sound(db, pid);
      RefundIsUndone(db, pid);
      RefundTables(db, pid);
      assert d.assignments == db.assignments - Existing(db.slots, p.companyId, Copied(db, p));
      DebitKeys(db.slots, Refundable(p, Copied(db, p)));
      forall x ensures IsOut(d, x, None) <==> IsOut(db, x, Some(pid)) { OutAfter(db, d, pid, Refunded, x); }
      forall x | x in d.assignments ensures x.1 in d.slots && IsOut(d, x, None) {
        assert IsOut(db, x, None) && x.1 in db.slots;
        if !IsOut(db, x, Some(pid)) { OnlyThisPayment(db, x, pid); }
      }
    } else {
      NotRefundable(db, pid);
    }
  }

  lemma OnlyThisPayment(db: Db, x: (Id, SlotId), pid: Id)
    requires IsOut(db, x, None) && !IsOut(db, x, Some(pid))
    ensures pid in db.payments && db.payments[pid].companyId == Some(x.0) && x.1 in Copied(db, db.payments[pid])
  {
    hide Copied;
  }

  /** Assignments and slots go together, and successful payments stay. */
  lemma QuietAssigns(db: Db, d: Db)
    requires AllSound(db) && Grown(db, d) && AssignedAreOut(db)
    requires forall x | x in db.payments :: d.payments[x] == db.payments[x]
    requires forall x | x in d.assignments :: x in db.assignments && x.1 in d.slots
    ensures AssignedAreOut(d)
  {
    forall y | y in db.payments ensures Copied(d, d.payments[y]) == Copied(db, db.payments[y]) {
      assert Sound(db, y);
      SoundStays(db, d, y);
    }
    hide Copied, Sound, Grown, AllSound;
    forall x | x in d.assignments ensures IsOut(d, x, None) { assert IsOut(db, x, None); }
  }

  lemma QuietKeepsAssignments(w: World, e: Event)
    requires !Delivers(w, e) && !e.ERefund? && !e.EChargeFailed? && !e.ECancel? && AssignedAreOut(w.db)
    ensures forall x | x in Next(w, e).assignments :: x in w.db.assignments && x.1 in Next(w, e).slots
  {
    hide IsOut;
    if e.EInitSingle? || e.EInitPlan? || e.ECheckout? {
      if Next(w, e) != w.db {
        if e.EInitPlan? {
          InitPlanTables(w.db, e.b, e.planId, e.expiresAt, w.now, w.rule);
          ResolvePlanOnlyHolds(w.db, e.planId, ForPayment(e.b.pid), e.expiresAt, w.now, w.rule);
          hide ResolvePlan, PlanIsBuyable, SlotsAreAvailable;
        } else if e.ECheckout? {
          CheckoutTables(w.db, e.oid, e.b, e.items, e.expiresAt, w.now, w.rule);
          hide Checkout, CheckoutIsAllowed, PlanIds;
        }
      }
    } else {
      hide KeepHolds, ClearHolds, Without, ApplySuccess;
    }
  }

  // ---- Runs ------------------------------------------------------------------------------

  /** The only events that leave an assignment without a copy. */
  predicate AssignmentAllowed(w: World, e: Event) {
    && (Delivers(w, e) ==> AssignmentsSurvive(w.db, e.pid, w.now))
    && (e.EChargeFailed? && e.pid in w.db.payments ==> OthersSpeak(w.db, e.pid))
  }

  /** The exact step. */
  lemma AssignmentStep(w: World, e: Event)
    requires OneCompany(w.db) && Consistent(w.db.assets) && AssignedAreOut(w.db)
    ensures OneCompany(Next(w, e)) && Consistent(Next(w, e).assets)
    ensures AssignedAreOut(Next(w, e)) <==> AssignmentAllowed(w, e)
  {
    var d := Next(w, e);
    assert AllSound(w.db);
    AllSoundIsStored(w.db);
    OneCompanyStep(w, e);
    OwnershipStep(w, e);
    hide OneCompany, AllSound, Consistent, Stored, AssignedAreOut, ApplySuccess, RefundPayment, ChargeFailed,
         CancelPending, InitSingle, InitPlan, Checkout, ReleaseExpired, AssignSlot, UnassignSlot, SetTotalSlots,
         RemoveSlot, SetStatus, AssignmentsSurvive, OthersSpeak, Grown;
    if Delivers(w, e) {
      DeliveryAssigns(w.db, e.pid, e.refundGranted, w.now);
    } else if e.ERefund? {
      RefundAssigns(w.db, e.pid);
    } else if e.EChargeFailed? || e.ECancel? {
      ClosingAssigns(w.db, e.pid);
    } else {
      QuietAddsOne(w, e);
      QuietKeepsAssignments(w, e);
      QuietAssigns(w.db, d);
    }
  }

  ghost predicate AssignmentAllowedRun(w: World, events: seq<Event>)
    decreases events
  {
    events != [] ==> AssignmentAllowed(w, events[0]) && AssignmentAllowedRun(Step(w, events[0]), events[1..])
  }

  ghost predicate OutThroughout(w: World, events: seq<Event>)
    decreases events
  {
    AssignedAreOut(w.db) && (events != [] ==> OutThroughout(Step(w, events[0]), events[1..]))
  }

  /**
   * Over every run, every assignment stands at every moment for a copy that a successful payment of the company has
   * out, if and only if no delivery that ends without success, and no charge.failed, leaves one that no other payment
   * speaks for.
   */
  lemma {:induction false} AssignmentsAreOut(w: World, events: seq<Event>)
    requires OneCompany(w.db) && Consistent(w.db.assets) && AssignedAreOut(w.db)
    ensures OutThroughout(w, events) <==> AssignmentAllowedRun(w, events)
    decreases events
  {
    if events != [] {
      AssignmentStep(w, events[0]);
      hide OneCompany, Consistent, AssignedAreOut, AssignmentAllowed, Next;
      if AssignmentAllowed(w, events[0]) { AssignmentsAreOut(Step(w, events[0]), events[1..]); }
    }
  }
}
