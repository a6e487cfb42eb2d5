/**
 * When refunds return what is out, read off the tables: only a delivery that breaks off at a second booth can leave a
 * successful payment with less out than its refund returns, and only if the lines it did not serve stand for copies.
 */
module Backing {
  import opened Common
  import opened Tables
  import opened Inventory
  import opened Fulfilment
  import opened Refunds
  import opened BundleResolution
  import opened Machine
  import opened Effects
  import opened Charges
  import opened Reversals
  import opened RefundUndo
  import opened Resolutions
  import opened SlotConservation
  import opened Obstacles
  import opened Ownership
  import opened BundleHolds
  import opened Growth

  /** What a refund of the payment would return is out by it. */
  predicate Backed(db: Db, l: Ledger, pid: Id)
    requires pid in db.payments
  {
    db.payments[pid].status == Success ==> Covers(db.slots, Entry(l, ByPayment(pid)), Copied(db, db.payments[pid]))
  }

  ghost predicate AllBacked(db: Db, l: Ledger) {
    Conserved(db, l) && forall pid | pid in db.payments :: Backed(db, l, pid)
  }

  /** The copies of the lines from the first obstacle on. */
  function Unserved(db: Db, pid: Id, now: int): multiset<SlotId>
    requires pid in db.payments
  {
    ItemsSlots(Lines(db, db.payments[pid])[ServedBefore(db, pid, now)..], db.payments[pid].bundles)
  }

  // ---- Deliveries ------------------------------------------------------------------------

  /** The delivery by its verdict. */
  lemma NetByVerdict(db: Db, pid: Id, refundGranted: bool, now: int)
    requires pid in db.payments && db.payments[pid].status == Success
    ensures StatusAfter(db, pid, refundGranted, now) != Success <==>
      (IsMissing(db, pid, now) || Core(db, pid, now).verdict == Unavailable)
    ensures !IsMissing(db, pid, now) && Core(db, pid, now).verdict != Unavailable ==>
      var p := db.payments[pid]; var n := Core(db, pid, now).served;
      n <= |Lines(db, p)| && Net(db, pid, now) == ItemsSlots(Lines(db, p)[..n], p.bundles)
  {
    VerdictIsDone(db, pid, now);
    hide IsMissing, Core, ItemsSlots, Lines, SlotLines;
  }

  /** What a delivery takes for good, and how its payment ends, in terms of the tables before. */
  lemma NetAtEnd(db: Db, pid: Id, refundGranted: bool, now: int)
    requires pid in db.payments && db.payments[pid].status == Success
    ensures var p := db.payments[pid]; var m := Net(db, pid, now);
      && (StatusAfter(db, pid, refundGranted, now) != Success <==>
          IsMissing(db, pid, now) || StopsWith(db, pid, now) == Unavailable)
      && (!IsMissing(db, pid, now) && StopsWith(db, pid, now) == Done ==> m == Copied(db, p))
      && (BreaksOff(db, pid, now) ==> m + Unserved(db, pid, now) == Copied(db, p))
  {
    var p := db.payments[pid];
    var n := ServedBefore(db, pid, now);
    assert n <= |Lines(db, p)| && Lines(db, p)[..|Lines(db, p)|] == Lines(db, p);
    assert Copied(db, p) == ItemsSlots(Lines(db, p), p.bundles);
    assert Unserved(db, pid, now) == ItemsSlots(Lines(db, p)[n..], p.bundles);
    assert BreaksOff(db, pid, now) <==> !IsMissing(db, pid, now) && StopsWith(db, pid, now) == Crashed;
    hide *;
    DeliveryIsForeseen(db, pid, now);
    VerdictIsDone(db, pid, now);
    NetByVerdict(db, pid, refundGranted, now);
    ItemsSlotsSplit(Lines(db, p), p.bundles, n);
  }

  lemma VerdictIsDone(db: Db, pid: Id, now: int)
    requires pid in db.payments
    ensures Core(db, pid, now).served <= |Lines(db, db.payments[pid])|
    ensures Core(db, pid, now).verdict == Done <==> Core(db, pid, now).served == |Lines(db, db.payments[pid])|
  {
    hide FulfilItem;
  }

  lemma CoversSum(slots: map<SlotId, Slot>, entry: multiset<SlotId>, m: multiset<SlotId>, n: multiset<SlotId>)
    ensures Covers(slots, entry + m, m)
    ensures Covers(slots, entry + m, m + n) <==> Covers(slots, entry, n)
  {
    assert forall s | s in slots :: (m + n)[s] <= (entry + m)[s] <==> n[s] <= entry[s];
  }

  /** Exactly when a delivery leaves its payment with less out than its refund would return. */
  lemma DeliveryBacks(db: Db, l: Ledger, pid: Id, refundGranted: bool, now: int)
    requires Conserved(db, l) && pid in db.payments
    ensures var marked := SetStatus(db, pid, Success); var d := ApplySuccess(marked, pid, refundGranted, now);
      var m := l[ByPayment(pid) := Entry(l, ByPayment(pid)) + Net(marked, pid, now)];
      pid in d.payments &&
      (Backed(d, m, pid) <==>
       (BreaksOff(db, pid, now) ==> Covers(db.slots, Entry(l, ByPayment(pid)), Unserved(db, pid, now))))
  {
    var marked := SetStatus(db, pid, Success);
    var d := ApplySuccess(marked, pid, refundGranted, now);
    assert marked.payments[pid].status == Success && marked.slots == db.slots;
    ConservedParts(db, l, pid);
    hide *;
    ChargedTables(db, pid, refundGranted, now);
    SoundStays(db, d, pid);
    BackedIs(db, d, l, pid, Net(marked, pid, now), StatusAfter(marked, pid, refundGranted, now));
    EndsCovered(db, pid, refundGranted, now, Entry(l, ByPayment(pid)));
  }

  /** What the entry covers after the delivery. */
  lemma EndsCovered(db: Db, pid: Id, refundGranted: bool, now: int, entry: multiset<SlotId>)
    requires pid in db.payments && Sound(db, pid)
    ensures var marked := SetStatus(db, pid, Success);
      (StatusAfter(marked, pid, refundGranted, now) == Success ==>
       Covers(db.slots, entry + Net(marked, pid, now), Copied(db, db.payments[pid])))
      <==> (BreaksOff(db, pid, now) ==> Covers(db.slots, entry, Unserved(db, pid, now)))
  {
    var marked := SetStatus(db, pid, Success);
    assert Copied(marked, marked.payments[pid]) == Copied(db, db.payments[pid]) by {
      MarkedIsAlike(db, pid, now);
      hide ItemsSlots, Lines;
    }
    assert marked.payments[pid].status == Success;
    hide *;
    MarkedIsAlike(db, pid, now);
    NetAtEnd(marked, pid, refundGranted, now);
    MarkedUnserved(db, pid, now);
    CoversSum(db.slots, entry, Net(marked, pid, now), Unserved(db, pid, now));
    VerdictIs(db, pid, now);
  }

  lemma VerdictIs(db: Db, pid: Id, now: int)
    requires pid in db.payments
    ensures BreaksOff(db, pid, now) <==> !IsMissing(db, pid, now) && StopsWith(db, pid, now) == Crashed
    ensures BreaksOff(SetStatus(db, pid, Success), pid, now) <==> BreaksOff(db, pid, now)
  {
    MarkedIsAlike(db, pid, now);
    hide IsMissing, StopsWith;
  }

  lemma MarkedUnserved(db: Db, pid: Id, now: int)
    requires pid in db.payments
    ensures Unserved(SetStatus(db, pid, Success), pid, now) == Unserved(db, pid, now)
  {
    MarkedIsAlike(db, pid, now);
    hide ServedBefore, ItemsSlots, Lines;
  }

  lemma BackedIs(db: Db, d: Db, l: Ledger, pid: Id, taken: multiset<SlotId>, status: PaymentStatus)
    requires pid in db.payments && d.payments == db.payments[pid := db.payments[pid].(status := status)]
    requires d.slots == Debit(db.slots, taken) && Copied(d, d.payments[pid]) == Copied(db, db.payments[pid])
    ensures Backed(d, l[ByPayment(pid) := Entry(l, ByPayment(pid)) + taken], pid) <==>
      (status == Success ==> Covers(db.slots, Entry(l, ByPayment(pid)) + taken, Copied(db, db.payments[pid])))
  {
    hide Copied;
  }

  // ---- Steps -----------------------------------------------------------------------------

  /** The delivery does not break off, or the lines it does not serve stand for no copy of a slot that exists. */
  predicate IsHarmless(db: Db, pid: Id, now: int)
    requires pid in db.payments
  {
    BreaksOff(db, pid, now) ==> Covers(db.slots, multiset{}, Unserved(db, pid, now))
  }

  /** Conditions on the tables before the event, but for an administrator, who undoes only assignments of its own. */
  predicate LeavesNothing(w: World, l: Ledger, e: Event) {
    && (e.EUnassignSlot? ==> Allowed(w, l, e))
    && (Delivers(w, e) ==> IsHarmless(w.db, e.pid, w.now))
  }

  /** A payment whose status and entry stay is backed as it was. */
  lemma BackedStays(before: Db, after: Db, l: Ledger, m: Ledger, pid: Id)
    requires Grown(before, after) && pid in before.payments && Sound(before, pid) && Backed(before, l, pid)
    requires after.payments[pid].status == Success ==> before.payments[pid].status == Success
    requires Entry(m, ByPayment(pid)) == Entry(l, ByPayment(pid)) && after.slots.Keys <= before.slots.Keys
    ensures Backed(after, m, pid)
  {
    SoundStays(before, after, pid);
    hide Copied, Sound, Grown;
  }

  /** Steps that make no payment successful, and change no entry of one that stays so. */
  lemma QuietStepBacks(before: Db, after: Db, l: Ledger, m: Ledger)
    requires AllBacked(before, l) && Conserved(after, m) && Grown(before, after)
    requires after.slots.Keys <= before.slots.Keys
    requires forall pid | pid in after.payments && after.payments[pid].status == Success ::
      && pid in before.payments && before.payments[pid].status == Success
      && Entry(m, ByPayment(pid)) == Entry(l, ByPayment(pid))
    ensures AllBacked(after, m)
  {
    hide Copied, Sound, Balanced, Grown, Entry;
    forall pid | pid in after.payments ensures Backed(after, m, pid) {
      if after.payments[pid].status == Success { BackedStays(before, after, l, m, pid); }
    }
  }

  lemma DeliveryKeepsBacking(db: Db, l: Ledger, pid: Id, refundGranted: bool, now: int)
    requires AllBacked(db, l) && pid in db.payments && IsHarmless(db, pid, now)
    ensures var marked := SetStatus(db, pid, Success);
      AllBacked(ApplySuccess(marked, pid, refundGranted, now),
                l[ByPayment(pid) := Entry(l, ByPayment(pid)) + Net(marked, pid, now)])
  {
    var marked := SetStatus(db, pid, Success);
    var d := ApplySuccess(marked, pid, refundGranted, now);
    var m := l[ByPayment(pid) := Entry(l, ByPayment(pid)) + Net(marked, pid, now)];
    assert Conserved(db, l) && forall x | x in db.payments :: Sound(db, x) && Backed(db, l, x);
    assert BreaksOff(db, pid, now) ==> Covers(db.slots, Entry(l, ByPayment(pid)), Unserved(db, pid, now)) by {
      hide BreaksOff, Unserved;
    }
    DeliveryConserves(db, l, pid, refundGranted, now);
    DeliveryBacks(db, l, pid, refundGranted, now);
    ChargedTables(db, pid, refundGranted, now);
    hide ApplySuccess, Net, Unserved, BreaksOff, Copied, Sound, Balanced, Grown, StatusAfter, Backed, Conserved, Debit;
    assert d.slots.Keys == db.slots.Keys by { DebitKeys(db.slots, Net(marked, pid, now)); }
    forall x | x in d.payments ensures Backed(d, m, x) {
      if x != pid { BackedStays(db, d, l, m, x); }
    }
  }

  lemma DebitKeys(slots: map<SlotId, Slot>, m: multiset<SlotId>)
    ensures Debit(slots, m).Keys == slots.Keys && Credit(slots, m).Keys == slots.Keys
  {
  }

  /** A backed payment is refunded exactly. */
  lemma BackedRefundIsAllowed(w: World, l: Ledger, pid: Id)
    requires AllBacked(w.db, l)
    ensures Allowed(w, l, ERefund(pid))
  {
    hide Copied, Conserved;
  }

  lemma RefundKeepsBacking(db: Db, l: Ledger, pid: Id)
    requires AllBacked(db, l) && pid in db.payments && db.payments[pid].status == Success
    ensures var p := db.payments[pid]; var k := ByPayment(pid);
      AllBacked(RefundPayment(db, pid), l[k := Entry(l, k) - Refundable(p, Copied(db, p))])
  {
    var p := db.payments[pid];
    var d := RefundPayment(db, pid);
    var m := l[ByPayment(pid) := Entry(l, ByPayment(pid)) - Refundable(p, Copied(db, p))];
    ConservedParts(db, l, pid);
    RefundConserves(db, l, pid);
    RefundTables(db, pid);
    assert Backed(db, l, pid);
    DebitKeys(db.slots, Refundable(p, Copied(db, p)));
    hide RefundPayment, Conserved, Copied, Grown, Credit;
    QuietStepBacks(db, d, l, m);
  }

  /** No payment becomes successful, and no slot is added. */
  ghost predicate SellsNothing(before: Db, after: Db) {
    && after.slots.Keys <= before.slots.Keys
    && forall pid | pid in after.payments && after.payments[pid].status == Success ::
         pid in before.payments && before.payments[pid].status == Success
  }

  lemma ClosingSellsNothing(db: Db, pid: Id)
    ensures SellsNothing(db, ChargeFailed(db, pid)) && SellsNothing(db, CancelPending(db, pid))
  {
    if pid in db.payments {
      ClosingTables(db, pid);
      hide ChargeFailed, CancelPending, Released, OrdersKeep;
    }
  }

  lemma CheckoutSellsNothing(w: World, e: Event)
    requires e.EInitSingle? || e.EInitPlan? || e.ECheckout?
    ensures SellsNothing(w.db, Next(w, e))
  {
    if Next(w, e) != w.db {
      if e.EInitPlan? {
        InitPlanTables(w.db, e.b, e.planId, e.expiresAt, w.now, w.rule);
        hide ResolvePlan, InitPlan, SlotsAreAvailable;
      } else if e.ECheckout? {
        CheckoutTables(w.db, e.oid, e.b, e.items, e.expiresAt, w.now, w.rule);
        hide Checkout, CheckoutIsAllowed, PlanIds;
      }
    }
  }

  lemma QuietEventSellsNothing(w: World, e: Event)
    requires !Delivers(w, e) && !e.ERefund?
    ensures SellsNothing(w.db, Next(w, e))
  {
    hide SellsNothing, InitSingle, InitPlan, Checkout, ApplySuccess, ReleaseExpired, ChargeFailed, CancelPending,
         AssignSlot, UnassignSlot, SetTotalSlots, RemoveSlot;
    SameSells(w.db);
    match e
    case EInitSingle(_, _, _) => CheckoutSellsNothing(w, e);
    case EInitPlan(_, _, _) => CheckoutSellsNothing(w, e);
    case ECheckout(_, _, _, _) => CheckoutSellsNothing(w, e);
    case EChargeFailed(pid) => ClosingSellsNothing(w.db, pid);
    case ECancel(pid) => ClosingSellsNothing(w.db, pid);
    case ECleanup => CleanupSellsNothing(w.db, w.now);
    case EAssignSlot(company, s) => SlotEditsSellNothing(w.db, company, s, 0);
    case EUnassignSlot(s) => SlotEditsSellNothing(w.db, 0, s, 0);
    case ESetTotalSlots(s, n) => SlotEditsSellNothing(w.db, 0, s, n);
    case ERemoveSlot(s) => SlotEditsSellNothing(w.db, 0, s, 0);
    case _ =>
  }

  lemma SameSells(db: Db)
    ensures SellsNothing(db, db)
  {
  }

  lemma CleanupSellsNothing(db: Db, now: int)
    ensures SellsNothing(db, ReleaseExpired(db, now))
  {
  }

  lemma SlotEditsSellNothing(db: Db, company: Id, s: SlotId, newTotal: int)
    ensures SellsNothing(db, AssignSlot(db, company, s)) && SellsNothing(db, UnassignSlot(db, s))
    ensures SellsNothing(db, SetTotalSlots(db, s, newTotal)) && SellsNothing(db, RemoveSlot(db, s))
  {
    hide KeepHolds, Without;
  }

  lemma QuietLedger(w: World, l: Ledger, e: Event, pid: Id)
    requires !Delivers(w, e) && !e.ERefund?
    ensures Entry(NextLedger(w, l, e), ByPayment(pid)) == Entry(l, ByPayment(pid))
  {
  }

  lemma ConservedIsSound(db: Db, l: Ledger)
    requires Conserved(db, l)
    ensures AllSound(db) && Stored(db)
  {
    AllSoundIsStored(db);
  }

  /** A slot that can be deleted is out to no successful payment that is backed. */
  lemma RemovableSlotIsNotSold(db: Db, l: Ledger, s: SlotId)
    requires AllBacked(db, l) && RemoveSlot(db, s) != db
    ensures forall pid | pid in db.payments && db.payments[pid].status == Success :: s !in Copied(db, db.payments[pid])
  {
    AllBackedIs(db, l);
    assert s in db.slots && Balanced(db.slots, l);
    RemovableSlotIsNotOut(db, l, s);
    hide Balanced, RemoveSlot, Copied, Conserved;
    forall pid | pid in db.payments && db.payments[pid].status == Success ensures s !in Copied(db, db.payments[pid]) {
      assert Backed(db, l, pid);
    }
  }

  /** A step that leaves nothing behind is allowed, and keeps every successful payment backed. */
  lemma BackingStep(w: World, l: Ledger, e: Event)
    requires AllBacked(w.db, l) && LeavesNothing(w, l, e)
    ensures Allowed(w, l, e) && AllBacked(Next(w, e), NextLedger(w, l, e))
  {
    hide AllBacked, Next, NextLedger, Copied, IsHarmless, SellsNothing, Conserved;
    assert Conserved(w.db, l) by { AllBackedIs(w.db, l); }
    ConservedStep(w, l, e);
    if e.ERefund? {
      BackedRefundIsAllowed(w, l, e.pid);
      RefundStepBacks(w, l, e.pid);
    } else if Delivers(w, e) {
      DeliveryStepBacks(w, l, e);
    } else {
      QuietEventSellsNothing(w, e);
      ConservedIsSound(w.db, l);
      GrownStep(w, e);
      QuietBacks(w, l, e);
    }
  }

  lemma AllBackedIs(db: Db, l: Ledger)
    requires AllBacked(db, l)
    ensures Conserved(db, l)
  {
  }

  lemma RefundStepBacks(w: World, l: Ledger, pid: Id)
    requires AllBacked(w.db, l)
    ensures AllBacked(Next(w, ERefund(pid)), NextLedger(w, l, ERefund(pid)))
  {
    hide AllBacked, RefundPayment, Copied, Refundable;
    if pid in w.db.payments && w.db.payments[pid].status == Success {
      RefundKeepsBacking(w.db, l, pid);
    } else {
      NotRefundable(w.db, pid);
    }
  }

  lemma DeliveryStepBacks(w: World, l: Ledger, e: Event)
    requires AllBacked(w.db, l) && Delivers(w, e) && IsHarmless(w.db, e.pid, w.now)
    ensures AllBacked(Next(w, e), NextLedger(w, l, e))
  {
    hide AllBacked, IsHarmless, ApplySuccess, Net;
    DeliveryKeepsBacking(w.db, l, e.pid, e.refundGranted, w.now);
  }

  lemma QuietBacks(w: World, l: Ledger, e: Event)
    requires AllBacked(w.db, l) && !Delivers(w, e) && !e.ERefund?
    requires SellsNothing(w.db, Next(w, e)) && Grown(w.db, Next(w, e)) && Conserved(Next(w, e), NextLedger(w, l, e))
    ensures AllBacked(Next(w, e), NextLedger(w, l, e))
  {
    hide Next, NextLedger, AllBacked, Conserved, Grown, Delivers;
    forall pid
      ensures Entry(NextLedger(w, l, e), ByPayment(pid)) == Entry(l, ByPayment(pid))
    {
      QuietLedger(w, l, e, pid);
    }
    QuietStepBacks(w.db, Next(w, e), l, NextLedger(w, l, e));
  }

  // ---- Runs ------------------------------------------------------------------------------

  ghost predicate LeavesNothingRun(w: World, l: Ledger, events: seq<Event>)
    decreases events
  {
    events != [] ==>
      LeavesNothing(w, l, events[0]) && LeavesNothingRun(Step(w, events[0]), NextLedger(w, l, events[0]), events[1..])
  }

  /**
   * If every delivery leaves nothing behind, every refund of the run
   * returns what is out, and the copies are conserved.
   */
  lemma {:induction false} RefundsAreCovered(w: World, l: Ledger, events: seq<Event>)
    requires AllBacked(w.db, l) && LeavesNothingRun(w, l, events)
    ensures AllowedRun(w, l, events) && AllBacked(Run(w, events).db, LedgerAfter(w, l, events))
    decreases events
  {
    hide AllBacked, LeavesNothing, Next, NextLedger, Allowed;
    if events != [] {
      BackingStep(w, l, events[0]);
      RefundsAreCovered(Step(w, events[0]), NextLedger(w, l, events[0]), events[1..]);
    }
  }

  lemma FreshIsBacked(db: Db)
    requires IsFresh(db)
    ensures AllBacked(db, map[])
  {
  }

  // ---- Carts of one booth ----------------------------------------------------------------

  ghost predicate AllOneBooth(db: Db) {
    forall pid | pid in db.payments :: OneBooth(Rows(db, db.payments[pid]))
  }

  /** A delivery of rows with one booth at most never breaks off. */
  lemma OneBoothIsHarmless(db: Db, pid: Id, now: int)
    requires pid in db.payments && OneBooth(Rows(db, db.payments[pid]))
    ensures IsHarmless(db, pid, now)
  {
    CoreDoesNotCrash(db, pid, now);
    DeliveryIsForeseen(db, pid, now);
    hide Core, StopsWith, ServedBefore, IsMissing;
  }

  lemma GrownRows(before: Db, after: Db, pid: Id)
    requires Grown(before, after) && pid in before.payments && WellFormed(before.payments[pid])
    requires before.payments[pid].kind == OrderPayment ==> before.payments[pid].orderId.value in before.orders
    ensures Rows(after, after.payments[pid]) == Rows(before, before.payments[pid])
  {
    SoundStays(before, after, pid);
    hide Rows, Copied;
  }

  lemma NewPaymentHasOneBooth(w: World, e: Event, pid: Id)
    requires e.EInitSingle? || e.EInitPlan? || e.ECheckout?
    requires pid in Next(w, e).payments && pid !in w.db.payments && (e.ECheckout? ==> OneBoothLine(e.items))
    ensures OneBooth(Rows(Next(w, e), Next(w, e).payments[pid]))
  {
    var d := Next(w, e);
    hide OneBooth, Rows;
    if e.ECheckout? {
      CheckoutHasOneBoothRow(w.db, e.oid, e.b, e.items, e.expiresAt, w.now, w.rule);
      CheckoutIsSound(w.db, e.oid, e.b, e.items, e.expiresAt, w.now, w.rule);
      hide Checkout, Sound, OneBoothLine;
    } else {
      if e.EInitPlan? { InitPlanTables(w.db, e.b, e.planId, e.expiresAt, w.now, w.rule); }
      hide InitPlan;
      SingleLineHasOneBooth(d, pid);
    }
  }

  lemma OneBoothStep(w: World, l: Ledger, e: Event)
    requires Conserved(w.db, l) && AllOneBooth(w.db) && (e.ECheckout? ==> OneBoothLine(e.items))
    ensures AllOneBooth(Next(w, e))
  {
    var d := Next(w, e);
    ConservedIsSound(w.db, l);
    GrownStep(w, e);
    forall pid | pid in d.payments ensures OneBooth(Rows(d, d.payments[pid])) {
      if pid in w.db.payments {
        ConservedParts(w.db, l, pid);
        GrownRows(w.db, d, pid);
      } else if e.EInitSingle? || e.EInitPlan? || e.ECheckout? {
        hide Next, Conserved, Stored;
        NewPaymentHasOneBooth(w, e, pid);
      } else {
        NoPaymentAdded(w, e);
      }
      hide Next, Conserved, Stored, OneBooth, Rows, Grown;
    }
  }

  /** Carts hold one booth at most, and administrators undo only their own assignments. */
  ghost predicate OneBoothRun(w: World, l: Ledger, events: seq<Event>)
    decreases events
  {
    events != [] ==>
      && (events[0].ECheckout? ==> OneBoothLine(events[0].items))
      && (events[0].EUnassignSlot? ==> Allowed(w, l, events[0]))
      && OneBoothRun(Step(w, events[0]), NextLedger(w, l, events[0]), events[1..])
  }

  lemma {:induction false} OneBoothLeavesNothing(w: World, l: Ledger, events: seq<Event>)
    requires AllBacked(w.db, l) && AllOneBooth(w.db) && OneBoothRun(w, l, events)
    ensures LeavesNothingRun(w, l, events)
    decreases events
  {
    if events != [] {
      var e := events[0];
      AllBackedIs(w.db, l);
      if Delivers(w, e) { OneBoothIsHarmless(w.db, e.pid, w.now); }
      assert LeavesNothing(w, l, e);
      hide AllBacked, AllOneBooth, Conserved, LeavesNothing, Next, NextLedger, Allowed, IsHarmless, Delivers,
           OneBoothLine;
      BackingStep(w, l, e);
      OneBoothStep(w, l, e);
      OneBoothLeavesNothing(Step(w, e), NextLedger(w, l, e), events[1..]);
    }
  }

  /** Where carts hold one booth at most, the copies are conserved whatever is refunded. */
  lemma OneBoothCartsConserve(w: World, events: seq<Event>)
    requires IsFresh(w.db) && OneBoothRun(w, map[], events)
    ensures AddsUpThroughout(w, map[], events)
  {
    FreshIsBacked(w.db);
    assert AllOneBooth(w.db);
    hide IsFresh, AllOneBooth, AllBacked, AddsUpThroughout;
    OneBoothLeavesNothing(w, map[], events);
    RefundsAreCovered(w, map[], events);
    assert Conserved(w.db, map[]) by { AllBackedIs(w.db, map[]); }
    ConservedRun(w, map[], events);
  }
}
