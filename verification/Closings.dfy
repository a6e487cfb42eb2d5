/**
 * How payments end, written out: the status of the payment and of its order, and which holds of rows and slots are
 * gone. A payment that is closed or given up loses its own holds and those of its order, and nobody else's.
 */
module Closings {
  import opened Common
  import opened CheckoutHold
  import opened Tables
  import opened Inventory
  import opened Fulfilment
  import opened Effects
  import opened Charges
  import opened RefundUndo
  import opened Obstacles
  import opened Leaks
  import opened RefundFlags

  // ---- Payments that are closed without a delivery ---------------------------------------

  /** How a payment ends: `Closed` without a sale, given up because something was not available, sold, or broken off. */
  datatype Ending = Closed | GivenUp | Sold | BrokenOff

  /** A hold with these columns is one of the payment or of its order. */
  predicate IsFor(pid: Id, orderId: Option<Id>, heldForPayment: Option<Id>, heldForOrder: Option<Id>) {
    heldForPayment == Some(pid) || (heldForOrder.Some? && heldForOrder == orderId)
  }

  /** The holds that go: all of the payment and its order, those of its checkout when it was sold, or none. */
  predicate LosesHold(kind: PaymentKind, pid: Id, orderId: Option<Id>, how: Ending, heldForPayment: Option<Id>,
                      heldForOrder: Option<Id>) {
    match how
    case Closed => IsFor(pid, orderId, heldForPayment, heldForOrder)
    case GivenUp => IsFor(pid, orderId, heldForPayment, heldForOrder)
    case Sold =>
      || (kind == OrderPayment && heldForOrder.Some? && heldForOrder == orderId)
      || (kind == PlanPayment && heldForPayment == Some(pid))
    case BrokenOff => false
  }

  /** Rows lose those holds and nothing else. */
  ghost predicate RowsEnd(before: map<AssetId, Asset>, after: map<AssetId, Asset>, p: Payment, pid: Id, how: Ending) {
    && after.Keys == before.Keys
    && forall a | a in before ::
         after[a] == if LosesHold(p.kind, pid, p.orderId, how, before[a].hold.paymentId, before[a].hold.orderId)
           then before[a].(hold := Hold(None, None, None)) else before[a]
  }

  /** Slot holds that go are gone however often they are listed; the others stay as often as they were. */
  ghost predicate HoldsEnd(before: seq<SlotHold>, after: seq<SlotHold>, p: Payment, pid: Id, how: Ending) {
    forall h :: multiset(after)[h]
      == if LosesHold(p.kind, pid, p.orderId, how, h.paymentId, h.orderId) then 0 else multiset(before)[h]
  }

  /** Only the payment's order moves: a payment that is closed fails it if it is open, one given up whatever it is. */
  ghost predicate OrdersEnd(before: map<Id, Order>, after: map<Id, Order>, orderId: Option<Id>, how: Ending) {
    && after.Keys == before.Keys
    && (forall o | o in before && orderId != Some(o) :: after[o] == before[o])
    && (forall o | o in before && orderId == Some(o) ::
          after[o] == before[o].(status :=
            match how
            case Closed => if before[o].status == PendingPayment then OrderFailed else before[o].status
            case GivenUp => OrderFailed
            case Sold => Paid
            case BrokenOff => before[o].status))
  }

  /**
   * The payment has this status, no hold of it or of its order is left, an open order of it has failed, and nothing
   * else has changed.
   */
  ghost predicate IsClosed(before: Db, after: Db, pid: Id, status: PaymentStatus)
    requires pid in before.payments
  {
    var p := before.payments[pid];
    && after == before.(assets := after.assets, slotHolds := after.slotHolds, orders := after.orders,
                        payments := before.payments[pid := p.(status := status)])
    && RowsEnd(before.assets, after.assets, p, pid, Closed)
    && HoldsEnd(before.slotHolds, after.slotHolds, p, pid, Closed)
    && OrdersEnd(before.orders, after.orders, p.orderId, Closed)
  }

  lemma ReleasedHolds(db: Db, pid: Id, p: Payment)
    ensures HoldsEnd(db.slotHolds, ReleaseAll(db, pid, p.orderId).slotHolds, p, pid, Closed)
  {
    var own := (h: SlotHold) => h.paymentId == Some(pid);
    var kept := KeepHolds(db.slotHolds, own);
    KeptCounts(db.slotHolds, own);
    if p.orderId.None? {
      assert ReleaseAll(db, pid, p.orderId).slotHolds == kept;
    } else {
      var ordered := (h: SlotHold) => h.orderId == Some(p.orderId.value);
      assert ReleaseAll(db, pid, p.orderId).slotHolds == KeepHolds(kept, ordered);
      KeptCounts(kept, ordered);
      hide KeepHolds, ReleaseAll;
    }
  }

  lemma ReleasedRows(db: Db, pid: Id, p: Payment)
    ensures RowsEnd(db.assets, ReleaseAll(db, pid, p.orderId).assets, p, pid, Closed)
  {
    var cleared := ClearHolds(db.assets, (h: Hold) => h.paymentId == Some(pid));
    assert ReleaseAll(db, pid, p.orderId).assets == if p.orderId.None? then cleared
      else ClearHolds(cleared, (h: Hold) => h.orderId == Some(p.orderId.value)) by { hide ClearHolds, KeepHolds; }
    hide ReleaseAll;
  }

  lemma ReleasedOrders(db: Db, pid: Id, orderId: Option<Id>)
    ensures var d := ReleaseAll(db, pid, orderId);
      && OrdersEnd(db.orders, d.orders, orderId, Closed)
      && d == db.(assets := d.assets, slotHolds := d.slotHolds, orders := d.orders)
  {
    hide KeepHolds, ClearHolds;
  }

  lemma SettledIsClosed(db: Db, pid: Id, status: PaymentStatus)
    requires pid in db.payments
    ensures IsClosed(db, Settle(db, pid, db.payments[pid].orderId, status), pid, status)
  {
    var p := db.payments[pid];
    var marked := SetStatus(db, pid, status);
    ReleasedHolds(marked, pid, p);
    ReleasedRows(marked, pid, p);
    ReleasedOrders(marked, pid, p.orderId);
    hide ReleaseAll, RowsEnd, HoldsEnd, OrdersEnd;
  }

  /** charge.failed closes any payment that exists; a refunded one stays refunded. */
  lemma FailedChargeCloses(db: Db, pid: Id)
    ensures var d := ChargeFailed(db, pid);
      if pid in db.payments then IsClosed(db, d, pid, if db.payments[pid].status == Refunded then Refunded else Failed)
      else d == db
  {
    if pid in db.payments {
      var status := if db.payments[pid].status == Refunded then Refunded else Failed;
      assert ChargeFailed(db, pid) == Settle(db, pid, db.payments[pid].orderId, status) by {
        assert db.payments == db.payments[pid := db.payments[pid].(status := db.payments[pid].status)];
        hide ReleaseAll;
      }
      hide *;
      SettledIsClosed(db, pid, status);
    }
  }

  /** A cancellation closes a payment that is pending, and no other. */
  lemma CancellationCloses(db: Db, pid: Id)
    ensures var d := CancelPending(db, pid);
      if pid in db.payments && db.payments[pid].status == Pending then IsClosed(db, d, pid, Failed) else d == db
  {
    hide IsClosed, Settle;
    if pid in db.payments && db.payments[pid].status == Pending { SettledIsClosed(db, pid, Failed); }
  }

  // ---- The flags of rows in a loop that stops --------------------------------------------

  /** Of the rows a bundle took before it stopped, those whose hold it has cleared. */
  function ClearedPart(start: map<AssetId, Asset>, part: set<AssetId>, rows: set<AssetId>): set<AssetId> {
    set a | a in part && (a.kind == Booth || (a in start && !start[a].taken && a !in rows))
  }

  function Booths(part: set<AssetId>): set<AssetId> {
    set a | a in part && a.kind == Booth
  }

  lemma RefusedRows(db: Db, q: Buyer, boothId: Option<Id>, kind: AssetKind, id: Option<Id>)
    ensures TakeBundleBooth(db, q, boothId).verdict != Done ==> TakeBundleBooth(db, q, boothId).db == db
    ensures TakeBundleSession(db, q, kind, id).verdict != Done ==> TakeBundleSession(db, q, kind, id).db == db
  {
    hide IsRefused, BreaksUniqueKey;
  }

  /** The flags of a part of a bundle's rows have gone, and rows outside it are as they were. */
  ghost predicate PartGoes(before: map<AssetId, Asset>, after: map<AssetId, Asset>, part: set<AssetId>) {
    && FlagsGo(before, after, Booths(part), ClearedPart(before, part, {}))
    && forall a | a in before && a !in part :: after[a] == before[a]
  }

  lemma BoothGoes(db: Db, q: Buyer, boothId: Option<Id>)
    requires TakeBundleBooth(db, q, boothId).verdict == Done
    ensures PartGoes(db.assets, TakeBundleBooth(db, q, boothId).db.assets, One(Booth, boothId))
  {
    BoothFlags(db, q, boothId);
    hide TakeBundleBooth;
  }

  lemma SessionGoes(start: map<AssetId, Asset>, db: Db, q: Buyer, part: set<AssetId>, kind: AssetKind, id: Option<Id>)
    requires PartGoes(start, db.assets, part) && TakeBundleSession(db, q, kind, id).verdict == Done
    requires kind != Booth && forall a | a in part :: a.kind != kind
    ensures PartGoes(start, TakeBundleSession(db, q, kind, id).db.assets, part + One(kind, id))
  {
    SessionFlags(db, q, kind, id);
    hide TakeBundleSession;
  }

  lemma StoppedBundleFlags(start: Db, db: Db, q: Buyer, rows: set<AssetId>, copies: multiset<SlotId>, e: BundleEntry)
    requires Progress(start, db, q, rows, copies) && ReadAtStart(start.assets, q) && q.company.Some?
    requires TakeBundle(db, q, e).verdict != Done
    ensures var part := PartRows(start, q, e, rows);
      PartGoes(db.assets, TakeBundle(db, q, e).db.assets, part)
  {
    hide RowsProgress, TakeBundleBooth, TakeBundleSession, OptionalRow, ReadAtStart, Served, Debit, PartGoes;
    NoFlagsGo(db.assets);
    NoPartGoes(db.assets);
    var r1 := TakeBundleBooth(db, q, e.boothId);
    var r2 := TakeBundleSession(r1.db, q, Masterclass, e.masterclassId);
    var r3 := TakeBundleSession(r2.db, q, Presentation, e.presentationId);
    var a1, a2, a3 := One(Booth, e.boothId), One(Masterclass, e.masterclassId), One(Presentation, e.presentationId);
    TakeBundleBoothOutcome(start, db, q, rows, e.boothId);
    RefusedRows(db, q, e.boothId, Masterclass, e.masterclassId);
    if r1.verdict == Done {
      BoothGoes(db, q, e.boothId);
      TakeBundleSessionOutcome(start, r1.db, q, rows + a1, Masterclass, e.masterclassId);
      OtherKind(start, q, Masterclass, e.masterclassId, rows, a1);
      RefusedRows(r1.db, q, e.boothId, Masterclass, e.masterclassId);
      if r2.verdict == Done {
        SessionGoes(db.assets, r1.db, q, a1, Masterclass, e.masterclassId);
        TakeBundleSessionOutcome(start, r2.db, q, rows + a1 + a2, Presentation, e.presentationId);
        OtherKind(start, q, Presentation, e.presentationId, rows, a1 + a2);
        assert rows + (a1 + a2) == rows + a1 + a2;
        RefusedRows(r2.db, q, e.boothId, Presentation, e.presentationId);
        if r3.verdict == Done {
          SessionGoes(db.assets, r2.db, q, a1 + a2, Presentation, e.presentationId);
          assert TakeBundle(db, q, e).db.assets == r3.db.assets;
        }
      }
    }
  }

  lemma NoPartGoes(assets: map<AssetId, Asset>)
    ensures PartGoes(assets, assets, {})
  {
  }

  /** A line that is not served has moved the flags of the part its bundle took, and of no other row. */
  lemma StoppedLineFlags(start: Db, db: Db, q: Buyer, bundles: seq<BundleEntry>, item: Item, rows: set<AssetId>,
                         copies: multiset<SlotId>)
    requires Progress(start, db, q, rows, copies) && ReadAtStart(start.assets, q)
    requires FulfilItem(db, q, bundles, item).verdict != Done
    ensures PartGoes(db.assets, FulfilItem(db, q, bundles, item).db.assets, StopRows(start, q, bundles, item, rows))
  {
    NoPartGoes(db.assets);
    assert db.plans == start.plans;
    var e := TriedEntry(start, q, bundles, item);
    hide Progress, PartGoes, TakeBundle, PartRows, ReadAtStart, AddSponsorship, FindEntry, BreaksUniqueKey, IsRefused;
    if e.Some? { StoppedBundleFlags(start, db, q, rows, copies, e.value); }
  }

  // ---- The flags of rows after any delivery ----------------------------------------------

  lemma PartAfterRows(start: map<AssetId, Asset>, db: map<AssetId, Asset>, q: Buyer, rows: set<AssetId>,
                      part: set<AssetId>)
    requires RowsGo(start, db, q, rows) && part <= start.Keys
    ensures ClearedPart(db, part, {}) == ClearedPart(start, part, rows)
  {
  }

  lemma StoppedLoopFlags(db: Db, q: Buyer, bundles: seq<BundleEntry>, items: seq<Item>)
    requires ReadAtStart(db.assets, q) && Consistent(db.assets)
    requires q.company.Some? ==> q.company.value in db.companies
    requires FulfilItems(db, q, bundles, items).served < |items|
    ensures var r := FulfilItems(db, q, bundles, items); var served := items[..r.served];
      var rows := ItemsAssets(served, bundles);
      var part := StopRows(db, q, bundles, items[r.served], rows);
      FlagsGo(db.assets, r.db.assets, BundleBooths(served, bundles) + Booths(part),
              Cleared(db.assets, served, bundles, {}) + ClearedPart(db.assets, part, rows))
  {
    var r := FulfilItems(db, q, bundles, items);
    var n := r.served;
    var served := items[..n];
    var rows, copies := ItemsAssets(served, bundles), ItemsSlots(served, bundles);
    var part := StopRows(db, q, bundles, items[n], rows);
    LoopStopsAt(db, q, bundles, items);
    LoopLeaves(db, q, bundles, items);
    assert ItemsAssets([], bundles) == {};
    var x := FulfilItems(db, q, bundles, served).db;
    hide FulfilItems, FulfilItem, ItemsAssets, ItemsSlots, ItemsKobo, Progress, ReadAtStart, Consistent, StopRows,
         StopSlots, FlagsGo, RowsGo, PartGoes, BundleBooths, Cleared, Debit, Copies, CompaniesMoved;
    NoProgressYet(db, q, bundles);
    LinesFlags(db, db, q, bundles, served, {}, ItemsSlots([], bundles));
    ServedLinesLeave(db, q, bundles, served);
    StoppedLineFlags(db, x, q, bundles, items[n], rows, copies);
    PartIsKnown(db.assets, r.db.assets, q, rows, part);
    PartAfterRows(db.assets, x.assets, q, rows, part);
    assert FlagsGo(x.assets, r.db.assets, Booths(part), ClearedPart(x.assets, part, {}));
    FlagsGoOn(db.assets, x.assets, r.db.assets, BundleBooths(served, bundles), Cleared(db.assets, served, bundles, {}),
              Booths(part), ClearedPart(x.assets, part, {}));
  }

  lemma PartIsKnown(before: map<AssetId, Asset>, after: map<AssetId, Asset>, q: Buyer, rows: set<AssetId>,
                    part: set<AssetId>)
    requires RowsGo(before, after, q, rows + part)
    ensures part <= before.Keys
  {
  }

  // ---- Deliveries ------------------------------------------------------------------------

  /** The rows a delivery would take of the bundle of the line that stops it. */
  function PartTaken(db: Db, pid: Id, now: int): set<AssetId>
    requires pid in db.payments
  {
    var bundles := db.payments[pid].bundles;
    var stop := StoppingLine(db, pid, now);
    if stop.None? then {}
    else StopRows(db, PaymentBuyer(db, pid, now), bundles, stop.value, ItemsAssets(LinesServed(db, pid, now), bundles))
  }

  /** The booths it would take in bundles, and so the rows that lose their reserved flag. */
  function BoothsOfBundles(db: Db, pid: Id, now: int): set<AssetId>
    requires pid in db.payments
  {
    BundleBooths(LinesServed(db, pid, now), db.payments[pid].bundles) + Booths(PartTaken(db, pid, now))
  }

  /** The rows it would take in bundles, and so lose their hold: booths, and sessions that were nobody's. */
  function ClearedRows(db: Db, pid: Id, now: int): set<AssetId>
    requires pid in db.payments
  {
    var bundles := db.payments[pid].bundles;
    var served := LinesServed(db, pid, now);
    Cleared(db.assets, served, bundles, {})
    + ClearedPart(db.assets, PartTaken(db, pid, now), ItemsAssets(served, bundles))
  }

  lemma MidFlags(db: Db, pid: Id, now: int)
    requires pid in db.payments && Consistent(db.assets)
    ensures FlagsGo(db.assets, Mid(db, pid, now).assets, BoothsOfBundles(db, pid, now), ClearedRows(db, pid, now))
  {
    var p := db.payments[pid];
    var q := PaymentBuyer(db, pid, now);
    var items := Lines(db, p);
    assert ReadAtStart(db.assets, q) && (q.company.Some? ==> q.company.value in db.companies);
    if IsMissing(db, pid, now) {
      NoFlagsGo(db.assets);
      assert BoothsOfBundles(db, pid, now) == {} && ClearedRows(db, pid, now) == {};
    } else {
      ServedIs(db, pid, now);
      DeliveryIsForeseen(db, pid, now);
      var n := ServedBefore(db, pid, now);
      assert n == |items| ==> items[..n] == items && PartTaken(db, pid, now) == {};
      assert LinesServed(db, pid, now) == items[..n];
      assert ClearedPart(db.assets, {}, ItemsAssets(items, p.bundles)) == {} && Booths({}) == {};
      hide StopRows, FulfilItems, Cleared, ClearedPart, Booths, BundleBooths, ItemsAssets, IsMissing, FlagsGo,
           ReadAtStart, Consistent, ServedBefore, StopsWith, Lines, PaymentBuyer, Mid;
      if n < |items| {
        StoppedLoopFlags(db, q, p.bundles, items);
      } else {
        CoreFlags(db, pid, now);
      }
    }
  }

  /** How a delivery will end, read off the tables before it. */
  function EndingOf(db: Db, pid: Id, now: int): Ending
    requires pid in db.payments
  {
    if IsMissing(db, pid, now) then Closed
    else match StopsWith(db, pid, now) case Done => Sold case Unavailable => GivenUp case Crashed => BrokenOff
  }

  /** From the tables after the lines to those at the end. */
  ghost predicate Concludes(mid: Db, after: Db, pid: Id, how: Ending, refundGranted: bool)
    requires pid in mid.payments
  {
    var p := mid.payments[pid];
    && after.payments == mid.payments[pid := p.(status :=
         match how
         case Closed => Failed
         case GivenUp => if refundGranted then Refunded else Failed
         case Sold => p.status
         case BrokenOff => p.status)]
    && RowsEnd(mid.assets, after.assets, p, pid, how) && HoldsEnd(mid.slotHolds, after.slotHolds, p, pid, how)
    && OrdersEnd(mid.orders, after.orders, p.orderId, how)
  }

  lemma ClosedConcludes(db: Db, after: Db, pid: Id, refundGranted: bool)
    requires pid in db.payments && IsClosed(db, after, pid, Failed)
    ensures Concludes(db, after, pid, Closed, refundGranted)
  {
    hide RowsEnd, HoldsEnd, OrdersEnd;
  }

  /** Given up is closed, with the order failed whatever it was. */
  lemma ClosedThenFailed(before: Db, closed: Db, p: Payment, pid: Id)
    requires RowsEnd(before.assets, closed.assets, p, pid, Closed)
    requires HoldsEnd(before.slotHolds, closed.slotHolds, p, pid, Closed)
    requires OrdersEnd(before.orders, closed.orders, p.orderId, Closed)
    ensures RowsEnd(before.assets, closed.assets, p, pid, GivenUp)
    ensures HoldsEnd(before.slotHolds, closed.slotHolds, p, pid, GivenUp)
    ensures p.orderId.Some? ==>
      OrdersEnd(before.orders, SetOrderStatus(closed, p.orderId.value, OrderFailed).orders, p.orderId, GivenUp)
    ensures p.orderId.None? ==> OrdersEnd(before.orders, closed.orders, p.orderId, GivenUp)
  {
    assert forall h, o ::
      LosesHold(p.kind, pid, p.orderId, Closed, h, o) == LosesHold(p.kind, pid, p.orderId, GivenUp, h, o);
    hide LosesHold;
  }

  lemma AbortConcludes(mid: Db, pid: Id, returned: multiset<SlotId>, refundGranted: bool)
    requires pid in mid.payments && WellFormed(mid.payments[pid])
    ensures Concludes(mid, Abort(mid, pid, mid.payments[pid], returned, refundGranted), pid, GivenUp, refundGranted)
  {
    var p := mid.payments[pid];
    var x := if p.kind == OrderPayment then mid.(slots := Credit(mid.slots, returned)) else mid;
    var status := if refundGranted then Refunded else Failed;
    var closed := Settle(x, pid, p.orderId, status);
    assert p.kind == OrderPayment <==> p.orderId.Some?;
    assert Abort(mid, pid, p, returned, refundGranted)
      == if p.orderId.Some? then SetOrderStatus(closed, p.orderId.value, OrderFailed) else closed by {
      hide Settle, Credit, SetOrderStatus;
    }
    SettledIsClosed(x, pid, status);
    hide Settle, Abort, Credit, RowsEnd, HoldsEnd, OrdersEnd, WellFormed;
    ClosedThenFailed(x, closed, p, pid);
  }

  lemma BrokenOffConcludes(mid: Db, pid: Id, refundGranted: bool)
    requires pid in mid.payments
    ensures Concludes(mid, mid, pid, BrokenOff, refundGranted)
  {
  }

  lemma FinishedHolds(mid: Db, pid: Id, p: Payment)
    requires WellFormed(p)
    ensures HoldsEnd(mid.slotHolds, Finish(mid, pid, p).slotHolds, p, pid, Sold)
  {
    hide KeepHolds, ClearHolds, IsFor;
    if p.kind == OrderPayment {
      KeptCounts(mid.slotHolds, (h: SlotHold) => h.orderId == Some(p.orderId.value));
    } else if p.kind == PlanPayment {
      KeptCounts(mid.slotHolds, (h: SlotHold) => h.paymentId == Some(pid));
    }
  }

  lemma FinishedRows(mid: Db, pid: Id, p: Payment)
    requires WellFormed(p)
    ensures RowsEnd(mid.assets, Finish(mid, pid, p).assets, p, pid, Sold)
  {
    FinishFlags(mid, pid, p);
    hide Finish;
  }

  lemma FinishedOrders(mid: Db, pid: Id, p: Payment)
    requires WellFormed(p)
    ensures var d := Finish(mid, pid, p); OrdersEnd(mid.orders, d.orders, p.orderId, Sold) && d.payments == mid.payments
  {
    var d := Finish(mid, pid, p);
    assert p.orderId.Some? <==> p.kind == OrderPayment;
    assert d.payments == mid.payments && d.orders == if p.orderId.Some? && p.orderId.value in mid.orders
      then mid.orders[p.orderId.value := mid.orders[p.orderId.value].(status := Paid)] else mid.orders by {
      hide ClearHolds, KeepHolds;
    }
    hide Finish, WellFormed;
  }

  lemma FinishConcludes(mid: Db, pid: Id, refundGranted: bool)
    requires pid in mid.payments && WellFormed(mid.payments[pid])
    ensures Concludes(mid, Finish(mid, pid, mid.payments[pid]), pid, Sold, refundGranted)
  {
    var p := mid.payments[pid];
    FinishedRows(mid, pid, p);
    FinishedHolds(mid, pid, p);
    FinishedOrders(mid, pid, p);
    assert mid.payments == mid.payments[pid := p.(status := p.status)];
    hide Finish, RowsEnd, HoldsEnd, OrdersEnd;
  }

  lemma DeliveryConcludes(db: Db, pid: Id, refundGranted: bool, now: int)
    requires pid in db.payments && WellFormed(db.payments[pid])
    ensures var mid := Mid(db, pid, now);
      && pid in mid.payments
      && Concludes(mid, ApplySuccess(db, pid, refundGranted, now), pid, EndingOf(db, pid, now), refundGranted)
  {
    var mid := Mid(db, pid, now);
    DeliveredIs(db, pid, refundGranted, now);
    DeliveryIsForeseen(db, pid, now);
    assert mid.payments == db.payments;
    hide ApplySuccess, Mid, IsMissing, Core, Returned, StatusAfter, Settle, Finish, Abort, Concludes, WellFormed,
         StopsWith, ServedBefore;
    SettledIsClosed(db, pid, Failed);
    ClosedConcludes(db, Settle(db, pid, db.payments[pid].orderId, Failed), pid, refundGranted);
    AbortConcludes(mid, pid, Returned(db, pid, now), refundGranted);
    FinishConcludes(mid, pid, refundGranted);
    BrokenOffConcludes(mid, pid, refundGranted);
  }

  /** Every column of the payments, orders, slot holds and row flags after a delivery. */
  ghost predicate IsEnded(before: Db, after: Db, pid: Id, how: Ending, refundGranted: bool, booths: set<AssetId>,
                          cleared: set<AssetId>)
    requires pid in before.payments
  {
    var p := before.payments[pid];
    && after.payments == before.payments[pid := p.(status :=
         match how
         case Closed => Failed
         case GivenUp => if refundGranted then Refunded else Failed
         case Sold => Success
         case BrokenOff => Success)]
    && OrdersEnd(before.orders, after.orders, p.orderId, how)
    && HoldsEnd(before.slotHolds, after.slotHolds, p, pid, how)
    && FlagsEnd(before.assets, after.assets, p, pid, how, booths, cleared)
  }

  /** The rows of `cleared` and those the ending releases lose their hold; `booths` are not reserved any more. */
  ghost predicate FlagsEnd(before: map<AssetId, Asset>, after: map<AssetId, Asset>, p: Payment, pid: Id, how: Ending,
                           booths: set<AssetId>, cleared: set<AssetId>) {
    && after.Keys == before.Keys
    && (forall a | a in before ::
          after[a].hold == if a in cleared
              || LosesHold(p.kind, pid, p.orderId, how, before[a].hold.paymentId, before[a].hold.orderId)
            then Hold(None, None, None) else before[a].hold)
    && (forall a | a in before :: after[a].reserved == (before[a].reserved && a !in booths))
  }

  lemma FlagsThenEnd(x: map<AssetId, Asset>, y: map<AssetId, Asset>, z: map<AssetId, Asset>, p: Payment, pid: Id,
                     how: Ending, booths: set<AssetId>, cleared: set<AssetId>)
    requires FlagsGo(x, y, booths, cleared) && RowsEnd(y, z, p, pid, how)
    ensures FlagsEnd(x, z, p, pid, how, booths, cleared)
  {
    hide LosesHold;
  }

  /** Marking the payment changes nothing of the part of a bundle that would be taken. */
  lemma PartIsAlike(db: Db, pid: Id, now: int)
    requires pid in db.payments
    ensures var marked := SetStatus(db, pid, Success);
      StoppingLine(marked, pid, now) == StoppingLine(db, pid, now)
        && PartTaken(marked, pid, now) == PartTaken(db, pid, now)
  {
    var marked := SetStatus(db, pid, Success);
    MarkedIsAlike(db, pid, now);
    MarkedLeaves(db, pid, now);
    assert marked.assets == db.assets && marked.slots == db.slots && marked.plans == db.plans;
    assert marked.payments[pid].bundles == db.payments[pid].bundles;
    var stop := StoppingLine(db, pid, now);
    var rows := ItemsAssets(LinesServed(db, pid, now), db.payments[pid].bundles);
    hide StopRows, StopSlots, ItemsAssets, ItemsSlots, ServedBefore, StopsWith, IsMissing, Lines, PaymentBuyer,
         SetStatus, LinesServed;
    if stop.Some? {
      StopAlike(marked, db, PaymentBuyer(db, pid, now), db.payments[pid].bundles, stop.value, rows, multiset{});
    }
  }

  lemma MarkedEnds(db: Db, pid: Id, now: int)
    requires pid in db.payments
    ensures var marked := SetStatus(db, pid, Success);
      && EndingOf(marked, pid, now) == EndingOf(db, pid, now)
      && BoothsOfBundles(marked, pid, now) == BoothsOfBundles(db, pid, now)
      && ClearedRows(marked, pid, now) == ClearedRows(db, pid, now)
  {
    var marked := SetStatus(db, pid, Success);
    MarkedIsAlike(db, pid, now);
    MarkedLeaves(db, pid, now);
    PartIsAlike(db, pid, now);
    assert marked.assets == db.assets && marked.payments[pid].bundles == db.payments[pid].bundles;
    hide PartTaken, StopsWith, IsMissing, SetStatus, LinesServed, Cleared, ClearedPart, BundleBooths, ItemsAssets;
  }

  lemma SameEnds(p: Payment, q: Payment, pid: Id, how: Ending)
    requires p.kind == q.kind && p.orderId == q.orderId
    ensures forall x, y :: RowsEnd(x, y, p, pid, how) == RowsEnd(x, y, q, pid, how)
    ensures forall x, y :: HoldsEnd(x, y, p, pid, how) == HoldsEnd(x, y, q, pid, how)
  {
    hide LosesHold;
  }

  lemma DeliveredTables(db: Db, marked: Db, mid: Db, d: Db, pid: Id, how: Ending, refundGranted: bool,
                        booths: set<AssetId>, cleared: set<AssetId>)
    requires pid in db.payments && marked == SetStatus(db, pid, Success)
    requires mid.payments == marked.payments && mid.orders == marked.orders && mid.slotHolds == marked.slotHolds
    requires FlagsGo(marked.assets, mid.assets, booths, cleared) && Concludes(mid, d, pid, how, refundGranted)
    ensures IsEnded(db, d, pid, how, refundGranted, booths, cleared)
  {
    hide RowsEnd, HoldsEnd, OrdersEnd, FlagsGo, FlagsEnd;
    SameEnds(db.payments[pid], mid.payments[pid], pid, how);
    FlagsThenEnd(db.assets, mid.assets, d.assets, db.payments[pid], pid, how, booths, cleared);
  }

  /**
   * A delivery of any kind of payment: the statuses it ends with, the row and slot holds that are gone and the reserved
   * flags, all read off the tables before it. A closed payment is not delivered again.
   */
  lemma DeliveryEnds(db: Db, pid: Id, refundGranted: bool, now: int)
    requires pid in db.payments && WellFormed(db.payments[pid]) && Consistent(db.assets)
    ensures var p := db.payments[pid]; var d := ChargeSuccess(db, pid, refundGranted, now);
      && (p.status == Pending || p.status == Failed ==>
            IsEnded(db, d, pid, EndingOf(db, pid, now), refundGranted, BoothsOfBundles(db, pid, now),
                    ClearedRows(db, pid, now)))
      && (p.status == Success || p.status == Refunded ==> d == db)
      && AdminVerify(db, pid, refundGranted, now) == if p.manual && p.status == Pending then d else db
  {
    var marked := SetStatus(db, pid, Success);
    var d := ApplySuccess(marked, pid, refundGranted, now);
    assert WellFormed(marked.payments[pid]) && marked.assets == db.assets;
    assert ChargeSuccess(db, pid, refundGranted, now) == if db.payments[pid].status == Success
      || db.payments[pid].status == Refunded then db else d by { hide ApplySuccess; }
    assert AdminVerify(db, pid, refundGranted, now) == if db.payments[pid].manual && db.payments[pid].status == Pending
      then d else db by { hide ApplySuccess; }
    hide *;
    DeliveryConcludes(marked, pid, refundGranted, now);
    MidFlags(marked, pid, now);
    MidRows(marked, pid, now);
    MarkedEnds(db, pid, now);
    DeliveredTables(db, marked, Mid(marked, pid, now), d, pid, EndingOf(db, pid, now), refundGranted,
                    BoothsOfBundles(db, pid, now), ClearedRows(db, pid, now));
  }
}
