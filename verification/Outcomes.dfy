/** How a delivery ends, in the statuses of the payment and of its order. */
module Outcomes {
  import opened Common
  import opened CheckoutHold
  import opened Tables
  import opened Inventory
  import opened Fulfilment
  import opened Effects
  import opened Charges
  import opened RefundUndo
  import opened BundleResolution
  import opened Machine
  import opened Resolutions
  import opened SlotConservation
  import opened Obstacles
  import opened BoothClash

  function OrderStatusOf(db: Db, oid: Id): Option<OrderStatus> {
    if oid in db.orders then Some(db.orders[oid].status) else None
  }

  function StatusOf(db: Db, pid: Id): Option<PaymentStatus> {
    if pid in db.payments then Some(db.payments[pid].status) else None
  }

  lemma SettledStatuses(db: Db, pid: Id, oid: Id, status: PaymentStatus)
    requires pid in db.payments && oid in db.orders
    ensures var d := Settle(db, pid, Some(oid), status);
      && StatusOf(d, pid) == Some(status)
      && var was := db.orders[oid].status;
      OrderStatusOf(d, oid) == Some(if was == PendingPayment then OrderFailed else was)
  {
    hide ClearHolds, KeepHolds;
  }

  lemma AbortedStatuses(db: Db, pid: Id, oid: Id, returned: multiset<SlotId>, refundGranted: bool)
    requires pid in db.payments && oid in db.orders
    ensures var d := AbortOrder(db, pid, oid, returned, refundGranted);
      && StatusOf(d, pid) == Some(if refundGranted then Refunded else Failed)
      && OrderStatusOf(d, oid) == Some(OrderFailed)
  {
    var compensated := db.(slots := Credit(db.slots, returned));
    SettledStatuses(compensated, pid, oid, RefundStatus(refundGranted));
    hide Settle, Credit;
  }

  lemma PaidStatuses(db: Db, pid: Id, oid: Id)
    requires pid in db.payments && oid in db.orders
    ensures var d := SetOrderStatus(ReleaseForOrder(db, oid), oid, Paid);
      StatusOf(d, pid) == StatusOf(db, pid) && OrderStatusOf(d, oid) == Some(Paid)
  {
    hide ClearHolds, KeepHolds;
  }

  /**
   * How an order ends: paid and successful exactly when every line was served; with the order failed when a line was
   * not, and then refunded exactly when something was there to sell and the refund was granted; and, when a second
   * booth broke the unique key, successful with the order as it was.
   */
  lemma OrderDeliveryEnds(db: Db, pid: Id, refundGranted: bool, now: int)
    requires pid in db.payments && db.payments[pid].kind == OrderPayment && db.payments[pid].orderId.Some?
    requires db.payments[pid].orderId.value in db.orders
        && db.orders[db.payments[pid].orderId.value].status == PendingPayment
    requires db.payments[pid].status == Pending || db.payments[pid].status == Failed
    ensures var oid := db.payments[pid].orderId.value; var d := ChargeSuccess(db, pid, refundGranted, now);
      && (Fulfils(db, pid, now) <==> OrderStatusOf(d, oid) == Some(Paid))
      && (Fulfils(db, pid, now) || Crashes(db, pid, now) <==> StatusOf(d, pid) == Some(Success))
      && (Crashes(db, pid, now) <==> OrderStatusOf(d, oid) == Some(PendingPayment))
      && (!Fulfils(db, pid, now) && !Crashes(db, pid, now) ==>
            && OrderStatusOf(d, oid) == Some(OrderFailed)
            && StatusOf(d, pid) == Some(if refundGranted && !IsMissing(db, pid, now) then Refunded else Failed))
  {
    var marked := SetStatus(db, pid, Success);
    var oid := db.payments[pid].orderId.value;
    var mid := Mid(marked, pid, now);
    var d := ApplySuccess(marked, pid, refundGranted, now);
    OutcomeIsForeseen(db, pid, now);
    MarkedIsAlike(db, pid, now);
    assert WellFormed(marked.payments[pid]) && marked.orders == db.orders && StatusOf(marked, pid) == Some(Success);
    assert marked.payments[pid].orderId == Some(oid) && marked.payments[pid].kind == OrderPayment;
    assert d == ChargeSuccess(db, pid, refundGranted, now);
    assert Fulfils(db, pid, now) <==> !IsMissing(marked, pid, now) && Core(marked, pid, now).verdict == Done;
    DeliveredIs(marked, pid, refundGranted, now);
    MidRows(marked, pid, now);
    assert OrderStatusOf(mid, oid) == Some(PendingPayment) && StatusOf(mid, pid) == Some(Success);
    hide Mid, IsMissing, Core, ApplySuccess, ChargeSuccess, Settle, ReleaseForOrder, SetOrderStatus, AbortOrder,
         Returned, StatusAfter, WellFormed, Fulfils, Crashes, SetStatus, StopsWith, ServedBefore, Lines, PaymentBuyer,
         ServedLines;
    SettledStatuses(marked, pid, oid, Failed);
    AbortedStatuses(mid, pid, oid, Returned(marked, pid, now), refundGranted);
    PaidStatuses(mid, pid, oid);
  }

  // ---- Orders of stand-alone lines -------------------------------------------------------

  /** The row of this line is free and nothing speaks against selling it to the buyer. */
  predicate RowIsReady(db: Db, q: Buyer, item: Item) {
    item.AssetItem? ==>
      && item.assetId.Some? && Party(q, item.asset).Some?
      && var a := AssetId(item.asset, item.assetId.value);
      && a in db.assets && !db.assets[a].taken && !db.assets[a].reserved && IsForSale(a, db.assets[a])
      && !IsBlockedByOther(db.assets[a].hold, q.exclude, q.now)
      && (a.kind == Booth ==> q.ownBooths == {})
  }

  predicate StandAlone(q: Buyer, items: seq<Item>) {
    forall i | 0 <= i < |items| ::
      !items[i].PlanItem? && (items[i].SlotItem? ==> items[i].slotId.Some? && q.company.Some?)
  }

  /** Every slot wanted exists, is not reserved and has the copies that are wanted. */
  predicate CopiesAreLeft(slots: map<SlotId, Slot>, wanted: multiset<SlotId>) {
    forall s | s in wanted :: s in slots && !slots[s].reserved && wanted[s] <= slots[s].available
  }

  /** Stand-alone lines for free rows and for slots with enough copies left, whatever their number and order. */
  predicate IsReady(db: Db, q: Buyer, items: seq<Item>) {
    && StandAlone(q, items) && CopiesAreLeft(db.slots, SlotLines(items))
    && forall i | 0 <= i < |items| :: RowIsReady(db, q, items[i])
  }

  lemma {:induction false} StandAloneCopies(q: Buyer, bundles: seq<BundleEntry>, items: seq<Item>)
    requires StandAlone(q, items)
    ensures ItemsSlots(items, bundles) == SlotLines(items)
    decreases items
  {
    if items != [] {
      assert forall i | 0 <= i < |items[1..]| :: items[1..][i] == items[i + 1];
      StandAloneCopies(q, bundles, items[1..]);
    }
  }

  lemma CopiesBefore(db: Db, q: Buyer, bundles: seq<BundleEntry>, items: seq<Item>, i: nat)
    requires StandAlone(q, items) && i < |items| && items[i].SlotItem?
    ensures items[i].slotId.Some?
    ensures var s := SlotId(items[i].slot, items[i].slotId.value);
      ItemsSlots(items[..i], bundles)[s] + 1 <= SlotLines(items)[s]
  {
    var s := SlotId(items[i].slot, items[i].slotId.value);
    StandAloneCopies(q, bundles, items);
    assert ItemSlots(items[i], bundles) == multiset{s};
    hide ItemsSlots, SlotLines, ItemsAssets, ItemSlots, StandAlone;
    FootprintGrows(items, bundles, i);
    PrefixFootprint(items, bundles, i + 1, |items|);
    assert items[..|items|] == items;
  }

  lemma ReadySlotIsLeft(slots: map<SlotId, Slot>, wanted: multiset<SlotId>, s: SlotId, before: multiset<SlotId>)
    requires CopiesAreLeft(slots, wanted) && before[s] + 1 <= wanted[s]
    ensures SlotsAreLeft(slots, [s], before)
  {
    assert s in wanted;
    assert [s][..0] == [];
  }

  lemma ReadyRowIsNotUnavailable(db: Db, q: Buyer, item: Item, rows: set<AssetId>)
    requires item.AssetItem? && RowIsReady(db, q, item)
    ensures RowOutcome(db, q, AssetId(item.asset, item.assetId.value), rows, false) != Unavailable
  {
    hide IsBlockedByOther;
  }

  lemma ReadyLineIsNotUnavailable(db: Db, q: Buyer, bundles: seq<BundleEntry>, items: seq<Item>, i: nat)
    requires IsReady(db, q, items) && i < |items|
    ensures OutcomeAt(db, q, bundles, items, i) != Unavailable
  {
    var item := items[i];
    var rows, before := ItemsAssets(items[..i], bundles), ItemsSlots(items[..i], bundles);
    assert StandAlone(q, items) && CopiesAreLeft(db.slots, SlotLines(items)) && RowIsReady(db, q, item);
    assert !item.PlanItem? && (item.SlotItem? ==> q.company.Some? && item.slotId.Some?);
    assert item.AssetItem? ==> item.assetId.Some? && Party(q, item.asset).Some?;
    hide IsReady, ItemsSlots, SlotLines, ItemsAssets, StandAlone, CopiesAreLeft, RowIsReady, RowOutcome, SlotsAreLeft;
    if item.SlotItem? {
      CopiesBefore(db, q, bundles, items, i);
      ReadySlotIsLeft(db.slots, SlotLines(items), SlotId(item.slot, item.slotId.value), before);
    } else {
      ReadyRowIsNotUnavailable(db, q, item, rows);
    }
  }

  /** Stand-alone lines stand for one booth exactly when their booth lines are one and the same. */
  lemma BoothLinesAreRows(db: Db, q: Buyer, bundles: seq<BundleEntry>, items: seq<Item>)
    requires IsReady(db, q, items)
    ensures OneBooth(ItemsAssets(items, bundles)) <==> OneBoothLine(items)
  {
    hide ItemsAssets, CopiesAreLeft, IsBlockedByOther;
    if OneBoothLine(items) {
      forall a, b | a in ItemsAssets(items, bundles) && b in ItemsAssets(items, bundles) && a.kind == Booth
        && b.kind == Booth
        ensures a == b
      {
        var i := RowOfALine(items, bundles, a);
        var j := RowOfALine(items, bundles, b);
        assert RowIsReady(db, q, items[i]) && RowIsReady(db, q, items[j]);
      }
    }
    if OneBooth(ItemsAssets(items, bundles)) {
      forall i, j | 0 <= i < |items| && 0 <= j < |items| && items[i].AssetItem? && items[i].asset == Booth
                    && items[j].AssetItem? && items[j].asset == Booth
        ensures items[i] == items[j]
      {
        assert RowIsReady(db, q, items[i]) && RowIsReady(db, q, items[j]);
        LineIsAmongRows(items, bundles, i, AssetId(Booth, items[i].assetId.value));
        LineIsAmongRows(items, bundles, j, AssetId(Booth, items[j].assetId.value));
      }
    }
  }

  lemma {:induction false} LineIsAmongRows(items: seq<Item>, bundles: seq<BundleEntry>, i: nat, a: AssetId)
    requires i < |items| && a in ItemAssets(items[i], bundles)
    ensures a in ItemsAssets(items, bundles)
    decreases items
  {
    hide ItemAssets;
    if i > 0 { LineIsAmongRows(items[1..], bundles, i - 1, a); }
  }

  lemma ReadyPrefix(db: Db, q: Buyer, items: seq<Item>, n: nat)
    requires IsReady(db, q, items) && n <= |items|
    ensures IsReady(db, q, items[..n])
  {
    hide RowIsReady;
    assert StandAlone(q, items[..n]);
    StandAloneCopies(q, [], items);
    StandAloneCopies(q, [], items[..n]);
    PrefixFootprint(items, [], n, |items|);
    assert items[..|items|] == items;
    hide ItemsSlots, ItemsAssets, SlotLines;
  }

  /**
   * A delivery of stand-alone lines that are all ready is fulfilled if and only if its booth lines are one and the
   * same; otherwise it breaks the unique key, and the lines not served begin at the second booth.
   */
  lemma ReadyOrderEnds(db: Db, pid: Id, now: int)
    requires pid in db.payments && (db.payments[pid].status == Pending || db.payments[pid].status == Failed)
    requires !IsMissing(db, pid, now) && IsReady(db, PaymentBuyer(db, pid, now), Lines(db, db.payments[pid]))
    ensures var items := Lines(db, db.payments[pid]); var n := ServedBefore(db, pid, now);
      && (Fulfils(db, pid, now) <==> OneBoothLine(items))
      && (Crashes(db, pid, now) <==> !OneBoothLine(items))
      && (Crashes(db, pid, now) ==> n < |items| && OneBoothLine(items[..n]) && !OneBoothLine(items[..n + 1]))
  {
    var p := db.payments[pid];
    var q := PaymentBuyer(db, pid, now);
    var items := Lines(db, p);
    var n := ServedBefore(db, pid, now);
    forall k | 0 <= k < |items| ensures OutcomeAt(db, q, p.bundles, items, k) != Unavailable {
      ReadyLineIsNotUnavailable(db, q, p.bundles, items, k);
    }
    CrashesExactlyOnTwoBooths(db, pid, now);
    BoothLinesAreRows(db, q, p.bundles, items);
    hide IsReady, OneBooth, OneBoothLine, Crashes, Fulfils, ServedBefore, ItemsAssets, OutcomeAt, IsMissing, Lines,
         PaymentBuyer;
    if Crashes(db, pid, now) {
      ReadyPrefix(db, q, items, n);
      ReadyPrefix(db, q, items, n + 1);
      BoothLinesAreRows(db, q, p.bundles, items[..n]);
      BoothLinesAreRows(db, q, p.bundles, items[..n + 1]);
    }
  }

  // ---- Holds -----------------------------------------------------------------------------

  /** A checkout's hold blocks every other checkout, and only until it expires. */
  lemma HoldBlocksOthersOnly(t: Target, u: Target, expiresAt: int, now: int)
    ensures IsBlockedByOther(TargetHold(t, expiresAt), TargetExclude(u), now) <==> t != u && now < expiresAt
  {
  }

  /** The rows named by a cart's lines. */
  function LineRows(items: seq<Item>): set<AssetId> {
    if items == [] then {}
    else (if items[0].AssetItem? && items[0].assetId.Some? then {AssetId(items[0].asset, items[0].assetId.value)}
        else {}) + LineRows(items[1..])
  }

  lemma PutHoldAt(db: Db, x: AssetId, hold: Hold, a: AssetId)
    requires x in db.assets
    ensures var d := PutHold(db, x, hold);
      && d.assets.Keys == db.assets.Keys
      && (a in db.assets ==> d.assets[a] == if a == x then db.assets[a].(hold := hold) else db.assets[a])
  {
  }

  /** Placing a cart's holds succeeds exactly when its rows exist, and writes exactly them, whoever held them before. */
  lemma {:induction false} CartHoldsItsRows(db: Db, items: seq<Item>, hold: Hold)
    ensures var r := PlaceHolds(db, items, hold);
      && (r.Some? <==> LineRows(items) <= db.assets.Keys)
      && (r.Some? ==>
            r.value.assets.Keys == db.assets.Keys
            && forall a | a in db.assets :: r.value.assets[a] == if a in LineRows(items)
                then db.assets[a].(hold := hold) else db.assets[a])
    decreases items
  {
    if items != [] {
      if items[0].AssetItem? && items[0].assetId.Some? {
        var x := AssetId(items[0].asset, items[0].assetId.value);
        if x in db.assets {
          CartHoldsItsRows(PutHold(db, x, hold), items[1..], hold);
          forall a { PutHoldAt(db, x, hold, a); }
          hide PutHold;
        }
      } else {
        CartHoldsItsRows(db, items[1..], hold);
      }
    }
  }

  // ---- Resizing a slot -------------------------------------------------------------------

  /** A new total is taken when it is positive and covers the copies out, and the copies out stay out. */
  lemma ResizingKeepsCopiesOut(db: Db, s: SlotId, newTotal: int)
    requires s in db.slots
    ensures var d := SetTotalSlots(db, s, newTotal); var out := db.slots[s].total - db.slots[s].available;
      && s in d.slots && d.slots[s].total - d.slots[s].available == out
      && (d.slots[s].total == newTotal <==> (newTotal >= 1 && newTotal >= out) || newTotal == db.slots[s].total)
      && (forall x | x in db.slots && x != s :: x in d.slots && d.slots[x] == db.slots[x])
      && (out <= db.slots[s].total ==> d.slots[s].available >= 0)
  {
  }
}
