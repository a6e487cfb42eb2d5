/**
 * Every payment read as a list of lines: a single-item payment is an order of one line. `ApplyShape` ties the
 * handlers, kind by kind, to that reading; the other lemmas say what a delivery does to each table.
 */
module Charges {
  import opened Common
  import opened CheckoutHold
  import opened Tables
  import opened Inventory
  import opened Fulfilment
  import opened Effects

  /** What the checkout and initialize handlers store. */
  predicate WellFormed(p: Payment) {
    match p.kind
    case OrderPayment => p.orderId.Some?
    case AssetPayment(_) => p.targetId.Some? && p.orderId.None? && p.bundles == []
    case SlotPayment(_) => p.targetId.Some? && p.orderId.None? && p.bundles == []
    case PlanPayment =>
      p.targetId.Some? && p.orderId.None? && |p.bundles| == 1 && p.bundles[0].planId == p.targetId.value
  }

  function Lines(db: Db, p: Payment): seq<Item> {
    match p.kind
    case OrderPayment =>
      if p.orderId.Some? && p.orderId.value in db.orders then db.orders[p.orderId.value].items else []
    case AssetPayment(kind) => [AssetItem(kind, p.targetId)]
    case SlotPayment(kind) => [SlotItem(kind, p.targetId)]
    case PlanPayment => [PlanItem(p.targetId, p.baseAmount, 1)]
  }

  /** The company that fulfilment acts for: the order's, or the payment's when there is no order. */
  function ActingCompany(db: Db, p: Payment): Option<Id> {
    if p.kind == OrderPayment && p.orderId.Some? && p.orderId.value in db.orders
    then db.orders[p.orderId.value].companyId else p.companyId
  }

  function PaymentBuyer(db: Db, pid: Id, now: int): Buyer
    requires pid in db.payments
  {
    var p := db.payments[pid];
    BuyerOf(db, ActingCompany(db, p), p.userId,
            if p.kind == OrderPayment then Exclude(p.orderId, None) else Exclude(p.orderId, Some(pid)), now)
  }

  /** The guards that end in markPaymentFailed: something the payment points at is gone. */
  predicate IsMissing(db: Db, pid: Id, now: int)
    requires pid in db.payments
  {
    var p := db.payments[pid];
    var q := PaymentBuyer(db, pid, now);
    match p.kind
    case OrderPayment =>
      || p.orderId.None? || p.orderId.value !in db.orders
      || (NeedsCompany(db.orders[p.orderId.value].items) && q.company.None?)
    case AssetPayment(kind) =>
      p.targetId.None? || AssetId(kind, p.targetId.value) !in db.assets || Party(q, kind).None?
    case SlotPayment(kind) => p.targetId.None? || SlotId(kind, p.targetId.value) !in db.slots || q.company.None?
    case PlanPayment => p.targetId.None? || p.targetId.value !in db.plans || q.company.None?
  }

  function Core(db: Db, pid: Id, now: int): LinesOutcome
    requires pid in db.payments
  {
    var p := db.payments[pid];
    FulfilItems(db, PaymentBuyer(db, pid, now), p.bundles, Lines(db, p))
  }

  /** What follows when every line was fulfilled. */
  function Finish(db: Db, pid: Id, p: Payment): Db {
    if p.kind == OrderPayment && p.orderId.Some? then
      SetOrderStatus(ReleaseForOrder(db, p.orderId.value), p.orderId.value, Paid)
    else if p.kind == PlanPayment then ReleaseForPayment(db, pid)
    else db
  }

  /** What follows when a line was unavailable. */
  function Abort(db: Db, pid: Id, p: Payment, returned: multiset<SlotId>, refundGranted: bool): Db {
    if p.kind == OrderPayment && p.orderId.Some? then AbortOrder(db, pid, p.orderId.value, returned, refundGranted)
    else Settle(db, pid, p.orderId, RefundStatus(refundGranted))
  }

  function Delivered(db: Db, pid: Id, refundGranted: bool, now: int): Db
    requires pid in db.payments
  {
    var p := db.payments[pid];
    if IsMissing(db, pid, now) then Settle(db, pid, p.orderId, Failed)
    else
      var r := Core(db, pid, now);
      match r.verdict
      case Done => Finish(r.db, pid, p)
      case Unavailable => Abort(r.db, pid, p, SlotLines(Lines(db, p)[..r.served]), refundGranted)
      case Crashed => r.db
  }

  /** One reading for every kind of payment: check, fulfil the lines in order, then finish, abort or crash. */
  lemma ApplyShape(db: Db, pid: Id, refundGranted: bool, now: int)
    requires pid in db.payments && WellFormed(db.payments[pid])
    ensures ApplySuccess(db, pid, refundGranted, now) == Delivered(db, pid, refundGranted, now)
  {
    hide TakeLine, TakeSlotCopy, BuyPlan, Settle, OwnBooths;
    var p := db.payments[pid];
    var q := PaymentBuyer(db, pid, now);
    var items := Lines(db, p);
    if !p.kind.OrderPayment? && !IsMissing(db, pid, now) {
      var first := FulfilItem(db, q, p.bundles, items[0]);
      assert items[1..] == [];
      assert FulfilItems(first.db, q, p.bundles, items[1..]) == LinesOutcome(first.db, Done, 0);
      if p.kind.PlanPayment? { assert FindEntry(p.bundles, p.targetId.value) == Some(p.bundles[0]); }
    }
  }

  // ---- Effect on each table --------------------------------------------------------------

  predicate MayRelease(h: Hold, pid: Id, orderId: Option<Id>) {
    h.paymentId == Some(pid) || (orderId.Some? && h.orderId == orderId)
  }

  /** Rows keep everything but, at most, a hold of this payment or of its order. */
  ghost predicate Released(before: map<AssetId, Asset>, after: map<AssetId, Asset>, pid: Id, orderId: Option<Id>) {
    && after.Keys == before.Keys
    && forall a | a in before ::
         after[a] == before[a]
         || (after[a] == before[a].(hold := NO_HOLD) && MayRelease(before[a].hold, pid, orderId))
  }

  ghost predicate OrdersKeep(before: map<Id, Order>, after: map<Id, Order>) {
    && after.Keys == before.Keys
    && forall o | o in before :: after[o] == before[o].(status := after[o].status)
  }

  /** Nothing moved but holds of this checkout, the status of the payment and the status of orders. */
  ghost predicate Tidied(before: Db, after: Db, pid: Id, status: PaymentStatus)
    requires pid in before.payments
  {
    && after.plans == before.plans && after.companies == before.companies && after.assignments == before.assignments
    && after.payments == before.payments[pid := before.payments[pid].(status := status)]
    && OrdersKeep(before.orders, after.orders)
    && Released(before.assets, after.assets, pid, before.payments[pid].orderId)
  }

  lemma ReleaseForPaymentEffect(db: Db, pid: Id, orderId: Option<Id>)
    ensures var d := ReleaseForPayment(db, pid);
      Released(db.assets, d.assets, pid, orderId) && d == db.(assets := d.assets, slotHolds := d.slotHolds)
  {
  }

  lemma ReleaseForOrderEffect(db: Db, oid: Id, pid: Id)
    ensures var d := ReleaseForOrder(db, oid);
      Released(db.assets, d.assets, pid, Some(oid)) && d == db.(assets := d.assets, slotHolds := d.slotHolds)
  {
  }

  lemma ReleasedCompose(a: map<AssetId, Asset>, b: map<AssetId, Asset>, c: map<AssetId, Asset>, pid: Id,
                        orderId: Option<Id>)
    requires Released(a, b, pid, orderId) && Released(b, c, pid, orderId)
    ensures Released(a, c, pid, orderId)
  {
    forall x | x in a
      ensures c[x] == a[x] || (c[x] == a[x].(hold := NO_HOLD) && MayRelease(a[x].hold, pid, orderId))
    {
      assert x in b;
    }
  }

  lemma NothingTidied(db: Db, pid: Id)
    requires pid in db.payments
    ensures Tidied(db, db, pid, db.payments[pid].status)
  {
    assert db.payments == db.payments[pid := db.payments[pid].(status := db.payments[pid].status)];
  }

  lemma OrderStatusTidies(before: Db, db: Db, pid: Id, status: PaymentStatus, oid: Id, orderStatus: OrderStatus)
    requires pid in before.payments && Tidied(before, db, pid, status)
    ensures Tidied(before, SetOrderStatus(db, oid, orderStatus), pid, status)
    ensures Tidied(before, FailPendingOrder(db, oid), pid, status)
  {
    hide Released;
  }

  lemma ReleaseAllTidies(db: Db, pid: Id)
    requires pid in db.payments
    ensures var p := db.payments[pid]; var d := ReleaseAll(db, pid, p.orderId);
      Tidied(db, d, pid, p.status) && d.slots == db.slots
  {
    var p := db.payments[pid];
    var d1 := ReleaseForPayment(db, pid);
    ReleaseForPaymentEffect(db, pid, p.orderId);
    NothingTidied(db, pid);
    if p.orderId.Some? {
      var d2 := ReleaseForOrder(d1, p.orderId.value);
      ReleaseForOrderEffect(d1, p.orderId.value, pid);
      ReleasedCompose(db.assets, d1.assets, d2.assets, pid, p.orderId);
      hide Released, ReleaseForPayment, ReleaseForOrder;
      OrderStatusTidies(db, d2, pid, p.status, p.orderId.value, OrderFailed);
    }
  }

  lemma SettleTidies(db: Db, pid: Id, status: PaymentStatus)
    requires pid in db.payments
    ensures var d := Settle(db, pid, db.payments[pid].orderId, status);
        Tidied(db, d, pid, status) && d.slots == db.slots
  {
    hide ReleaseAll;
    ReleaseAllTidies(SetStatus(db, pid, status), pid);
  }

  lemma FinishTidies(db: Db, pid: Id)
    requires pid in db.payments
    ensures var d := Finish(db, pid, db.payments[pid]);
        Tidied(db, d, pid, db.payments[pid].status) && d.slots == db.slots
  {
    hide Released, ReleaseForPayment, ReleaseForOrder;
    var p := db.payments[pid];
    NothingTidied(db, pid);
    ReleaseForPaymentEffect(db, pid, p.orderId);
    if p.kind == OrderPayment && p.orderId.Some? {
      ReleaseForOrderEffect(db, p.orderId.value, pid);
      OrderStatusTidies(db, ReleaseForOrder(db, p.orderId.value), pid, p.status, p.orderId.value, Paid);
    }
  }

  lemma AbortTidies(db: Db, pid: Id, returned: multiset<SlotId>, refundGranted: bool)
    requires pid in db.payments
    ensures var d := Abort(db, pid, db.payments[pid], returned, refundGranted);
      && Tidied(db, d, pid, RefundStatus(refundGranted))
      && d.slots == (if db.payments[pid].kind == OrderPayment && db.payments[pid].orderId.Some?
                     then Credit(db.slots, returned) else db.slots)
  {
    hide Settle, Credit;
    var p := db.payments[pid];
    SettleTidies(if p.kind == OrderPayment && p.orderId.Some? then db.(slots := Credit(db.slots, returned)) else db,
                 pid, RefundStatus(refundGranted));
  }

  lemma SlotLinesWithin(items: seq<Item>, bundles: seq<BundleEntry>)
    ensures SlotLines(items) <= ItemsSlots(items, bundles)
  {
  }

  /** The lines fulfilled before the loop ended. */
  function ServedLines(db: Db, pid: Id, now: int): seq<Item>
    requires pid in db.payments
  {
    if IsMissing(db, pid, now) then [] else Lines(db, db.payments[pid])[..Core(db, pid, now).served]
  }

  /** The copies given back before the delivery ends: the stand-alone slot lines of an aborted order. */
  function Returned(db: Db, pid: Id, now: int): multiset<SlotId>
    requires pid in db.payments
  {
    if !IsMissing(db, pid, now) && Core(db, pid, now).verdict == Unavailable && db.payments[pid].kind == OrderPayment
    then SlotLines(ServedLines(db, pid, now)) else multiset{}
  }

  /** The copies a delivery takes out of the counters for good, compensation included. */
  function Net(db: Db, pid: Id, now: int): multiset<SlotId>
    requires pid in db.payments
  {
    ItemsSlots(ServedLines(db, pid, now), db.payments[pid].bundles) - Returned(db, pid, now)
  }

  /** The tables after the lines and before the epilogue. */
  function Mid(db: Db, pid: Id, now: int): Db
    requires pid in db.payments
  {
    if IsMissing(db, pid, now) then db else Core(db, pid, now).db
  }

  function StatusAfter(db: Db, pid: Id, refundGranted: bool, now: int): PaymentStatus
    requires pid in db.payments
  {
    if IsMissing(db, pid, now) then Failed
    else if Core(db, pid, now).verdict == Unavailable then RefundStatus(refundGranted)
    else db.payments[pid].status
  }

  /**
   * The middle of a delivery: some rows of the footprint claimed, copies taken, the company row moved, nothing else.
   */
  lemma MidEffect(db: Db, pid: Id, now: int)
    requires pid in db.payments && WellFormed(db.payments[pid])
    ensures var p := db.payments[pid]; var q := PaymentBuyer(db, pid, now); var mid := Mid(db, pid, now);
      && SameRows(db, mid)
      && Claims(db.assets, mid.assets, q, ItemsAssets(Lines(db, p), p.bundles))
      && mid.companies.Keys == db.companies.Keys
      && (forall c | c in db.companies && Some(c) != q.company :: mid.companies[c] == db.companies[c])
      && mid.slots == Debit(db.slots, ItemsSlots(ServedLines(db, pid, now), p.bundles))
  {
    hide FulfilItems, ItemsAssets, IsMissing, Debit;
    var p := db.payments[pid];
    var q := PaymentBuyer(db, pid, now);
    FulfilItemsEffect(db, q, p.bundles, Lines(db, p));
    EffectNone(db, q, ItemsAssets(Lines(db, p), p.bundles), false);
    DebitCompose(db.slots, multiset{}, multiset{});
  }

  /** The epilogue, in terms of the middle. */
  lemma DeliveredIs(db: Db, pid: Id, refundGranted: bool, now: int)
    requires pid in db.payments && WellFormed(db.payments[pid])
    ensures var d := ApplySuccess(db, pid, refundGranted, now);
      var mid := Mid(db, pid, now); var status := StatusAfter(db, pid, refundGranted, now);
      && mid.payments == db.payments
      && (IsMissing(db, pid, now) ==>
            d == Settle(db, pid, db.payments[pid].orderId, Failed) && mid == db && status == Failed)
      && (!IsMissing(db, pid, now) ==>
            match Core(db, pid, now).verdict
            case Done => d == Finish(mid, pid, db.payments[pid]) && status == db.payments[pid].status
            case Unavailable =>
              d == Abort(mid, pid, db.payments[pid], Returned(db, pid, now), refundGranted)
                  && status == RefundStatus(refundGranted)
            case Crashed => d == mid && status == db.payments[pid].status)
  {
    ApplyShape(db, pid, refundGranted, now);
    hide ApplySuccess, FulfilItems, IsMissing, Settle, SlotLines, Lines, PaymentBuyer;
    MidEffect(db, pid, now);
  }

  lemma NetIs(db: Db, pid: Id, now: int)
    requires pid in db.payments
    ensures var p := db.payments[pid];
      var taken, returned := ItemsSlots(ServedLines(db, pid, now), p.bundles), Returned(db, pid, now);
      && Debit(db.slots, Net(db, pid, now)) == Credit(Debit(db.slots, taken), returned)
      && (returned == multiset{} || (p.kind == OrderPayment && !IsMissing(db, pid, now)
                                     && Core(db, pid, now).verdict == Unavailable))
      && Credit(Debit(db.slots, taken), multiset{}) == Debit(db.slots, taken)
  {
    hide ItemsSlots, SlotLines, ServedLines, IsMissing, Core, Debit, Credit;
    var p := db.payments[pid];
    var taken, returned := ItemsSlots(ServedLines(db, pid, now), p.bundles), Returned(db, pid, now);
    SlotLinesWithin(ServedLines(db, pid, now), p.bundles);
    DebitCompose(db.slots, taken, returned);
    DebitCompose(Debit(db.slots, taken), multiset{}, multiset{});
  }

  lemma DeliveryEffect(db: Db, pid: Id, refundGranted: bool, now: int)
    requires pid in db.payments && WellFormed(db.payments[pid])
    ensures var d := ApplySuccess(db, pid, refundGranted, now); var mid := Mid(db, pid, now);
      && mid.payments == db.payments
      && Tidied(mid, d, pid, StatusAfter(db, pid, refundGranted, now))
      && d.slots == Debit(db.slots, Net(db, pid, now))
  {
    var p := db.payments[pid];
    assert p.kind == OrderPayment ==> p.orderId.Some?;
    hide *;
    var mid := Mid(db, pid, now);
    var taken, returned := ItemsSlots(ServedLines(db, pid, now), p.bundles), Returned(db, pid, now);
    DeliveredIs(db, pid, refundGranted, now);
    assert mid.slots == Debit(db.slots, taken) by { MidEffect(db, pid, now); }
    SettleTidies(db, pid, Failed);
    FinishTidies(mid, pid);
    NothingTidied(mid, pid);
    AbortTidies(mid, pid, returned, refundGranted);
    NetIs(db, pid, now);
  }

  /** Payments and orders are only added, or change status. */
  ghost predicate Grown(before: Db, after: Db) {
    && (forall pid | pid in before.payments ::
          pid in after.payments && after.payments[pid] == before.payments[pid].(status := after.payments[pid].status))
    && (forall o | o in before.orders ::
          o in after.orders && after.orders[o] == before.orders[o].(status := after.orders[o].status))
  }

  lemma TidiedGrows(before: Db, after: Db, pid: Id, status: PaymentStatus)
    requires pid in before.payments && Tidied(before, after, pid, status)
    ensures Grown(before, after) && after.payments.Keys == before.payments.Keys
  {
    hide Released;
  }

  /** A delivery, seen from the row the handler first marks as successful. */
  lemma ChargedTables(db: Db, pid: Id, refundGranted: bool, now: int)
    requires pid in db.payments && WellFormed(db.payments[pid])
    ensures var marked := SetStatus(db, pid, Success); var d := ApplySuccess(marked, pid, refundGranted, now);
      && Grown(db, marked) && Grown(db, d)
      && d.payments == db.payments[pid := db.payments[pid].(status := StatusAfter(marked, pid, refundGranted, now))]
      && d.slots == Debit(db.slots, Net(marked, pid, now)) && d.plans == db.plans
  {
    var marked := SetStatus(db, pid, Success);
    var d := ApplySuccess(marked, pid, refundGranted, now);
    assert marked == db.(payments := db.payments[pid := db.payments[pid].(status := Success)]);
    assert WellFormed(marked.payments[pid]);
    hide *;
    DeliveryEffect(marked, pid, refundGranted, now);
    MidRows(marked, pid, now);
    MarkedThenTidied(db, marked, Mid(marked, pid, now), d, pid, StatusAfter(marked, pid, refundGranted, now));
  }

  lemma MidRows(db: Db, pid: Id, now: int)
    requires pid in db.payments && WellFormed(db.payments[pid])
    ensures var mid := Mid(db, pid, now);
      mid.payments == db.payments && mid.orders == db.orders && mid.plans == db.plans && mid.slotHolds == db.slotHolds
  {
    MidEffect(db, pid, now);
    hide Mid, Claims, ItemsAssets, ItemsSlots, Lines, PaymentBuyer, ServedLines, Debit;
  }

  lemma MarkedThenTidied(db: Db, marked: Db, mid: Db, d: Db, pid: Id, status: PaymentStatus)
    requires pid in db.payments
    requires marked == db.(payments := db.payments[pid := db.payments[pid].(status := Success)])
    requires mid.payments == marked.payments && mid.orders == marked.orders && mid.plans == marked.plans
    requires Tidied(mid, d, pid, status)
    ensures Grown(db, marked) && Grown(db, d) && d.plans == db.plans
    ensures d.payments == db.payments[pid := db.payments[pid].(status := status)]
  {
    hide Released;
  }

  lemma ClosingTables(db: Db, pid: Id)
    requires pid in db.payments
    ensures var p := db.payments[pid];
      && Tidied(db, ChargeFailed(db, pid), pid, if p.status == Refunded then Refunded else Failed)
      && ChargeFailed(db, pid).slots == db.slots
      && (p.status == Pending ==> Tidied(db, CancelPending(db, pid), pid, Failed))
      && (p.status != Pending ==> CancelPending(db, pid) == db)
      && CancelPending(db, pid).slots == db.slots
  {
    SettleTidies(db, pid, Failed);
    ReleaseAllTidies(db, pid);
    hide ReleaseAll, Tidied;
    if db.payments[pid].status != Refunded {
      assert ChargeFailed(db, pid) == Settle(db, pid, db.payments[pid].orderId, Failed);
    }
  }
}
