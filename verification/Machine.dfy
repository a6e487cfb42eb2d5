/** The shop as a state machine: one event is one handler run to its end. */
module Machine {
  import opened Common
  import opened CheckoutHold
  import opened Tables
  import opened Inventory
  import opened Fulfilment
  import opened Refunds
  import opened BundleResolution

  // ---- Checkout --------------------------------------------------------------------------

  function PlanIds(items: seq<Item>): seq<Id> {
    if items == [] then []
    else (if items[0].PlanItem? && items[0].planId.Some? then [items[0].planId.value] else []) + PlanIds(items[1..])
  }

  predicate HasBoothLine(items: seq<Item>) {
    exists i | 0 <= i < |items| :: items[i].AssetItem? && items[i].asset == Booth && items[i].assetId.Some?
  }

  predicate HasBoughtPlan(db: Db, company: Id) {
    exists pid | pid in db.payments ::
      var p := db.payments[pid];
      && p.companyId == Some(company) && p.status == Success
      && (p.kind == PlanPayment
          || (&& p.kind == OrderPayment && p.orderId.Some? && p.orderId.value in db.orders
              && exists i | 0 <= i < |db.orders[p.orderId.value].items| ::
                  db.orders[p.orderId.value].items[i].PlanItem?))
  }

  /** assertCheckoutCompatibleWithPlans, for a company. */
  predicate PlansAreCompatible(db: Db, company: Id, items: seq<Item>) {
    var ids := PlanIds(items);
    ids == [] ||
    (&& (forall i | 0 <= i < |items| :: items[i].PlanItem? && items[i].planId.Some? ==> items[i].quantity <= 1)
     && |ids| == 1
     && !HasBoughtPlan(db, company)
     && (ids[0] in db.plans && db.plans[ids[0]].boothTier.Some? ==>
           !HasBoothLine(items) && OwnBooths(db.assets, Some(company)) == {}))
  }

  predicate IsLinked(db: Db, s: SlotId) {
    exists p | p in db.plans :: s in db.plans[p].slots
  }

  /** Slots linked to a plan are sold only through that plan. */
  predicate SlotLinesAreSellable(db: Db, items: seq<Item>) {
    forall i, p | 0 <= i < |items| && p in db.plans ::
      items[i].SlotItem? && items[i].slotId.Some? ==> SlotId(items[i].slot, items[i].slotId.value) !in db.plans[p].slots
  }

  predicate CheckoutIsAllowed(db: Db, company: Option<Id>, items: seq<Item>) {
    && items != []
    && (NeedsCompany(items) ==> HasCompany(db, company))
    && (company.Some? ==> PlansAreCompatible(db, company.value, items) && SlotLinesAreSellable(db, items))
  }

  /** placeCheckoutHoldsTx: cart lines write their hold whatever hold was there. */
  function PlaceHolds(db: Db, items: seq<Item>, hold: Hold): Option<Db>
    decreases items
  {
    if items == [] then Some(db)
    else if items[0].AssetItem? && items[0].assetId.Some? then
      var a := AssetId(items[0].asset, items[0].assetId.value);
      if a in db.assets then PlaceHolds(PutHold(db, a, hold), items[1..], hold) else None
    else PlaceHolds(db, items[1..], hold)
  }

  datatype AllResolved = AllResolved(db: Db, bundles: seq<BundleEntry>)

  ghost function ResolveAll(db: Db, ids: seq<Id>, t: Target, expiresAt: int, now: int,
                            rule: NullRule): Option<AllResolved>
    decreases ids
  {
    if ids == [] then Some(AllResolved(db, []))
    else
      var first := ResolvePlan(db, ids[0], t, expiresAt, now, rule);
      if first.None? then None
      else
        var rest := ResolveAll(first.value.db, ids[1..], t, expiresAt, now, rule);
        if rest.None? then None else Some(AllResolved(rest.value.db, [first.value.entry] + rest.value.bundles))
  }

  datatype Purchase = Purchase(pid: Id, user: Id, company: Option<Id>, base: int, manual: bool)

  ghost function Checkout(db: Db, oid: Id, b: Purchase, items: seq<Item>, expiresAt: int, now: int,
                          rule: NullRule): Db {
    if oid in db.orders || b.pid in db.payments || !CheckoutIsAllowed(db, b.company, items) then db
    else
      var t := ForOrder(oid);
      var held := PlaceHolds(db, items, TargetHold(t, expiresAt));
      if held.None? then db
      else
        var all := ResolveAll(held.value, PlanIds(items), t, expiresAt, now, rule);
        if all.None? then db
        else
          var d := all.value.db;
          var bundles := all.value.bundles;
          var p := Payment(OrderPayment, Pending, b.manual, b.user, b.company, Some(oid), None, b.base, bundles);
          d.(orders := d.orders[oid := Order(b.user, b.company, PendingPayment, items)],
             payments := d.payments[b.pid := p])
  }

  /** The company exists, has no pending payment for the plan, and may buy a plan at all. */
  predicate PlanIsBuyable(db: Db, company: Option<Id>, planId: Id) {
    && HasCompany(db, company)
    && !(exists pid | pid in db.payments ::
           && db.payments[pid].kind == PlanPayment && db.payments[pid].companyId == company
           && db.payments[pid].targetId == Some(planId) && db.payments[pid].status == Pending)
    && PlansAreCompatible(db, company.value, [PlanItem(Some(planId), 0, 1)])
  }

  /** initializeSponsorshipPlanPayment: the payment row exists only if its bundle could be resolved. */
  ghost function InitPlan(db: Db, b: Purchase, planId: Id, expiresAt: int, now: int, rule: NullRule): Db {
    if b.pid in db.payments || !PlanIsBuyable(db, b.company, planId) then db
    else
      var r := ResolvePlan(db, planId, ForPayment(b.pid), expiresAt, now, rule);
      if r.None? then db
      else
        r.value.db.(payments := r.value.db.payments[b.pid :=
          Payment(PlanPayment, Pending, b.manual, b.user, b.company, None, Some(planId), b.base, [r.value.entry])])
  }

  /** The other initialize* handlers only insert a pending payment; no hold is placed. */
  function InitSingle(db: Db, b: Purchase, kind: PaymentKind, targetId: Id): Db {
    if b.pid in db.payments || !(kind.AssetPayment? || kind.SlotPayment?) then db
    else
      db.(payments := db.payments[b.pid :=
        Payment(kind, Pending, b.manual, b.user, b.company, None, Some(targetId), b.base, [])])
  }

  // ---- Administration of marketing slots -------------------------------------------------

  function AssignSlot(db: Db, company: Id, s: SlotId): Db {
    if company !in db.companies || s !in db.slots || db.slots[s].reserved || db.slots[s].available <= 0 then db
    else db.(slots := Debit(db.slots, multiset{s}))
  }

  function UnassignSlot(db: Db, s: SlotId): Db {
    if s !in db.slots || db.slots[s].available >= db.slots[s].total then db
    else db.(slots := Credit(db.slots, multiset{s}))
  }

  function SetTotalSlots(db: Db, s: SlotId, newTotal: int): Db {
    if newTotal < 1 || s !in db.slots then db
    else
      var sold := db.slots[s].total - db.slots[s].available;
      if newTotal < sold then db
      else db.(slots := db.slots[s := db.slots[s].(total := newTotal, available := newTotal - sold)])
  }

  /** A slot with no copy out and no payment pending goes, and its holds, assignments and plan links with it. */
  function RemoveSlot(db: Db, s: SlotId): Db {
    if s !in db.slots || db.slots[s].available < db.slots[s].total
       || exists pid | pid in db.payments :: db.payments[pid].kind == SlotPayment(s.kind)
            && db.payments[pid].targetId == Some(s.id) && db.payments[pid].status == Pending
    then db
    else
      db.(slots := db.slots - {s},
          slotHolds := KeepHolds(db.slotHolds, (h: SlotHold) => h.slot == s),
          assignments := (set x | x in db.assignments && x.1 != s),
          plans := map p | p in db.plans :: db.plans[p].(slots := Without(db.plans[p].slots, s)))
  }

  function Without(slots: seq<SlotId>, s: SlotId): seq<SlotId> {
    if slots == [] then [] else (if slots[0] == s then [] else [slots[0]]) + Without(slots[1..], s)
  }

  lemma {:induction false} WithoutKeeps(slots: seq<SlotId>, s: SlotId, x: SlotId)
    ensures multiset(Without(slots, s))[x] == if x == s then 0 else multiset(slots)[x]
  {
    if slots != [] {
      WithoutKeeps(slots[1..], s, x);
      assert slots == [slots[0]] + slots[1..];
    }
  }

  // ---- Events ----------------------------------------------------------------------------

  datatype Event =
    | EInitSingle(b: Purchase, kind: PaymentKind, targetId: Id)
    | EInitPlan(b: Purchase, planId: Id, expiresAt: int)
    | ECheckout(oid: Id, b: Purchase, items: seq<Item>, expiresAt: int)
    | EChargeSuccess(pid: Id, refundGranted: bool)
    | EChargeFailed(pid: Id)
    | EAdminVerify(pid: Id, refundGranted: bool)
    | ECancel(pid: Id)
    | ERefund(pid: Id)
    | ECleanup
    | ETick(elapsed: nat)
    | EAssignSlot(company: Id, slot: SlotId)
    | EUnassignSlot(slot: SlotId)
    | ESetTotalSlots(slot: SlotId, newTotal: int)
    | ERemoveSlot(slot: SlotId)

  datatype World = World(db: Db, now: int, rule: NullRule)

  ghost function Next(w: World, e: Event): Db {
    match e
    case EInitSingle(b, kind, targetId) => InitSingle(w.db, b, kind, targetId)
    case EInitPlan(b, planId, expiresAt) => InitPlan(w.db, b, planId, expiresAt, w.now, w.rule)
    case ECheckout(oid, b, items, expiresAt) => Checkout(w.db, oid, b, items, expiresAt, w.now, w.rule)
    case EChargeSuccess(pid, granted) => ChargeSuccess(w.db, pid, granted, w.now)
    case EChargeFailed(pid) => ChargeFailed(w.db, pid)
    case EAdminVerify(pid, granted) => AdminVerify(w.db, pid, granted, w.now)
    case ECancel(pid) => CancelPending(w.db, pid)
    case ERefund(pid) => RefundPayment(w.db, pid)
    case ECleanup => ReleaseExpired(w.db, w.now)
    case ETick(elapsed) => w.db
    case EAssignSlot(company, s) => AssignSlot(w.db, company, s)
    case EUnassignSlot(s) => UnassignSlot(w.db, s)
    case ESetTotalSlots(s, n) => SetTotalSlots(w.db, s, n)
    case ERemoveSlot(s) => RemoveSlot(w.db, s)
  }

  ghost function Step(w: World, e: Event): World {
    World(Next(w, e), if e.ETick? then w.now + e.elapsed else w.now, w.rule)
  }

  ghost function Run(w: World, events: seq<Event>): World
    decreases events
  {
    if events == [] then w else Run(Step(w, events[0]), events[1..])
  }
}
