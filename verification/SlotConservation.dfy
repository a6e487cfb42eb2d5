/**
 * Copies of a marketing slot are conserved over whole runs, whatever the order, repetition or lateness of webhooks:
 * what is available and what is out add up to the total. The ledger says who has the copies that are out.
 */
module SlotConservation {
  import opened Common
  import opened Tables
  import opened Inventory
  import opened Fulfilment
  import opened Refunds
  import opened BundleResolution
  import opened Machine
  import opened Effects
  import opened Charges
  import opened Reversals
  import opened RefundUndo
  import opened Resolutions

  // ---- The ledger ------------------------------------------------------------------------

  datatype Keeper = ByPayment(pid: Id) | ByAdmin

  type Ledger = map<Keeper, multiset<SlotId>>

  function Entry(l: Ledger, k: Keeper): multiset<SlotId> {
    if k in l then l[k] else multiset{}
  }

  ghost function SumOver(l: Ledger, keys: set<Keeper>, s: SlotId): nat {
    if keys == {} then 0
    else
      var k :| k in keys;
      Entry(l, k)[s] + SumOver(l, keys - {k}, s)
  }

  /** The copies of a slot that are out. */
  ghost function Outstanding(l: Ledger, s: SlotId): nat {
    SumOver(l, l.Keys, s)
  }

  lemma {:induction false} SumTakesOut(l: Ledger, keys: set<Keeper>, s: SlotId, k: Keeper)
    requires k in keys
    ensures SumOver(l, keys, s) == Entry(l, k)[s] + SumOver(l, keys - {k}, s)
    decreases keys
  {
    var j :| j in keys && SumOver(l, keys, s) == Entry(l, j)[s] + SumOver(l, keys - {j}, s);
    if j != k {
      SumTakesOut(l, keys - {j}, s, k);
      SumTakesOut(l, keys - {k}, s, j);
      assert keys - {j} - {k} == keys - {k} - {j};
    }
  }

  lemma {:induction false} SumIgnores(l: Ledger, keys: set<Keeper>, s: SlotId, k: Keeper, m: multiset<SlotId>)
    requires k !in keys
    ensures SumOver(l[k := m], keys, s) == SumOver(l, keys, s)
    decreases keys
  {
    if keys != {} {
      var j :| j in keys && SumOver(l, keys, s) == Entry(l, j)[s] + SumOver(l, keys - {j}, s);
      SumTakesOut(l[k := m], keys, s, j);
      assert Entry(l[k := m], j) == Entry(l, j);
      SumIgnores(l, keys - {j}, s, k, m);
    }
  }

  /** Changing one keeper's entry changes the sum by the difference. */
  lemma OutstandingAfter(l: Ledger, k: Keeper, m: multiset<SlotId>, s: SlotId)
    ensures Outstanding(l[k := m], s) == Outstanding(l, s) - Entry(l, k)[s] + m[s]
  {
    var after := l[k := m];
    SumTakesOut(after, after.Keys, s, k);
    SumIgnores(l, l.Keys - {k}, s, k, m);
    assert after.Keys - {k} == l.Keys - {k};
    if k in l { SumTakesOut(l, l.Keys, s, k); } else { assert l.Keys - {k} == l.Keys; }
  }

  lemma OutstandingCovers(l: Ledger, k: Keeper, s: SlotId)
    requires k in l
    ensures l[k][s] <= Outstanding(l, s)
  {
    SumTakesOut(l, l.Keys, s, k);
  }

  // ---- One booth at most -----------------------------------------------------------------

  /** All the booths of a set of rows are the same booth. */
  predicate OneBooth(rows: set<AssetId>) {
    forall a, b | a in rows && b in rows :: a.kind == Booth && b.kind == Booth ==> a == b
  }

  /** The company's booths are those it had at the start and, at most, the booths of this payment. */
  predicate BoothsWithin(assets: map<AssetId, Asset>, q: Buyer, rows: set<AssetId>) {
    forall b | b in assets && b.kind == Booth && q.company.Some? && assets[b].owner == q.company ::
      b in q.ownBooths || b in rows
  }

  lemma TakeLineDoesNotCrash(db: Db, q: Buyer, id: AssetId, rows: set<AssetId>)
    requires OneBooth(rows) && id in rows && BoothsWithin(db.assets, q, rows)
    ensures TakeLine(db, q, id).verdict != Crashed
  {
  }

  lemma TakeBundleBoothDoesNotCrash(db: Db, q: Buyer, boothId: Option<Id>, rows: set<AssetId>)
    requires OneBooth(rows) && One(Booth, boothId) <= rows && BoothsWithin(db.assets, q, rows)
    ensures TakeBundleBooth(db, q, boothId).verdict != Crashed
  {
    if boothId.Some? { assert AssetId(Booth, boothId.value) in rows; }
  }

  lemma FulfilItemDoesNotCrash(db: Db, q: Buyer, bundles: seq<BundleEntry>, item: Item, rows: set<AssetId>)
    requires OneBooth(rows) && ItemAssets(item, bundles) <= rows && BoothsWithin(db.assets, q, rows)
    ensures FulfilItem(db, q, bundles, item).verdict != Crashed
  {
    if item.AssetItem? && item.assetId.Some? {
      hide TakeLine, BoothsWithin;
      assert AssetId(item.asset, item.assetId.value) in ItemAssets(item, bundles);
      TakeLineDoesNotCrash(db, q, AssetId(item.asset, item.assetId.value), rows);
    } else if item.PlanItem? && item.planId.Some? && FindEntry(bundles, item.planId.value).Some? {
      hide TakeBundleBooth, BoothsWithin, AddSponsorship;
      var e := FindEntry(bundles, item.planId.value).value;
      assert One(Booth, e.boothId) <= ItemAssets(item, bundles);
      TakeBundleBoothDoesNotCrash(db, q, e.boothId, rows);
    }
  }

  lemma BoothsStayWithin(before: map<AssetId, Asset>, after: map<AssetId, Asset>, q: Buyer, a: set<AssetId>,
                         rows: set<AssetId>)
    requires Claims(before, after, q, a) && a <= rows && BoothsWithin(before, q, rows)
    ensures BoothsWithin(after, q, rows)
  {
  }

  /** An order whose lines stand for one booth at most never breaks the unique key, whatever else is in it. */
  lemma {:induction false} FulfilItemsDoNotCrash(db: Db, q: Buyer, bundles: seq<BundleEntry>, items: seq<Item>,
                                                 rows: set<AssetId>)
    requires q.company.Some? ==> q.company.value in db.companies
    requires OneBooth(rows) && ItemsAssets(items, bundles) <= rows && BoothsWithin(db.assets, q, rows)
    ensures FulfilItems(db, q, bundles, items).verdict != Crashed
    decreases items
  {
    if items != [] {
      var first := FulfilItem(db, q, bundles, items[0]);
      FulfilItemDoesNotCrash(db, q, bundles, items[0], rows);
      if first.verdict == Done {
        FulfilItemEffect(db, q, bundles, items[0]);
        BoothsStayWithin(db.assets, first.db.assets, q, ItemAssets(items[0], bundles), rows);
        hide FulfilItem, ItemAssets, BoothsWithin, Claims;
        FulfilItemsDoNotCrash(first.db, q, bundles, items[1..], rows);
      }
    }
  }

  lemma CoreDoesNotCrash(db: Db, pid: Id, now: int)
    requires pid in db.payments && OneBooth(Rows(db, db.payments[pid]))
    ensures Core(db, pid, now).verdict != Crashed
  {
    var p := db.payments[pid];
    var q := PaymentBuyer(db, pid, now);
    assert BoothsWithin(db.assets, q, Rows(db, p));
    hide FulfilItems, ItemsAssets, Lines, OneBooth, BoothsWithin;
    FulfilItemsDoNotCrash(db, q, p.bundles, Lines(db, p), Rows(db, p));
  }

  lemma SingleLineHasOneBooth(db: Db, pid: Id)
    requires pid in db.payments && WellFormed(db.payments[pid]) && db.payments[pid].kind != OrderPayment
    ensures OneBooth(Rows(db, db.payments[pid]))
  {
    var p := db.payments[pid];
    assert Lines(db, p)[1..] == [];
    assert ItemsAssets(Lines(db, p), p.bundles) == ItemAssets(Lines(db, p)[0], p.bundles);
  }

  // ---- The invariant ---------------------------------------------------------------------

  predicate LedgerFits(slots: map<SlotId, Slot>, l: Ledger) {
    forall k, s | k in l && s in l[k] :: s in slots
  }

  /** What is available and what is out make up the total. */
  ghost predicate AddsUp(slots: map<SlotId, Slot>, l: Ledger) {
    forall s | s in slots :: slots[s].available >= 0 && slots[s].available + Outstanding(l, s) == slots[s].total
  }

  ghost predicate Balanced(slots: map<SlotId, Slot>, l: Ledger) {
    LedgerFits(slots, l) && AddsUp(slots, l)
  }

  predicate Sound(db: Db, pid: Id)
    requires pid in db.payments
  {
    var p := db.payments[pid];
    WellFormed(p) && (p.kind == OrderPayment ==> p.orderId.value in db.orders)
  }

  ghost predicate Conserved(db: Db, l: Ledger) {
    Balanced(db.slots, l) && forall pid | pid in db.payments :: Sound(db, pid)
  }

  lemma TakeKeepsBalance(slots: map<SlotId, Slot>, l: Ledger, k: Keeper, m: multiset<SlotId>)
    requires Balanced(slots, l) && Affordable(slots, m)
    ensures Balanced(Debit(slots, m), l[k := Entry(l, k) + m])
  {
    forall s ensures Outstanding(l[k := Entry(l, k) + m], s) == Outstanding(l, s) + m[s] {
      OutstandingAfter(l, k, Entry(l, k) + m, s);
    }
    hide Outstanding;
  }

  /** The copies are out by this entry, as far as their slots still exist. */
  predicate Covers(slots: map<SlotId, Slot>, entry: multiset<SlotId>, m: multiset<SlotId>) {
    forall s | s in slots :: m[s] <= entry[s]
  }

  /**
   * Returning copies keeps the balance if and only if they were out by the
   * keeper's entry; otherwise the sum is too high.
   */
  lemma ReturnBalances(slots: map<SlotId, Slot>, l: Ledger, k: Keeper, m: multiset<SlotId>)
    requires Balanced(slots, l)
    ensures var after := l[k := Entry(l, k) - m];
      && LedgerFits(Credit(slots, m), after)
      && (AddsUp(Credit(slots, m), after) <==> Covers(slots, Entry(l, k), m))
  {
    var after := l[k := Entry(l, k) - m];
    forall s ensures Outstanding(after, s) == Outstanding(l, s) - Entry(l, k)[s] + (Entry(l, k) - m)[s] {
      OutstandingAfter(l, k, Entry(l, k) - m, s);
    }
    hide Outstanding;
    assert forall s | s in slots :: s in Credit(slots, m);
    forall s | s in slots
      ensures (Credit(slots, m)[s].available + Outstanding(after, s) == Credit(slots, m)[s].total) <==>
        m[s] <= Entry(l, k)[s]
    {
    }
  }

  // ---- Steps -----------------------------------------------------------------------------

  predicate Delivers(w: World, e: Event) {
    match e
    case EChargeSuccess(pid, _) =>
      pid in w.db.payments && w.db.payments[pid].status != Success && w.db.payments[pid].status != Refunded
    case EAdminVerify(pid, _) =>
      pid in w.db.payments && w.db.payments[pid].manual && w.db.payments[pid].status == Pending
    case _ => false
  }

  /** What each event does to the ledger, from what the handler takes and gives back. */
  function NextLedger(w: World, l: Ledger, e: Event): Ledger {
    match e
    case EChargeSuccess(pid, _) => if Delivers(w, e) then Charged(w, l, pid) else l
    case EAdminVerify(pid, _) => if Delivers(w, e) then Charged(w, l, pid) else l
    case ERefund(pid) =>
      if pid in w.db.payments && w.db.payments[pid].status == Success then
        var p := w.db.payments[pid];
        l[ByPayment(pid) := Entry(l, ByPayment(pid)) - Refundable(p, Copied(w.db, p))]
      else l
    case EAssignSlot(company, s) =>
      if company in w.db.companies && s in w.db.slots && !w.db.slots[s].reserved && w.db.slots[s].available > 0
      then l[ByAdmin := Entry(l, ByAdmin) + multiset{s}] else l
    case EUnassignSlot(s) =>
      if s in w.db.slots && w.db.slots[s].available < w.db.slots[s].total
      then l[ByAdmin := Entry(l, ByAdmin) - multiset{s}] else l
    case _ => l
  }

  function Charged(w: World, l: Ledger, pid: Id): Ledger
    requires pid in w.db.payments
  {
    l[ByPayment(pid) := Entry(l, ByPayment(pid)) + Net(SetStatus(w.db, pid, Success), pid, w.now)]
  }

  predicate OneBoothLine(items: seq<Item>) {
    forall i, j | 0 <= i < |items| && 0 <= j < |items| ::
      items[i].AssetItem? && items[i].asset == Booth && items[j].AssetItem? && items[j].asset == Booth ==>
        items[i] == items[j]
  }

  /**
   * Copies are only returned by who has them out: by an administrator's
   * own assignment, or by a payment's deliveries.
   */
  predicate Allowed(w: World, l: Ledger, e: Event) {
    match e
    case EUnassignSlot(s) =>
      s in w.db.slots && w.db.slots[s].available < w.db.slots[s].total ==> s in Entry(l, ByAdmin)
    case ERefund(pid) =>
      pid in w.db.payments && w.db.payments[pid].status == Success ==>
        var p := w.db.payments[pid];
        Covers(w.db.slots, Entry(l, ByPayment(pid)), Refundable(p, Copied(w.db, p)))
    case _ => true
  }

  /** What a delivery takes is there to take. */
  lemma NetIsAffordable(db: Db, pid: Id, now: int)
    requires pid in db.payments && WellFormed(db.payments[pid])
    ensures Affordable(db.slots, Net(db, pid, now))
  {
    var p := db.payments[pid];
    hide FulfilItems, IsMissing, ItemsSlots, ItemsAssets;
    if !IsMissing(db, pid, now) {
      FulfilItemsEffect(db, PaymentBuyer(db, pid, now), p.bundles, Lines(db, p));
    } else {
      assert ItemsSlots([], p.bundles) == multiset{} by { NoLines(p.bundles); }
    }
  }

  lemma NoLines(bundles: seq<BundleEntry>)
    ensures ItemsSlots([], bundles) == multiset{}
  {
  }

  lemma SoundStays(before: Db, after: Db, pid: Id)
    requires Grown(before, after) && pid in before.payments && Sound(before, pid)
    ensures Sound(after, pid)
    ensures Copied(after, after.payments[pid]) == Copied(before, before.payments[pid])
    ensures Rows(after, after.payments[pid]) == Rows(before, before.payments[pid])
  {
    hide ItemsAssets, ItemsSlots, OneBooth;
    assert Lines(after, after.payments[pid]) == Lines(before, before.payments[pid]);
  }

  /** One payment changes its status, and the slots and the ledger with it. */
  lemma ConservedAfter(before: Db, after: Db, l: Ledger, m: Ledger)
    requires Conserved(before, l) && Grown(before, after) && after.payments.Keys == before.payments.Keys
    requires Balanced(after.slots, m)
    ensures Conserved(after, m)
  {
    hide Balanced, ItemsSlots, ItemsAssets, Lines, WellFormed;
    forall x | x in after.payments ensures Sound(after, x) { SoundStays(before, after, x); }
  }

  lemma ConservedParts(db: Db, l: Ledger, pid: Id)
    requires Conserved(db, l) && pid in db.payments
    ensures Balanced(db.slots, l) && WellFormed(db.payments[pid]) && Sound(db, pid)
  {
  }

  lemma DeliveryConserves(db: Db, l: Ledger, pid: Id, refundGranted: bool, now: int)
    requires Conserved(db, l) && pid in db.payments
    ensures var marked := SetStatus(db, pid, Success);
      Conserved(ApplySuccess(marked, pid, refundGranted, now),
                l[ByPayment(pid) := Entry(l, ByPayment(pid)) + Net(marked, pid, now)])
  {
    var marked := SetStatus(db, pid, Success);
    assert marked == db.(payments := marked.payments);
    var d := ApplySuccess(marked, pid, refundGranted, now);
    var taken := Net(marked, pid, now);
    assert WellFormed(marked.payments[pid]) by { ConservedParts(db, l, pid); }
    hide *;
    ConservedParts(db, l, pid);
    ChargedTables(db, pid, refundGranted, now);
    NetIsAffordable(marked, pid, now);
    TakeKeepsBalance(db.slots, l, ByPayment(pid), taken);
    SameKeys(db, d, pid, db.payments[pid].(status := StatusAfter(marked, pid, refundGranted, now)));
    ConservedAfter(db, d, l, l[ByPayment(pid) := Entry(l, ByPayment(pid)) + taken]);
  }

  lemma SameKeys(db: Db, d: Db, pid: Id, p: Payment)
    requires pid in db.payments && d.payments == db.payments[pid := p]
    ensures d.payments.Keys == db.payments.Keys
  {
  }

  /** A refund keeps the balance if and only if what it returns is out by the payment's own deliveries. */
  lemma RefundConserves(db: Db, l: Ledger, pid: Id)
    requires Conserved(db, l) && pid in db.payments && db.payments[pid].status == Success
    ensures var p := db.payments[pid]; var k := ByPayment(pid); var m := Refundable(p, Copied(db, p));
      && (Covers(db.slots, Entry(l, k), m) ==> Conserved(RefundPayment(db, pid), l[k := Entry(l, k) - m]))
      && (!Covers(db.slots, Entry(l, k), m) ==> !AddsUp(RefundPayment(db, pid).slots, l[k := Entry(l, k) - m]))
  {
    var p := db.payments[pid];
    var m := Refundable(p, Copied(db, p));
    var after := l[ByPayment(pid) := Entry(l, ByPayment(pid)) - m];
    ConservedParts(db, l, pid);
    RefundTables(db, pid);
    ReturnBalances(db.slots, l, ByPayment(pid), m);
    hide Conserved, RefundPayment, Copied, Refundable, Covers, AddsUp, LedgerFits, Credit, Grown;
    if Covers(db.slots, Entry(l, ByPayment(pid)), m) { ConservedAfter(db, RefundPayment(db, pid), l, after); }
  }

  lemma RefundTables(db: Db, pid: Id)
    requires pid in db.payments && db.payments[pid].status == Success && WellFormed(db.payments[pid])
    ensures var p := db.payments[pid]; var d := RefundPayment(db, pid);
      && Grown(db, d) && d.payments == db.payments[pid := p.(status := Refunded)]
      && d.slots == Credit(db.slots, Refundable(p, Copied(db, p))) && d.orders == db.orders && d.plans == db.plans
      && d.slotHolds == db.slotHolds
  {
    RefundIsUndone(db, pid);
    hide RefundPayment, Reverse, Freed, Credit, Existing, ItemsSlots, ItemsAssets, Lines, WellFormed;
  }

  /** Steps that move no copy: the ledger stays. */
  lemma QuietStepConserves(db: Db, d: Db, l: Ledger)
    requires Conserved(db, l) && d.slots == db.slots && Grown(db, d) && d.payments.Keys == db.payments.Keys
    ensures Conserved(d, l)
  {
    hide Balanced, Copied, Rows;
    forall pid | pid in d.payments ensures Sound(d, pid) { SoundStays(db, d, pid); }
  }

  lemma ClosingConserves(db: Db, l: Ledger, pid: Id)
    requires Conserved(db, l)
    ensures Conserved(ChargeFailed(db, pid), l) && Conserved(CancelPending(db, pid), l)
  {
    if pid in db.payments {
      var p := db.payments[pid];
      ClosingTables(db, pid);
      hide Conserved, Settle, ReleaseAll, CancelPending, ChargeFailed, Released, OrdersKeep, Grown;
      TidiedGrows(db, ChargeFailed(db, pid), pid, if p.status == Refunded then Refunded else Failed);
      QuietStepConserves(db, ChargeFailed(db, pid), l);
      if p.status == Pending {
        TidiedGrows(db, CancelPending(db, pid), pid, Failed);
        QuietStepConserves(db, CancelPending(db, pid), l);
      }
    }
  }

  lemma CleanupConserves(db: Db, l: Ledger, now: int)
    requires Conserved(db, l)
    ensures Conserved(ReleaseExpired(db, now), l)
  {
    hide Balanced, Sound, ClearHolds, KeepHolds;
    QuietStepConserves(db, ReleaseExpired(db, now), l);
  }

  // ---- New payments ----------------------------------------------------------------------

  /** A new pending payment with sound lines joins. */
  lemma NewPaymentConserves(db: Db, d: Db, l: Ledger, pid: Id)
    requires Conserved(db, l) && d.slots == db.slots && Grown(db, d) && pid !in db.payments
    requires d.payments.Keys == db.payments.Keys + {pid}
    requires Sound(d, pid)
    ensures Conserved(d, l)
  {
    hide Balanced, Copied, Rows;
    forall x | x in d.payments ensures Sound(d, x) {
      if x != pid { SoundStays(db, d, x); }
    }
  }

  lemma InitSingleConserves(db: Db, l: Ledger, b: Purchase, kind: PaymentKind, targetId: Id)
    requires Conserved(db, l)
    ensures Conserved(InitSingle(db, b, kind, targetId), l)
  {
    var d := InitSingle(db, b, kind, targetId);
    if d != db { NewPaymentConserves(db, d, l, b.pid); }
  }

  lemma InitPlanConserves(db: Db, l: Ledger, b: Purchase, planId: Id, expiresAt: int, now: int, rule: NullRule)
    requires Conserved(db, l)
    ensures Conserved(InitPlan(db, b, planId, expiresAt, now, rule), l)
  {
    ResolvePlanOnlyHolds(db, planId, ForPayment(b.pid), expiresAt, now, rule);
    hide ResolvePlan, Conserved;
    var d := InitPlan(db, b, planId, expiresAt, now, rule);
    if d != db {
      assert Sound(d, b.pid);
      NewPaymentConserves(db, d, l, b.pid);
    }
  }

  /** All the booths of an accepted checkout are one booth, when its cart holds one booth line at most. */
  lemma CheckoutHasOneBooth(db: Db, items: seq<Item>, bundles: seq<BundleEntry>, company: Id)
    requires OneBoothLine(items) && PlansAreCompatible(db, company, items)
    requires |bundles| == |PlanIds(items)|
    requires |bundles| == 1 ==> bundles[0].planId == PlanIds(items)[0] && bundles[0].planId in db.plans
                                && (bundles[0].boothId.Some? ==> db.plans[bundles[0].planId].boothTier.Some?)
    ensures OneBooth(ItemsAssets(items, bundles))
  {
    forall a, b | a in ItemsAssets(items, bundles) && b in ItemsAssets(items, bundles) && a.kind == Booth
        && b.kind == Booth
      ensures a == b
    {
      var i := RowOfALine(items, bundles, a);
      var j := RowOfALine(items, bundles, b);
      BoothOfALine(items, bundles, i, a);
      BoothOfALine(items, bundles, j, b);
      hide ItemsAssets, ItemAssets;
    }
  }

  /** A booth comes from a booth line, or it is the booth of the one plan of the checkout. */
  lemma BoothOfALine(items: seq<Item>, bundles: seq<BundleEntry>, i: nat, a: AssetId)
    requires i < |items| && a in ItemAssets(items[i], bundles) && a.kind == Booth && |bundles| == |PlanIds(items)| <= 1
    requires |bundles| == 1 ==> bundles[0].planId == PlanIds(items)[0]
    ensures items[i] == AssetItem(Booth, Some(a.id)) || (|bundles| == 1 && bundles[0].boothId == Some(a.id))
  {
    if items[i].PlanItem? && items[i].planId.Some? {
      PlanIsListed(items, i);
      assert bundles != [] && bundles[1..] == [];
    }
  }

  lemma CheckoutIsSound(db: Db, oid: Id, b: Purchase, items: seq<Item>, expiresAt: int, now: int, rule: NullRule)
    requires Checkout(db, oid, b, items, expiresAt, now, rule) != db
    ensures var d := Checkout(db, oid, b, items, expiresAt, now, rule);
      && b.pid in d.payments && Sound(d, b.pid) && d.payments[b.pid].status == Pending && Grown(db, d)
      && d.payments.Keys == db.payments.Keys + {b.pid} && b.pid !in db.payments && d.slots == db.slots
      && forall x | x in db.payments :: d.payments[x] == db.payments[x]
  {
    var d := Checkout(db, oid, b, items, expiresAt, now, rule);
    CheckoutTables(db, oid, b, items, expiresAt, now, rule);
    hide Checkout, CheckoutIsAllowed, PlanIds, OnlyHolds;
    OnlyHoldsRows(db, d.(orders := db.orders, payments := db.payments));
  }

  /** A cart with one booth line at most is stored with one booth at most, the booth of its plan included. */
  lemma CheckoutHasOneBoothRow(db: Db, oid: Id, b: Purchase, items: seq<Item>, expiresAt: int, now: int, rule: NullRule)
    requires OneBoothLine(items) && Checkout(db, oid, b, items, expiresAt, now, rule) != db
    ensures var d := Checkout(db, oid, b, items, expiresAt, now, rule);
      b.pid in d.payments && OneBooth(Rows(d, d.payments[b.pid]))
  {
    var d := Checkout(db, oid, b, items, expiresAt, now, rule);
    CheckoutTables(db, oid, b, items, expiresAt, now, rule);
    hide Checkout, ItemsAssets, PlansAreCompatible, PlanIds, OneBooth, OneBoothLine, OnlyHolds, NeedsCompany;
    var p := d.payments[b.pid];
    assert Lines(d, p) == items;
    if b.company.Some? {
      CheckoutHasOneBooth(db, items, p.bundles, b.company.value);
    } else {
      RoomsOnlyAreOneBooth(items, p.bundles);
    }
  }

  lemma CheckoutConserves(db: Db, l: Ledger, oid: Id, b: Purchase, items: seq<Item>, expiresAt: int, now: int,
                          rule: NullRule)
    requires Conserved(db, l)
    ensures Conserved(Checkout(db, oid, b, items, expiresAt, now, rule), l)
  {
    hide *;
    var d := Checkout(db, oid, b, items, expiresAt, now, rule);
    if d != db {
      CheckoutIsSound(db, oid, b, items, expiresAt, now, rule);
      NewPaymentConserves(db, d, l, b.pid);
    }
  }

  lemma RoomsOnlyAreOneBooth(items: seq<Item>, bundles: seq<BundleEntry>)
    requires !NeedsCompany(items)
    ensures OneBooth(ItemsAssets(items, bundles))
  {
    RoomsOnly(items, bundles);
  }

  // ---- Administration --------------------------------------------------------------------

  /** Payments and orders stay as they are. */
  lemma AdminStepConserves(db: Db, d: Db, l: Ledger, m: Ledger)
    requires Conserved(db, l) && d.payments == db.payments && d.orders == db.orders && Balanced(d.slots, m)
    ensures Conserved(d, m)
  {
    hide Balanced, Copied, Rows;
    forall pid | pid in d.payments ensures Sound(d, pid) {
      assert Sound(db, pid);
      SoundStays(db, d, pid);
    }
  }

  lemma AssignConserves(w: World, l: Ledger, company: Id, s: SlotId)
    requires Conserved(w.db, l)
    ensures Conserved(AssignSlot(w.db, company, s), NextLedger(w, l, EAssignSlot(company, s)))
  {
    var d := AssignSlot(w.db, company, s);
    var m := NextLedger(w, l, EAssignSlot(company, s));
    if company in w.db.companies && s in w.db.slots && !w.db.slots[s].reserved && w.db.slots[s].available > 0 {
      assert Affordable(w.db.slots, multiset{s});
      TakeKeepsBalance(w.db.slots, l, ByAdmin, multiset{s});
      AdminStepConserves(w.db, d, l, m);
    }
  }

  lemma UnassignConserves(w: World, l: Ledger, s: SlotId)
    requires Conserved(w.db, l)
    ensures var e := EUnassignSlot(s);
      && (Allowed(w, l, e) ==> Conserved(UnassignSlot(w.db, s), NextLedger(w, l, e)))
      && (!Allowed(w, l, e) ==> !AddsUp(UnassignSlot(w.db, s).slots, NextLedger(w, l, e)))
  {
    if s in w.db.slots && w.db.slots[s].available < w.db.slots[s].total {
      ReturnBalances(w.db.slots, l, ByAdmin, multiset{s});
      hide AddsUp, LedgerFits, Credit;
      if s in Entry(l, ByAdmin) {
        AdminStepConserves(w.db, UnassignSlot(w.db, s), l, NextLedger(w, l, EUnassignSlot(s)));
      }
    }
  }

  lemma SetTotalConserves(db: Db, l: Ledger, s: SlotId, newTotal: int)
    requires Conserved(db, l)
    ensures Conserved(SetTotalSlots(db, s, newTotal), l)
  {
    hide Outstanding;
    AdminStepConserves(db, SetTotalSlots(db, s, newTotal), l, l);
  }

  /** A slot that can be deleted has no copy out: no administrator and no payment holds one. */
  lemma RemovableSlotIsNotOut(db: Db, l: Ledger, s: SlotId)
    requires Balanced(db.slots, l) && RemoveSlot(db, s) != db
    ensures forall k | k in l :: s !in l[k]
  {
    assert s in db.slots && db.slots[s].available >= db.slots[s].total;
    forall k | k in l ensures s !in l[k] { OutstandingCovers(l, k, s); }
  }

  lemma RemoveConserves(db: Db, l: Ledger, s: SlotId)
    requires Conserved(db, l)
    ensures Conserved(RemoveSlot(db, s), l)
  {
    var d := RemoveSlot(db, s);
    if d != db {
      RemovableSlotIsNotOut(db, l, s);
      hide Outstanding, Sound;
      AdminStepConserves(db, d, l, l);
    }
  }

  // ---- Runs ------------------------------------------------------------------------------

  /**
   * The exact step: carts of any content, charges, failures and all else keep the balance; a refund or an undone
   * assignment keeps it if and only if it returns what is out.
   */
  lemma ConservedStep(w: World, l: Ledger, e: Event)
    requires Conserved(w.db, l)
    ensures Allowed(w, l, e) ==> Conserved(Next(w, e), NextLedger(w, l, e))
    ensures !Allowed(w, l, e) ==> !AddsUp(Next(w, e).slots, NextLedger(w, l, e))
  {
    hide Conserved, AddsUp, InitSingle, InitPlan, Checkout, ApplySuccess, RefundPayment, ReleaseExpired, ChargeFailed,
         CancelPending, AssignSlot, UnassignSlot, SetTotalSlots, RemoveSlot, Net, Copied, Covers, Refundable;
    match e
    case EInitSingle(b, kind, targetId) => InitSingleConserves(w.db, l, b, kind, targetId);
    case EInitPlan(b, planId, expiresAt) => InitPlanConserves(w.db, l, b, planId, expiresAt, w.now, w.rule);
    case ECheckout(oid, b, items, expiresAt) => CheckoutConserves(w.db, l, oid, b, items, expiresAt, w.now, w.rule);
    case EChargeSuccess(pid, granted) =>
      if Delivers(w, e) { DeliveryConserves(w.db, l, pid, granted, w.now); }
    case EChargeFailed(pid) => ClosingConserves(w.db, l, pid);
    case EAdminVerify(pid, granted) =>
      if Delivers(w, e) { DeliveryConserves(w.db, l, pid, granted, w.now); }
    case ECancel(pid) => ClosingConserves(w.db, l, pid);
    case ERefund(pid) =>
      if pid in w.db.payments && w.db.payments[pid].status == Success {
        RefundConserves(w.db, l, pid);
      } else {
        NotRefundable(w.db, pid);
      }
    case ECleanup => CleanupConserves(w.db, l, w.now);
    case ETick(_) =>
    case EAssignSlot(company, s) => AssignConserves(w, l, company, s);
    case EUnassignSlot(s) => UnassignConserves(w, l, s);
    case ESetTotalSlots(s, n) => SetTotalConserves(w.db, l, s, n);
    case ERemoveSlot(s) => RemoveConserves(w.db, l, s);
  }

  lemma NotRefundable(db: Db, pid: Id)
    requires pid !in db.payments || db.payments[pid].status != Success
    ensures RefundPayment(db, pid) == db
  {
  }

  ghost predicate AllowedRun(w: World, l: Ledger, events: seq<Event>)
    decreases events
  {
    events != [] ==>
      Allowed(w, l, events[0]) && AllowedRun(Step(w, events[0]), NextLedger(w, l, events[0]), events[1..])
  }

  ghost function LedgerAfter(w: World, l: Ledger, events: seq<Event>): Ledger
    decreases events
  {
    if events == [] then l else LedgerAfter(Step(w, events[0]), NextLedger(w, l, events[0]), events[1..])
  }

  /** At every moment of the run. */
  ghost predicate AddsUpThroughout(w: World, l: Ledger, events: seq<Event>)
    decreases events
  {
    && AddsUp(w.db.slots, l)
    && (events != [] ==> AddsUpThroughout(Step(w, events[0]), NextLedger(w, l, events[0]), events[1..]))
  }

  lemma {:induction false} ConservedRun(w: World, l: Ledger, events: seq<Event>)
    requires Conserved(w.db, l)
    ensures AddsUpThroughout(w, l, events) <==> AllowedRun(w, l, events)
    ensures AllowedRun(w, l, events) ==> Conserved(Run(w, events).db, LedgerAfter(w, l, events))
    decreases events
  {
    assert AddsUp(w.db.slots, l);
    hide Conserved, AddsUp, Next, NextLedger, Allowed;
    if events != [] {
      var next := Step(w, events[0]);
      ConservedStep(w, l, events[0]);
      if Allowed(w, l, events[0]) { ConservedRun(next, NextLedger(w, l, events[0]), events[1..]); }
    }
  }

  /** Nothing sold yet. */
  predicate IsFresh(db: Db) {
    db.payments == map[] && forall s | s in db.slots :: db.slots[s].available == db.slots[s].total >= 0
  }

  /**
   * Over every run from a fresh shop, with carts of any content and webhooks repeated, late or in any order: what is
   * available of a slot and the copies that are out make up its total at every moment, if and only if every refund and
   * every undone assignment returns copies that are out by it.
   */
  lemma SlotsAreConserved(w: World, events: seq<Event>)
    requires IsFresh(w.db)
    ensures AddsUpThroughout(w, map[], events) <==> AllowedRun(w, map[], events)
    ensures AllowedRun(w, map[], events) ==>
      var d := Run(w, events).db;
      forall s | s in d.slots :: 0 <= d.slots[s].available <= d.slots[s].total
  {
    ConservedRun(w, map[], events);
  }

  lemma ItemsSlotsSplit(items: seq<Item>, bundles: seq<BundleEntry>, n: nat)
    requires n <= |items|
    ensures ItemsSlots(items, bundles) == ItemsSlots(items[..n], bundles) + ItemsSlots(items[n..], bundles)
    decreases items
  {
    if n == 0 {
      assert items[..0] == [] && items[0..] == items;
    } else {
      hide ItemSlots;
      ItemsSlotsSplit(items[1..], bundles, n - 1);
      assert items[..n][1..] == items[1..][..n - 1] && items[1..][n - 1..] == items[n..];
    }
  }
}
