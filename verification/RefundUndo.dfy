/** A refund is the inverse of fulfilment, and exactly when. */
module RefundUndo {
  import opened Common
  import opened Tables
  import opened Inventory
  import opened Fulfilment
  import opened Refunds
  import opened Effects
  import opened Charges
  import opened Reversals

  /** taken and owner are written together; a row is taken when it has an owner. */
  predicate Consistent(assets: map<AssetId, Asset>) {
    forall a | a in assets :: assets[a].taken <==> assets[a].owner.Some?
  }

  /** Checkout and the initialize handlers store one company, which a foreign key keeps alive. */
  predicate CompanyIsStored(db: Db, p: Payment) {
    p.companyId == ActingCompany(db, p) && (p.companyId.Some? ==> p.companyId.value in db.companies)
  }

  predicate SameOwnership(before: map<AssetId, Asset>, after: map<AssetId, Asset>) {
    && before.Keys == after.Keys
    && forall a | a in before :: after[a].taken == before[a].taken && after[a].owner == before[a].owner
  }

  predicate SameTotals(before: map<Id, Company>, after: map<Id, Company>) {
    && before.Keys == after.Keys
    && forall c | c in before :: after[c].paidTotal == before[c].paidTotal
  }

  /** The rows and copies the payment's lines stand for. */
  function Rows(db: Db, p: Payment): set<AssetId> {
    ItemsAssets(Lines(db, p), p.bundles)
  }

  function Copied(db: Db, p: Payment): multiset<SlotId> {
    ItemsSlots(Lines(db, p), p.bundles)
  }

  /** The delivery fulfils every line. */
  predicate Fulfils(db: Db, pid: Id, now: int) {
    && pid in db.payments && (db.payments[pid].status == Pending || db.payments[pid].status == Failed)
    && var marked := SetStatus(db, pid, Success);
       !IsMissing(marked, pid, now) && Core(marked, pid, now).verdict == Done
  }

  /** Without a company only hotel rooms are bought. */
  lemma {:induction false} RoomsOnly(items: seq<Item>, bundles: seq<BundleEntry>)
    requires !NeedsCompany(items)
    ensures ItemsSlots(items, bundles) == multiset{}
    ensures forall a | a in ItemsAssets(items, bundles) :: a.kind == HotelRoom
    decreases items
  {
    if items != [] {
      assert items[0].AssetItem? && items[0].asset == HotelRoom;
      assert forall i | 0 <= i < |items[1..]| :: items[1..][i] == items[i + 1];
      RoomsOnly(items[1..], bundles);
    }
  }

  lemma SameLines(db: Db, d: Db, pid: Id)
    requires pid in db.payments && pid in d.payments
    requires d.payments[pid] == db.payments[pid].(status := d.payments[pid].status)
    requires OrdersKeep(db.orders, d.orders)
    ensures Lines(d, d.payments[pid]) == Lines(db, db.payments[pid])
    ensures ActingCompany(d, d.payments[pid]) == ActingCompany(db, db.payments[pid])
    ensures WellFormed(db.payments[pid]) ==> WellFormed(d.payments[pid])
  {
  }

  predicate OwnershipAfter(before: Asset, after: Asset, bought: bool, holder: Option<Id>) {
    if bought then after.taken && after.owner == holder && holder.Some?
    else after.taken == before.taken && after.owner == before.owner
  }

  /** The mirror image of `Undone`: the rows are the party's, the copies are out and assigned, the total has grown. */
  ghost predicate Bought(before: Db, after: Db, p: Payment, a: set<AssetId>, m: multiset<SlotId>, kobo: int) {
    && after.assets.Keys == before.assets.Keys && a <= before.assets.Keys
    && (forall x | x in before.assets :: OwnershipAfter(before.assets[x], after.assets[x], x in a, Holder(p, x.kind)))
    && after.slots == Debit(before.slots, m) && Affordable(before.slots, m)
    && after.assignments == before.assignments + Copies(p.companyId, m)
    && CompaniesMoved(before.companies, after.companies, p.companyId, kobo)
    && (p.companyId.None? ==> m == multiset{})
  }

  lemma EffectIsBought(before: Db, after: Db, p: Payment, q: Buyer, a: set<AssetId>, m: multiset<SlotId>, kobo: int)
    requires Effect(before, after, q, a, m, kobo, true)
    requires q.company == p.companyId && q.user == p.userId
    requires q.company.None? ==> m == multiset{} && forall x | x in a :: x.kind == HotelRoom
    ensures Bought(before, after, p, a, m, kobo)
  {
    hide Debit, Copies, CompaniesMoved, Affordable;
    forall x | x in before.assets ensures OwnershipAfter(before.assets[x], after.assets[x], x in a, Holder(p, x.kind)) {
      assert Claimed(before.assets[x], after.assets[x], Party(q, x.kind), q);
    }
  }

  /** Every line served: the middle of the delivery has bought exactly the payment's rows and copies. */
  lemma CoreIsBought(db: Db, pid: Id, now: int)
    requires pid in db.payments && WellFormed(db.payments[pid]) && CompanyIsStored(db, db.payments[pid])
    requires !IsMissing(db, pid, now) && Core(db, pid, now).verdict == Done
    ensures var p := db.payments[pid];
      Bought(db, Core(db, pid, now).db, p, Rows(db, p), Copied(db, p), ItemsKobo(Lines(db, p)))
  {
    var p := db.payments[pid];
    var q := PaymentBuyer(db, pid, now);
    var items := Lines(db, p);
    if q.company.None? {
      assert !NeedsCompany(items) by { OnlyOrdersWithoutCompany(db, pid, now); }
      RoomsOnly(items, p.bundles);
    }
    var r := Core(db, pid, now);
    assert q.company == p.companyId && q.user == p.userId;
    hide *;
    assert Effect(db, r.db, q, Rows(db, p), Copied(db, p), ItemsKobo(items), true) by { CoreEffect(db, pid, now); }
    EffectIsBought(db, r.db, p, q, Rows(db, p), Copied(db, p), ItemsKobo(items));
  }

  lemma OnlyOrdersWithoutCompany(db: Db, pid: Id, now: int)
    requires pid in db.payments && WellFormed(db.payments[pid]) && !IsMissing(db, pid, now)
    requires PaymentBuyer(db, pid, now).company.None?
    ensures !NeedsCompany(Lines(db, db.payments[pid]))
  {
  }

  lemma CoreEffect(db: Db, pid: Id, now: int)
    requires pid in db.payments && Core(db, pid, now).verdict == Done
    ensures var p := db.payments[pid];
      Effect(db, Core(db, pid, now).db, PaymentBuyer(db, pid, now), Rows(db, p), Copied(db, p), ItemsKobo(Lines(db, p)),
             true)
  {
    hide FulfilItems, Effect, ItemsAssets, ItemsSlots, ItemsKobo;
    var p := db.payments[pid];
    FulfilItemsEffect(db, PaymentBuyer(db, pid, now), p.bundles, Lines(db, p));
    assert Lines(db, p)[..|Lines(db, p)|] == Lines(db, p);
  }

  /** The epilogue of a fulfilled delivery leaves ownership, counters, assignments and totals alone. */
  lemma FinishIsBought(before: Db, db: Db, pid: Id, p: Payment, a: set<AssetId>, m: multiset<SlotId>, kobo: int)
    requires pid in db.payments && Bought(before, db, p, a, m, kobo)
    ensures Bought(before, Finish(db, pid, db.payments[pid]), p, a, m, kobo)
  {
    FinishTidies(db, pid);
    hide Finish, Debit, Copies, CompaniesMoved, OrdersKeep, Affordable;
  }

  lemma MarkedFulfils(db: Db, pid: Id, now: int)
    requires Fulfils(db, pid, now) && WellFormed(db.payments[pid]) && CompanyIsStored(db, db.payments[pid])
    ensures var marked := SetStatus(db, pid, Success); var p := db.payments[pid].(status := Success);
      && marked == db.(payments := db.payments[pid := p]) && WellFormed(p) && CompanyIsStored(marked, p)
      && !IsMissing(marked, pid, now) && Core(marked, pid, now).verdict == Done
      && Lines(marked, p) == Lines(db, p)
  {
    hide IsMissing, Core;
  }

  lemma BoughtAlike(before: Db, marked: Db, after: Db, p: Payment, a: set<AssetId>, m: multiset<SlotId>, kobo: int)
    requires Bought(marked, after, p, a, m, kobo) && marked == before.(payments := marked.payments)
    ensures Bought(before, after, p, a, m, kobo)
  {
  }

  /** The fulfilled state, table by table. */
  lemma ChargeIsBought(db: Db, pid: Id, refundGranted: bool, now: int)
    requires Fulfils(db, pid, now) && WellFormed(db.payments[pid]) && CompanyIsStored(db, db.payments[pid])
    ensures var p := db.payments[pid].(status := Success); var d := ChargeSuccess(db, pid, refundGranted, now);
      && Bought(db, d, p, Rows(db, p), Copied(db, p), ItemsKobo(Lines(db, p)))
      && d.payments == db.payments[pid := p] && OrdersKeep(db.orders, d.orders)
  {
    var marked := SetStatus(db, pid, Success);
    var p := db.payments[pid].(status := Success);
    MarkedFulfils(db, pid, now);
    var mid := Mid(marked, pid, now);
    assert mid == Core(marked, pid, now).db;
    assert ChargeSuccess(db, pid, refundGranted, now) == ApplySuccess(marked, pid, refundGranted, now);
    assert Rows(marked, p) == Rows(db, p) && Copied(marked, p)
        == Copied(db, p) by { hide ItemsAssets, ItemsSlots, Lines; }
    hide *;
    CoreIsBought(marked, pid, now);
    DeliveredIs(marked, pid, refundGranted, now);
    FinishIsBought(marked, mid, pid, p, Rows(marked, p), Copied(marked, p), ItemsKobo(Lines(marked, p)));
    MidRows(marked, pid, now);
    var d := ApplySuccess(marked, pid, refundGranted, now);
    BoughtAlike(db, marked, d, p, Rows(db, p), Copied(db, p), ItemsKobo(Lines(db, p)));
    FinishTidies(mid, pid);
    TidiedOrders(mid, d, pid, Success);
  }

  lemma TidiedOrders(before: Db, after: Db, pid: Id, status: PaymentStatus)
    requires pid in before.payments && Tidied(before, after, pid, status)
    ensures OrdersKeep(before.orders, after.orders)
    ensures after.payments == before.payments[pid := before.payments[pid].(status := status)]
  {
  }

  lemma RefundIsUndone(db: Db, pid: Id)
    requires pid in db.payments && db.payments[pid].status == Success && WellFormed(db.payments[pid])
    ensures var p := db.payments[pid]; var d := RefundPayment(db, pid);
      && Undone(db, Reverse(db, pid), p, Rows(db, p), Copied(db, p), ItemsKobo(Lines(db, p)))
      && d == Reverse(db, pid).(payments := db.payments[pid := p.(status := Refunded)])
  {
    ReverseUndone(db, pid);
    hide Reverse, ItemsAssets, ItemsSlots, ItemsKobo, Lines, Freed, Credit, Existing;
  }

  lemma UndoCancels(db: Db, d: Db, back: Db, p: Payment, a: set<AssetId>, m: multiset<SlotId>, kobo: int)
    requires Bought(db, d, p, a, m, kobo) && Undone(d, back, p, a, m, kobo) && Consistent(db.assets)
    ensures back.slots == db.slots && SameTotals(db.companies, back.companies)
    ensures SameOwnership(db.assets, back.assets) <==> forall x | x in a :: x in db.assets && !db.assets[x].taken
    ensures back.assignments == db.assignments <==> Copies(p.companyId, m) !! db.assignments
  {
    var c := Copies(p.companyId, m);
    assert Existing(d.slots, p.companyId, m) == c;
    assert back.assignments == (db.assignments + c) - c;
    if c !! db.assignments { assert (db.assignments + c) - c == db.assignments; }
    forall x | x in c && x in db.assignments ensures x !in back.assignments {}
    DebitCompose(db.slots, m, m);
    assert Refundable(p, m) == m;
    OwnershipCancels(db, d, back, p, a);
  }

  lemma OwnershipCancels(db: Db, d: Db, back: Db, p: Payment, a: set<AssetId>)
    requires d.assets.Keys == db.assets.Keys && a <= db.assets.Keys && Consistent(db.assets)
    requires forall x | x in db.assets :: OwnershipAfter(db.assets[x], d.assets[x], x in a, Holder(p, x.kind))
    requires back.assets == Freed(d.assets, p, a)
    ensures SameOwnership(db.assets, back.assets) <==> forall x | x in a :: x in db.assets && !db.assets[x].taken
  {
    forall x | x in a ensures x in back.assets && !back.assets[x].taken && back.assets[x].owner == None {
      assert x in db.assets;
    }
    forall x | x in db.assets && x !in a
      ensures back.assets[x].taken == db.assets[x].taken && back.assets[x].owner == db.assets[x].owner {}
  }

  /**
   * Refund undoes fulfilment, for every kind of payment and any number of lines: counters and sponsor totals come
   * back always; ownership comes back exactly when every row was free before, and assignments exactly when the
   * company had none of the copies before.
   */
  lemma RefundUndoesFulfilment(db: Db, pid: Id, refundGranted: bool, now: int)
    requires Fulfils(db, pid, now) && WellFormed(db.payments[pid]) && CompanyIsStored(db, db.payments[pid])
    requires Consistent(db.assets)
    ensures var p := db.payments[pid];
      var back := RefundPayment(ChargeSuccess(db, pid, refundGranted, now), pid);
      && pid in back.payments && back.payments[pid].status == Refunded
      && back.slots == db.slots
      && SameTotals(db.companies, back.companies)
      && (SameOwnership(db.assets, back.assets) <==> forall a | a in Rows(db, p) ::
            a in db.assets && !db.assets[a].taken)
      && (back.assignments == db.assignments <==> Copies(p.companyId, Copied(db, p)) !! db.assignments)
  {
    var p := db.payments[pid].(status := Success);
    var d := ChargeSuccess(db, pid, refundGranted, now);
    ChargeIsBought(db, pid, refundGranted, now);
    assert d.payments[pid] == p && WellFormed(p);
    SameStatusRows(db, db.payments[pid], Success);
    hide *;
    SameLines(db, d, pid);
    SameRowsFor(db, d, p);
    RefundIsUndone(d, pid);
    UndoCancels(db, d, Reverse(d, pid), p, Rows(db, p), Copied(db, p), ItemsKobo(Lines(db, p)));
  }

  lemma SameStatusRows(db: Db, p: Payment, status: PaymentStatus)
    ensures Rows(db, p.(status := status)) == Rows(db, p) && Copied(db, p.(status := status)) == Copied(db, p)
    ensures Lines(db, p.(status := status)) == Lines(db, p)
  {
    hide ItemsAssets, ItemsSlots;
  }

  lemma SameRowsFor(db: Db, d: Db, p: Payment)
    requires Lines(d, p) == Lines(db, p)
    ensures Rows(d, p) == Rows(db, p) && Copied(d, p) == Copied(db, p)
  {
    hide ItemsAssets, ItemsSlots;
  }
}
