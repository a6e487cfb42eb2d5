/** Row updates shared by fulfilment, refunds and hold handling. */
module Inventory {
  import opened Common
  import opened CompanyTier
  import opened CheckoutHold
  import opened Tables

  // ---- Marketing slot counters -----------------------------------------------------------

  function Debit(slots: map<SlotId, Slot>, m: multiset<SlotId>): map<SlotId, Slot> {
    map s | s in slots :: slots[s].(available := slots[s].available - m[s])
  }

  function Credit(slots: map<SlotId, Slot>, m: multiset<SlotId>): map<SlotId, Slot> {
    map s | s in slots :: slots[s].(available := slots[s].available + m[s])
  }

  lemma DebitTwice(slots: map<SlotId, Slot>, m: multiset<SlotId>, n: multiset<SlotId>)
    ensures Debit(Debit(slots, m), n) == Debit(slots, m + n)
  {
  }

  lemma CreditTwice(slots: map<SlotId, Slot>, m: multiset<SlotId>, n: multiset<SlotId>)
    ensures Credit(Credit(slots, m), n) == Credit(slots, m + n)
  {
  }

  lemma CreditReturns(slots: map<SlotId, Slot>, m: multiset<SlotId>, n: multiset<SlotId>)
    requires n <= m
    ensures Credit(Debit(slots, m), n) == Debit(slots, m - n)
  {
  }

  lemma NothingMoves(slots: map<SlotId, Slot>)
    ensures Debit(slots, multiset{}) == Credit(slots, multiset{}) == slots
  {
  }

  lemma DebitCompose(slots: map<SlotId, Slot>, m: multiset<SlotId>, n: multiset<SlotId>)
    ensures Debit(Debit(slots, m), n) == Debit(slots, m + n)
    ensures Credit(Credit(slots, m), n) == Credit(slots, m + n)
    ensures Credit(Debit(slots, m), m) == slots
    ensures n <= m ==> Credit(Debit(slots, m), n) == Debit(slots, m - n)
    ensures Debit(slots, multiset{}) == Credit(slots, multiset{}) == slots
  {
    hide Debit, Credit;
    DebitTwice(slots, m, n);
    CreditTwice(slots, m, n);
    CreditReturns(slots, m, m);
    NothingMoves(slots);
    assert m - m == multiset{};
    if n <= m { CreditReturns(slots, m, n); }
  }

  lemma CreditMissing(slots: map<SlotId, Slot>, s: SlotId)
    requires s !in slots
    ensures Credit(slots, multiset{s}) == slots
  {
  }

  function Copies(company: Option<Id>, m: multiset<SlotId>): set<(Id, SlotId)> {
    if company.None? then {} else set s | s in m :: (company.value, s)
  }

  lemma CopiesCompose(company: Option<Id>, m: multiset<SlotId>, n: multiset<SlotId>)
    ensures Copies(company, m + n) == Copies(company, m) + Copies(company, n)
    ensures Copies(company, multiset{}) == {}
  {
  }

  // ---- Statuses and holds ----------------------------------------------------------------

  function SetStatus(db: Db, pid: Id, status: PaymentStatus): Db {
    if pid in db.payments then db.(payments := db.payments[pid := db.payments[pid].(status := status)]) else db
  }

  function SetOrderStatus(db: Db, oid: Id, status: OrderStatus): Db {
    if oid in db.orders then db.(orders := db.orders[oid := db.orders[oid].(status := status)]) else db
  }

  function FailPendingOrder(db: Db, oid: Id): Db {
    if oid in db.orders && db.orders[oid].status == PendingPayment then SetOrderStatus(db, oid, OrderFailed) else db
  }

  function KeepHolds(holds: seq<SlotHold>, drop: SlotHold -> bool): seq<SlotHold> {
    if holds == [] then []
    else (if drop(holds[0]) then [] else [holds[0]]) + KeepHolds(holds[1..], drop)
  }

  /** Dropped holds are gone, however often they are listed; the others stay as often as they were. */
  lemma {:induction false} KeptCount(holds: seq<SlotHold>, drop: SlotHold -> bool, h: SlotHold)
    ensures multiset(KeepHolds(holds, drop))[h] == if drop(h) then 0 else multiset(holds)[h]
  {
    if holds != [] {
      KeptCount(holds[1..], drop, h);
      assert holds == [holds[0]] + holds[1..];
    }
  }

  lemma KeptCounts(holds: seq<SlotHold>, drop: SlotHold -> bool)
    ensures forall h :: multiset(KeepHolds(holds, drop))[h] == if drop(h) then 0 else multiset(holds)[h]
  {
    forall h ensures multiset(KeepHolds(holds, drop))[h] == if drop(h) then 0 else multiset(holds)[h] {
      KeptCount(holds, drop, h);
    }
  }

  function ClearHolds(assets: map<AssetId, Asset>, drop: Hold -> bool): map<AssetId, Asset> {
    map a | a in assets :: if drop(assets[a].hold) then assets[a].(hold := NO_HOLD) else assets[a]
  }

  function ReleaseForPayment(db: Db, pid: Id): Db {
    db.(assets := ClearHolds(db.assets, (h: Hold) => h.paymentId == Some(pid)),
        slotHolds := KeepHolds(db.slotHolds, (h: SlotHold) => h.paymentId == Some(pid)))
  }

  function ReleaseForOrder(db: Db, oid: Id): Db {
    db.(assets := ClearHolds(db.assets, (h: Hold) => h.orderId == Some(oid)),
        slotHolds := KeepHolds(db.slotHolds, (h: SlotHold) => h.orderId == Some(oid)))
  }

  /** The cleanup job: expired holds are cleared from rows and deleted from the slot hold tables. */
  function ReleaseExpired(db: Db, now: int): Db {
    db.(assets := ClearHolds(db.assets, (h: Hold) => h.expiresAt.Some? && h.expiresAt.value < now),
        slotHolds := KeepHolds(db.slotHolds, (h: SlotHold) => h.expiresAt < now))
  }

  /** Every hold of a payment and of its order, and the order itself if it is still open. */
  function ReleaseAll(db: Db, pid: Id, orderId: Option<Id>): Db {
    var released := ReleaseForPayment(db, pid);
    if orderId.None? then released
    else FailPendingOrder(ReleaseForOrder(released, orderId.value), orderId.value)
  }

  /** How a payment that could not be fulfilled ends: its status, its holds, its order. */
  function Settle(db: Db, pid: Id, orderId: Option<Id>, status: PaymentStatus): Db {
    ReleaseAll(SetStatus(db, pid, status), pid, orderId)
  }

  // ---- Companies -------------------------------------------------------------------------

  predicate HasCompany(db: Db, company: Option<Id>) {
    company.Some? && company.value in db.companies
  }

  /** applyBoothTierToCompany: a booth's tier only ever raises the stored tier. */
  function RaiseTier(db: Db, company: Option<Id>, tier: Option<Tier>): Db {
    if tier.None? || !HasCompany(db, company) then db
    else if Rank(tier) > Rank(db.companies[company.value].tier)
    then db.(companies := db.companies[company.value := db.companies[company.value].(tier := tier)])
    else db
  }

  /** The booths a company holds; takenById is unique, so there is at most one. */
  function OwnBooths(assets: map<AssetId, Asset>, company: Option<Id>): set<AssetId> {
    set a | a in assets && a.kind == Booth && company.Some? && assets[a].owner == company
  }
}
