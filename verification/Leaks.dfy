/**
 * What a delivery leaves behind, table by table, however it ends: the rows and copies of the lines served, and what a
 * plan line that stopped it had already taken. For an order that is given up this is what its compensation does not
 * undo.
 */
module Leaks {
  import opened Common
  import opened CompanyTier
  import opened CheckoutHold
  import opened Tables
  import opened Inventory
  import opened Fulfilment
  import opened Effects
  import opened Charges
  import opened RefundUndo
  import opened SlotConservation
  import opened Obstacles

  // ---- The line that stops ---------------------------------------------------------------

  /** The rows of a bundle that are taken before something of it is refused. */
  function PartRows(db: Db, q: Buyer, e: BundleEntry, rows: set<AssetId>): set<AssetId> {
    if OptionalRow(db, q, Booth, e.boothId, rows) != Done then {}
    else if OptionalRow(db, q, Masterclass, e.masterclassId, rows) != Done then One(Booth, e.boothId)
    else if OptionalRow(db, q, Presentation, e.presentationId, rows) != Done
    then One(Booth, e.boothId) + One(Masterclass, e.masterclassId)
    else EntryAssets(Some(e))
  }

  predicate RowsAreLeft(db: Db, q: Buyer, e: BundleEntry, rows: set<AssetId>) {
    && OptionalRow(db, q, Booth, e.boothId, rows) == Done
    && OptionalRow(db, q, Masterclass, e.masterclassId, rows) == Done
    && OptionalRow(db, q, Presentation, e.presentationId, rows) == Done
  }

  /** The slots of a bundle whose copies are taken and then given back, because one of them has none left. */
  function PartSlots(db: Db, q: Buyer, e: BundleEntry, rows: set<AssetId>, copies: multiset<SlotId>): multiset<SlotId> {
    if !RowsAreLeft(db, q, e, rows) || SlotsAreLeft(db.slots, e.slots, copies) then multiset{}
    else multiset(e.slots[..Served(Debit(db.slots, copies), e.slots, 0)])
  }

  /** The bundle a line tries to take. */
  function TriedEntry(db: Db, q: Buyer, bundles: seq<BundleEntry>, item: Item): Option<BundleEntry> {
    if item.PlanItem? && item.planId.Some? && q.company.Some? && item.planId.value in db.plans
       && db.plans[item.planId.value].active
    then FindEntry(bundles, item.planId.value) else None
  }

  /** Exactly these rows are the buyer's afterwards; the others have the owner they had. */
  ghost predicate RowsGo(before: map<AssetId, Asset>, after: map<AssetId, Asset>, q: Buyer, rows: set<AssetId>) {
    && after.Keys == before.Keys && rows <= before.Keys
    && forall a | a in before ::
         if a in rows then after[a].taken && after[a].owner == Party(q, a.kind) && Party(q, a.kind).Some?
         else after[a].taken == before[a].taken && after[a].owner == before[a].owner
  }

  lemma NoRowsGo(assets: map<AssetId, Asset>, q: Buyer)
    ensures RowsGo(assets, assets, q, {})
  {
  }

  lemma RowsGoOn(x: map<AssetId, Asset>, y: map<AssetId, Asset>, z: map<AssetId, Asset>, q: Buyer, a: set<AssetId>,
                 b: set<AssetId>)
    requires RowsGo(x, y, q, a) && RowsGo(y, z, q, b)
    ensures RowsGo(x, z, q, a + b)
  {
    forall r | r in x
      ensures if r in a + b then z[r].taken && z[r].owner == Party(q, r.kind) && Party(q, r.kind).Some?
        else z[r].taken == x[r].taken && z[r].owner == x[r].owner
    {
      assert r in y;
    }
  }

  /** One row step: done, and the row is the buyer's, or refused, and nothing has changed. */
  ghost predicate RowTaken(db: Db, r: Outcome, q: Buyer, rows: set<AssetId>) {
    && (r.verdict != Done ==> r.db == db)
    && (r.verdict == Done ==> RowsGo(db.assets, r.db.assets, q, rows))
    && r.db.slots == db.slots && r.db.assignments == db.assignments && SameTotals(db.companies, r.db.companies)
  }

  lemma TakeBundleBoothTaken(db: Db, q: Buyer, boothId: Option<Id>)
    requires q.company.Some?
    ensures RowTaken(db, TakeBundleBooth(db, q, boothId), q, One(Booth, boothId))
  {
    hide IsRefused, BreaksUniqueKey;
    NoRowsGo(db.assets, q);
    RaisedTotals(db, q.company);
  }

  lemma RaisedTotals(db: Db, company: Option<Id>)
    ensures forall d: Db, t: Option<Tier> ::
      RaiseTier(d, company, t) == d.(companies := RaiseTier(d, company, t).companies)
    ensures forall d: Db, t: Option<Tier> :: SameTotals(d.companies, RaiseTier(d, company, t).companies)
  {
  }

  lemma TakeBundleSessionTaken(db: Db, q: Buyer, kind: AssetKind, id: Option<Id>)
    requires q.company.Some? && IsSession(kind) && Consistent(db.assets)
    ensures RowTaken(db, TakeBundleSession(db, q, kind, id), q, One(kind, id))
  {
    hide IsBlockedByOther;
    NoRowsGo(db.assets, q);
  }

  lemma ConsistentGoes(before: map<AssetId, Asset>, after: map<AssetId, Asset>, q: Buyer, rows: set<AssetId>)
    requires RowsGo(before, after, q, rows) && Consistent(before)
    ensures Consistent(after)
  {
  }

  lemma TakeBundleSlotsStops(db: Db, q: Buyer, ids: seq<SlotId>)
    requires TakeBundleSlots(db, q, ids).verdict != Done
    ensures var r := TakeBundleSlots(db, q, ids);
      r.db == db.(assignments := db.assignments - Copies(q.company, multiset(ids[..Served(db.slots, ids, 0)])))
  {
    hide Served, Copies;
  }

  ghost predicate StoppedAfter(before: Db, after: Db, q: Buyer, rows: set<AssetId>, back: multiset<SlotId>) {
    && RowsGo(before.assets, after.assets, q, rows) && after.slots == before.slots
    && SameTotals(before.companies, after.companies)
    && after.assignments == before.assignments - Copies(q.company, back)
  }

  lemma NothingStopped(db: Db, q: Buyer)
    ensures StoppedAfter(db, db, q, {}, multiset{})
  {
    NoRowsGo(db.assets, q);
    CopiesCompose(q.company, multiset{}, multiset{});
    hide Copies;
  }

  lemma ThenStopped(x: Db, y: Db, z: Db, q: Buyer, a: set<AssetId>, b: set<AssetId>, back: multiset<SlotId>)
    requires RowsGo(x.assets, y.assets, q, a) && y.slots == x.slots && y.assignments == x.assignments
    requires SameTotals(x.companies, y.companies) && StoppedAfter(y, z, q, b, back)
    ensures StoppedAfter(x, z, q, a + b, back)
  {
    RowsGoOn(x.assets, y.assets, z.assets, q, a, b);
    hide RowsGo;
  }

  /** A bundle that cannot be taken whole: the rows before the obstacle go, the copies taken come back. */
  lemma TakeBundleStops(start: Db, db: Db, q: Buyer, rows: set<AssetId>, copies: multiset<SlotId>, e: BundleEntry)
    requires Progress(start, db, q, rows, copies) && ReadAtStart(start.assets, q) && q.company.Some?
    requires Consistent(db.assets) && TakeBundle(db, q, e).verdict != Done
    ensures StoppedAfter(db, TakeBundle(db, q, e).db, q, PartRows(start, q, e, rows),
                         PartSlots(start, q, e, rows, copies))
  {
    hide RowsProgress, TakeBundleBooth, TakeBundleSession, OptionalRow, Served, Debit, ReadAtStart, SlotsAreLeft,
         OneBooth, RowsGo, StoppedAfter, Consistent, SameTotals, Copies;
    NothingStopped(db, q);
    var a1, a2, a3 := One(Booth, e.boothId), One(Masterclass, e.masterclassId), One(Presentation, e.presentationId);
    var r1 := TakeBundleBooth(db, q, e.boothId);
    TakeBundleBoothOutcome(start, db, q, rows, e.boothId);
    TakeBundleBoothTaken(db, q, e.boothId);
    if r1.verdict == Done {
      ConsistentGoes(db.assets, r1.db.assets, q, a1);
      var r2 := TakeBundleSession(r1.db, q, Masterclass, e.masterclassId);
      NothingStopped(r1.db, q);
      ThenStopped(db, r1.db, r1.db, q, a1, {}, multiset{});
      assert a1 + {} == a1;
      TakeBundleSessionOutcome(start, r1.db, q, rows + a1, Masterclass, e.masterclassId);
      TakeBundleSessionTaken(r1.db, q, Masterclass, e.masterclassId);
      OtherKind(start, q, Masterclass, e.masterclassId, rows, a1);
      if r2.verdict == Done {
        ConsistentGoes(r1.db.assets, r2.db.assets, q, a2);
        TwoRowSteps(db, r1.db, r2.db, q, a1, a2);
        var r3 := TakeBundleSession(r2.db, q, Presentation, e.presentationId);
        NothingStopped(r2.db, q);
        ThenStopped(db, r2.db, r2.db, q, a1 + a2, {}, multiset{});
        assert a1 + a2 + {} == a1 + a2;
        TakeBundleSessionOutcome(start, r2.db, q, rows + a1 + a2, Presentation, e.presentationId);
        TakeBundleSessionTaken(r2.db, q, Presentation, e.presentationId);
        OtherKind(start, q, Presentation, e.presentationId, rows, a1 + a2);
        assert rows + (a1 + a2) == rows + a1 + a2;
        if r3.verdict == Done {
          TwoRowSteps(db, r2.db, r3.db, q, a1 + a2, a3);
          ServedMeansLeft(start.slots, e.slots, copies);
          assert TakeBundleRows(db, q, e) == r3 && r3.db.slots == Debit(start.slots, copies);
          SlotsStopped(r3.db, q, e.slots);
          ThenStopped(db, r3.db, TakeBundle(db, q, e).db, q, a1 + a2 + a3, {}, PartSlots(start, q, e, rows, copies));
          assert a1 + a2 + a3 + {} == a1 + a2 + a3;
        }
      }
    }
  }

  lemma SlotsStopped(db: Db, q: Buyer, ids: seq<SlotId>)
    requires TakeBundleSlots(db, q, ids).verdict != Done
    ensures StoppedAfter(db, TakeBundleSlots(db, q, ids).db, q, {}, multiset(ids[..Served(db.slots, ids, 0)]))
  {
    NoRowsGo(db.assets, q);
    TakeBundleSlotsStops(db, q, ids);
    hide Served, Copies, TakeBundleSlots;
  }

  lemma TwoRowSteps(x: Db, y: Db, z: Db, q: Buyer, a: set<AssetId>, b: set<AssetId>)
    requires RowsGo(x.assets, y.assets, q, a) && RowsGo(y.assets, z.assets, q, b)
    requires SameTotals(x.companies, y.companies) && SameTotals(y.companies, z.companies)
    ensures RowsGo(x.assets, z.assets, q, a + b) && SameTotals(x.companies, z.companies)
  {
    RowsGoOn(x.assets, y.assets, z.assets, q, a, b);
    hide RowsGo;
  }

  function StopRows(db: Db, q: Buyer, bundles: seq<BundleEntry>, item: Item, rows: set<AssetId>): set<AssetId> {
    var e := TriedEntry(db, q, bundles, item);
    if e.None? then {} else PartRows(db, q, e.value, rows)
  }

  function StopSlots(db: Db, q: Buyer, bundles: seq<BundleEntry>, item: Item, rows: set<AssetId>,
                     copies: multiset<SlotId>): multiset<SlotId> {
    var e := TriedEntry(db, q, bundles, item);
    if e.None? then multiset{} else PartSlots(db, q, e.value, rows, copies)
  }

  /** A line that is not served leaves what its bundle had taken; a line without a bundle leaves nothing. */
  lemma FulfilItemStops(start: Db, db: Db, q: Buyer, bundles: seq<BundleEntry>, item: Item, rows: set<AssetId>,
                        copies: multiset<SlotId>)
    requires Progress(start, db, q, rows, copies) && ReadAtStart(start.assets, q) && Consistent(db.assets)
    requires FulfilItem(db, q, bundles, item).verdict != Done
    ensures StoppedAfter(db, FulfilItem(db, q, bundles, item).db, q, StopRows(start, q, bundles, item, rows),
                         StopSlots(start, q, bundles, item, rows, copies))
  {
    NothingStopped(db, q);
    assert db.plans == start.plans;
    var e := TriedEntry(start, q, bundles, item);
    hide Progress, StoppedAfter, TakeBundle, PartRows, PartSlots, ReadAtStart, Consistent, AddSponsorship, FindEntry,
         BreaksUniqueKey, IsRefused;
    if e.Some? { TakeBundleStops(start, db, q, rows, copies, e.value); }
  }

  // ---- The loop --------------------------------------------------------------------------

  /**
   * Rows, counters, assignments and totals after lines that stood for
   * `copies`, `back` of which came back unassigned.
   */
  ghost predicate LinesLeave(before: Db, after: Db, q: Buyer, rows: set<AssetId>, copies: multiset<SlotId>,
                             back: multiset<SlotId>, kobo: int) {
    && RowsGo(before.assets, after.assets, q, rows) && after.slots == Debit(before.slots, copies)
    && after.assignments == before.assignments + Copies(q.company, copies) - Copies(q.company, back)
    && CompaniesMoved(before.companies, after.companies, q.company, kobo)
  }

  lemma ServedRowsGo(start: map<AssetId, Asset>, db: Db, q: Buyer, rows: set<AssetId>)
    requires RowsProgress(start, db, q, rows)
    ensures RowsGo(start, db.assets, q, rows)
  {
    hide IsRefused;
    assert forall a | a in rows :: IsAccepted(db, q, a);
  }

  lemma ServedLinesLeave(db: Db, q: Buyer, bundles: seq<BundleEntry>, items: seq<Item>)
    requires ReadAtStart(db.assets, q) && FulfilItems(db, q, bundles, items).verdict == Done
    requires q.company.Some? ==> q.company.value in db.companies
    ensures var r := FulfilItems(db, q, bundles, items);
      && LinesLeave(db, r.db, q, ItemsAssets(items, bundles), ItemsSlots(items, bundles), multiset{}, ItemsKobo(items))
      && Progress(db, r.db, q, ItemsAssets(items, bundles), ItemsSlots(items, bundles))
  {
    var r := FulfilItems(db, q, bundles, items);
    assert items[..r.served] == items;
    LoopEndsAtTheFirstObstacle(db, q, bundles, items);
    FulfilItemsEffect(db, q, bundles, items);
    CopiesCompose(q.company, multiset{}, multiset{});
    hide FulfilItems, RowsProgress, Claims, HeldBy, ItemsAssets, ItemsSlots, ItemsKobo, Affordable, Debit, Copies,
         RowsGo, ReadAtStart, FirstObstacle, OutcomeAt, CompaniesMoved;
    ServedRowsGo(db.assets, r.db, q, ItemsAssets(items, bundles));
  }

  lemma LeaveAndStop(x: Db, y: Db, z: Db, q: Buyer, a: set<AssetId>, b: set<AssetId>, copies: multiset<SlotId>,
                     back: multiset<SlotId>, kobo: int)
    requires LinesLeave(x, y, q, a, copies, multiset{}, kobo) && StoppedAfter(y, z, q, b, back)
    requires forall c | c in y.companies && Some(c) != q.company :: z.companies[c] == y.companies[c]
    ensures LinesLeave(x, z, q, a + b, copies, back, kobo)
  {
    RowsGoOn(x.assets, y.assets, z.assets, q, a, b);
    CopiesCompose(q.company, multiset{}, multiset{});
    hide RowsGo, Copies, Debit;
  }

  /** The whole loop, to its end or to the line that stops it. */
  lemma LoopLeaves(db: Db, q: Buyer, bundles: seq<BundleEntry>, items: seq<Item>)
    requires ReadAtStart(db.assets, q) && Consistent(db.assets)
    requires q.company.Some? ==> q.company.value in db.companies
    ensures var r := FulfilItems(db, q, bundles, items); var served := items[..r.served];
      var rows, copies := ItemsAssets(served, bundles), ItemsSlots(served, bundles);
      if r.served == |items| then LinesLeave(db, r.db, q, rows, copies, multiset{}, ItemsKobo(served))
      else
        LinesLeave(db, r.db, q, rows + StopRows(db, q, bundles, items[r.served], rows), copies,
                   StopSlots(db, q, bundles, items[r.served], rows, copies), ItemsKobo(served))
  {
    var r := FulfilItems(db, q, bundles, items);
    var n := r.served;
    if n == |items| {
      assert items[..n] == items;
      hide FulfilItems;
      ServedLinesLeave(db, q, bundles, items);
    } else {
      LoopStopsAt(db, q, bundles, items);
      var x := FulfilItems(db, q, bundles, items[..n]).db;
      hide FulfilItems, FulfilItem, LinesLeave, StoppedAfter, ItemsAssets, ItemsSlots, ItemsKobo, Progress, ReadAtStart,
           Consistent, StopRows, StopSlots;
      ServedLinesLeave(db, q, bundles, items[..n]);
      var rows, copies := ItemsAssets(items[..n], bundles), ItemsSlots(items[..n], bundles);
      StillConsistent(db, x, q, rows, copies, ItemsKobo(items[..n]));
      FulfilItemStops(db, x, q, bundles, items[n], rows, copies);
      LineMovesOneCompany(x, q, bundles, items[n]);
      LeaveAndStop(db, x, r.db, q, rows, StopRows(db, q, bundles, items[n], rows), copies,
                   StopSlots(db, q, bundles, items[n], rows, copies), ItemsKobo(items[..n]));
    }
  }

  lemma StillConsistent(db: Db, x: Db, q: Buyer, rows: set<AssetId>, copies: multiset<SlotId>, kobo: int)
    requires LinesLeave(db, x, q, rows, copies, multiset{}, kobo) && Consistent(db.assets)
    requires q.company.Some? ==> q.company.value in db.companies
    ensures Consistent(x.assets) && (q.company.Some? ==> q.company.value in x.companies)
  {
    ConsistentGoes(db.assets, x.assets, q, rows);
    hide RowsGo, Consistent;
  }

  lemma LineMovesOneCompany(db: Db, q: Buyer, bundles: seq<BundleEntry>, item: Item)
    requires q.company.Some? ==> q.company.value in db.companies
    ensures var d := FulfilItem(db, q, bundles, item).db;
      forall c | c in db.companies && Some(c) != q.company :: c in d.companies && d.companies[c] == db.companies[c]
  {
    FulfilItemEffect(db, q, bundles, item);
    hide FulfilItem, Claims, HeldBy, ItemAssets, ItemSlots, Debit, Affordable, Copies;
  }

  // ---- Deliveries ------------------------------------------------------------------------

  /** The lines a delivery would serve, read off the tables. */
  function LinesServed(db: Db, pid: Id, now: int): seq<Item>
    requires pid in db.payments
  {
    if IsMissing(db, pid, now) then [] else Lines(db, db.payments[pid])[..ServedBefore(db, pid, now)]
  }

  /** The line that would stop it. */
  function StoppingLine(db: Db, pid: Id, now: int): Option<Item>
    requires pid in db.payments
  {
    var items := Lines(db, db.payments[pid]);
    if IsMissing(db, pid, now) || ServedBefore(db, pid, now) == |items| then None
    else Some(items[ServedBefore(db, pid, now)])
  }

  /** The rows it would take: those of the lines served, and those that a bundle stopped half-way has already taken. */
  function TakenRows(db: Db, pid: Id, now: int): set<AssetId>
    requires pid in db.payments
  {
    var bundles := db.payments[pid].bundles;
    var rows := ItemsAssets(LinesServed(db, pid, now), bundles);
    var stop := StoppingLine(db, pid, now);
    rows + if stop.None? then {} else StopRows(db, PaymentBuyer(db, pid, now), bundles, stop.value, rows)
  }

  /** The copies whose assignments it would delete: those a bundle stopped at its slots had taken. */
  function RolledBack(db: Db, pid: Id, now: int): multiset<SlotId>
    requires pid in db.payments
  {
    var bundles := db.payments[pid].bundles;
    var served := LinesServed(db, pid, now);
    var stop := StoppingLine(db, pid, now);
    if stop.None? then multiset{}
    else StopSlots(db, PaymentBuyer(db, pid, now), bundles, stop.value, ItemsAssets(served, bundles),
                   ItemsSlots(served, bundles))
  }

  /** The copies that came with the bundles of these lines. */
  function BundleSlots(items: seq<Item>, bundles: seq<BundleEntry>): multiset<SlotId> {
    if items == [] then multiset{} else EntrySlots(ItemEntry(items[0], bundles)) + BundleSlots(items[1..], bundles)
  }

  lemma {:induction false} SlotsOfLinesAndBundles(items: seq<Item>, bundles: seq<BundleEntry>)
    ensures ItemsSlots(items, bundles) == SlotLines(items) + BundleSlots(items, bundles)
    decreases items
  {
    if items != [] {
      SlotsOfLinesAndBundles(items[1..], bundles);
      hide FindEntry;
    }
  }

  lemma NothingLeft(db: Db, q: Buyer)
    ensures LinesLeave(db, db, q, {}, multiset{}, multiset{}, 0)
  {
    NoRowsGo(db.assets, q);
    NothingMoves(db.slots);
    CopiesCompose(q.company, multiset{}, multiset{});
    hide Copies, Debit;
  }

  /** Before the epilogue. */
  lemma MidLeaves(db: Db, pid: Id, now: int)
    requires pid in db.payments && Consistent(db.assets)
    ensures LinesLeave(db, Mid(db, pid, now), PaymentBuyer(db, pid, now), TakenRows(db, pid, now),
                       WouldTake(db, pid, now), RolledBack(db, pid, now), ItemsKobo(LinesServed(db, pid, now)))
  {
    var p := db.payments[pid];
    var q := PaymentBuyer(db, pid, now);
    var items := Lines(db, p);
    assert ReadAtStart(db.assets, q) && (q.company.Some? ==> q.company.value in db.companies);
    if IsMissing(db, pid, now) {
      NothingLeft(db, q);
      assert ItemsAssets([], p.bundles) == {} && ItemsKobo([]) == 0;
      hide LinesLeave;
    } else {
      var n := ServedBefore(db, pid, now);
      ServedIs(db, pid, now);
      var rows, copies := ItemsAssets(items[..n], p.bundles), ItemsSlots(items[..n], p.bundles);
      assert n < |items| ==> TakenRows(db, pid, now) == rows + StopRows(db, q, p.bundles, items[n], rows);
      assert n == |items| ==> TakenRows(db, pid, now) == rows + {} == rows;
      assert n < |items| ==> RolledBack(db, pid, now) == StopSlots(db, q, p.bundles, items[n], rows, copies);
      assert n == |items| ==> RolledBack(db, pid, now) == multiset{};
      assert WouldTake(db, pid, now) == copies && LinesServed(db, pid, now) == items[..n];
      hide *;
      LoopLeaves(db, q, p.bundles, items);
    }
  }

  lemma ServedIs(db: Db, pid: Id, now: int)
    requires pid in db.payments && !IsMissing(db, pid, now)
    ensures var p := db.payments[pid]; var items := Lines(db, p);
      var r := FulfilItems(db, PaymentBuyer(db, pid, now), p.bundles, items);
      r.served == ServedBefore(db, pid, now) <= |items| && Mid(db, pid, now) == r.db
  {
    DeliveryIsForeseen(db, pid, now);
    hide FulfilItems, IsMissing, PaymentBuyer, Lines, ServedBefore, StopsWith;
  }

  lemma StopAlike(a: Db, b: Db, q: Buyer, bundles: seq<BundleEntry>, item: Item, rows: set<AssetId>,
                  copies: multiset<SlotId>)
    requires a.assets == b.assets && a.slots == b.slots && a.plans == b.plans
    ensures StopRows(a, q, bundles, item, rows) == StopRows(b, q, bundles, item, rows)
    ensures StopSlots(a, q, bundles, item, rows, copies) == StopSlots(b, q, bundles, item, rows, copies)
  {
    assert forall kind, id :: OptionalRow(a, q, kind, id, rows) == OptionalRow(b, q, kind, id, rows) by {
      hide IsRefused, OtherBooth;
    }
    hide OptionalRow, FindEntry, Served, Debit;
  }

  lemma MarkedLeaves(db: Db, pid: Id, now: int)
    requires pid in db.payments
    ensures var marked := SetStatus(db, pid, Success);
      && TakenRows(marked, pid, now) == TakenRows(db, pid, now)
      && RolledBack(marked, pid, now) == RolledBack(db, pid, now)
      && WouldTake(marked, pid, now) == WouldTake(db, pid, now)
      && LinesServed(marked, pid, now) == LinesServed(db, pid, now)
  {
    var marked := SetStatus(db, pid, Success);
    var q := PaymentBuyer(db, pid, now);
    MarkedIsAlike(db, pid, now);
    var stop := StoppingLine(db, pid, now);
    assert marked.assets == db.assets && marked.slots == db.slots && marked.plans == db.plans;
    assert marked.payments[pid].bundles == db.payments[pid].bundles;
    var served := LinesServed(db, pid, now);
    hide StopRows, StopSlots, ItemsAssets, ItemsSlots, ServedBefore, StopsWith, IsMissing, Lines, PaymentBuyer,
         SetStatus;
    if stop.Some? {
      var bundles := db.payments[pid].bundles;
      StopAlike(marked, db, q, bundles, stop.value, ItemsAssets(served, bundles), ItemsSlots(served, bundles));
    }
  }

  /** The copies an order that is given up returns: those of its stand-alone slot lines. */
  function GivenBack(db: Db, pid: Id, now: int): multiset<SlotId>
    requires pid in db.payments
  {
    if !IsMissing(db, pid, now) && StopsWith(db, pid, now) == Unavailable && db.payments[pid].kind == OrderPayment
    then SlotLines(LinesServed(db, pid, now)) else multiset{}
  }

  lemma NetIsTakenLessGiven(db: Db, pid: Id, now: int)
    requires pid in db.payments
    ensures Net(db, pid, now) == WouldTake(db, pid, now) - GivenBack(db, pid, now)
  {
    var p := db.payments[pid];
    DeliveryIsForeseen(db, pid, now);
    if IsMissing(db, pid, now) {
      assert ItemsSlots([], p.bundles) == multiset{};
    }
    hide Core, StopsWith, ServedBefore, IsMissing, ItemsSlots, SlotLines;
  }

  lemma MarkedGivesBack(db: Db, pid: Id, now: int)
    requires pid in db.payments
    ensures GivenBack(SetStatus(db, pid, Success), pid, now) == GivenBack(db, pid, now)
  {
    MarkedIsAlike(db, pid, now);
    MarkedLeaves(db, pid, now);
    hide StopsWith, IsMissing, SlotLines, LinesServed;
  }

  ghost predicate DeliveryLeft(before: Db, after: Db, pid: Id, now: int)
    requires pid in before.payments
  {
    var q := PaymentBuyer(before, pid, now);
    && RowsGo(before.assets, after.assets, q, TakenRows(before, pid, now))
    && after.slots == Debit(before.slots, WouldTake(before, pid, now) - GivenBack(before, pid, now))
    && after.assignments == before.assignments + Copies(q.company, WouldTake(before, pid, now))
                            - Copies(q.company, RolledBack(before, pid, now))
    && CompaniesMoved(before.companies, after.companies, q.company, ItemsKobo(LinesServed(before, pid, now)))
  }

  lemma LeavesAtEnd(db: Db, marked: Db, mid: Db, d: Db, pid: Id, status: PaymentStatus, q: Buyer, rows: set<AssetId>,
                    copies: multiset<SlotId>, back: multiset<SlotId>, kobo: int)
    requires marked.assets == db.assets && marked.assignments == db.assignments && marked.companies == db.companies
    requires LinesLeave(marked, mid, q, rows, copies, back, kobo) && pid in mid.payments && Tidied(mid, d, pid, status)
    ensures RowsGo(db.assets, d.assets, q, rows) && CompaniesMoved(db.companies, d.companies, q.company, kobo)
    ensures d.assignments == db.assignments + Copies(q.company, copies) - Copies(q.company, back)
  {
    hide Debit, Copies, OrdersKeep;
  }

  /** What any delivery leaves in the tables, in terms of the tables before it. */
  lemma DeliveryLeaves(db: Db, pid: Id, refundGranted: bool, now: int)
    requires pid in db.payments && WellFormed(db.payments[pid]) && Consistent(db.assets)
    ensures DeliveryLeft(db, ApplySuccess(SetStatus(db, pid, Success), pid, refundGranted, now), pid, now)
  {
    var marked := SetStatus(db, pid, Success);
    var d := ApplySuccess(marked, pid, refundGranted, now);
    assert marked == db.(payments := marked.payments) && WellFormed(marked.payments[pid]);
    hide *;
    MidLeaves(marked, pid, now);
    MarkedLeaves(db, pid, now);
    MarkedGivesBack(db, pid, now);
    MarkedIsAlike(db, pid, now);
    NetIsTakenLessGiven(marked, pid, now);
    DeliveryEffect(marked, pid, refundGranted, now);
    var q := PaymentBuyer(db, pid, now);
    LeavesAtEnd(db, marked, Mid(marked, pid, now), d, pid, StatusAfter(marked, pid, refundGranted, now), q,
                TakenRows(db, pid, now), WouldTake(db, pid, now), RolledBack(db, pid, now),
                ItemsKobo(LinesServed(db, pid, now)));
    LeftIs(db, d, pid, now);
  }

  lemma LeftIs(db: Db, d: Db, pid: Id, now: int)
    requires pid in db.payments
    requires var q := PaymentBuyer(db, pid, now);
      && RowsGo(db.assets, d.assets, q, TakenRows(db, pid, now))
      && d.slots == Debit(db.slots, WouldTake(db, pid, now) - GivenBack(db, pid, now))
      && d.assignments == db.assignments + Copies(q.company, WouldTake(db, pid, now))
                          - Copies(q.company, RolledBack(db, pid, now))
      && CompaniesMoved(db.companies, d.companies, q.company, ItemsKobo(LinesServed(db, pid, now)))
    ensures DeliveryLeft(db, d, pid, now)
  {
  }

  // ---- Deliveries that are given up ------------------------------------------------------

  /** The payment waits for its delivery, and something it buys will be unavailable. */
  predicate IsGivenUp(db: Db, pid: Id, now: int) {
    && pid in db.payments && (db.payments[pid].status == Pending || db.payments[pid].status == Failed)
    && !IsMissing(db, pid, now) && StopsWith(db, pid, now) == Unavailable
  }

  lemma OwnershipStays(before: map<AssetId, Asset>, after: map<AssetId, Asset>, q: Buyer, rows: set<AssetId>)
    requires RowsGo(before, after, q, rows) && Consistent(before)
    ensures SameOwnership(before, after) <==> forall a | a in rows :: before[a].owner == Party(q, a.kind)
  {
    assert forall a | a in rows :: a in before && after[a].owner == Party(q, a.kind) && after[a].taken;
  }

  lemma AssignmentsStay(a: set<(Id, SlotId)>, c: set<(Id, SlotId)>, r: set<(Id, SlotId)>)
    ensures a + c - r == a <==> r !! a && c <= a + r
  {
    assert forall x | x in r :: x !in a + c - r;
    assert forall x | x in c && x !in r :: x in a + c - r;
    assert r !! a && c <= a + r ==> forall x :: x in a + c - r <==> x in a;
  }

  lemma CountersStay(slots: map<SlotId, Slot>, m: multiset<SlotId>)
    requires forall s | s in m :: s in slots
    ensures Debit(slots, m) == slots <==> m == multiset{}
  {
    NothingMoves(slots);
    forall s | s in m ensures Debit(slots, m)[s] != slots[s] {}
  }

  lemma TotalsStay(before: map<Id, Company>, after: map<Id, Company>, c: Option<Id>, kobo: int)
    requires CompaniesMoved(before, after, c, kobo) && (c.Some? ==> c.value in before)
    ensures SameTotals(before, after) <==> c.None? || kobo == 0
  {
  }

  /** What the compensation of an order leaves of its counters: the copies of the bundles served. */
  lemma BundlesStayOut(db: Db, pid: Id, now: int)
    requires IsGivenUp(db, pid, now) && WellFormed(db.payments[pid])
    ensures WouldTake(db, pid, now) - GivenBack(db, pid, now)
         == BundleSlots(LinesServed(db, pid, now), db.payments[pid].bundles)
  {
    var p := db.payments[pid];
    var served := LinesServed(db, pid, now);
    SlotsOfLinesAndBundles(served, p.bundles);
    assert WouldTake(db, pid, now) == ItemsSlots(served, p.bundles);
    if p.kind != OrderPayment {
      assert |Lines(db, p)| == 1 && ServedBefore(db, pid, now) < 1;
      assert served == [] && SlotLines([]) == multiset{};
    }
    hide ItemsSlots, BundleSlots, SlotLines, LinesServed, StopsWith, IsMissing, Lines;
  }

  lemma GivenUpEnds(db: Db, pid: Id, refundGranted: bool, now: int)
    requires IsGivenUp(db, pid, now) && WellFormed(db.payments[pid])
    ensures var d := ChargeSuccess(db, pid, refundGranted, now);
      && d == ApplySuccess(SetStatus(db, pid, Success), pid, refundGranted, now)
      && d.payments == db.payments[pid := db.payments[pid].(status := RefundStatus(refundGranted))]
  {
    var marked := SetStatus(db, pid, Success);
    MarkedIsAlike(db, pid, now);
    DeliveryIsForeseen(marked, pid, now);
    ChargedTables(db, pid, refundGranted, now);
    hide ApplySuccess, Core, StopsWith, ServedBefore, IsMissing, Net, Debit, Grown, WellFormed;
  }

  lemma BundlesExist(db: Db, pid: Id, now: int)
    requires IsGivenUp(db, pid, now) && WellFormed(db.payments[pid])
    ensures forall s | s in BundleSlots(LinesServed(db, pid, now), db.payments[pid].bundles) :: s in db.slots
  {
    var marked := SetStatus(db, pid, Success);
    assert marked.slots == db.slots && WellFormed(marked.payments[pid]);
    BundlesStayOut(db, pid, now);
    NetIsTakenLessGiven(marked, pid, now);
    MarkedLeaves(db, pid, now);
    MarkedGivesBack(db, pid, now);
    NetIsAffordable(marked, pid, now);
    hide Net, WouldTake, GivenBack, BundleSlots, LinesServed, IsGivenUp, WellFormed;
  }

  /**
   * A delivery that is given up, table by table, and exactly when it leaves each table as it was: the rows, when they
   * were the buyer's already; the counters, when no bundle was served; the assignments, when those of the copies taken
   * were there, or deleted with a bundle, and no other was deleted; the totals, when the plans served cost nothing.
   */
  lemma GivenUpDeliveriesLeak(db: Db, pid: Id, refundGranted: bool, now: int)
    requires IsGivenUp(db, pid, now) && WellFormed(db.payments[pid]) && Consistent(db.assets)
    ensures var d := ChargeSuccess(db, pid, refundGranted, now);
      var q := PaymentBuyer(db, pid, now);
      var served := LinesServed(db, pid, now);
      var c, r := Copies(q.company, WouldTake(db, pid, now)), Copies(q.company, RolledBack(db, pid, now));
      var bundled := BundleSlots(served, db.payments[pid].bundles);
      && DeliveryLeft(db, d, pid, now) && d.slots == Debit(db.slots, bundled)
      && pid in d.payments && d.payments[pid].status == RefundStatus(refundGranted)
      && TakenRows(db, pid, now) <= db.assets.Keys
      && (SameOwnership(db.assets, d.assets) <==>
          forall a | a in TakenRows(db, pid, now) :: db.assets[a].owner == Party(q, a.kind))
      && (d.slots == db.slots <==> bundled == multiset{})
      && (d.assignments == db.assignments <==> r !! db.assignments && c <= db.assignments + r)
      && (SameTotals(db.companies, d.companies) <==> q.company.None? || ItemsKobo(served) == 0)
  {
    var q := PaymentBuyer(db, pid, now);
    var served := LinesServed(db, pid, now);
    assert q.company.Some? ==> q.company.value in db.companies;
    var d := ChargeSuccess(db, pid, refundGranted, now);
    GivenUpEnds(db, pid, refundGranted, now);
    hide IsGivenUp, ChargeSuccess, ApplySuccess, PaymentBuyer, LinesServed, WouldTake, GivenBack, RolledBack, TakenRows,
         BundleSlots, ItemsKobo, RowsGo, Copies, Debit, CompaniesMoved, Consistent, WellFormed, SetStatus;
    DeliveryLeaves(db, pid, refundGranted, now);
    BundlesStayOut(db, pid, now);
    BundlesExist(db, pid, now);
    CountersStay(db.slots, BundleSlots(served, db.payments[pid].bundles));
    RowsAreRows(db.assets, d.assets, q, TakenRows(db, pid, now));
    OwnershipStays(db.assets, d.assets, q, TakenRows(db, pid, now));
    AssignmentsStay(db.assignments, Copies(q.company, WouldTake(db, pid, now)),
                    Copies(q.company, RolledBack(db, pid, now)));
    TotalsStay(db.companies, d.companies, q.company, ItemsKobo(served));
  }

  lemma RowsAreRows(before: map<AssetId, Asset>, after: map<AssetId, Asset>, q: Buyer, rows: set<AssetId>)
    requires RowsGo(before, after, q, rows)
    ensures rows <= before.Keys
  {
  }
}
