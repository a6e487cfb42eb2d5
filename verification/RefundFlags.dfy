/**
 * What a refund does not restore: the reserved flag and the hold of a row are columns that a delivery may clear and
 * that no reversal writes.
 */
module RefundFlags {
  import opened Common
  import opened CompanyTier
  import opened CheckoutHold
  import opened Tables
  import opened Inventory
  import opened Fulfilment
  import opened Refunds
  import opened Effects
  import opened Charges
  import opened Reversals
  import opened RefundUndo
  import opened Obstacles
  import opened Leaks

  /** The booths that come with the bundles of these lines. */
  function BundleBooths(items: seq<Item>, bundles: seq<BundleEntry>): set<AssetId> {
    if items == [] then {}
    else
      var e := ItemEntry(items[0], bundles);
      (if e.None? then {} else One(Booth, e.value.boothId)) + BundleBooths(items[1..], bundles)
  }

  /**
   * The bundle rows a line takes itself: its booth always, a session unless
   * somebody has it, as after `rows` were taken.
   */
  function ClearedByLine(start: map<AssetId, Asset>, item: Item, bundles: seq<BundleEntry>, rows: set<AssetId>)
                         : set<AssetId> {
    var e := ItemEntry(item, bundles);
    if e.None? then {}
    else
      One(Booth, e.value.boothId)
      + set a | a in EntryAssets(e) && a.kind != Booth && a in start && !start[a].taken && a !in rows
  }

  function Cleared(start: map<AssetId, Asset>, items: seq<Item>, bundles: seq<BundleEntry>, rows: set<AssetId>)
                   : set<AssetId> {
    if items == [] then {}
    else
      ClearedByLine(start, items[0], bundles, rows)
      + Cleared(start, items[1..], bundles, rows + ItemAssets(items[0], bundles))
  }

  /** Flags after a step that takes bundled `booths` among the rows it clears. */
  ghost predicate FlagsGo(before: map<AssetId, Asset>, after: map<AssetId, Asset>, booths: set<AssetId>,
                          cleared: set<AssetId>) {
    && after.Keys == before.Keys
    && forall a | a in before ::
         && after[a].reserved == (before[a].reserved && a !in booths)
         && after[a].hold == if a in cleared then NO_HOLD else before[a].hold
  }

  lemma FlagsGoOn(x: map<AssetId, Asset>, y: map<AssetId, Asset>, z: map<AssetId, Asset>, b: set<AssetId>,
                  c: set<AssetId>, d: set<AssetId>, e: set<AssetId>)
    requires FlagsGo(x, y, b, c) && FlagsGo(y, z, d, e)
    ensures FlagsGo(x, z, b + d, c + e)
  {
  }

  lemma NoFlagsGo(assets: map<AssetId, Asset>)
    ensures FlagsGo(assets, assets, {}, {})
  {
  }

  lemma TakeBundleFlags(db: Db, q: Buyer, e: BundleEntry)
    requires TakeBundle(db, q, e).verdict == Done
    ensures FlagsGo(db.assets, TakeBundle(db, q, e).db.assets, One(Booth, e.boothId),
                    One(Booth, e.boothId) + set a | a in EntryAssets(Some(e)) && a.kind != Booth && a in db.assets
                      && !db.assets[a].taken)
  {
    var r1 := TakeBundleBooth(db, q, e.boothId);
    var r2 := TakeBundleSession(r1.db, q, Masterclass, e.masterclassId);
    var r3 := TakeBundleSession(r2.db, q, Presentation, e.presentationId);
    assert r1.verdict == Done && r2.verdict == Done && r3.verdict == Done;
    assert TakeBundle(db, q, e).db.assets == r3.db.assets by { hide Served, TakeBundleBooth, TakeBundleSession; }
    BoothFlags(db, q, e.boothId);
    SessionFlags(r1.db, q, Masterclass, e.masterclassId);
    SessionFlags(r2.db, q, Presentation, e.presentationId);
    hide TakeBundle, TakeBundleBooth, TakeBundleSession;
  }

  lemma BoothFlags(db: Db, q: Buyer, boothId: Option<Id>)
    requires TakeBundleBooth(db, q, boothId).verdict == Done
    ensures var d := TakeBundleBooth(db, q, boothId).db;
      && FlagsGo(db.assets, d.assets, One(Booth, boothId), One(Booth, boothId))
      && forall a | a in db.assets && a !in One(Booth, boothId) :: d.assets[a] == db.assets[a]
  {
    assert forall d: Db, t: Option<Tier> :: RaiseTier(d, q.company, t).assets == d.assets;
    hide RaiseTier, IsRefused, BreaksUniqueKey;
  }

  lemma SessionFlags(db: Db, q: Buyer, kind: AssetKind, id: Option<Id>)
    requires TakeBundleSession(db, q, kind, id).verdict == Done
    ensures var d := TakeBundleSession(db, q, kind, id).db; var a := One(kind, id);
      && FlagsGo(db.assets, d.assets, {}, set x | x in a && x in db.assets && !db.assets[x].taken)
      && forall x | x in db.assets && x !in a :: d.assets[x] == db.assets[x]
  {
    hide IsRefused;
  }

  lemma TakenLineFlags(db: Db, q: Buyer, id: AssetId)
    ensures FlagsGo(db.assets, TakeLine(db, q, id).db.assets, {}, {})
  {
    NoFlagsGo(db.assets);
    assert forall d: Db, t: Option<Tier> :: RaiseTier(d, q.company, t).assets == d.assets;
    hide RaiseTier, IsRefused, BreaksUniqueKey;
  }

  /** Nothing of the flags moves. */
  lemma PlainLineFlags(db: Db, q: Buyer, bundles: seq<BundleEntry>, item: Item)
    requires FulfilItem(db, q, bundles, item).verdict == Done && ItemEntry(item, bundles).None?
    ensures FlagsGo(db.assets, FulfilItem(db, q, bundles, item).db.assets, {}, {})
  {
    NoFlagsGo(db.assets);
    if item.AssetItem? && item.assetId.Some? { TakenLineFlags(db, q, AssetId(item.asset, item.assetId.value)); }
    assert item.PlanItem? ==> FulfilItem(db, q, bundles, item).db.assets == db.assets by { hide FindEntry; }
    hide TakeLine, AddSponsorship, FlagsGo, FindEntry;
  }

  lemma PlanLineFlags(db: Db, q: Buyer, bundles: seq<BundleEntry>, item: Item)
    requires FulfilItem(db, q, bundles, item).verdict == Done && ItemEntry(item, bundles).Some?
    ensures var e := ItemEntry(item, bundles).value;
      && TakeBundle(db, q, e).verdict == Done
      && FulfilItem(db, q, bundles, item).db.assets == TakeBundle(db, q, e).db.assets
  {
    assert forall d: Db, plan: Plan, kobo: int :: AddSponsorship(d, q, plan, kobo).assets == d.assets;
    hide AddSponsorship, TakeBundle, FindEntry;
  }

  lemma LineFlags(start: map<AssetId, Asset>, db: Db, q: Buyer, bundles: seq<BundleEntry>, item: Item,
                  rows: set<AssetId>)
    requires RowsGo(start, db.assets, q, rows) && FulfilItem(db, q, bundles, item).verdict == Done
    ensures var e := ItemEntry(item, bundles);
      FlagsGo(db.assets, FulfilItem(db, q, bundles, item).db.assets,
              if e.None? then {} else One(Booth, e.value.boothId),
              ClearedByLine(start, item, bundles, rows))
  {
    var e := ItemEntry(item, bundles);
    if e.None? {
      PlainLineFlags(db, q, bundles, item);
    } else {
      PlanLineFlags(db, q, bundles, item);
      TakeBundleFlags(db, q, e.value);
      assert forall a | a in EntryAssets(e) && a in db.assets :: !db.assets[a].taken <==>
        a in start && !start[a].taken && a !in rows;
      assert ClearedByLine(start, item, bundles, rows)
        == One(Booth, e.value.boothId)
           + set a | a in EntryAssets(e) && a.kind != Booth && a in db.assets && !db.assets[a].taken;
    }
    hide FulfilItem, TakeBundle, EntryAssets;
  }

  lemma {:induction false} LinesFlags(start: Db, db: Db, q: Buyer, bundles: seq<BundleEntry>, items: seq<Item>,
                                      rows: set<AssetId>, copies: multiset<SlotId>)
    requires Progress(start, db, q, rows, copies) && ReadAtStart(start.assets, q)
    requires FulfilItems(db, q, bundles, items).verdict == Done
    ensures FlagsGo(db.assets, FulfilItems(db, q, bundles, items).db.assets, BundleBooths(items, bundles),
                    Cleared(start.assets, items, bundles, rows))
    decreases items
  {
    if items == [] {
      NoFlagsGo(db.assets);
    } else {
      var first := FulfilItem(db, q, bundles, items[0]);
      var more, some := rows + ItemAssets(items[0], bundles), copies + ItemSlots(items[0], bundles);
      FulfilItemOutcome(start, db, q, bundles, rows, copies, items[0]);
      ServedRowsGo(start.assets, db, q, rows);
      LineFlags(start.assets, db, q, bundles, items[0], rows);
      hide FulfilItem, RowsProgress, FlagsGo, ItemAssets, ItemSlots, ClearedByLine, ReadAtStart, RowsGo, Debit,
           ItemEntry;
      LinesFlags(start, first.db, q, bundles, items[1..], more, some);
      var e := ItemEntry(items[0], bundles);
      FlagsGoOn(db.assets, first.db.assets, FulfilItems(first.db, q, bundles, items[1..]).db.assets,
                if e.None? then {}
                  else One(Booth, e.value.boothId), ClearedByLine(start.assets, items[0], bundles, rows),
                BundleBooths(items[1..], bundles), Cleared(start.assets, items[1..], bundles, more));
    }
  }

  // ---- A fulfilled payment, refunded -----------------------------------------------------

  /** The holds that the epilogue of a fulfilled delivery clears: those of the order, or of the plan payment. */
  predicate IsReleased(p: Payment, pid: Id, h: Hold) {
    match p.kind
    case OrderPayment => h.orderId == p.orderId && p.orderId.Some?
    case PlanPayment => h.paymentId == Some(pid)
    case _ => false
  }

  function RowReleased(p: Payment, pid: Id, row: Asset): Asset {
    if IsReleased(p, pid, row.hold) then row.(hold := NO_HOLD) else row
  }

  lemma ReleasedRows(db: Db, id: Id, a: AssetId)
    ensures ReleaseForOrder(db, id).assets.Keys == ReleaseForPayment(db, id).assets.Keys == db.assets.Keys
    ensures a in db.assets ==>
      var row := db.assets[a];
      && ReleaseForOrder(db, id).assets[a] == (if row.hold.orderId == Some(id) then row.(hold := NO_HOLD) else row)
      && ReleaseForPayment(db, id).assets[a] == (if row.hold.paymentId == Some(id) then row.(hold := NO_HOLD) else row)
  {
    hide KeepHolds;
  }

  lemma FinishFlags(db: Db, pid: Id, p: Payment)
    requires WellFormed(p)
    ensures var d := Finish(db, pid, p);
      && d.assets.Keys == db.assets.Keys
      && forall a | a in db.assets ::
           d.assets[a] == RowReleased(p, pid, db.assets[a])
  {
    var d := Finish(db, pid, p);
    ReleasedRows(db, pid, AssetId(Booth, 0));
    if p.orderId.Some? { ReleasedRows(db, p.orderId.value, AssetId(Booth, 0)); }
    forall a | a in db.assets
      ensures d.assets[a] == RowReleased(p, pid, db.assets[a])
    {
      ReleasedRows(db, pid, a);
      if p.orderId.Some? { ReleasedRows(db, p.orderId.value, a); }
    }
    hide ReleaseForOrder, ReleaseForPayment;
  }

  /** Flags after a charge that is fulfilled. */
  ghost predicate FlagsAfter(before: map<AssetId, Asset>, after: map<AssetId, Asset>, p: Payment, pid: Id,
                             booths: set<AssetId>, cleared: set<AssetId>) {
    && after.Keys == before.Keys
    && forall a | a in before ::
         && after[a].reserved == (before[a].reserved && a !in booths)
         && after[a].hold == if a in cleared || IsReleased(p, pid, before[a].hold) then NO_HOLD else before[a].hold
  }

  lemma ReleasedFlags(before: map<AssetId, Asset>, mid: Db, p: Payment, pid: Id, booths: set<AssetId>,
                      cleared: set<AssetId>)
    requires FlagsGo(before, mid.assets, booths, cleared) && WellFormed(p)
    ensures FlagsAfter(before, Finish(mid, pid, p).assets, p, pid, booths, cleared)
  {
    FinishFlags(mid, pid, p);
    hide Finish, WellFormed;
  }

  lemma CoreFlags(db: Db, pid: Id, now: int)
    requires pid in db.payments && Core(db, pid, now).verdict == Done
    ensures var p := db.payments[pid]; var items := Lines(db, p);
      FlagsGo(db.assets, Core(db, pid, now).db.assets, BundleBooths(items, p.bundles),
              Cleared(db.assets, items, p.bundles, {}))
  {
    var p := db.payments[pid];
    var q := PaymentBuyer(db, pid, now);
    assert ReadAtStart(db.assets, q);
    NoProgressYet(db, q, p.bundles);
    assert ItemsAssets([], p.bundles) == {};
    hide Progress, FulfilItems, PaymentBuyer, Lines, ReadAtStart, Cleared, BundleBooths, ItemsAssets, ItemsSlots;
    LinesFlags(db, db, q, p.bundles, Lines(db, p), {}, ItemsSlots([], p.bundles));
  }

  lemma MarkedFlags(db: Db, pid: Id, now: int)
    requires Fulfils(db, pid, now) && WellFormed(db.payments[pid])
    ensures var marked := SetStatus(db, pid, Success); var p := db.payments[pid];
      && marked.assets == db.assets && pid in marked.payments && marked.payments[pid] == p.(status := Success)
      && WellFormed(marked.payments[pid]) && Lines(marked, marked.payments[pid]) == Lines(db, p)
      && !IsMissing(marked, pid, now) && Core(marked, pid, now).verdict == Done
      && Mid(marked, pid, now) == Core(marked, pid, now).db
  {
    hide IsMissing, Core;
  }

  lemma FulfilledIs(db: Db, pid: Id, refundGranted: bool, now: int)
    requires Fulfils(db, pid, now) && WellFormed(db.payments[pid])
    ensures var marked := SetStatus(db, pid, Success);
      && pid in marked.payments
      && ChargeSuccess(db, pid, refundGranted, now) == Finish(Mid(marked, pid, now), pid, marked.payments[pid])
  {
    var marked := SetStatus(db, pid, Success);
    MarkedFlags(db, pid, now);
    assert ChargeSuccess(db, pid, refundGranted, now) == ApplySuccess(marked, pid, refundGranted, now) by {
      hide ApplySuccess;
    }
    hide *;
    DeliveredIs(marked, pid, refundGranted, now);
  }

  lemma StatusFree(before: map<AssetId, Asset>, after: map<AssetId, Asset>, p: Payment, status: PaymentStatus, pid: Id,
                   booths: set<AssetId>, cleared: set<AssetId>)
    ensures FlagsAfter(before, after, p.(status := status), pid, booths, cleared)
      <==> FlagsAfter(before, after, p, pid, booths, cleared)
  {
    assert forall h :: IsReleased(p.(status := status), pid, h) == IsReleased(p, pid, h);
    hide IsReleased;
  }

  lemma ChargedFlags(db: Db, pid: Id, refundGranted: bool, now: int)
    requires Fulfils(db, pid, now) && WellFormed(db.payments[pid])
    ensures var p := db.payments[pid]; var items := Lines(db, p);
      FlagsAfter(db.assets, ChargeSuccess(db, pid, refundGranted, now).assets, p, pid, BundleBooths(items, p.bundles),
                 Cleared(db.assets, items, p.bundles, {}))
  {
    var p := db.payments[pid];
    hide *;
    var marked := SetStatus(db, pid, Success);
    var booths := BundleBooths(Lines(db, p), p.bundles);
    var cleared := Cleared(db.assets, Lines(db, p), p.bundles, {});
    MarkedFlags(db, pid, now);
    FulfilledIs(db, pid, refundGranted, now);
    CoreFlags(marked, pid, now);
    ReleasedFlags(db.assets, Mid(marked, pid, now), marked.payments[pid], pid, booths, cleared);
    StatusFree(db.assets, ChargeSuccess(db, pid, refundGranted, now).assets, p, Success, pid, booths, cleared);
  }

  predicate SameFlags(before: map<AssetId, Asset>, after: map<AssetId, Asset>) {
    before.Keys == after.Keys
    && forall a | a in before :: after[a].reserved == before[a].reserved && after[a].hold == before[a].hold
  }

  lemma FreedFlags(assets: map<AssetId, Asset>, p: Payment, a: set<AssetId>)
    ensures SameFlags(assets, Freed(assets, p, a))
  {
  }

  /**
   * After a charge and its refund a row has its reserved flag back unless it is the booth of a bundle, and its hold
   * unless the delivery cleared it; so the flags all come back if and only if no such booth was reserved and no row
   * that was cleared had a hold.
   */
  lemma RefundKeepsFlagsCleared(db: Db, pid: Id, refundGranted: bool, now: int)
    requires Fulfils(db, pid, now) && WellFormed(db.payments[pid]) && CompanyIsStored(db, db.payments[pid])
    ensures var p := db.payments[pid];
      var booths, cleared := BundleBooths(Lines(db, p), p.bundles), Cleared(db.assets, Lines(db, p), p.bundles, {});
      var back := RefundPayment(ChargeSuccess(db, pid, refundGranted, now), pid);
      && FlagsAfter(db.assets, back.assets, p, pid, booths, cleared)
      && (SameFlags(db.assets, back.assets) <==>
          forall a | a in db.assets ::
            && (a in booths ==> !db.assets[a].reserved)
            && (a in cleared || IsReleased(p, pid, db.assets[a].hold) ==> db.assets[a].hold == NO_HOLD))
  {
    var p := db.payments[pid];
    var d := ChargeSuccess(db, pid, refundGranted, now);
    assert db.payments[pid].(status := Success).status == Success && WellFormed(p.(status := Success));
    hide *;
    ChargedFlags(db, pid, refundGranted, now);
    ChargeIsBought(db, pid, refundGranted, now);
    RefundIsUndone(d, pid);
    UndoneKeepsFlags(d, Reverse(d, pid), d.payments[pid], Rows(d, d.payments[pid]), Copied(d, d.payments[pid]),
                     ItemsKobo(Lines(d, d.payments[pid])));
    FlagsComeBack(db.assets, d.assets, RefundPayment(d, pid).assets, p, pid, BundleBooths(Lines(db, p), p.bundles),
                  Cleared(db.assets, Lines(db, p), p.bundles, {}));
  }

  lemma UndoneKeepsFlags(d: Db, back: Db, p: Payment, a: set<AssetId>, m: multiset<SlotId>, kobo: int)
    requires Undone(d, back, p, a, m, kobo)
    ensures SameFlags(d.assets, back.assets)
  {
    FreedFlags(d.assets, p, a);
    hide Freed, Credit, Existing;
  }

  lemma FlagsComeBack(before: map<AssetId, Asset>, mid: map<AssetId, Asset>, after: map<AssetId, Asset>, p: Payment,
                      pid: Id, booths: set<AssetId>, cleared: set<AssetId>)
    requires FlagsAfter(before, mid, p, pid, booths, cleared) && SameFlags(mid, after)
    ensures FlagsAfter(before, after, p, pid, booths, cleared)
    ensures SameFlags(before, after) <==>
      forall a | a in before ::
        && (a in booths ==> !before[a].reserved)
        && (a in cleared || IsReleased(p, pid, before[a].hold) ==> before[a].hold == NO_HOLD)
  {
    hide IsReleased;
  }
}
