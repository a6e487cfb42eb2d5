/**
 * How far a delivery gets, read off the tables before it starts: each line's outcome depends only on those tables, on
 * the rows and copies of the lines before it, and on nothing the loop computes.
 */
module Obstacles {
  import opened Common
  import opened CompanyTier
  import opened CheckoutHold
  import opened Tables
  import opened Inventory
  import opened Fulfilment
  import opened Effects
  import opened Charges
  import opened SlotConservation

  // ---- The outcome of a line, from the tables at the start -------------------------------

  /** The rows hold another booth than this one. */
  predicate OtherBooth(rows: set<AssetId>, a: AssetId) {
    a.kind == Booth && exists b | b in rows :: b.kind == Booth && b != a
  }

  /** A row wanted after `rows` went to the same buyer. */
  function RowOutcome(db: Db, q: Buyer, a: AssetId, rows: set<AssetId>, bundled: bool): Verdict {
    if a !in db.assets then Unavailable
    else if a in rows then Done
    else if IsRefused(q, a, db.assets[a], bundled) then Unavailable
    else if OtherBooth(rows, a) then Crashed
    else Done
  }

  function OptionalRow(db: Db, q: Buyer, kind: AssetKind, id: Option<Id>, rows: set<AssetId>): Verdict {
    if id.None? then Done else RowOutcome(db, q, AssetId(kind, id.value), rows, true)
  }

  /** After `copies` and the `earlier` ones of the same bundle were taken there is a copy left of this slot. */
  predicate CopyIsLeft(slots: map<SlotId, Slot>, copies: multiset<SlotId>, earlier: seq<SlotId>, s: SlotId) {
    s in slots && !slots[s].reserved && slots[s].available > copies[s] + multiset(earlier)[s]
  }

  predicate SlotsAreLeft(slots: map<SlotId, Slot>, ids: seq<SlotId>, copies: multiset<SlotId>) {
    forall k | 0 <= k < |ids| :: CopyIsLeft(slots, copies, ids[..k], ids[k])
  }

  function EntryOutcome(db: Db, q: Buyer, e: BundleEntry, rows: set<AssetId>, copies: multiset<SlotId>): Verdict {
    var booth := OptionalRow(db, q, Booth, e.boothId, rows);
    var masterclass := OptionalRow(db, q, Masterclass, e.masterclassId, rows);
    var presentation := OptionalRow(db, q, Presentation, e.presentationId, rows);
    if booth != Done then booth
    else if masterclass != Done then masterclass
    else if presentation != Done then presentation
    else if SlotsAreLeft(db.slots, e.slots, copies) then Done else Unavailable
  }

  function LineOutcome(db: Db, q: Buyer, bundles: seq<BundleEntry>, item: Item, rows: set<AssetId>,
                       copies: multiset<SlotId>): Verdict {
    match item
    case AssetItem(kind, id) =>
      if id.None? || Party(q, kind).None? then Unavailable else RowOutcome(db, q, AssetId(kind, id.value), rows, false)
    case SlotItem(kind, id) =>
      if id.None? || q.company.None? then Unavailable
      else if SlotsAreLeft(db.slots, [SlotId(kind, id.value)], copies) then Done else Unavailable
    case PlanItem(planId, _, _) =>
      if planId.None? || q.company.None? then Unavailable
      else if planId.value !in db.plans || !db.plans[planId.value].active then Unavailable
      else
        var entry := FindEntry(bundles, planId.value);
        if entry.None? then Done else EntryOutcome(db, q, entry.value, rows, copies)
  }

  /** The outcome of line number `i`, all lines before it served. */
  function OutcomeAt(db: Db, q: Buyer, bundles: seq<BundleEntry>, items: seq<Item>, i: nat): Verdict
    requires i < |items|
  {
    LineOutcome(db, q, bundles, items[i], ItemsAssets(items[..i], bundles), ItemsSlots(items[..i], bundles))
  }

  /** The first line from `i` on that cannot be served; the number of lines when there is none. */
  function FirstObstacle(db: Db, q: Buyer, bundles: seq<BundleEntry>, items: seq<Item>, i: nat): (n: nat)
    requires i <= |items|
    ensures i <= n <= |items|
    ensures forall k | i <= k < n :: OutcomeAt(db, q, bundles, items, k) == Done
    ensures n < |items| ==> OutcomeAt(db, q, bundles, items, n) != Done
    decreases |items| - i
  {
    if i == |items| || OutcomeAt(db, q, bundles, items, i) != Done then i
    else FirstObstacle(db, q, bundles, items, i + 1)
  }

  // ---- The middle of the loop ------------------------------------------------------------

  /** The row went to the buyer and would be given to it again. */
  predicate IsAccepted(db: Db, q: Buyer, a: AssetId) {
    && a in db.assets && db.assets[a].taken && db.assets[a].owner == Party(q, a.kind) && Party(q, a.kind).Some?
    && !IsRefused(q, a, db.assets[a], false)
  }

  ghost predicate RowsProgress(start: map<AssetId, Asset>, db: Db, q: Buyer, rows: set<AssetId>) {
    && db.assets.Keys == start.Keys && OneBooth(rows)
    && (forall a | a in start && a !in rows :: db.assets[a] == start[a])
    && (forall a | a in rows :: IsAccepted(db, q, a))
  }

  ghost predicate Progress(start: Db, db: Db, q: Buyer, rows: set<AssetId>, copies: multiset<SlotId>) {
    && RowsProgress(start.assets, db, q, rows)
    && db.slots == Debit(start.slots, copies) && db.plans == start.plans && db.companies.Keys == start.companies.Keys
  }

  /** The buyer's booths as they were read at the start. */
  predicate ReadAtStart(assets: map<AssetId, Asset>, q: Buyer) {
    q.ownBooths == OwnBooths(assets, q.company)
  }

  /** In the middle the unique key is in the way exactly of a booth other than the one already taken. */
  lemma KeyIsInTheWay(start: map<AssetId, Asset>, db: Db, q: Buyer, rows: set<AssetId>, a: AssetId)
    requires RowsProgress(start, db, q, rows) && ReadAtStart(start, q) && a in db.assets && q.company.Some?
    requires !IsRefused(q, a, db.assets[a], true)
    ensures BreaksUniqueKey(db.assets, a, q.company) <==> OtherBooth(rows, a)
    ensures db.assets[a].owner == q.company ==> !OtherBooth(rows, a)
  {
    hide IsBlockedByOther;
    if OtherBooth(rows, a) {
      var b :| b in rows && b.kind == Booth && b != a;
      assert IsAccepted(db, q, b);
    }
    assert forall b | b in start && b.kind == Booth && start[b].owner == q.company :: b in q.ownBooths;
  }

  lemma RowAgain(start: map<AssetId, Asset>, db: Db, q: Buyer, rows: set<AssetId>, a: AssetId, row: Asset)
    requires RowsProgress(start, db, q, rows) && a in db.assets && !OtherBooth(rows, a)
    requires row.taken && row.owner == Party(q, a.kind) && Party(q, a.kind).Some? && !IsRefused(q, a, row, false)
    ensures RowsProgress(start, db.(assets := db.assets[a := row]), q, rows + {a})
  {
    hide IsRefused;
  }

  lemma TakeLineOutcome(start: map<AssetId, Asset>, db: Db, q: Buyer, rows: set<AssetId>, a: AssetId)
    requires RowsProgress(start, db, q, rows) && ReadAtStart(start, q) && Party(q, a.kind).Some?
    ensures var r := TakeLine(db, q, a);
      && r.verdict == (if a !in start then Unavailable
                       else if a in rows then Done
                       else if IsRefused(q, a, start[a], false) then Unavailable
                       else if OtherBooth(rows, a) then Crashed else Done)
      && (r.verdict == Done ==> RowsProgress(start, r.db, q, rows + {a}))
      && r.db.slots == db.slots && r.db.plans == db.plans && r.db.companies.Keys == db.companies.Keys
  {
    hide RaiseTier, IsBlockedByOther, OwnBooths, RowsProgress;
    RaiseTierKeeps(q.company);
    RowsAre(start, db, q, rows, a);
    if a in db.assets && !IsRefused(q, a, db.assets[a], false) {
      if a.kind == Booth { KeyIsInTheWay(start, db, q, rows, a); }
      var row := db.assets[a].(taken := true, owner := Party(q, a.kind));
      assert db.assets[a].owner == Party(q, a.kind) ==> !OtherBooth(rows, a);
      if !OtherBooth(rows, a) {
        RowAgain(start, db, q, rows, a, row);
        assert TakeLine(db, q, a).verdict == Done && TakeLine(db, q, a).db.assets == db.assets[a := row];
        SameAssetsProgress(start, db.(assets := db.assets[a := row]), TakeLine(db, q, a).db, q, rows + {a});
      }
    }
  }

  lemma RaiseTierKeeps(company: Option<Id>)
    ensures forall d: Db, t: Option<Tier> ::
      RaiseTier(d, company, t) == d.(companies := RaiseTier(d, company, t).companies)
    ensures forall d: Db, t: Option<Tier> :: RaiseTier(d, company, t).companies.Keys == d.companies.Keys
  {
  }

  lemma RowsAre(start: map<AssetId, Asset>, db: Db, q: Buyer, rows: set<AssetId>, a: AssetId)
    requires RowsProgress(start, db, q, rows)
    ensures a in start <==> a in db.assets
    ensures a in start && a !in rows ==> db.assets[a] == start[a]
    ensures a in rows ==> IsAccepted(db, q, a) && !OtherBooth(rows, a)
  {
    hide IsRefused;
  }

  lemma SameAssetsProgress(start: map<AssetId, Asset>, db: Db, d: Db, q: Buyer, rows: set<AssetId>)
    requires d.assets == db.assets
    ensures RowsProgress(start, db, q, rows) == RowsProgress(start, d, q, rows)
  {
    hide IsRefused;
  }

  ghost predicate RowStep(start: Db, db: Db, r: Outcome, q: Buyer, rows: set<AssetId>, more: set<AssetId>,
                          expected: Verdict) {
    && r.verdict == expected
    && (r.verdict == Done ==> RowsProgress(start.assets, r.db, q, rows + more))
    && r.db.slots == db.slots && r.db.plans == db.plans && r.db.companies.Keys == db.companies.Keys
  }

  lemma TakeBundleBoothOutcome(start: Db, db: Db, q: Buyer, rows: set<AssetId>, boothId: Option<Id>)
    requires RowsProgress(start.assets, db, q, rows) && ReadAtStart(start.assets, q) && q.company.Some?
    ensures RowStep(start, db, TakeBundleBooth(db, q, boothId), q, rows, One(Booth, boothId),
                    OptionalRow(start, q, Booth, boothId, rows))
  {
    hide RaiseTier, IsBlockedByOther, OwnBooths, RowsProgress;
    RaiseTierKeeps(q.company);
    if boothId.None? {
      assert rows + {} == rows;
    } else {
      var a := AssetId(Booth, boothId.value);
      RowsAre(start.assets, db, q, rows, a);
      if a in db.assets && !IsRefused(q, a, db.assets[a], true) {
        KeyIsInTheWay(start.assets, db, q, rows, a);
        var row := db.assets[a].(taken := true, owner := q.company, reserved := false, hold := NO_HOLD);
        if !OtherBooth(rows, a) {
          NoHoldNeverBlocks(q);
          RowAgain(start.assets, db, q, rows, a, row);
          assert TakeBundleBooth(db, q, boothId).db.assets == db.assets[a := row];
          SameAssetsProgress(start.assets, db.(assets := db.assets[a := row]), TakeBundleBooth(db, q, boothId).db, q,
                             rows + {a});
        }
      }
    }
  }

  lemma NoHoldNeverBlocks(q: Buyer)
    ensures !IsBlockedByOther(NO_HOLD, q.exclude, q.now)
  {
  }

  lemma TakeBundleSessionOutcome(start: Db, db: Db, q: Buyer, rows: set<AssetId>, kind: AssetKind, id: Option<Id>)
    requires RowsProgress(start.assets, db, q, rows) && q.company.Some? && IsSession(kind)
    ensures RowStep(start, db, TakeBundleSession(db, q, kind, id), q, rows, One(kind, id),
                    OptionalRow(start, q, kind, id, rows))
  {
    hide IsBlockedByOther, OwnBooths, RowsProgress;
    if id.None? {
      assert rows + {} == rows;
    } else {
      var a := AssetId(kind, id.value);
      RowsAre(start.assets, db, q, rows, a);
      if a in db.assets && !IsRefused(q, a, db.assets[a], true) {
        NoHoldNeverBlocks(q);
        var sold := db.assets[a].(taken := true, owner := q.company, hold := NO_HOLD);
        var row := if db.assets[a].taken then db.assets[a] else sold;
        RowAgain(start.assets, db, q, rows, a, row);
        assert db.assets[a].taken ==> db.assets[a := row] == db.assets;
        assert TakeBundleSession(db, q, kind, id).db.assets == db.assets[a := row];
        SameAssetsProgress(start.assets, db.(assets := db.assets[a := row]), TakeBundleSession(db, q, kind, id).db, q,
                           rows + {a});
      }
    }
  }

  // ---- Slots -----------------------------------------------------------------------------

  lemma CopyAfter(slots: map<SlotId, Slot>, copies: multiset<SlotId>, earlier: seq<SlotId>, s: SlotId)
    ensures CanTakeCopy(Debit(slots, copies), earlier, s) <==> CopyIsLeft(slots, copies, earlier, s)
  {
  }

  lemma ServedMeansLeft(slots: map<SlotId, Slot>, ids: seq<SlotId>, copies: multiset<SlotId>)
    ensures Served(Debit(slots, copies), ids, 0) == |ids| <==> SlotsAreLeft(slots, ids, copies)
  {
    var n := Served(Debit(slots, copies), ids, 0);
    forall k | 0 <= k < |ids|
      ensures CanTakeCopy(Debit(slots, copies), ids[..k], ids[k]) <==> CopyIsLeft(slots, copies, ids[..k], ids[k])
    {
      CopyAfter(slots, copies, ids[..k], ids[k]);
    }
    hide Debit, CanTakeCopy, Served, CopyIsLeft;
  }

  lemma TakeBundleOutcome(start: Db, db: Db, q: Buyer, rows: set<AssetId>, copies: multiset<SlotId>, e: BundleEntry)
    requires Progress(start, db, q, rows, copies) && ReadAtStart(start.assets, q) && q.company.Some?
    ensures var r := TakeBundle(db, q, e);
      && r.verdict == EntryOutcome(start, q, e, rows, copies)
      && (r.verdict == Done ==> Progress(start, r.db, q, rows + EntryAssets(Some(e)), copies + multiset(e.slots)))
  {
    hide RowsProgress, TakeBundleBooth, TakeBundleSession, OptionalRow, Served, Debit, ReadAtStart, SlotsAreLeft,
         OneBooth;
    var r1 := TakeBundleBooth(db, q, e.boothId);
    var rows1 := rows + One(Booth, e.boothId);
    var rows2 := rows1 + One(Masterclass, e.masterclassId);
    TakeBundleBoothOutcome(start, db, q, rows, e.boothId);
    if r1.verdict == Done {
      var r2 := TakeBundleSession(r1.db, q, Masterclass, e.masterclassId);
      TakeBundleSessionOutcome(start, r1.db, q, rows1, Masterclass, e.masterclassId);
      OtherKind(start, q, Masterclass, e.masterclassId, rows, One(Booth, e.boothId));
      if r2.verdict == Done {
        var r3 := TakeBundleSession(r2.db, q, Presentation, e.presentationId);
        TakeBundleSessionOutcome(start, r2.db, q, rows2, Presentation, e.presentationId);
        OtherKind(start, q, Presentation, e.presentationId, rows,
                  One(Booth, e.boothId) + One(Masterclass, e.masterclassId));
        assert rows + (One(Booth, e.boothId) + One(Masterclass, e.masterclassId)) == rows2;
        if r3.verdict == Done {
          ServedMeansLeft(start.slots, e.slots, copies);
          DebitTwice(start.slots, copies, multiset(e.slots));
          assert rows2 + One(Presentation, e.presentationId) == rows + EntryAssets(Some(e));
          assert TakeBundleRows(db, q, e) == r3;
          SameAssetsProgress(start.assets, r3.db, TakeBundle(db, q, e).db, q, rows + EntryAssets(Some(e)));
        }
      }
    }
  }

  /** Rows of another kind do not matter to a session. */
  lemma OtherKind(start: Db, q: Buyer, kind: AssetKind, id: Option<Id>, rows: set<AssetId>, others: set<AssetId>)
    requires IsSession(kind) && forall a | a in others :: a.kind != kind
    ensures OptionalRow(start, q, kind, id, rows + others) == OptionalRow(start, q, kind, id, rows)
  {
    hide IsRefused;
  }

  // ---- Lines -----------------------------------------------------------------------------

  lemma SponsorshipKeeps(db: Db, q: Buyer, plan: Plan, kobo: int)
    ensures var d := AddSponsorship(db, q, plan, kobo);
      d == db.(companies := d.companies) && d.companies.Keys == db.companies.Keys
  {
  }

  lemma ProgressAlike(start: Db, db: Db, d: Db, q: Buyer, rows: set<AssetId>, copies: multiset<SlotId>)
    requires Progress(start, db, q, rows, copies)
    requires d.assets == db.assets && d.slots == db.slots && d.plans == db.plans
    requires d.companies.Keys == db.companies.Keys
    ensures Progress(start, d, q, rows, copies)
  {
    hide RowsProgress;
    SameAssetsProgress(start.assets, db, d, q, rows);
  }

  lemma BuyPlanOutcome(start: Db, db: Db, q: Buyer, rows: set<AssetId>, copies: multiset<SlotId>,
                       entry: Option<BundleEntry>, plan: Plan, kobo: int)
    requires Progress(start, db, q, rows, copies) && ReadAtStart(start.assets, q) && q.company.Some?
    ensures var r := BuyPlan(db, q, entry, plan, kobo);
      && r.verdict == (if entry.None? then Done else EntryOutcome(start, q, entry.value, rows, copies))
      && (r.verdict == Done ==> Progress(start, r.db, q, rows + EntryAssets(entry), copies + EntrySlots(entry)))
  {
    hide Progress, TakeBundle, AddSponsorship, ReadAtStart, EntryOutcome;
    if entry.Some? {
      TakeBundleOutcome(start, db, q, rows, copies, entry.value);
      var taken := TakeBundle(db, q, entry.value).db;
      SponsorshipKeeps(taken, q, plan, kobo);
      if TakeBundle(db, q, entry.value).verdict == Done {
        ProgressAlike(start, taken, AddSponsorship(taken, q, plan, kobo), q, rows + EntryAssets(entry),
                      copies + EntrySlots(entry));
      }
    } else {
      SponsorshipKeeps(db, q, plan, kobo);
      assert rows + {} == rows && copies + multiset{} == copies;
      ProgressAlike(start, db, AddSponsorship(db, q, plan, kobo), q, rows, copies);
    }
  }

  lemma TakeSlotCopyOutcome(start: Db, db: Db, q: Buyer, rows: set<AssetId>, copies: multiset<SlotId>, s: SlotId)
    requires Progress(start, db, q, rows, copies)
    ensures var r := TakeSlotCopy(db, q, s);
      && r.verdict == (if SlotsAreLeft(start.slots, [s], copies) then Done else Unavailable)
      && (r.verdict == Done ==> Progress(start, r.db, q, rows, copies + multiset{s}))
  {
    hide RowsProgress, Copies;
    assert [s][..0] == [];
    assert SlotsAreLeft(start.slots, [s], copies)
      <==> s in start.slots && !start.slots[s].reserved && start.slots[s].available > copies[s];
    DebitTwice(start.slots, copies, multiset{s});
    SameAssetsProgress(start.assets, db, TakeSlotCopy(db, q, s).db, q, rows);
  }

  lemma TakeLineStep(start: Db, db: Db, q: Buyer, rows: set<AssetId>, copies: multiset<SlotId>, a: AssetId)
    requires Progress(start, db, q, rows, copies) && ReadAtStart(start.assets, q) && Party(q, a.kind).Some?
    ensures var r := TakeLine(db, q, a);
      && r.verdict == RowOutcome(start, q, a, rows, false)
      && (r.verdict == Done ==> Progress(start, r.db, q, rows + {a}, copies))
  {
    TakeLineOutcome(start.assets, db, q, rows, a);
    hide RowsProgress, TakeLine, IsRefused, ReadAtStart;
  }

  lemma FulfilItemOutcome(start: Db, db: Db, q: Buyer, bundles: seq<BundleEntry>, rows: set<AssetId>,
                          copies: multiset<SlotId>, item: Item)
    requires Progress(start, db, q, rows, copies) && ReadAtStart(start.assets, q)
    ensures var r := FulfilItem(db, q, bundles, item);
      && r.verdict == LineOutcome(start, q, bundles, item, rows, copies)
      && (r.verdict == Done ==> Progress(start, r.db, q, rows + ItemAssets(item, bundles),
                                         copies + ItemSlots(item, bundles)))
  {
    assert db.plans == start.plans;
    assert copies + multiset{} == copies && rows + {} == rows;
    hide Progress, TakeLine, TakeSlotCopy, BuyPlan, RowOutcome, EntryOutcome, ReadAtStart, SlotsAreLeft, EntryAssets;
    match item
    case AssetItem(kind, id) =>
      assert EntrySlots(None) == multiset{};
      if id.Some? && Party(q, kind).Some? { TakeLineStep(start, db, q, rows, copies, AssetId(kind, id.value)); }
    case SlotItem(kind, id) =>
      assert EntryAssets(None) == {} by { NoEntryRows(); }
      if id.Some? && q.company.Some? { TakeSlotCopyOutcome(start, db, q, rows, copies, SlotId(kind, id.value)); }
    case PlanItem(planId, unit, quantity) =>
      if planId.Some? && q.company.Some? && planId.value in db.plans && db.plans[planId.value].active {
        BuyPlanOutcome(start, db, q, rows, copies, FindEntry(bundles, planId.value), db.plans[planId.value],
                       unit * quantity);
      }
  }

  lemma NoEntryRows()
    ensures EntryAssets(None) == {}
  {
  }

  lemma {:induction false} FootprintGrows(items: seq<Item>, bundles: seq<BundleEntry>, n: nat)
    requires n < |items|
    ensures ItemsAssets(items[..n + 1], bundles) == ItemsAssets(items[..n], bundles) + ItemAssets(items[n], bundles)
    ensures ItemsSlots(items[..n + 1], bundles) == ItemsSlots(items[..n], bundles) + ItemSlots(items[n], bundles)
    decreases n
  {
    hide ItemAssets, ItemSlots;
    if n == 0 {
      assert items[..1][1..] == [] && items[..0] == [];
    } else {
      FootprintGrows(items[1..], bundles, n - 1);
      assert items[..n + 1][1..] == items[1..][..n] && items[..n][1..] == items[1..][..n - 1];
    }
  }

  lemma {:induction false} LoopOutcome(start: Db, db: Db, q: Buyer, bundles: seq<BundleEntry>, items: seq<Item>, i: nat)
    requires i <= |items| && ReadAtStart(start.assets, q)
    requires Progress(start, db, q, ItemsAssets(items[..i], bundles), ItemsSlots(items[..i], bundles))
    ensures var r := FulfilItems(db, q, bundles, items[i..]); var n := FirstObstacle(start, q, bundles, items, i);
      && i + r.served == n
      && r.verdict == (if n == |items| then Done else OutcomeAt(start, q, bundles, items, n))
      && (r.verdict == Done ==> Progress(start, r.db, q, ItemsAssets(items, bundles), ItemsSlots(items, bundles)))
    decreases |items| - i
  {
    hide Progress, FulfilItem, ItemAssets, ItemSlots, ItemsAssets, ItemsSlots, LineOutcome, ReadAtStart;
    if i < |items| {
      assert items[i..][0] == items[i] && items[i..][1..] == items[i + 1..];
      FulfilItemOutcome(start, db, q, bundles, ItemsAssets(items[..i], bundles), ItemsSlots(items[..i], bundles),
                        items[i]);
      FootprintGrows(items, bundles, i);
      var first := FulfilItem(db, q, bundles, items[i]);
      if first.verdict == Done { LoopOutcome(start, first.db, q, bundles, items, i + 1); }
    } else {
      assert items[..|items|] == items;
    }
  }

  lemma NoProgressYet(db: Db, q: Buyer, bundles: seq<BundleEntry>)
    ensures Progress(db, db, q, ItemsAssets([], bundles), ItemsSlots([], bundles))
  {
    NothingMoves(db.slots);
  }

  /** The loop serves exactly the lines before the first obstacle, and ends as that obstacle says. */
  lemma LoopEndsAtTheFirstObstacle(db: Db, q: Buyer, bundles: seq<BundleEntry>, items: seq<Item>)
    requires ReadAtStart(db.assets, q)
    ensures var r := FulfilItems(db, q, bundles, items); var n := FirstObstacle(db, q, bundles, items, 0);
      && r.served == n && r.verdict == (if n == |items| then Done else OutcomeAt(db, q, bundles, items, n))
      && (r.verdict == Done ==> Progress(db, r.db, q, ItemsAssets(items, bundles), ItemsSlots(items, bundles)))
  {
    hide *;
    NoProgressYet(db, q, bundles);
    assert items[..0] == [] && items[0..] == items;
    LoopOutcome(db, db, q, bundles, items, 0);
  }

  /** The loop that stops has served the lines before, and then tried the one it stops at. */
  lemma {:induction false} LoopStopsAt(db: Db, q: Buyer, bundles: seq<BundleEntry>, items: seq<Item>)
    requires FulfilItems(db, q, bundles, items).served < |items|
    ensures var r := FulfilItems(db, q, bundles, items);
      var served := FulfilItems(db, q, bundles, items[..r.served]);
      var stop := FulfilItem(served.db, q, bundles, items[r.served]);
      && served.verdict == Done && r.verdict == stop.verdict && r.db == stop.db
    decreases items
  {
    hide FulfilItem;
    var r := FulfilItems(db, q, bundles, items);
    if r.served == 0 {
      assert items[..0] == [];
    } else {
      var first := FulfilItem(db, q, bundles, items[0]);
      LoopStopsAt(first.db, q, bundles, items[1..]);
      assert items[..r.served][1..] == items[1..][..r.served - 1] && items[..r.served][0] == items[0];
    }
  }

  // ---- Deliveries ------------------------------------------------------------------------

  /** The number of lines a delivery of this payment would serve. */
  function ServedBefore(db: Db, pid: Id, now: int): nat
    requires pid in db.payments
  {
    FirstObstacle(db, PaymentBuyer(db, pid, now), db.payments[pid].bundles, Lines(db, db.payments[pid]), 0)
  }

  /** What would stop it; `Done` when nothing would. */
  function StopsWith(db: Db, pid: Id, now: int): Verdict
    requires pid in db.payments
  {
    var n := ServedBefore(db, pid, now);
    if n == |Lines(db, db.payments[pid])| then Done
    else OutcomeAt(db, PaymentBuyer(db, pid, now), db.payments[pid].bundles, Lines(db, db.payments[pid]), n)
  }

  /**
   * The copies the delivery would take before it ends, read off the tables:
   * those of the lines before the first obstacle.
   */
  function WouldTake(db: Db, pid: Id, now: int): multiset<SlotId>
    requires pid in db.payments
  {
    var p := db.payments[pid];
    if IsMissing(db, pid, now) then multiset{} else ItemsSlots(Lines(db, p)[..ServedBefore(db, pid, now)], p.bundles)
  }

  /** The delivery will break the unique key on the booth's owner, and leave everything as it then is. */
  predicate BreaksOff(db: Db, pid: Id, now: int)
    requires pid in db.payments
  {
    !IsMissing(db, pid, now) && StopsWith(db, pid, now) == Crashed
  }

  /** The delivery of any payment, read off the tables before it. */
  lemma DeliveryIsForeseen(db: Db, pid: Id, now: int)
    requires pid in db.payments
    ensures var r := Core(db, pid, now); r.served == ServedBefore(db, pid, now) && r.verdict == StopsWith(db, pid, now)
  {
    var p := db.payments[pid];
    var q := PaymentBuyer(db, pid, now);
    assert ReadAtStart(db.assets, q);
    hide FulfilItems, FirstObstacle, OutcomeAt, Lines, ReadAtStart;
    LoopEndsAtTheFirstObstacle(db, q, p.bundles, Lines(db, p));
  }

  lemma {:induction false} ObstacleAlike(a: Db, b: Db, q: Buyer, bundles: seq<BundleEntry>, items: seq<Item>, i: nat)
    requires i <= |items| && a.assets == b.assets && a.slots == b.slots && a.plans == b.plans
    ensures FirstObstacle(a, q, bundles, items, i) == FirstObstacle(b, q, bundles, items, i)
    ensures forall k | 0 <= k < |items| :: OutcomeAt(a, q, bundles, items, k) == OutcomeAt(b, q, bundles, items, k)
    decreases |items| - i
  {
    forall k | 0 <= k < |items| ensures OutcomeAt(a, q, bundles, items, k) == OutcomeAt(b, q, bundles, items, k) {
      hide IsRefused, ItemsAssets, ItemsSlots, SlotsAreLeft, OtherBooth;
      assert forall ids, copies :: SlotsAreLeft(a.slots, ids, copies) == SlotsAreLeft(b.slots, ids, copies);
    }
    hide OutcomeAt;
    if i < |items| { ObstacleAlike(a, b, q, bundles, items, i + 1); }
  }

  /** Marking a payment successful changes nothing of what stops its delivery. */
  lemma MarkedIsAlike(db: Db, pid: Id, now: int)
    requires pid in db.payments
    ensures var marked := SetStatus(db, pid, Success);
      && IsMissing(marked, pid, now) == IsMissing(db, pid, now)
      && ServedBefore(marked, pid, now) == ServedBefore(db, pid, now)
      && StopsWith(marked, pid, now) == StopsWith(db, pid, now)
      && PaymentBuyer(marked, pid, now) == PaymentBuyer(db, pid, now)
      && Lines(marked, marked.payments[pid]) == Lines(db, db.payments[pid])
  {
    var marked := SetStatus(db, pid, Success);
    ObstacleAlike(marked, db, PaymentBuyer(db, pid, now), db.payments[pid].bundles, Lines(db, db.payments[pid]), 0);
    hide OutcomeAt, FirstObstacle, OwnBooths, NeedsCompany;
  }

  // ---- Two booths ------------------------------------------------------------------------

  lemma OneBoothGrows(db: Db, q: Buyer, bundles: seq<BundleEntry>, item: Item, rows: set<AssetId>,
                      copies: multiset<SlotId>)
    requires OneBooth(rows)
    ensures LineOutcome(db, q, bundles, item, rows, copies) == Done ==> OneBooth(rows + ItemAssets(item, bundles))
    ensures LineOutcome(db, q, bundles, item, rows, copies) == Crashed ==> !OneBooth(rows + ItemAssets(item, bundles))
  {
    hide IsRefused, SlotsAreLeft, FindEntry;
    if LineOutcome(db, q, bundles, item, rows, copies) == Crashed {
      var wanted := if item.AssetItem? then item.assetId else FindEntry(bundles, item.planId.value).value.boothId;
      var id := wanted.value;
      var a := AssetId(Booth, id);
      assert OtherBooth(rows, a) && a in ItemAssets(item, bundles);
    }
  }

  lemma {:induction false} ServedHaveOneBooth(db: Db, q: Buyer, bundles: seq<BundleEntry>, items: seq<Item>, n: nat)
    requires n <= |items| && forall k | 0 <= k < n :: OutcomeAt(db, q, bundles, items, k) == Done
    ensures OneBooth(ItemsAssets(items[..n], bundles))
    decreases n
  {
    if n > 0 {
      ServedHaveOneBooth(db, q, bundles, items, n - 1);
      FootprintGrows(items, bundles, n - 1);
      assert OutcomeAt(db, q, bundles, items, n - 1) == Done;
      hide LineOutcome, ItemAssets, ItemSlots, OneBooth, ItemsAssets, ItemsSlots;
      OneBoothGrows(db, q, bundles, items[n - 1], ItemsAssets(items[..n - 1], bundles),
                    ItemsSlots(items[..n - 1], bundles));
    } else {
      assert items[..0] == [];
    }
  }

  lemma {:induction false} PrefixFootprint(items: seq<Item>, bundles: seq<BundleEntry>, m: nat, n: nat)
    requires m <= n <= |items|
    ensures ItemsAssets(items[..m], bundles) <= ItemsAssets(items[..n], bundles)
    ensures ItemsSlots(items[..m], bundles) <= ItemsSlots(items[..n], bundles)
    decreases n
  {
    hide ItemsAssets, ItemsSlots, ItemAssets, ItemSlots;
    if m < n {
      PrefixFootprint(items, bundles, m, n - 1);
      FootprintGrows(items, bundles, n - 1);
    }
  }

  lemma FewerRowsOneBooth(a: set<AssetId>, b: set<AssetId>)
    requires a <= b && OneBooth(b)
    ensures OneBooth(a)
  {
  }

  /** The line brings a booth although an earlier line brought another. */
  predicate ClashesAt(bundles: seq<BundleEntry>, items: seq<Item>, n: nat) {
    n < |items| && OneBooth(ItemsAssets(items[..n], bundles)) && !OneBooth(ItemsAssets(items[..n + 1], bundles))
  }

  /**
   * When no line is unavailable, a delivery breaks the unique key if and only if its lines stand for two booths, and it
   * stops at the first line that brings the second.
   */
  lemma TwoBoothsClash(db: Db, q: Buyer, bundles: seq<BundleEntry>, items: seq<Item>)
    requires ReadAtStart(db.assets, q)
    requires forall k | 0 <= k < |items| :: OutcomeAt(db, q, bundles, items, k) != Unavailable
    ensures var r := FulfilItems(db, q, bundles, items);
      && (r.verdict == Done <==> OneBooth(ItemsAssets(items, bundles)))
      && (r.verdict == Crashed <==> !OneBooth(ItemsAssets(items, bundles)))
      && (r.verdict == Crashed ==> ClashesAt(bundles, items, r.served))
  {
    var n := FirstObstacle(db, q, bundles, items, 0);
    assert items[..|items|] == items;
    assert n < |items| ==> OutcomeAt(db, q, bundles, items, n) == Crashed;
    assert forall k | 0 <= k < n :: OutcomeAt(db, q, bundles, items, k) == Done;
    hide *;
    LoopEndsAtTheFirstObstacle(db, q, bundles, items);
    ServedHaveOneBooth(db, q, bundles, items, n);
    if n < |items| { SecondBoothClashes(db, q, bundles, items, n); }
  }

  lemma SecondBoothClashes(db: Db, q: Buyer, bundles: seq<BundleEntry>, items: seq<Item>, n: nat)
    requires n < |items| && OutcomeAt(db, q, bundles, items, n) == Crashed && OneBooth(ItemsAssets(items[..n], bundles))
    ensures ClashesAt(bundles, items, n) && !OneBooth(ItemsAssets(items, bundles))
  {
    assert items[..|items|] == items;
    hide LineOutcome, ItemsAssets, ItemsSlots, ItemAssets, OneBooth;
    OneBoothGrows(db, q, bundles, items[n], ItemsAssets(items[..n], bundles), ItemsSlots(items[..n], bundles));
    FootprintGrows(items, bundles, n);
    PrefixFootprint(items, bundles, n + 1, |items|);
    if OneBooth(ItemsAssets(items, bundles)) {
      FewerRowsOneBooth(ItemsAssets(items[..n + 1], bundles), ItemsAssets(items, bundles));
    }
  }
}
