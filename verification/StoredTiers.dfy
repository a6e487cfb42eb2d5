/**
 * The stored tier after a delivery, in full: a booth taken by a line or in a bundle raises it, and a plan that outranks
 * the tier read at the start is written over whatever it is by then.
 */
module StoredTiers {
  import opened Common
  import opened CompanyTier
  import opened CheckoutHold
  import opened Tables
  import opened Inventory
  import opened Fulfilment
  import opened Refunds
  import opened Effects
  import opened Charges
  import opened RefundUndo
  import opened Obstacles
  import opened Leaks
  import opened Closings

  // ---- Read off the tables ---------------------------------------------------------------

  function TierOf(db: Db, booth: Option<Id>): Option<Tier> {
    if booth.Some? && AssetId(Booth, booth.value) in db.assets
    then db.assets[AssetId(Booth, booth.value)].tier else None
  }

  /** A tier after a booth of that tier was taken. */
  function AfterBooth(stored: Option<Tier>, booth: Option<Tier>): Option<Tier> {
    if Rank(booth) > Rank(stored) then booth else stored
  }

  /** The stored tier after a line was served; `read` is the tier the company had when the handler started. */
  function AfterLine(db: Db, bundles: seq<BundleEntry>, read: Option<Tier>, item: Item, stored: Option<Tier>)
                     : Option<Tier> {
    match item
    case AssetItem(kind, id) => if kind == Booth then AfterBooth(stored, TierOf(db, id)) else stored
    case SlotItem(_, _) => stored
    case PlanItem(planId, _, _) =>
      var e := ItemEntry(item, bundles);
      var raised := if e.Some? then AfterBooth(stored, TierOf(db, e.value.boothId)) else stored;
      if planId.Some? && planId.value in db.plans && Rank(Some(db.plans[planId.value].tier)) > Rank(read)
      then Some(db.plans[planId.value].tier) else raised
  }

  function AfterLines(db: Db, bundles: seq<BundleEntry>, read: Option<Tier>, items: seq<Item>, stored: Option<Tier>)
                      : Option<Tier>
    decreases items
  {
    if items == [] then stored
    else AfterLines(db, bundles, read, items[1..], AfterLine(db, bundles, read, items[0], stored))
  }

  /** After the part of a bundle that was taken before it was stopped. */
  function AfterPart(db: Db, bundles: seq<BundleEntry>, stop: Item, part: set<AssetId>, stored: Option<Tier>)
                     : Option<Tier> {
    var e := ItemEntry(stop, bundles);
    if e.Some? && e.value.boothId.Some? && AssetId(Booth, e.value.boothId.value) in part
    then AfterBooth(stored, TierOf(db, e.value.boothId)) else stored
  }

  // ---- The loop --------------------------------------------------------------------------

  /** Rows keep their tiers, plans stay, and only the buyer's company moves. */
  ghost predicate TiersStay(start: Db, db: Db, c: Id) {
    && db.plans == start.plans && db.companies.Keys == start.companies.Keys && db.assets.Keys == start.assets.Keys
    && (forall a | a in start.assets :: db.assets[a].tier == start.assets[a].tier)
    && (forall x | x in start.companies && x != c :: db.companies[x] == start.companies[x])
  }

  ghost predicate TierIs(start: Db, db: Db, c: Id, tier: Option<Tier>) {
    TiersStay(start, db, c) && c in db.companies && db.companies[c].tier == tier
  }

  lemma RaiseIs(start: Db, db: Db, c: Id, booth: Id, stored: Option<Tier>)
    requires TierIs(start, db, c, stored) && AssetId(Booth, booth) in db.assets
    ensures TierIs(start, RaiseTier(db, Some(c), db.assets[AssetId(Booth, booth)].tier), c,
                   AfterBooth(stored, TierOf(start, Some(booth))))
  {
  }

  lemma RowTakenIs(start: Db, db: Db, c: Id, a: AssetId, row: Asset, stored: Option<Tier>)
    requires TierIs(start, db, c, stored) && a in db.assets && row.tier == db.assets[a].tier
    ensures TierIs(start, db.(assets := db.assets[a := row]), c, stored)
  {
  }

  lemma TakeLineTier(start: Db, db: Db, q: Buyer, c: Id, a: AssetId, stored: Option<Tier>)
    requires TierIs(start, db, c, stored) && q.company == Some(c)
    ensures var r := TakeLine(db, q, a);
      && (r.verdict != Done ==> r.db == db)
      && (r.verdict == Done ==>
            TierIs(start, r.db, c, if a.kind == Booth then AfterBooth(stored, TierOf(start, Some(a.id))) else stored))
  {
    var r := TakeLine(db, q, a);
    if r.verdict == Done {
      var row := db.assets[a].(taken := true, owner := Party(q, a.kind));
      RowTakenIs(start, db, c, a, row, stored);
      var d := db.(assets := db.assets[a := row]);
      if a.kind == Booth { RaiseIs(start, d, c, a.id, stored); }
    }
    hide TierIs, IsRefused, BreaksUniqueKey, RaiseTier, AfterBooth;
  }

  lemma TakeBoothTier(start: Db, db: Db, q: Buyer, c: Id, boothId: Option<Id>, stored: Option<Tier>)
    requires TierIs(start, db, c, stored) && q.company == Some(c)
    ensures var r := TakeBundleBooth(db, q, boothId);
      && (r.verdict != Done ==> r.db == db)
      && (r.verdict == Done ==> TierIs(start, r.db, c, AfterBooth(stored, TierOf(start, boothId))))
  {
    var r := TakeBundleBooth(db, q, boothId);
    if r.verdict == Done && boothId.Some? {
      var a := AssetId(Booth, boothId.value);
      var row := db.assets[a].(taken := true, owner := q.company, reserved := false, hold := NO_HOLD);
      RowTakenIs(start, db, c, a, row, stored);
      RaiseIs(start, db.(assets := db.assets[a := row]), c, boothId.value, stored);
    }
    hide TierIs, IsRefused, BreaksUniqueKey, RaiseTier;
  }

  lemma OtherStepsKeepTier(start: Db, db: Db, q: Buyer, c: Id, kind: AssetKind, id: Option<Id>, ids: seq<SlotId>,
                           stored: Option<Tier>)
    requires TierIs(start, db, c, stored)
    ensures TierIs(start, TakeBundleSession(db, q, kind, id).db, c, stored)
    ensures TierIs(start, TakeBundleSlots(db, q, ids).db, c, stored)
  {
    hide IsRefused, Served, Debit, Copies;
  }

  /** A bundle raises the tier by its booth as soon as that is taken, whatever stops it afterwards. */
  lemma TakeBundleTier(start: Db, db: Db, q: Buyer, c: Id, e: BundleEntry, stored: Option<Tier>)
    requires TierIs(start, db, c, stored) && q.company == Some(c)
    ensures TierIs(start, TakeBundle(db, q, e).db, c, if TakeBundleBooth(db, q, e.boothId).verdict == Done
      then AfterBooth(stored, TierOf(start, e.boothId)) else stored)
  {
    hide TierIs, TakeBundleBooth, TakeBundleSession, TakeBundleSlots;
    var r1 := TakeBundleBooth(db, q, e.boothId);
    TakeBoothTier(start, db, q, c, e.boothId, stored);
    if r1.verdict == Done {
      var t := AfterBooth(stored, TierOf(start, e.boothId));
      var r2 := TakeBundleSession(r1.db, q, Masterclass, e.masterclassId);
      OtherStepsKeepTier(start, r1.db, q, c, Masterclass, e.masterclassId, e.slots, t);
      var r3 := TakeBundleSession(r2.db, q, Presentation, e.presentationId);
      OtherStepsKeepTier(start, r2.db, q, c, Presentation, e.presentationId, e.slots, t);
      OtherStepsKeepTier(start, r3.db, q, c, Presentation, e.presentationId, e.slots, t);
    }
  }

  lemma SponsorshipTier(start: Db, db: Db, q: Buyer, c: Id, plan: Plan, kobo: int, stored: Option<Tier>)
    requires TierIs(start, db, c, stored) && q.company == Some(c)
    ensures TierIs(start, AddSponsorship(db, q, plan, kobo), c,
                   if Rank(Some(plan.tier)) > Rank(q.tier) then Some(plan.tier) else stored)
  {
  }

  lemma LineTier(start: Db, db: Db, q: Buyer, c: Id, bundles: seq<BundleEntry>, item: Item, stored: Option<Tier>)
    requires TierIs(start, db, c, stored) && q.company == Some(c) && FulfilItem(db, q, bundles, item).verdict == Done
    ensures TierIs(start, FulfilItem(db, q, bundles, item).db, c, AfterLine(start, bundles, q.tier, item, stored))
  {
    assert db.plans == start.plans;
    match item
    case AssetItem(kind, id) =>
      TakeLineTier(start, db, q, c, AssetId(kind, id.value), stored);
      hide TierIs, TakeLine, AfterBooth, TierOf;
    case SlotItem(kind, id) => hide Copies;
    case PlanItem(planId, unit, quantity) =>
      var plan := db.plans[planId.value];
      var entry := FindEntry(bundles, planId.value);
      var taken := if entry.Some? then TakeBundle(db, q, entry.value).db else db;
      var t := if entry.Some? then AfterBooth(stored, TierOf(start, entry.value.boothId)) else stored;
      if entry.Some? {
        assert TakeBundleBooth(db, q, entry.value.boothId).verdict == Done by {
          hide TakeBundleBooth, TakeBundleSession, TakeBundleSlots, TierIs, FindEntry;
        }
        TakeBundleTier(start, db, q, c, entry.value, stored);
      }
      hide TierIs, TakeBundle, TakeBundleBooth, AddSponsorship, FindEntry, AfterBooth, TierOf;
      SponsorshipTier(start, taken, q, c, plan, unit * quantity, t);
  }

  lemma {:induction false} LinesTier(start: Db, db: Db, q: Buyer, c: Id, bundles: seq<BundleEntry>, items: seq<Item>,
                                     stored: Option<Tier>)
    requires TierIs(start, db, c, stored) && q.company == Some(c) && FulfilItems(db, q, bundles, items).verdict == Done
    ensures TierIs(start, FulfilItems(db, q, bundles, items).db, c, AfterLines(start, bundles, q.tier, items, stored))
    decreases items
  {
    hide TierIs, FulfilItem, AfterLine;
    if items != [] {
      var first := FulfilItem(db, q, bundles, items[0]);
      LineTier(start, db, q, c, bundles, items[0], stored);
      LinesTier(start, first.db, q, c, bundles, items[1..], AfterLine(start, bundles, q.tier, items[0], stored));
    }
  }

  /** A line that is not served has raised the tier by the booth its bundle took, if it got so far. */
  lemma StoppedLineTier(start: Db, db: Db, q: Buyer, c: Id, bundles: seq<BundleEntry>, item: Item, rows: set<AssetId>,
                        copies: multiset<SlotId>, stored: Option<Tier>)
    requires Progress(start, db, q, rows, copies) && ReadAtStart(start.assets, q) && q.company == Some(c)
    requires TierIs(start, db, c, stored) && FulfilItem(db, q, bundles, item).verdict != Done
    ensures TierIs(start, FulfilItem(db, q, bundles, item).db, c,
                   AfterPart(start, bundles, item, StopRows(start, q, bundles, item, rows), stored))
  {
    assert db.plans == start.plans;
    match item
    case AssetItem(kind, id) =>
      if id.Some? { TakeLineTier(start, db, q, c, AssetId(kind, id.value), stored); }
      hide TierIs, TakeLine, PartRows, Progress, ReadAtStart;
    case SlotItem(_, _) => hide TierIs, PartRows, Progress, ReadAtStart;
    case PlanItem(planId, _, _) =>
      var e := TriedEntry(start, q, bundles, item);
      if e.Some? {
        TakeBundleTier(start, db, q, c, e.value, stored);
        TakeBundleBoothOutcome(start, db, q, rows, e.value.boothId);
        BoothInPart(start, q, e.value, rows);
      }
      hide Progress, TierIs, TakeBundle, TakeBundleBooth, FindEntry, AddSponsorship, PartRows, AfterBooth, TierOf,
           OptionalRow, RowsProgress, ReadAtStart;
  }

  lemma BoothInPart(db: Db, q: Buyer, e: BundleEntry, rows: set<AssetId>)
    ensures e.boothId.Some? ==>
      (AssetId(Booth, e.boothId.value) in PartRows(db, q, e, rows)
       <==> OptionalRow(db, q, Booth, e.boothId, rows) == Done)
    ensures e.boothId.None? ==> OptionalRow(db, q, Booth, e.boothId, rows) == Done
  {
    hide RowOutcome;
  }

  // ---- Deliveries ------------------------------------------------------------------------

  /** The tier a company's delivery ends with, read off the tables before it. */
  function TierAfter(db: Db, pid: Id, now: int, stored: Option<Tier>): Option<Tier>
    requires pid in db.payments
  {
    var bundles := db.payments[pid].bundles;
    var stop := StoppingLine(db, pid, now);
    var tier := AfterLines(db, bundles, stored, LinesServed(db, pid, now), stored);
    if stop.None? then tier else AfterPart(db, bundles, stop.value, PartTaken(db, pid, now), tier)
  }

  lemma LoopTier(db: Db, q: Buyer, c: Id, bundles: seq<BundleEntry>, items: seq<Item>, stored: Option<Tier>)
    requires ReadAtStart(db.assets, q) && Consistent(db.assets) && TierIs(db, db, c, stored) && q.company == Some(c)
    ensures var r := FulfilItems(db, q, bundles, items); var served := items[..r.served];
      var tier := AfterLines(db, bundles, q.tier, served, stored);
      TierIs(db, r.db, c, if r.served == |items| then tier
        else AfterPart(db, bundles, items[r.served],
                       StopRows(db, q, bundles, items[r.served], ItemsAssets(served, bundles)), tier))
  {
    var r := FulfilItems(db, q, bundles, items);
    var n := r.served;
    assert c in db.companies;
    if n == |items| {
      assert items[..n] == items;
      hide TierIs, FulfilItems, AfterLines;
      LinesTier(db, db, q, c, bundles, items, stored);
    } else {
      LoopStopsAt(db, q, bundles, items);
      var served := items[..n];
      var x := FulfilItems(db, q, bundles, served).db;
      hide TierIs, FulfilItems, FulfilItem, AfterLines, AfterPart, Progress, ReadAtStart, Consistent, LinesLeave;
      LinesTier(db, db, q, c, bundles, served, stored);
      ServedLinesLeave(db, q, bundles, served);
      StoppedLineTier(db, x, q, c, bundles, items[n], ItemsAssets(served, bundles), ItemsSlots(served, bundles),
                      AfterLines(db, bundles, q.tier, served, stored));
    }
  }

  lemma TierNow(db: Db, c: Id)
    requires c in db.companies
    ensures TierIs(db, db, c, db.companies[c].tier)
  {
  }

  lemma MidTier(db: Db, pid: Id, now: int, c: Id)
    requires pid in db.payments && Consistent(db.assets) && c in db.companies
    requires ActingCompany(db, db.payments[pid]) == Some(c)
    ensures TierIs(db, Mid(db, pid, now), c, TierAfter(db, pid, now, db.companies[c].tier))
  {
    var p := db.payments[pid];
    var q := PaymentBuyer(db, pid, now);
    var items := Lines(db, p);
    var stored := db.companies[c].tier;
    assert ReadAtStart(db.assets, q) && q.company == Some(c) && q.tier == stored;
    TierNow(db, c);
    if IsMissing(db, pid, now) {
      assert TierAfter(db, pid, now, stored) == stored;
    } else {
      ServedIs(db, pid, now);
      var n := ServedBefore(db, pid, now);
      assert LinesServed(db, pid, now) == items[..n];
      assert n == |items| ==> StoppingLine(db, pid, now).None?;
      hide StopRows, FulfilItems, ItemsAssets, IsMissing, AfterLines, AfterPart, TierIs, ReadAtStart, Consistent,
           ServedBefore, Lines, PaymentBuyer, Mid;
      LoopTier(db, q, c, p.bundles, items, stored);
    }
  }

  lemma {:induction false} SameTierReadings(a: Db, b: Db, bundles: seq<BundleEntry>, read: Option<Tier>,
                                            items: seq<Item>, stored: Option<Tier>)
    requires a.assets == b.assets && a.plans == b.plans
    ensures AfterLines(a, bundles, read, items, stored) == AfterLines(b, bundles, read, items, stored)
    decreases items
  {
    if items != [] {
      assert forall t :: AfterLine(a, bundles, read, items[0], t) == AfterLine(b, bundles, read, items[0], t);
      hide AfterLine;
      SameTierReadings(a, b, bundles, read, items[1..], AfterLine(a, bundles, read, items[0], stored));
    }
  }

  lemma SamePartReadings(a: Db, b: Db, bundles: seq<BundleEntry>, stop: Item, part: set<AssetId>, stored: Option<Tier>)
    requires a.assets == b.assets
    ensures AfterPart(a, bundles, stop, part, stored) == AfterPart(b, bundles, stop, part, stored)
  {
  }

  lemma MarkedTier(db: Db, pid: Id, now: int, stored: Option<Tier>)
    requires pid in db.payments
    ensures TierAfter(SetStatus(db, pid, Success), pid, now, stored) == TierAfter(db, pid, now, stored)
  {
    var marked := SetStatus(db, pid, Success);
    MarkedIsAlike(db, pid, now);
    MarkedLeaves(db, pid, now);
    var bundles := db.payments[pid].bundles;
    assert marked.payments[pid].bundles == bundles;
    var served := LinesServed(db, pid, now);
    SameTierReadings(marked, db, bundles, stored, served, stored);
    var stop := StoppingLine(db, pid, now);
    assert StoppingLine(marked, pid, now) == stop && PartTaken(marked, pid, now) == PartTaken(db, pid, now) by {
      PartIsAlike(db, pid, now);
    }
    hide AfterLines, AfterPart, LinesServed, StoppingLine, SetStatus, PartTaken;
    if stop.Some? {
      SamePartReadings(marked, db, bundles, stop.value, PartTaken(db, pid, now),
                       AfterLines(db, bundles, stored, served, stored));
    }
  }

  /** The tier a delivery leaves is the one read off the tables before it. */
  lemma StoredTierIs(db: Db, pid: Id, refundGranted: bool, now: int, c: Id)
    requires pid in db.payments && WellFormed(db.payments[pid]) && Consistent(db.assets) && c in db.companies
    requires db.payments[pid].status == Pending || db.payments[pid].status == Failed
    requires ActingCompany(db, db.payments[pid]) == Some(c)
    ensures var d := ChargeSuccess(db, pid, refundGranted, now);
      c in d.companies && d.companies[c].tier == TierAfter(db, pid, now, db.companies[c].tier)
  {
    var marked := SetStatus(db, pid, Success);
    var d := ApplySuccess(marked, pid, refundGranted, now);
    assert WellFormed(marked.payments[pid]) && marked.assets == db.assets && marked.companies == db.companies;
    assert ActingCompany(marked, marked.payments[pid]) == Some(c);
    assert ChargeSuccess(db, pid, refundGranted, now) == d by { hide ApplySuccess; }
    hide *;
    MidTier(marked, pid, now, c);
    MarkedTier(db, pid, now, db.companies[c].tier);
    DeliveryEffect(marked, pid, refundGranted, now);
    SameCompany(marked, Mid(marked, pid, now), d, pid, StatusAfter(marked, pid, refundGranted, now), c,
                TierAfter(db, pid, now, db.companies[c].tier));
  }

  lemma SameCompany(start: Db, mid: Db, d: Db, pid: Id, status: PaymentStatus, c: Id, tier: Option<Tier>)
    requires TierIs(start, mid, c, tier) && pid in mid.payments && Tidied(mid, d, pid, status)
    ensures c in d.companies && d.companies[c].tier == tier
  {
    hide Released, OrdersKeep;
  }

  // ---- Recomputation after a refund ------------------------------------------------------

  /** A booth taken by the company speaks for this tier. */
  predicate BoothSpeaks(db: Db, c: Id, t: Tier) {
    exists a | a in db.assets ::
      a.kind == Booth && db.assets[a].taken && db.assets[a].owner == Some(c) && db.assets[a].tier == Some(t)
  }

  /** A plan in another successful payment of the company speaks for this tier. */
  predicate PlanSpeaks(db: Db, c: Id, except: Id, t: Tier) {
    exists pid | pid in db.payments ::
      && pid != except && db.payments[pid].companyId == Some(c) && db.payments[pid].status == Success
      && db.payments[pid].kind in {PlanPayment, OrderPayment}
      && exists e | e in db.payments[pid].bundles :: e.planId in db.plans && db.plans[e.planId].tier == t
  }

  lemma EvidenceIs(db: Db, c: Id, except: Id, t: Tier)
    ensures t in TierEvidence(db, c, Some(except)) <==> BoothSpeaks(db, c, t) || PlanSpeaks(db, c, except, t)
  {
    if PlanSpeaks(db, c, except, t) {
      var pid, e :| pid in db.payments && pid != except && db.payments[pid].companyId == Some(c)
        && db.payments[pid].status == Success && db.payments[pid].kind in {PlanPayment, OrderPayment}
        && e in db.payments[pid].bundles && e.planId in db.plans && db.plans[e.planId].tier == t;
      var k :| 0 <= k < |db.payments[pid].bundles| && db.payments[pid].bundles[k] == e;
      assert CountsForTier(db.payments[pid], c) && db.plans[db.payments[pid].bundles[k].planId].tier == t;
    }
  }

  /**
   * Recomputing a tier forgets the stored one: the company gets a tier that speaks for it and that none outranks, or no
   * tier when none of any rank does.
   */
  lemma RecomputedTierIs(db: Db, c: Id, except: Id)
    requires c in db.companies
    ensures var d := RecomputeTier(db, Some(c), except);
      var tier := if c in d.companies then d.companies[c].tier else None;
      && d == db.(companies := db.companies[c := db.companies[c].(tier := tier)])
      && (tier.Some? ==> Rank(tier) > 0 && (BoothSpeaks(db, c, tier.value) || PlanSpeaks(db, c, except, tier.value)))
      && forall t :: BoothSpeaks(db, c, t) || PlanSpeaks(db, c, except, t) ==> Rank(Some(t)) <= Rank(tier)
  {
    forall t ensures t in TierEvidence(db, c, Some(except)) <==> BoothSpeaks(db, c, t) || PlanSpeaks(db, c, except, t) {
      EvidenceIs(db, c, except, t);
    }
    hide TierEvidence, BoothSpeaks, PlanSpeaks;
  }
}
