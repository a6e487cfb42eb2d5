/**
 * What serving lines does to a company's stored tier and to the booths it holds. The plan branch compares with a
 * company row read before its booth raised it.
 */
module Tiers {
  import opened Common
  import opened CompanyTier
  import opened CheckoutHold
  import opened Tables
  import opened Inventory
  import opened Fulfilment
  import opened Refunds
  import opened Machine
  import opened Effects
  import opened RefundUndo
  import opened Ownership

  // ---- Ranks -----------------------------------------------------------------------------

  function Max(a: nat, b: nat): nat {
    if a >= b then a else b
  }

  function BestRank(s: set<Tier>): nat {
    Rank(BestTier(s))
  }

  lemma BestRankOfUnion(s: set<Tier>, t: set<Tier>)
    ensures BestRank(s + t) == Max(BestRank(s), BestRank(t))
  {
  }

  lemma BestRankOfOne(t: Tier)
    ensures BestRank({t}) == Rank(Some(t)) && BestRank({}) == 0
  {
  }

  function HeldRank(db: Db, c: Id): nat {
    BestRank(HeldTiers(db.assets, c))
  }

  function PlanRank(db: Db, c: Id): nat {
    BestRank(PlanTiers(db.payments, db.plans, c, None))
  }

  function StoredRank(db: Db, c: Id): nat
    requires c in db.companies
  {
    Rank(db.companies[c].tier)
  }

  // ---- Fulfilment for the company --------------------------------------------------------

  lemma ClaimsHold(before: map<AssetId, Asset>, after: map<AssetId, Asset>, q: Buyer, a: set<AssetId>, c: Id)
    requires Claims(before, after, q, a) && Consistent(before)
    ensures q.company == Some(c) ==> HeldTiers(before, c) <= HeldTiers(after, c)
    ensures q.company != Some(c) ==> HeldTiers(before, c) == HeldTiers(after, c)
  {
    forall x | x in before && x.kind == Booth
      ensures before[x].tier == after[x].tier
      ensures before[x].owner == Some(c) ==> after[x].owner == Some(c) && (after[x].taken || !before[x].taken)
      ensures q.company != Some(c) && after[x].owner == Some(c) ==> after[x] == before[x]
    {
      assert Claimed(before[x], after[x], Party(q, x.kind), q);
    }
  }

  /** `gain` is what the step adds to the evidence beside the booths it takes. */
  ghost predicate Raised(before: Db, after: Db, c: Id, gain: nat) {
    && c in before.companies && c in after.companies
    && HeldRank(before, c) <= HeldRank(after, c)
    && Max(StoredRank(after, c), HeldRank(after, c)) == Max(Max(StoredRank(before, c), HeldRank(after, c)), gain)
  }

  /** The stored tier stays between what it was and the tier of a booth just taken. */
  ghost predicate Followed(before: Db, after: Db, c: Id) {
    && c in before.companies && c in after.companies
    && HeldRank(before, c) <= HeldRank(after, c)
    && StoredRank(before, c) <= StoredRank(after, c) <= Max(StoredRank(before, c), HeldRank(after, c))
  }

  lemma HeldGrows(before: Db, after: Db, q: Buyer, a: set<AssetId>, c: Id)
    requires Claims(before.assets, after.assets, q, a) && Consistent(before.assets)
    ensures q.company == Some(c) ==> HeldRank(before, c) <= HeldRank(after, c)
    ensures q.company != Some(c) ==> HeldRank(before, c) == HeldRank(after, c)
  {
    ClaimsHold(before.assets, after.assets, q, a, c);
    hide HeldTiers, Claims;
    var s, t := HeldTiers(before.assets, c), HeldTiers(after.assets, c);
    if q.company == Some(c) {
      BestRankOfUnion(s, t);
      assert s + t == t;
    }
  }

  /** Raising the tier after a booth of that tier was taken follows the booth. */
  lemma RaiseFollows(before: Db, taken: Db, c: Id, id: AssetId)
    requires c in before.companies && taken.companies == before.companies && HeldRank(before, c) <= HeldRank(taken, c)
    requires id in taken.assets && id.kind == Booth && taken.assets[id].taken && taken.assets[id].owner == Some(c)
    ensures Followed(before, RaiseTier(taken, Some(c), taken.assets[id].tier), c)
  {
    var t := taken.assets[id].tier;
    if t.Some? { assert t.value in HeldTiers(taken.assets, c); }
    assert RaiseTier(taken, Some(c), t).assets == taken.assets;
  }

  lemma NothingFollowed(before: Db, after: Db, c: Id)
    requires c in before.companies && after.companies == before.companies && HeldRank(before, c) <= HeldRank(after, c)
    ensures Followed(before, after, c)
  {
  }

  lemma TakeLineFollows(db: Db, q: Buyer, id: AssetId, c: Id)
    requires q.company == Some(c) && c in db.companies && Consistent(db.assets)
    ensures Followed(db, TakeLine(db, q, id).db, c)
  {
    NothingFollowed(db, db, c);
    var d := TakeLine(db, q, id).db;
    if d != db {
      var taken := db.(assets := db.assets[id := db.assets[id].(taken := true, owner := Party(q, id.kind))]);
      hide Followed, HeldRank, RaiseTier, Consistent, OwnBooths;
      ClaimsOne(db.assets, q, id, taken.assets[id]);
      HeldGrows(db, taken, q, {id}, c);
      NothingFollowed(db, taken, c);
      if id.kind == Booth { RaiseFollows(db, taken, c, id); }
    }
  }

  lemma TakeBundleBoothFollows(db: Db, q: Buyer, boothId: Option<Id>, c: Id)
    requires q.company == Some(c) && c in db.companies && Consistent(db.assets)
    ensures Followed(db, TakeBundleBooth(db, q, boothId).db, c)
  {
    NothingFollowed(db, db, c);
    var d := TakeBundleBooth(db, q, boothId).db;
    if d != db {
      var id := AssetId(Booth, boothId.value);
      var row := db.assets[id].(taken := true, owner := q.company, reserved := false, hold := NO_HOLD);
      var taken := db.(assets := db.assets[id := row]);
      hide Followed, HeldRank, RaiseTier, Consistent, OwnBooths;
      ClaimsOne(db.assets, q, id, row);
      HeldGrows(db, taken, q, {id}, c);
      RaiseFollows(db, taken, c, id);
    }
  }

  ghost predicate SameTierTables(before: Db, after: Db, c: Id) {
    after.companies == before.companies && HeldTiers(after.assets, c) == HeldTiers(before.assets, c)
  }

  lemma SessionKeepsTiers(db: Db, q: Buyer, kind: AssetKind, id: Option<Id>, c: Id)
    requires kind != Booth
    ensures SameTierTables(db, TakeBundleSession(db, q, kind, id).db, c)
  {
  }

  lemma SlotsKeepTiers(db: Db, q: Buyer, ids: seq<SlotId>, c: Id)
    ensures SameTierTables(db, TakeBundleSlots(db, q, ids).db, c)
  {
    hide HeldTiers, Served;
  }

  lemma OnlyTheBoothMovesTiers(db: Db, q: Buyer, e: BundleEntry, c: Id)
    ensures SameTierTables(TakeBundleBooth(db, q, e.boothId).db, TakeBundle(db, q, e).db, c)
  {
    hide TakeBundleBooth, TakeBundleSession, TakeBundleSlots, HeldTiers;
    var booth := TakeBundleBooth(db, q, e.boothId).db;
    var masterclass := TakeBundleSession(booth, q, Masterclass, e.masterclassId).db;
    SessionKeepsTiers(booth, q, Masterclass, e.masterclassId, c);
    SessionKeepsTiers(masterclass, q, Presentation, e.presentationId, c);
    SlotsKeepTiers(TakeBundleRows(db, q, e).db, q, e.slots, c);
  }

  lemma TakeBundleFollows(db: Db, q: Buyer, e: BundleEntry, c: Id)
    requires q.company == Some(c) && c in db.companies && Consistent(db.assets)
    ensures Followed(db, TakeBundle(db, q, e).db, c)
  {
    TakeBundleBoothFollows(db, q, e.boothId, c);
    OnlyTheBoothMovesTiers(db, q, e, c);
    hide TakeBundle, TakeBundleBooth, HeldTiers;
  }

  /** The plan branch: whatever the bundle did, the tier shown afterwards is the best of before, booth and plan. */
  lemma AddSponsorshipRaises(before: Db, db: Db, q: Buyer, plan: Plan, kobo: int, c: Id)
    requires Followed(before, db, c) && q.company == Some(c) && q.tier == before.companies[c].tier
    ensures Raised(before, AddSponsorship(db, q, plan, kobo), c, Rank(Some(plan.tier)))
  {
    hide HeldTiers, BestTier;
    assert AddSponsorship(db, q, plan, kobo).assets == db.assets;
  }

  lemma FollowedIsRaised(before: Db, after: Db, c: Id)
    requires Followed(before, after, c)
    ensures Raised(before, after, c, 0)
  {
    hide HeldRank, StoredRank;
  }

  lemma FollowedTwice(a: Db, b: Db, d: Db, c: Id)
    requires Followed(a, b, c) && Followed(b, d, c)
    ensures Followed(a, d, c)
  {
    hide HeldRank, StoredRank;
  }

  lemma RaisedThenFollowed(a: Db, b: Db, d: Db, c: Id, gain: nat)
    requires Raised(a, b, c, gain) && Followed(b, d, c)
    ensures Raised(a, d, c, gain)
  {
    hide HeldRank, StoredRank;
  }

  // ---- Lines -----------------------------------------------------------------------------

  predicate IsPlanLine(item: Item) {
    item.PlanItem? && item.planId.Some?
  }

  function LineGain(plans: map<Id, Plan>, item: Item): nat {
    if IsPlanLine(item) && item.planId.value in plans then Rank(Some(plans[item.planId.value].tier)) else 0
  }

  /** The best rank among the plans of these lines. */
  function PlanGain(plans: map<Id, Plan>, items: seq<Item>): nat {
    if items == [] then 0 else Max(LineGain(plans, items[0]), PlanGain(plans, items[1..]))
  }

  /** The buyer is this company, with its row as the handler read it. */
  predicate BuysFor(db: Db, q: Buyer, c: Id) {
    q.company == Some(c) && c in db.companies && q.tier == db.companies[c].tier
  }

  lemma PlainLineFollows(db: Db, q: Buyer, bundles: seq<BundleEntry>, item: Item, c: Id)
    requires q.company == Some(c) && c in db.companies && Consistent(db.assets) && !IsPlanLine(item)
    ensures Followed(db, FulfilItem(db, q, bundles, item).db, c)
  {
    var r := FulfilItem(db, q, bundles, item);
    NothingFollowed(db, db, c);
    match item
    case AssetItem(kind, id) =>
      if id.Some? { TakeLineFollows(db, q, AssetId(kind, id.value), c); }
      hide TakeLine, Followed;
    case SlotItem(kind, id) => NothingFollowed(db, r.db, c);
    case PlanItem(_, _, _) =>
  }

  lemma PlanLineRaises(start: Db, db: Db, q: Buyer, bundles: seq<BundleEntry>, item: Item, c: Id)
    requires Followed(start, db, c) && BuysFor(start, q, c) && Consistent(db.assets) && IsPlanLine(item)
    ensures var r := FulfilItem(db, q, bundles, item);
      && (r.verdict == Done ==> Raised(start, r.db, c, LineGain(db.plans, item)))
      && (r.verdict != Done ==> Followed(start, r.db, c))
  {
    if item.planId.value in db.plans {
      var entry := FindEntry(bundles, item.planId.value);
      var taken := if entry.Some? then TakeBundle(db, q, entry.value).db else db;
      NothingFollowed(db, db, c);
      if entry.Some? { TakeBundleFollows(db, q, entry.value, c); }
      FollowedTwice(start, db, taken, c);
      AddSponsorshipRaises(start, taken, q, db.plans[item.planId.value], item.unit * item.quantity, c);
      hide TakeBundle, AddSponsorship, Followed, Raised, FindEntry;
    }
  }

  lemma LineKeeps(db: Db, q: Buyer, bundles: seq<BundleEntry>, item: Item)
    requires (q.company.Some? ==> q.company.value in db.companies) && Consistent(db.assets)
    ensures var d := FulfilItem(db, q, bundles, item).db;
      Consistent(d.assets) && d.plans == db.plans && d.companies.Keys == db.companies.Keys
  {
    FulfilItemEffect(db, q, bundles, item);
    var d := FulfilItem(db, q, bundles, item).db;
    hide FulfilItem, Claims, HeldBy, ItemAssets, ItemSlots, Debit, Affordable;
    ClaimsKeep(db.assets, d.assets, q, ItemAssets(item, bundles));
    KeptIsConsistent(db.assets, d.assets);
  }

  lemma KeptIsConsistent(before: map<AssetId, Asset>, after: map<AssetId, Asset>)
    requires Kept(before, after)
    ensures Consistent(after)
  {
  }

  lemma {:induction false} PlainLinesGainNothing(plans: map<Id, Plan>, items: seq<Item>, n: nat)
    requires PlanIds(items) == [] && n <= |items|
    ensures PlanGain(plans, items[..n]) == 0
    decreases n
  {
    if n > 0 {
      PlainLinesGainNothing(plans, items[1..], n - 1);
      assert items[..n][1..] == items[1..][..n - 1];
    }
  }

  lemma {:induction false} PlainLinesFollow(db: Db, q: Buyer, bundles: seq<BundleEntry>, items: seq<Item>, c: Id)
    requires q.company == Some(c) && c in db.companies && Consistent(db.assets) && PlanIds(items) == []
    ensures Followed(db, FulfilItems(db, q, bundles, items).db, c)
    decreases items
  {
    if items == [] {
      NothingFollowed(db, db, c);
    } else {
      hide FulfilItem, Followed, Consistent;
      PlainLineFollows(db, q, bundles, items[0], c);
      LineKeeps(db, q, bundles, items[0]);
      var first := FulfilItem(db, q, bundles, items[0]);
      PlainLinesFollow(first.db, q, bundles, items[1..], c);
      if first.verdict == Done { FollowedTwice(db, first.db, FulfilItems(first.db, q, bundles, items[1..]).db, c); }
    }
  }

  /** Lines with at most one plan: stored tier and booths rise together, and by the plan if its line was served. */
  lemma {:induction false} LinesRaise(start: Db, db: Db, q: Buyer, bundles: seq<BundleEntry>, items: seq<Item>, c: Id)
    requires Followed(start, db, c) && BuysFor(start, q, c) && Consistent(db.assets) && |PlanIds(items)| <= 1
    ensures var r := FulfilItems(db, q, bundles, items); Raised(start, r.db, c, PlanGain(db.plans, items[..r.served]))
    decreases items
  {
    if items == [] {
      FollowedIsRaised(start, db, c);
    } else {
      var first := FulfilItem(db, q, bundles, items[0]);
      LineKeeps(db, q, bundles, items[0]);
      hide FulfilItem, Followed, Raised, Consistent;
      var rest := FulfilItems(first.db, q, bundles, items[1..]);
      assert c in db.companies by { FollowedHasCompany(start, db, c); }
      assert items[..rest.served + 1][1..] == items[1..][..rest.served];
      if IsPlanLine(items[0]) {
        PlanLineRaises(start, db, q, bundles, items[0], c);
        if first.verdict == Done {
          PlainLinesFollow(first.db, q, bundles, items[1..], c);
          PlainLinesGainNothing(db.plans, items[1..], rest.served);
          RaisedThenFollowed(start, first.db, rest.db, c, LineGain(db.plans, items[0]));
        } else {
          FollowedIsRaised(start, first.db, c);
        }
      } else {
        PlainLineFollows(db, q, bundles, items[0], c);
        FollowedTwice(start, db, first.db, c);
        if first.verdict == Done {
          LinesRaise(start, first.db, q, bundles, items[1..], c);
        } else {
          FollowedIsRaised(start, first.db, c);
        }
      }
    }
  }

  lemma FollowedHasCompany(before: Db, after: Db, c: Id)
    requires Followed(before, after, c)
    ensures c in after.companies
  {
  }
}
