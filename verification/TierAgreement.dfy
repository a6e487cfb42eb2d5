/**
 * The tier shown for a company agrees with what it holds: its booth and the plans of its successful payments.
 * Deliveries and late failures keep that agreement exactly under conditions that can be read off the tables before
 * them.
 */
module TierAgreement {
  import opened Common
  import opened CompanyTier
  import opened Tables
  import opened Inventory
  import opened Fulfilment
  import opened Refunds
  import opened BundleResolution
  import opened Machine
  import opened Effects
  import opened Charges
  import opened Reversals
  import opened RefundUndo
  import opened Resolutions
  import opened SlotConservation
  import opened Obstacles
  import opened BundleHolds
  import opened Ownership
  import opened BoothKey
  import opened Tiers

  predicate Agrees(db: Db, c: Id) {
    c in db.companies && Max(StoredRank(db, c), HeldRank(db, c)) == Max(HeldRank(db, c), PlanRank(db, c))
  }

  // ---- Payments as they are stored -------------------------------------------------------

  /**
   * An order and its payment name one company, and the bundles are those of
   * the cart's plan, of which there is one at most.
   */
  predicate IsStoredCleanly(db: Db, p: Payment) {
    && WellFormed(p)
    && (p.kind == OrderPayment ==>
          && p.orderId.value in db.orders && db.orders[p.orderId.value].companyId == p.companyId
          && var ids := PlanIds(db.orders[p.orderId.value].items);
          && |p.bundles| == |ids| <= 1 && (|ids| == 1 ==> p.bundles[0].planId == ids[0]))
  }

  ghost predicate AllStoredCleanly(db: Db) {
    forall pid | pid in db.payments :: IsStoredCleanly(db, db.payments[pid])
  }

  function EntryTiers(p: Payment, plans: map<Id, Plan>): set<Tier> {
    set k | 0 <= k < |p.bundles| && p.bundles[k].planId in plans :: plans[p.bundles[k].planId].tier
  }

  /** What the payment adds to the evidence when it is successful. */
  function EntryRank(p: Payment, plans: map<Id, Plan>): nat {
    BestRank(EntryTiers(p, plans))
  }

  /** What it does add. */
  function CountedRank(p: Payment, plans: map<Id, Plan>, c: Id): nat {
    if CountsForTier(p, c) then EntryRank(p, plans) else 0
  }

  /** What the other payments of the company leave of the evidence. */
  function RestRank(db: Db, c: Id, pid: Id): nat {
    BestRank(PlanTiers(db.payments, db.plans, c, Some(pid)))
  }

  /** What a change of one payment's status does to the plans that count. */
  lemma PlanTiersAfter(payments: map<Id, Payment>, plans: map<Id, Plan>, c: Id, pid: Id, status: PaymentStatus)
    requires pid in payments
    ensures var p := payments[pid].(status := status); var after := PlanTiers(payments[pid := p], plans, c, None);
      && (CountsForTier(p, c) ==> after == PlanTiers(payments, plans, c, Some(pid)) + EntryTiers(p, plans))
      && (!CountsForTier(p, c) ==> after == PlanTiers(payments, plans, c, Some(pid)))
    ensures !CountsForTier(payments[pid], c) ==>
      PlanTiers(payments, plans, c, Some(pid)) == PlanTiers(payments, plans, c, None)
    ensures CountsForTier(payments[pid], c) ==>
      PlanTiers(payments, plans, c, None) == PlanTiers(payments, plans, c, Some(pid)) + EntryTiers(payments[pid], plans)
  {
    var p := payments[pid].(status := status);
    var after := PlanTiers(payments[pid := p], plans, c, None);
    var rest := PlanTiers(payments, plans, c, Some(pid));
    forall t | t in rest ensures t in after {
      var x, k :| x in payments && Some(x) != Some(pid) && CountsForTier(payments[x], c)
        && 0 <= k < |payments[x].bundles| && payments[x].bundles[k].planId in plans
        && t == plans[payments[x].bundles[k].planId].tier;
      assert payments[pid := p][x] == payments[x];
    }
    if CountsForTier(p, c) {
      forall t | t in EntryTiers(p, plans) ensures t in after {
        var k :| 0 <= k < |p.bundles| && p.bundles[k].planId in plans && t == plans[p.bundles[k].planId].tier;
        assert payments[pid := p][pid] == p;
      }
    }
    if CountsForTier(payments[pid], c) {
      forall t | t in EntryTiers(payments[pid], plans) ensures t in PlanTiers(payments, plans, c, None) {
        var k :| 0 <= k < |payments[pid].bundles| && payments[pid].bundles[k].planId in plans
          && t == plans[payments[pid].bundles[k].planId].tier;
      }
    }
  }

  lemma PlanRankAfter(db: Db, d: Db, c: Id, pid: Id, status: PaymentStatus)
    requires pid in db.payments && d.plans == db.plans
    requires d.payments == db.payments[pid := db.payments[pid].(status := status)]
    ensures PlanRank(d, c) == Max(RestRank(db, c, pid), CountedRank(d.payments[pid], db.plans, c))
    ensures PlanRank(db, c) == Max(RestRank(db, c, pid), CountedRank(db.payments[pid], db.plans, c))
  {
    var p := db.payments[pid];
    PlanTiersAfter(db.payments, db.plans, c, pid, status);
    assert EntryTiers(p.(status := status), db.plans) == EntryTiers(p, db.plans);
    hide PlanTiers, EntryTiers, BestTier, CountsForTier;
    BestRankOfUnion(PlanTiers(db.payments, db.plans, c, Some(pid)), EntryTiers(p, db.plans));
  }

  // ---- One plan in the lines -------------------------------------------------------------

  lemma {:induction false} PlanGainOfBoth(plans: map<Id, Plan>, a: seq<Item>, b: seq<Item>)
    ensures PlanGain(plans, a + b) == Max(PlanGain(plans, a), PlanGain(plans, b))
    decreases a
  {
    if a == [] {
      assert a + b == b;
    } else {
      hide LineGain;
      assert (a + b)[0] == a[0] && (a + b)[1..] == a[1..] + b;
      PlanGainOfBoth(plans, a[1..], b);
    }
  }

  function RankOfPlan(plans: map<Id, Plan>, ids: seq<Id>): nat {
    if ids != [] && ids[0] in plans then Rank(Some(plans[ids[0]].tier)) else 0
  }

  lemma {:induction false} GainIsRankOfPlan(plans: map<Id, Plan>, items: seq<Item>)
    requires |PlanIds(items)| <= 1
    ensures PlanGain(plans, items) == RankOfPlan(plans, PlanIds(items))
    decreases items
  {
    if items != [] {
      if IsPlanLine(items[0]) {
        PlainLinesGainNothing(plans, items[1..], |items[1..]|);
        assert items[1..][..|items[1..]|] == items[1..];
      } else {
        GainIsRankOfPlan(plans, items[1..]);
      }
    }
  }

  /** The plan is either among the first lines or among the others. */
  lemma PlanIsOnOneSide(plans: map<Id, Plan>, items: seq<Item>, n: nat)
    requires |PlanIds(items)| <= 1 && n <= |items|
    ensures PlanGain(plans, items) == Max(PlanGain(plans, items[..n]), PlanGain(plans, items[n..]))
    ensures PlanGain(plans, items[..n]) == 0 || PlanGain(plans, items[n..]) == 0
    ensures PlanGain(plans, items[..n]) > 0 && n < |items| ==> !IsPlanLine(items[n])
  {
    assert items == items[..n] + items[n..];
    PlanIdsOfBoth(items[..n], items[n..]);
    PlanGainOfBoth(plans, items[..n], items[n..]);
    GainIsRankOfPlan(plans, items[..n]);
    GainIsRankOfPlan(plans, items[n..]);
    assert n < |items| && IsPlanLine(items[n]) ==> PlanIds(items[n..]) != [];
    hide PlanIds, PlanGain;
  }

  lemma CleanLines(db: Db, p: Payment)
    requires IsStoredCleanly(db, p)
    ensures |PlanIds(Lines(db, p))| <= 1 && ActingCompany(db, p) == p.companyId
    ensures p.kind == OrderPayment || p.kind == PlanPayment ==>
      EntryRank(p, db.plans) == PlanGain(db.plans, Lines(db, p))
    ensures p.kind != OrderPayment && p.kind != PlanPayment ==> PlanGain(db.plans, Lines(db, p)) == 0
  {
    var items := Lines(db, p);
    if p.kind != OrderPayment {
      assert items[1..] == [];
      assert PlanIds(items) == if p.kind == PlanPayment then [p.targetId.value] else [];
    }
    GainIsRankOfPlan(db.plans, items);
    if p.kind == OrderPayment || p.kind == PlanPayment {
      EntryRankIs(p, db.plans);
      hide PlanIds, PlanGain, EntryRank;
    }
  }

  lemma EntryRankIs(p: Payment, plans: map<Id, Plan>)
    requires |p.bundles| <= 1
    ensures p.bundles != [] && p.bundles[0].planId in plans ==>
      EntryRank(p, plans) == Rank(Some(plans[p.bundles[0].planId].tier))
    ensures p.bundles == [] || p.bundles[0].planId !in plans ==> EntryRank(p, plans) == 0
  {
    if p.bundles != [] && p.bundles[0].planId in plans {
      assert EntryTiers(p, plans) == {plans[p.bundles[0].planId].tier};
      BestRankOfOne(plans[p.bundles[0].planId].tier);
    } else {
      assert EntryTiers(p, plans) == {};
      BestRankOfOne(Gold);
    }
  }

  // ---- What a stopped delivery leaves ----------------------------------------------------

  function BoothTiers(assets: map<AssetId, Asset>, rows: set<AssetId>): set<Tier> {
    set a | a in rows && a in assets && a.kind == Booth && assets[a].tier.Some? :: assets[a].tier.value
  }

  lemma ServedRowsAreHeld(start: map<AssetId, Asset>, db: Db, q: Buyer, rows: set<AssetId>, c: Id)
    requires RowsProgress(start, db, q, rows) && q.company == Some(c) && Consistent(start)
    requires forall a | a in start :: a in db.assets && db.assets[a].tier == start[a].tier
    ensures HeldTiers(db.assets, c) == HeldTiers(start, c) + BoothTiers(start, rows)
  {
    assert forall a | a in rows :: IsAccepted(db, q, a);
    hide IsRefused;
    forall a | a in start && a.kind == Booth && start[a].tier.Some?
      ensures db.assets[a].taken && db.assets[a].owner == Some(c)
        <==> (start[a].taken && start[a].owner == Some(c)) || a in rows
    {
    }
    assert forall t | t in HeldTiers(db.assets, c) :: t in HeldTiers(start, c) + BoothTiers(start, rows);
    forall t | t in HeldTiers(start, c) + BoothTiers(start, rows) ensures t in HeldTiers(db.assets, c) {
      if t in HeldTiers(start, c) {
        var a :| a in start && a.kind == Booth && start[a].taken && start[a].owner == Some(c)
          && start[a].tier == Some(t);
        assert db.assets[a].tier == Some(t);
      } else {
        var a :| a in rows && a in start && a.kind == Booth && start[a].tier == Some(t);
        assert db.assets[a].tier == Some(t);
      }
    }
  }

  lemma ClaimsKeepTiers(before: map<AssetId, Asset>, after: map<AssetId, Asset>, q: Buyer, a: set<AssetId>)
    requires Claims(before, after, q, a)
    ensures forall x | x in before :: x in after && after[x].tier == before[x].tier
  {
    forall x | x in before ensures x in after && after[x].tier == before[x].tier {
      assert Claimed(before[x], after[x], Party(q, x.kind), q);
    }
  }

  lemma HeldAfterLines(db: Db, q: Buyer, bundles: seq<BundleEntry>, items: seq<Item>, c: Id)
    requires ReadAtStart(db.assets, q) && q.company == Some(c) && c in db.companies && Consistent(db.assets)
    requires FulfilItems(db, q, bundles, items).verdict == Done
    ensures HeldRank(FulfilItems(db, q, bundles, items).db, c)
         == Max(HeldRank(db, c), BestRank(BoothTiers(db.assets, ItemsAssets(items, bundles))))
  {
    var r := FulfilItems(db, q, bundles, items);
    var rows := ItemsAssets(items, bundles);
    LoopEndsAtTheFirstObstacle(db, q, bundles, items);
    assert RowsProgress(db.assets, r.db, q, rows);
    FulfilItemsEffect(db, q, bundles, items);
    hide FulfilItems, RowsProgress, Claims, HeldTiers, BoothTiers, BestTier, Consistent, ItemsAssets, ItemsSlots,
         ItemsKobo, Affordable, Debit, HeldBy, ReadAtStart, FirstObstacle, OutcomeAt;
    ClaimsKeepTiers(db.assets, r.db.assets, q, rows);
    ServedRowsAreHeld(db.assets, r.db, q, rows, c);
    BestRankOfUnion(HeldTiers(db.assets, c), BoothTiers(db.assets, rows));
  }

  /** A line that breaks the key, and a line without a plan that is unavailable, write nothing. */
  lemma StoppingLineKeeps(db: Db, q: Buyer, bundles: seq<BundleEntry>, item: Item)
    ensures var r := FulfilItem(db, q, bundles, item);
      r.verdict == Crashed || (r.verdict == Unavailable && !IsPlanLine(item)) ==> r.db == db
  {
    hide IsRefused, BreaksUniqueKey, FindEntry, RaiseTier, Served, Debit, Copies;
  }

  /** The first `n` lines of a payment, and what they alone leave in the company's hands. */
  function HeldWith(db: Db, p: Payment, n: nat, c: Id): nat
    requires n <= |Lines(db, p)|
  {
    Max(HeldRank(db, c), BestRank(BoothTiers(db.assets, ItemsAssets(Lines(db, p)[..n], p.bundles))))
  }

  lemma HeldAtStop(db: Db, pid: Id, now: int, c: Id)
    requires pid in db.payments && Consistent(db.assets) && ActingCompany(db, db.payments[pid]) == Some(c)
    requires c in db.companies
    requires var r := Core(db, pid, now); var items := Lines(db, db.payments[pid]);
      r.verdict == Crashed || (r.verdict == Unavailable && !IsPlanLine(items[r.served]))
    ensures HeldRank(Core(db, pid, now).db, c) == HeldWith(db, db.payments[pid], Core(db, pid, now).served, c)
  {
    var p := db.payments[pid];
    var q := PaymentBuyer(db, pid, now);
    var items := Lines(db, p);
    var n := Core(db, pid, now).served;
    assert ReadAtStart(db.assets, q) && q.company == Some(c);
    LoopStopsAt(db, q, p.bundles, items);
    var served := FulfilItems(db, q, p.bundles, items[..n]);
    StoppingLineKeeps(served.db, q, p.bundles, items[n]);
    hide FulfilItems, FulfilItem, HeldRank, BestRank, BoothTiers, ReadAtStart, Consistent, PaymentBuyer, Lines,
         ItemsAssets;
    HeldAfterLines(db, q, p.bundles, items[..n], c);
  }

  // ---- Deliveries of the company's own payments ------------------------------------------

  /**
   * The best rank that still speaks for the company when the delivery has
   * stopped after `n` lines, this payment left out.
   */
  function LeftRank(db: Db, pid: Id, n: nat, c: Id): nat
    requires pid in db.payments && n <= |Lines(db, db.payments[pid])|
  {
    Max(HeldWith(db, db.payments[pid], n, c), RestRank(db, c, pid))
  }

  /**
   * The delivery does not part the tier shown from what the company holds: an order given up after its plan was
   * applied, or broken off before it, keeps the agreement only when the plan does not outrank what is left.
   */
  predicate TierSurvives(db: Db, pid: Id, now: int, c: Id)
    requires pid in db.payments
  {
    var items := Lines(db, db.payments[pid]);
    var n := ServedBefore(db, pid, now);
    IsMissing(db, pid, now) ||
    match StopsWith(db, pid, now)
    case Done => true
    case Unavailable => PlanGain(db.plans, items[..n]) <= LeftRank(db, pid, n, c)
    case Crashed => PlanGain(db.plans, items[n..]) <= LeftRank(db, pid, n, c)
  }

  /** The middle of a delivery for the company itself. */
  lemma OwnMidRaises(db: Db, pid: Id, now: int, c: Id)
    requires pid in db.payments && Consistent(db.assets) && ActingCompany(db, db.payments[pid]) == Some(c)
    requires c in db.companies
    requires !IsMissing(db, pid, now) && |PlanIds(Lines(db, db.payments[pid]))| <= 1
    ensures var r := Core(db, pid, now);
      Raised(db, r.db, c, PlanGain(db.plans, Lines(db, db.payments[pid])[..r.served]))
  {
    var p := db.payments[pid];
    var q := PaymentBuyer(db, pid, now);
    assert BuysFor(db, q, c);
    NothingFollowed(db, db, c);
    hide FulfilItems, Followed, Raised, PlanIds, PlanGain, Consistent, Lines, PaymentBuyer, BuysFor;
    LinesRaise(db, db, q, p.bundles, Lines(db, p), c);
  }

  lemma TidiedRaises(before: Db, mid: Db, after: Db, pid: Id, status: PaymentStatus, c: Id, gain: nat)
    requires pid in mid.payments && Tidied(mid, after, pid, status) && Raised(before, mid, c, gain)
    ensures Raised(before, after, c, gain) && HeldRank(after, c) == HeldRank(mid, c)
  {
    TidiedKeepsTiers(mid, after, pid, status, c);
    hide Tidied, HeldTiers, BestTier;
  }

  lemma TidiedKeepsTiers(before: Db, after: Db, pid: Id, status: PaymentStatus, c: Id)
    requires pid in before.payments && Tidied(before, after, pid, status)
    ensures after.companies == before.companies && after.plans == before.plans
    ensures HeldTiers(after.assets, c) == HeldTiers(before.assets, c)
    ensures after.payments == before.payments[pid := before.payments[pid].(status := status)]
  {
    forall a | a in before.assets ensures a in after.assets
      && after.assets[a] == before.assets[a].(hold := after.assets[a].hold) {}
  }

  lemma SameTablesRaise(before: Db, marked: Db, after: Db, c: Id, gain: nat)
    requires marked.companies == before.companies && marked.assets == before.assets && Raised(marked, after, c, gain)
    ensures Raised(before, after, c, gain)
  {
    hide HeldTiers, BestTier;
  }

  /** After a step that raised tier and booths, agreement is a matter of what the step gained and what now counts. */
  lemma RaisedAgrees(db: Db, d: Db, pid: Id, status: PaymentStatus, c: Id, gain: nat)
    requires Agrees(db, c) && Raised(db, d, c, gain) && pid in db.payments && !CountsForTier(db.payments[pid], c)
    requires d.payments == db.payments[pid := db.payments[pid].(status := status)] && d.plans == db.plans
    ensures var left := Max(HeldRank(d, c), RestRank(db, c, pid));
      Agrees(d, c) <==> Max(left, gain) == Max(left, CountedRank(d.payments[pid], db.plans, c))
  {
    PlanRankAfter(db, d, c, pid, status);
    hide HeldRank, PlanRank, RestRank, StoredRank, EntryRank, CountsForTier;
  }

  lemma MarkedIs(db: Db, pid: Id)
    requires pid in db.payments
    ensures var marked := SetStatus(db, pid, Success); var p := db.payments[pid];
      && marked == db.(payments := db.payments[pid := p.(status := Success)])
      && Lines(marked, marked.payments[pid]) == Lines(db, p)
      && ActingCompany(marked, marked.payments[pid]) == ActingCompany(db, p)
  {
  }

  /** The delivery of one of the company's payments, in the middle. */
  lemma OwnMidAgrees(db: Db, marked: Db, pid: Id, now: int, c: Id, d: Db, status: PaymentStatus)
    requires Agrees(db, c) && Consistent(db.assets) && pid in db.payments && !CountsForTier(db.payments[pid], c)
    requires IsStoredCleanly(db, db.payments[pid]) && db.payments[pid].companyId == Some(c)
    requires marked == SetStatus(db, pid, Success) && !IsMissing(marked, pid, now)
    requires var mid := Core(marked, pid, now).db; mid.payments == marked.payments && Tidied(mid, d, pid, status)
    requires d.payments == db.payments[pid := db.payments[pid].(status := status)] && d.plans == db.plans
    ensures var r := Core(marked, pid, now); var p := db.payments[pid];
      var left := Max(HeldRank(r.db, c), RestRank(db, c, pid));
      var counted := CountedRank(d.payments[pid], db.plans, c);
      Agrees(d, c) <==> Max(left, PlanGain(db.plans, Lines(db, p)[..r.served])) == Max(left, counted)
  {
    var p := db.payments[pid];
    var r := Core(marked, pid, now);
    assert c in db.companies;
    hide *;
    MarkedIs(db, pid);
    CleanLines(db, p);
    OwnMidRaises(marked, pid, now, c);
    var gain := PlanGain(db.plans, Lines(db, p)[..r.served]);
    TidiedRaises(marked, r.db, d, pid, status, c, gain);
    SameTablesRaise(db, marked, d, c, gain);
    RaisedAgrees(db, d, pid, status, c, gain);
  }

  lemma SameHeldWith(db: Db, pid: Id, n: nat, c: Id)
    requires pid in db.payments && n <= |Lines(db, db.payments[pid])|
    ensures var marked := SetStatus(db, pid, Success);
      && n <= |Lines(marked, marked.payments[pid])|
      && HeldWith(marked, marked.payments[pid], n, c) == HeldWith(db, db.payments[pid], n, c)
  {
    MarkedIs(db, pid);
    hide HeldTiers, BestTier, BoothTiers, ItemsAssets, Lines;
  }

  /** Which booths the company holds when the delivery has stopped and its plan matters. */
  lemma LeftAtStop(db: Db, pid: Id, now: int, c: Id)
    requires pid in db.payments && Consistent(db.assets) && c in db.companies
    requires IsStoredCleanly(db, db.payments[pid]) && db.payments[pid].companyId == Some(c)
    requires var r := Core(SetStatus(db, pid, Success), pid, now);
      || r.verdict == Crashed
      || (r.verdict == Unavailable && PlanGain(db.plans, Lines(db, db.payments[pid])[..r.served]) > 0)
    ensures var r := Core(SetStatus(db, pid, Success), pid, now);
      r.served < |Lines(db, db.payments[pid])| && HeldRank(r.db, c) == HeldWith(db, db.payments[pid], r.served, c)
  {
    var marked := SetStatus(db, pid, Success);
    var p := db.payments[pid];
    var r := Core(marked, pid, now);
    assert r.served < |Lines(marked, marked.payments[pid])|;
    hide *;
    MarkedIs(db, pid);
    CleanLines(db, p);
    PlanIsOnOneSide(db.plans, Lines(db, p), r.served);
    HeldAtStop(marked, pid, now, c);
    SameHeldWith(db, pid, r.served, c);
  }

  lemma StatusAtEnd(db: Db, pid: Id, refundGranted: bool, now: int, c: Id)
    requires pid in db.payments && !IsMissing(db, pid, now) && db.payments[pid].status == Success
    ensures var status := StatusAfter(db, pid, refundGranted, now);
      status == Success <==> Core(db, pid, now).verdict != Unavailable
    ensures var r := Core(db, pid, now); r.verdict == Done <==> r.served == |Lines(db, db.payments[pid])|
  {
    hide FulfilItems, IsMissing, PaymentBuyer;
  }

  lemma EntriesCount(db: Db, p: Payment, c: Id)
    requires IsStoredCleanly(db, p) && p.companyId == Some(c)
    ensures CountedRank(p, db.plans, c) == if p.status == Success then PlanGain(db.plans, Lines(db, p)) else 0
  {
    CleanLines(db, p);
    hide EntryRank, PlanGain, Lines;
  }

  /** The payment could still be delivered, and the tables are as the handlers leave them. */
  ghost predicate AwaitsDelivery(db: Db, pid: Id, c: Id) {
    && pid in db.payments && db.payments[pid].status != Success && db.payments[pid].companyId == Some(c)
    && IsStoredCleanly(db, db.payments[pid]) && Consistent(db.assets) && Agrees(db, c)
  }

  lemma StatusDoesNotMatter(db: Db, p: Payment, status: PaymentStatus)
    requires IsStoredCleanly(db, p)
    ensures IsStoredCleanly(db, p.(status := status))
    ensures EntryRank(p.(status := status), db.plans) == EntryRank(p, db.plans)
    ensures Lines(db, p.(status := status)) == Lines(db, p)
  {
    assert EntryTiers(p.(status := status), db.plans) == EntryTiers(p, db.plans);
  }

  /** What the delivery gains against what then counts. */
  lemma OwnDeliveryGains(db: Db, pid: Id, refundGranted: bool, now: int, c: Id)
    requires AwaitsDelivery(db, pid, c)
    requires var marked := SetStatus(db, pid, Success); !IsMissing(marked, pid, now)
    ensures var marked := SetStatus(db, pid, Success);
      var r := Core(marked, pid, now);
      var items := Lines(db, db.payments[pid]);
      var left := Max(HeldRank(r.db, c), RestRank(db, c, pid));
      var counted := if r.verdict != Unavailable then PlanGain(db.plans, items) else 0;
      Agrees(ApplySuccess(marked, pid, refundGranted, now), c) <==>
      Max(left, PlanGain(db.plans, items[..r.served])) == Max(left, counted)
  {
    var marked := SetStatus(db, pid, Success);
    var p := db.payments[pid];
    var d := ApplySuccess(marked, pid, refundGranted, now);
    var status := StatusAfter(marked, pid, refundGranted, now);
    assert !CountsForTier(p, c) && WellFormed(p) && marked.payments[pid].status == Success;
    assert Mid(marked, pid, now) == Core(marked, pid, now).db;
    hide *;
    MarkedIs(db, pid);
    StatusDoesNotMatter(db, p, Success);
    StatusDoesNotMatter(db, p, status);
    assert IsStoredCleanly(db, p) && Consistent(db.assets) && Agrees(db, c) && p.companyId == Some(c) by {
      AwaitsIs(db, pid, c);
    }
    assert WellFormed(marked.payments[pid]) by { CleanIsWellFormed(db, marked.payments[pid]); }
    DeliveryEffect(marked, pid, refundGranted, now);
    ChargedTables(db, pid, refundGranted, now);
    StatusAtEnd(marked, pid, refundGranted, now, c);
    OwnMidAgrees(db, marked, pid, now, c, d, status);
    EntriesCount(db, p.(status := status), c);
  }

  lemma AwaitsIs(db: Db, pid: Id, c: Id)
    requires AwaitsDelivery(db, pid, c)
    ensures pid in db.payments && db.payments[pid].status != Success && db.payments[pid].companyId == Some(c)
    ensures IsStoredCleanly(db, db.payments[pid]) && Consistent(db.assets) && Agrees(db, c) && c in db.companies
  {
  }

  lemma CleanIsWellFormed(db: Db, p: Payment)
    requires IsStoredCleanly(db, p)
    ensures WellFormed(p)
  {
  }

  /** Nothing the payment points at is left: it fails, and its plan does not count. */
  lemma MissingDeliveryAgrees(db: Db, pid: Id, refundGranted: bool, now: int, c: Id)
    requires AwaitsDelivery(db, pid, c) && IsMissing(SetStatus(db, pid, Success), pid, now)
    ensures Agrees(ApplySuccess(SetStatus(db, pid, Success), pid, refundGranted, now), c)
  {
    var marked := SetStatus(db, pid, Success);
    var d := ApplySuccess(marked, pid, refundGranted, now);
    AwaitsIs(db, pid, c);
    assert !CountsForTier(db.payments[pid], c) && !CountsForTier(db.payments[pid].(status := Failed), c);
    assert Mid(marked, pid, now) == marked && StatusAfter(marked, pid, refundGranted, now) == Failed;
    hide *;
    MarkedIs(db, pid);
    StatusDoesNotMatter(db, db.payments[pid], Success);
    CleanIsWellFormed(db, db.payments[pid]);
    assert WellFormed(marked.payments[pid]) by { CleanIsWellFormed(db, marked.payments[pid]); }
    DeliveryEffect(marked, pid, refundGranted, now);
    ChargedTables(db, pid, refundGranted, now);
    NothingRaised(marked, c);
    TidiedRaises(marked, marked, d, pid, Failed, c, 0);
    SameTablesRaise(db, marked, d, c, 0);
    RaisedAgrees(db, d, pid, Failed, c, 0);
  }

  lemma NothingRaised(db: Db, c: Id)
    requires c in db.companies
    ensures Raised(db, db, c, 0)
  {
    NothingFollowed(db, db, c);
    FollowedIsRaised(db, db, c);
  }

  /** What survives, from the verdict and the number of lines served. */
  lemma SurvivalIs(db: Db, pid: Id, now: int, c: Id, n: nat, v: Verdict)
    requires pid in db.payments && !IsMissing(db, pid, now)
    requires n == ServedBefore(db, pid, now) && v == StopsWith(db, pid, now)
    ensures n <= |Lines(db, db.payments[pid])|
    ensures var items := Lines(db, db.payments[pid]);
      TierSurvives(db, pid, now, c) <==>
      && (v == Unavailable ==> PlanGain(db.plans, items[..n]) <= LeftRank(db, pid, n, c))
      && (v == Crashed ==> PlanGain(db.plans, items[n..]) <= LeftRank(db, pid, n, c))
  {
    assert n <= |Lines(db, db.payments[pid])|;
    hide IsMissing, ServedBefore, StopsWith, PlanGain, Lines, LeftRank;
  }

  /** A delivery of the company's own payment keeps the agreement if and only if the tier survives it. */
  lemma OwnDeliveryAgrees(db: Db, pid: Id, refundGranted: bool, now: int, c: Id)
    requires AwaitsDelivery(db, pid, c)
    ensures Agrees(ApplySuccess(SetStatus(db, pid, Success), pid, refundGranted, now), c) <==>
      TierSurvives(db, pid, now, c)
  {
    var marked := SetStatus(db, pid, Success);
    var items := Lines(db, db.payments[pid]);
    assert marked.payments[pid].status == Success && items[..|items|] == items;
    assert IsMissing(db, pid, now) ==> TierSurvives(db, pid, now, c);
    hide *;
    MarkedIsAlike(db, pid, now);
    AwaitsIs(db, pid, c);
    if IsMissing(db, pid, now) {
      MissingDeliveryAgrees(db, pid, refundGranted, now, c);
    } else {
      var r := Core(marked, pid, now);
      CleanLines(db, db.payments[pid]);
      DeliveryIsForeseen(marked, pid, now);
      SurvivalIs(db, pid, now, c, r.served, r.verdict);
      StatusAtEnd(marked, pid, refundGranted, now, c);
      OwnDeliveryGains(db, pid, refundGranted, now, c);
      PlanIsOnOneSide(db.plans, items, r.served);
      if r.verdict == Crashed || (r.verdict == Unavailable && PlanGain(db.plans, items[..r.served]) > 0) {
        LeftAtStop(db, pid, now, c);
        LeftRankIs(db, pid, r.served, c);
      }
      var left := Max(HeldRank(r.db, c), RestRank(db, c, pid));
      MaxIs(PlanGain(db.plans, items[..r.served]), PlanGain(db.plans, items[r.served..]), left);
    }
  }

  lemma LeftRankIs(db: Db, pid: Id, n: nat, c: Id)
    requires pid in db.payments && n <= |Lines(db, db.payments[pid])|
    ensures LeftRank(db, pid, n, c) == Max(HeldWith(db, db.payments[pid], n, c), RestRank(db, c, pid))
  {
  }

  lemma MaxIs(a: nat, b: nat, left: nat)
    ensures Max(left, a) == Max(left, 0) <==> a <= left
    ensures a == 0 ==> (Max(left, a) == Max(left, Max(a, b)) <==> b <= left)
    ensures b == 0 ==> Max(a, b) == a
  {
  }

  /** A single-item payment always survives. */
  lemma SingleItemsSurvive(db: Db, pid: Id, now: int, c: Id)
    requires pid in db.payments && WellFormed(db.payments[pid]) && db.payments[pid].kind != OrderPayment
    ensures TierSurvives(db, pid, now, c)
  {
    var items := Lines(db, db.payments[pid]);
    assert |items| == 1 && items[..0] == [] && PlanGain(db.plans, []) == 0;
    SingleLineHasOneBooth(db, pid);
    CoreDoesNotCrash(db, pid, now);
    DeliveryIsForeseen(db, pid, now);
    hide Core, StopsWith, ServedBefore, LeftRank, PlanGain;
    assert ServedBefore(db, pid, now) <= 1;
  }

  /** So does an order without a plan line. */
  lemma PlanlessOrdersSurvive(db: Db, pid: Id, now: int, c: Id)
    requires pid in db.payments && PlanIds(Lines(db, db.payments[pid])) == []
    ensures TierSurvives(db, pid, now, c)
  {
    var items := Lines(db, db.payments[pid]);
    var n := ServedBefore(db, pid, now);
    assert n <= |items|;
    hide PlanIds, PlanGain, ServedBefore, StopsWith, LeftRank;
    PlanIsOnOneSide(db.plans, items, n);
    GainIsRankOfPlan(db.plans, items);
  }

  // ---- Deliveries of other companies -----------------------------------------------------

  /** The middle of somebody else's delivery does not touch the company. */
  lemma OtherMidRaises(db: Db, pid: Id, now: int, c: Id)
    requires pid in db.payments && c in db.companies && Consistent(db.assets)
    requires WellFormed(db.payments[pid]) && ActingCompany(db, db.payments[pid]) != Some(c)
    ensures Raised(db, Mid(db, pid, now), c, 0)
  {
    var p := db.payments[pid];
    var q := PaymentBuyer(db, pid, now);
    assert q.company != Some(c);
    MidEffect(db, pid, now);
    hide Mid, PaymentBuyer, Lines, ItemsAssets, Claims, ServedLines, ItemsSlots, Debit, HeldTiers, BestTier, Consistent,
         WellFormed;
    HeldGrows(db, Mid(db, pid, now), q, ItemsAssets(Lines(db, p), p.bundles), c);
  }

  lemma OtherDeliveryAgrees(db: Db, pid: Id, refundGranted: bool, now: int, c: Id)
    requires Agrees(db, c) && Consistent(db.assets) && pid in db.payments
    requires var p := db.payments[pid]; IsStoredCleanly(db, p) && p.companyId != Some(c)
    ensures Agrees(ApplySuccess(SetStatus(db, pid, Success), pid, refundGranted, now), c)
  {
    var marked := SetStatus(db, pid, Success);
    var d := ApplySuccess(marked, pid, refundGranted, now);
    var status := StatusAfter(marked, pid, refundGranted, now);
    var p := db.payments[pid];
    assert c in db.companies && !CountsForTier(p, c) && !CountsForTier(p.(status := status), c);
    assert marked.payments[pid] == p.(status := Success);
    hide *;
    MarkedIs(db, pid);
    StatusDoesNotMatter(db, p, Success);
    CleanIsWellFormed(db, p);
    CleanIsWellFormed(db, p.(status := Success));
    assert ActingCompany(db, p) == p.companyId by { CleanLines(db, p); }
    OtherMidRaises(marked, pid, now, c);
    var mid := Mid(marked, pid, now);
    DeliveryEffect(marked, pid, refundGranted, now);
    TidiedRaises(marked, mid, d, pid, status, c, 0);
    SameTablesRaise(db, marked, d, c, 0);
    ChargedTables(db, pid, refundGranted, now);
    RaisedAgrees(db, d, pid, status, c, 0);
  }

  /** Nothing the company's tier depends on has moved. */
  lemma UnmovedAgrees(before: Db, after: Db, c: Id)
    requires Agrees(before, c) && c in after.companies && after.companies[c].tier == before.companies[c].tier
    requires HeldRank(after, c) == HeldRank(before, c) && PlanRank(after, c) == PlanRank(before, c)
    ensures Agrees(after, c)
  {
    hide HeldRank, PlanRank;
  }

  // ---- Refunds ---------------------------------------------------------------------------

  /** Recomputing the tier without one payment, and then marking that payment refunded. */
  lemma RecomputedAgrees(x: Db, pid: Id, c: Id)
    requires c in x.companies && pid in x.payments
    ensures Agrees(SetStatus(RecomputeTier(x, Some(c), pid), pid, Refunded), c)
  {
    PlanTiersAfter(x.payments, x.plans, c, pid, Refunded);
    hide HeldTiers, PlanTiers, BestTier;
    BestRankOfUnion(HeldTiers(x.assets, c), PlanTiers(x.payments, x.plans, c, Some(pid)));
    assert BestRank({}) == 0 by { BestRankOfOne(Gold); }
  }

  lemma OthersRowsFreed(before: map<AssetId, Asset>, p: Payment, a: set<AssetId>, c: Id)
    requires p.companyId != Some(c)
    ensures HeldTiers(Freed(before, p, a), c) == HeldTiers(before, c)
  {
  }

  lemma RefundOfOthersAgrees(db: Db, pid: Id, c: Id)
    requires Agrees(db, c) && pid in db.payments && db.payments[pid].status == Success && WellFormed(db.payments[pid])
    requires db.payments[pid].companyId != Some(c)
    ensures Agrees(RefundPayment(db, pid), c)
  {
    var p := db.payments[pid];
    var d := RefundPayment(db, pid);
    assert !CountsForTier(p, c) && !CountsForTier(p.(status := Refunded), c);
    RefundIsUndone(db, pid);
    OthersRowsFreed(db.assets, p, Rows(db, p), c);
    PlanTiersAfter(db.payments, db.plans, c, pid, Refunded);
    hide RefundPayment, Reverse, Freed, Credit, Existing, Rows, Copied, ItemsKobo, Lines, HeldTiers, PlanTiers,
         BestTier, CountsForTier, WellFormed;
    UnmovedAgrees(db, d, c);
  }

  /** Lines other than a booth or a plan leave the company's row and booths alone. */
  lemma PlainReverseKeepsTiers(db: Db, p: Payment, pid: Id, item: Item, c: Id)
    requires (item.AssetItem? && item.asset != Booth) || item.SlotItem?
    ensures var d := ReverseItem(db, p, pid, item); SameTierTables(db, d, c) && d.plans == db.plans
  {
  }

  /** A reversal that ends by recomputing the tier does so after the rows went back, and with the payment left out. */
  lemma ReversalRecomputes(db: Db, pid: Id, c: Id) returns (x: Db)
    requires pid in db.payments && IsStoredCleanly(db, db.payments[pid]) && db.payments[pid].companyId == Some(c)
    requires var k := db.payments[pid].kind; k == PlanPayment || k == OrderPayment || k == AssetPayment(Booth)
    requires c in db.companies
    ensures Reverse(db, pid) == RecomputeTier(x, Some(c), pid) && c in x.companies && x.payments == db.payments
  {
    var p := db.payments[pid];
    if p.kind == PlanPayment {
      var bundle := ReverseBundle(db, p.companyId, pid, Some(p.bundles[0]));
      x := SubtractSponsorship(bundle, p.companyId, p.baseAmount);
      ReverseBundleUndone(db, p, pid, Some(p.bundles[0]));
      hide ReverseBundle, RecomputeTier, EntryAssets, EntrySlots, Freed, Credit, Existing;
    } else if p.kind == OrderPayment {
      var items := db.orders[p.orderId.value].items;
      x := ReverseItems(db, p, pid, items);
      ReverseItemsUndone(db, p, pid, items);
      hide ReverseItems, RecomputeTier, ItemsAssets, ItemsSlots, ItemsKobo, Freed, Credit, Existing;
    } else {
      x := ReleaseAsset(db, AssetId(Booth, p.targetId.value), p.companyId);
      hide RecomputeTier;
    }
  }

  lemma RefundOfOwnAgrees(db: Db, pid: Id, c: Id)
    requires Agrees(db, c) && pid in db.payments && db.payments[pid].status == Success
    requires IsStoredCleanly(db, db.payments[pid]) && db.payments[pid].companyId == Some(c)
    ensures Agrees(RefundPayment(db, pid), c)
  {
    var p := db.payments[pid];
    var d := RefundPayment(db, pid);
    assert d == SetStatus(Reverse(db, pid), pid, Refunded);
    if p.kind == PlanPayment || p.kind == OrderPayment || p.kind == AssetPayment(Booth) {
      var x := ReversalRecomputes(db, pid, c);
      hide *;
      RecomputedAgrees(x, pid, c);
    } else {
      var item := Lines(db, p)[0];
      assert Reverse(db, pid) == ReverseItem(db, p, pid, item);
      PlainReverseKeepsTiers(db, p, pid, item, c);
      RefundIsUndone(db, pid);
      PlanTiersAfter(db.payments, db.plans, c, pid, Refunded);
      assert !CountsForTier(p, c) && !CountsForTier(p.(status := Refunded), c);
      hide RefundPayment, Reverse, ReverseItem, HeldTiers, PlanTiers, BestTier, CountsForTier, Undone;
      UnmovedAgrees(db, d, c);
    }
  }

  // ---- Payments that end without a delivery ----------------------------------------------

  /**
   * A charge.failed that arrives for a payment already bought leaves the
   * stored tier; agreement is a matter of the plan.
   */
  predicate FailureIsHarmless(db: Db, pid: Id, c: Id) {
    pid in db.payments && CountsForTier(db.payments[pid], c) ==>
      EntryRank(db.payments[pid], db.plans) <= Max(HeldRank(db, c), RestRank(db, c, pid))
  }

  /** Closing a payment keeps tier and booths; what counts afterwards decides. */
  lemma ClosedAgrees(db: Db, d: Db, pid: Id, status: PaymentStatus, c: Id)
    requires Agrees(db, c) && pid in db.payments && Tidied(db, d, pid, status) && status != Success
    ensures Agrees(d, c) <==> FailureIsHarmless(db, pid, c)
  {
    TidiedKeepsTiers(db, d, pid, status, c);
    PlanRankAfter(db, d, c, pid, status);
    hide Tidied, HeldTiers, BestTier, PlanTiers, EntryTiers;
  }

  lemma LateFailureAgrees(db: Db, pid: Id, c: Id)
    requires Agrees(db, c)
    ensures Agrees(ChargeFailed(db, pid), c) <==> FailureIsHarmless(db, pid, c)
    ensures Agrees(CancelPending(db, pid), c)
  {
    if pid in db.payments {
      var p := db.payments[pid];
      var status := if p.status == Refunded then Refunded else Failed;
      assert p.status == Pending ==> FailureIsHarmless(db, pid, c);
      ClosingTables(db, pid);
      hide ChargeFailed, CancelPending, Tidied, FailureIsHarmless, Agrees;
      ClosedAgrees(db, ChargeFailed(db, pid), pid, status, c);
      if p.status == Pending { ClosedAgrees(db, CancelPending(db, pid), pid, Failed, c); }
    }
  }

  lemma CleanupAgrees(db: Db, now: int, c: Id)
    requires Agrees(db, c)
    ensures Agrees(ReleaseExpired(db, now), c)
  {
    assert HeldTiers(ReleaseExpired(db, now).assets, c) == HeldTiers(db.assets, c);
    hide HeldTiers, BestTier, PlanTiers, ClearHolds, KeepHolds;
    UnmovedAgrees(db, ReleaseExpired(db, now), c);
  }

  // ---- New payments ----------------------------------------------------------------------

  lemma OnlyHoldsKeepTiers(before: Db, after: Db, c: Id)
    requires OnlyHolds(before, after)
    ensures HeldTiers(after.assets, c) == HeldTiers(before.assets, c) && after.companies == before.companies
    ensures after.plans == before.plans
  {
    forall a | a in before.assets ensures a in after.assets
      && after.assets[a] == before.assets[a].(hold := after.assets[a].hold) {}
  }

  /** A payment that is not successful adds no plan. */
  lemma PendingAddsNoPlan(payments: map<Id, Payment>, plans: map<Id, Plan>, c: Id, pid: Id, p: Payment)
    requires pid !in payments && p.status == Pending
    ensures PlanTiers(payments[pid := p], plans, c, None) == PlanTiers(payments, plans, c, None)
  {
    var after := payments[pid := p];
    forall t | t in PlanTiers(payments, plans, c, None) ensures t in PlanTiers(after, plans, c, None) {
      var x, k :| x in payments && CountsForTier(payments[x], c) && 0 <= k < |payments[x].bundles|
        && payments[x].bundles[k].planId in plans && t == plans[payments[x].bundles[k].planId].tier;
      assert after[x] == payments[x];
    }
  }

  /** One pending payment more, stored cleanly, and at most its order; tiers and booths are as before. */
  ghost predicate OnePendingMore(before: Db, after: Db, pid: Id) {
    && pid !in before.payments && pid in after.payments && after.payments[pid].status == Pending
    && after.payments == before.payments[pid := after.payments[pid]] && after.plans == before.plans
    && after.companies == before.companies && IsStoredCleanly(after, after.payments[pid])
    && forall o | o in before.orders :: o in after.orders && after.orders[o] == before.orders[o]
  }

  lemma NewPendingAgrees(before: Db, after: Db, c: Id, pid: Id)
    requires Agrees(before, c) && AllStoredCleanly(before) && OnePendingMore(before, after, pid)
    requires HeldTiers(after.assets, c) == HeldTiers(before.assets, c)
    ensures Agrees(after, c) && AllStoredCleanly(after)
  {
    PendingAddsNoPlan(before.payments, before.plans, c, pid, after.payments[pid]);
    forall x | x in after.payments ensures IsStoredCleanly(after, after.payments[x]) {
      if x != pid { assert IsStoredCleanly(before, before.payments[x]); }
    }
    hide HeldTiers, PlanTiers, BestTier, IsStoredCleanly;
    UnmovedAgrees(before, after, c);
  }

  lemma InitPlanAgrees(db: Db, b: Purchase, planId: Id, expiresAt: int, now: int, rule: NullRule, c: Id)
    requires Agrees(db, c) && AllStoredCleanly(db)
    ensures var d := InitPlan(db, b, planId, expiresAt, now, rule); Agrees(d, c) && AllStoredCleanly(d)
  {
    var d := InitPlan(db, b, planId, expiresAt, now, rule);
    if d != db {
      ResolvePlanOnlyHolds(db, planId, ForPayment(b.pid), expiresAt, now, rule);
      InitPlanTables(db, b, planId, expiresAt, now, rule);
      var r := ResolvePlan(db, planId, ForPayment(b.pid), expiresAt, now, rule);
      assert d.assets == r.value.db.assets && d.companies == r.value.db.companies;
      hide ResolvePlan, InitPlan, OnlyHolds, Agrees, HeldTiers, AllStoredCleanly, PlanIds, SlotsAreAvailable, SlotHolds;
      OnlyHoldsKeepTiers(db, r.value.db, c);
      NewPendingAgrees(db, d, c, b.pid);
    }
  }

  lemma InitSingleAgrees(db: Db, b: Purchase, kind: PaymentKind, targetId: Id, c: Id)
    requires Agrees(db, c) && AllStoredCleanly(db)
    ensures var d := InitSingle(db, b, kind, targetId); Agrees(d, c) && AllStoredCleanly(d)
  {
    hide Agrees, HeldTiers, AllStoredCleanly, PlanIds;
    var d := InitSingle(db, b, kind, targetId);
    if d != db { NewPendingAgrees(db, d, c, b.pid); }
  }

  lemma CheckoutAgrees(db: Db, oid: Id, b: Purchase, items: seq<Item>, expiresAt: int, now: int, rule: NullRule, c: Id)
    requires Agrees(db, c) && AllStoredCleanly(db)
    ensures var d := Checkout(db, oid, b, items, expiresAt, now, rule); Agrees(d, c) && AllStoredCleanly(d)
  {
    var d := Checkout(db, oid, b, items, expiresAt, now, rule);
    if d != db {
      CheckoutTables(db, oid, b, items, expiresAt, now, rule);
      AcceptedCartHasOnePlan(db, b.company, items);
      hide Checkout, OnlyHolds, Agrees, HeldTiers, CheckoutIsAllowed, PlanIds, AllStoredCleanly;
      OnlyHoldsKeepTiers(db, d.(orders := db.orders, payments := db.payments), c);
      NewPendingAgrees(db, d, c, b.pid);
    }
  }

  // ---- The other events ------------------------------------------------------------------

  /** Editing slots changes at most the slot links of plans. */
  ghost predicate OnlySlots(before: Db, after: Db) {
    && after.assets == before.assets && after.companies == before.companies && after.payments == before.payments
    && after.orders == before.orders && after.plans.Keys == before.plans.Keys
    && forall p | p in before.plans :: after.plans[p].tier == before.plans[p].tier
  }

  lemma OnlySlotsAgrees(before: Db, after: Db, c: Id)
    requires Agrees(before, c) && AllStoredCleanly(before) && OnlySlots(before, after)
    ensures Agrees(after, c) && AllStoredCleanly(after)
  {
    assert PlanTiers(after.payments, after.plans, c, None) == PlanTiers(before.payments, before.plans, c, None);
    forall x | x in after.payments ensures IsStoredCleanly(after, after.payments[x]) {
      assert IsStoredCleanly(before, before.payments[x]);
    }
    hide HeldTiers, PlanTiers, BestTier, IsStoredCleanly;
    UnmovedAgrees(before, after, c);
  }

  lemma GrownStaysClean(before: Db, after: Db)
    requires AllStoredCleanly(before) && Grown(before, after) && after.payments.Keys == before.payments.Keys
    ensures AllStoredCleanly(after)
  {
    forall pid | pid in after.payments ensures IsStoredCleanly(after, after.payments[pid]) {
      assert IsStoredCleanly(before, before.payments[pid]);
    }
  }

  lemma CleanupStaysClean(db: Db, now: int)
    requires AllStoredCleanly(db)
    ensures AllStoredCleanly(ReleaseExpired(db, now))
  {
    hide WellFormed, PlanIds;
  }

  lemma ClosingStaysClean(db: Db, pid: Id)
    requires AllStoredCleanly(db)
    ensures AllStoredCleanly(ChargeFailed(db, pid)) && AllStoredCleanly(CancelPending(db, pid))
    ensures AllStoredCleanly(RefundPayment(db, pid))
  {
    if pid in db.payments {
      var p := db.payments[pid];
      ClosingTables(db, pid);
      assert WellFormed(p) by { assert IsStoredCleanly(db, p); }
      hide ChargeFailed, CancelPending, RefundPayment, Tidied, AllStoredCleanly, Grown;
      TidiedGrows(db, ChargeFailed(db, pid), pid, if p.status == Refunded then Refunded else Failed);
      GrownStaysClean(db, ChargeFailed(db, pid));
      if p.status == Pending {
        TidiedGrows(db, CancelPending(db, pid), pid, Failed);
        GrownStaysClean(db, CancelPending(db, pid));
      }
      if p.status == Success {
        RefundTables(db, pid);
        GrownStaysClean(db, RefundPayment(db, pid));
      } else {
        assert RefundPayment(db, pid) == db by { NothingToRefund(db, pid); }
      }
    }
  }

  lemma NothingToRefund(db: Db, pid: Id)
    requires pid in db.payments ==> db.payments[pid].status != Success
    ensures RefundPayment(db, pid) == db
  {
  }

  // ---- Runs ------------------------------------------------------------------------------

  ghost predicate TierKept(db: Db, c: Id) {
    Agrees(db, c) && AllStoredCleanly(db) && Consistent(db.assets)
  }

  /**
   * The only events that can part the tier shown from the holdings: the delivery of a payment of the company that stops
   * on the wrong side of its plan line, and a charge.failed after the plan was bought.
   */
  predicate TierAllowed(w: World, e: Event, c: Id) {
    && (Delivers(w, e) && w.db.payments[e.pid].companyId == Some(c) ==> TierSurvives(w.db, e.pid, w.now, c))
    && (e.EChargeFailed? ==> FailureIsHarmless(w.db, e.pid, c))
  }

  lemma DeliveryAgrees(db: Db, pid: Id, refundGranted: bool, now: int, c: Id)
    requires TierKept(db, c) && pid in db.payments && db.payments[pid].status != Success
    ensures var d := ApplySuccess(SetStatus(db, pid, Success), pid, refundGranted, now);
      && AllStoredCleanly(d)
      && (Agrees(d, c) <==> (db.payments[pid].companyId == Some(c) ==> TierSurvives(db, pid, now, c)))
  {
    var p := db.payments[pid];
    var d := ApplySuccess(SetStatus(db, pid, Success), pid, refundGranted, now);
    assert IsStoredCleanly(db, p);
    ChargedTables(db, pid, refundGranted, now);
    if p.companyId == Some(c) {
      assert AwaitsDelivery(db, pid, c);
      hide *;
      OwnDeliveryAgrees(db, pid, refundGranted, now, c);
    } else {
      hide *;
      assert Agrees(db, c) && Consistent(db.assets) by { KeptIs(db, c); }
      OtherDeliveryAgrees(db, pid, refundGranted, now, c);
    }
    hide *;
    assert AllStoredCleanly(db) by { KeptIs(db, c); }
    GrownStaysClean(db, d);
  }

  lemma KeptIs(db: Db, c: Id)
    requires TierKept(db, c)
    ensures Agrees(db, c) && AllStoredCleanly(db) && Consistent(db.assets) && Stored(db) && c in db.companies
  {
    forall pid | pid in db.payments
      ensures WellFormed(db.payments[pid])
    {
      assert IsStoredCleanly(db, db.payments[pid]);
    }
  }

  lemma RefundAgrees(db: Db, pid: Id, c: Id)
    requires TierKept(db, c)
    ensures Agrees(RefundPayment(db, pid), c)
  {
    if pid in db.payments && db.payments[pid].status == Success {
      var p := db.payments[pid];
      assert IsStoredCleanly(db, p);
      if p.companyId == Some(c) { RefundOfOwnAgrees(db, pid, c); } else { RefundOfOthersAgrees(db, pid, c); }
    }
  }

  /**
   * The exact step: from tables in which the tier shown agrees with the holdings, an event keeps the agreement if and
   * only if it is allowed. Carts of any content and any number, refunds and cancellations always are.
   */
  lemma TierStep(w: World, e: Event, c: Id)
    requires TierKept(w.db, c)
    ensures AllStoredCleanly(Next(w, e)) && Consistent(Next(w, e).assets)
    ensures Agrees(Next(w, e), c) <==> TierAllowed(w, e, c)
  {
    KeptIs(w.db, c);
    OwnershipStep(w, e);
    var d := Next(w, e);
    hide Agrees, AllStoredCleanly, Consistent, Stored, ApplySuccess, RefundPayment, Checkout, InitPlan, InitSingle,
         ChargeFailed, CancelPending, ReleaseExpired, AssignSlot, UnassignSlot, SetTotalSlots, RemoveSlot, TierSurvives,
         FailureIsHarmless, SetStatus, TierKept;
    match e
    case EInitSingle(b, kind, targetId) => InitSingleAgrees(w.db, b, kind, targetId, c);
    case EInitPlan(b, planId, expiresAt) => InitPlanAgrees(w.db, b, planId, expiresAt, w.now, w.rule, c);
    case ECheckout(oid, b, items, expiresAt) => CheckoutAgrees(w.db, oid, b, items, expiresAt, w.now, w.rule, c);
    case EChargeSuccess(pid, granted) => if Delivers(w, e) { DeliveryAgrees(w.db, pid, granted, w.now, c); }
    case EAdminVerify(pid, granted) => if Delivers(w, e) { DeliveryAgrees(w.db, pid, granted, w.now, c); }
    case EChargeFailed(pid) => LateFailureAgrees(w.db, pid, c); ClosingStaysClean(w.db, pid);
    case ECancel(pid) => LateFailureAgrees(w.db, pid, c); ClosingStaysClean(w.db, pid);
    case ERefund(pid) => RefundAgrees(w.db, pid, c); ClosingStaysClean(w.db, pid);
    case ECleanup => CleanupAgrees(w.db, w.now, c); CleanupStaysClean(w.db, w.now);
    case ETick(_) =>
    case EAssignSlot(company, s) => SlotEdits(w.db, company, s, 0); OnlySlotsAgrees(w.db, d, c);
    case EUnassignSlot(s) => SlotEdits(w.db, c, s, 0); OnlySlotsAgrees(w.db, d, c);
    case ESetTotalSlots(s, n) => SlotEdits(w.db, c, s, n); OnlySlotsAgrees(w.db, d, c);
    case ERemoveSlot(s) => SlotEdits(w.db, c, s, 0); OnlySlotsAgrees(w.db, d, c);
  }

  lemma SlotEdits(db: Db, company: Id, s: SlotId, newTotal: int)
    ensures OnlySlots(db, AssignSlot(db, company, s)) && OnlySlots(db, UnassignSlot(db, s))
    ensures OnlySlots(db, SetTotalSlots(db, s, newTotal)) && OnlySlots(db, RemoveSlot(db, s))
  {
    hide KeepHolds, Without;
  }

  ghost predicate TierAllowedRun(w: World, events: seq<Event>, c: Id)
    decreases events
  {
    events == [] || (TierAllowed(w, events[0], c) && TierAllowedRun(Step(w, events[0]), events[1..], c))
  }

  ghost predicate AgreesThroughout(w: World, events: seq<Event>, c: Id) {
    forall i | 0 <= i <= |events| :: Agrees(Run(w, events[..i]).db, c)
  }

  lemma FirstStepOfRun(w: World, events: seq<Event>, c: Id)
    requires events != []
    ensures AgreesThroughout(w, events, c) <==> Agrees(w.db, c) && AgreesThroughout(Step(w, events[0]), events[1..], c)
  {
    hide Agrees, Step;
    assert Run(w, events[..0]) == w;
    forall i | 0 <= i <= |events[1..]| ensures Run(w, events[..i + 1]) == Run(Step(w, events[0]), events[1..][..i]) {
      assert events[..i + 1][1..] == events[1..][..i];
    }
    if AgreesThroughout(w, events, c) {
      forall i | 0 <= i <= |events[1..]| ensures Agrees(Run(Step(w, events[0]), events[1..][..i]).db, c) {
        assert Agrees(Run(w, events[..i + 1]).db, c);
      }
    }
    if Agrees(w.db, c) && AgreesThroughout(Step(w, events[0]), events[1..], c) {
      forall i | 0 <= i <= |events| ensures Agrees(Run(w, events[..i]).db, c) {
        if i > 0 { assert Run(w, events[..i]) == Run(Step(w, events[0]), events[1..][..i - 1]); }
      }
    }
  }

  /** Over a run, agreement holds throughout if and only if every event is allowed where it happens. */
  lemma {:induction false} TierRun(w: World, events: seq<Event>, c: Id)
    requires TierKept(w.db, c)
    ensures AgreesThroughout(w, events, c) <==> TierAllowedRun(w, events, c)
    decreases events
  {
    if events == [] {
      assert Run(w, events[..0]) == w;
      assert forall i | 0 <= i <= |events| :: events[..i] == [];
    } else {
      var next := Step(w, events[0]);
      TierStep(w, events[0], c);
      FirstStepOfRun(w, events, c);
      hide AgreesThroughout, TierAllowed, Next, Agrees, AllStoredCleanly, Consistent;
      if TierAllowed(w, events[0], c) {
        TierRun(next, events[1..], c);
      } else {
        NotAgreeingAtFirst(next, events[1..], c);
      }
    }
  }

  lemma NotAgreeingAtFirst(w: World, events: seq<Event>, c: Id)
    requires !Agrees(w.db, c)
    ensures !AgreesThroughout(w, events, c)
  {
    assert Run(w, events[..0]) == w;
  }

  /** The tier of the booth a company shows, if it has one. */
  ghost function ShownBooth(assets: map<AssetId, Asset>, c: Id): Option<Tier> {
    if OwnBooths(assets, Some(c)) == {} then None
    else
      var b :| b in OwnBooths(assets, Some(c));
      assets[b].tier
  }

  lemma NoBoothHeld(assets: map<AssetId, Asset>, c: Id)
    requires OwnBooths(assets, Some(c)) == {}
    ensures HeldTiers(assets, c) == {}
  {
    assert forall a | a in assets && a.kind == Booth && assets[a].owner == Some(c) :: a in OwnBooths(assets, Some(c));
  }

  lemma NoPlanCounts(payments: map<Id, Payment>, plans: map<Id, Plan>, c: Id)
    requires forall pid | pid in payments :: !CountsForTier(payments[pid], c)
    ensures PlanTiers(payments, plans, c, None) == {}
  {
  }

  lemma ShownBoothIsTheBest(assets: map<AssetId, Asset>, c: Id)
    requires Consistent(assets) && UniqueBooths(assets)
    ensures Rank(ShownBooth(assets, c)) == BestRank(HeldTiers(assets, c))
  {
    var own := OwnBooths(assets, Some(c));
    if own == {} {
      NoBoothHeld(assets, c);
    } else {
      var b :| b in own && ShownBooth(assets, c) == assets[b].tier;
      assert HeldTiers(assets, c) == if assets[b].tier.Some? then {assets[b].tier.value} else {};
      if assets[b].tier.Some? { BestRankOfOne(assets[b].tier.value); }
    }
  }

  /** The tier shown ranks exactly as the best of the company's booth and of the plans of its successful payments. */
  ghost predicate ShowsEarnedTier(db: Db, c: Id) {
    && c in db.companies
    && Rank(Some(EffectiveDisplayTier(db.companies[c].tier, ShownBooth(db.assets, c))))
      == BestRank(TierEvidence(db, c, None))
  }

  lemma ShownIsAgreed(db: Db, c: Id)
    requires Consistent(db.assets) && UniqueBooths(db.assets)
    ensures ShowsEarnedTier(db, c) <==> Agrees(db, c)
  {
    ShownBoothIsTheBest(db.assets, c);
    if c in db.companies { EffectiveRank(db.companies[c].tier, ShownBooth(db.assets, c)); }
    BestRankOfUnion(HeldTiers(db.assets, c), PlanTiers(db.payments, db.plans, c, None));
    hide HeldTiers, PlanTiers, BestTier, ShownBooth, EffectiveDisplayTier, Consistent, UniqueBooths;
  }

  /** Tables as the handlers leave them, in which a company has no tier, no booth and no plan yet. */
  ghost predicate IsNewcomer(db: Db, c: Id) {
    && AllStoredCleanly(db) && Consistent(db.assets) && UniqueBooths(db.assets)
    && c in db.companies && Rank(db.companies[c].tier) == 0 && OwnBooths(db.assets, Some(c)) == {}
    && forall pid | pid in db.payments :: !CountsForTier(db.payments[pid], c)
  }

  lemma NewcomerAgrees(db: Db, c: Id)
    requires IsNewcomer(db, c)
    ensures TierKept(db, c)
  {
    NoBoothHeld(db.assets, c);
    NoPlanCounts(db.payments, db.plans, c);
    hide HeldTiers, PlanTiers, AllStoredCleanly, Consistent;
  }

  lemma {:induction false} RunStaysConsistent(w: World, events: seq<Event>)
    requires Stored(w.db) && Consistent(w.db.assets)
    ensures Stored(Run(w, events).db) && Consistent(Run(w, events).db.assets)
    decreases events
  {
    hide Stored, Consistent, Next;
    if events != [] {
      OwnershipStep(w, events[0]);
      RunStaysConsistent(Step(w, events[0]), events[1..]);
    }
  }

  /**
   * Over every run of single purchases, carts of any content, failed bundles, repeated and late webhooks, cancellations
   * and refunds, the tier shown for a company is the one it has earned, at every moment of the run, if and only if
   * every delivery of its payments survives and every late charge.failed is harmless.
   */
  lemma TierShownIsEarned(w: World, events: seq<Event>, c: Id)
    requires IsNewcomer(w.db, c)
    ensures (forall i | 0 <= i <= |events| :: ShowsEarnedTier(Run(w, events[..i]).db, c)) <==>
      TierAllowedRun(w, events, c)
  {
    NewcomerAgrees(w.db, c);
    KeptIs(w.db, c);
    TierRun(w, events, c);
    hide Run, Consistent, UniqueBooths, Stored, Agrees, ShowsEarnedTier, TierKept, TierAllowedRun;
    forall i | 0 <= i <= |events|
      ensures ShowsEarnedTier(Run(w, events[..i]).db, c) <==> Agrees(Run(w, events[..i]).db, c)
    {
      OneBoothPerCompany(w, events[..i]);
      RunStaysConsistent(w, events[..i]);
      ShownIsAgreed(Run(w, events[..i]).db, c);
    }
  }
}
