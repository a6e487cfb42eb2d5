/**
 * Bundle resolution picks the first eligible rows, fails only when there are none, writes nothing else, and is undone
 * by a release; a bundle that fails later leaves the slot counters as they were.
 */
module FirstFit {
  import opened Common
  import opened CompanyTier
  import opened CheckoutHold
  import opened Tables
  import opened Inventory
  import opened Fulfilment
  import opened BundleResolution
  import opened Effects
  import opened Charges
  import opened RefundUndo
  import opened Resolutions
  import opened SlotConservation

  // ---- First fit and completeness --------------------------------------------------------

  /** A hold that is running and is another checkout's. */
  predicate IsHeldByOther(h: Hold, t: Target, now: int) {
    && h.expiresAt.Some? && h.expiresAt.value > now && (h.orderId.Some? || h.paymentId.Some?)
    && match t case ForOrder(id) => h.orderId != Some(id) case ForPayment(id) => h.paymentId != Some(id)
  }

  /** A booth of the tier that nobody has taken or holds; it may be reserved. */
  predicate IsFreeBooth(db: Db, a: AssetId, tier: Tier, t: Target, now: int) {
    && a in db.assets && a.kind == Booth && db.assets[a].tier == Some(tier) && !db.assets[a].taken
    && !IsHeldByOther(db.assets[a].hold, t, now)
  }

  /** A published session of the duration and day asked for that nobody has taken, reserved or holds. */
  predicate IsFreeSession(db: Db, a: AssetId, kind: AssetKind, rule: SessionRule, t: Target, now: int) {
    && a in db.assets && a.kind == kind && db.assets[a].published && rule.duration == Some(db.assets[a].duration)
    && rule.day == Some(db.assets[a].day) && !db.assets[a].taken && !db.assets[a].reserved
    && !IsHeldByOther(db.assets[a].hold, t, now)
  }

  lemma BlockedIsHeld(h: Hold, t: Target, now: int)
    ensures IsBlockedByOther(h, TargetExclude(t), now) <==> IsHeldByOther(h, t, now)
  {
  }

  lemma FreeIsEligible(db: Db, t: Target, now: int)
    ensures forall a, tier :: IsFreeBooth(db, a, tier, t, now) <==> IsEligibleBooth(db, a, tier, t, now)
    ensures forall a, kind, rule :: IsFreeSession(db, a, kind, rule, t, now)
                                    <==> IsEligibleSession(db, a, kind, rule, t, now)
  {
    forall h ensures IsBlockedByOther(h, TargetExclude(t), now) <==> IsHeldByOther(h, t, now) {
      BlockedIsHeld(h, t, now);
    }
    hide IsBlockedByOther, IsHeldByOther;
  }

  /** A booth is picked exactly when one is free; unreserved ones come first, and then the one with the least id. */
  lemma BoothIsFirstFit(db: Db, tier: Tier, t: Target, now: int)
    ensures var pick := PickBooth(db, tier, t, now);
      && (pick.Some? <==> exists a :: IsFreeBooth(db, a, tier, t, now))
      && (pick.Some? ==> IsFreeBooth(db, pick.value, tier, t, now))
      && (pick.Some? ==> forall b :: IsFreeBooth(db, b, tier, t, now) ==>
            if db.assets[pick.value].reserved == db.assets[b].reserved then pick.value.id <= b.id
            else !db.assets[pick.value].reserved)
  {
    var rows := EligibleBooths(db, tier, t, now);
    var free := rows - Reserved(db, rows);
    FreeIsEligible(db, t, now);
    assert forall a :: IsFreeBooth(db, a, tier, t, now) <==> a in rows;
    assert forall a | a in rows :: a in Reserved(db, rows) || a in free;
  }

  lemma SessionIsFirstFit(db: Db, kind: AssetKind, rule: SessionRule, t: Target, now: int)
    ensures var pick := PickSession(db, kind, rule, t, now);
      && (pick.Some? <==> exists a :: IsFreeSession(db, a, kind, rule, t, now))
      && (pick.Some? ==> IsFreeSession(db, pick.value, kind, rule, t, now))
      && (pick.Some? ==> forall b :: IsFreeSession(db, b, kind, rule, t, now) ==>
            pick.value.id <= b.id)
  {
    var rows := EligibleSessions(db, kind, rule, t, now);
    FreeIsEligible(db, t, now);
    assert forall a :: IsFreeSession(db, a, kind, rule, t, now) <==> a in rows;
  }

  /** A running hold of another checkout counts against a slot, if nulls drop out only one of the same column. */
  predicate CountsAgainst(h: SlotHold, s: SlotId, t: Target, now: int, rule: NullRule) {
    && h.slot == s && h.expiresAt > now
    && match t
       case ForOrder(id) => h.orderId != Some(id) && (rule == NullIsUnknown ==> h.orderId.Some?)
       case ForPayment(id) => h.paymentId != Some(id) && (rule == NullIsUnknown ==> h.paymentId.Some?)
  }

  /** Where these holds are listed, from `n` on. */
  function Counted(holds: seq<SlotHold>, n: nat, s: SlotId, t: Target, now: int, rule: NullRule): set<nat> {
    set i: nat | n <= i < |holds| && CountsAgainst(holds[i], s, t, now, rule)
  }

  lemma CountedFrom(holds: seq<SlotHold>, n: nat, s: SlotId, t: Target, now: int, rule: NullRule)
    requires n < |holds|
    ensures var rest := Counted(holds, n + 1, s, t, now, rule);
      && n !in rest
      && Counted(holds, n, s, t, now, rule) == rest + if CountsAgainst(holds[n], s, t, now, rule) then {n} else {}
  {
    hide CountsAgainst;
  }

  lemma {:induction false} CountIsOfHolds(holds: seq<SlotHold>, n: nat, s: SlotId, t: Target, now: int, rule: NullRule)
    requires n <= |holds|
    ensures CountHolds(holds[n..], s, t, now, rule) == |Counted(holds, n, s, t, now, rule)|
    decreases |holds| - n
  {
    var all := Counted(holds, n, s, t, now, rule);
    if n == |holds| {
      assert all == {};
    } else {
      assert IsCounted(holds[n], s, t, now, rule) == CountsAgainst(holds[n], s, t, now, rule);
      CountIsOfHolds(holds, n + 1, s, t, now, rule);
      CountedFrom(holds, n, s, t, now, rule);
      assert holds[n..][1..] == holds[n + 1..];
      hide IsCounted, CountsAgainst, Counted;
    }
  }

  /**
   * A slot is there for a checkout when it is not reserved and has more copies left than other holds count against it.
   */
  predicate SlotIsThere(db: Db, s: SlotId, t: Target, now: int, rule: NullRule) {
    && s in db.slots && !db.slots[s].reserved
    && db.slots[s].available > |Counted(db.slotHolds, 0, s, t, now, rule)|
  }

  lemma SlotsAreThere(db: Db, slots: seq<SlotId>, t: Target, now: int, rule: NullRule)
    ensures SlotsAreAvailable(db, slots, t, now, rule) <==> forall s | s in slots :: SlotIsThere(db, s, t, now, rule)
  {
    forall s ensures SlotIsAvailable(db, s, t, now, rule) <==> SlotIsThere(db, s, t, now, rule) {
      CountIsOfHolds(db.slotHolds, 0, s, t, now, rule);
      assert db.slotHolds[0..] == db.slotHolds;
    }
    hide SlotIsAvailable, SlotIsThere;
    if SlotsAreAvailable(db, slots, t, now, rule) {
      forall s | s in slots ensures SlotIsThere(db, s, t, now, rule) {
        var k :| 0 <= k < |slots| && slots[k] == s;
        assert SlotIsAvailable(db, slots[k], t, now, rule);
      }
    }
  }

  /**
   * A resolution succeeds exactly when the plan exists and is active, its booth is one of the three high tiers, its
   * session rules are complete or absent, each of its slots is there and each row it asks for is free.
   */
  lemma ResolutionIsComplete(db: Db, planId: Id, t: Target, expiresAt: int, now: int, rule: NullRule)
    ensures ResolvePlan(db, planId, t, expiresAt, now, rule).Some? <==>
      && planId in db.plans && db.plans[planId].active
      && var plan := db.plans[planId]; var m, p := plan.masterclass, plan.presentation;
      && plan.boothTier in {None, Some(Gold), Some(Platinum), Some(Headliner)}
      && (m.duration.Some? <==> m.day.Some?) && (p.duration.Some? <==> p.day.Some?)
      && (forall s | s in plan.slots :: SlotIsThere(db, s, t, now, rule))
      && (plan.boothTier.Some? ==> exists a :: IsFreeBooth(db, a, plan.boothTier.value, t, now))
      && (m.duration.Some? ==> exists a :: IsFreeSession(db, a, Masterclass, m, t, now))
      && (p.duration.Some? ==> exists a :: IsFreeSession(db, a, Presentation, p, t, now))
  {
    if PlanIsOffered(db, planId) {
      var plan := db.plans[planId];
      SlotsAreThere(db, plan.slots, t, now, rule);
      if plan.boothTier.Some? { BoothIsFirstFit(db, plan.boothTier.value, t, now); }
      if IsFull(plan.masterclass) { SessionIsFirstFit(db, Masterclass, plan.masterclass, t, now); }
      if IsFull(plan.presentation) { SessionIsFirstFit(db, Presentation, plan.presentation, t, now); }
      hide PickBooth, PickSession, SlotsAreAvailable, SlotIsThere, IsFreeBooth, IsFreeSession, HoldPick;
    }
  }

  // ---- Only the picked rows --------------------------------------------------------------

  function PickedRows(e: BundleEntry): set<AssetId> {
    EntryAssets(Some(e))
  }

  lemma HoldPickWrites(db: Db, x: Option<AssetId>, hold: Hold, a: AssetId)
    ensures var d := HoldPick(db, x, hold);
      && d.assets.Keys == db.assets.Keys
      && (a in db.assets ==> d.assets[a] == if x == Some(a) then db.assets[a].(hold := hold) else db.assets[a])
  {
  }

  lemma PicksWrite(db: Db, p: Picks, hold: Hold, a: AssetId)
    ensures var d := HoldPick(HoldPick(HoldPick(db, p.booth, hold), p.masterclass, hold), p.presentation, hold);
      && d.assets.Keys == db.assets.Keys
      && (a in db.assets ==> d.assets[a] == if p.booth == Some(a) || p.masterclass == Some(a)
          || p.presentation == Some(a)
                                            then db.assets[a].(hold := hold) else db.assets[a])
  {
    hide HoldPick;
    var d1 := HoldPick(db, p.booth, hold);
    HoldPickWrites(db, p.booth, hold, a);
    HoldPickWrites(d1, p.masterclass, hold, a);
    HoldPickWrites(HoldPick(d1, p.masterclass, hold), p.presentation, hold, a);
  }

  lemma PicksAreEligible(db: Db, plan: Plan, t: Target, now: int)
    ensures var p := PickRows(db, plan, t, now);
      && (p.booth.Some? ==> IsEligibleBooth(db, p.booth.value, plan.boothTier.value, t, now) && plan.boothTier.Some?)
      && (p.masterclass.Some? ==> IsEligibleSession(db, p.masterclass.value, Masterclass, plan.masterclass, t, now))
      && (p.presentation.Some? ==> IsEligibleSession(db, p.presentation.value, Presentation, plan.presentation, t, now))
  {
    if plan.boothTier.Some? { BoothIsFirstFit(db, plan.boothTier.value, t, now); }
    SessionIsFirstFit(db, Masterclass, plan.masterclass, t, now);
    SessionIsFirstFit(db, Presentation, plan.presentation, t, now);
    FreeIsEligible(db, t, now);
    hide PickBooth, PickSession, IsEligibleBooth, IsEligibleSession, IsFreeBooth, IsFreeSession;
  }

  lemma EntryListsPicks(db: Db, planId: Id, t: Target, expiresAt: int, now: int, rule: NullRule)
    requires ResolvePlan(db, planId, t, expiresAt, now, rule).Some?
    ensures var r := ResolvePlan(db, planId, t, expiresAt, now, rule).value;
        var p := PickRows(db, db.plans[planId], t, now);
      var hold := TargetHold(t, expiresAt);
      && planId in db.plans
      && r.db.assets == HoldPick(HoldPick(HoldPick(db, p.booth, hold), p.masterclass, hold), p.presentation,
                                 hold).assets
      && r.entry.boothId == IdOf(p.booth) && r.entry.masterclassId == IdOf(p.masterclass)
          && r.entry.presentationId == IdOf(p.presentation)
  {
    hide PickRows, HoldPick, SlotsAreAvailable;
  }

  lemma RowsOfPicks(db: Db, e: BundleEntry, p: Picks, plan: Plan, t: Target, now: int)
    requires e.boothId == IdOf(p.booth) && e.masterclassId == IdOf(p.masterclass)
        && e.presentationId == IdOf(p.presentation)
    requires p.booth.Some? ==> plan.boothTier.Some? && IsEligibleBooth(db, p.booth.value, plan.boothTier.value, t, now)
    requires p.masterclass.Some? ==> IsEligibleSession(db, p.masterclass.value, Masterclass, plan.masterclass, t, now)
    requires p.presentation.Some? ==>
      IsEligibleSession(db, p.presentation.value, Presentation, plan.presentation, t, now)
    ensures forall a ::
        a in PickedRows(e) <==> p.booth == Some(a) || p.masterclass == Some(a) || p.presentation == Some(a)
    ensures forall a | a in PickedRows(e) ::
      a in db.assets && !IsBlockedByOther(db.assets[a].hold, TargetExclude(t), now) && !db.assets[a].taken
  {
    hide IsBlockedByOther;
  }

  /** The entry's rows are the picks, none of which was blocked or taken. */
  lemma PickedRowsAre(db: Db, planId: Id, t: Target, expiresAt: int, now: int, rule: NullRule)
    requires ResolvePlan(db, planId, t, expiresAt, now, rule).Some?
    ensures var e := ResolvePlan(db, planId, t, expiresAt, now, rule).value.entry;
        var p := PickRows(db, db.plans[planId], t, now);
      && (forall a :: a in PickedRows(e)
            <==> p.booth == Some(a) || p.masterclass == Some(a) || p.presentation == Some(a))
      && (forall a | a in PickedRows(e) ::
            a in db.assets && !IsBlockedByOther(db.assets[a].hold, TargetExclude(t), now) && !db.assets[a].taken)
  {
    EntryListsPicks(db, planId, t, expiresAt, now, rule);
    PicksAreEligible(db, db.plans[planId], t, now);
    hide *;
    var r := ResolvePlan(db, planId, t, expiresAt, now, rule).value;
    RowsOfPicks(db, r.entry, PickRows(db, db.plans[planId], t, now), db.plans[planId], t, now);
  }

  /** The picked rows get the checkout's hold, were not blocked for it, and no other row changes. */
  lemma OnlyPickedRowsAreWritten(db: Db, planId: Id, t: Target, expiresAt: int, now: int, rule: NullRule)
    requires ResolvePlan(db, planId, t, expiresAt, now, rule).Some?
    ensures var r := ResolvePlan(db, planId, t, expiresAt, now, rule).value;
      && r.db.assets.Keys == db.assets.Keys && PickedRows(r.entry) <= db.assets.Keys
      && (forall a | a in db.assets :: r.db.assets[a] ==
            if a in PickedRows(r.entry) then db.assets[a].(hold := TargetHold(t, expiresAt)) else db.assets[a])
      && (forall a | a in PickedRows(r.entry) ::
            !IsBlockedByOther(db.assets[a].hold, TargetExclude(t), now) && !db.assets[a].taken)
  {
    EntryListsPicks(db, planId, t, expiresAt, now, rule);
    PickedRowsAre(db, planId, t, expiresAt, now, rule);
    hide *;
    forall a { PicksWrite(db, PickRows(db, db.plans[planId], t, now), TargetHold(t, expiresAt), a); }
  }

  // ---- Resolution and release ------------------------------------------------------------

  /** Nobody holds anything for this payment yet. */
  predicate IsUnheld(db: Db, pid: Id) {
    (forall a | a in db.assets :: db.assets[a].hold.paymentId != Some(pid))
        && forall h | h in db.slotHolds :: h.paymentId != Some(pid)
  }

  lemma {:induction false} KeepsAll(holds: seq<SlotHold>, more: seq<SlotHold>, drop: SlotHold -> bool)
    requires (forall h | h in holds :: !drop(h)) && forall h | h in more :: drop(h)
    ensures KeepHolds(holds + more, drop) == holds
    decreases |holds| + |more|
  {
    if holds != [] {
      assert (holds + more)[0] == holds[0] && (holds + more)[1..] == holds[1..] + more;
      KeepsAll(holds[1..], more, drop);
    } else if more != [] {
      assert holds + more == more;
      assert [] + more[1..] == more[1..];
      KeepsAll([], more[1..], drop);
    } else {
      assert holds + more == [];
    }
  }

  lemma PlacedForPayment(slots: seq<SlotId>, pid: Id, expiresAt: int)
    ensures forall h | h in SlotHolds(slots, ForPayment(pid), expiresAt) :: h.paymentId == Some(pid)
  {
  }

  /** A hold that does not block now never will. */
  lemma IdleHoldStaysIdle(h: Hold, ex: Exclude, now: int, later: int)
    requires !IsActive(h, now) && now <= later
    ensures !IsBlockedByOther(h, ex, later)
  {
  }

  /**
   * Resolving a bundle for a new payment and then releasing that payment's holds restores, for everybody and at every
   * later time, who is blocked from what; slot holds, counters and all other columns are as before.
   */
  lemma ReleaseUndoesResolution(db: Db, planId: Id, pid: Id, expiresAt: int, now: int, rule: NullRule)
    requires IsUnheld(db, pid)
    requires ResolvePlan(db, planId, ForPayment(pid), expiresAt, now, rule).Some?
    ensures var back := ReleaseForPayment(ResolvePlan(db, planId, ForPayment(pid), expiresAt, now, rule).value.db, pid);
      && back == db.(assets := back.assets) && back.assets.Keys == db.assets.Keys
      && forall a, ex, later | a in db.assets && now <= later ::
           back.assets[a] == db.assets[a].(hold := back.assets[a].hold)
           && (IsBlockedByOther(back.assets[a].hold, ex, later) <==> IsBlockedByOther(db.assets[a].hold, ex, later))
  {
    var t := ForPayment(pid);
    var r := ResolvePlan(db, planId, t, expiresAt, now, rule).value;
    var slots := db.plans[planId].slots;
    var back := ReleaseForPayment(r.db, pid);
    OnlyPickedRowsAreWritten(db, planId, t, expiresAt, now, rule);
    assert r.db == db.(assets := r.db.assets, slotHolds := db.slotHolds + SlotHolds(slots, t, expiresAt)) by {
      ResolvePlanOnlyHolds(db, planId, t, expiresAt, now, rule);
      hide PickRows, SlotsAreAvailable, HoldPick;
    }
    PlacedForPayment(slots, pid, expiresAt);
    KeepsAll(db.slotHolds, SlotHolds(slots, t, expiresAt), (h: SlotHold) => h.paymentId == Some(pid));
    assert back.slotHolds == db.slotHolds;
    hide ResolvePlan, PickedRows;
    forall a, ex, later | a in db.assets && now <= later
      ensures back.assets[a] == db.assets[a].(hold := back.assets[a].hold)
      ensures IsBlockedByOther(back.assets[a].hold, ex, later) <==> IsBlockedByOther(db.assets[a].hold, ex, later)
    {
      if a in PickedRows(r.entry) {
        assert !IsActive(db.assets[a].hold, now);
        IdleHoldStaysIdle(db.assets[a].hold, ex, now, later);
      }
    }
  }

  // ---- A bundle that fails ---------------------------------------------------------------

  predicate SameCounters(a: Db, b: Db) {
    b.slots == a.slots && b.assignments == a.assignments
  }

  lemma BoothKeepsCounters(db: Db, q: Buyer, boothId: Option<Id>)
    ensures SameCounters(db, TakeBundleBooth(db, q, boothId).db)
  {
    hide IsRefused, BreaksUniqueKey;
  }

  lemma SessionKeepsCounters(db: Db, q: Buyer, kind: AssetKind, id: Option<Id>)
    ensures SameCounters(db, TakeBundleSession(db, q, kind, id).db)
  {
    hide IsRefused;
  }

  lemma RowsKeepCounters(db: Db, q: Buyer, e: BundleEntry)
    ensures SameCounters(db, TakeBundleRows(db, q, e).db)
  {
    hide TakeBundleBooth, TakeBundleSession;
    var booth := TakeBundleBooth(db, q, e.boothId).db;
    var masterclass := TakeBundleSession(booth, q, Masterclass, e.masterclassId).db;
    BoothKeepsCounters(db, q, e.boothId);
    SessionKeepsCounters(booth, q, Masterclass, e.masterclassId);
    SessionKeepsCounters(masterclass, q, Presentation, e.presentationId);
  }

  /**
   * Whichever row or slot stops a bundle, every slot counter is as at entry; the assignments are too, exactly when the
   * company had none of the slots that were tried and given back.
   */
  lemma FailedBundleLeavesNoTrace(db: Db, q: Buyer, e: BundleEntry)
    requires q.company.Some? && TakeBundle(db, q, e).verdict != Done
    ensures var d := TakeBundle(db, q, e).db; var tried := e.slots[..Served(db.slots, e.slots, 0)];
      && d.slots == db.slots
      && (d.assignments == db.assignments <==>
            TakeBundleRows(db, q, e).verdict != Done || Copies(q.company, multiset(tried)) !! db.assignments)
  {
    RowsKeepCounters(db, q, e);
    hide TakeBundleRows, Served, Copies;
    var rows := TakeBundleRows(db, q, e);
    if rows.verdict == Done {
      var c := Copies(q.company, multiset(e.slots[..Served(db.slots, e.slots, 0)]));
      if c !! db.assignments { assert db.assignments - c == db.assignments; }
      forall x | x in c && x in db.assignments ensures x !in db.assignments - c {}
    }
  }

  lemma NothingServed(db: Db, pid: Id, now: int)
    requires pid in db.payments && WellFormed(db.payments[pid]) && db.payments[pid].kind == PlanPayment
    requires IsMissing(db, pid, now) || Core(db, pid, now).verdict != Done
    ensures Net(db, pid, now) == multiset{}
  {
    var p := db.payments[pid];
    assert |Lines(db, p)| == 1;
    assert ServedLines(db, pid, now) == [] by { hide FulfilItem; }
    hide FulfilItems, IsMissing, ServedLines;
    assert ItemsSlots([], p.bundles) == multiset{};
  }

  lemma NotSuccessful(db: Db, pid: Id, refundGranted: bool, now: int)
    requires pid in db.payments && WellFormed(db.payments[pid]) && db.payments[pid].kind == PlanPayment
    requires IsMissing(db, pid, now) || Core(db, pid, now).verdict != Done
    ensures StatusAfter(db, pid, refundGranted, now) != Success
  {
    SingleLineHasOneBooth(db, pid);
    CoreDoesNotCrash(db, pid, now);
    hide Core, IsMissing, OneBooth, Rows;
  }

  /** So a plan payment that cannot be fulfilled moves no counter, whatever its refund request answers. */
  lemma FailedPlanMovesNoCounter(db: Db, pid: Id, refundGranted: bool, now: int)
    requires pid in db.payments && WellFormed(db.payments[pid]) && db.payments[pid].kind == PlanPayment
    requires db.payments[pid].status == Pending || db.payments[pid].status == Failed
    requires !Fulfils(db, pid, now)
    ensures var d := ChargeSuccess(db, pid, refundGranted, now);
      d.slots == db.slots && pid in d.payments && d.payments[pid].status != Success
  {
    var marked := SetStatus(db, pid, Success);
    var p := marked.payments[pid];
    assert WellFormed(p) && p.kind == PlanPayment;
    assert IsMissing(marked, pid, now) || Core(marked, pid, now).verdict != Done;
    assert ChargeSuccess(db, pid, refundGranted, now) == ApplySuccess(marked, pid, refundGranted, now);
    hide *;
    NothingServed(marked, pid, now);
    NotSuccessful(marked, pid, refundGranted, now);
    ChargedTables(db, pid, refundGranted, now);
    NothingMoves(db.slots);
  }
}
