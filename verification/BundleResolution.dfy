/**
 * Choosing the rows of a sponsorship bundle and placing checkout holds
 * (src/sponsorship/sponsorship-bundle-resolution.service.ts and placeCheckoutHoldsTx in src/commerce/order.service.ts).
 * Both run inside one transaction, so an error leaves no change: `None` stands for it.
 */
module BundleResolution {
  import opened Common
  import opened CompanyTier
  import opened CheckoutHold
  import opened Tables

  datatype Target = ForOrder(id: Id) | ForPayment(id: Id)

  function TargetExclude(t: Target): Exclude {
    if t.ForOrder? then Exclude(Some(t.id), None) else Exclude(None, Some(t.id))
  }

  function TargetHold(t: Target, expiresAt: int): Hold {
    if t.ForOrder? then Hold(Some(expiresAt), Some(t.id), None) else Hold(Some(expiresAt), None, Some(t.id))
  }

  function TargetSlotHold(t: Target, s: SlotId, expiresAt: int): SlotHold {
    if t.ForOrder? then SlotHold(s, Some(t.id), None, expiresAt) else SlotHold(s, None, Some(t.id), expiresAt)
  }

  /**
   * How the database reads the filter "NOT orderId = x" on a row whose orderId is null: as true, or, as SQL's
   * three-valued logic has it, as unknown, which leaves the row out of the count.
   */
  datatype NullRule = NullIsOther | NullIsUnknown

  predicate IsOwn(h: SlotHold, t: Target) {
    if t.ForOrder? then h.orderId == Some(t.id) else h.paymentId == Some(t.id)
  }

  predicate SameColumn(h: SlotHold, t: Target) {
    if t.ForOrder? then h.orderId.Some? else h.paymentId.Some?
  }

  predicate IsCounted(h: SlotHold, s: SlotId, t: Target, now: int, rule: NullRule) {
    h.slot == s && h.expiresAt > now && !IsOwn(h, t) && (rule == NullIsUnknown ==> SameColumn(h, t))
  }

  function CountHolds(holds: seq<SlotHold>, s: SlotId, t: Target, now: int, rule: NullRule): nat {
    if holds == [] then 0
    else (if IsCounted(holds[0], s, t, now, rule) then 1 else 0) + CountHolds(holds[1..], s, t, now, rule)
  }

  /** assertMarketingSlotAvailable, with the holds counted when the plan is read. */
  predicate SlotIsAvailable(db: Db, s: SlotId, t: Target, now: int, rule: NullRule) {
    && s in db.slots && !db.slots[s].reserved
    && db.slots[s].available - CountHolds(db.slotHolds, s, t, now, rule) > 0
  }

  // ---- First fit -------------------------------------------------------------------------

  predicate IsBundleTier(t: Tier) {
    t == Gold || t == Platinum || t == Headliner
  }

  /** A booth this checkout may be given. */
  predicate IsEligibleBooth(db: Db, a: AssetId, tier: Tier, t: Target, now: int) {
    && a in db.assets && a.kind == Booth && db.assets[a].tier == Some(tier) && !db.assets[a].taken
    && !IsBlockedByOther(db.assets[a].hold, TargetExclude(t), now)
  }

  predicate IsEligibleSession(db: Db, a: AssetId, kind: AssetKind, rule: SessionRule, t: Target, now: int) {
    && a in db.assets && a.kind == kind && db.assets[a].published && Some(db.assets[a].duration) == rule.duration
    && Some(db.assets[a].day) == rule.day && !db.assets[a].taken && !db.assets[a].reserved
    && !IsBlockedByOther(db.assets[a].hold, TargetExclude(t), now)
  }

  function EligibleBooths(db: Db, tier: Tier, t: Target, now: int): set<AssetId> {
    set a | a in db.assets && IsEligibleBooth(db, a, tier, t, now)
  }

  function EligibleSessions(db: Db, kind: AssetKind, rule: SessionRule, t: Target, now: int): set<AssetId> {
    set a | a in db.assets && IsEligibleSession(db, a, kind, rule, t, now)
  }

  /** The order of the catalogue queries: isReserved first, then id. */
  predicate ComesFirst(assets: map<AssetId, Asset>, a: AssetId, b: AssetId)
    requires a in assets && b in assets
  {
    (!assets[a].reserved && assets[b].reserved) || (assets[a].reserved == assets[b].reserved && a.id <= b.id)
  }

  function Reserved(db: Db, rows: set<AssetId>): set<AssetId> {
    set a | a in rows && a in db.assets && db.assets[a].reserved
  }

  lemma SomeRowIsFirst(rows: set<AssetId>)
    requires rows != {}
    ensures exists a :: a in rows && forall b | b in rows :: a.id <= b.id
  {
    var a :| a in rows;
    if rows != {a} {
      SomeRowIsFirst(rows - {a});
      var m :| m in rows - {a} && forall b | b in rows - {a} :: m.id <= b.id;
      var least := if a.id <= m.id then a else m;
      assert forall b | b in rows :: b == a || b in rows - {a};
      assert least in rows && forall b | b in rows :: least.id <= b.id;
    } else {
      assert a in rows && forall b | b in rows :: a.id <= b.id;
    }
  }

  /** The first row in the order of its id. */
  ghost function FirstById(rows: set<AssetId>): (a: AssetId)
    requires rows != {}
    ensures a in rows && forall b | b in rows :: a.id <= b.id
  {
    SomeRowIsFirst(rows);
    var a :| a in rows && forall b | b in rows :: a.id <= b.id;
    a
  }

  /** Booths are ordered by isReserved and then by id, so a reserved booth is the last resort. */
  ghost function PickBooth(db: Db, tier: Tier, t: Target, now: int): Option<AssetId> {
    var rows := EligibleBooths(db, tier, t, now);
    var free := rows - Reserved(db, rows);
    if free != {} then Some(FirstById(free)) else if rows != {} then Some(FirstById(rows)) else None
  }

  ghost function PickSession(db: Db, kind: AssetKind, rule: SessionRule, t: Target, now: int): Option<AssetId> {
    var rows := EligibleSessions(db, kind, rule, t, now);
    if rows != {} then Some(FirstById(rows)) else None
  }

  // ---- Resolution ------------------------------------------------------------------------

  datatype Resolved = Resolved(db: Db, entry: BundleEntry)

  predicate IsPartial(r: SessionRule) {
    r.duration.Some? != r.day.Some?
  }

  predicate IsFull(r: SessionRule) {
    r.duration.Some? && r.day.Some?
  }

  function PutHold(db: Db, a: AssetId, hold: Hold): Db {
    if a in db.assets then db.(assets := db.assets[a := db.assets[a].(hold := hold)]) else db
  }

  function SlotHolds(slots: seq<SlotId>, t: Target, expiresAt: int): seq<SlotHold> {
    if slots == [] then [] else [TargetSlotHold(t, slots[0], expiresAt)] + SlotHolds(slots[1..], t, expiresAt)
  }

  predicate PlanIsOffered(db: Db, planId: Id) {
    && planId in db.plans && db.plans[planId].active
    && (db.plans[planId].boothTier.Some? ==> IsBundleTier(db.plans[planId].boothTier.value))
    && !IsPartial(db.plans[planId].masterclass) && !IsPartial(db.plans[planId].presentation)
  }

  predicate SlotsAreAvailable(db: Db, slots: seq<SlotId>, t: Target, now: int, rule: NullRule) {
    forall k | 0 <= k < |slots| :: SlotIsAvailable(db, slots[k], t, now, rule)
  }

  /** The three rows a plan asks for; `None` inside when the plan asks for no such row. */
  datatype Picks = Picks(booth: Option<AssetId>, masterclass: Option<AssetId>, presentation: Option<AssetId>)

  ghost function PickRows(db: Db, plan: Plan, t: Target, now: int): Picks {
    Picks(if plan.boothTier.Some? then PickBooth(db, plan.boothTier.value, t, now) else None,
          if IsFull(plan.masterclass) then PickSession(db, Masterclass, plan.masterclass, t, now) else None,
          if IsFull(plan.presentation) then PickSession(db, Presentation, plan.presentation, t, now) else None)
  }

  predicate AllPicked(plan: Plan, p: Picks) {
    && (plan.boothTier.Some? ==> p.booth.Some?)
    && (IsFull(plan.masterclass) ==> p.masterclass.Some?)
    && (IsFull(plan.presentation) ==> p.presentation.Some?)
  }

  function HoldPick(db: Db, a: Option<AssetId>, hold: Hold): Db {
    if a.Some? then PutHold(db, a.value, hold) else db
  }

  function IdOf(a: Option<AssetId>): Option<Id> {
    if a.Some? then Some(a.value.id) else None
  }

  ghost function ResolvePlan(db: Db, planId: Id, t: Target, expiresAt: int, now: int,
                             rule: NullRule): Option<Resolved> {
    if !PlanIsOffered(db, planId) then None
    else
      var plan := db.plans[planId];
      var p := PickRows(db, plan, t, now);
      if !SlotsAreAvailable(db, plan.slots, t, now, rule) || !AllPicked(plan, p) then None
      else
        var hold := TargetHold(t, expiresAt);
        var rows := HoldPick(HoldPick(HoldPick(db, p.booth, hold), p.masterclass, hold), p.presentation, hold);
        Some(Resolved(
          rows.(slotHolds := db.slotHolds + SlotHolds(plan.slots, t, expiresAt)),
          BundleEntry(planId, IdOf(p.booth), IdOf(p.masterclass), IdOf(p.presentation), plan.slots)))
  }
}
