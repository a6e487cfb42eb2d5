/** Carts: what addItem lets in (src/commerce/cart.service.ts), and why checkout's plan checks then pass. */
module Carts {
  import opened Common
  import opened CompanyTier
  import opened CheckoutHold
  import opened Tables
  import opened Inventory
  import opened Machine
  import opened BoothHolds
  import opened FreshShops
  import PlanSales

  datatype CartKind = ConferenceCart | HotelCart

  datatype LineType = RowLine(asset: AssetKind) | SlotLine(slot: SlotKind) | PlanLine

  /** A request: the catalogue ids it sends, by the type each id field belongs to. */
  datatype Dto = Dto(kind: CartKind, line: LineType, quantity: Option<int>, ids: map<LineType, Id>)

  /** A stored line keeps the ids of the request. */
  datatype Line = Line(id: Id, line: LineType, quantity: int, ids: map<LineType, Id>)

  datatype Refusal = WrongIds | WrongCart | WrongQuantity | NotEligible | NotAvailable | PlanConflict | Duplicate

  datatype Added = Refused(why: Refusal) | Stored(line: Line)

  // ---- The checks of addItem -------------------------------------------------------------

  /** Nobody holds the row: a cart excludes no hold, not even its own user's. */
  predicate IsHeld(h: Hold, now: int) {
    IsBlockedByOther(h, Exclude(None, None), now)
  }

  /** validateConferenceCatalogItem and validateHotelRoomItem */
  predicate IsOffered(db: Db, company: Id, line: LineType, id: Id, now: int) {
    match line
    case RowLine(kind) =>
      var a := AssetId(kind, id);
      && a in db.assets && !db.assets[a].taken && !db.assets[a].reserved && !IsHeld(db.assets[a].hold, now)
      && (kind == Booth ==> IsCartTier(db.assets[a].tier) && OwnBooths(db.assets, Some(company)) == {})
      && (kind == Masterclass || kind == Panel || kind == Presentation ==> db.assets[a].published)
    case SlotLine(kind) =>
      var s := SlotId(kind, id);
      s in db.slots && !IsLinked(db, s) && !db.slots[s].reserved && db.slots[s].available > 0
    case PlanLine => id in db.plans && db.plans[id].active && !HasBoughtPlan(db, company)
  }

  predicate BundlesBooth(db: Db, planId: Id) {
    planId in db.plans && db.plans[planId].boothTier.Some?
  }

  predicate HoldsBoothLine(lines: seq<Line>) {
    exists i | 0 <= i < |lines| :: lines[i].line == RowLine(Booth) && RowLine(Booth) in lines[i].ids
  }

  function PlansIn(lines: seq<Line>): set<Id> {
    set i | 0 <= i < |lines| && lines[i].line == PlanLine && PlanLine in lines[i].ids :: lines[i].ids[PlanLine]
  }

  /** assertCartSponsorshipBoothCompatibility */
  predicate IsCompatible(db: Db, company: Id, lines: seq<Line>, line: LineType, id: Id) {
    var plans := PlansIn(lines) + if line == PlanLine then {id} else {};
    && |plans| <= 1
    && (line == RowLine(Booth) ==> forall p | p in plans :: !BundlesBooth(db, p))
    && (line == PlanLine && BundlesBooth(db, id) ==>
          !HoldsBoothLine(lines) && OwnBooths(db.assets, Some(company)) == {})
  }

  /** Some line is for this thing. */
  predicate HasLine(lines: seq<Line>, line: LineType, id: Id) {
    exists i | 0 <= i < |lines| :: lines[i].line == line && line in lines[i].ids && lines[i].ids[line] == id
  }

  /** addItem; `eligible` stands for the account checks. */
  function AddItem(lines: seq<Line>, db: Db, company: Id, eligible: bool, dto: Dto, newId: Id, now: int): Added {
    var quantity := if dto.quantity.Some? then dto.quantity.value else 1;
    if dto.line !in dto.ids || dto.ids.Keys != {dto.line} then Refused(WrongIds)
    else if (dto.kind == HotelCart) != (dto.line == RowLine(HotelRoom)) then Refused(WrongCart)
    else if quantity != 1 then Refused(WrongQuantity)
    else if !eligible then Refused(NotEligible)
    else if !IsOffered(db, company, dto.line, dto.ids[dto.line], now) then Refused(NotAvailable)
    else if dto.kind == ConferenceCart && !IsCompatible(db, company, lines, dto.line, dto.ids[dto.line])
        then Refused(PlanConflict)
    else if HasLine(lines, dto.line, dto.ids[dto.line]) then Refused(Duplicate)
    else Stored(Line(newId, dto.line, quantity, dto.ids))
  }

  function RemoveItem(lines: seq<Line>, id: Id): seq<Line> {
    if lines == [] then [] else (if lines[0].id == id then [] else [lines[0]]) + RemoveItem(lines[1..], id)
  }

  /** Each step sees the catalogue and the inventory of its moment. */
  datatype CartStep =
    | Add(db: Db, company: Id, eligible: bool, dto: Dto, newId: Id, now: int)
    | Remove(id: Id)

  function AfterStep(lines: seq<Line>, step: CartStep): seq<Line> {
    match step
    case Add(db, company, eligible, dto, newId, now) =>
      var r := AddItem(lines, db, company, eligible, dto, newId, now);
      if r.Stored? then lines + [r.line] else lines
    case Remove(id) => RemoveItem(lines, id)
  }

  function AfterSteps(lines: seq<Line>, steps: seq<CartStep>): seq<Line>
    decreases steps
  {
    if steps == [] then lines else AfterSteps(AfterStep(lines, steps[0]), steps[1..])
  }

  class Cart {
    const kind: CartKind
    var lines: seq<Line>

    constructor (kind: CartKind)
      ensures this.kind == kind && lines == []
    {
      this.kind := kind;
      lines := [];
    }

    /** addItem: the checks in the order of the handler, and the insert. */
    method Put(db: Db, company: Id, eligible: bool, dto: Dto, newId: Id, now: int) returns (r: Added)
      requires dto.kind == kind
      modifies this`lines
      ensures r == AddItem(old(lines), db, company, eligible, dto, newId, now)
      ensures lines == AfterStep(old(lines), Add(db, company, eligible, dto, newId, now))
      ensures lines == if r.Stored? then old(lines) + [r.line] else old(lines)
    {
      if dto.line !in dto.ids || dto.ids.Keys != {dto.line} { return Refused(WrongIds); }
      if kind == ConferenceCart && dto.line == RowLine(HotelRoom) { return Refused(WrongCart); }
      if kind == HotelCart && dto.line != RowLine(HotelRoom) { return Refused(WrongCart); }
      var quantity := if dto.quantity.Some? then dto.quantity.value else 1;
      if quantity != 1 { return Refused(WrongQuantity); }
      if !eligible { return Refused(NotEligible); }
      var id := dto.ids[dto.line];
      if !IsOffered(db, company, dto.line, id, now) { return Refused(NotAvailable); }
      if kind == ConferenceCart && !IsCompatible(db, company, lines, dto.line, id) { return Refused(PlanConflict); }
      if HasLine(lines, dto.line, id) { return Refused(Duplicate); }
      var line := Line(newId, dto.line, quantity, dto.ids);
      lines := lines + [line];
      return Stored(line);
    }

    /** removeItem */
    method Drop(id: Id)
      modifies this`lines
      ensures lines == RemoveItem(old(lines), id)
    {
      var kept: seq<Line> := [];
      for i := 0 to |lines|
        invariant lines == old(lines)
        invariant kept + RemoveItem(lines[i..], id) == RemoveItem(lines, id)
      {
        var one := if lines[i].id == id then [] else [lines[i]];
        assert lines[i..][0] == lines[i] && lines[i..][1..] == lines[i + 1..];
        assert RemoveItem(lines[i..], id) == one + RemoveItem(lines[i + 1..], id);
        assert kept + (one + RemoveItem(lines[i + 1..], id)) == (kept + one) + RemoveItem(lines[i + 1..], id);
        kept := kept + one;
      }
      lines := kept;
    }
  }

  // ---- What is taken out -----------------------------------------------------------------

  lemma {:induction false} RemovalOfBoth(a: seq<Line>, b: seq<Line>, id: Id)
    ensures RemoveItem(a + b, id) == RemoveItem(a, id) + RemoveItem(b, id)
    decreases a
  {
    if a == [] {
      assert a + b == b;
    } else {
      assert (a + b)[0] == a[0] && (a + b)[1..] == a[1..] + b;
      RemovalOfBoth(a[1..], b, id);
    }
  }

  lemma {:induction false} RemovedCount(a: seq<Line>, l: Line, id: Id)
    ensures multiset(RemoveItem(a, id))[l] == if l.id == id then 0 else multiset(a)[l]
    decreases a
  {
    if a != [] {
      RemovedCount(a[1..], l, id);
      assert a == [a[0]] + a[1..];
    }
  }

  /** A removal takes out every line with the id, keeps every other, and keeps them in order. */
  lemma RemovalIs(a: seq<Line>, b: seq<Line>, l: Line, id: Id)
    ensures RemoveItem(a + b, id) == RemoveItem(a, id) + RemoveItem(b, id)
    ensures RemoveItem([l], id) == if l.id == id then [] else [l]
    ensures multiset(RemoveItem(a, id))[l] == if l.id == id then 0 else multiset(a)[l]
  {
    assert [l][1..] == [] && RemoveItem([], id) == [];
    RemovalOfBoth(a, b, id);
    RemovedCount(a, l, id);
  }

  // ---- What is let in --------------------------------------------------------------------

  /** A hold that is running, whoever's it is. */
  predicate IsRunning(h: Hold, now: int) {
    h.expiresAt.Some? && h.expiresAt.value > now && (h.orderId.Some? || h.paymentId.Some?)
  }

  /** What a line asks for can be had: a free row, a slot of no plan with a copy left, or a plan and no other. */
  ghost predicate CanBeHad(db: Db, company: Id, line: LineType, id: Id, now: int) {
    match line
    case RowLine(kind) =>
      var a := AssetId(kind, id);
      && a in db.assets && !db.assets[a].taken && !db.assets[a].reserved && !IsRunning(db.assets[a].hold, now)
      && (kind in {Masterclass, Panel, Presentation} ==> db.assets[a].published)
      && (kind == Booth ==>
            && db.assets[a].tier in {None, Some(Silver), Some(Bronze)}
            && forall b | b in db.assets && b.kind == Booth :: db.assets[b].owner != Some(company))
    case SlotLine(kind) =>
      var s := SlotId(kind, id);
      && s in db.slots && !db.slots[s].reserved && db.slots[s].available > 0
      && forall p | p in db.plans :: s !in db.plans[p].slots
    case PlanLine =>
      id in db.plans && db.plans[id].active && forall pid :: !PlanSales.IsPlanSale(db, company, pid)
  }

  /**
   * Beside a plan there is no other plan, and no booth if the plan brings one; for such a plan the company has no booth
   * either.
   */
  ghost predicate GoesWith(db: Db, company: Id, lines: seq<Line>, line: LineType, id: Id) {
    && (forall p, q | HasLine(lines, PlanLine, p) && HasLine(lines, PlanLine, q) :: p == q)
    && (line == PlanLine ==> forall p | HasLine(lines, PlanLine, p) :: p == id)
    && (line == RowLine(Booth) ==> forall p | HasLine(lines, PlanLine, p) && p in db.plans ::
          db.plans[p].boothTier.None?)
    && (line == PlanLine && id in db.plans && db.plans[id].boothTier.Some? ==>
          && (forall b :: !HasLine(lines, RowLine(Booth), b))
          && forall b | b in db.assets && b.kind == Booth :: db.assets[b].owner != Some(company))
  }

  lemma NoOwnBooths(db: Db, company: Id)
    ensures OwnBooths(db.assets, Some(company)) == {}
      <==> forall b | b in db.assets && b.kind == Booth :: db.assets[b].owner != Some(company)
  {
    assert forall b | b in db.assets && b.kind == Booth && db.assets[b].owner == Some(company) ::
      b in OwnBooths(db.assets, Some(company));
  }

  lemma OfferedIs(db: Db, company: Id, line: LineType, id: Id, now: int)
    ensures IsOffered(db, company, line, id, now) <==> CanBeHad(db, company, line, id, now)
  {
    NoOwnBooths(db, company);
    PlanSales.BoughtIs(db, company);
    hide HasBoughtPlan, OwnBooths, PlanSales.IsPlanSale;
  }

  lemma AtMostOne(plans: set<Id>)
    ensures |plans| <= 1 <==> forall p, q | p in plans && q in plans :: p == q
  {
    if p, q :| p in plans && q in plans && p != q {
      SubsetIsNoLarger({p, q}, plans);
    } else if plans != {} {
      var p :| p in plans;
      assert plans == {p};
    }
  }

  lemma BoothLinesFor(lines: seq<Line>)
    ensures HoldsBoothLine(lines) <==> exists b :: HasLine(lines, RowLine(Booth), b)
  {
    if HoldsBoothLine(lines) {
      var i :| 0 <= i < |lines| && lines[i].line == RowLine(Booth) && RowLine(Booth) in lines[i].ids;
      assert HasLine(lines, RowLine(Booth), lines[i].ids[RowLine(Booth)]);
    }
  }

  lemma PlansGoTogether(lines: seq<Line>, more: set<Id>)
    requires |more| <= 1
    ensures |PlansIn(lines) + more| <= 1 <==>
      && (forall p, q | HasLine(lines, PlanLine, p) && HasLine(lines, PlanLine, q) :: p == q)
      && (forall p, q | HasLine(lines, PlanLine, p) && q in more :: p == q)
  {
    var plans := PlansIn(lines) + more;
    AtMostOne(plans);
    AtMostOne(more);
    assert forall p :: p in PlansIn(lines) <==> HasLine(lines, PlanLine, p);
    hide PlansIn, HasLine;
  }

  lemma NoBundledBooth(lines: seq<Line>, db: Db)
    ensures (forall p | p in PlansIn(lines) + {} :: !BundlesBooth(db, p))
      <==> forall p | HasLine(lines, PlanLine, p) && p in db.plans :: db.plans[p].boothTier.None?
  {
    forall p ensures p in PlansIn(lines) + {} <==> HasLine(lines, PlanLine, p) {}
    assert forall p :: BundlesBooth(db, p) <==> p in db.plans && db.plans[p].boothTier.Some?;
    hide PlansIn, HasLine, BundlesBooth;
  }

  lemma CompatibleIs(db: Db, company: Id, lines: seq<Line>, line: LineType, id: Id)
    ensures IsCompatible(db, company, lines, line, id) <==> GoesWith(db, company, lines, line, id)
  {
    PlansGoTogether(lines, if line == PlanLine then {id} else {});
    NoOwnBooths(db, company);
    NoBundledBooth(lines, db);
    BoothLinesFor(lines);
    hide PlansIn, HoldsBoothLine, OwnBooths, HasLine;
  }

  /**
   * A line is added if and only if it names exactly the thing of its type, one piece of it, in the cart for it, by an
   * account that may; the thing can be had, goes with the plans of a conference cart, and is not in the cart already.
   */
  lemma AdditionIsDecided(lines: seq<Line>, db: Db, company: Id, eligible: bool, dto: Dto, newId: Id, now: int)
    ensures AddItem(lines, db, company, eligible, dto, newId, now).Stored? <==>
      && dto.ids.Keys == {dto.line} && eligible && dto.quantity in {None, Some(1)}
      && (dto.kind == HotelCart <==> dto.line == RowLine(HotelRoom))
      && var id := dto.ids[dto.line];
      && CanBeHad(db, company, dto.line, id, now)
      && (dto.kind == ConferenceCart ==> GoesWith(db, company, lines, dto.line, id))
      && forall i | 0 <= i < |lines| && lines[i].line == dto.line && dto.line in lines[i].ids ::
           lines[i].ids[dto.line] != id
    ensures var r := AddItem(lines, db, company, eligible, dto, newId, now);
      r.Stored? ==> r.line == Line(newId, dto.line, 1, dto.ids)
  {
    assert dto.line in dto.ids && dto.ids.Keys == {dto.line} <==> dto.ids.Keys == {dto.line};
    if dto.line in dto.ids {
      OfferedIs(db, company, dto.line, dto.ids[dto.line], now);
      CompatibleIs(db, company, lines, dto.line, dto.ids[dto.line]);
    }
    hide IsOffered, IsCompatible, CanBeHad, GoesWith;
  }

  // ---- What every reachable cart satisfies -----------------------------------------------

  /** The part of the catalogue that does not change while the cart is filled: plans and booth tiers. */
  datatype Catalogue = Catalogue(plans: map<Id, Plan>, tiers: map<AssetId, Option<Tier>>)

  predicate HasCatalogue(db: Db, c: Catalogue) {
    db.plans == c.plans && forall a | a in db.assets && a.kind == Booth ::
        a in c.tiers && db.assets[a].tier == c.tiers[a]
  }

  /** The line has exactly the id of its type, and one piece of it. */
  predicate IsClean(l: Line) {
    l.ids.Keys == {l.line} && l.quantity == 1
  }

  predicate FitsCatalogue(l: Line, c: Catalogue)
    requires IsClean(l)
  {
    var id := l.ids[l.line];
    && (l.line == PlanLine ==> id in c.plans)
    && (l.line == RowLine(Booth) ==> AssetId(Booth, id) in c.tiers && IsCartTier(c.tiers[AssetId(Booth, id)]))
    && (l.line.SlotLine? ==> forall p | p in c.plans :: SlotId(l.line.slot, id) !in c.plans[p].slots)
  }

  predicate NoneTwice(lines: seq<Line>) {
    forall i, j | 0 <= i < j < |lines| :: lines[i].line != lines[j].line || lines[i].ids != lines[j].ids
  }

  predicate OnePlan(lines: seq<Line>) {
    forall i, j | 0 <= i < j < |lines| :: !(lines[i].line == PlanLine && lines[j].line == PlanLine)
  }

  predicate NoBoothBeside(lines: seq<Line>, c: Catalogue) {
    forall i, j | 0 <= i < |lines| && 0 <= j < |lines| && lines[i].line == PlanLine
        && lines[j].line == RowLine(Booth) ::
      PlanLine in lines[i].ids && lines[i].ids[PlanLine] in c.plans ==> c.plans[lines[i].ids[PlanLine]].boothTier.None?
  }

  predicate IsTidy(lines: seq<Line>, c: Catalogue) {
    && (forall i | 0 <= i < |lines| :: IsClean(lines[i]) && FitsCatalogue(lines[i], c))
    && NoneTwice(lines) && OnePlan(lines) && NoBoothBeside(lines, c)
  }

  predicate StepFits(step: CartStep, kind: CartKind, c: Catalogue) {
    step.Add? ==> step.dto.kind == kind && HasCatalogue(step.db, c)
  }

  predicate AllFit(steps: seq<CartStep>, kind: CartKind, c: Catalogue) {
    forall k | 0 <= k < |steps| :: StepFits(steps[k], kind, c)
  }

  lemma MoreThanOne(plans: set<Id>, x: Id, y: Id)
    requires x in plans && y in plans && |plans| <= 1
    ensures x == y
  {
    if x != y {
      assert {x, y} <= plans;
      SubsetIsNoLarger({x, y}, plans);
    }
  }

  lemma NewPlanIsAlone(db: Db, company: Id, lines: seq<Line>, id: Id, i: nat)
    requires IsCompatible(db, company, lines, PlanLine, id) && !HasLine(lines, PlanLine, id)
    requires i < |lines| && IsClean(lines[i])
    ensures lines[i].line != PlanLine
  {
    if lines[i].line == PlanLine {
      var plans := PlansIn(lines) + {id};
      MoreThanOne(plans, lines[i].ids[PlanLine], id);
    }
  }

  lemma AddKeepsTidy(lines: seq<Line>, c: Catalogue, db: Db, company: Id, eligible: bool, dto: Dto, newId: Id, now: int)
    requires IsTidy(lines, c) && HasCatalogue(db, c) && AddItem(lines, db, company, eligible, dto, newId, now).Stored?
    ensures IsTidy(lines + [AddItem(lines, db, company, eligible, dto, newId, now).line], c)
  {
    var line := AddItem(lines, db, company, eligible, dto, newId, now).line;
    var id := dto.ids[dto.line];
    assert IsClean(line) && FitsCatalogue(line, c);
    forall i | 0 <= i < |lines|
      ensures lines[i].line != line.line || lines[i].ids != line.ids
      ensures !(lines[i].line == PlanLine && line.line == PlanLine)
      ensures lines[i].line == PlanLine && line.line == RowLine(Booth) && lines[i].ids[PlanLine] in c.plans
              ==> c.plans[lines[i].ids[PlanLine]].boothTier.None?
      ensures lines[i].line == RowLine(Booth) && line.line == PlanLine && id in c.plans ==> c.plans[id].boothTier.None?
    {
      assert IsClean(lines[i]);
      if line.line == PlanLine { NewPlanIsAlone(db, company, lines, id, i); }
      if lines[i].line == PlanLine && line.line == RowLine(Booth) {
        var p := lines[i].ids[PlanLine];
        assert p in PlansIn(lines);
        assert !BundlesBooth(db, p);
      }
    }
    hide AddItem, IsClean, FitsCatalogue, HasCatalogue;
    TidyOneMore(lines, line, c);
  }

  lemma TidyOneMore(lines: seq<Line>, line: Line, c: Catalogue)
    requires IsTidy(lines, c) && IsClean(line) && FitsCatalogue(line, c)
    requires forall i | 0 <= i < |lines| ::
      && IsClean(lines[i])
      && (lines[i].line != line.line || lines[i].ids != line.ids)
      && !(lines[i].line == PlanLine && line.line == PlanLine)
      && (lines[i].line == PlanLine && line.line == RowLine(Booth) && lines[i].ids[PlanLine] in c.plans
          ==> c.plans[lines[i].ids[PlanLine]].boothTier.None?)
      && (lines[i].line == RowLine(Booth) && line.line == PlanLine && line.ids[PlanLine] in c.plans
          ==> c.plans[line.ids[PlanLine]].boothTier.None?)
    ensures IsTidy(lines + [line], c)
  {
    hide FitsCatalogue;
  }

  lemma TidyTail(lines: seq<Line>, c: Catalogue)
    requires IsTidy(lines, c) && lines != []
    ensures IsTidy(lines[1..], c)
  {
    hide IsClean, FitsCatalogue;
  }

  lemma {:induction false} RemoveKeepsTidy(lines: seq<Line>, c: Catalogue, id: Id)
    requires IsTidy(lines, c)
    ensures IsTidy(RemoveItem(lines, id), c)
    ensures forall l | l in RemoveItem(lines, id) :: l in lines
    decreases lines
  {
    if lines != [] {
      TidyTail(lines, c);
      RemoveKeepsTidy(lines[1..], c, id);
      var rest := RemoveItem(lines[1..], id);
      assert forall l | l in rest :: l in lines[1..];
      if lines[0].id != id {
        TidyHead(lines, rest, c);
        assert RemoveItem(lines, id) == [lines[0]] + rest;
      } else {
        assert RemoveItem(lines, id) == rest;
      }
    }
  }

  /** The first line fits before any tidy selection of the later ones. */
  lemma TidyHead(lines: seq<Line>, rest: seq<Line>, c: Catalogue)
    requires IsTidy(lines, c) && lines != [] && IsTidy(rest, c) && forall l | l in rest :: l in lines[1..]
    ensures IsTidy([lines[0]] + rest, c)
  {
    var all := [lines[0]] + rest;
    forall i | 0 <= i < |rest|
      ensures lines[0].line != rest[i].line || lines[0].ids != rest[i].ids
      ensures !(lines[0].line == PlanLine && rest[i].line == PlanLine)
      ensures NoBoothBeside([lines[0], rest[i]], c)
    {
      assert rest[i] in lines[1..];
      var k :| 0 <= k < |lines[1..]| && lines[1..][k] == rest[i];
      assert lines[k + 1] == rest[i];
    }
    hide IsClean, FitsCatalogue;
    forall i, j | 0 <= i < |all| && 0 <= j < |all| && all[i].line == PlanLine && all[j].line == RowLine(Booth)
      ensures PlanLine in all[i].ids && all[i].ids[PlanLine] in c.plans
          ==> c.plans[all[i].ids[PlanLine]].boothTier.None?
    {
      if i == 0 {
        assert NoBoothBeside([lines[0], rest[j - 1]], c) && [lines[0], rest[j - 1]][0] == all[i]
            && [lines[0], rest[j - 1]][1] == all[j];
      } else if j == 0 {
        assert NoBoothBeside([lines[0], rest[i - 1]], c) && [lines[0], rest[i - 1]][1] == all[i]
            && [lines[0], rest[i - 1]][0] == all[j];
      }
    }
  }

  lemma StepKeepsTidy(lines: seq<Line>, c: Catalogue, step: CartStep, kind: CartKind)
    requires IsTidy(lines, c) && StepFits(step, kind, c)
    ensures IsTidy(AfterStep(lines, step), c)
  {
    hide IsTidy, AddItem, RemoveItem;
    match step
    case Add(db, company, eligible, dto, newId, now) =>
      if AddItem(lines, db, company, eligible, dto, newId, now).Stored? {
        AddKeepsTidy(lines, c, db, company, eligible, dto, newId, now);
      }
    case Remove(id) => RemoveKeepsTidy(lines, c, id);
  }

  /** Every cart that additions and removals can reach, under a fixed catalogue. */
  lemma {:induction false} ReachableCartsAreTidy(lines: seq<Line>, steps: seq<CartStep>, kind: CartKind, c: Catalogue)
    requires IsTidy(lines, c) && AllFit(steps, kind, c)
    ensures IsTidy(AfterSteps(lines, steps), c)
    decreases steps
  {
    if steps != [] {
      assert StepFits(steps[0], kind, c);
      assert forall k | 0 <= k < |steps[1..]| :: steps[1..][k] == steps[k + 1];
      StepKeepsTidy(lines, c, steps[0], kind);
      hide IsTidy, AfterStep, StepFits;
      ReachableCartsAreTidy(AfterStep(lines, steps[0]), steps[1..], kind, c);
    }
  }

  // ---- Checkout --------------------------------------------------------------------------

  /** The order line made of a cart line; `price` is read at checkout. */
  function ItemOf(l: Line, price: Line -> int): Item
    requires IsClean(l)
  {
    match l.line
    case RowLine(kind) => AssetItem(kind, Some(l.ids[l.line]))
    case SlotLine(kind) => SlotItem(kind, Some(l.ids[l.line]))
    case PlanLine => PlanItem(Some(l.ids[l.line]), price(l), l.quantity)
  }

  function Items(lines: seq<Line>, price: Line -> int): (items: seq<Item>)
    requires forall i | 0 <= i < |lines| :: IsClean(lines[i])
    ensures |items| == |lines| && forall i | 0 <= i < |lines| :: items[i] == ItemOf(lines[i], price)
  {
    if lines == [] then [] else [ItemOf(lines[0], price)] + Items(lines[1..], price)
  }

  lemma {:induction false} NoPlanIds(lines: seq<Line>, price: Line -> int)
    requires (forall i | 0 <= i < |lines| :: IsClean(lines[i]))
        && forall i | 0 <= i < |lines| :: lines[i].line != PlanLine
    ensures PlanIds(Items(lines, price)) == []
    decreases lines
  {
    if lines != [] {
      assert Items(lines, price)[1..] == Items(lines[1..], price);
      NoPlanIds(lines[1..], price);
    }
  }

  lemma {:induction false} OnePlanId(lines: seq<Line>, price: Line -> int, n: nat)
    requires (forall i | 0 <= i < |lines| :: IsClean(lines[i])) && OnePlan(lines) && n < |lines|
        && lines[n].line == PlanLine
    ensures PlanIds(Items(lines, price)) == [lines[n].ids[PlanLine]]
    decreases lines
  {
    assert Items(lines, price)[1..] == Items(lines[1..], price);
    if n == 0 {
      assert forall i | 0 <= i < |lines[1..]| :: lines[1..][i] == lines[i + 1];
      NoPlanIds(lines[1..], price);
    } else {
      assert lines[1..][n - 1] == lines[n];
      OnePlanId(lines[1..], price, n - 1);
    }
  }

  /**
   * A cart that additions and removals can reach passes every structural check of checkout: what is left to decide is
   * only whether the company has since bought a plan or, for a plan with a booth, got a booth.
   */
  lemma CartPassesCheckout(lines: seq<Line>, steps: seq<CartStep>, kind: CartKind, c: Catalogue, db: Db, company: Id,
                           price: Line -> int)
    requires lines == AfterSteps([], steps) && AllFit(steps, kind, c) && HasCatalogue(db, c)
    ensures IsTidy(lines, c) && forall i | 0 <= i < |lines| :: IsClean(lines[i])
    ensures var items := Items(lines, price); var ids := PlanIds(items);
      && SlotLinesAreSellable(db, items) && CartBooths(db.assets, items) && |ids| <= 1
      && (PlansAreCompatible(db, company, items) <==>
            ids == [] || (&& (forall pid :: !PlanSales.IsPlanSale(db, company, pid))
                          && (ids[0] in db.plans && db.plans[ids[0]].boothTier.Some? ==>
                                forall a | a in db.assets && a.kind == Booth :: db.assets[a].owner != Some(company))))
  {
    PlanSales.BoughtIs(db, company);
    assert OwnBooths(db.assets, Some(company)) == {} <==>
      forall a | a in db.assets && a.kind == Booth :: db.assets[a].owner != Some(company) by {
      assert forall a | a in db.assets && a.kind == Booth && db.assets[a].owner == Some(company) ::
        a in OwnBooths(db.assets, Some(company));
    }
    hide HasBoughtPlan, PlanSales.IsPlanSale, OwnBooths, PlansAreCompatible, SlotLinesAreSellable, CartBooths;
    ReachableCartsAreTidy([], steps, kind, c);
    TidyCartPasses(lines, c, db, company, price);
  }

  lemma TidyCartIsSellable(lines: seq<Line>, c: Catalogue, db: Db, price: Line -> int)
    requires IsTidy(lines, c) && HasCatalogue(db, c)
    ensures var items := Items(lines, price);
      SlotLinesAreSellable(db, items) && CartBooths(db.assets, items)
  {
    var items := Items(lines, price);
    assert forall i | 0 <= i < |lines| :: items[i] == ItemOf(lines[i], price) && FitsCatalogue(lines[i], c);
    hide Items;
  }

  /** Beside a plan that brings a booth there is no booth line. */
  lemma NoBoothBesidePlan(lines: seq<Line>, c: Catalogue, n: nat)
    requires IsTidy(lines, c) && n < |lines| && lines[n].line == PlanLine
    requires c.plans[lines[n].ids[PlanLine]].boothTier.Some?
    ensures forall i | 0 <= i < |lines| :: lines[i].line != RowLine(Booth)
  {
    assert NoBoothBeside(lines, c) && IsClean(lines[n]) && FitsCatalogue(lines[n], c);
    hide FitsCatalogue, NoneTwice, OnePlan;
  }

  lemma NoBoothItems(lines: seq<Line>, price: Line -> int)
    requires forall i | 0 <= i < |lines| :: IsClean(lines[i])
    requires forall i | 0 <= i < |lines| :: lines[i].line != RowLine(Booth)
    ensures !HasBoothLine(Items(lines, price))
  {
    var items := Items(lines, price);
    assert forall i | 0 <= i < |items| :: items[i] == ItemOf(lines[i], price);
    hide Items;
  }

  lemma NoBoothLineBeside(lines: seq<Line>, c: Catalogue, db: Db, price: Line -> int, n: nat)
    requires IsTidy(lines, c) && HasCatalogue(db, c)
    requires n < |lines| && lines[n].line == PlanLine && BundlesBooth(db, lines[n].ids[PlanLine])
    ensures !HasBoothLine(Items(lines, price))
  {
    NoBoothBesidePlan(lines, c, n);
    NoBoothItems(lines, price);
  }

  lemma TidyCartPasses(lines: seq<Line>, c: Catalogue, db: Db, company: Id, price: Line -> int)
    requires IsTidy(lines, c) && HasCatalogue(db, c)
    ensures var items := Items(lines, price); var ids := PlanIds(items);
      && SlotLinesAreSellable(db, items) && CartBooths(db.assets, items) && |ids| <= 1
      && (PlansAreCompatible(db, company, items) <==>
            ids == [] || (!HasBoughtPlan(db, company) && (BundlesBooth(db, ids[0])
                ==> OwnBooths(db.assets, Some(company)) == {})))
  {
    var items := Items(lines, price);
    TidyCartIsSellable(lines, c, db, price);
    assert forall i | 0 <= i < |lines| :: items[i] == ItemOf(lines[i], price) && FitsCatalogue(lines[i], c);
    hide HasBoughtPlan, OwnBooths, PlanIds, Items, SlotLinesAreSellable, CartBooths, HasBoothLine;
    if n: nat :| n < |lines| && lines[n].line == PlanLine {
      OnePlanId(lines, price, n);
      if BundlesBooth(db, lines[n].ids[PlanLine]) { NoBoothLineBeside(lines, c, db, price, n); }
    } else {
      NoPlanIds(lines, price);
    }
  }

  // ---- Two booths in one cart ------------------------------------------------------------

  function AddBooth(id: Id, now: int): CartStep {
    Add(FreshShop(), 0, true, Dto(ConferenceCart, RowLine(Booth), None, map[RowLine(Booth) := id]), id, now)
  }

  /** Nothing keeps a second booth out of a cart: this one becomes the order whose delivery breaks the unique key. */
  lemma CartCanHoldTwoBooths(now: int)
    ensures var lines := AfterSteps([], [AddBooth(1, now), AddBooth(2, now)]);
      |lines| == 2 && lines[0].line == lines[1].line == RowLine(Booth)
  {
    var db := FreshShop();
    var first, second := AddBooth(1, now), AddBooth(2, now);
    assert OwnBooths(db.assets, Some(0)) == {};
    assert PlansIn([]) == {};
    var one := Line(1, RowLine(Booth), 1, map[RowLine(Booth) := 1]);
    assert AfterStep([], first) == [one];
    assert PlansIn([one]) == {};
    assert |AfterStep([one], second)| == 2;
    assert [first, second][1..] == [second] && [second][1..] == [];
    assert AfterSteps([one], [second]) == AfterSteps(AfterStep([one], second), []);
  }
}
