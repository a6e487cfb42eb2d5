/**
 * Attendance at the door (src/attendance/attendance.service.ts) and the day's summary
 * (src/conference-day/conference-day.service.ts). Marking counts the stored entries and then inserts the next one; the
 * two steps of different requests may interleave in any way, and a unique key on user, day and index guards the insert.
 */
module Attendance {
  import opened Common
  import opened CompanyTier

  datatype RegType = Member | Attendee | Company | OtherAccount

  datatype Entry = Entry(user: Id, day: Id, index: nat)

  /** A request between its count and its insert: the index it will try, and the cap it has computed. */
  datatype Request = Request(entry: Entry, cap: nat)

  /** Every stored entry remembers the cap of the request that stored it. */
  datatype Door = Door(records: map<Entry, nat>, open: map<Id, Request>)

  datatype DoorStep = Count(rid: Id, user: Id, day: Id, cap: nat) | Insert(rid: Id)

  // ---- Caps ------------------------------------------------------------------------------

  /** resolveCompanyMaxEntriesById; `admits` is the ticket count of the latest plan paid for, if there is one. */
  function CompanyCap(tier: Option<Tier>, admits: Option<nat>): nat {
    match tier
    case Some(Bronze) => 2
    case Some(Silver) => 3
    case Some(Default) => 1
    case None => 1
    case Some(_) => if admits.Some? then admits.value else 1
  }

  /** `None` when the account cannot be marked at all. */
  function CapOf(reg: RegType, hasSpouse: bool, tier: Option<Tier>, admits: Option<nat>): Option<nat> {
    match reg
    case Member => Some(if hasSpouse then 2 else 1)
    case Attendee => Some(1)
    case Company => Some(CompanyCap(tier, admits))
    case OtherAccount => None
  }

  // ---- Steps -----------------------------------------------------------------------------

  function Entries(records: map<Entry, nat>, user: Id, day: Id): set<Entry> {
    set e | e in records && e.user == user && e.day == day
  }

  function Take(d: Door, step: DoorStep): Door {
    match step
    case Count(rid, user, day, cap) =>
      var n := |Entries(d.records, user, day)|;
      if rid in d.open || n >= cap then d else d.(open := d.open[rid := Request(Entry(user, day, n + 1), cap)])
    case Insert(rid) =>
      if rid !in d.open then d
      else
        var r := d.open[rid];
        var records := if r.entry in d.records then d.records else d.records[r.entry := r.cap];
        Door(records, d.open - {rid})
  }

  function TakeAll(d: Door, steps: seq<DoorStep>): Door
    decreases steps
  {
    if steps == [] then d else TakeAll(Take(d, steps[0]), steps[1..])
  }

  /** The table and the requests under way, with the two steps of markAttendance as separate methods. */
  class Register {
    var records: map<Entry, nat>
    var open: map<Id, Request>

    constructor ()
      ensures View() == Door(map[], map[])
    {
      records, open := map[], map[];
    }

    function View(): Door
      reads this
    {
      Door(records, open)
    }

    /** Count the user's entries of the day; refuse when the cap is reached, else go on with the next index. */
    method CountEntries(rid: Id, user: Id, day: Id, cap: nat) returns (accepted: bool)
      requires rid !in open
      modifies this`open
      ensures View() == Take(old(View()), Count(rid, user, day, cap))
      ensures accepted <==> |Entries(records, user, day)| < cap
      ensures accepted ==> rid in open && open[rid] == Request(Entry(user, day, |Entries(records, user, day)| + 1), cap)
    {
      var existing := set e | e in records && e.user == user && e.day == day;
      accepted := |existing| < cap;
      if accepted { open := open[rid := Request(Entry(user, day, |existing| + 1), cap)]; }
    }

    /** The insert; the unique key turns it into a conflict when another request was first. */
    method InsertEntry(rid: Id) returns (stored: bool)
      requires rid in open
      modifies this
      ensures View() == Take(old(View()), Insert(rid))
      ensures stored <==> old(open)[rid].entry !in old(records)
      ensures open == old(open) - {rid}
    {
      var r := open[rid];
      open := open - {rid};
      stored := r.entry !in records;
      if stored { records := records[r.entry := r.cap]; }
    }
  }

  // ---- Entries are numbered without gaps -------------------------------------------------

  /** All smaller indices of the same user and day are stored. */
  ghost predicate Preceded(records: map<Entry, nat>, e: Entry) {
    e.index >= 1 && forall i: nat :: 1 <= i < e.index ==> Entry(e.user, e.day, i) in records
  }

  ghost predicate Gapless(d: Door) {
    && (forall e | e in d.records :: Preceded(d.records, e) && e.index <= d.records[e])
    && (forall rid | rid in d.open ::
          Preceded(d.records, d.open[rid].entry) && d.open[rid].entry.index <= d.open[rid].cap)
  }

  /** A gapless set of entries of one user and day is numbered from one to its size. */
  lemma {:induction false} GaplessIsNumbered(s: set<Entry>, user: Id, day: Id)
    requires forall e | e in s :: e.user == user && e.day == day && e.index >= 1
    requires forall e, i: nat | e in s && 1 <= i < e.index :: Entry(user, day, i) in s
    ensures forall i: nat :: Entry(user, day, i) in s <==> 1 <= i <= |s|
    decreases |s|
  {
    if s != {} {
      var last := LastEntry(s);
      var rest := s - {last};
      GaplessIsNumbered(rest, user, day);
      assert last == Entry(user, day, last.index);
      if last.index > 1 { assert Entry(user, day, last.index - 1) in rest; }
      assert Entry(user, day, |s|) in s || last.index != |s|;
    }
  }

  lemma LastEntry(s: set<Entry>) returns (last: Entry)
    requires s != {}
    ensures last in s && forall e | e in s :: e.index <= last.index
    decreases |s|
  {
    last :| last in s;
    if s != {last} {
      var other := LastEntry(s - {last});
      if other.index > last.index { last := other; }
    }
  }

  lemma EntriesAreNumbered(d: Door, user: Id, day: Id)
    requires Gapless(d)
    ensures forall i: nat :: Entry(user, day, i) in d.records <==> 1 <= i <= |Entries(d.records, user, day)|
  {
    var s := Entries(d.records, user, day);
    forall e, i: nat | e in s && 1 <= i < e.index ensures Entry(user, day, i) in s {
      assert Preceded(d.records, e);
    }
    forall e | e in s ensures e.index >= 1 { assert Preceded(d.records, e); }
    GaplessIsNumbered(s, user, day);
  }

  lemma GaplessStep(d: Door, step: DoorStep)
    requires Gapless(d)
    ensures Gapless(Take(d, step))
  {
    match step
    case Count(rid, user, day, cap) => EntriesAreNumbered(d, user, day);
    case Insert(rid) =>
      if rid in d.open {
        var r := d.open[rid];
        assert Preceded(d.records, r.entry);
        var after := Take(d, step);
        forall e | e in after.records ensures Preceded(after.records, e) && e.index <= after.records[e] {
          assert e in d.records ==> Preceded(d.records, e);
        }
        forall x | x in after.open ensures Preceded(after.records, after.open[x].entry) {
          assert Preceded(d.records, d.open[x].entry);
        }
      }
  }

  lemma {:induction false} GaplessRun(d: Door, steps: seq<DoorStep>)
    requires Gapless(d)
    ensures Gapless(TakeAll(d, steps))
    decreases steps
  {
    if steps != [] {
      GaplessStep(d, steps[0]);
      hide Gapless, Take;
      GaplessRun(Take(d, steps[0]), steps[1..]);
    }
  }

  /**
   * Under any interleaving of any number of requests: the entries of a user on a day are numbered 1 to n, where n is
   * their count, and no stored index exceeds the cap its request computed.
   */
  lemma AttendanceIsSafe(steps: seq<DoorStep>, user: Id, day: Id)
    ensures var records := TakeAll(Door(map[], map[]), steps).records;
      && (forall i: nat :: Entry(user, day, i) in records <==> 1 <= i <= |Entries(records, user, day)|)
      && (forall e | e in records :: e.index <= records[e])
  {
    GaplessRun(Door(map[], map[]), steps);
    EntriesAreNumbered(TakeAll(Door(map[], map[]), steps), user, day);
  }

  // ---- Caps by account type --------------------------------------------------------------

  type Accounts = Id -> RegType

  /** The cap a request carries is one that markAttendance computes for the user's account. */
  ghost predicate FollowsCaps(step: DoorStep, reg: Accounts) {
    step.Count? ==>
      exists spouse: bool, tier: Option<Tier>, admits: Option<nat> ::
          CapOf(reg(step.user), spouse, tier, admits) == Some(step.cap)
  }

  predicate IsCapOf(reg: RegType, cap: nat) {
    match reg
    case Member => cap <= 2
    case Attendee => cap <= 1
    case Company => true
    case OtherAccount => false
  }

  predicate Capped(d: Door, reg: Accounts) {
    && (forall e | e in d.records :: IsCapOf(reg(e.user), d.records[e]))
    && (forall rid | rid in d.open :: IsCapOf(reg(d.open[rid].entry.user), d.open[rid].cap))
  }

  ghost predicate AllFollowCaps(steps: seq<DoorStep>, reg: Accounts) {
    forall k | 0 <= k < |steps| :: FollowsCaps(steps[k], reg)
  }

  lemma {:induction false} CappedRun(d: Door, steps: seq<DoorStep>, reg: Accounts)
    requires Capped(d, reg) && AllFollowCaps(steps, reg)
    ensures Capped(TakeAll(d, steps), reg)
    decreases steps
  {
    if steps != [] {
      assert FollowsCaps(steps[0], reg);
      assert Capped(Take(d, steps[0]), reg);
      assert forall k | 0 <= k < |steps[1..]| :: steps[1..][k] == steps[k + 1];
      CappedRun(Take(d, steps[0]), steps[1..], reg);
    }
  }

  /** One request from its count to its insert, nobody between. */
  function Mark(d: Door, rid: Id, user: Id, day: Id, cap: nat): Door {
    Take(Take(d, Count(rid, user, day, cap)), Insert(rid))
  }

  lemma MarkAddsOne(d: Door, rid: Id, user: Id, day: Id, cap: nat)
    requires Gapless(d) && rid !in d.open
    ensures var was, now := Entries(d.records, user, day), Entries(Mark(d, rid, user, day, cap).records, user, day);
      && now == (if |was| < cap then was + {Entry(user, day, |was| + 1)} else was)
      && |now| == (if |was| < cap then |was| + 1 else |was|)
      && Mark(d, rid, user, day, cap).open == d.open
  {
    EntriesAreNumbered(d, user, day);
  }

  /**
   * The entries an account has a day: two for a member with a spouse, one for other members and attendees, and for a
   * company two when bronze, three when silver, and above that what its plan admits, if it has paid for one; every
   * other company may enter once.
   */
  lemma CapIs(reg: RegType, hasSpouse: bool, tier: Option<Tier>, admits: Option<nat>)
    ensures CapOf(reg, hasSpouse, tier, admits) ==
      if reg == OtherAccount then None
      else if reg == Member then Some(if hasSpouse then 2 else 1)
      else if reg == Attendee then Some(1)
      else if tier == Some(Bronze) then Some(2)
      else if tier == Some(Silver) then Some(3)
      else if tier in {Some(Gold), Some(Platinum), Some(Headliner)} && admits.Some? then admits
      else Some(1)
  {
  }

  /** Whatever requests came before, marking an account stores its next entry exactly when it has fewer than its cap. */
  lemma MarkIsDecided(steps: seq<DoorStep>, rid: Id, user: Id, day: Id, cap: nat)
    requires rid !in TakeAll(Door(map[], map[]), steps).open
    ensures var d := TakeAll(Door(map[], map[]), steps);
      var was, now := Entries(d.records, user, day), Entries(Mark(d, rid, user, day, cap).records, user, day);
      && now == (if |was| < cap then was + {Entry(user, day, |was| + 1)} else was)
      && |now| == (if |was| < cap then |was| + 1 else |was|)
      && Mark(d, rid, user, day, cap).open == d.open
  {
    GaplessRun(Door(map[], map[]), steps);
    hide Gapless, Take, TakeAll, Mark, Entries;
    MarkAddsOne(TakeAll(Door(map[], map[]), steps), rid, user, day, cap);
  }

  // ---- The summary -----------------------------------------------------------------------

  /** An entry of the day, with the account type of its user. */
  datatype Row = Row(user: Id, reg: RegType, index: nat)

  datatype Summary = Summary(
    uniqueMembers: nat, memberEntries: nat, spouseEntries: nat, uniqueAttendees: nat, uniqueCompanies: nat,
        companyEntries: nat)

  predicate Matches(r: Row, reg: RegType, index: Option<nat>) {
    r.reg == reg && (index.Some? ==> r.index == index.value)
  }

  function CountOf(rows: seq<Row>, reg: RegType, index: Option<nat>): nat {
    if rows == [] then 0
    else CountOf(rows[..|rows| - 1], reg, index) + (if Matches(rows[|rows| - 1], reg, index) then 1 else 0)
  }

  function UsersOf(rows: seq<Row>, reg: RegType): set<Id> {
    set r | r in rows && r.reg == reg :: r.user
  }

  function SummaryOf(rows: seq<Row>): Summary {
    Summary(|UsersOf(rows, Member)|, CountOf(rows, Member, Some(1)), CountOf(rows, Member, Some(2)),
            |UsersOf(rows, Attendee)|, |UsersOf(rows, Company)|, CountOf(rows, Company, None))
  }

  /** The loop of getAttendanceSummary: three sets of users and three counters, filled row by row. */
  method Summarise(rows: seq<Row>) returns (s: Summary)
    ensures s == SummaryOf(rows)
  {
    var members: set<Id>, attendees: set<Id>, companies: set<Id> := {}, {}, {};
    var memberEntries: nat, spouseEntries: nat, companyEntries: nat := 0, 0, 0;
    for i := 0 to |rows|
      invariant members == UsersOf(rows[..i], Member)
      invariant attendees == UsersOf(rows[..i], Attendee)
      invariant companies == UsersOf(rows[..i], Company)
      invariant memberEntries == CountOf(rows[..i], Member, Some(1))
      invariant spouseEntries == CountOf(rows[..i], Member, Some(2))
      invariant companyEntries == CountOf(rows[..i], Company, None)
    {
      var r := rows[i];
      OneMoreRow(rows, i);
      match r.reg
      case Member =>
        members := members + {r.user};
        if r.index == 1 { memberEntries := memberEntries + 1; }
        if r.index == 2 { spouseEntries := spouseEntries + 1; }
      case Attendee => attendees := attendees + {r.user};
      case Company =>
        companies := companies + {r.user};
        companyEntries := companyEntries + 1;
      case OtherAccount =>
    }
    assert rows[..|rows|] == rows;
    return Summary(|members|, memberEntries, spouseEntries, |attendees|, |companies|, companyEntries);
  }

  lemma OneMoreRow(rows: seq<Row>, i: nat)
    requires i < |rows|
    ensures forall reg, index ::
      CountOf(rows[..i + 1], reg, index)
      == CountOf(rows[..i], reg, index) + if Matches(rows[i], reg, index) then 1 else 0
    ensures forall reg :: UsersOf(rows[..i + 1], reg) == UsersOf(rows[..i], reg) + if rows[i].reg == reg
        then {rows[i].user} else {}
  {
    assert rows[..i + 1][..i] == rows[..i];
    assert rows[..i + 1] == rows[..i] + [rows[i]];
  }

  /** The rows are the records of the day, each once. */
  ghost predicate Lists(rows: seq<Row>, records: map<Entry, nat>, day: Id, reg: Accounts) {
    && (forall i, j | 0 <= i < j < |rows| :: rows[i] != rows[j])
    && (forall r | r in rows :: r.reg == reg(r.user) && Entry(r.user, day, r.index) in records)
    && (forall e | e in records && e.day == day :: Row(e.user, reg(e.user), e.index) in rows)
  }

  function RowsOf(rows: seq<Row>, reg: RegType, index: Option<nat>): set<Row> {
    set r | r in rows && Matches(r, reg, index)
  }

  lemma RowsOfMore(init: seq<Row>, last: Row, reg: RegType, index: Option<nat>)
    ensures RowsOf(init + [last], reg, index)
      == RowsOf(init, reg, index) + if Matches(last, reg, index) then {last} else {}
    ensures last !in init ==> last !in RowsOf(init, reg, index)
  {
  }

  lemma {:induction false} CountIsSize(rows: seq<Row>, reg: RegType, index: Option<nat>)
    requires forall i, j | 0 <= i < j < |rows| :: rows[i] != rows[j]
    ensures CountOf(rows, reg, index) == |RowsOf(rows, reg, index)|
    decreases |rows|
  {
    if rows == [] {
      assert RowsOf(rows, reg, index) == {};
    } else {
      var init, last := rows[..|rows| - 1], rows[|rows| - 1];
      assert last !in init;
      assert rows == init + [last];
      CountIsSize(init, reg, index);
      RowsOfMore(init, last, reg, index);
      hide RowsOf, Matches;
    }
  }

  /** Rows with different users are as many as their users. */
  lemma {:induction false} UsersAreAsMany(rows: set<Row>)
    requires forall r, q | r in rows && q in rows :: r.user == q.user ==> r == q
    ensures |set r | r in rows :: r.user| == |rows|
    decreases |rows|
  {
    if rows != {} {
      var r :| r in rows;
      UsersAreAsMany(rows - {r});
      assert (set q | q in rows :: q.user) == (set q | q in rows - {r} :: q.user) + {r.user};
    }
  }

  /** Every row is counted by exactly one of the four counts. */
  lemma {:induction false} EveryRowIsCounted(rows: seq<Row>)
    requires forall r | r in rows ::
      (r.reg == Member && (r.index == 1 || r.index == 2)) || r.reg == Attendee || r.reg == Company
    ensures CountOf(rows, Member, Some(1)) + CountOf(rows, Member, Some(2)) + CountOf(rows, Attendee, None)
            + CountOf(rows, Company, None) == |rows|
    decreases |rows|
  {
    if rows != [] { EveryRowIsCounted(rows[..|rows| - 1]); }
  }

  /** In a gapless, capped table: the first entries are one per member, and so on. */
  lemma ListedRows(rows: seq<Row>, d: Door, day: Id, reg: Accounts)
    requires Gapless(d) && Capped(d, reg) && Lists(rows, d.records, day, reg)
    ensures forall r | r in rows :: r.index >= 1 && r.reg != OtherAccount
                                    && (r.reg == Member ==> r.index <= 2) && (r.reg == Attendee ==> r.index == 1)
    ensures forall r | r in rows :: Row(r.user, r.reg, 1) in rows
  {
    forall r | r in rows
      ensures r.index >= 1 && r.reg != OtherAccount && (r.reg == Member ==> r.index <= 2)
          && (r.reg == Attendee ==> r.index == 1)
      ensures Row(r.user, r.reg, 1) in rows
    {
      var e := Entry(r.user, day, r.index);
      assert Preceded(d.records, e) && e.index <= d.records[e] && IsCapOf(reg(e.user), d.records[e]);
      assert Entry(r.user, day, 1) in d.records;
    }
  }

  lemma FirstsAreUsers(rows: seq<Row>, reg: RegType)
    requires forall r | r in rows :: Row(r.user, r.reg, 1) in rows
    ensures |UsersOf(rows, reg)| == |RowsOf(rows, reg, Some(1))|
  {
    var firsts := RowsOf(rows, reg, Some(1));
    UsersAreAsMany(firsts);
    assert UsersOf(rows, reg) == set r | r in firsts :: r.user by {
      forall u | u in UsersOf(rows, reg) ensures u in set r | r in firsts :: r.user {
        var r :| r in rows && r.reg == reg && r.user == u;
        assert Row(u, reg, 1) in firsts;
      }
    }
  }

  lemma SpousesFollowMembers(rows: seq<Row>)
    requires forall r | r in rows :: Row(r.user, r.reg, 1) in rows
    ensures |RowsOf(rows, Member, Some(2))| <= |UsersOf(rows, Member)|
  {
    var seconds := RowsOf(rows, Member, Some(2));
    UsersAreAsMany(seconds);
    SubsetIsNoLarger(set r | r in seconds :: r.user, UsersOf(rows, Member));
  }

  /**
   * In every state the door can reach, the summary of a day is consistent with marking: one first entry per member and
   * per attendee, no more spouses than members, and every record counted once.
   */
  lemma SummaryIsConsistent(steps: seq<DoorStep>, reg: Accounts, day: Id, rows: seq<Row>)
    requires AllFollowCaps(steps, reg) && Lists(rows, TakeAll(Door(map[], map[]), steps).records, day, reg)
    ensures var s := SummaryOf(rows);
      && s.uniqueMembers == s.memberEntries
      && s.spouseEntries <= s.memberEntries
      && s.memberEntries + s.spouseEntries + s.uniqueAttendees + s.companyEntries == |rows|
  {
    var start := Door(map[], map[]);
    var d := TakeAll(start, steps);
    GaplessRun(start, steps);
    CappedRun(start, steps, reg);
    ListedRows(rows, d, day, reg);
    FirstsAreUsers(rows, Member);
    FirstsAreUsers(rows, Attendee);
    SpousesFollowMembers(rows);
    CountIsSize(rows, Member, Some(1));
    CountIsSize(rows, Member, Some(2));
    CountIsSize(rows, Attendee, None);
    assert RowsOf(rows, Attendee, None) == RowsOf(rows, Attendee, Some(1));
    hide CountOf, UsersOf, RowsOf, Gapless, Capped, Lists, TakeAll;
    EveryRowIsCounted(rows);
  }

  /** The stored entries of a day by accounts of a type, all or those with one index. */
  function EntriesBy(records: map<Entry, nat>, day: Id, reg: Accounts, kind: RegType, index: Option<nat>): set<Entry> {
    set e | e in records && e.day == day && reg(e.user) == kind && (index.None? || index == Some(e.index))
  }

  lemma {:induction false} AsManyRows(entries: set<Entry>, rows: set<Row>, day: Id, reg: Accounts)
    requires forall e | e in entries :: e.day == day && Row(e.user, reg(e.user), e.index) in rows
    requires forall r | r in rows :: r.reg == reg(r.user) && Entry(r.user, day, r.index) in entries
    ensures |entries| == |rows|
    decreases |entries|
  {
    if entries == {} {
      assert rows == {};
    } else {
      var e :| e in entries;
      var r := Row(e.user, reg(e.user), e.index);
      AsManyRows(entries - {e}, rows - {r}, day, reg);
    }
  }

  lemma RowsAreEntries(rows: seq<Row>, records: map<Entry, nat>, day: Id, reg: Accounts, kind: RegType,
                       index: Option<nat>)
    requires Lists(rows, records, day, reg)
    ensures CountOf(rows, kind, index) == |EntriesBy(records, day, reg, kind, index)|
  {
    CountIsSize(rows, kind, index);
    AsManyRows(EntriesBy(records, day, reg, kind, index), RowsOf(rows, kind, index), day, reg);
  }

  /**
   * The figures are numbers of stored entries: first and second entries of members, first entries of the others, and
   * all of companies.
   */
  lemma SummaryCountsEntries(steps: seq<DoorStep>, reg: Accounts, day: Id, rows: seq<Row>)
    requires AllFollowCaps(steps, reg) && Lists(rows, TakeAll(Door(map[], map[]), steps).records, day, reg)
    ensures var records := TakeAll(Door(map[], map[]), steps).records;
      SummaryOf(rows) == Summary(
        |EntriesBy(records, day, reg, Member, Some(1))|, |EntriesBy(records, day, reg, Member, Some(1))|,
        |EntriesBy(records, day, reg, Member, Some(2))|, |EntriesBy(records, day, reg, Attendee, Some(1))|,
        |EntriesBy(records, day, reg, Company, Some(1))|, |EntriesBy(records, day, reg, Company, None)|)
  {
    var start := Door(map[], map[]);
    var d := TakeAll(start, steps);
    GaplessRun(start, steps);
    CappedRun(start, steps, reg);
    ListedRows(rows, d, day, reg);
    hide Gapless, Capped, TakeAll, CountOf, EntriesBy, UsersOf, RowsOf;
    forall kind | kind in {Member, Attendee, Company}
      ensures |UsersOf(rows, kind)| == |EntriesBy(d.records, day, reg, kind, Some(1))|
    {
      FirstsAreUsers(rows, kind);
      CountIsSize(rows, kind, Some(1));
      RowsAreEntries(rows, d.records, day, reg, kind, Some(1));
    }
    RowsAreEntries(rows, d.records, day, reg, Member, Some(1));
    RowsAreEntries(rows, d.records, day, reg, Member, Some(2));
    RowsAreEntries(rows, d.records, day, reg, Company, None);
  }
}
