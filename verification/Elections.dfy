/** Positions, candidates and votes, and what is reported about them (src/elections/elections.service.ts). */
module Elections {
  import opened Common

  /** The unique key of a vote. */
  datatype VoteKey = VoteKey(user: Id, position: Id)

  /** `positions` says which are active, `candidates` to which position each belongs, `votes` who voted for whom. */
  datatype Ballot = Ballot(positions: map<Id, bool>, candidates: map<Id, Id>, votes: map<VoteKey, Id>, isOpen: bool)

  datatype Refusal =
    | NotAMember | VotingClosed | PositionNotFound | PositionNotActive | CandidateNotFound | WrongPosition
    | AlreadyVoted

  function WhyRefused(b: Ballot, isMember: bool, key: VoteKey, candidate: Id): Option<Refusal> {
    if !isMember then Some(NotAMember)
    else if !b.isOpen then Some(VotingClosed)
    else if key.position !in b.positions then Some(PositionNotFound)
    else if !b.positions[key.position] then Some(PositionNotActive)
    else if candidate !in b.candidates then Some(CandidateNotFound)
    else if b.candidates[candidate] != key.position then Some(WrongPosition)
    else if key in b.votes then Some(AlreadyVoted)
    else None
  }

  function VotesAt(b: Ballot, position: Id): set<VoteKey> {
    set k | k in b.votes && k.position == position
  }

  function VotesFor(b: Ballot, candidate: Id): set<VoteKey> {
    set k | k in b.votes && b.votes[k] == candidate
  }

  datatype ElectionStep =
    | Toggle(isOpen: bool)
    | AddPosition(position: Id)
    | SetActive(position: Id, isActive: bool)
    | DeletePosition(position: Id)
    | AddCandidate(candidate: Id, position: Id)
    | DeleteCandidate(candidate: Id)
    | CastVote(isMember: bool, key: VoteKey, candidate: Id)

  /** A new position is active; positions with votes or candidates and candidates with votes cannot be deleted. */
  function After(b: Ballot, step: ElectionStep): Ballot {
    match step
    case Toggle(isOpen) => b.(isOpen := isOpen)
    case AddPosition(p) => if p in b.positions then b else b.(positions := b.positions[p := true])
    case SetActive(p, isActive) => if p in b.positions then b.(positions := b.positions[p := isActive]) else b
    case DeletePosition(p) =>
      if p !in b.positions || |VotesAt(b, p)| > 0 || (exists c | c in b.candidates :: b.candidates[c] == p) then b
      else b.(positions := b.positions - {p})
    case AddCandidate(c, p) =>
      if p !in b.positions || c in b.candidates then b else b.(candidates := b.candidates[c := p])
    case DeleteCandidate(c) =>
      if c !in b.candidates || |VotesFor(b, c)| > 0 then b else b.(candidates := b.candidates - {c})
    case CastVote(isMember, key, c) =>
      if WhyRefused(b, isMember, key, c).Some? then b else b.(votes := b.votes[key := c])
  }

  function AfterAll(b: Ballot, steps: seq<ElectionStep>): Ballot
    decreases steps
  {
    if steps == [] then b else AfterAll(After(b, steps[0]), steps[1..])
  }

  const EMPTY := Ballot(map[], map[], map[], false)

  class ElectionTables {
    var positions: map<Id, bool>
    var candidates: map<Id, Id>
    var votes: map<VoteKey, Id>
    var isOpen: bool

    constructor ()
      ensures View() == EMPTY
    {
      positions, candidates, votes, isOpen := map[], map[], map[], false;
    }

    function View(): Ballot
      reads this
    {
      Ballot(positions, candidates, votes, isOpen)
    }

    /** castVote: the checks in order, then the insert, which the unique key may refuse. */
    method Vote(isMember: bool, user: Id, position: Id, candidate: Id) returns (refusal: Option<Refusal>)
      modifies this`votes
      ensures refusal == WhyRefused(old(View()), isMember, VoteKey(user, position), candidate)
      ensures View() == After(old(View()), CastVote(isMember, VoteKey(user, position), candidate))
    {
      if !isMember { return Some(NotAMember); }
      if !isOpen { return Some(VotingClosed); }
      if position !in positions { return Some(PositionNotFound); }
      if !positions[position] { return Some(PositionNotActive); }
      if candidate !in candidates { return Some(CandidateNotFound); }
      if candidates[candidate] != position { return Some(WrongPosition); }
      if VoteKey(user, position) in votes { return Some(AlreadyVoted); }
      votes := votes[VoteKey(user, position) := candidate];
      return None;
    }

    method RemovePosition(position: Id) returns (removed: bool)
      modifies this`positions
      ensures View() == After(old(View()), DeletePosition(position))
      ensures removed ==> forall k | k in votes :: k.position != position
    {
      if position !in positions || |VotesAt(View(), position)| > 0 { return false; }
      if exists c | c in candidates :: candidates[c] == position { return false; }
      positions := positions - {position};
      removed := true;
      NoVotesAt(old(View()), position);
    }

    method RemoveCandidate(candidate: Id) returns (removed: bool)
      modifies this`candidates
      ensures View() == After(old(View()), DeleteCandidate(candidate))
      ensures removed ==> forall k | k in votes :: votes[k] != candidate
    {
      if candidate !in candidates || |VotesFor(View(), candidate)| > 0 { return false; }
      candidates := candidates - {candidate};
      removed := true;
      NoVotesFor(old(View()), candidate);
    }
  }

  lemma NoVotesAt(b: Ballot, position: Id)
    requires |VotesAt(b, position)| == 0
    ensures forall k | k in b.votes :: k.position != position
  {
    assert forall k | k in b.votes :: k.position == position ==> k in VotesAt(b, position);
  }

  lemma NoVotesFor(b: Ballot, candidate: Id)
    requires |VotesFor(b, candidate)| == 0
    ensures forall k | k in b.votes :: b.votes[k] != candidate
  {
    assert forall k | k in b.votes :: b.votes[k] == candidate ==> k in VotesFor(b, candidate);
  }

  // ---- Which step changes what -----------------------------------------------------------

  /**
   * Voting opens and closes and positions change by their own steps; a position goes only without votes and candidates.
   */
  lemma PositionsChange(b: Ballot, step: ElectionStep)
    ensures var d := After(b, step);
      && d.isOpen == (if step.Toggle? then step.isOpen else b.isOpen)
      && (forall p :: p in d.positions <==>
            || step == AddPosition(p)
            || (&& p in b.positions
                && (step == DeletePosition(p) ==>
                      || (exists k :: k in b.votes && k.position == p)
                      || (exists c :: c in b.candidates && b.candidates[c] == p))))
      && (forall p | p in d.positions ::
            d.positions[p] == if step.SetActive? && step.position == p then step.isActive
              else if p in b.positions then b.positions[p] else true)
  {
    forall p ensures |VotesAt(b, p)| > 0 <==> exists k :: k in b.votes && k.position == p {
      if k :| k in b.votes && k.position == p { assert k in VotesAt(b, p); } else { assert VotesAt(b, p) == {}; }
    }
    hide VotesAt, VotesFor, WhyRefused;
  }

  /** A candidate joins a position that exists and stays with it, and goes only without votes; votes never change. */
  lemma CandidatesChange(b: Ballot, step: ElectionStep)
    ensures var d := After(b, step);
      && (forall c :: c in d.candidates <==>
            || (step.AddCandidate? && step.candidate == c && step.position in b.positions)
            || (c in b.candidates && (step == DeleteCandidate(c) ==> exists k :: k in b.votes && b.votes[k] == c)))
      && (forall c | c in d.candidates && c in b.candidates :: d.candidates[c] == b.candidates[c])
      && (forall c | c in d.candidates && c !in b.candidates :: step == AddCandidate(c, d.candidates[c]))
      && (forall k | k in b.votes :: k in d.votes && d.votes[k] == b.votes[k])
      && (!step.CastVote? ==> d.votes == b.votes)
  {
    forall c ensures |VotesFor(b, c)| > 0 <==> exists k :: k in b.votes && b.votes[k] == c {
      if k :| k in b.votes && b.votes[k] == c { assert k in VotesFor(b, c); } else { assert VotesFor(b, c) == {}; }
    }
    hide VotesAt, VotesFor, WhyRefused;
  }

  // ---- Which votes are stored ------------------------------------------------------------

  /**
   * A vote is refused for the first of these reasons that applies, in the order of the handler, and accepted when none
   * does.
   */
  lemma VoteIsDecided(b: Ballot, isMember: bool, key: VoteKey, candidate: Id)
    ensures var open := isMember && b.isOpen;
      var active := open && key.position in b.positions && b.positions[key.position];
      var matched := active && candidate in b.candidates && b.candidates[candidate] == key.position;
      var why := WhyRefused(b, isMember, key, candidate);
      && (why == Some(NotAMember) <==> !isMember)
      && (why == Some(VotingClosed) <==> isMember && !b.isOpen)
      && (why == Some(PositionNotFound) <==> open && key.position !in b.positions)
      && (why == Some(PositionNotActive) <==> open && key.position in b.positions && !b.positions[key.position])
      && (why == Some(CandidateNotFound) <==> active && candidate !in b.candidates)
      && (why == Some(WrongPosition) <==>
            active && candidate in b.candidates && b.candidates[candidate] != key.position)
      && (why == Some(AlreadyVoted) <==> matched && key in b.votes)
      && (why == None <==> matched && key !in b.votes)
  {
  }

  /** Step number `k` is this vote, by a member, while voting is open and the position is active. */
  predicate IsCastAt(b: Ballot, steps: seq<ElectionStep>, k: nat, key: VoteKey, candidate: Id)
    requires k < |steps|
  {
    var before := AfterAll(b, steps[..k]);
    && steps[k] == CastVote(true, key, candidate) && before.isOpen
    && key.position in before.positions && before.positions[key.position]
    && candidate in before.candidates && before.candidates[candidate] == key.position
  }

  lemma VotesAfter(b: Ballot, step: ElectionStep, key: VoteKey)
    ensures key in b.votes ==> key in After(b, step).votes && After(b, step).votes[key] == b.votes[key]
    ensures key !in b.votes && key in After(b, step).votes ==>
      IsCastAt(b, [step], 0, key, After(b, step).votes[key])
    ensures forall c :: key !in b.votes && IsCastAt(b, [step], 0, key, c) ==>
      key in After(b, step).votes && After(b, step).votes[key] == c
  {
    assert [step][..0] == [];
  }

  lemma CastLater(b: Ballot, steps: seq<ElectionStep>, k: nat, key: VoteKey, candidate: Id)
    requires 0 < k < |steps|
    ensures IsCastAt(b, steps, k, key, candidate)
      <==> IsCastAt(After(b, steps[0]), steps[1..], k - 1, key, candidate)
  {
    assert steps[..k][1..] == steps[1..][..k - 1];
    hide After;
  }

  lemma CastFirst(b: Ballot, steps: seq<ElectionStep>, key: VoteKey, candidate: Id)
    requires steps != []
    ensures IsCastAt(b, steps, 0, key, candidate) <==> IsCastAt(b, [steps[0]], 0, key, candidate)
  {
    assert steps[..0] == [] && [steps[0]][..0] == [];
  }

  /**
   * A vote is stored if and only if it was there before or a member cast it at a moment when voting was open and the
   * position active; of several one stays, with its candidate.
   */
  lemma {:induction false} VotesAreCast(b: Ballot, steps: seq<ElectionStep>, key: VoteKey)
    ensures var votes := AfterAll(b, steps).votes;
      && (key in b.votes ==> key in votes && votes[key] == b.votes[key])
      && (key in votes && key !in b.votes ==> exists k :: 0 <= k < |steps| && IsCastAt(b, steps, k, key, votes[key]))
      && forall k, c :: 0 <= k < |steps| && IsCastAt(b, steps, k, key, c) ==> key in votes
    decreases steps
  {
    if steps != [] {
      var next, rest := After(b, steps[0]), steps[1..];
      VotesAreCast(next, rest, key);
      VotesAfter(b, steps[0], key);
      var votes := AfterAll(next, rest).votes;
      forall k, c | 0 <= k < |steps| && IsCastAt(b, steps, k, key, c) ensures key in votes {
        if k == 0 { CastFirst(b, steps, key, c); } else { CastLater(b, steps, k, key, c); }
      }
      if key in votes && key !in b.votes {
        if key in next.votes {
          CastFirst(b, steps, key, votes[key]);
        } else {
          var k :| 0 <= k < |rest| && IsCastAt(next, rest, k, key, votes[key]);
          CastLater(b, steps, k + 1, key, votes[key]);
        }
      }
      hide IsCastAt, After;
    }
  }

  // ---- Every vote counts for a candidate of its position ---------------------------------

  predicate Sound(b: Ballot) {
    && (forall c | c in b.candidates :: b.candidates[c] in b.positions)
    && (forall k | k in b.votes ::
          k.position in b.positions && b.votes[k] in b.candidates && b.candidates[b.votes[k]] == k.position)
  }

  lemma SoundStep(b: Ballot, step: ElectionStep)
    requires Sound(b)
    ensures Sound(After(b, step))
  {
    match step
    case DeletePosition(p) => if |VotesAt(b, p)| == 0 { NoVotesAt(b, p); }
    case DeleteCandidate(c) => if |VotesFor(b, c)| == 0 { NoVotesFor(b, c); }
    case _ =>
  }

  lemma {:induction false} SoundRun(b: Ballot, steps: seq<ElectionStep>)
    requires Sound(b)
    ensures Sound(AfterAll(b, steps))
    decreases steps
  {
    if steps != [] {
      SoundStep(b, steps[0]);
      hide Sound, After;
      SoundRun(After(b, steps[0]), steps[1..]);
    }
  }

  // ---- Results ---------------------------------------------------------------------------

  function SumVotes(b: Ballot, candidates: seq<Id>): nat {
    if candidates == [] then 0 else |VotesFor(b, candidates[0])| + SumVotes(b, candidates[1..])
  }

  /** The candidates of a position, each once, in any order. */
  predicate ListsCandidates(b: Ballot, position: Id, candidates: seq<Id>) {
    && (forall i, j | 0 <= i < j < |candidates| :: candidates[i] != candidates[j])
    && (forall c | c in candidates :: c in b.candidates && b.candidates[c] == position)
    && (forall c | c in b.candidates :: b.candidates[c] == position ==> c in candidates)
  }

  /** The votes for any of these candidates. */
  function VotesForAny(b: Ballot, candidates: seq<Id>): set<VoteKey> {
    set k | k in b.votes && b.votes[k] in candidates
  }

  lemma {:induction false} SumIsSize(b: Ballot, candidates: seq<Id>)
    requires forall i, j | 0 <= i < j < |candidates| :: candidates[i] != candidates[j]
    ensures SumVotes(b, candidates) == |VotesForAny(b, candidates)|
    decreases candidates
  {
    if candidates == [] {
      assert VotesForAny(b, candidates) == {};
    } else {
      var first, rest := VotesFor(b, candidates[0]), VotesForAny(b, candidates[1..]);
      SumIsSize(b, candidates[1..]);
      assert candidates[0] !in candidates[1..];
      assert VotesForAny(b, candidates) == first + rest && first !! rest;
    }
  }

  /** In every reachable state the candidates' votes of a position add up to its total. */
  lemma TalliesAddUp(steps: seq<ElectionStep>, position: Id, candidates: seq<Id>)
    requires ListsCandidates(AfterAll(EMPTY, steps), position, candidates)
    ensures var b := AfterAll(EMPTY, steps); SumVotes(b, candidates) == |VotesAt(b, position)|
  {
    var b := AfterAll(EMPTY, steps);
    SoundRun(EMPTY, steps);
    SumIsSize(b, candidates);
    assert VotesForAny(b, candidates) == VotesAt(b, position);
  }

  /** The share in percent, rounded half up. */
  function Percentage(votes: nat, total: nat): nat {
    if total == 0 then 0 else (200 * votes + total) / (2 * total)
  }

  function SumPercentages(b: Ballot, candidates: seq<Id>, total: nat): nat {
    if candidates == [] then 0
    else Percentage(|VotesFor(b, candidates[0])|, total) + SumPercentages(b, candidates[1..], total)
  }

  lemma PercentageIsClose(votes: nat, total: nat)
    requires total > 0
    ensures 200 * votes - total < 2 * total * Percentage(votes, total) <= 200 * votes + total
  {
    var n, d := 200 * votes + total, 2 * total;
    assert n == d * (n / d) + n % d;
  }

  lemma {:induction false} SumIsClose(b: Ballot, candidates: seq<Id>, total: nat)
    requires total > 0
    ensures 200 * SumVotes(b, candidates) - total * |candidates| <= 2 * total * SumPercentages(b, candidates, total)
            <= 200 * SumVotes(b, candidates) + total * |candidates|
    decreases candidates
  {
    if candidates != [] {
      var votes := |VotesFor(b, candidates[0])|;
      var first, rest := Percentage(votes, total), SumPercentages(b, candidates[1..], total);
      var n := |candidates[1..]|;
      SumIsClose(b, candidates[1..], total);
      PercentageIsClose(votes, total);
      hide Percentage, VotesFor;
      Distribute(2 * total, first, rest);
      Distribute(total, 1, n);
      assert SumPercentages(b, candidates, total) == first + rest && |candidates| == 1 + n;
      assert SumVotes(b, candidates) == votes + SumVotes(b, candidates[1..]);
      hide SumVotes, SumPercentages;
    } else {
      assert SumVotes(b, candidates) == 0 && SumPercentages(b, candidates, total) == 0;
    }
  }

  lemma Distribute(t: int, x: int, y: int)
    ensures t * (x + y) == t * x + t * y
  {
  }

  lemma Cancel(t: int, x: int, y: int)
    requires t > 0
    ensures t * x <= t * y <==> x <= y
  {
    Distribute(t, y, x - y);
    assert x > y ==> t * (x - y) > 0;
    assert x <= y ==> t * (x - y) <= 0;
  }

  /** With k candidates and at least one vote, the percentages shown add up to 100, give or take k halves. */
  lemma PercentagesAddUp(steps: seq<ElectionStep>, position: Id, candidates: seq<Id>)
    requires ListsCandidates(AfterAll(EMPTY, steps), position, candidates)
    requires |VotesAt(AfterAll(EMPTY, steps), position)| > 0
    ensures var b := AfterAll(EMPTY, steps); var total := |VotesAt(b, position)|;
      200 - |candidates| <= 2 * SumPercentages(b, candidates, total) <= 200 + |candidates|
  {
    var b := AfterAll(EMPTY, steps);
    var total := |VotesAt(b, position)|;
    TalliesAddUp(steps, position, candidates);
    hide *;
    SumIsClose(b, candidates, total);
    PercentScaled(total, SumPercentages(b, candidates, total), |candidates|);
  }

  lemma PercentScaled(total: int, sum: int, k: int)
    requires total > 0
    requires 200 * total - total * k <= 2 * total * sum <= 200 * total + total * k
    ensures 200 - k <= 2 * sum <= 200 + k
  {
    Distribute(total, 200, k);
    Distribute(total, 200, -k);
    assert 2 * total * sum == total * (2 * sum);
    Cancel(total, 200 - k, 2 * sum);
    Cancel(total, 2 * sum, 200 + k);
  }

  // ---- Completed voters ------------------------------------------------------------------

  function ActivePositions(b: Ballot): set<Id> {
    set p | p in b.positions && b.positions[p]
  }

  function Voters(b: Ballot): set<Id> {
    set k | k in b.votes :: k.user
  }

  /** The votes of a user on active positions. */
  function ActiveVotes(b: Ballot, user: Id): set<VoteKey> {
    set k | k in b.votes && k.user == user && k.position in ActivePositions(b)
  }

  /** The groups of the query: users with as many votes on active positions as there are such positions. */
  function FullGroups(b: Ballot): set<Id> {
    set u | u in Voters(b) && |ActiveVotes(b, u)| == |ActivePositions(b)|
  }

  /** getStats: the number of those groups, and 0 when no position is active. */
  function CompletedVoters(b: Ballot): nat {
    if ActivePositions(b) == {} then 0 else |FullGroups(b)|
  }

  /** Who has voted in every active position. */
  predicate VotedInAll(b: Ballot, user: Id) {
    forall p | p in ActivePositions(b) :: VoteKey(user, p) in b.votes
  }

  lemma {:induction false} KeysAreAsMany(votes: set<VoteKey>, user: Id)
    requires forall k | k in votes :: k.user == user
    ensures |set k | k in votes :: k.position| == |votes|
    decreases |votes|
  {
    if votes != {} {
      var k :| k in votes;
      KeysAreAsMany(votes - {k}, user);
      assert forall j | j in votes - {k} :: j.position != k.position;
      assert (set j | j in votes :: j.position) == (set j | j in votes - {k} :: j.position) + {k.position};
    }
  }

  lemma FullSubset(a: set<Id>, b: set<Id>)
    requires a <= b
    ensures |a| == |b| <==> a == b
  {
    assert b == a + (b - a);
  }

  /** A user has as many votes on active positions as there are active positions exactly by voting in each of them. */
  lemma CompletedMeansAll(b: Ballot, user: Id)
    ensures |ActiveVotes(b, user)| == |ActivePositions(b)| <==> VotedInAll(b, user)
  {
    var votes := ActiveVotes(b, user);
    var voted := set k | k in votes :: k.position;
    KeysAreAsMany(votes, user);
    FullSubset(voted, ActivePositions(b));
    forall p | p in ActivePositions(b) ensures p in voted <==> VoteKey(user, p) in b.votes {
      if VoteKey(user, p) in b.votes { assert VoteKey(user, p) in votes; }
    }
  }

  /** As soon as a position is active, the count reported is the number of users who voted in every active position. */
  lemma CompletedVotersIs(b: Ballot, completed: set<Id>)
    requires forall u :: u in completed <==> VotedInAll(b, u) && ActivePositions(b) != {}
    ensures CompletedVoters(b) == |completed|
  {
    if ActivePositions(b) == {} {
      assert completed == {};
    } else {
      forall u ensures u in FullGroups(b) <==> u in completed {
        CompletedMeansAll(b, u);
        if VotedInAll(b, u) { CompletedIsVoter(b, u); }
      }
      hide FullGroups, VotedInAll;
      assert FullGroups(b) == completed;
    }
  }

  /** Nobody outside the voters has voted in every active position, so counting voters loses nobody. */
  lemma CompletedIsVoter(b: Ballot, user: Id)
    requires ActivePositions(b) != {} && VotedInAll(b, user)
    ensures user in Voters(b)
  {
    var p :| p in ActivePositions(b);
    assert VoteKey(user, p) in b.votes && VoteKey(user, p).user == user;
  }
}
