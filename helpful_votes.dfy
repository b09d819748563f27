/**
 * The arithmetic of the helpful-vote transaction (`FirestoreManager.voteOnReview`) and
 * the invariant it is meant to keep: a review's two counters equal the number of
 * "helpful" and "not helpful" records among its per-user votes.
 *
 * The counters are Kotlin `Int`s: a stored `Long` is read with `toInt()` (keeping its low
 * 32 bits) and `++`/`--` wrap around at the ends of the 32-bit range.
 */
module HelpfulVotes {
  import opened Wrappers

  type UserId = string

  const IntMin: int := -0x8000_0000
  const IntMax: int := 0x7fff_ffff

  /** Two's-complement 32-bit wrap-around: `Long.toInt()` and `Int` overflow. */
  function WrapInt(x: int): (r: int)
    ensures IntMin <= r <= IntMax
    ensures IntMin <= x <= IntMax ==> r == x
    ensures (x - r) % 0x1_0000_0000 == 0
  {
    (x - IntMin) % 0x1_0000_0000 + IntMin
  }

  /** `getLong(field)?.toInt() ?: 0`: a missing counter reads as 0. */
  function ReadCounter(stored: Option<int>): (c: int)
    ensures stored.None? ==> c == 0
    ensures stored.Some? && IntMin <= stored.value <= IntMax ==> c == stored.value
    ensures IntMin <= c <= IntMax
  {
    match stored
    case None => 0
    case Some(v) => WrapInt(v)
  }

  datatype Counters = Counters(helpful: int, notHelpful: int)

  predicate InIntRange(c: Counters)
  {
    IntMin <= c.helpful <= IntMax && IntMin <= c.notHelpful <= IntMax
  }

  /**
   * The transaction body: undo the caller's previous vote, if any, then count the new
   * one, each step with `Int` arithmetic.
   */
  function CountsAfterVote(c: Counters, previous: Option<bool>, isHelpful: bool): (r: Counters)
    ensures InIntRange(c) ==> InIntRange(r)
  {
    var undone :=
      match previous
      case None => c
      case Some(true) => c.(helpful := WrapInt(c.helpful - 1))
      case Some(false) => c.(notHelpful := WrapInt(c.notHelpful - 1));
    if isHelpful then undone.(helpful := WrapInt(undone.helpful + 1))
    else undone.(notHelpful := WrapInt(undone.notHelpful + 1))
  }

  /**
   * The transaction body as the source writes it: `var newHelpful`/`newNotHelpful` start
   * from the stored counters, the previous vote is taken back, the new one is counted.
   */
  method TransactionCounts(current: Counters, wasHelpful: Option<bool>, isHelpful: bool)
    returns (newHelpful: int, newNotHelpful: int)
    requires InIntRange(current)
    ensures Counters(newHelpful, newNotHelpful) == CountsAfterVote(current, wasHelpful, isHelpful)
    ensures wasHelpful == Some(isHelpful) ==> Counters(newHelpful, newNotHelpful) == current
    ensures wasHelpful.None? && isHelpful && current.helpful < IntMax ==>
              newHelpful == current.helpful + 1 && newNotHelpful == current.notHelpful
    ensures wasHelpful.None? && !isHelpful && current.notHelpful < IntMax ==>
              newHelpful == current.helpful && newNotHelpful == current.notHelpful + 1
  {
    newHelpful := current.helpful;
    newNotHelpful := current.notHelpful;
    if wasHelpful.Some? {
      if wasHelpful.value {
        newHelpful := WrapInt(newHelpful - 1);
      } else {
        newNotHelpful := WrapInt(newNotHelpful - 1);
      }
    }
    if isHelpful {
      newHelpful := WrapInt(newHelpful + 1);
    } else {
      newNotHelpful := WrapInt(newNotHelpful + 1);
    }
    if wasHelpful == Some(isHelpful) {
      RepeatedVoteIsIdempotent(current, isHelpful);
    }
  }

  /** A first vote raises the chosen counter by one and leaves the other alone. */
  lemma FirstVoteAddsOne(c: Counters, isHelpful: bool)
    requires InIntRange(c) && c.helpful < IntMax && c.notHelpful < IntMax
    ensures var r := CountsAfterVote(c, None, isHelpful);
            if isHelpful then r == Counters(c.helpful + 1, c.notHelpful)
            else r == Counters(c.helpful, c.notHelpful + 1)
  {
  }

  /** Undoing and redoing a step on a 32-bit value gives it back, even across the wrap. */
  lemma WrapStepBack(x: int)
    requires IntMin <= x <= IntMax
    ensures WrapInt(WrapInt(x - 1) + 1) == x
  {
    if x == IntMin {
      assert WrapInt(x - 1) == IntMax;
    } else {
      assert WrapInt(x - 1) == x - 1;
    }
  }

  /** Casting the same vote again changes neither counter. */
  lemma RepeatedVoteIsIdempotent(c: Counters, isHelpful: bool)
    requires InIntRange(c)
    ensures CountsAfterVote(c, Some(isHelpful), isHelpful) == c
  {
    if isHelpful {
      WrapStepBack(c.helpful);
    } else {
      WrapStepBack(c.notHelpful);
    }
  }

  /** Switching a vote moves exactly one count from the old side to the new side. */
  lemma SwitchedVoteMovesOne(c: Counters, isHelpful: bool)
    requires InIntRange(c)
    requires isHelpful ==> c.notHelpful > IntMin && c.helpful < IntMax
    requires !isHelpful ==> c.helpful > IntMin && c.notHelpful < IntMax
    ensures var r := CountsAfterVote(c, Some(!isHelpful), isHelpful);
            r.helpful + r.notHelpful == c.helpful + c.notHelpful &&
            (if isHelpful then r == Counters(c.helpful + 1, c.notHelpful - 1)
             else r == Counters(c.helpful - 1, c.notHelpful + 1))
  {
  }

  // ---------------------------------------------------------------- tallies

  /** The number of vote records with the given value. */
  function CountVotes(votes: map<UserId, bool>, value: bool): nat
  {
    |Voters(votes, value)|
  }

  /** What the counters of a review should be: the tally of its vote records. */
  function Tally(votes: map<UserId, bool>): Counters
  {
    Counters(CountVotes(votes, true), CountVotes(votes, false))
  }

  /** The users whose vote record has the given value. */
  function Voters(votes: map<UserId, bool>, value: bool): (users: set<UserId>)
    ensures forall u :: u in users <==> u in votes && votes[u] == value
  {
    set u | u in votes && votes[u] == value
  }

  /** The voters of `value` after recording `user`'s vote `v`. */
  lemma VotersAfterRecord(votes: map<UserId, bool>, user: UserId, v: bool, value: bool)
    ensures Voters(votes[user := v], value) ==
              (Voters(votes, value) - {user}) + (if v == value then {user} else {})
  {
  }

  /** The voters of `value` before, split around `user`. */
  lemma VotersAround(votes: map<UserId, bool>, user: UserId, value: bool)
    ensures Voters(votes, value) ==
              (Voters(votes, value) - {user}) + (if user in votes && votes[user] == value then {user} else {})
  {
  }

  /** Recording `user`'s vote `v` changes the tally of `value` by at most one, in the expected direction. */
  lemma CountAfterRecord(votes: map<UserId, bool>, user: UserId, v: bool, value: bool)
    ensures CountVotes(votes[user := v], value) ==
              CountVotes(votes, value) - (if user in votes && votes[user] == value then 1 else 0)
                                       + (if v == value then 1 else 0)
  {
    var rest := Voters(votes, value) - {user};
    VotersAfterRecord(votes, user, v, value);
    VotersAround(votes, user, value);
    assert user !in rest;
    assert |rest + (if v == value then {user} else {})| == |rest| + (if v == value then 1 else 0);
    assert |rest + (if user in votes && votes[user] == value then {user} else {})| ==
           |rest| + (if user in votes && votes[user] == value then 1 else 0);
  }

  /** Every vote record is either helpful or not. */
  lemma TallyCoversVotes(votes: map<UserId, bool>)
    ensures CountVotes(votes, true) + CountVotes(votes, false) == |votes|
  {
    var yes := Voters(votes, true);
    var no := Voters(votes, false);
    assert CountVotes(votes, true) == |yes| && CountVotes(votes, false) == |no|;
    assert yes + no == votes.Keys;
    assert yes !! no;
    assert |yes + no| == |yes| + |no|;
  }

  /** A user who voted `value` is counted in that tally. */
  lemma VoterCounted(votes: map<UserId, bool>, user: UserId)
    requires user in votes
    ensures CountVotes(votes, votes[user]) >= 1
  {
    var users := Voters(votes, votes[user]);
    assert CountVotes(votes, votes[user]) == |users|;
    assert users == (users - {user}) + {user};
  }

  /**
   * The key invariant: if the counters equal the tally of the vote records before a
   * vote, they equal the tally of the updated records afterwards (so they stay
   * non-negative), as long as fewer than 2^31 - 1 users have voted.
   */
  lemma VoteKeepsTally(votes: map<UserId, bool>, user: UserId, isHelpful: bool)
    requires |votes| < IntMax
    ensures var previous := if user in votes then Some(votes[user]) else None;
            CountsAfterVote(Tally(votes), previous, isHelpful) == Tally(votes[user := isHelpful])
  {
    TallyCoversVotes(votes);
    CountAfterRecord(votes, user, isHelpful, true);
    CountAfterRecord(votes, user, isHelpful, false);
    if user in votes {
      VoterCounted(votes, user);
    }
  }

  /** Counters that equal a tally are never negative. */
  lemma TalliedCountersNonNegative(votes: map<UserId, bool>)
    ensures Tally(votes).helpful >= 0 && Tally(votes).notHelpful >= 0
  {
  }
}
