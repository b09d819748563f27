/**
 * `FirestoreManager` (firestore/FirestoreManager.kt) over an in-memory picture of the
 * documents it reads and writes. Each collection the manager touches is a field:
 *
 *   users/{uid}/tracked/shows             tracked[uid]
 *   reviews/{id}                          reviews (one document per id)
 *   reviews/{id}/votes/{uid}              votes[id][uid]
 *   reviewSummaries/{showId}              summaries[showId]
 *   users/{uid}/watchProgress/{showId}    progress[(uid, showId)]
 *
 * The signed-in user is the field `currentUserId`; clock readings are parameters. Each
 * suspend function is one atomic method; store calls are taken to succeed except where
 * the source's own logic fails (no user, an update of a missing review).
 */
module Firestore {
  import opened Wrappers
  import opened KotlinStd
  import opened Models
  import opened HelpfulVotes
  import opened WatchProgressMerge
  import opened ReviewAggregation

  /** The message of every not-signed-in failure. */
  const NotSignedIn: string := "Not signed in"

  /**
   * The model's message for a transaction that updates a review document that does not
   * exist; the store's own error text is not part of this model.
   */
  const ReviewMissing: string := "review does not exist"

  datatype TrackedDoc = TrackedDoc(showIds: seq<string>, updatedAt: int)

  /** A stored review: the fields the manager reads back. The counters may be absent. */
  datatype ReviewDoc = ReviewDoc(id: string, showId: string, rating: real,
                                 helpfulCount: Option<int>, notHelpfulCount: Option<int>)

  datatype ProgressDoc = ProgressDoc(showId: string, watchedEpisodes: seq<EpisodeEntry>,
                                     lastWatchedSeason: int, lastWatchedEpisode: int, updatedAt: int)

  function ShowId(s: Show): string
  {
    s.id
  }

  /** `set(review)` writes every field of the review, its counters included. */
  function ToDoc(r: Review): ReviewDoc
  {
    ReviewDoc(r.id, r.showId, r.rating, Some(r.helpfulCount), Some(r.notHelpfulCount))
  }

  /** Document ids are unique within a collection. */
  predicate UniqueIds(docs: seq<ReviewDoc>)
  {
    forall i, j :: 0 <= i < j < |docs| ==> docs[i].id != docs[j].id
  }

  function HasId(id: string): ReviewDoc -> bool
  {
    (d: ReviewDoc) => d.id == id
  }

  /** The position of the document with this id. */
  function FindDoc(docs: seq<ReviewDoc>, id: string): (i: Option<nat>)
    ensures i.Some? ==> i.value < |docs| && docs[i.value].id == id
    ensures i.None? ==> forall j :: 0 <= j < |docs| ==> docs[j].id != id
  {
    FirstIndex(docs, HasId(id))
  }

  /** `document(d.id).set(d)`: replaces the document with that id, or adds it. */
  function PutDoc(docs: seq<ReviewDoc>, d: ReviewDoc): (r: seq<ReviewDoc>)
    requires UniqueIds(docs)
    ensures UniqueIds(r)
    ensures d in r
    ensures forall e :: e in docs && e.id != d.id ==> e in r
    ensures forall e :: e in r ==> e == d || (e in docs && e.id != d.id)
  {
    match FindDoc(docs, d.id)
    case Some(i) =>
      var r := docs[i := d];
      assert r[i] == d;
      assert forall e :: e in docs && e.id != d.id ==> e in r by {
        forall e | e in docs && e.id != d.id ensures e in r {
          var j :| 0 <= j < |docs| && docs[j] == e;
          assert r[j] == e;
        }
      }
      r
    case None => docs + [d]
  }

  function IsForShow(showId: string): ReviewDoc -> bool
  {
    (d: ReviewDoc) => d.showId == showId
  }

  function DocRating(d: ReviewDoc): real
  {
    d.rating
  }

  /**
   * `whereEqualTo("showId", showId)`, then each review's rating: one rating per review of
   * the show, in the collection's order, and none from another show's review.
   */
  function RatingsOf(docs: seq<ReviewDoc>, showId: string): (ratings: seq<real>)
    ensures forall d :: d in docs && d.showId == showId ==> d.rating in ratings
    ensures |ratings| == |Filter(docs, IsForShow(showId))|
    ensures forall i :: 0 <= i < |ratings| ==> ratings[i] == Filter(docs, IsForShow(showId))[i].rating
  {
    var matching := Filter(docs, IsForShow(showId));
    var ratings := Map(matching, DocRating);
    assert forall d :: d in matching ==> d.rating in ratings by {
      forall d | d in matching ensures d.rating in ratings {
        var j :| 0 <= j < |matching| && matching[j] == d;
        assert ratings[j] == d.rating;
      }
    }
    ratings
  }

  /** The counters as `voteOnReview` reads them: `getLong(..)?.toInt() ?: 0`. */
  function CountersOf(d: ReviewDoc): (c: Counters)
    ensures InIntRange(c)
    ensures d.helpfulCount.None? ==> c.helpful == 0
    ensures d.notHelpfulCount.None? ==> c.notHelpful == 0
  {
    Counters(ReadCounter(d.helpfulCount), ReadCounter(d.notHelpfulCount))
  }

  /** The review document after the transaction: both counters written back as `Int`s. */
  function VoteApplied(d: ReviewDoc, previous: Option<bool>, isHelpful: bool): (d': ReviewDoc)
    ensures d'.id == d.id && d'.showId == d.showId && d'.rating == d.rating
    ensures d'.helpfulCount.Some? && d'.notHelpfulCount.Some?
    ensures CountersOf(d') == CountsAfterVote(CountersOf(d), previous, isHelpful)
  {
    var c := CountsAfterVote(CountersOf(d), previous, isHelpful);
    d.(helpfulCount := Some(c.helpful), notHelpfulCount := Some(c.notHelpful))
  }

  /** Replacing a document by one with the same id keeps the ids unique and the document findable. */
  lemma ReplaceKeepsIds(docs: seq<ReviewDoc>, i: nat, d: ReviewDoc)
    requires UniqueIds(docs) && i < |docs| && d.id == docs[i].id
    ensures UniqueIds(docs[i := d])
    ensures FindDoc(docs[i := d], d.id) == Some(i)
  {
    var r := docs[i := d];
    assert forall j :: 0 <= j < |r| ==> r[j].id == docs[j].id;
  }

  /** The progress document `saveWatchProgress` writes over `doc`. */
  function SavedProgress(doc: Option<ProgressDoc>, showId: string, season: int, episode: int,
                         watchedAt: int, updatedAt: int): (p: ProgressDoc)
    ensures p.showId == showId && p.updatedAt == updatedAt
    ensures p.lastWatchedSeason == season && p.lastWatchedEpisode == episode
    ensures p.watchedEpisodes ==
              Upserted(if doc.Some? then doc.value.watchedEpisodes else [], showId, season, episode, watchedAt)
  {
    var existing := if doc.Some? then doc.value.watchedEpisodes else [];
    ProgressDoc(showId, Upserted(existing, showId, season, episode, watchedAt), season, episode, updatedAt)
  }

  /**
   * The last-watched pointer follows the latest save, not the furthest episode: after
   * saving S1E3 and then S1E2, the pointer is S1E2 and both episodes stay recorded.
   */
  lemma LastWatchedFollowsLatestSave(doc: Option<ProgressDoc>, showId: string, t1: int, t2: int)
    ensures var p := SavedProgress(Some(SavedProgress(doc, showId, 1, 3, t1, t1)), showId, 1, 2, t2, t2);
            p.lastWatchedSeason == 1 && p.lastWatchedEpisode == 2 &&
            EntriesFor(p.watchedEpisodes, 1, 3) == 1 && EntriesFor(p.watchedEpisodes, 1, 2) == 1
  {
    var first := SavedProgress(doc, showId, 1, 3, t1, t1);
    var firstList := first.watchedEpisodes;
    var existing := if doc.Some? then doc.value.watchedEpisodes else [];
    var e3 := EpisodeEntry(showId, Some(1), Some(3), t1);
    var e2 := EpisodeEntry(showId, Some(1), Some(2), t2);
    var kept := Others(firstList, 1, 2);
    // The first save leaves exactly one S1E3 entry.
    OthersHaveNoEntryFor(existing, 1, 3);
    FilterSnoc(Others(existing, 1, 3), e3, IsPair(1, 3));
    // Removing S1E2 entries keeps every S1E3 entry.
    PairSurvivesOtherRemoval(firstList, 1, 3, 1, 2);
    FilterSnoc(kept, e2, IsPair(1, 3));
    OthersHaveNoEntryFor(firstList, 1, 2);
    FilterSnoc(kept, e2, IsPair(1, 2));
  }

  /** Removing the entries of one pair leaves another pair's entries alone. */
  lemma {:induction false} PairSurvivesOtherRemoval(entries: seq<EpisodeEntry>, s: int, e: int, s2: int, e2: int)
    requires s != s2 || e != e2
    ensures EntriesFor(Others(entries, s2, e2), s, e) == EntriesFor(entries, s, e)
  {
    if |entries| > 0 {
      var init := entries[..|entries| - 1];
      var last := entries[|entries| - 1];
      assert entries == init + [last];
      PairSurvivesOtherRemoval(init, s, e, s2, e2);
      FilterSnoc(init, last, IsOtherPair(s2, e2));
      FilterSnoc(init, last, IsPair(s, e));
      if Matches(last, s2, e2) {
        assert !Matches(last, s, e);
        assert Others(entries, s2, e2) == Others(init, s2, e2);
      } else {
        assert Others(entries, s2, e2) == Others(init, s2, e2) + [last];
        FilterSnoc(Others(init, s2, e2), last, IsPair(s, e));
      }
    }
  }

  class FirestoreManager {
    var currentUserId: Option<UserId>
    var tracked: map<UserId, TrackedDoc>
    var reviews: seq<ReviewDoc>
    var votes: map<string, map<UserId, bool>>
    var summaries: map<string, ReviewSummary>
    var progress: map<(UserId, string), ProgressDoc>

    /** The review collection holds at most one document per id. */
    ghost predicate Valid()
      reads this
    {
      UniqueIds(reviews)
    }

    /** An empty store, seen by `user`. */
    constructor(user: Option<UserId>)
      ensures Valid()
      ensures currentUserId == user
      ensures tracked == map[] && reviews == [] && votes == map[] && summaries == map[] && progress == map[]
    {
      currentUserId := user;
      tracked := map[];
      reviews := [];
      votes := map[];
      summaries := map[];
      progress := map[];
    }

    /** The ids `getTrackedShows` reads for `user`: empty when the document is missing. */
    function TrackedIds(user: UserId): seq<string>
      reads this
    {
      if user in tracked then tracked[user].showIds else []
    }

    /** The vote records of a review. */
    function VotesOn(reviewId: string): map<UserId, bool>
      reads this
    {
      if reviewId in votes then votes[reviewId] else map[]
    }

    /** The caller's earlier vote on a review: `existingVote.getBoolean("isHelpful")`. */
    function PreviousVote(reviewId: string, user: UserId): Option<bool>
      reads this
    {
      var records := VotesOn(reviewId);
      if user in records then Some(records[user]) else None
    }

    /** The counters of a review equal the tally of its vote records. */
    predicate CountersMatchVotes(reviewId: string)
      reads this
    {
      match FindDoc(reviews, reviewId)
      case None => true
      case Some(i) => CountersOf(reviews[i]) == Tally(VotesOn(reviewId))
    }

    /** `syncTrackedShows(shows)`: overwrites the user's tracked document with the shows' ids. */
    method SyncTrackedShows(shows: seq<Show>, now: int) returns (r: Result<()>)
      modifies this
      ensures old(currentUserId).None? ==> r == Failure(NotSignedIn) && tracked == old(tracked)
      ensures old(currentUserId).Some? ==>
                r == Success(()) &&
                tracked == old(tracked)[old(currentUserId).value := TrackedDoc(Map(shows, ShowId), now)]
      ensures currentUserId == old(currentUserId) && reviews == old(reviews) && votes == old(votes)
      ensures summaries == old(summaries) && progress == old(progress)
    {
      if currentUserId.None? {
        return Failure(NotSignedIn);
      }
      var userId := currentUserId.value;
      var showIds := Map(shows, ShowId);
      tracked := tracked[userId := TrackedDoc(showIds, now)];
      r := Success(());
    }

    /** `getTrackedShows()`: the ids last synced by the signed-in user, or none. */
    method GetTrackedShows() returns (r: Result<seq<string>>)
      ensures currentUserId.None? ==> r == Failure(NotSignedIn)
      ensures currentUserId.Some? ==> r == Success(TrackedIds(currentUserId.value))
    {
      if currentUserId.None? {
        return Failure(NotSignedIn);
      }
      var userId := currentUserId.value;
      if userId in tracked {
        r := Success(tracked[userId].showIds);
      } else {
        r := Success([]);
      }
    }

    /**
     * `submitReview(review)`: writes the whole review document, counters included, then
     * recomputes the show's summary, which now covers at least this review.
     */
    method SubmitReview(review: Review) returns (r: Result<()>)
      requires Valid()
      modifies this
      ensures Valid()
      ensures r == Success(())
      ensures reviews == PutDoc(old(reviews), ToDoc(review))
      ensures Summarize(review.showId, RatingsOf(reviews, review.showId)).Some?
      ensures summaries ==
                old(summaries)[review.showId := Summarize(review.showId, RatingsOf(reviews, review.showId)).value]
      ensures currentUserId == old(currentUserId) && tracked == old(tracked) && votes == old(votes)
      ensures progress == old(progress)
    {
      reviews := PutDoc(reviews, ToDoc(review));
      assert ToDoc(review).rating in RatingsOf(reviews, review.showId);
      UpdateReviewSummary(review.showId);
      r := Success(());
    }

    /** `updateReviewSummary(showId)`: writes the summary of the show's reviews, or nothing when it has none. */
    method UpdateReviewSummary(showId: string)
      modifies this
      ensures var s := Summarize(showId, RatingsOf(reviews, showId));
              summaries == if s.None? then old(summaries) else old(summaries)[showId := s.value]
      ensures currentUserId == old(currentUserId) && tracked == old(tracked) && reviews == old(reviews)
      ensures votes == old(votes) && progress == old(progress)
    {
      var ratings := RatingsOf(reviews, showId);
      if |ratings| == 0 {
        return;
      }
      var summary := Summarize(showId, ratings);
      summaries := summaries[showId := summary.value];
    }

    /** `getReviewSummary(showId)`: the stored summary, or null when none was written. */
    method GetReviewSummary(showId: string) returns (r: Result<Option<ReviewSummary>>)
      ensures r.Success?
      ensures r.value.Some? <==> showId in summaries
      ensures r.value.Some? ==> r.value.value == summaries[showId]
    {
      if showId in summaries {
        r := Success(Some(summaries[showId]));
      } else {
        r := Success(None);
      }
    }

    /**
     * `voteOnReview(reviewId, isHelpful)`: in one transaction, reads both counters and the
     * caller's vote record, takes back the old vote, counts the new one, and writes the
     * counters and the record. Updating a review that does not exist fails the
     * transaction, so nothing is written.
     */
    method VoteOnReview(reviewId: string, isHelpful: bool) returns (r: Result<()>)
      requires Valid()
      modifies this
      ensures Valid()
      ensures currentUserId == old(currentUserId) && tracked == old(tracked) && summaries == old(summaries)
      ensures progress == old(progress)
      ensures old(currentUserId).None? ==> r == Failure(NotSignedIn) && reviews == old(reviews) && votes == old(votes)
      ensures old(currentUserId).Some? && FindDoc(old(reviews), reviewId).None? ==>
                r.Failure? && r.message != NotSignedIn && reviews == old(reviews) && votes == old(votes)
      ensures old(currentUserId).Some? && FindDoc(old(reviews), reviewId).Some? ==>
                var i := FindDoc(old(reviews), reviewId).value;
                r == Success(()) &&
                reviews == old(reviews)[i := VoteApplied(old(reviews)[i], old(PreviousVote(reviewId, currentUserId.value)), isHelpful)] &&
                votes == old(votes)[reviewId := old(VotesOn(reviewId))[currentUserId.value := isHelpful]]
      ensures old(CountersMatchVotes(reviewId)) && |old(VotesOn(reviewId))| < IntMax ==> CountersMatchVotes(reviewId)
      ensures forall id :: id != reviewId ==> VotesOn(id) == old(VotesOn(id))
    {
      if currentUserId.None? {
        return Failure(NotSignedIn);
      }
      var userId := currentUserId.value;
      var found := FindDoc(reviews, reviewId);
      if found.None? {
        return Failure(ReviewMissing);
      }
      RecordVote(reviewId, found.value, userId, isHelpful);
      r := Success(());
    }

    /** The review document with the counters the transaction computes written back. */
    static method CountVote(review: ReviewDoc, wasHelpful: Option<bool>, isHelpful: bool) returns (updated: ReviewDoc)
      ensures updated == VoteApplied(review, wasHelpful, isHelpful)
    {
      var newHelpful, newNotHelpful := TransactionCounts(CountersOf(review), wasHelpful, isHelpful);
      updated := review.(helpfulCount := Some(newHelpful), notHelpfulCount := Some(newNotHelpful));
    }

    /**
     * The writes of a vote transaction on the review at index `i`: the updated counters
     * and the caller's vote record.
     */
    method RecordVote(reviewId: string, i: nat, userId: UserId, isHelpful: bool)
      requires Valid() && FindDoc(reviews, reviewId) == Some(i)
      modifies this
      ensures Valid()
      ensures currentUserId == old(currentUserId) && tracked == old(tracked) && summaries == old(summaries)
      ensures progress == old(progress)
      ensures reviews == old(reviews)[i := VoteApplied(old(reviews)[i], old(PreviousVote(reviewId, userId)), isHelpful)]
      ensures votes == old(votes)[reviewId := old(VotesOn(reviewId))[userId := isHelpful]]
      ensures old(CountersMatchVotes(reviewId)) && |old(VotesOn(reviewId))| < IntMax ==> CountersMatchVotes(reviewId)
      ensures forall id :: id != reviewId ==> VotesOn(id) == old(VotesOn(id))
    {
      var review := reviews[i];
      var wasHelpful := PreviousVote(reviewId, userId);
      var records := VotesOn(reviewId);

      var updated := CountVote(review, wasHelpful, isHelpful);
      ReplaceKeepsIds(reviews, i, updated);

      reviews := reviews[i := updated];
      votes := votes[reviewId := records[userId := isHelpful]];

      assert FindDoc(reviews, reviewId) == Some(i);
      assert VotesOn(reviewId) == records[userId := isHelpful];
      forall id | id != reviewId ensures VotesOn(id) == old(VotesOn(id)) {
        assert (id in votes) == (id in old(votes));
      }
      if CountersOf(review) == Tally(records) && |records| < IntMax {
        VoteKeepsTally(records, userId, isHelpful);
      }
    }

    /**
     * `saveWatchProgress(showId, season, episode)`: merges the new episode into the stored
     * list and points the last-watched fields at it.
     */
    method SaveWatchProgress(showId: string, season: int, episode: int, watchedAt: int, updatedAt: int)
      returns (r: Result<()>)
      modifies this
      ensures old(currentUserId).None? ==> r == Failure(NotSignedIn) && progress == old(progress)
      ensures old(currentUserId).Some? ==>
                var key := (old(currentUserId).value, showId);
                var before := if key in old(progress) then Some(old(progress)[key]) else None;
                r == Success(()) &&
                progress == old(progress)[key := SavedProgress(before, showId, season, episode, watchedAt, updatedAt)]
      ensures currentUserId == old(currentUserId) && tracked == old(tracked) && reviews == old(reviews)
      ensures votes == old(votes) && summaries == old(summaries)
    {
      if currentUserId.None? {
        return Failure(NotSignedIn);
      }
      var key := (currentUserId.value, showId);
      var existing: seq<EpisodeEntry> := [];
      if key in progress {
        existing := progress[key].watchedEpisodes;
      }
      var updated := UpsertEpisode(existing, showId, season, episode, watchedAt);
      progress := progress[key := ProgressDoc(showId, updated, season, episode, updatedAt)];
      r := Success(());
    }

    /** `getWatchProgress(showId)`: the signed-in user's stored document for the show, or null. */
    method GetWatchProgress(showId: string) returns (r: Result<Option<ProgressDoc>>)
      ensures currentUserId.None? ==> r == Failure(NotSignedIn)
      ensures currentUserId.Some? ==> r.Success? && (r.value.Some? <==> (currentUserId.value, showId) in progress)
      ensures currentUserId.Some? && r.value.Some? ==> r.value.value == progress[(currentUserId.value, showId)]
    {
      if currentUserId.None? {
        return Failure(NotSignedIn);
      }
      var key := (currentUserId.value, showId);
      if key in progress {
        r := Success(Some(progress[key]));
      } else {
        r := Success(None);
      }
    }
  }
}
