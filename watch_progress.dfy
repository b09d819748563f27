/**
 * The list update inside `FirestoreManager.saveWatchProgress`: the stored episode list is
 * copied, every entry for the same (season, episode) pair is removed, and the new entry
 * is appended. The stored entries' numbers are read back with `as? Long`, so an entry
 * whose number is missing or is not a whole number matches no pair.
 */
module WatchProgressMerge {
  import opened KotlinStd
  import opened Wrappers

  /** One stored `watchedEpisodes` map. */
  datatype EpisodeEntry = EpisodeEntry(showId: string, seasonNumber: Option<int>,
                                       episodeNumber: Option<int>, watchedAt: int)

  /** The `removeAll` condition: the entry records exactly this (season, episode) pair. */
  predicate Matches(x: EpisodeEntry, season: int, episode: int)
  {
    x.seasonNumber == Some(season) && x.episodeNumber == Some(episode)
  }

  function IsPair(season: int, episode: int): EpisodeEntry -> bool
  {
    x => Matches(x, season, episode)
  }

  function IsOtherPair(season: int, episode: int): EpisodeEntry -> bool
  {
    x => !Matches(x, season, episode)
  }

  /** The entries recorded for other pairs, in their stored order. */
  function Others(entries: seq<EpisodeEntry>, season: int, episode: int): seq<EpisodeEntry>
  {
    Filter(entries, IsOtherPair(season, episode))
  }

  /** The number of entries recorded for the pair. */
  function EntriesFor(entries: seq<EpisodeEntry>, season: int, episode: int): nat
  {
    |Filter(entries, IsPair(season, episode))|
  }

  /** The list `saveWatchProgress` writes back. */
  function Upserted(existing: seq<EpisodeEntry>, showId: string, season: int, episode: int,
                    watchedAt: int): seq<EpisodeEntry>
  {
    Others(existing, season, episode) + [EpisodeEntry(showId, Some(season), Some(episode), watchedAt)]
  }

  /** Once the pair's entries are removed, none is left. */
  lemma OthersHaveNoEntryFor(entries: seq<EpisodeEntry>, season: int, episode: int)
    ensures EntriesFor(Others(entries, season, episode), season, episode) == 0
  {
    FilterNone(Others(entries, season, episode), IsPair(season, episode));
  }

  /**
   * `toMutableList()`, `removeAll { pair matches }`, `add(newEpisode)`. The result has
   * exactly one entry for the pair, the new one, at the end; every other entry is kept
   * in its stored order.
   */
  method UpsertEpisode(existing: seq<EpisodeEntry>, showId: string, season: int, episode: int,
                       watchedAt: int) returns (updated: seq<EpisodeEntry>)
    ensures |updated| > 0
    ensures updated[|updated| - 1] == EpisodeEntry(showId, Some(season), Some(episode), watchedAt)
    ensures EntriesFor(updated, season, episode) == 1
    ensures Others(updated, season, episode) == Others(existing, season, episode)
    ensures |updated| == |existing| - EntriesFor(existing, season, episode) + 1
    ensures updated == Upserted(existing, showId, season, episode, watchedAt)
  {
    var kept: seq<EpisodeEntry> := [];
    var i := 0;
    while i < |existing|
      invariant 0 <= i <= |existing|
      invariant kept == Others(existing[..i], season, episode)
    {
      FilterSnoc(existing[..i], existing[i], IsOtherPair(season, episode));
      assert existing[..i + 1] == existing[..i] + [existing[i]];
      if !Matches(existing[i], season, episode) {
        kept := kept + [existing[i]];
      }
      i := i + 1;
    }
    assert existing[..i] == existing;
    var entry := EpisodeEntry(showId, Some(season), Some(episode), watchedAt);
    updated := kept + [entry];
    OthersHaveNoEntryFor(existing, season, episode);
    FilterSnoc(kept, entry, IsPair(season, episode));
    FilterSnoc(kept, entry, IsOtherPair(season, episode));
    FilterIdempotent(existing, IsOtherPair(season, episode));
    SplitCount(existing, season, episode);
  }

  /** Every entry is either for the pair or for another one. */
  lemma {:induction false} SplitCount(entries: seq<EpisodeEntry>, season: int, episode: int)
    ensures |Others(entries, season, episode)| + EntriesFor(entries, season, episode) == |entries|
  {
    if |entries| > 0 {
      var init := entries[..|entries| - 1];
      var last := entries[|entries| - 1];
      assert entries == init + [last];
      SplitCount(init, season, episode);
      FilterSnoc(init, last, IsOtherPair(season, episode));
      FilterSnoc(init, last, IsPair(season, episode));
    }
  }

  /** Saving the same episode twice leaves one entry, carrying the later timestamp. */
  lemma SaveTwiceKeepsLatest(existing: seq<EpisodeEntry>, showId: string, season: int, episode: int,
                             first: int, second: int)
    ensures Upserted(Upserted(existing, showId, season, episode, first), showId, season, episode, second)
            == Upserted(existing, showId, season, episode, second)
  {
    var kept := Others(existing, season, episode);
    var entry := EpisodeEntry(showId, Some(season), Some(episode), first);
    FilterSnoc(kept, entry, IsOtherPair(season, episode));
    FilterIdempotent(existing, IsOtherPair(season, episode));
  }

  /** No pair has two entries in the list. */
  predicate NoDuplicatePairs(entries: seq<EpisodeEntry>)
  {
    forall i, j :: 0 <= i < j < |entries| && entries[i].seasonNumber.Some? && entries[i].episodeNumber.Some?
      ==> !Matches(entries[j], entries[i].seasonNumber.value, entries[i].episodeNumber.value)
  }

  /** Removing one pair's entries cannot create a duplicate. */
  lemma {:induction false} OthersKeepNoDuplicates(entries: seq<EpisodeEntry>, season: int, episode: int)
    requires NoDuplicatePairs(entries)
    ensures NoDuplicatePairs(Others(entries, season, episode))
  {
    if |entries| > 0 {
      var head := entries[0];
      var tail := entries[1..];
      assert NoDuplicatePairs(tail) by {
        forall i, j | 0 <= i < j < |tail| && tail[i].seasonNumber.Some? && tail[i].episodeNumber.Some?
          ensures !Matches(tail[j], tail[i].seasonNumber.value, tail[i].episodeNumber.value)
        {
          assert tail[i] == entries[i + 1] && tail[j] == entries[j + 1];
        }
      }
      OthersKeepNoDuplicates(tail, season, episode);
      var rest := Others(tail, season, episode);
      if !Matches(head, season, episode) {
        var r := Others(entries, season, episode);
        assert r == [head] + rest;
        forall i, j | 0 <= i < j < |r| && r[i].seasonNumber.Some? && r[i].episodeNumber.Some?
          ensures !Matches(r[j], r[i].seasonNumber.value, r[i].episodeNumber.value)
        {
          assert r[j] == rest[j - 1] && rest[j - 1] in rest;
          if i == 0 {
            var b :| 0 <= b < |tail| && tail[b] == r[j];
            assert entries[b + 1] == r[j];
          } else {
            assert r[i] == rest[i - 1];
          }
        }
      }
    }
  }

  /** A list the app only ever writes through `saveWatchProgress` keeps one entry per pair. */
  lemma UpsertKeepsNoDuplicates(existing: seq<EpisodeEntry>, showId: string, season: int, episode: int,
                                watchedAt: int)
    requires NoDuplicatePairs(existing)
    ensures NoDuplicatePairs(Upserted(existing, showId, season, episode, watchedAt))
  {
    var kept := Others(existing, season, episode);
    var r := Upserted(existing, showId, season, episode, watchedAt);
    OthersKeepNoDuplicates(existing, season, episode);
    forall i, j | 0 <= i < j < |r| && r[i].seasonNumber.Some? && r[i].episodeNumber.Some?
      ensures !Matches(r[j], r[i].seasonNumber.value, r[i].episodeNumber.value)
    {
      assert r[i] == kept[i] && kept[i] in kept;
      if j < |kept| {
        assert r[j] == kept[j];
      }
    }
  }
}
