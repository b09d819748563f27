# KeepUp core, modelled in Dafny

KeepUp is an Android app for keeping track of movies and TV series. It searches a movie
catalog (TMDB), merges catalog details into the user's tracked shows, builds an
"updates" feed of upcoming episodes, and keeps per-user data in a document store:
the tracked list, reviews and their helpful votes, per-show review summaries, and
watch progress. This project models the app's core in Dafny and proves properties of
that model:

- `models.dfy` (`Models`): the domain records, their defaults and their computed getters
  (image URLs, display names, `nextAirDate`, `isInTheaters`).
- `tmdb_dtos.dfy` (`TmdbDtos`): the catalog's decoded responses, one datatype per DTO.
- `show_repository.dfy` (`ShowRepository`): `ShowRepository`'s search-hit classification,
  detail merge, updates feed and season episode listing. All of these are pure functions.
  Each catalog call is a function parameter; `None` means the call threw.
- `stable_sort.dfy` (`StableSort`): the stable `sortedBy` with null keys first, used by the feed.
- `firestore.dfy` (`Firestore`): `FirestoreManager` as a class. Each collection it reads or
  writes is a field, and each suspend function is a method on it.
- `helpful_votes.dfy` (`HelpfulVotes`): the vote transaction's counter arithmetic, with
  32-bit `Int` wrap-around. Also the tally invariant that relates the counters to the
  vote records.
- `watch_progress.dfy` (`WatchProgressMerge`): the episode-list update of `saveWatchProgress`.
- `review_summary.dfy` (`ReviewAggregation`): the average, count and histogram of `updateReviewSummary`.
- `view_model.dfy` (`ViewModel`): `AppViewModel` as a class over its screen state. It holds a
  reference to the `FirestoreManager` it syncs with.
- `star_rating.dfy` (`StarRating`): the star display and star selector arithmetic.
- `kotlin_std.dfy` (`KotlinStd`) and `wrappers.dfy` (`Wrappers`): the Kotlin library functions
  the core relies on (`take`, `joinToString`, `filter`, `mapNotNull`, `trim`,
  `substringAfter`, `toString`), and the `Option`/`Result` types.

How the model treats each kind of input:

- **Kotlin types.** Kotlin `null` is `None`. `Float` is `real`. `Int` is `int`, with 32-bit
  wrap-around written out where the source does `Int` arithmetic. `String` is `seq<char>`.
- **Clock, date parsing and rating formatting.** Clock readings (`System.currentTimeMillis()`)
  are parameters. `LocalDate.parse` is a parameter `parse` from a string to an optional day
  number. `String.format("%.1f", ...)` is a parameter `formatRating`.
- **Document store and session.** Store calls succeed, except where the source's own
  logic fails: no signed-in user, or a transaction that updates a missing review. The
  signed-in user is `FirestoreManager.currentUserId`.
- **Coroutines.** The coroutines `AppViewModel` launches run to completion inside the method
  that launches them.

Behaviour of the code worth knowing:

- **Detail merge.** The merge overwrites seed fields with the catalog's values even when
  those values are null. So a detail without an overview clears a stored plot
  (`ShowRepository.MergeClearsMissingPlot`).
- **Feed sort.** The feed sorts shows whose date is missing or does not parse *first*, not
  last (`sortedBy` orders nulls first).
- **Feed sort key.** The feed's sort key is a series' stored `nextEpisodeAirDate` when it has
  one. It is not the date in the fresh "Next Episode" summary
  (`ShowRepository.FeedKeyPrefersStoredDate`).
- **Review submission.** `submitReview` has no sign-in check. It writes the review's own
  helpful counters, so re-submitting a review resets its counters.
- **Vote on a missing review.** A vote on a review that does not exist fails: the
  transaction's `update` of a missing document fails, and nothing is written.
- **Last watched.** `lastWatchedSeason`/`lastWatchedEpisode` record the latest save, not the
  furthest episode (`Firestore.LastWatchedFollowsLatestSave`).
- **In theaters.** `isInTheaters` is true for every movie with a theatrical release date; the
  90-day window in its comment is not implemented.
- **Summary map keys (unchecked).** `ReviewSummary.ratingDistribution` is a `Map<Int, Int>`
  (data/Models.kt:114). The store's object mapper is understood to reject maps whose keys
  are not strings, so `updateReviewSummary`'s `set(summary)` may fail at run time. Its failure
  would be swallowed by the `catch` of firestore/FirestoreManager.kt:212-248, and no summary
  would then be stored. The model treats store writes as succeeding, so it always stores the
  summary.

## Model

| member | source | states |
|---|---|---|
| Models.ShowTypeDisplayName | androidApp/app/src/main/java/com/keepup/android/data/Models.kt:13-19 | every show type has a non-empty display name |
| Models.ShowTypeDisplayNamesDistinct | androidApp/app/src/main/java/com/keepup/android/data/Models.kt:13-19 | no two show types share a display name |
| Models.ImageUrl | androidApp/app/src/main/java/com/keepup/android/data/Models.kt:28-29 | an image URL is null exactly when the path is null; otherwise it is the CDN base, then the size bucket, then the path |
| Models.ImageUrlInjective | androidApp/app/src/main/java/com/keepup/android/data/Models.kt:28-29 | within one size bucket, equal URLs come from equal paths |
| Models.LogoUrl | androidApp/app/src/main/java/com/keepup/android/data/Models.kt:28-29 | provider logos are image URLs in the "original" size |
| Models.ProfileUrl | androidApp/app/src/main/java/com/keepup/android/data/Models.kt:46-47 | cast profile pictures are image URLs in the w185 size |
| Models.SeasonPosterUrl | androidApp/app/src/main/java/com/keepup/android/data/Models.kt:127-128 | season posters are image URLs in the w300 size |
| Models.StillUrl | androidApp/app/src/main/java/com/keepup/android/data/Models.kt:143-144 | episode stills are image URLs in the w300 size |
| Models.NewWatchProgress | androidApp/app/src/main/java/com/keepup/android/data/Models.kt:59-65 | a new progress record has no watched episodes, no last-watched pointer, and the clock's time |
| Models.ReviewTagDisplayName | androidApp/app/src/main/java/com/keepup/android/data/Models.kt:79-90 | every review tag has a non-empty display name |
| Models.ReviewTagDisplayNamesDistinct | androidApp/app/src/main/java/com/keepup/android/data/Models.kt:79-90 | no two review tags share a display name |
| Models.NewReview | androidApp/app/src/main/java/com/keepup/android/data/Models.kt:94-107 | a new review keeps its given fields and has no tags, no spoiler flag, zero counters and no caller vote |
| Models.NewShow | androidApp/app/src/main/java/com/keepup/android/data/Models.kt:148-176 | a show built from id, title, year and type has every optional field null |
| Models.NextAirDate | androidApp/app/src/main/java/com/keepup/android/data/Models.kt:178-179 | null exactly when there is neither a next-episode date nor a summary; the stored date wins; otherwise the summary after its first "on ", or the whole summary when it has none |
| Models.IsInTheaters | androidApp/app/src/main/java/com/keepup/android/data/Models.kt:181-186 | true exactly for a movie with a theatrical release date |
| ShowRepository.Classify | androidApp/app/src/main/java/com/keepup/android/data/ShowRepository.kt:73-77 | "tv" is a series and "movie" a movie; other media types are dropped; with no media type, a hit with a title is a movie and one without is dropped |
| ShowRepository.SearchYear | androidApp/app/src/main/java/com/keepup/android/data/ShowRepository.kt:80 | at most four characters: of the release date, else of the first air date, else empty |
| ShowRepository.SearchTitle | androidApp/app/src/main/java/com/keepup/android/data/ShowRepository.kt:83 | the title, else the name, else empty |
| ShowRepository.PosterUrl | androidApp/app/src/main/java/com/keepup/android/data/ShowRepository.kt:86 | posters use the w500 size |
| ShowRepository.BackdropUrl | androidApp/app/src/main/java/com/keepup/android/data/ShowRepository.kt:87 | backdrops use the w780 size |
| ShowRepository.ResultToShow | androidApp/app/src/main/java/com/keepup/android/data/ShowRepository.kt:72-89 | a hit becomes a show exactly when it classifies; the show is the one built from the hit's id, title, year and type with its w500 poster and w780 backdrop, every other field null |
| ShowRepository.Search | androidApp/app/src/main/java/com/keepup/android/data/ShowRepository.kt:69-91 | a blank query gives nothing; otherwise one show per movie or series hit, in the service's order |
| ShowRepository.SearchOnlyMoviesAndSeries | androidApp/app/src/main/java/com/keepup/android/data/ShowRepository.kt:72-89 | no search result is an episode or "other" |
| ShowRepository.TrailerKey | androidApp/app/src/main/java/com/keepup/android/data/ShowRepository.kt:122-124 | the key of the first official YouTube trailer; null only when there is none |
| ShowRepository.TrailerSkipsTeaser | androidApp/app/src/main/java/com/keepup/android/data/ShowRepository.kt:122-124 | a teaser listed before the trailer is not chosen |
| ShowRepository.Director | androidApp/app/src/main/java/com/keepup/android/data/ShowRepository.kt:121 | the name of the first crew member whose job is "Director"; null only when there is none |
| ShowRepository.Actors | androidApp/app/src/main/java/com/keepup/android/data/ShowRepository.kt:120 | the first five cast names joined with ", "; null exactly when there is no cast list |
| ShowRepository.CastMembers | androidApp/app/src/main/java/com/keepup/android/data/ShowRepository.kt:125-133 | the first twenty cast entries, in order, converted one for one |
| ShowRepository.Providers | androidApp/app/src/main/java/com/keepup/android/data/ShowRepository.kt:134-140 | the US flatrate providers, in order, converted one for one; null when any level is missing |
| ShowRepository.Genres | androidApp/app/src/main/java/com/keepup/android/data/ShowRepository.kt:147 | the genre names joined with ", ", null exactly when the list is missing |
| ShowRepository.Creators | androidApp/app/src/main/java/com/keepup/android/data/ShowRepository.kt:162 | the creators' names joined with ", ", null exactly when the list is missing |
| ShowRepository.RuntimeText | androidApp/app/src/main/java/com/keepup/android/data/ShowRepository.kt:146 | the minutes followed by " min", null exactly when there are no minutes |
| ShowRepository.FirstRuntime | androidApp/app/src/main/java/com/keepup/android/data/ShowRepository.kt:198 | the first episode run time, null when the list is missing or empty |
| ShowRepository.SeasonInfos | androidApp/app/src/main/java/com/keepup/android/data/ShowRepository.kt:182-192 | the seasons converted one for one, in order |
| ShowRepository.EpisodeAirDate | androidApp/app/src/main/java/com/keepup/android/data/ShowRepository.kt:209-210 | the episode's air date, null when there is no episode |
| ShowRepository.MergedYear | androidApp/app/src/main/java/com/keepup/android/data/ShowRepository.kt:145 | the first four characters of the detail date, else the seed's year |
| ShowRepository.NextEpisodeSummary | androidApp/app/src/main/java/com/keepup/android/data/ShowRepository.kt:107-108 | "Next Episode: S", then the season number (0 when missing), "E" and the episode number (0 when missing), then " on " and the air date, or "TBD" |
| ShowRepository.PrefixHasOneO | androidApp/app/src/main/java/com/keepup/android/data/ShowRepository.kt:107-108 | the only 'o' in "Next Episode: S..E.." is the one in "Episode" |
| ShowRepository.NoMarkerAt | androidApp/app/src/main/java/com/keepup/android/data/ShowRepository.kt:107-108 | "on " cannot start where the text has no "on" |
| ShowRepository.SummaryAirDate | androidApp/app/src/main/java/com/keepup/android/data/ShowRepository.kt:107-108 | reading a summary back with substringAfter("on ") gives its air date, or "TBD" |
| ShowRepository.MovieToShow | androidApp/app/src/main/java/com/keepup/android/data/ShowRepository.kt:119-158 | the movie merge keeps the seed's identity, series fields and AI fields, and takes title, plot, year, runtime, genre, cast, director, trailer, providers, images and release date from the detail |
| ShowRepository.TvToShow | androidApp/app/src/main/java/com/keepup/android/data/ShowRepository.kt:160-220 | the series merge keeps the seed's identity and release date, and takes title, plot, year, runtime of the first episode run time, genre, creators, cast, trailer, providers, images, status, air dates, counts, seasons and the next-episode summary from the detail |
| ShowRepository.TvNextAirDate | androidApp/app/src/main/java/com/keepup/android/data/ShowRepository.kt:194-219 | after a series merge, nextAirDate is the next episode's date, "TBD" when it is announced without one, and null when none is announced |
| ShowRepository.MergeClearsMissingPlot | androidApp/app/src/main/java/com/keepup/android/data/ShowRepository.kt:142-144 | a detail without an overview clears the seed's plot |
| ShowRepository.FetchDetails | androidApp/app/src/main/java/com/keepup/android/data/ShowRepository.kt:93-101 | movies and series are the movie or series merge of their detail, and fail exactly when their detail call fails; episodes and "other" are returned untouched |
| ShowRepository.UpdateEntry | androidApp/app/src/main/java/com/keepup/android/data/ShowRepository.kt:104-111 | a tracked series enters the feed exactly when its detail call succeeds and announces a next episode; it then carries the fresh summary |
| ShowRepository.FeedEntries | androidApp/app/src/main/java/com/keepup/android/data/ShowRepository.kt:104-111 | the unsorted feed holds one entry per tracked series whose detail announces a next episode, in tracked order |
| ShowRepository.DateKey | androidApp/app/src/main/java/com/keepup/android/data/ShowRepository.kt:112-116 | the sort key is the parsed nextAirDate, null when there is none or it does not parse |
| ShowRepository.FetchUpdates | androidApp/app/src/main/java/com/keepup/android/data/ShowRepository.kt:103-117 | the feed is a permutation of the entries, sorted by parsed next air date with nulls first, and stable within each date |
| ShowRepository.FeedKeyPrefersStoredDate | androidApp/app/src/main/java/com/keepup/android/data/ShowRepository.kt:112-116 | a stored next-episode date, not the fresh summary, is the feed's sort key |
| ShowRepository.FeedEntryNextAirDate | androidApp/app/src/main/java/com/keepup/android/data/ShowRepository.kt:106-109 | without a stored date, a feed entry's nextAirDate is the fresh air date, or "TBD" |
| ShowRepository.FetchSeasonDetails | androidApp/app/src/main/java/com/keepup/android/data/ShowRepository.kt:222-242 | one episode per listed episode, in order, with missing numbers and names defaulted and every other field, vote average included, copied; no episodes when the call fails or there is no list |
| StableSort.SortBy | androidApp/app/src/main/java/com/keepup/android/data/ShowRepository.kt:112-116 | sorting keeps the length |
| StableSort.SortByCorrect | androidApp/app/src/main/java/com/keepup/android/data/ShowRepository.kt:112-116 | the sorted list is ordered by key with nulls first, is a permutation of the input, and keeps the input order among equal keys |
| KotlinStd.Take | androidApp/app/src/main/java/com/keepup/android/data/ShowRepository.kt:80 | take(n) is the first n elements, or all when there are fewer |
| KotlinStd.Join | androidApp/app/src/main/java/com/keepup/android/data/ShowRepository.kt:120 | joinToString() is empty for no parts; otherwise it starts with the first part and is as long as the parts plus one ", " between each two |
| KotlinStd.JoinSnoc | androidApp/app/src/main/java/com/keepup/android/data/ShowRepository.kt:120 | joining one more part appends ", " and that part |
| KotlinStd.FirstIndex | androidApp/app/src/main/java/com/keepup/android/data/ShowRepository.kt:121-124 | firstOrNull picks the first element satisfying the predicate, or none |
| KotlinStd.Filter | androidApp/app/src/main/java/com/keepup/android/data/ShowRepository.kt:104 | filter keeps exactly the elements satisfying the predicate, never more than the input |
| KotlinStd.MapNotNull | androidApp/app/src/main/java/com/keepup/android/data/ShowRepository.kt:72-90 | mapNotNull gives one non-null image per argument on which the function is not null, in order |
| KotlinStd.Map | androidApp/app/src/main/java/com/keepup/android/data/ShowRepository.kt:125-133 | map converts each element in place |
| KotlinStd.SubstringAfter | androidApp/app/src/main/java/com/keepup/android/data/Models.kt:179 | substringAfter is the text after the first occurrence, or the whole string when there is none |
| KotlinStd.IntToString | androidApp/app/src/main/java/com/keepup/android/data/ShowRepository.kt:82 | toString() starts with a minus sign exactly for a negative number, is otherwise decimal digits, and reads back as the number |
| KotlinStd.NatToString | androidApp/app/src/main/java/com/keepup/android/data/ShowRepository.kt:82 | the decimal digits of a non-negative number, which read back as the number |
| KotlinStd.IntToStringInjective | androidApp/app/src/main/java/com/keepup/android/data/ShowRepository.kt:82 | distinct numbers have distinct texts, so distinct catalog ids give distinct show ids |
| KotlinStd.IsWhitespace | androidApp/app/src/main/java/com/keepup/android/ui/AppViewModel.kt:96 | the characters trim() drops |
| KotlinStd.IsBlank | androidApp/app/src/main/java/com/keepup/android/data/ShowRepository.kt:70 | isBlank() holds when every character is whitespace |
| KotlinStd.TrimStartIndex | androidApp/app/src/main/java/com/keepup/android/ui/AppViewModel.kt:96 | trim()'s start index skips only whitespace and stops at the first non-whitespace character |
| KotlinStd.Trim | androidApp/app/src/main/java/com/keepup/android/ui/AppViewModel.kt:96 | trim() is no longer than its input and, when not empty, neither starts nor ends with whitespace; TrimIsSlice states where it lies in the input |
| KotlinStd.TrimEndIndex | androidApp/app/src/main/java/com/keepup/android/ui/AppViewModel.kt:96 | trim()'s end index skips only whitespace backwards, never past the start, and stops after the last non-whitespace character |
| KotlinStd.TrimIsSlice | androidApp/app/src/main/java/com/keepup/android/ui/AppViewModel.kt:96 | trim() keeps the text between its leading and trailing whitespace: everything before and after what it leaves is whitespace, and what it leaves neither starts nor ends with whitespace |
| KotlinStd.TrimEmptyIffBlank | androidApp/app/src/main/java/com/keepup/android/ui/AppViewModel.kt:96-97 | the trimmed text is empty exactly when the text is blank |
| KotlinStd.TrimmedNotBlank | androidApp/app/src/main/java/com/keepup/android/ui/AppViewModel.kt:96-97 | a non-empty trimmed text is not blank |
| Firestore.FindDoc | androidApp/app/src/main/java/com/keepup/android/firestore/FirestoreManager.kt:141 | the position of the document with the id, or none when no document has it |
| Firestore.PutDoc | androidApp/app/src/main/java/com/keepup/android/firestore/FirestoreManager.kt:73-76 | set(review) adds the document or replaces the one with its id; ids stay unique and no other document changes |
| Firestore.RatingsOf | androidApp/app/src/main/java/com/keepup/android/firestore/FirestoreManager.kt:214-225 | one rating per review of the show, in the collection's order, and none from other shows |
| Firestore.CountersOf | androidApp/app/src/main/java/com/keepup/android/firestore/FirestoreManager.kt:148-149 | a missing counter reads as 0; the counters read are 32-bit values |
| Firestore.VoteApplied | androidApp/app/src/main/java/com/keepup/android/firestore/FirestoreManager.kt:153-168 | the review after a vote carries both counters, as the transaction computes them |
| Firestore.ReplaceKeepsIds | androidApp/app/src/main/java/com/keepup/android/firestore/FirestoreManager.kt:165-168 | updating a review in place keeps ids unique and the review findable |
| Firestore.SavedProgress | androidApp/app/src/main/java/com/keepup/android/firestore/FirestoreManager.kt:264-285 | the written progress points at the saved episode, has the clock's time, and holds the merged episode list |
| Firestore.LastWatchedFollowsLatestSave | androidApp/app/src/main/java/com/keepup/android/firestore/FirestoreManager.kt:279-284 | after saving S1E3 then S1E2 the pointer is S1E2, and each episode has exactly one entry |
| Firestore.PairSurvivesOtherRemoval | androidApp/app/src/main/java/com/keepup/android/firestore/FirestoreManager.kt:272-276 | removing one episode's entries keeps the entries of every other episode |
| Firestore.FirestoreManager.constructor | androidApp/app/src/main/java/com/keepup/android/firestore/FirestoreManager.kt:21-22 | an empty store seen by the given user |
| Firestore.FirestoreManager.CountersMatchVotes | androidApp/app/src/main/java/com/keepup/android/firestore/FirestoreManager.kt:148-171 | the invariant VoteOnReview keeps: a review's counters equal the tally of its vote records |
| Firestore.FirestoreManager.SyncTrackedShows | androidApp/app/src/main/java/com/keepup/android/firestore/FirestoreManager.kt:27-45 | fails with "Not signed in" without a user; otherwise overwrites exactly that user's tracked document with the shows' ids and the time |
| Firestore.FirestoreManager.GetTrackedShows | androidApp/app/src/main/java/com/keepup/android/firestore/FirestoreManager.kt:50-66 | fails without a user; otherwise the user's synced ids, or none when the document is missing |
| Firestore.FirestoreManager.SubmitReview | androidApp/app/src/main/java/com/keepup/android/firestore/FirestoreManager.kt:71-85 | writes the whole review and recomputes its show's summary, which then exists; nothing else changes |
| Firestore.FirestoreManager.UpdateReviewSummary | androidApp/app/src/main/java/com/keepup/android/firestore/FirestoreManager.kt:212-248 | writes the summary of the show's reviews, and nothing when the show has none |
| Firestore.FirestoreManager.GetReviewSummary | androidApp/app/src/main/java/com/keepup/android/firestore/FirestoreManager.kt:121-133 | the stored summary, or null when none was written |
| Firestore.FirestoreManager.VoteOnReview | androidApp/app/src/main/java/com/keepup/android/firestore/FirestoreManager.kt:138-178 | fails without a user, or for a missing review, writing nothing; otherwise updates exactly that review's counters and the caller's vote record; keeps counters equal to the tally of vote records |
| Firestore.FirestoreManager.RecordVote | androidApp/app/src/main/java/com/keepup/android/firestore/FirestoreManager.kt:145-171 | the transaction's writes: exactly that review's counters and the caller's vote record change, ids stay unique, and counters that matched the tally still match it |
| Firestore.FirestoreManager.CountVote | androidApp/app/src/main/java/com/keepup/android/firestore/FirestoreManager.kt:148-168 | the review document the transaction writes back is the vote applied to its stored counters |
| Firestore.FirestoreManager.SaveWatchProgress | androidApp/app/src/main/java/com/keepup/android/firestore/FirestoreManager.kt:253-291 | fails without a user; otherwise replaces exactly the user's progress document for the show with the merged one |
| Firestore.FirestoreManager.GetWatchProgress | androidApp/app/src/main/java/com/keepup/android/firestore/FirestoreManager.kt:296-310 | fails without a user; otherwise the stored document, or null |
| HelpfulVotes.WrapInt | androidApp/app/src/main/java/com/keepup/android/firestore/FirestoreManager.kt:148-162 | two's-complement 32-bit wrap-around: in range, identity on 32-bit values, congruent modulo 2^32 |
| HelpfulVotes.ReadCounter | androidApp/app/src/main/java/com/keepup/android/firestore/FirestoreManager.kt:148-149 | a missing counter reads as 0; a 32-bit counter reads as itself |
| HelpfulVotes.CountsAfterVote | androidApp/app/src/main/java/com/keepup/android/firestore/FirestoreManager.kt:153-162 | 32-bit counters stay 32-bit after a vote |
| HelpfulVotes.TransactionCounts | androidApp/app/src/main/java/com/keepup/android/firestore/FirestoreManager.kt:153-162 | the step-by-step update equals the vote's effect; a repeated vote changes nothing; a first vote adds one to its side |
| HelpfulVotes.FirstVoteAddsOne | androidApp/app/src/main/java/com/keepup/android/firestore/FirestoreManager.kt:162 | a first vote adds one to the chosen counter and leaves the other alone |
| HelpfulVotes.WrapStepBack | androidApp/app/src/main/java/com/keepup/android/firestore/FirestoreManager.kt:158-162 | a decrement then an increment give the value back, even across the wrap |
| HelpfulVotes.RepeatedVoteIsIdempotent | androidApp/app/src/main/java/com/keepup/android/firestore/FirestoreManager.kt:156-162 | casting the same vote again changes neither counter |
| HelpfulVotes.SwitchedVoteMovesOne | androidApp/app/src/main/java/com/keepup/android/firestore/FirestoreManager.kt:156-162 | switching a vote moves exactly one count from the old side to the new side |
| HelpfulVotes.Voters | androidApp/app/src/main/java/com/keepup/android/firestore/FirestoreManager.kt:171 | the users whose vote record has the given value |
| HelpfulVotes.VotersAfterRecord | androidApp/app/src/main/java/com/keepup/android/firestore/FirestoreManager.kt:171 | recording a user's vote moves only that user between voter sets |
| HelpfulVotes.VotersAround | androidApp/app/src/main/java/com/keepup/android/firestore/FirestoreManager.kt:171 | a voter set splits into the user and everyone else |
| HelpfulVotes.CountAfterRecord | androidApp/app/src/main/java/com/keepup/android/firestore/FirestoreManager.kt:171 | recording a vote changes each tally by at most one, in the expected direction |
| HelpfulVotes.TallyCoversVotes | androidApp/app/src/main/java/com/keepup/android/firestore/FirestoreManager.kt:171 | the two tallies add up to the number of vote records |
| HelpfulVotes.VoterCounted | androidApp/app/src/main/java/com/keepup/android/firestore/FirestoreManager.kt:150 | a user's previous vote is counted in its tally |
| HelpfulVotes.VoteKeepsTally | androidApp/app/src/main/java/com/keepup/android/firestore/FirestoreManager.kt:148-171 | counters that equal the tally of the vote records still do after the vote |
| HelpfulVotes.TalliedCountersNonNegative | androidApp/app/src/main/java/com/keepup/android/firestore/FirestoreManager.kt:148-171 | counters that equal a tally are never negative |
| WatchProgressMerge.OthersHaveNoEntryFor | androidApp/app/src/main/java/com/keepup/android/firestore/FirestoreManager.kt:272-276 | removeAll leaves no entry for the episode |
| WatchProgressMerge.UpsertEpisode | androidApp/app/src/main/java/com/keepup/android/firestore/FirestoreManager.kt:271-277 | the list ends with the new entry, has exactly one entry for the episode, and keeps every other entry in order |
| WatchProgressMerge.SplitCount | androidApp/app/src/main/java/com/keepup/android/firestore/FirestoreManager.kt:271-277 | each entry is either for the episode or for another one |
| WatchProgressMerge.SaveTwiceKeepsLatest | androidApp/app/src/main/java/com/keepup/android/firestore/FirestoreManager.kt:271-277 | saving an episode twice is saving it once with the later time |
| WatchProgressMerge.OthersKeepNoDuplicates | androidApp/app/src/main/java/com/keepup/android/firestore/FirestoreManager.kt:272-276 | removing entries cannot create a duplicate |
| WatchProgressMerge.UpsertKeepsNoDuplicates | androidApp/app/src/main/java/com/keepup/android/firestore/FirestoreManager.kt:271-277 | a list with one entry per episode keeps that property after a save |
| ReviewAggregation.Truncate | androidApp/app/src/main/java/com/keepup/android/firestore/FirestoreManager.kt:230 | Float.toInt rounds toward zero |
| ReviewAggregation.Histogram | androidApp/app/src/main/java/com/keepup/android/firestore/FirestoreManager.kt:229-231 | one key per truncated rating, mapped to the number of ratings that truncate to it |
| ReviewAggregation.CountKeyPositive | androidApp/app/src/main/java/com/keepup/android/firestore/FirestoreManager.kt:229-231 | a key is counted exactly when some rating truncates to it |
| ReviewAggregation.PickKey | androidApp/app/src/main/java/com/keepup/android/firestore/FirestoreManager.kt:229-231 | any key of a non-empty distribution |
| ReviewAggregation.NonEmptyHasKey | androidApp/app/src/main/java/com/keepup/android/firestore/FirestoreManager.kt:229-231 | a non-empty distribution has a key |
| ReviewAggregation.SumValuesRemove | androidApp/app/src/main/java/com/keepup/android/firestore/FirestoreManager.kt:229-231 | a distribution's total can be taken key by key in any order |
| ReviewAggregation.SumValuesBump | androidApp/app/src/main/java/com/keepup/android/firestore/FirestoreManager.kt:229-231 | counting one more rating raises the total by one |
| ReviewAggregation.HistogramTotal | androidApp/app/src/main/java/com/keepup/android/firestore/FirestoreManager.kt:226-231 | the distribution's counts add up to the number of reviews |
| ReviewAggregation.Summarize | androidApp/app/src/main/java/com/keepup/android/firestore/FirestoreManager.kt:223-238 | no summary exactly when there are no reviews; otherwise the show, the count, the mean rating and the histogram |
| ReviewAggregation.SummaryCountsAddUp | androidApp/app/src/main/java/com/keepup/android/firestore/FirestoreManager.kt:226-231 | the distribution's counts add up to totalReviews |
| ReviewAggregation.SummaryHasEveryRating | androidApp/app/src/main/java/com/keepup/android/firestore/FirestoreManager.kt:229-231 | every review's truncated rating is a distribution key |
| ReviewAggregation.SumBounds | androidApp/app/src/main/java/com/keepup/android/firestore/FirestoreManager.kt:225 | ratings in 0..5 sum to between 0 and 5 per review |
| ReviewAggregation.MeanBounds | androidApp/app/src/main/java/com/keepup/android/firestore/FirestoreManager.kt:225 | a total within 0..5 per review gives a mean within 0..5 |
| ReviewAggregation.SummaryInRange | androidApp/app/src/main/java/com/keepup/android/firestore/FirestoreManager.kt:225-231 | with ratings in 0..5, the average and every distribution key lie in 0..5 |
| ViewModel.ToggleAppendsUntracked | androidApp/app/src/main/java/com/keepup/android/ui/AppViewModel.kt:121-123 | toggling an untracked show appends it and changes nothing else |
| ViewModel.ToggleRemovesTracked | androidApp/app/src/main/java/com/keepup/android/ui/AppViewModel.kt:121-123 | toggling a tracked show removes every entry with its id and keeps the others in order |
| ViewModel.StrictlyShorter | androidApp/app/src/main/java/com/keepup/android/ui/AppViewModel.kt:122 | removing a present id shortens the list |
| ViewModel.ToggleFlipsTracked | androidApp/app/src/main/java/com/keepup/android/ui/AppViewModel.kt:121-123 | a toggle flips isTracked |
| ViewModel.ToggleTwiceRestores | androidApp/app/src/main/java/com/keepup/android/ui/AppViewModel.kt:121-123 | toggling an untracked show twice gives back the original list |
| ViewModel.Toggled | androidApp/app/src/main/java/com/keepup/android/ui/AppViewModel.kt:121-123 | the list toggleTracked saves: without the show's id if tracked, else with the show appended |
| ViewModel.IssuedQuery | androidApp/app/src/main/java/com/keepup/android/ui/AppViewModel.kt:96-100 | no query exactly for a blank text; otherwise the trimmed text, which is not blank |
| ViewModel.AfterSearch | androidApp/app/src/main/java/com/keepup/android/ui/AppViewModel.kt:95-110 | only the results, the searching flag and the error change; a blank text clears the results; otherwise the hits or the failure's message are shown and searching has ended |
| ViewModel.AfterIssuedSearch | androidApp/app/src/main/java/com/keepup/android/ui/AppViewModel.kt:95-110 | once a query is issued, the screen shows its hits and no error, or the failure's message, and searching has ended |
| ViewModel.ToggledList | androidApp/app/src/main/java/com/keepup/android/ui/AppViewModel.kt:121-123 | the mutable-list steps build the toggled list, and flip isTracked |
| ViewModel.AppViewModel.constructor | androidApp/app/src/main/java/com/keepup/android/ui/AppViewModel.kt:35-70 | the initial screen state: the saved list, no results, series search type, empty text, no selection, the "updates" tab |
| ViewModel.AppViewModel.IsTracked | androidApp/app/src/main/java/com/keepup/android/ui/AppViewModel.kt:133 | some tracked show has the show's id |
| ViewModel.AppViewModel.ToggleTracked | androidApp/app/src/main/java/com/keepup/android/ui/AppViewModel.kt:119-131 | saves the toggled list, flips isTracked, syncs the new ids exactly when signed in; no other screen field or store document changes |
| ViewModel.AppViewModel.PerformSearch | androidApp/app/src/main/java/com/keepup/android/ui/AppViewModel.kt:95-110 | issues the trimmed text unless it is blank, and leaves the screen as AfterSearch describes |
| ViewModel.AppViewModel.RunSearch | androidApp/app/src/main/java/com/keepup/android/ui/AppViewModel.kt:102-109 | the search coroutine: the hits and no error on success, the previous results and the failure's message otherwise, and searching has ended; nothing else changes |
| ViewModel.AppViewModel.ClearSearch | androidApp/app/src/main/java/com/keepup/android/ui/AppViewModel.kt:112-116 | empties text, results and error; nothing else changes |
| ViewModel.AppViewModel.ClearSelection | androidApp/app/src/main/java/com/keepup/android/ui/AppViewModel.kt:159-163 | no selected show, reviews or summary; nothing else changes |
| ViewModel.AppViewModel.SignOut | androidApp/app/src/main/java/com/keepup/android/ui/AppViewModel.kt:86-92 | the user is signed out and the saved tracked list is emptied; cloud documents and the rest of the screen are kept |
| ViewModel.AppViewModel.RefreshUpdates | androidApp/app/src/main/java/com/keepup/android/ui/AppViewModel.kt:144-150 | the feed of the tracked shows is shown and loading has ended; nothing else changes |
| ViewModel.AppViewModel.SelectShow | androidApp/app/src/main/java/com/keepup/android/ui/AppViewModel.kt:153-170 | the show is selected, then replaced by its merged details when they load; the stored summary is loaded; nothing else changes |
| ViewModel.AppViewModel.SelectTab | androidApp/app/src/main/java/com/keepup/android/ui/AppViewModel.kt:218-220 | only the selected tab changes |
| ViewModel.AppViewModel.SetDiscoverSearchFocus | androidApp/app/src/main/java/com/keepup/android/ui/AppViewModel.kt:222-228 | only the search-focus request changes |
| StarRating.StarCounts | androidApp/app/src/main/java/com/keepup/android/ui/components/StarRatingView.kt:32-34 | full stars are the rating's floor; the half star appears exactly for a fraction in [0.25, 0.75); the three counts total five |
| StarRating.CountsInRange | androidApp/app/src/main/java/com/keepup/android/ui/components/StarRatingView.kt:32-34 | for a rating in 0..5 no count is negative |
| StarRating.HighFractionNotRoundedUp | androidApp/app/src/main/java/com/keepup/android/ui/components/StarRatingView.kt:33 | 4.8 shows four full stars, no half star and one empty star |
| StarRating.Repeat | androidApp/app/src/main/java/com/keepup/android/ui/components/StarRatingView.kt:38 | repeat(n) draws n icons, none for a negative n |
| StarRating.DisplayRow | androidApp/app/src/main/java/com/keepup/android/ui/components/StarRatingView.kt:36-66 | the full stars first, then the half star when there is one, then the empty stars |
| StarRating.DisplayRowHasFiveStars | androidApp/app/src/main/java/com/keepup/android/ui/components/StarRatingView.kt:36-66 | a rating in 0..5 is drawn as five stars, the full ones first |
| StarRating.SelectorRow | androidApp/app/src/main/java/com/keepup/android/ui/components/StarRatingView.kt:80-82 | star i is filled exactly when i <= rating |
| StarRating.Tap | androidApp/app/src/main/java/com/keepup/android/ui/components/StarRatingView.kt:89 | tapping star i sets the rating to exactly i |
| StarRating.TapFillsUpTo | androidApp/app/src/main/java/com/keepup/android/ui/components/StarRatingView.kt:82-89 | after tapping star i, stars 1..i are filled and the rest are not |
| StarRating.SelectorFilledCount | androidApp/app/src/main/java/com/keepup/android/ui/components/StarRatingView.kt:80-82 | the number of filled stars is the rating's floor, clamped to 0..5 |
| StarRating.PrefixCount | androidApp/app/src/main/java/com/keepup/android/ui/components/StarRatingView.kt:80-82 | a row filled up to n has n filled stars |

## Left out

- `FirestoreManager.getReviews`: a snapshot listener flow, which is concurrency. Its review list is not part of the store model.
- `AppViewModel.loadReviews`: only the summary part is modelled. The review list comes from `getReviews`, which is not modelled.
- `FirestoreManager.submitBugReport`: writes an independent document that nothing reads back.
- `AppViewModel`'s bug-report action: left out for the same reason.
- `AppViewModel`'s `submitReview`, `voteOnReview`, `toggleEpisodeWatched` and `loadSeasonEpisodes`: they forward to the store or the repository (modelled above) and hand the result to a UI callback, with no logic of their own.
- The `init` block's cloud sync: its result is discarded by the source (a TODO).
- `AuthManager`: the signed-in user is a field, and `isEmailVerified` is not modelled.
- `ShowRepository`'s DataStore persistence and JSON encoding: the persisted tracked list is `AppViewModel.tracked`.
- Retrofit, the network and Firestore's own failures: these are I/O. A store call either succeeds or the model states why it fails.
- Nullable exception messages: a failure's message is a `string`, never null.
- ReviewAggregation.Summarize: the mean is the exact rational mean. The source's `Double` average and its `toFloat()` rounding are floating point and are not modelled.
- ShowRepository.MovieToShow: the rating text is `formatRating` applied to the vote average. `String.format("%.1f")` is locale and floating-point formatting, so the model does not look inside it.
- ShowRepository.TvToShow: the rating text is left open in the same way.
- ShowRepository.FetchSeasonDetails: `voteAverage` is copied as a `real`; its `Double`-to-`Float` conversion is not modelled.
- ReviewAggregation.Truncate: `Float.toInt()` saturation at the 32-bit limits and NaN are not modelled. Ratings are app-bounded to 0..5.
- HelpfulVotes.CountsAfterVote: it only states that 32-bit counters stay 32-bit. The arithmetic itself, wrap-around included, is pinned down by `HelpfulVotes.TransactionCounts` and the lemmas beside it.
- Firestore.FirestoreManager.VoteOnReview: it keeps the counters equal to the vote tally only while fewer than 2^31 - 1 users have voted on the review. Beyond that the source's `Int` counters wrap.
- Firestore.FirestoreManager.VoteOnReview: the failure for a missing review carries a message of the model's own. The store's error code and text are not modelled.
- ViewModel.AppViewModel.PerformSearch: the intermediate `isSearching = true` while the search runs is not observable in the model, because the search completes inside the method.
- Firestore.FirestoreManager.GetWatchProgress: it returns the modelled document rather than an untyped `Map<String, Any>`.
- Firestore.FirestoreManager.UpdateReviewSummary: every review document is taken to decode. `mapNotNull { toObject }` dropping undecodable documents is not modelled.
- `isInTheaters`' 90-day release window: it exists only as a comment in the source, and the model follows the code.
