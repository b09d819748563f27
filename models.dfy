/**
 * The app's domain records (data/Models.kt): shows, cast, providers, reviews,
 * review summaries, seasons, episodes and watch progress, with their computed
 * getters. Every Kotlin `String?` is an `Option<string>`; `Float` ratings are `real`.
 */
module Models {
  import opened Wrappers
  import opened KotlinStd

  // ---------------------------------------------------------------- ShowType

  datatype ShowType = Movie | Series | Episode | Other

  /** `ShowType.displayName`. */
  function ShowTypeDisplayName(t: ShowType): (name: string)
    ensures |name| > 0
  {
    match t
    case Movie => "Movie"
    case Series => "TV Show"
    case Episode => "Episode"
    case Other => "Other"
  }

  /** No two show types share a display name. */
  lemma ShowTypeDisplayNamesDistinct(a: ShowType, b: ShowType)
    requires ShowTypeDisplayName(a) == ShowTypeDisplayName(b)
    ensures a == b
  {
  }

  // ---------------------------------------------------------------- image URLs

  /** The image CDN every URL builder prefixes. */
  const ImageBase: string := "https://image.tmdb.org/t/p/"

  /** `path?.let { "<base><size>$it" }`: null exactly when the path is null. */
  function ImageUrl(size: string, path: Option<string>): (url: Option<string>)
    ensures url.Some? <==> path.Some?
    ensures url.Some? ==> |url.value| == |ImageBase| + |size| + |path.value|
    ensures url.Some? ==> url.value[..|ImageBase|] == ImageBase
    ensures url.Some? ==> url.value[|ImageBase|..|ImageBase| + |size|] == size
    ensures url.Some? ==> url.value[|ImageBase| + |size|..] == path.value
  {
    match path
    case None => None
    case Some(p) => Some(ImageBase + size + p)
  }

  /** Two URLs built with the same size bucket are equal only for equal paths. */
  lemma ImageUrlInjective(size: string, p: Option<string>, q: Option<string>)
    requires ImageUrl(size, p) == ImageUrl(size, q)
    ensures p == q
  {
    if p.Some? {
      assert ImageUrl(size, p).value[|ImageBase| + |size|..] == p.value;
    }
  }

  datatype WatchProvider = WatchProvider(id: int, name: string, logoPath: Option<string>)

  /** `WatchProvider.logoUrl`: logos use the "original" size. */
  function LogoUrl(p: WatchProvider): (url: Option<string>)
    ensures url == ImageUrl("original", p.logoPath)
  {
    ImageUrl("original", p.logoPath)
  }

  datatype Source = Source(title: Option<string>, url: Option<string>)

  datatype CastMember = CastMember(id: int, name: string, character: Option<string>,
                                   profilePath: Option<string>, order: int)

  /** `CastMember.profileUrl`: profiles use the w185 size. */
  function ProfileUrl(c: CastMember): (url: Option<string>)
    ensures url == ImageUrl("w185", c.profilePath)
  {
    ImageUrl("w185", c.profilePath)
  }

  datatype SeasonInfo = SeasonInfo(id: int, seasonNumber: int, name: string, overview: Option<string>,
                                   posterPath: Option<string>, airDate: Option<string>, episodeCount: int)

  /** `SeasonInfo.posterUrl`: season posters use the w300 size. */
  function SeasonPosterUrl(s: SeasonInfo): (url: Option<string>)
    ensures url == ImageUrl("w300", s.posterPath)
  {
    ImageUrl("w300", s.posterPath)
  }

  datatype EpisodeInfo = EpisodeInfo(id: int, episodeNumber: int, seasonNumber: int, name: string,
                                     overview: Option<string>, stillPath: Option<string>,
                                     airDate: Option<string>, runtime: Option<int>,
                                     voteAverage: Option<real>)

  /** `EpisodeInfo.stillUrl`: episode stills use the w300 size. */
  function StillUrl(e: EpisodeInfo): (url: Option<string>)
    ensures url == ImageUrl("w300", e.stillPath)
  {
    ImageUrl("w300", e.stillPath)
  }

  // ---------------------------------------------------------------- watch progress

  datatype WatchedEpisode = WatchedEpisode(showId: string, seasonNumber: int, episodeNumber: int, watchedAt: int)

  datatype WatchProgress = WatchProgress(showId: string, watchedEpisodes: seq<WatchedEpisode>,
                                         lastWatchedSeason: Option<int>, lastWatchedEpisode: Option<int>,
                                         updatedAt: int)

  /** `WatchProgress(showId)` with its defaults; `now` is the clock reading of the default `updatedAt`. */
  function NewWatchProgress(showId: string, now: int): (w: WatchProgress)
    ensures w.showId == showId && w.updatedAt == now
    ensures w.watchedEpisodes == []
    ensures w.lastWatchedSeason.None? && w.lastWatchedEpisode.None?
  {
    WatchProgress(showId, [], None, None, now)
  }

  // ---------------------------------------------------------------- reviews

  datatype ReviewTag = Amazing | Good | Okay | Disappointing | Terrible | Funny | Emotional | Thrilling | Boring

  /** `ReviewTag.displayName`. */
  function ReviewTagDisplayName(t: ReviewTag): (name: string)
    ensures |name| > 0
  {
    match t
    case Amazing => "Amazing"
    case Good => "Good"
    case Okay => "Okay"
    case Disappointing => "Disappointing"
    case Terrible => "Terrible"
    case Funny => "Funny"
    case Emotional => "Emotional"
    case Thrilling => "Thrilling"
    case Boring => "Boring"
  }

  /** No two review tags share a display name. */
  lemma ReviewTagDisplayNamesDistinct(a: ReviewTag, b: ReviewTag)
    requires ReviewTagDisplayName(a) == ReviewTagDisplayName(b)
    ensures a == b
  {
  }

  datatype Review = Review(id: string, showId: string, userId: string, userName: string,
                           rating: real, text: string, tags: seq<ReviewTag>, isSpoiler: bool,
                           createdAt: int, helpfulCount: int, notHelpfulCount: int,
                           userVotedHelpful: Option<bool>)

  /** `Review(...)` with its defaults for tags, spoiler flag, counters and the caller's vote. */
  function NewReview(id: string, showId: string, userId: string, userName: string,
                     rating: real, text: string, now: int): (r: Review)
    ensures r.id == id && r.showId == showId && r.userId == userId && r.userName == userName
    ensures r.rating == rating && r.text == text && r.createdAt == now
    ensures r.tags == [] && !r.isSpoiler
    ensures r.helpfulCount == 0 && r.notHelpfulCount == 0
    ensures r.userVotedHelpful.None?
  {
    Review(id, showId, userId, userName, rating, text, [], false, now, 0, 0, None)
  }

  datatype ReviewSummary = ReviewSummary(showId: string, averageRating: real, totalReviews: int,
                                         ratingDistribution: map<int, int>)

  // ---------------------------------------------------------------- Show

  datatype Show = Show(
    id: string,
    title: string,
    year: string,
    showType: ShowType,
    posterUrl: Option<string>,
    backdropUrl: Option<string>,
    plot: Option<string>,
    actors: Option<string>,
    director: Option<string>,
    runtime: Option<string>,
    genre: Option<string>,
    rating: Option<string>,
    trailerKey: Option<string>,
    castMembers: Option<seq<CastMember>>,
    watchProviders: Option<seq<WatchProvider>>,
    watchProgress: Option<WatchProgress>,
    aiStatus: Option<string>,
    aiSummary: Option<string>,
    aiSources: Option<seq<Source>>,
    isCached: Option<bool>,
    isNotificationEnabled: Option<bool>,
    tmdbStatus: Option<string>,
    lastEpisodeAirDate: Option<string>,
    nextEpisodeAirDate: Option<string>,
    totalSeasons: Option<int>,
    totalEpisodes: Option<int>,
    seasons: Option<seq<SeasonInfo>>,
    theatricalReleaseDate: Option<string>)

  /** `Show(id, title, year, type)`: every other field takes its default, null. */
  function NewShow(id: string, title: string, year: string, showType: ShowType,
                   posterUrl: Option<string>, backdropUrl: Option<string>): (s: Show)
    ensures s.id == id && s.title == title && s.year == year && s.showType == showType
    ensures s.posterUrl == posterUrl && s.backdropUrl == backdropUrl
    ensures s.plot.None? && s.actors.None? && s.director.None? && s.runtime.None?
    ensures s.genre.None? && s.rating.None? && s.trailerKey.None? && s.castMembers.None?
    ensures s.watchProviders.None? && s.watchProgress.None? && s.aiStatus.None? && s.aiSummary.None?
    ensures s.aiSources.None? && s.isCached.None? && s.isNotificationEnabled.None? && s.tmdbStatus.None?
    ensures s.lastEpisodeAirDate.None? && s.nextEpisodeAirDate.None?
    ensures s.totalSeasons.None? && s.totalEpisodes.None? && s.seasons.None? && s.theatricalReleaseDate.None?
  {
    Show(id, title, year, showType, posterUrl, backdropUrl, None, None, None, None, None, None, None,
         None, None, None, None, None, None, None, None, None, None, None, None, None, None, None)
  }

  /** The separator `nextAirDate` looks for in the AI summary. */
  const OnMarker: string := "on "

  /**
   * `Show.nextAirDate`: the `nextEpisodeAirDate` when there is one; otherwise the text
   * of `aiSummary` after its first "on " (the whole summary when it has none); null
   * when there is neither.
   */
  function NextAirDate(s: Show): (d: Option<string>)
    ensures d.None? <==> s.nextEpisodeAirDate.None? && s.aiSummary.None?
    ensures s.nextEpisodeAirDate.Some? ==> d == s.nextEpisodeAirDate
    ensures s.nextEpisodeAirDate.None? && s.aiSummary.Some? &&
            (forall j :: 0 <= j <= |s.aiSummary.value| ==> !OccursAt(s.aiSummary.value, OnMarker, j)) ==>
              d == s.aiSummary
    ensures forall i :: s.nextEpisodeAirDate.None? && s.aiSummary.Some? && 0 <= i <= |s.aiSummary.value| &&
                        OccursAt(s.aiSummary.value, OnMarker, i) &&
                        (forall j :: 0 <= j < i ==> !OccursAt(s.aiSummary.value, OnMarker, j)) ==>
              d == Some(s.aiSummary.value[i + |OnMarker|..])
  {
    match s.nextEpisodeAirDate
    case Some(date) => Some(date)
    case None =>
      match s.aiSummary
      case None => None
      case Some(summary) => Some(SubstringAfter(summary, OnMarker))
  }

  /** `Show.isInTheaters`: any movie that has a theatrical release date. */
  function IsInTheaters(s: Show): (b: bool)
    ensures b <==> s.showType == Movie && s.theatricalReleaseDate.Some?
  {
    if s.showType != Movie || s.theatricalReleaseDate.None? then false else true
  }
}
