/**
 * The repository's catalog-to-domain normalisation (data/ShowRepository.kt): search-hit
 * classification, detail merge onto a seed show, the updates feed and season episode
 * listings. Every catalog call is a parameter: a function from the show id to the decoded
 * response, `None` when the call throws. `LocalDate.parse` is the parameter `parse`
 * (a date is its day number) and `String.format("%.1f", ...)` is `formatRating`.
 */
module ShowRepository {
  import opened Wrappers
  import opened KotlinStd
  import opened Models
  import opened TmdbDtos
  import opened StableSort

  /** Search posters and detail posters use the w500 size. */
  function PosterUrl(path: Option<string>): (url: Option<string>)
    ensures url == ImageUrl("w500", path)
  {
    ImageUrl("w500", path)
  }

  /** Backdrops use the w780 size. */
  function BackdropUrl(path: Option<string>): (url: Option<string>)
    ensures url == ImageUrl("w780", path)
  {
    ImageUrl("w780", path)
  }

  // ---------------------------------------------------------------- search

  /**
   * The media-type rule of `search`: "tv" is a series and "movie" a movie; any other
   * media type is dropped; with no media type, a hit with a title is a movie and one
   * without a title is dropped.
   */
  function Classify(r: SearchResult): (t: Option<ShowType>)
    ensures r.mediaType == Some("tv") ==> t == Some(Series)
    ensures r.mediaType == Some("movie") ==> t == Some(Movie)
    ensures r.mediaType.Some? && r.mediaType.value != "tv" && r.mediaType.value != "movie" ==> t.None?
    ensures r.mediaType.None? ==> (t.Some? <==> r.title.Some?)
    ensures r.mediaType.None? && t.Some? ==> t.value == Movie
  {
    var mediaType := match r.mediaType
      case Some(m) => m
      case None => if r.title.Some? then "movie" else "";
    if mediaType == "tv" then Some(Series)
    else if mediaType == "movie" then Some(Movie)
    else None
  }

  /** The year of a hit: the first four characters of its release date, else of its first air date, else "". */
  function SearchYear(r: SearchResult): (year: string)
    ensures |year| <= 4
    ensures r.releaseDate.Some? ==> year == Take(r.releaseDate.value, 4)
    ensures r.releaseDate.None? && r.firstAirDate.Some? ==> year == Take(r.firstAirDate.value, 4)
    ensures r.releaseDate.None? && r.firstAirDate.None? ==> year == ""
  {
    Take(r.releaseDate.GetOr(r.firstAirDate.GetOr("")), 4)
  }

  /** The title of a hit: its `title`, else its `name`, else "". */
  function SearchTitle(r: SearchResult): (title: string)
    ensures r.title.Some? ==> title == r.title.value
    ensures r.title.None? && r.name.Some? ==> title == r.name.value
    ensures r.title.None? && r.name.None? ==> title == ""
  {
    r.title.GetOr(r.name.GetOr(""))
  }

  /** One hit of `search`, or `None` when it is not a movie or series. */
  function ResultToShow(r: SearchResult): (s: Option<Show>)
    ensures s.Some? <==> Classify(r).Some?
    ensures s.Some? ==> s.value.showType == Classify(r).value
    ensures s.Some? ==> s.value.id == IntToString(r.id) && s.value.title == SearchTitle(r) && s.value.year == SearchYear(r)
    ensures s.Some? ==> s.value.posterUrl == PosterUrl(r.posterPath) && s.value.backdropUrl == BackdropUrl(r.backdropPath)
    ensures s.Some? ==> s.value == NewShow(IntToString(r.id), SearchTitle(r), SearchYear(r), Classify(r).value,
                                           PosterUrl(r.posterPath), BackdropUrl(r.backdropPath))
  {
    match Classify(r)
    case None => None
    case Some(t) => Some(NewShow(IntToString(r.id), SearchTitle(r), SearchYear(r), t,
                                 PosterUrl(r.posterPath), BackdropUrl(r.backdropPath)))
  }

  /**
   * `search(query)`: a blank query gives no results (and the service is not asked);
   * otherwise the service's hits (`response`) that are movies or series, in order.
   */
  function Search(query: string, response: seq<SearchResult>): (shows: seq<Show>)
    ensures IsBlank(query) ==> shows == []
    ensures |shows| <= |response|
    ensures !IsBlank(query) ==>
              var hits := Filter(response, Defined(ResultToShow));
              |shows| == |hits| && forall i :: 0 <= i < |hits| ==> ResultToShow(hits[i]) == Some(shows[i])
    ensures forall s :: s in shows ==> exists r :: r in response && ResultToShow(r) == Some(s)
    ensures !IsBlank(query) ==> forall r :: r in response && Classify(r).Some? ==> ResultToShow(r).value in shows
  {
    if IsBlank(query) then [] else MapNotNull(response, ResultToShow)
  }

  /** Every search result is a movie or a series, never an episode or "other". */
  lemma SearchOnlyMoviesAndSeries(query: string, response: seq<SearchResult>)
    ensures forall s :: s in Search(query, response) ==> s.showType == Movie || s.showType == Series
  {
  }

  // ---------------------------------------------------------------- pieces of the detail merge

  /** The official YouTube trailer test of `toShow`. */
  predicate IsOfficialTrailer(v: Video)
  {
    v.videoType == "Trailer" && v.site == "YouTube" && v.official == Some(true)
  }

  /** The key of the first official YouTube trailer, or `None` when there is none. */
  function TrailerKey(videos: Option<VideosResponse>): (key: Option<string>)
    ensures key.Some? ==> videos.Some?
    ensures key.Some? ==>
              exists i :: 0 <= i < |videos.value.results| && IsOfficialTrailer(videos.value.results[i]) &&
                          videos.value.results[i].key == key.value &&
                          forall j :: 0 <= j < i ==> !IsOfficialTrailer(videos.value.results[j])
    ensures key.None? ==> videos.None? || forall v :: v in videos.value.results ==> !IsOfficialTrailer(v)
  {
    match videos
    case None => None
    case Some(vr) =>
      match FirstIndex(vr.results, IsOfficialTrailer)
      case None => None
      case Some(i) => Some(vr.results[i].key)
  }

  /** A teaser listed before the trailer does not win: the trailer's key is chosen. */
  lemma TrailerSkipsTeaser()
    ensures TrailerKey(Some(VideosResponse([Video("A", "Teaser", "YouTube", Some(true), None),
                                            Video("B", "Trailer", "YouTube", Some(true), None)]))) == Some("B")
  {
    var vs := [Video("A", "Teaser", "YouTube", Some(true), None), Video("B", "Trailer", "YouTube", Some(true), None)];
    assert !IsOfficialTrailer(vs[0]) && IsOfficialTrailer(vs[1]);
  }

  /** The name of the first crew member whose job is exactly "Director". */
  function Director(credits: Option<Credits>): (name: Option<string>)
    ensures name.Some? ==> credits.Some? && credits.value.crew.Some?
    ensures name.Some? ==>
              var crew := credits.value.crew.value;
              exists i :: 0 <= i < |crew| && crew[i].job == "Director" && crew[i].name == name.value &&
                          forall j :: 0 <= j < i ==> crew[j].job != "Director"
    ensures name.None? && credits.Some? && credits.value.crew.Some? ==>
              forall c :: c in credits.value.crew.value ==> c.job != "Director"
  {
    match credits
    case None => None
    case Some(c) =>
      match c.crew
      case None => None
      case Some(crew) =>
        match FirstIndex(crew, (m: Crew) => m.job == "Director")
        case None => None
        case Some(i) => Some(crew[i].name)
  }

  function CastName(c: Cast): string
  {
    c.name
  }

  /** The display actors: the first five cast names joined with ", ". */
  function Actors(credits: Option<Credits>): (actors: Option<string>)
    ensures actors.Some? <==> credits.Some? && credits.value.cast.Some?
    ensures actors.Some? ==>
              var names := Map(Take(credits.value.cast.value, 5), CastName);
              |names| <= 5 && actors.value == Join(names)
  {
    match credits
    case None => None
    case Some(c) =>
      match c.cast
      case None => None
      case Some(cast) => Some(Join(Map(Take(cast, 5), CastName)))
  }

  function ToCastMember(c: Cast): CastMember
  {
    CastMember(c.id, c.name, c.character, c.profilePath, c.order)
  }

  /** The structured cast: the first twenty cast entries, in the order the catalog lists them. */
  function CastMembers(credits: Option<Credits>): (members: Option<seq<CastMember>>)
    ensures members.Some? <==> credits.Some? && credits.value.cast.Some?
    ensures members.Some? ==>
              var cast := credits.value.cast.value;
              |members.value| == (if |cast| < 20 then |cast| else 20) &&
              forall i :: 0 <= i < |members.value| ==> members.value[i] == ToCastMember(cast[i])
  {
    match credits
    case None => None
    case Some(c) =>
      match c.cast
      case None => None
      case Some(cast) => Some(Map(Take(cast, 20), ToCastMember))
  }

  function GenreName(g: Genre): string
  {
    g.name
  }

  /** The display genre: the genre names joined with ", ". */
  function Genres(genres: Option<seq<Genre>>): (genre: Option<string>)
    ensures genre.Some? <==> genres.Some?
    ensures genre.Some? ==> genre.value == Join(Map(genres.value, GenreName))
  {
    match genres
    case None => None
    case Some(gs) => Some(Join(Map(gs, GenreName)))
  }

  function CreatorName(c: Creator): string
  {
    c.name
  }

  /** A series' "director" field: its creators' names joined with ", ". */
  function Creators(createdBy: Option<seq<Creator>>): (names: Option<string>)
    ensures names.Some? <==> createdBy.Some?
    ensures names.Some? ==> names.value == Join(Map(createdBy.value, CreatorName))
  {
    match createdBy
    case None => None
    case Some(cs) => Some(Join(Map(cs, CreatorName)))
  }

  function ToWatchProvider(p: Provider): WatchProvider
  {
    WatchProvider(p.providerId, p.providerName, p.logoPath)
  }

  /** Only the US region's subscription ("flatrate") providers are kept. */
  function Providers(response: Option<WatchProvidersResponse>): (providers: Option<seq<WatchProvider>>)
    ensures providers.Some? <==>
              response.Some? && response.value.results.Some? && response.value.results.value.us.Some? &&
              response.value.results.value.us.value.flatrate.Some?
    ensures providers.Some? ==>
              var flat := response.value.results.value.us.value.flatrate.value;
              |providers.value| == |flat| &&
              forall i :: 0 <= i < |flat| ==> providers.value[i] == ToWatchProvider(flat[i])
  {
    match response
    case None => None
    case Some(r) =>
      match r.results
      case None => None
      case Some(res) =>
        match res.us
        case None => None
        case Some(us) =>
          match us.flatrate
          case None => None
          case Some(flat) => Some(Map(flat, ToWatchProvider))
  }

  /** `"$it min"`: the number of minutes, then " min". */
  function RuntimeText(minutes: Option<int>): (text: Option<string>)
    ensures text.Some? <==> minutes.Some?
    ensures text.Some? ==> |text.value| > 4 && text.value[|text.value| - 4..] == " min" &&
                           text.value[..|text.value| - 4] == IntToString(minutes.value)
  {
    match minutes
    case None => None
    case Some(m) => Some(IntToString(m) + " min")
  }

  /** `episodeRunTime?.firstOrNull()`. */
  function FirstRuntime(runTimes: Option<seq<int>>): (first: Option<int>)
    ensures first.Some? <==> runTimes.Some? && |runTimes.value| > 0
    ensures first.Some? ==> first.value == runTimes.value[0]
  {
    match runTimes
    case None => None
    case Some(rs) => if |rs| == 0 then None else Some(rs[0])
  }

  function Rating(voteAverage: Option<real>, formatRating: real -> string): Option<string>
  {
    match voteAverage
    case None => None
    case Some(v) => Some(formatRating(v))
  }

  /** A detail date's year, or the seed's year when the detail has no date. */
  function MergedYear(date: Option<string>, seedYear: string): (year: string)
    ensures date.None? ==> year == seedYear
    ensures date.Some? ==> year == Take(date.value, 4)
  {
    match date
    case None => seedYear
    case Some(d) => Take(d, 4)
  }

  function ToSeasonInfo(s: Season): SeasonInfo
  {
    SeasonInfo(s.id, s.seasonNumber, s.name, s.overview, s.posterPath, s.airDate, s.episodeCount)
  }

  /** The seasons of a series, converted one for one, in order. */
  function SeasonInfos(seasons: Option<seq<Season>>): (infos: Option<seq<SeasonInfo>>)
    ensures infos.Some? <==> seasons.Some?
    ensures infos.Some? ==> |infos.value| == |seasons.value|
    ensures infos.Some? ==> forall i :: 0 <= i < |infos.value| ==> infos.value[i] == ToSeasonInfo(seasons.value[i])
  {
    match seasons
    case None => None
    case Some(ss) => Some(Map(ss, ToSeasonInfo))
  }

  // ---------------------------------------------------------------- the "Next Episode" summary

  const SummaryHead: string := "Next Episode: S"

  /** "Next Episode: S{season}E{episode}", with a missing number shown as 0. */
  function SummaryPrefix(ep: TmdbEpisode): string
  {
    SummaryHead + IntToString(ep.seasonNumber.GetOr(0)) + "E" + IntToString(ep.episodeNumber.GetOr(0))
  }

  /** "Next Episode: S{season}E{episode} on {air date or TBD}". */
  function NextEpisodeSummary(ep: TmdbEpisode): (summary: string)
    ensures |summary| > |SummaryHead| && summary[..|SummaryHead|] == SummaryHead
    ensures var tail := " " + OnMarker + ep.airDate.GetOr("TBD");
            |summary| >= |SummaryHead| + |tail| && summary[|summary| - |tail|..] == tail &&
            summary[|SummaryHead|..|summary| - |tail|] ==
              IntToString(ep.seasonNumber.GetOr(0)) + "E" + IntToString(ep.episodeNumber.GetOr(0))
  {
    var middle := IntToString(ep.seasonNumber.GetOr(0)) + "E" + IntToString(ep.episodeNumber.GetOr(0));
    var tail := " " + OnMarker + ep.airDate.GetOr("TBD");
    var summary := SummaryPrefix(ep) + tail;
    assert summary == SummaryHead + middle + tail;
    assert summary[..|SummaryHead|] == SummaryHead;
    assert summary[|SummaryHead|..|summary| - |tail|] == middle;
    assert summary[|summary| - |tail|..] == tail;
    summary
  }

  /** The only 'o' in the summary's prefix is the one in "Episode", which is followed by 'd'. */
  lemma PrefixHasOneO(ep: TmdbEpisode)
    ensures |SummaryPrefix(ep)| > 10 && SummaryPrefix(ep)[10] == 'd'
    ensures forall j :: 0 <= j < |SummaryPrefix(ep)| && j != 9 ==> SummaryPrefix(ep)[j] != 'o'
  {
    var a := IntToString(ep.seasonNumber.GetOr(0));
    var b := IntToString(ep.episodeNumber.GetOr(0));
    var p := SummaryPrefix(ep);
    assert p == SummaryHead + a + "E" + b;
    forall j | 0 <= j < |p| && j != 9 ensures p[j] != 'o' {
      if j < |SummaryHead| {
        assert p[j] == SummaryHead[j];
      } else if j < |SummaryHead| + |a| {
        assert p[j] == a[j - |SummaryHead|];
      } else if j == |SummaryHead| + |a| {
        assert p[j] == 'E';
      } else {
        assert p[j] == b[j - |SummaryHead| - |a| - 1];
      }
    }
  }

  /** "on " cannot start where the text has no 'o' followed by 'n'. */
  lemma NoMarkerAt(s: string, j: nat)
    requires j + 1 < |s| && (s[j] != 'o' || s[j + 1] != 'n')
    ensures !OccursAt(s, OnMarker, j)
  {
    if j + 3 <= |s| {
      assert s[j..j + 3][0] == s[j] && s[j..j + 3][1] == s[j + 1];
    }
  }

  /**
   * Behind a prefix whose only 'o' is followed by 'd', the first "on " is the one
   * after the prefix's following space, so `substringAfter("on ")` yields `air`.
   */
  lemma AfterPrefixMarker(p: string, air: string)
    requires |p| > 10 && p[10] == 'd'
    requires forall j :: 0 <= j < |p| && j != 9 ==> p[j] != 'o'
    ensures SubstringAfter(p + " " + OnMarker + air, OnMarker) == air
  {
    var s := p + " " + OnMarker + air;
    var at := |p| + 1;
    assert s[at..at + 3] == "on ";
    assert OccursAt(s, OnMarker, at);
    forall j | 0 <= j < at ensures !OccursAt(s, OnMarker, j) {
      if j < |p| {
        assert s[j] == p[j] && s[j + 1] == (if j + 1 < |p| then p[j + 1] else ' ');
        if j == 9 {
          assert s[j + 1] == 'd';
        }
      } else {
        assert s[j] == ' ';
      }
      NoMarkerAt(s, j);
    }
    assert s[at + 3..] == air;
  }

  /** Reading the summary back with `substringAfter("on ")` gives the air date, or "TBD". */
  lemma SummaryAirDate(ep: TmdbEpisode)
    ensures SubstringAfter(NextEpisodeSummary(ep), OnMarker) == ep.airDate.GetOr("TBD")
  {
    PrefixHasOneO(ep);
    AfterPrefixMarker(SummaryPrefix(ep), ep.airDate.GetOr("TBD"));
    assert NextEpisodeSummary(ep) == SummaryPrefix(ep) + " " + OnMarker + ep.airDate.GetOr("TBD");
  }

  // ---------------------------------------------------------------- detail merge

  /** The fields the detail merge of either kind never touches. */
  predicate KeepsSeedIdentity(seed: Show, s: Show)
  {
    s.id == seed.id && s.showType == seed.showType && s.watchProgress == seed.watchProgress &&
    s.aiSources == seed.aiSources && s.isCached == seed.isCached &&
    s.isNotificationEnabled == seed.isNotificationEnabled
  }

  /** `TmdbMovieDetail.toShow(seed)`. */
  function MovieToShow(d: MovieDetail, seed: Show, formatRating: real -> string): (s: Show)
    ensures KeepsSeedIdentity(seed, s)
    ensures s.aiStatus == seed.aiStatus && s.aiSummary == seed.aiSummary && s.tmdbStatus == seed.tmdbStatus
    ensures s.lastEpisodeAirDate == seed.lastEpisodeAirDate && s.nextEpisodeAirDate == seed.nextEpisodeAirDate
    ensures s.totalSeasons == seed.totalSeasons && s.totalEpisodes == seed.totalEpisodes && s.seasons == seed.seasons
    ensures s.title == d.title && s.plot == d.overview && s.theatricalReleaseDate == d.releaseDate
    ensures s.year == MergedYear(d.releaseDate, seed.year)
    ensures s.rating.Some? <==> d.voteAverage.Some?
    ensures s.trailerKey == TrailerKey(d.videos) && s.director == Director(d.credits)
    ensures s.actors == Actors(d.credits) && s.castMembers == CastMembers(d.credits)
    ensures s.watchProviders == Providers(d.watchProviders)
    ensures s.posterUrl == PosterUrl(d.posterPath) && s.backdropUrl == BackdropUrl(d.backdropPath)
    ensures s.runtime == RuntimeText(d.runtime) && s.genre == Genres(d.genres)
  {
    seed.(
      title := d.title,
      plot := d.overview,
      year := MergedYear(d.releaseDate, seed.year),
      runtime := RuntimeText(d.runtime),
      genre := Genres(d.genres),
      rating := Rating(d.voteAverage, formatRating),
      actors := Actors(d.credits),
      director := Director(d.credits),
      trailerKey := TrailerKey(d.videos),
      castMembers := CastMembers(d.credits),
      watchProviders := Providers(d.watchProviders),
      posterUrl := PosterUrl(d.posterPath),
      backdropUrl := BackdropUrl(d.backdropPath),
      theatricalReleaseDate := d.releaseDate)
  }

  /** The summary a series detail attaches: present exactly when a next episode is announced. */
  function NextSummary(next: Option<TmdbEpisode>): Option<string>
  {
    match next
    case None => None
    case Some(ep) => Some(NextEpisodeSummary(ep))
  }

  /** `episode?.airDate`. */
  function EpisodeAirDate(ep: Option<TmdbEpisode>): (date: Option<string>)
    ensures date.Some? ==> ep.Some? && ep.value.airDate == date
    ensures ep.Some? ==> date == ep.value.airDate
  {
    match ep
    case None => None
    case Some(e) => e.airDate
  }

  /** `TmdbTvDetail.toShow(seed)`. */
  function TvToShow(d: TvDetail, seed: Show, formatRating: real -> string): (s: Show)
    ensures KeepsSeedIdentity(seed, s) && s.theatricalReleaseDate == seed.theatricalReleaseDate
    ensures s.title == d.name && s.plot == d.overview
    ensures s.year == MergedYear(d.firstAirDate, seed.year)
    ensures s.rating.Some? <==> d.voteAverage.Some?
    ensures s.director == Creators(d.createdBy)
    ensures s.trailerKey == TrailerKey(d.videos)
    ensures s.actors == Actors(d.credits) && s.castMembers == CastMembers(d.credits)
    ensures s.watchProviders == Providers(d.watchProviders)
    ensures s.tmdbStatus == d.status && s.aiStatus == d.status
    ensures s.nextEpisodeAirDate == EpisodeAirDate(d.nextEpisodeToAir)
    ensures s.lastEpisodeAirDate == EpisodeAirDate(d.lastEpisodeToAir)
    ensures s.totalSeasons == d.numberOfSeasons && s.totalEpisodes == d.numberOfEpisodes
    ensures s.aiSummary.Some? <==> d.nextEpisodeToAir.Some?
    ensures s.aiSummary.Some? ==> s.aiSummary.value == NextEpisodeSummary(d.nextEpisodeToAir.value)
    ensures s.runtime == RuntimeText(FirstRuntime(d.episodeRunTime)) && s.genre == Genres(d.genres)
    ensures s.posterUrl == PosterUrl(d.posterPath) && s.backdropUrl == BackdropUrl(d.backdropPath)
    ensures s.seasons == SeasonInfos(d.seasons)
  {
    seed.(
      title := d.name,
      plot := d.overview,
      year := MergedYear(d.firstAirDate, seed.year),
      runtime := RuntimeText(FirstRuntime(d.episodeRunTime)),
      genre := Genres(d.genres),
      rating := Rating(d.voteAverage, formatRating),
      actors := Actors(d.credits),
      director := Creators(d.createdBy),
      trailerKey := TrailerKey(d.videos),
      castMembers := CastMembers(d.credits),
      watchProviders := Providers(d.watchProviders),
      posterUrl := PosterUrl(d.posterPath),
      backdropUrl := BackdropUrl(d.backdropPath),
      tmdbStatus := d.status,
      lastEpisodeAirDate := EpisodeAirDate(d.lastEpisodeToAir),
      nextEpisodeAirDate := EpisodeAirDate(d.nextEpisodeToAir),
      totalSeasons := d.numberOfSeasons,
      totalEpisodes := d.numberOfEpisodes,
      seasons := SeasonInfos(d.seasons),
      aiStatus := d.status,
      aiSummary := NextSummary(d.nextEpisodeToAir))
  }

  /**
   * After a series detail merge, `nextAirDate` is the next episode's air date, "TBD" when
   * it is announced without a date, and null when no next episode is announced.
   */
  lemma TvNextAirDate(d: TvDetail, seed: Show, formatRating: real -> string)
    ensures NextAirDate(TvToShow(d, seed, formatRating)) ==
              match d.nextEpisodeToAir
              case None => None
              case Some(ep) => Some(ep.airDate.GetOr("TBD"))
  {
    if d.nextEpisodeToAir.Some? {
      SummaryAirDate(d.nextEpisodeToAir.value);
    }
  }

  /** The merge does not keep a seed field the detail leaves out: a missing overview clears the plot. */
  lemma MergeClearsMissingPlot(d: MovieDetail, seed: Show, formatRating: real -> string)
    requires d.overview.None? && seed.plot.Some?
    ensures MovieToShow(d, seed, formatRating).plot.None?
  {
  }

  /**
   * `fetchDetails(show)`: movies and series are merged with their detail (`None` when the
   * detail call throws); episodes and "other" shows are returned untouched.
   */
  function FetchDetails(show: Show, movie: string -> Option<MovieDetail>, tv: string -> Option<TvDetail>,
                        formatRating: real -> string): (r: Option<Show>)
    ensures (show.showType == Episode || show.showType == Other) ==> r == Some(show)
    ensures show.showType == Movie ==> (r.Some? <==> movie(show.id).Some?)
    ensures show.showType == Series ==> (r.Some? <==> tv(show.id).Some?)
    ensures r.Some? ==> r.value.id == show.id && r.value.showType == show.showType
    ensures r.Some? && show.showType == Movie ==> r.value.year == MergedYear(movie(show.id).value.releaseDate, show.year)
    ensures r.Some? && show.showType == Series ==> r.value.year == MergedYear(tv(show.id).value.firstAirDate, show.year)
    ensures r.Some? && show.showType == Movie ==> r.value == MovieToShow(movie(show.id).value, show, formatRating)
    ensures r.Some? && show.showType == Series ==> r.value == TvToShow(tv(show.id).value, show, formatRating)
  {
    match show.showType
    case Movie =>
      (match movie(show.id)
       case None => None
       case Some(d) => Some(MovieToShow(d, show, formatRating)))
    case Series =>
      (match tv(show.id)
       case None => None
       case Some(d) => Some(TvToShow(d, show, formatRating)))
    case _ => Some(show)
  }

  // ---------------------------------------------------------------- updates feed

  /** One tracked series of the feed: kept with a fresh summary when its next episode is announced. */
  function UpdateEntry(tracked: Show, detail: Option<TvDetail>): (u: Option<Show>)
    ensures u.Some? <==> detail.Some? && detail.value.nextEpisodeToAir.Some?
    ensures u.Some? ==> u.value == tracked.(aiSummary := Some(NextEpisodeSummary(detail.value.nextEpisodeToAir.value)))
  {
    match detail
    case None => None
    case Some(d) =>
      match d.nextEpisodeToAir
      case None => None
      case Some(ep) => Some(tracked.(aiSummary := Some(NextEpisodeSummary(ep))))
  }

  predicate IsSeries(s: Show)
  {
    s.showType == Series
  }

  /** A feed entry: a tracked series with its fresh "Next Episode" summary. */
  ghost predicate IsFeedEntryOf(s: Show, shows: seq<Show>, tv: string -> Option<TvDetail>)
  {
    exists t :: t in shows && t.showType == Series && UpdateEntry(t, tv(t.id)) == Some(s)
  }

  /** The feed entry of one tracked show, fetching its detail with `tv`. */
  function FeedUpdate(tv: string -> Option<TvDetail>): Show -> Option<Show>
  {
    (t: Show) => UpdateEntry(t, tv(t.id))
  }

  /**
   * The feed before sorting: the tracked series whose fetch succeeds and that have a
   * next episode, one entry each, in their tracked order.
   */
  function FeedEntries(shows: seq<Show>, tv: string -> Option<TvDetail>): (entries: seq<Show>)
    ensures forall s :: s in entries ==> IsFeedEntryOf(s, shows, tv)
    ensures forall t :: t in shows && t.showType == Series && UpdateEntry(t, tv(t.id)).Some? ==>
              UpdateEntry(t, tv(t.id)).value in entries
    ensures var kept := Filter(Filter(shows, IsSeries), Defined(FeedUpdate(tv)));
            |entries| == |kept| &&
            forall i :: 0 <= i < |kept| ==> UpdateEntry(kept[i], tv(kept[i].id)) == Some(entries[i])
  {
    var series := Filter(shows, IsSeries);
    var entries := MapNotNull(series, FeedUpdate(tv));
    assert forall t :: t in shows && t.showType == Series ==> t in series;
    entries
  }

  /** The feed's sort key: the parsed `nextAirDate`, null when it is missing or does not parse. */
  function DateKey(s: Show, parse: string -> Option<int>): (key: Option<int>)
    ensures NextAirDate(s).None? ==> key.None?
    ensures NextAirDate(s).Some? ==> key == parse(NextAirDate(s).value)
  {
    match NextAirDate(s)
    case None => None
    case Some(d) => parse(d)
  }

  function FeedKey(parse: string -> Option<int>): Show -> Option<int>
  {
    (s: Show) => DateKey(s, parse)
  }

  /**
   * `fetchUpdates(shows)`: exactly the feed entries, stably sorted by parsed next air
   * date with missing or unparsable dates first.
   */
  function FetchUpdates(shows: seq<Show>, tv: string -> Option<TvDetail>, parse: string -> Option<int>): (feed: seq<Show>)
    ensures forall s :: s in feed ==> IsFeedEntryOf(s, shows, tv)
    ensures forall t :: t in shows && t.showType == Series && UpdateEntry(t, tv(t.id)).Some? ==>
              UpdateEntry(t, tv(t.id)).value in feed
    ensures multiset(feed) == multiset(FeedEntries(shows, tv))
    ensures SortedBy(feed, FeedKey(parse))
    ensures forall k :: WithKey(feed, FeedKey(parse), k) == WithKey(FeedEntries(shows, tv), FeedKey(parse), k)
  {
    var entries := FeedEntries(shows, tv);
    SortByCorrect(entries, FeedKey(parse));
    var feed := SortBy(entries, FeedKey(parse));
    assert forall s :: s in feed <==> s in multiset(feed);
    assert forall s :: s in entries <==> s in multiset(entries);
    feed
  }

  /** The feed's sort key is a stored `nextEpisodeAirDate` when the tracked show carries one, not the fresh summary's date. */
  lemma FeedKeyPrefersStoredDate(t: Show, ep: TmdbEpisode, parse: string -> Option<int>)
    requires t.nextEpisodeAirDate.Some?
    ensures DateKey(t.(aiSummary := Some(NextEpisodeSummary(ep))), parse) == parse(t.nextEpisodeAirDate.value)
  {
  }

  /** Without a stored date, the feed entry's `nextAirDate` is the fresh air date, or "TBD". */
  lemma FeedEntryNextAirDate(t: Show, ep: TmdbEpisode)
    requires t.nextEpisodeAirDate.None?
    ensures NextAirDate(t.(aiSummary := Some(NextEpisodeSummary(ep)))) == Some(ep.airDate.GetOr("TBD"))
  {
    SummaryAirDate(ep);
  }

  // ---------------------------------------------------------------- season episodes

  function ToEpisodeInfo(e: TmdbEpisode, seasonNumber: int): EpisodeInfo
  {
    EpisodeInfo(e.id, e.episodeNumber.GetOr(0), e.seasonNumber.GetOr(seasonNumber), e.name.GetOr(""),
                e.overview, e.stillPath, e.airDate, e.runtime, e.voteAverage)
  }

  /**
   * `fetchSeasonDetails(showId, seasonNumber)`, given the season call's response (`None`
   * when it throws): one episode per listed episode, with defaults for missing numbers and
   * names; no episodes on failure or when the list is missing.
   */
  function FetchSeasonDetails(seasonNumber: int, fetched: Option<SeasonDetail>): (eps: seq<EpisodeInfo>)
    ensures fetched.None? || fetched.value.episodes.None? ==> eps == []
    ensures fetched.Some? && fetched.value.episodes.Some? ==>
              var src := fetched.value.episodes.value;
              |eps| == |src| &&
              forall i :: 0 <= i < |src| ==>
                eps[i].id == src[i].id &&
                eps[i].episodeNumber == (if src[i].episodeNumber.Some? then src[i].episodeNumber.value else 0) &&
                eps[i].seasonNumber == (if src[i].seasonNumber.Some? then src[i].seasonNumber.value else seasonNumber) &&
                eps[i].name == (if src[i].name.Some? then src[i].name.value else "") &&
                eps[i].airDate == src[i].airDate && eps[i].stillPath == src[i].stillPath &&
                eps[i].overview == src[i].overview && eps[i].runtime == src[i].runtime &&
                eps[i].voteAverage == src[i].voteAverage
  {
    match fetched
    case None => []
    case Some(detail) =>
      match detail.episodes
      case None => []
      case Some(src) => Map(src, (e: TmdbEpisode) => ToEpisodeInfo(e, seasonNumber))
  }
}
