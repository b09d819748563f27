/**
 * The catalog API's response shapes (network/TmdbDtos.kt), as the repository
 * receives them. Nullable JSON fields are `Option`s; `Double` scores are `real`.
 */
module TmdbDtos {
  import opened Wrappers

  datatype SearchResult = SearchResult(id: int, title: Option<string>, name: Option<string>,
                                       releaseDate: Option<string>, firstAirDate: Option<string>,
                                       mediaType: Option<string>, posterPath: Option<string>,
                                       backdropPath: Option<string>)

  datatype Genre = Genre(id: int, name: string)

  datatype Cast = Cast(id: int, name: string, character: Option<string>, profilePath: Option<string>, order: int)

  datatype Crew = Crew(name: string, job: string)

  datatype Credits = Credits(cast: Option<seq<Cast>>, crew: Option<seq<Crew>>)

  datatype Creator = Creator(name: string)

  datatype TmdbEpisode = TmdbEpisode(id: int, airDate: Option<string>, episodeNumber: Option<int>,
                             seasonNumber: Option<int>, name: Option<string>, overview: Option<string>,
                             stillPath: Option<string>, runtime: Option<int>, voteAverage: Option<real>)

  datatype Season = Season(id: int, seasonNumber: int, name: string, overview: Option<string>,
                           posterPath: Option<string>, airDate: Option<string>, episodeCount: int)

  datatype SeasonDetail = SeasonDetail(id: int, seasonNumber: int, name: string, overview: Option<string>,
                                       posterPath: Option<string>, airDate: Option<string>,
                                       episodes: Option<seq<TmdbEpisode>>)

  datatype Video = Video(key: string, videoType: string, site: string, official: Option<bool>, name: Option<string>)

  datatype VideosResponse = VideosResponse(results: seq<Video>)

  datatype Provider = Provider(providerId: int, providerName: string, logoPath: Option<string>)

  datatype CountryProviders = CountryProviders(flatrate: Option<seq<Provider>>, rent: Option<seq<Provider>>,
                                               buy: Option<seq<Provider>>)

  datatype WatchProvidersResult = WatchProvidersResult(us: Option<CountryProviders>, gb: Option<CountryProviders>,
                                                       ca: Option<CountryProviders>, au: Option<CountryProviders>)

  datatype WatchProvidersResponse = WatchProvidersResponse(results: Option<WatchProvidersResult>)

  datatype MovieDetail = MovieDetail(
    id: int,
    title: string,
    overview: Option<string>,
    releaseDate: Option<string>,
    runtime: Option<int>,
    genres: Option<seq<Genre>>,
    voteAverage: Option<real>,
    posterPath: Option<string>,
    backdropPath: Option<string>,
    credits: Option<Credits>,
    videos: Option<VideosResponse>,
    watchProviders: Option<WatchProvidersResponse>)

  datatype TvDetail = TvDetail(
    id: int,
    name: string,
    overview: Option<string>,
    firstAirDate: Option<string>,
    lastAirDate: Option<string>,
    episodeRunTime: Option<seq<int>>,
    genres: Option<seq<Genre>>,
    voteAverage: Option<real>,
    posterPath: Option<string>,
    backdropPath: Option<string>,
    credits: Option<Credits>,
    createdBy: Option<seq<Creator>>,
    status: Option<string>,
    nextEpisodeToAir: Option<TmdbEpisode>,
    lastEpisodeToAir: Option<TmdbEpisode>,
    numberOfSeasons: Option<int>,
    numberOfEpisodes: Option<int>,
    seasons: Option<seq<Season>>,
    videos: Option<VideosResponse>,
    watchProviders: Option<WatchProvidersResponse>)
}
