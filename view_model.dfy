/**
 * `AppViewModel` (ui/AppViewModel.kt): the screen state the UI observes, and the actions
 * that change it. Each `MutableStateFlow` is a field; `trackedShows` is the persisted
 * list the repository's flow emits. Work the source launches in a coroutine runs to
 * completion inside the method; the catalog calls are parameters.
 */
module ViewModel {
  import opened Wrappers
  import opened KotlinStd
  import opened Models
  import opened TmdbDtos
  import opened ShowRepository
  import opened Firestore

  /** The tab selected when the app starts. */
  const InitialTab: string := "updates"

  /** `any { it.id == id }`. */
  predicate AnyWithId(shows: seq<Show>, id: string)
  {
    exists i :: 0 <= i < |shows| && shows[i].id == id
  }

  function OtherId(id: string): Show -> bool
  {
    (s: Show) => s.id != id
  }

  /** `removeAll { it.id == id }`: the shows with other ids, in order. */
  function WithoutId(shows: seq<Show>, id: string): seq<Show>
  {
    Filter(shows, OtherId(id))
  }

  /** The list `toggleTracked(show)` saves: without the show's id if tracked, else with the show appended. */
  function Toggled(shows: seq<Show>, show: Show): seq<Show>
  {
    if AnyWithId(shows, show.id) then WithoutId(shows, show.id) else shows + [show]
  }

  /** Toggling an untracked show appends it and changes nothing else. */
  lemma ToggleAppendsUntracked(shows: seq<Show>, show: Show)
    requires !AnyWithId(shows, show.id)
    ensures |Toggled(shows, show)| == |shows| + 1
    ensures Toggled(shows, show)[|shows|] == show
    ensures Toggled(shows, show)[..|shows|] == shows
  {
  }

  /** Toggling a tracked show removes every entry with its id and keeps the others in order. */
  lemma ToggleRemovesTracked(shows: seq<Show>, show: Show)
    requires AnyWithId(shows, show.id)
    ensures !AnyWithId(Toggled(shows, show), show.id)
    ensures |Toggled(shows, show)| < |shows|
    ensures WithoutId(Toggled(shows, show), show.id) == WithoutId(shows, show.id)
  {
    var r := WithoutId(shows, show.id);
    forall i | 0 <= i < |r| ensures r[i].id != show.id {
      assert r[i] in r;
    }
    FilterIdempotent(shows, OtherId(show.id));
    var j :| 0 <= j < |shows| && shows[j].id == show.id;
    StrictlyShorter(shows, show.id, j);
  }

  /** A filter that drops an element is shorter than its input. */
  lemma {:induction false} StrictlyShorter(shows: seq<Show>, id: string, j: int)
    requires 0 <= j < |shows| && shows[j].id == id
    ensures |WithoutId(shows, id)| < |shows|
  {
    if j > 0 {
      StrictlyShorter(shows[1..], id, j - 1);
    }
  }

  /** After a toggle, `isTracked(show)` is the negation of what it was. */
  lemma ToggleFlipsTracked(shows: seq<Show>, show: Show)
    ensures AnyWithId(Toggled(shows, show), show.id) == !AnyWithId(shows, show.id)
  {
    if AnyWithId(shows, show.id) {
      ToggleRemovesTracked(shows, show);
    } else {
      assert Toggled(shows, show)[|shows|] == show;
    }
  }

  /** Toggling an untracked show twice gives back the original list. */
  lemma ToggleTwiceRestores(shows: seq<Show>, show: Show)
    requires !AnyWithId(shows, show.id)
    ensures Toggled(Toggled(shows, show), show) == shows
  {
    ToggleFlipsTracked(shows, show);
    FilterSnoc(shows, show, OtherId(show.id));
    forall s | s in shows ensures OtherId(show.id)(s) {
      var i :| 0 <= i < |shows| && shows[i] == s;
    }
    FilterAll(shows, OtherId(show.id));
  }

  /**
   * The list `toggleTracked` builds: `toMutableList()`, then `any { it.id == show.id }`,
   * then `removeAll { it.id == show.id }` or `add(show)`.
   */
  method ToggledList(current: seq<Show>, show: Show) returns (newList: seq<Show>)
    ensures newList == Toggled(current, show)
    ensures AnyWithId(newList, show.id) == !AnyWithId(current, show.id)
  {
    var found := false;
    var i := 0;
    while i < |current|
      invariant 0 <= i <= |current|
      invariant found <==> exists j :: 0 <= j < i && current[j].id == show.id
    {
      if current[i].id == show.id {
        found := true;
      }
      i := i + 1;
    }
    if found {
      newList := [];
      i := 0;
      while i < |current|
        invariant 0 <= i <= |current|
        invariant newList == WithoutId(current[..i], show.id)
      {
        FilterSnoc(current[..i], current[i], OtherId(show.id));
        assert current[..i + 1] == current[..i] + [current[i]];
        if current[i].id != show.id {
          newList := newList + [current[i]];
        }
        i := i + 1;
      }
      assert current[..i] == current;
    } else {
      newList := current + [show];
    }
    ToggleFlipsTracked(current, show);
  }

  /** Everything the screen observes, as one value. */
  datatype Screen = Screen(
    tracked: seq<Show>,
    searchResults: seq<Show>,
    isSearching: bool,
    searchError: Option<string>,
    searchType: ShowType,
    searchText: string,
    updates: seq<Show>,
    isLoadingUpdates: bool,
    selectedShow: Option<Show>,
    reviews: seq<Review>,
    reviewSummary: Option<ReviewSummary>,
    selectedTab: string,
    shouldFocusDiscoverSearch: bool)

  /** The query `performSearch` issues for the search text: none when the trimmed text is empty. */
  function IssuedQuery(text: string): (q: Option<string>)
    ensures q.None? <==> IsBlank(text)
    ensures q.Some? ==> q.value == Trim(text) && !IsBlank(q.value)
  {
    TrimEmptyIffBlank(text);
    var query := Trim(text);
    if query == [] then None
    else
      TrimmedNotBlank(text);
      Some(query)
  }

  /**
   * The screen after `performSearch()`: a blank text clears the results; otherwise the
   * issued query's hits are shown, or the failure's message is, and the search ends.
   * Only the results, the searching flag and the error can change.
   */
  function AfterSearch(st: Screen, service: string -> Result<seq<SearchResult>>): (r: Screen)
    ensures r == st.(searchResults := r.searchResults, isSearching := r.isSearching, searchError := r.searchError)
    ensures IsBlank(st.searchText) ==> r == st.(searchResults := [])
    ensures !IsBlank(st.searchText) ==> !r.isSearching
    ensures !IsBlank(st.searchText) && service(Trim(st.searchText)).Success? ==>
              r.searchResults == Search(Trim(st.searchText), service(Trim(st.searchText)).value) &&
              r.searchError.None?
    ensures !IsBlank(st.searchText) && service(Trim(st.searchText)).Failure? ==>
              r.searchResults == st.searchResults &&
              r.searchError == Some(service(Trim(st.searchText)).message)
  {
    match IssuedQuery(st.searchText)
    case None => st.(searchResults := [])
    case Some(query) =>
      var outcome := service(query);
      if outcome.Success? then st.(searchResults := Search(query, outcome.value), isSearching := false, searchError := None)
      else st.(isSearching := false, searchError := Some(outcome.message))
  }

  /** The screen after a search that issued `query`, stated for the two outcomes of the catalog call. */
  lemma AfterIssuedSearch(st: Screen, service: string -> Result<seq<SearchResult>>, query: string)
    requires IssuedQuery(st.searchText) == Some(query)
    ensures service(query).Success? ==>
              AfterSearch(st, service) ==
              st.(searchResults := Search(query, service(query).value), isSearching := false, searchError := None)
    ensures service(query).Failure? ==>
              AfterSearch(st, service) == st.(isSearching := false, searchError := Some(service(query).message))
  {
  }

  class AppViewModel {
    const store: FirestoreManager
    var tracked: seq<Show>
    var searchResults: seq<Show>
    var isSearching: bool
    var searchError: Option<string>
    var searchType: ShowType
    var searchText: string
    var updates: seq<Show>
    var isLoadingUpdates: bool
    var selectedShow: Option<Show>
    var reviews: seq<Review>
    var reviewSummary: Option<ReviewSummary>
    var selectedTab: string
    var shouldFocusDiscoverSearch: bool

    /** The screen state as one value. */
    function State(): Screen
      reads this
    {
      Screen(tracked, searchResults, isSearching, searchError, searchType, searchText, updates,
             isLoadingUpdates, selectedShow, reviews, reviewSummary, selectedTab, shouldFocusDiscoverSearch)
    }

    /** The initial state; `saved` is the tracked list the repository last persisted. */
    constructor(store: FirestoreManager, saved: seq<Show>)
      ensures this.store == store
      ensures State() == Screen(saved, [], false, None, Series, "", [], false, None, [], None, InitialTab, false)
    {
      this.store := store;
      tracked := saved;
      searchResults := [];
      isSearching := false;
      searchError := None;
      searchType := Series;
      searchText := "";
      updates := [];
      isLoadingUpdates := false;
      selectedShow := None;
      reviews := [];
      reviewSummary := None;
      selectedTab := InitialTab;
      shouldFocusDiscoverSearch := false;
    }

    /** `isTracked(show)`: some tracked show has the same id. */
    function IsTracked(show: Show): (b: bool)
      reads this
      ensures b <==> exists i :: 0 <= i < |tracked| && tracked[i].id == show.id
    {
      AnyWithId(tracked, show.id)
    }

    /**
     * `toggleTracked(show)`: removes every tracked entry with the show's id, or appends the
     * show when none has it; saves the list and, when signed in, syncs its ids. Nothing
     * else on the screen changes.
     */
    method ToggleTracked(show: Show, now: int)
      modifies this, store
      ensures State() == old(State()).(tracked := Toggled(old(tracked), show))
      ensures IsTracked(show) == !old(IsTracked(show))
      ensures old(store.currentUserId).Some? ==>
                store.tracked == old(store.tracked)[old(store.currentUserId).value := TrackedDoc(Map(tracked, ShowId), now)]
      ensures old(store.currentUserId).None? ==> store.tracked == old(store.tracked)
      ensures store.currentUserId == old(store.currentUserId) && store.reviews == old(store.reviews)
      ensures store.votes == old(store.votes) && store.summaries == old(store.summaries)
      ensures store.progress == old(store.progress)
    {
      var current := tracked;
      var newList := ToggledList(current, show);
      tracked := newList;
      if store.currentUserId.Some? {
        var _ := store.SyncTrackedShows(newList, now);
      }
    }

    /**
     * `performSearch()`: searches for the trimmed text unless it is empty, in which case
     * the results are cleared and no search is issued. `service` is the catalog search:
     * its hits, or the failure's message. Returns the query that was issued, if any.
     */
    method PerformSearch(service: string -> Result<seq<SearchResult>>) returns (issued: Option<string>)
      modifies this
      ensures issued == IssuedQuery(old(searchText))
      ensures State() == AfterSearch(old(State()), service)
    {
      issued := IssuedQuery(searchText);
      if issued.None? {
        searchResults := [];
        return;
      }
      AfterIssuedSearch(State(), service, issued.value);
      RunSearch(issued.value, service);
    }

    /**
     * The search coroutine for an issued query: searching starts with no error, then
     * shows the hits on success or the failure's message otherwise, and the search ends.
     */
    method RunSearch(query: string, service: string -> Result<seq<SearchResult>>)
      modifies this
      ensures service(query).Success? ==>
                State() == old(State()).(searchResults := Search(query, service(query).value),
                                         isSearching := false, searchError := None)
      ensures service(query).Failure? ==>
                State() == old(State()).(isSearching := false, searchError := Some(service(query).message))
    {
      isSearching := true;
      searchError := None;
      var outcome := service(query);
      if outcome.Success? {
        searchResults := Search(query, outcome.value);
      } else {
        searchError := Some(outcome.message);
      }
      isSearching := false;
    }

    /** `clearSearch()`: empties the text, the results and the error, and nothing else. */
    method ClearSearch()
      modifies this
      ensures State() == old(State()).(searchText := "", searchResults := [], searchError := None)
    {
      searchText := "";
      searchResults := [];
      searchError := None;
    }

    /** `clearSelection()`: no selected show, no reviews, no summary; nothing else changes. */
    method ClearSelection()
      modifies this
      ensures State() == old(State()).(selectedShow := None, reviews := [], reviewSummary := None)
    {
      selectedShow := None;
      reviews := [];
      reviewSummary := None;
    }

    /**
     * `signOut()`: the user is signed out and the saved tracked list is emptied. The
     * user's cloud documents and the rest of the screen are kept.
     */
    method SignOut()
      modifies this, store
      ensures State() == old(State()).(tracked := [])
      ensures store.currentUserId.None?
      ensures store.tracked == old(store.tracked) && store.reviews == old(store.reviews)
      ensures store.votes == old(store.votes) && store.summaries == old(store.summaries)
      ensures store.progress == old(store.progress)
    {
      store.currentUserId := None;
      tracked := [];
    }

    /** `refreshUpdates()`: the updates feed of the tracked shows; loading has ended. */
    method RefreshUpdates(tv: string -> Option<TvDetail>, parse: string -> Option<int>)
      modifies this
      ensures State() == old(State()).(updates := FetchUpdates(old(tracked), tv, parse), isLoadingUpdates := false)
    {
      isLoadingUpdates := true;
      updates := FetchUpdates(tracked, tv, parse);
      isLoadingUpdates := false;
    }

    /**
     * `selectShow(show)`: selects the show, replaces it by its merged details when the
     * detail call succeeds, and loads the show's stored review summary.
     */
    method SelectShow(show: Show, movie: string -> Option<MovieDetail>, tv: string -> Option<TvDetail>,
                      formatRating: real -> string)
      modifies this
      ensures selectedShow.Some? && selectedShow.value.id == show.id
      ensures State() == old(State()).(
                selectedShow := (var details := FetchDetails(show, movie, tv, formatRating);
                                 if details.Some? then details else Some(show)),
                reviewSummary := (if show.id in store.summaries then Some(store.summaries[show.id]) else None))
    {
      selectedShow := Some(show);
      var details := FetchDetails(show, movie, tv, formatRating);
      if details.Some? {
        selectedShow := details;
      }
      var summary := store.GetReviewSummary(show.id);
      if summary.Success? {
        reviewSummary := summary.value;
      }
    }

    /** `selectTab(tab)`: only the selected tab changes. */
    method SelectTab(tab: string)
      modifies this
      ensures State() == old(State()).(selectedTab := tab)
    {
      selectedTab := tab;
    }

    /** `focusDiscoverSearch()` and `clearDiscoverSearchFocus()`: only the focus request changes. */
    method SetDiscoverSearchFocus(focus: bool)
      modifies this
      ensures State() == old(State()).(shouldFocusDiscoverSearch := focus)
    {
      shouldFocusDiscoverSearch := focus;
    }
  }
}
