/** `MainApp`: which page is shown, which modal is open and for what entry, the
    grounded search in flight, and the video being played.

    As for the player and the session, the component's state is a value,
    `MainState`, with one step function per handler, and the class `Main` keeps
    the same state in mutable fields, its methods proved to follow the step
    functions. */
module MainApp {
  import opened Types
  import opened Catalog

  datatype Page = HomePage | MoviesPage

  datatype Modal = SearchModal | AiModal | DetailsModal | ProfileModal

  datatype SearchResults = SearchResults(text: string, sources: seq<GroundingChunk>)

  datatype MainState = MainState(
    currentPage: Page,
    activeModal: Option<Modal>,
    selectedContent: Option<Content>,
    searchQuery: string,
    searchResults: Option<SearchResults>,
    isSearchLoading: bool,
    playingVideoUrl: Option<string>)

  /** A URL is followed only when it is truthy: `undefined` and the empty
      string are refused, every other string is followed. */
  predicate IsPlayable(url: Option<string>)
  {
    url.Some? && url.value != ""
  }

  /** The modal actually rendered: the details modal needs a selected entry. */
  function ShownModal(s: MainState): (m: Option<Modal>)
    ensures m.Some? ==> m == s.activeModal
    ensures m == s.activeModal <==> s.activeModal != Some(DetailsModal) || s.selectedContent.Some?
  {
    if s.activeModal == Some(DetailsModal) && s.selectedContent.None? then None else s.activeModal
  }

  /** The details modal is only open on a selected entry, so the active modal is
      the one rendered. */
  predicate DetailsHasEntry(s: MainState) {
    s.activeModal == Some(DetailsModal) ==> s.selectedContent.Some?
  }

  /** The first render: home page, nothing open, nothing searched or playing. */
  function Initial(): (r: MainState)
    ensures DetailsHasEntry(r) && ShownModal(r).None? && r.playingVideoUrl.None?
    ensures r.currentPage == HomePage && r.searchResults.None? && !r.isSearchLoading
  {
    MainState(HomePage, None, None, "", None, false, None)
  }

  /** The header links (`setCurrentPage`): only the page changes. */
  function OnNavigate(s: MainState, page: Page): (r: MainState)
    ensures r.currentPage == page && r.(currentPage := s.currentPage) == s
    ensures DetailsHasEntry(s) ==> DetailsHasEntry(r)
  {
    s.(currentPage := page)
  }

  /** `handleCardClick`: the details modal opens on the clicked entry. */
  function OnCardClick(s: MainState, content: Content): (r: MainState)
    ensures r.selectedContent == Some(content) && ShownModal(r) == Some(DetailsModal)
    ensures r.(activeModal := s.activeModal, selectedContent := s.selectedContent) == s
    ensures DetailsHasEntry(r)
  {
    s.(selectedContent := Some(content), activeModal := Some(DetailsModal))
  }

  /** `handleHeroDetailsClick`: the details modal opens on the featured entry,
      which exists exactly when the catalog is non-empty. */
  function OnHeroDetailsClick(s: MainState, catalog: seq<Content>): (r: MainState)
    ensures r.selectedContent == FeaturedContent(catalog) && r.activeModal == Some(DetailsModal)
    ensures ShownModal(r) == Some(DetailsModal) <==> |catalog| > 0
    ensures DetailsHasEntry(r) <==> |catalog| > 0
    ensures r.(activeModal := s.activeModal, selectedContent := s.selectedContent) == s
  {
    s.(selectedContent := FeaturedContent(catalog), activeModal := Some(DetailsModal))
  }

  /** `handlePlayClick(url)`: a truthy URL closes the modal and plays that URL;
      anything else changes nothing. The selected entry is kept. */
  function OnPlayClick(s: MainState, url: Option<string>): (r: MainState)
    ensures IsPlayable(url) ==> r.activeModal.None? && r.playingVideoUrl == url
    ensures IsPlayable(url) ==> r.(activeModal := s.activeModal, playingVideoUrl := s.playingVideoUrl) == s
    ensures !IsPlayable(url) ==> r == s
    ensures DetailsHasEntry(s) ==> DetailsHasEntry(r)
  {
    if IsPlayable(url) then s.(activeModal := None, playingVideoUrl := url) else s
  }

  /** The first half of `handleSearch`: the search modal opens for the query,
      empty and loading. */
  function OnSearch(s: MainState, query: string): (r: MainState)
    ensures r.searchQuery == query && ShownModal(r) == Some(SearchModal)
    ensures r.isSearchLoading && r.searchResults.None?
    ensures r.(activeModal := s.activeModal, searchQuery := s.searchQuery,
               isSearchLoading := s.isSearchLoading, searchResults := s.searchResults) == s
    ensures DetailsHasEntry(r)
  {
    s.(searchQuery := query, activeModal := Some(SearchModal), isSearchLoading := true, searchResults := None)
  }

  /** The second half of `handleSearch`, when the grounded search answers: the
      results are shown and loading ends, whatever modal is open. */
  function OnSearchResults(s: MainState, results: SearchResults): (r: MainState)
    ensures r.searchResults == Some(results) && !r.isSearchLoading
    ensures r.(searchResults := s.searchResults, isSearchLoading := s.isSearchLoading) == s
    ensures DetailsHasEntry(s) ==> DetailsHasEntry(r)
  {
    s.(searchResults := Some(results), isSearchLoading := false)
  }

  /** `handleAiToolsClick`: the AI studio modal opens. */
  function OnAiToolsClick(s: MainState): (r: MainState)
    ensures ShownModal(r) == Some(AiModal) && r.(activeModal := s.activeModal) == s
    ensures DetailsHasEntry(r)
  {
    s.(activeModal := Some(AiModal))
  }

  /** `handleProfileClick`: the profile modal opens. */
  function OnProfileClick(s: MainState): (r: MainState)
    ensures ShownModal(r) == Some(ProfileModal) && r.(activeModal := s.activeModal) == s
    ensures DetailsHasEntry(r)
  {
    s.(activeModal := Some(ProfileModal))
  }

  /** `closeModal`: no modal and no selected entry; the player, the page and the
      search are untouched. */
  function OnCloseModal(s: MainState): (r: MainState)
    ensures ShownModal(r).None? && r.activeModal.None? && r.selectedContent.None?
    ensures r.(activeModal := s.activeModal, selectedContent := s.selectedContent) == s
    ensures DetailsHasEntry(r)
  {
    s.(activeModal := None, selectedContent := None)
  }

  /** The player's close button: the player unmounts; nothing else changes. */
  function OnClosePlayer(s: MainState): (r: MainState)
    ensures r.playingVideoUrl.None? && r.(playingVideoUrl := s.playingVideoUrl) == s
    ensures DetailsHasEntry(s) ==> DetailsHasEntry(r)
  {
    s.(playingVideoUrl := None)
  }

  // ---------------------------------------------------------------------------
  // Properties

  /** Everything the user can do on the main screen. */
  datatype Event =
    | Navigated(page: Page)
    | CardClicked(content: Content)
    | HeroDetailsClicked
    | PlayClicked(url: Option<string>)
    | SearchSubmitted(query: string)
    | SearchAnswered(results: SearchResults)
    | AiToolsClicked
    | ProfileClicked
    | ModalClosed
    | PlayerClosed

  function Apply(s: MainState, catalog: seq<Content>, e: Event): (r: MainState)
    ensures |catalog| > 0 && DetailsHasEntry(s) ==> DetailsHasEntry(r)
  {
    match e
    case Navigated(page) => OnNavigate(s, page)
    case CardClicked(c) => OnCardClick(s, c)
    case HeroDetailsClicked => OnHeroDetailsClick(s, catalog)
    case PlayClicked(url) => OnPlayClick(s, url)
    case SearchSubmitted(q) => OnSearch(s, q)
    case SearchAnswered(res) => OnSearchResults(s, res)
    case AiToolsClicked => OnAiToolsClick(s)
    case ProfileClicked => OnProfileClick(s)
    case ModalClosed => OnCloseModal(s)
    case PlayerClosed => OnClosePlayer(s)
  }

  /** The state after the events, in order. */
  function Run(s: MainState, catalog: seq<Content>, events: seq<Event>): MainState
    decreases |events|
  {
    if events == [] then s else Run(Apply(s, catalog, events[0]), catalog, events[1..])
  }

  /** With a non-empty catalog, no sequence of user actions opens the details
      modal without an entry to show: the modal rendered is always the active
      one. */
  lemma {:induction false} DetailsModalAlwaysHasEntry(catalog: seq<Content>, events: seq<Event>, s: MainState)
    requires |catalog| > 0 && DetailsHasEntry(s)
    ensures DetailsHasEntry(Run(s, catalog, events))
    ensures ShownModal(Run(s, catalog, events)) == Run(s, catalog, events).activeModal
    decreases |events|
  {
    if events != [] {
      DetailsModalAlwaysHasEntry(catalog, events[1..], Apply(s, catalog, events[0]));
    }
  }

  /** Playing from the details modal closes it and starts the entry's video,
      keeping the entry selected; closing the player afterwards leaves no modal
      open. Closing a modal never stops the video, and closing the player never
      closes a modal. */
  lemma PlayFromDetails(s: MainState, c: Content)
    requires ShownModal(s) == Some(DetailsModal) && s.selectedContent == Some(c) && IsPlayable(c.videoUrl)
    ensures var r := OnPlayClick(s, c.videoUrl);
      && ShownModal(r).None? && r.playingVideoUrl == c.videoUrl && r.selectedContent == Some(c)
      && ShownModal(OnClosePlayer(r)).None?
    ensures OnCloseModal(s).playingVideoUrl == s.playingVideoUrl
    ensures OnClosePlayer(s).activeModal == s.activeModal
  {
  }

  // ---------------------------------------------------------------------------
  // The component, as a mutable object

  class Main {
    const catalog: seq<Content>
    var currentPage: Page
    var activeModal: Option<Modal>
    var selectedContent: Option<Content>
    var searchQuery: string
    var searchResults: Option<SearchResults>
    var isSearchLoading: bool
    var playingVideoUrl: Option<string>

    function Snapshot(): MainState
      reads this
    {
      MainState(currentPage, activeModal, selectedContent, searchQuery, searchResults,
                isSearchLoading, playingVideoUrl)
    }

    constructor (catalog: seq<Content>)
      ensures this.catalog == catalog && Snapshot() == Initial()
    {
      this.catalog := catalog;
      currentPage := HomePage;
      activeModal := None;
      selectedContent := None;
      searchQuery := "";
      searchResults := None;
      isSearchLoading := false;
      playingVideoUrl := None;
    }

    method Navigate(page: Page)
      modifies this
      ensures Snapshot() == OnNavigate(old(Snapshot()), page)
    {
      currentPage := page;
    }

    method HandleCardClick(content: Content)
      modifies this
      ensures Snapshot() == OnCardClick(old(Snapshot()), content)
    {
      selectedContent := Some(content);
      activeModal := Some(DetailsModal);
    }

    method HandleHeroDetailsClick()
      modifies this
      ensures Snapshot() == OnHeroDetailsClick(old(Snapshot()), catalog)
    {
      selectedContent := FeaturedContent(catalog);
      activeModal := Some(DetailsModal);
    }

    method HandlePlayClick(url: Option<string>)
      modifies this
      ensures Snapshot() == OnPlayClick(old(Snapshot()), url)
    {
      if url.Some? && url.value != "" {
        activeModal := None;
        playingVideoUrl := url;
      }
    }

    method HandleSearch(query: string)
      modifies this
      ensures Snapshot() == OnSearch(old(Snapshot()), query)
    {
      searchQuery := query;
      activeModal := Some(SearchModal);
      isSearchLoading := true;
      searchResults := None;
    }

    method ReceiveSearchResults(results: SearchResults)
      modifies this
      ensures Snapshot() == OnSearchResults(old(Snapshot()), results)
    {
      searchResults := Some(results);
      isSearchLoading := false;
    }

    method HandleAiToolsClick()
      modifies this
      ensures Snapshot() == OnAiToolsClick(old(Snapshot()))
    {
      activeModal := Some(AiModal);
    }

    method HandleProfileClick()
      modifies this
      ensures Snapshot() == OnProfileClick(old(Snapshot()))
    {
      activeModal := Some(ProfileModal);
    }

    method CloseModal()
      modifies this
      ensures Snapshot() == OnCloseModal(old(Snapshot()))
    {
      activeModal := None;
      selectedContent := None;
    }

    method ClosePlayer()
      modifies this
      ensures Snapshot() == OnClosePlayer(old(Snapshot()))
    {
      playingVideoUrl := None;
    }
  }
}
