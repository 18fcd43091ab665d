/**
 * The `useMasterpieces` hook: browse state (collections, selected collection, page index,
 * loading, error) and the module-wide single-slot collections cache with a three-minute lifetime.
 * `Date.now()` and the gateway's responses are parameters.
 */
module UseMasterpieces {
  import opened Wrappers
  import opened Text
  import opened Domain
  import opened Http
  import opened Paging
  import MasterpiecesService

  /** COLLECTIONS_CACHE_DURATION: three minutes, in milliseconds. */
  const CacheDuration: int := 3 * 60 * 1000

  const LoadFailed: string := "加载画集失败"
  const SearchFailed: string := "搜索失败"

  /** The cache check of `loadCollections`: no forced refresh, a cached list, and younger than three minutes. */
  predicate CacheHit(forceRefresh: bool, cached: Option<seq<ArtCollection>>, cacheTime: int, now: int)
  {
    !forceRefresh && cached.Some? && now - cacheTime < CacheDuration
  }

  /** The module-level slot `collectionsCache` / `collectionsCacheTime`. */
  class CollectionsCache {
    var cached: Option<seq<ArtCollection>>
    var cacheTime: int

    constructor ()
      ensures cached == None && cacheTime == 0
    {
      cached := None;
      cacheTime := 0;
    }
  }

  class BrowseState {
    var collections: seq<ArtCollection>
    var selected: Option<ArtCollection>
    var currentPage: int
    var loading: bool
    var error: Option<string>

    ghost predicate Valid()
      reads this
    {
      InRange(selected, currentPage)
    }

    constructor ()
      ensures Valid()
      ensures collections == [] && selected == None && currentPage == 0
      ensures !loading && error == None
    {
      collections := [];
      selected := None;
      currentPage := 0;
      loading := false;
      error := None;
    }

    /**
     * `loadCollections(forceRefresh)`. On a cache hit the cached list is shown and nothing is
     * fetched; otherwise `response` is the gateway's answer. `fetched` tells whether a request was made.
     */
    method LoadCollections(cache: CollectionsCache, forceRefresh: bool, now: int,
                           response: Response<MasterpiecesService.CollectionsBody>)
      returns (fetched: bool)
      requires Valid()
      modifies this, cache
      ensures Valid()
      ensures fetched <==> !CacheHit(forceRefresh, old(cache.cached), old(cache.cacheTime), now)
      ensures selected == old(selected) && currentPage == old(currentPage)
      ensures !loading
      ensures !fetched ==>
        collections == old(cache.cached).value && error == old(error) && unchanged(cache)
      ensures fetched && MasterpiecesService.GetAllCollections(response).Ok? ==>
        var data := MasterpiecesService.GetAllCollections(response).value;
        collections == data && cache.cached == Some(data) && cache.cacheTime == now && error == None
      ensures fetched && MasterpiecesService.GetAllCollections(response).Err? ==>
        collections == old(collections) && error == Some(LoadFailed) && unchanged(cache)
    {
      if !forceRefresh && cache.cached.Some? && now - cache.cacheTime < CacheDuration {
        collections := cache.cached.value;
        loading := false;
        return false;
      }
      loading := true;
      error := None;
      var result := MasterpiecesService.GetAllCollections(response);
      match result {
        case Ok(data) =>
          cache.cached := Some(data);
          cache.cacheTime := now;
          collections := data;
        case Err(_) =>
          error := Some(LoadFailed);
      }
      loading := false;
      fetched := true;
    }

    /** `selectCollection(c)`: view c from its first page. */
    method SelectCollection(c: ArtCollection)
      modifies this
      ensures Valid()
      ensures selected == Some(c) && currentPage == 0
      ensures collections == old(collections) && loading == old(loading) && error == old(error)
    {
      selected := Some(c);
      currentPage := 0;
    }

    /** `nextPage()`: advance only when a collection is selected and a later page exists. */
    method NextPage()
      requires Valid()
      modifies this
      ensures Valid()
      ensures currentPage == if old(CanGoNext(selected, currentPage)) then old(currentPage) + 1 else old(currentPage)
      ensures selected == old(selected) && collections == old(collections)
      ensures loading == old(loading) && error == old(error)
    {
      if selected.Some? && currentPage < |selected.value.pages| - 1 {
        currentPage := currentPage + 1;
      }
    }

    /** `prevPage()`: retreat only when the page is above 0. */
    method PrevPage()
      requires Valid()
      modifies this
      ensures Valid()
      ensures currentPage == if old(CanGoPrev(currentPage)) then old(currentPage) - 1 else old(currentPage)
      ensures selected == old(selected) && collections == old(collections)
      ensures loading == old(loading) && error == old(error)
    {
      if currentPage > 0 {
        currentPage := currentPage - 1;
      }
    }

    /** `goToPage(i)`: jump to i when a collection is selected and i indexes one of its pages. */
    method GoToPage(i: int)
      requires Valid()
      modifies this
      ensures Valid()
      ensures currentPage == if old(CanGoTo(selected, i)) then i else old(currentPage)
      ensures selected == old(selected) && collections == old(collections)
      ensures loading == old(loading) && error == old(error)
    {
      if selected.Some? && i >= 0 && i < |selected.value.pages| {
        currentPage := i;
      }
    }

    /** `backToGallery()`: leave the viewer for the list. */
    method BackToGallery()
      modifies this
      ensures Valid()
      ensures selected == None && currentPage == 0
      ensures collections == old(collections) && loading == old(loading) && error == old(error)
    {
      selected := None;
      currentPage := 0;
    }

    /**
     * `searchCollections(query)`. A blank query is a forced reload (answered by `reload`); any other
     * query replaces the list with the search result (answered by `response`) and never touches the cache.
     */
    method SearchCollections(cache: CollectionsCache, query: string, now: int,
                             reload: Response<MasterpiecesService.CollectionsBody>,
                             response: Response<seq<ArtCollection>>)
      requires Valid()
      modifies this, cache
      ensures Valid()
      ensures selected == old(selected) && currentPage == old(currentPage)
      ensures !loading
      ensures IsBlank(query) && MasterpiecesService.GetAllCollections(reload).Ok? ==>
        var data := MasterpiecesService.GetAllCollections(reload).value;
        collections == data && cache.cached == Some(data) && cache.cacheTime == now && error == None
      ensures IsBlank(query) && MasterpiecesService.GetAllCollections(reload).Err? ==>
        collections == old(collections) && error == Some(LoadFailed) && unchanged(cache)
      ensures !IsBlank(query) ==> unchanged(cache)
      ensures !IsBlank(query) && MasterpiecesService.SearchCollections(response).Ok? ==>
        collections == MasterpiecesService.SearchCollections(response).value && error == None
      ensures !IsBlank(query) && MasterpiecesService.SearchCollections(response).Err? ==>
        collections == old(collections) && error == Some(SearchFailed)
    {
      TrimEmptyIffBlank(query);
      if Trim(query) == "" {
        var _ := LoadCollections(cache, true, now, reload);
        return;
      }
      loading := true;
      error := None;
      var result := MasterpiecesService.SearchCollections(response);
      match result {
        case Ok(data) => collections := data;
        case Err(_) => error := Some(SearchFailed);
      }
      loading := false;
    }
  }

  /**
   * Two loads through the same cache: after a successful fetch at time t, a later unforced load
   * at `now` is answered from the cache exactly when less than three minutes have passed, and
   * then shows the list fetched at t.
   */
  method LoadTwice(cache: CollectionsCache, s: BrowseState, t: int, now: int,
                   first: Response<MasterpiecesService.CollectionsBody>,
                   second: Response<MasterpiecesService.CollectionsBody>)
    returns (refetched: bool)
    requires s.Valid()
    requires !CacheHit(false, cache.cached, cache.cacheTime, t)
    requires MasterpiecesService.GetAllCollections(first).Ok?
    modifies s, cache
    ensures refetched <==> now - t >= CacheDuration
    ensures !refetched ==> s.collections == MasterpiecesService.GetAllCollections(first).value
  {
    var f := s.LoadCollections(cache, false, t, first);
    refetched := s.LoadCollections(cache, false, now, second);
  }
}
