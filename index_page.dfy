/**
 * The main page (`ShowMasterPiecesContent`): its own copy of the browse state machine (without
 * cache or toasts), the per-category counter shown on the category grid, the category filter
 * of the card list, and the initial load of collections then configuration.
 */
module IndexPage {
  import opened Wrappers
  import opened Domain
  import opened Http
  import opened Paging
  import MasterpiecesService

  const LoadDataFailed: string := "数据加载失败"

  // ---- counting and filtering by category ----

  /** How many collections carry category k. */
  function CountOf(cs: seq<ArtCollection>, k: Category): nat
  {
    if cs == [] then 0
    else CountOf(cs[..|cs| - 1], k) + (if cs[|cs| - 1].category == k then 1 else 0)
  }

  /** How many collections carry one of the nine listed categories. */
  function ListedCount(cs: seq<ArtCollection>): nat
  {
    if cs == [] then 0
    else ListedCount(cs[..|cs| - 1]) + (if IsListed(cs[|cs| - 1].category) then 1 else 0)
  }

  /** The counts of the given keys, added up. */
  function SumCounts(cs: seq<ArtCollection>, keys: seq<Category>): nat
  {
    if keys == [] then 0 else CountOf(cs, keys[0]) + SumCounts(cs, keys[1..])
  }

  /**
   * `categoryCounts`: a record with the nine listed categories, all starting at 0, to which
   * every collection of a listed category adds one; other categories are skipped.
   */
  method CategoryCounts(collections: seq<ArtCollection>) returns (counts: map<Category, nat>)
    ensures forall k :: k in counts <==> IsListed(k)
    ensures forall k :: k in counts ==> counts[k] == CountOf(collections, k)
  {
    counts := map[Gallery := 0, Acrylic := 0, Badge := 0, ColorPaper := 0, Postcard := 0,
                  LaserTicket := 0, CanvasBag := 0, SupportStick := 0, Other := 0];
    var i := 0;
    while i < |collections|
      invariant 0 <= i <= |collections|
      invariant forall k :: k in counts <==> IsListed(k)
      invariant forall k :: k in counts ==> counts[k] == CountOf(collections[..i], k)
    {
      var c := collections[i];
      if c.category in counts {
        counts := counts[c.category := counts[c.category] + 1];
      }
      assert collections[..i + 1][..i] == collections[..i];
      i := i + 1;
    }
    assert collections[..i] == collections;
  }

  lemma {:induction false} SumCountsSnoc(cs: seq<ArtCollection>, c: ArtCollection, keys: seq<Category>)
    ensures SumCounts(cs + [c], keys) == SumCounts(cs, keys) + multiset(keys)[c.category]
    decreases |keys|
  {
    if keys != [] {
      assert (cs + [c])[..|cs + [c]| - 1] == cs;
      assert keys == [keys[0]] + keys[1..];
      assert multiset(keys) == multiset{keys[0]} + multiset(keys[1..]);
      SumCountsSnoc(cs, c, keys[1..]);
    }
  }

  lemma ListedOccursOnce(k: Category)
    ensures multiset(ListedCategories)[k] == if IsListed(k) then 1 else 0
  {
  }

  /** The nine counters add up to the number of collections whose category is listed. */
  lemma {:induction false} CountsSumToListed(cs: seq<ArtCollection>)
    ensures SumCounts(cs, ListedCategories) == ListedCount(cs)
    decreases |cs|
  {
    if cs != [] {
      var init, c := cs[..|cs| - 1], cs[|cs| - 1];
      assert cs == init + [c];
      CountsSumToListed(init);
      SumCountsSnoc(init, c, ListedCategories);
      ListedOccursOnce(c.category);
    } else {
      assert SumCounts(cs, ListedCategories) == 0 by {
        var ks := ListedCategories;
        assert SumCounts(cs, ks[8..]) == 0;
        assert SumCounts(cs, ks[7..]) == 0;
        assert SumCounts(cs, ks[6..]) == 0;
        assert SumCounts(cs, ks[5..]) == 0;
        assert SumCounts(cs, ks[4..]) == 0;
        assert SumCounts(cs, ks[3..]) == 0;
        assert SumCounts(cs, ks[2..]) == 0;
        assert SumCounts(cs, ks[1..]) == 0;
      }
    }
  }

  /** `filteredCollections`: the collections of category k, in their original order. */
  function FilterByCategory(cs: seq<ArtCollection>, k: Category): (r: seq<ArtCollection>)
    ensures |r| <= |cs|
    ensures forall i :: 0 <= i < |r| ==> r[i].category == k
  {
    if cs == [] then []
    else FilterByCategory(cs[..|cs| - 1], k) + (if cs[|cs| - 1].category == k then [cs[|cs| - 1]] else [])
  }

  /** A collection is listed under k exactly when it is one of the collections and has category k. */
  lemma {:induction false} FilterMembership(cs: seq<ArtCollection>, k: Category, x: ArtCollection)
    ensures x in FilterByCategory(cs, k) <==> x in cs && x.category == k
    decreases |cs|
  {
    if cs != [] {
      var init := cs[..|cs| - 1];
      assert cs == init + [cs[|cs| - 1]];
      FilterMembership(init, k, x);
    }
  }

  /** Filtering keeps the relative order: it distributes over concatenation. */
  lemma {:induction false} FilterAppend(a: seq<ArtCollection>, b: seq<ArtCollection>, k: Category)
    ensures FilterByCategory(a + b, k) == FilterByCategory(a, k) + FilterByCategory(b, k)
    decreases |b|
  {
    if b == [] {
      assert a + b == a;
    } else {
      var binit, last := b[..|b| - 1], b[|b| - 1];
      assert (a + b)[..|a + b| - 1] == a + binit;
      assert (a + b)[|a + b| - 1] == last;
      FilterAppend(a, binit, k);
    }
  }

  /** The count on a category tile equals the number of cards the list shows for that category. */
  lemma {:induction false} TileCountMatchesList(cs: seq<ArtCollection>, k: Category)
    ensures |FilterByCategory(cs, k)| == CountOf(cs, k)
    decreases |cs|
  {
    if cs != [] {
      TileCountMatchesList(cs[..|cs| - 1], k);
    }
  }

  // ---- the page's state ----

  class ShowMasterpiecesContent {
    var collections: seq<ArtCollection>
    var loading: bool
    var error: Option<string>
    var selected: Option<ArtCollection>
    var currentPage: int
    var config: Option<MasterpiecesConfig>
    var selectedCategory: Category

    ghost predicate Valid()
      reads this
    {
      InRange(selected, currentPage)
    }

    constructor ()
      ensures Valid()
      ensures collections == [] && loading && error == None
      ensures selected == None && currentPage == 0
      ensures config == None && selectedCategory == Gallery
    {
      collections := [];
      loading := true;
      error := None;
      selected := None;
      currentPage := 0;
      config := None;
      selectedCategory := Gallery;
    }

    /**
     * `loadData`: collections first, then the configuration. A configuration failure keeps the
     * collections already shown; any failure sets `error`; loading always ends.
     */
    method LoadData(collectionsResponse: Response<MasterpiecesService.CollectionsBody>,
                    configResponse: Response<MasterpiecesConfig>)
      modifies this
      ensures !loading
      ensures selected == old(selected) && currentPage == old(currentPage)
      ensures selectedCategory == old(selectedCategory)
      ensures MasterpiecesService.GetAllCollections(collectionsResponse).Err? ==>
        collections == old(collections) && config == old(config) &&
        error == Some(MessageOr(MasterpiecesService.GetAllCollections(collectionsResponse).thrown, LoadDataFailed))
      ensures MasterpiecesService.GetAllCollections(collectionsResponse).Ok? ==>
        collections == MasterpiecesService.GetAllCollections(collectionsResponse).value
      ensures MasterpiecesService.GetAllCollections(collectionsResponse).Ok? &&
              MasterpiecesService.GetConfig(configResponse).Ok? ==>
        config == Some(MasterpiecesService.GetConfig(configResponse).value) && error == None
      ensures MasterpiecesService.GetAllCollections(collectionsResponse).Ok? &&
              MasterpiecesService.GetConfig(configResponse).Err? ==>
        config == old(config) &&
        error == Some(MessageOr(MasterpiecesService.GetConfig(configResponse).thrown, LoadDataFailed))
    {
      loading := true;
      error := None;
      var fetched := MasterpiecesService.GetAllCollections(collectionsResponse);
      match fetched {
        case Err(t) =>
          error := Some(MessageOr(t, LoadDataFailed));
        case Ok(data) =>
          collections := data;
          var cfg := MasterpiecesService.GetConfig(configResponse);
          match cfg {
            case Err(t) => error := Some(MessageOr(t, LoadDataFailed));
            case Ok(c) => config := Some(c);
          }
      }
      loading := false;
    }

    /** The category grid's `onCategorySelect`. */
    method SelectCategory(k: Category)
      modifies this
      ensures selectedCategory == k
      ensures collections == old(collections) && selected == old(selected) && currentPage == old(currentPage)
      ensures loading == old(loading) && error == old(error) && config == old(config)
    {
      selectedCategory := k;
    }

    /** `handleSelectCollection` */
    method HandleSelectCollection(c: ArtCollection)
      modifies this
      ensures Valid()
      ensures selected == Some(c) && currentPage == 0
      ensures collections == old(collections) && selectedCategory == old(selectedCategory)
      ensures loading == old(loading) && error == old(error) && config == old(config)
    {
      selected := Some(c);
      currentPage := 0;
    }

    /** `handleBackToGallery` */
    method HandleBackToGallery()
      modifies this
      ensures Valid()
      ensures selected == None && currentPage == 0
      ensures collections == old(collections) && selectedCategory == old(selectedCategory)
      ensures loading == old(loading) && error == old(error) && config == old(config)
    {
      selected := None;
      currentPage := 0;
    }

    /** `handleNextPage` */
    method HandleNextPage()
      requires Valid()
      modifies this
      ensures Valid()
      ensures currentPage == if old(CanGoNext(selected, currentPage)) then old(currentPage) + 1 else old(currentPage)
      ensures selected == old(selected) && collections == old(collections)
      ensures loading == old(loading) && error == old(error) && config == old(config)
    {
      if selected.Some? && currentPage < |selected.value.pages| - 1 {
        currentPage := currentPage + 1;
      }
    }

    /** `handlePrevPage` */
    method HandlePrevPage()
      requires Valid()
      modifies this
      ensures Valid()
      ensures currentPage == if old(CanGoPrev(currentPage)) then old(currentPage) - 1 else old(currentPage)
      ensures selected == old(selected) && collections == old(collections)
      ensures loading == old(loading) && error == old(error) && config == old(config)
    {
      if currentPage > 0 {
        currentPage := currentPage - 1;
      }
    }

    /** `handleGoToPage(i)` */
    method HandleGoToPage(i: int)
      requires Valid()
      modifies this
      ensures Valid()
      ensures currentPage == if old(CanGoTo(selected, i)) then i else old(currentPage)
      ensures selected == old(selected) && collections == old(collections)
      ensures loading == old(loading) && error == old(error) && config == old(config)
    {
      if selected.Some? && i >= 0 && i < |selected.value.pages| {
        currentPage := i;
      }
    }
  }
}
