/**
 * The page-navigation rules of the collection viewer. `useMasterpieces` and the index page
 * implement them twice, identically; both state machines are proved against these definitions.
 */
module Paging {
  import opened Wrappers
  import opened Domain

  function PageCount(selected: Option<ArtCollection>): nat
  {
    if selected.Some? then |selected.value.pages| else 0
  }

  /** The highest index the page counter may hold: the last page, or 0 when there are none. */
  function LastIndex(selected: Option<ArtCollection>): nat
  {
    if PageCount(selected) > 0 then PageCount(selected) - 1 else 0
  }

  /** The invariant both state machines keep: the index stays within [0, LastIndex]. */
  predicate InRange(selected: Option<ArtCollection>, page: int)
  {
    0 <= page <= LastIndex(selected)
  }

  /** `canGoNext`, which is also the guard of `nextPage`. */
  predicate CanGoNext(selected: Option<ArtCollection>, page: int)
  {
    selected.Some? && page < |selected.value.pages| - 1
  }

  /** `canGoPrev`, which is also the guard of `prevPage`. */
  predicate CanGoPrev(page: int)
  {
    page > 0
  }

  /** The guard of `goToPage(i)`. */
  predicate CanGoTo(selected: Option<ArtCollection>, i: int)
  {
    selected.Some? && 0 <= i < |selected.value.pages|
  }

  /** `getCurrentArtwork()`: the page at the index, or null when nothing is there. */
  function CurrentArtwork(selected: Option<ArtCollection>, page: int): (a: Option<ArtworkPage>)
    ensures a.Some? <==> CanGoTo(selected, page)
    ensures a.Some? ==> a.value == selected.value.pages[page]
  {
    if selected.Some? && 0 <= page < |selected.value.pages| then Some(selected.value.pages[page]) else None
  }

  /** Moving forward is allowed exactly when the page after the current one exists. */
  lemma CanGoNextIffNextExists(selected: Option<ArtCollection>, page: int)
    requires InRange(selected, page)
    ensures CanGoNext(selected, page) <==> CurrentArtwork(selected, page + 1).Some?
  {
  }

  /** Within the invariant, moving back is allowed exactly when the page before the current one exists. */
  lemma CanGoPrevIffPrevExists(selected: Option<ArtCollection>, page: int)
    requires InRange(selected, page) && PageCount(selected) > 0
    ensures CanGoPrev(page) <==> CurrentArtwork(selected, page - 1).Some?
  {
  }

  /** Within the invariant, an artwork is shown exactly when a collection with pages is selected. */
  lemma ArtworkShownIffPages(selected: Option<ArtCollection>, page: int)
    requires InRange(selected, page)
    ensures CurrentArtwork(selected, page).Some? <==> PageCount(selected) > 0
  {
  }

  /** The three moves keep the index in range. */
  lemma MovesStayInRange(selected: Option<ArtCollection>, page: int, i: int)
    requires InRange(selected, page)
    ensures InRange(selected, if CanGoNext(selected, page) then page + 1 else page)
    ensures InRange(selected, if CanGoPrev(page) then page - 1 else page)
    ensures InRange(selected, if CanGoTo(selected, i) then i else page)
  {
  }
}
