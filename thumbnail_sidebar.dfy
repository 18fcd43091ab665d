/**
 * The thumbnail sidebar of the viewer: a "current / total" counter, one item per page of
 * which exactly the current one is marked active, and per-item lazy thumbnail loading.
 */
module ThumbnailSidebar {
  import opened Wrappers
  import opened Domain
  import opened Text
  import opened Paging

  /** The counter text `{currentPage + 1} / {pages.length}`. */
  function CounterText(currentPage: int, pageCount: nat): string
  {
    IntToDecimal(currentPage + 1) + " / " + NatToDecimal(pageCount)
  }

  /** Different positions or page counts never show the same counter. */
  lemma CounterTextInjective(p: int, n: nat, q: int, m: nat)
    ensures CounterText(p, n) == CounterText(q, m) <==> p == q && n == m
  {
    if CounterText(p, n) == CounterText(q, m) {
      var t, u := " / " + NatToDecimal(n), " / " + NatToDecimal(m);
      assert CounterText(p, n) == IntToDecimal(p + 1) + t;
      assert CounterText(q, m) == IntToDecimal(q + 1) + u;
      RenderedIntThenUnique(p + 1, t, q + 1, u);
      assert NatToDecimal(n) == t[3..] && NatToDecimal(m) == u[3..];
      NatRoundTrip(n);
      NatRoundTrip(m);
    }
  }

  /** One rendered item: its page, its index, whether it is highlighted. */
  datatype Thumb = Thumb(page: ArtworkPage, index: nat, isActive: bool)

  /** `pages.map((page, index) => <ThumbnailItem … isActive={index === currentPage} />)` */
  function Thumbnails(pages: seq<ArtworkPage>, currentPage: int): (ts: seq<Thumb>)
    ensures |ts| == |pages|
    ensures forall i :: 0 <= i < |ts| ==> ts[i].page == pages[i] && ts[i].index == i
    ensures forall i :: 0 <= i < |ts| ==> (ts[i].isActive <==> i == currentPage)
  {
    seq(|pages|, i requires 0 <= i < |pages| => Thumb(pages[i], i, i == currentPage))
  }

  function ActiveCount(ts: seq<Thumb>): nat
  {
    if ts == [] then 0 else (if ts[0].isActive then 1 else 0) + ActiveCount(ts[1..])
  }

  lemma {:induction false} ActiveCountOfRun(ts: seq<Thumb>, base: int, currentPage: int)
    requires forall i :: 0 <= i < |ts| ==> ts[i].index == base + i
    requires forall i :: 0 <= i < |ts| ==> (ts[i].isActive <==> ts[i].index == currentPage)
    ensures ActiveCount(ts) == if base <= currentPage < base + |ts| then 1 else 0
    decreases |ts|
  {
    if ts != [] {
      ActiveCountOfRun(ts[1..], base + 1, currentPage);
    }
  }

  /** Exactly one item is active when the current page exists, and none otherwise. */
  lemma ActiveThumbnailCount(pages: seq<ArtworkPage>, currentPage: int)
    ensures ActiveCount(Thumbnails(pages, currentPage)) == if 0 <= currentPage < |pages| then 1 else 0
  {
    ActiveCountOfRun(Thumbnails(pages, currentPage), 0, currentPage);
  }

  /** Within the viewer's invariant, the active item is the page the viewer shows. */
  lemma ActiveThumbnailIsShownPage(selected: Option<ArtCollection>, page: int, i: int)
    requires selected.Some? && InRange(selected, page)
    requires 0 <= i < |selected.value.pages|
    ensures Thumbnails(selected.value.pages, page)[i].isActive ==>
      CurrentArtwork(selected, page) == Some(selected.value.pages[i])
  {
  }

  /** Clicking item i asks for page i, which the viewer's `goToPage` always accepts. */
  lemma SelectingThumbnailIsAccepted(selected: Option<ArtCollection>, page: int, i: int)
    requires selected.Some? && 0 <= i < |selected.value.pages|
    ensures CanGoTo(selected, Thumbnails(selected.value.pages, page)[i].index)
  {
  }

  /** One sidebar item and its lazily loaded thumbnail. */
  class ThumbnailItem {
    const page: ArtworkPage
    var imageLoading: bool
    var imageError: bool
    var imageSrc: string
    var isVisible: bool

    constructor (page: ArtworkPage)
      ensures this.page == page
      ensures imageLoading && !imageError && imageSrc == "" && !isVisible
    {
      this.page := page;
      imageLoading := true;
      imageError := false;
      imageSrc := "";
      isVisible := false;
    }

    /** Whether the `<Image>` element is rendered. */
    predicate ShowsImage()
      reads this
    {
      imageSrc != "" && !imageError
    }

    /** The staggered visibility timer firing. */
    method BecomeVisible()
      modifies this
      ensures isVisible
      ensures imageLoading == old(imageLoading) && imageError == old(imageError) && imageSrc == old(imageSrc)
    {
      isVisible := true;
    }

    /**
     * `loadThumbnail`: nothing happens before the item is visible. Afterwards any non-empty
     * `page.image`, whitespace-only included, becomes the source; a missing or empty one is an
     * error. Loading ends on every path.
     */
    method LoadThumbnail()
      modifies this
      ensures !old(isVisible) ==> unchanged(this)
      ensures old(isVisible) ==> !imageLoading && isVisible
      ensures old(isVisible) && IsTruthy(page.image) ==>
        imageSrc == page.image.value && !imageError && ShowsImage()
      ensures old(isVisible) && !IsTruthy(page.image) ==>
        imageSrc == old(imageSrc) && imageError && !ShowsImage()
    {
      if !isVisible {
        return;
      }
      imageLoading := true;
      imageError := false;
      if page.image.Some? && page.image.value != "" && Trim(page.image.value) != "" {
        imageSrc := page.image.value;
        imageLoading := false;
        return;
      }
      if page.image.Some? && page.image.value != "" {
        imageSrc := page.image.value;
      } else {
        imageError := true;
      }
      imageLoading := false;
    }

    /** The image's `onLoad`. */
    method HandleImageLoad()
      modifies this
      ensures !imageLoading && !imageError
      ensures imageSrc == old(imageSrc) && isVisible == old(isVisible)
    {
      imageLoading := false;
      imageError := false;
    }

    /** The image's `onError`: the placeholder replaces the image. */
    method HandleImageError()
      modifies this
      ensures !imageLoading && imageError && !ShowsImage()
      ensures imageSrc == old(imageSrc) && isVisible == old(isVisible)
    {
      imageLoading := false;
      imageError := true;
    }
  }
}
