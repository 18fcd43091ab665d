/**
 * The artwork viewer: where the displayed image comes from (the artwork's own image, else a
 * path built from its file id, else an error), the image element's load/error events, and
 * the enabled state of the two page buttons.
 */
module ArtworkViewer {
  import opened Wrappers
  import opened Domain
  import opened Text
  import opened Paging

  const CollectionsPrefix: string := "/api/masterpieces/collections/"
  const ArtworksInfix: string := "/artworks/"
  const ImageSuffix: string := "/image"

  /** The gateway path of an artwork's image, for artworks that only carry a file id. */
  function ArtworkImagePath(collectionId: int, artworkId: int): (path: string)
    ensures |CollectionsPrefix| + |ImageSuffix| < |path|
    ensures path[..|CollectionsPrefix|] == CollectionsPrefix
    ensures path[|path| - |ImageSuffix|..] == ImageSuffix
  {
    CollectionsPrefix + (IntToDecimal(collectionId) + (ArtworksInfix + (IntToDecimal(artworkId) + ImageSuffix)))
  }

  lemma CancelPrefix(p: string, x: string, y: string)
    requires p + x == p + y
    ensures x == y
  {
    assert x == (p + x)[|p|..];
    assert y == (p + y)[|p|..];
  }

  /** Distinct (collection, artwork) pairs get distinct image paths. */
  lemma ArtworkImagePathInjective(c1: int, a1: int, c2: int, a2: int)
    ensures ArtworkImagePath(c1, a1) == ArtworkImagePath(c2, a2) <==> c1 == c2 && a1 == a2
  {
    if ArtworkImagePath(c1, a1) == ArtworkImagePath(c2, a2) {
      var t1 := ArtworksInfix + (IntToDecimal(a1) + ImageSuffix);
      var t2 := ArtworksInfix + (IntToDecimal(a2) + ImageSuffix);
      CancelPrefix(CollectionsPrefix, IntToDecimal(c1) + t1, IntToDecimal(c2) + t2);
      RenderedIntThenUnique(c1, t1, c2, t2);
      CancelPrefix(ArtworksInfix, IntToDecimal(a1) + ImageSuffix, IntToDecimal(a2) + ImageSuffix);
      RenderedIntThenUnique(a1, ImageSuffix, a2, ImageSuffix);
    }
  }

  /**
   * The source `loadImage` settles on: a truthy `image` wins, then a truthy `fileId` gives the
   * gateway path, otherwise there is none.
   */
  function ImageSource(artwork: ArtworkPage, collectionId: int): (src: Option<string>)
    ensures src.None? <==> !IsTruthy(artwork.image) && !IsTruthy(artwork.fileId)
    ensures src.Some? ==> src.value != ""
  {
    if IsTruthy(artwork.image) then Some(artwork.image.value)
    else if IsTruthy(artwork.fileId) then Some(ArtworkImagePath(collectionId, artwork.id))
    else None
  }

  /** The direct image takes precedence: the file id is consulted only when there is no image. */
  lemma ImageTakesPrecedence(artwork: ArtworkPage, collectionId: int)
    ensures IsTruthy(artwork.image) ==> ImageSource(artwork, collectionId) == Some(artwork.image.value)
    ensures !IsTruthy(artwork.image) && IsTruthy(artwork.fileId) ==>
      ImageSource(artwork, collectionId) == Some(ArtworkImagePath(collectionId, artwork.id))
  {
  }

  /** Two file-id-only artworks of one collection never share an image path. */
  lemma FileIdSourcesDistinct(x: ArtworkPage, y: ArtworkPage, collectionId: int)
    requires !IsTruthy(x.image) && IsTruthy(x.fileId)
    requires !IsTruthy(y.image) && IsTruthy(y.fileId)
    requires x.id != y.id
    ensures ImageSource(x, collectionId) != ImageSource(y, collectionId)
  {
    ArtworkImagePathInjective(collectionId, x.id, collectionId, y.id);
  }

  /** Whether each page button is disabled. */
  datatype NavButtons = NavButtons(prevDisabled: bool, nextDisabled: bool)

  function Nav(canGoPrev: bool, canGoNext: bool): NavButtons
  {
    NavButtons(!canGoPrev, !canGoNext)
  }

  /**
   * With the flags the pages pass in, the previous button is disabled exactly on the first
   * page and the next button exactly when no later artwork exists.
   */
  lemma NavDisabledExactlyAtEnds(selected: Option<ArtCollection>, page: int)
    requires InRange(selected, page)
    ensures Nav(CanGoPrev(page), CanGoNext(selected, page)).prevDisabled <==> page == 0
    ensures Nav(CanGoPrev(page), CanGoNext(selected, page)).nextDisabled <==>
      CurrentArtwork(selected, page + 1).None?
  {
    CanGoNextIffNextExists(selected, page);
  }

  class Viewer {
    const artwork: ArtworkPage
    const collectionId: int
    var imageLoading: bool
    var imageError: bool
    var imageSrc: string

    constructor (artwork: ArtworkPage, collectionId: int)
      ensures this.artwork == artwork && this.collectionId == collectionId
      ensures imageLoading && !imageError && imageSrc == ""
    {
      this.artwork := artwork;
      this.collectionId := collectionId;
      imageLoading := true;
      imageError := false;
      imageSrc := "";
    }

    /** Whether the `<Image>` element is rendered. */
    predicate ShowsImage()
      reads this
    {
      imageSrc != "" && !imageError
    }

    /** `loadImage`: settle on a source or flag the error; loading ends on every path. */
    method LoadImage()
      modifies this
      ensures !imageLoading
      ensures ImageSource(artwork, collectionId).Some? ==>
        imageSrc == ImageSource(artwork, collectionId).value && !imageError && ShowsImage()
      ensures ImageSource(artwork, collectionId).None? ==>
        imageSrc == old(imageSrc) && imageError && !ShowsImage()
    {
      imageLoading := true;
      imageError := false;
      if artwork.image.Some? && artwork.image.value != "" {
        imageSrc := artwork.image.value;
        imageLoading := false;
        return;
      }
      if artwork.fileId.Some? && artwork.fileId.value != "" {
        imageSrc := ArtworkImagePath(collectionId, artwork.id);
        imageLoading := false;
        return;
      }
      imageError := true;
      imageLoading := false;
    }

    /** The image's `onLoad`. */
    method HandleImageLoad()
      modifies this
      ensures !imageLoading && !imageError
      ensures imageSrc == old(imageSrc)
    {
      imageLoading := false;
      imageError := false;
    }

    /** The image's `onError`. */
    method HandleImageError()
      modifies this
      ensures !imageLoading && imageError && !ShowsImage()
      ensures imageSrc == old(imageSrc)
    {
      imageLoading := false;
      imageError := true;
    }
  }
}
