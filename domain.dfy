/** The entities the front end receives from the server. All are values, replaced wholesale. */
module Domain {
  import opened Wrappers

  /**
   * The nine categories of the category grid, plus any other string the server might send
   * (`Unlisted`). The counter skips an unlisted category, except for names of properties every
   * JavaScript object inherits (such as 'toString'), which are not modelled.
   */
  datatype Category =
    | Gallery        // '画集', CollectionCategory.COLLECTION
    | Acrylic
    | Badge
    | ColorPaper
    | Postcard
    | LaserTicket
    | CanvasBag
    | SupportStick
    | Other
    | Unlisted(name: string)

  /** The nine keys of the counter record, in declaration order. */
  const ListedCategories: seq<Category> :=
    [Gallery, Acrylic, Badge, ColorPaper, Postcard, LaserTicket, CanvasBag, SupportStick, Other]

  predicate IsListed(c: Category)
  {
    !c.Unlisted?
  }

  /** One artwork of a collection; its picture is a direct `image` URI or a server-side `fileId`. */
  datatype ArtworkPage = ArtworkPage(
    id: int,
    title: string,
    number: string,
    image: Option<string>,
    fileId: Option<string>)

  /** A collection (or, when its category is not Gallery, a product) with its ordered pages. */
  datatype ArtCollection = ArtCollection(
    id: int,
    title: string,
    number: string,
    category: Category,
    price: Option<int>,
    coverImage: string,
    pages: seq<ArtworkPage>)

  /** The display snapshot of a collection embedded in a cart line. */
  datatype ItemSnapshot = ItemSnapshot(title: string, category: Category, price: Option<int>, coverImage: string)

  datatype CartItem = CartItem(collectionId: int, quantity: int, collection: ItemSnapshot)

  /** A cart as the server reports it; the totals are the server's, never recomputed here. */
  datatype Cart = Cart(items: seq<CartItem>, totalQuantity: int, totalPrice: int)

  const EmptyCart: Cart := Cart([], 0, 0)

  datatype MasterpiecesConfig = MasterpiecesConfig(
    siteName: string,
    heroTitle: string,
    heroSubtitle: string,
    maxCollectionsPerPage: int,
    enableSearch: bool,
    enableCategories: bool,
    defaultCategory: string,
    theme: string,
    language: string)

  datatype CollectionsOverview = CollectionsOverview(total: int, categories: map<string, int>)

  /** A batch-booking request; its fields are defined in src/types/cart.ts, which is not part of this model, so it is passed through whole. */
  datatype BookingRequest = BookingRequest(body: string)

  datatype BookingResult = BookingResult(successCount: int)
}
