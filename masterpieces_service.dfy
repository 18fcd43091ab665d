/**
 * The collections and configuration gateway client (`MasterpiecesService`,
 * `masterpiecesConfigService`, `defaultConfig`). Collections, search results, single
 * collections and the configuration come back as bare bodies; the overview and the
 * configuration update are enveloped.
 */
module MasterpiecesService {
  import opened Wrappers
  import opened Text
  import opened Domain
  import opened Http

  /** The decoded body of GET /api/masterpieces/collections, as far as `Array.isArray` can tell. */
  datatype CollectionsBody = JsonArray(collections: seq<ArtCollection>) | NotAnArray

  const FormatError: string := "获取画集失败: 响应格式错误"

  /** All collections; a successful response whose body is not an array is rejected. */
  function GetAllCollections(r: Response<CollectionsBody>): (res: Result<seq<ArtCollection>>)
    ensures res.Ok? <==> r.Received? && IsSuccessful(r.statusCode) && r.body.JsonArray?
    ensures res.Ok? ==> res.value == r.body.collections
    ensures r.Received? && IsSuccessful(r.statusCode) && r.body.NotAnArray? ==>
      res == Err(Error("获取画集失败: 响应格式错误"))
    ensures r.Received? && !IsSuccessful(r.statusCode) ==> res == Err(Error(FailureMessage(r.statusCode)))
  {
    match Request(r)
    case Err(t) => Err(t)
    case Ok(body) =>
      if body.JsonArray? then Ok(body.collections) else Err(Error(FormatError))
  }

  const CollectionsPath: string := "/api/masterpieces/collections/"

  /** The path that `getCollectionById(id)` requests. */
  function CollectionPath(id: int): (path: string)
    ensures |CollectionsPath| < |path| && path[..|CollectionsPath|] == CollectionsPath
  {
    CollectionsPath + IntToDecimal(id)
  }

  /** Distinct collection ids are requested at distinct paths. */
  lemma CollectionPathInjective(a: int, b: int)
    ensures CollectionPath(a) == CollectionPath(b) <==> a == b
  {
    if CollectionPath(a) == CollectionPath(b) {
      assert CollectionPath(a)[|CollectionsPath|..] == IntToDecimal(a);
      assert CollectionPath(b)[|CollectionsPath|..] == IntToDecimal(b);
      IntToDecimalInjective(a, b);
    }
  }

  /** A single collection: the bare body, unchecked. */
  function GetCollectionById(r: Response<ArtCollection>): (res: Result<ArtCollection>)
    ensures res.Ok? <==> r.Received? && IsSuccessful(r.statusCode)
    ensures res.Ok? ==> res.value == r.body
  {
    Request(r)
  }

  /** Search results: the bare body, not checked to be an array. */
  function SearchCollections(r: Response<seq<ArtCollection>>): (res: Result<seq<ArtCollection>>)
    ensures res.Ok? <==> r.Received? && IsSuccessful(r.statusCode)
    ensures res.Ok? ==> res.value == r.body
  {
    Request(r)
  }

  const OverviewFailed: string := "获取画集概览失败"

  function GetCollectionsOverview(r: Response<Envelope<CollectionsOverview>>): (res: Result<CollectionsOverview>)
    ensures res.Ok? <==> r.Received? && IsSuccessful(r.statusCode) && r.body.success
    ensures res.Ok? ==> res.value == r.body.data
    ensures r.Received? && IsSuccessful(r.statusCode) && !r.body.success ==>
      res == Err(Error(TruthyOr(r.body.message, "获取画集概览失败")))
  {
    RequestEnvelope(r, OverviewFailed)
  }

  /** GET /api/masterpieces/config: the bare body, with no envelope unwrapping. */
  function GetConfig(r: Response<MasterpiecesConfig>): (res: Result<MasterpiecesConfig>)
    ensures res.Ok? <==> r.Received? && IsSuccessful(r.statusCode)
    ensures res.Ok? ==> res.value == r.body
  {
    Request(r)
  }

  const UpdateConfigFailed: string := "更新配置失败"

  /** PUT /api/masterpieces/config: enveloped. */
  function UpdateConfig(r: Response<Envelope<MasterpiecesConfig>>): (res: Result<MasterpiecesConfig>)
    ensures res.Ok? <==> r.Received? && IsSuccessful(r.statusCode) && r.body.success
    ensures res.Ok? ==> res.value == r.body.data
    ensures r.Received? && IsSuccessful(r.statusCode) && !r.body.success ==>
      res == Err(Error(TruthyOr(r.body.message, "更新配置失败")))
  {
    RequestEnvelope(r, UpdateConfigFailed)
  }

  /** The configuration the front end ships with. */
  function DefaultConfig(): (c: MasterpiecesConfig)
    ensures c.maxCollectionsPerPage == 20 && c.defaultCategory == "画集"
    ensures c.enableSearch && c.enableCategories
    ensures c.heroTitle == c.siteName == "艺术画集展览"
  {
    MasterpiecesConfig(
      siteName := "艺术画集展览",
      heroTitle := "艺术画集展览",
      heroSubtitle := "探索精美的艺术作品，感受创作的魅力",
      maxCollectionsPerPage := 20,
      enableSearch := true,
      enableCategories := true,
      defaultCategory := "画集",
      theme := "light",
      language := "zh")
  }
}
