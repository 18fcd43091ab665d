/**
 * The cart gateway client (`CartService`): one function per endpoint, from the transport's
 * response to the settled promise. `getCart` is the only bare-body endpoint and never rejects.
 */
module CartService {
  import opened Wrappers
  import opened Domain
  import opened Http

  const AddFailed: string := "添加到购物车失败"
  const UpdateFailed: string := "更新购物车失败"
  const RemoveFailed: string := "移除购物车商品失败"
  const ClearFailed: string := "清空购物车失败"
  const BookingFailed: string := "批量预订失败"

  /** GET /api/cart/{userId}: the server's cart, or the empty cart on any failure. */
  function GetCart(r: Response<Cart>): (cart: Cart)
    ensures r.Received? && IsSuccessful(r.statusCode) ==> cart == r.body
    ensures !(r.Received? && IsSuccessful(r.statusCode)) ==>
      cart.items == [] && cart.totalQuantity == 0 && cart.totalPrice == 0
  {
    match Request(r)
    case Ok(c) => c
    case Err(_) => EmptyCart
  }

  /** POST /api/cart/{userId}/add */
  function AddToCart(r: Response<Envelope<Cart>>): (res: Result<Cart>)
    ensures res.Ok? <==> r.Received? && IsSuccessful(r.statusCode) && r.body.success
    ensures res.Ok? ==> res.value == r.body.data
    ensures r.Received? && !IsSuccessful(r.statusCode) ==> res == Err(Error(FailureMessage(r.statusCode)))
    ensures r.Received? && IsSuccessful(r.statusCode) && !r.body.success ==>
      res == Err(Error(TruthyOr(r.body.message, "添加到购物车失败")))
  {
    RequestEnvelope(r, AddFailed)
  }

  /** PUT /api/cart/{userId}/update */
  function UpdateCartItem(r: Response<Envelope<Cart>>): (res: Result<Cart>)
    ensures res.Ok? <==> r.Received? && IsSuccessful(r.statusCode) && r.body.success
    ensures res.Ok? ==> res.value == r.body.data
    ensures r.Received? && !IsSuccessful(r.statusCode) ==> res == Err(Error(FailureMessage(r.statusCode)))
    ensures r.Received? && IsSuccessful(r.statusCode) && !r.body.success ==>
      res == Err(Error(TruthyOr(r.body.message, "更新购物车失败")))
  {
    RequestEnvelope(r, UpdateFailed)
  }

  /** DELETE /api/cart/{userId}/remove */
  function RemoveFromCart(r: Response<Envelope<Cart>>): (res: Result<Cart>)
    ensures res.Ok? <==> r.Received? && IsSuccessful(r.statusCode) && r.body.success
    ensures res.Ok? ==> res.value == r.body.data
    ensures r.Received? && !IsSuccessful(r.statusCode) ==> res == Err(Error(FailureMessage(r.statusCode)))
    ensures r.Received? && IsSuccessful(r.statusCode) && !r.body.success ==>
      res == Err(Error(TruthyOr(r.body.message, "移除购物车商品失败")))
  {
    RequestEnvelope(r, RemoveFailed)
  }

  /** DELETE /api/cart/{userId}/clear */
  function ClearCart(r: Response<Envelope<Cart>>): (res: Result<Cart>)
    ensures res.Ok? <==> r.Received? && IsSuccessful(r.statusCode) && r.body.success
    ensures res.Ok? ==> res.value == r.body.data
    ensures r.Received? && !IsSuccessful(r.statusCode) ==> res == Err(Error(FailureMessage(r.statusCode)))
    ensures r.Received? && IsSuccessful(r.statusCode) && !r.body.success ==>
      res == Err(Error(TruthyOr(r.body.message, "清空购物车失败")))
  {
    RequestEnvelope(r, ClearFailed)
  }

  /** POST /api/cart/{userId}/booking */
  function BatchBooking(r: Response<Envelope<BookingResult>>): (res: Result<BookingResult>)
    ensures res.Ok? <==> r.Received? && IsSuccessful(r.statusCode) && r.body.success
    ensures res.Ok? ==> res.value == r.body.data
    ensures r.Received? && !IsSuccessful(r.statusCode) ==> res == Err(Error(FailureMessage(r.statusCode)))
    ensures r.Received? && IsSuccessful(r.statusCode) && !r.body.success ==>
      res == Err(Error(TruthyOr(r.body.message, "批量预订失败")))
  {
    RequestEnvelope(r, BookingFailed)
  }
}
