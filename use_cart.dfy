/**
 * The `useCart` hook: cart mutations as a small loading/error state machine. Each operation
 * checks the user id, calls one gateway endpoint, announces success on the 'cart-update'
 * channel, and records failures instead of throwing, except `batchBooking`, which rethrows.
 */
module UseCart {
  import opened Wrappers
  import opened Domain
  import opened Http
  import CartService
  import opened CartContext

  const UserIdRequired: string := "用户ID不能为空"
  const AddFailed: string := "添加到购物车失败"
  const UpdateFailed: string := "更新购物车失败"
  const RemoveFailed: string := "移除商品失败"
  const ClearFailed: string := "清空购物车失败"
  const BookingFailed: string := "批量预订失败"

  /** The gateway request an operation makes, with exactly the arguments it sends. */
  datatype ServiceCall =
    | AddToCartCall(userId: int, collectionId: int, quantity: int)
    | UpdateCartItemCall(userId: int, collectionId: int, quantity: int)
    | RemoveFromCartCall(userId: int, collectionId: int)
    | ClearCartCall(userId: int)
    | BatchBookingCall(userId: int, request: BookingRequest)

  class CartHook {
    const userId: int
    var loading: bool
    var error: Option<string>

    constructor (userId: int)
      ensures this.userId == userId && !loading && error == None
    {
      this.userId := userId;
      loading := false;
      error := None;
    }

    /** `clearError` */
    method ClearError()
      modifies this
      ensures error == None && loading == old(loading)
    {
      error := None;
    }

    /** The common tail of the guarded operations: announce on success, record on failure. */
    method Finish<T>(channel: CartUpdateChannel, outcome: Result<T>, fallback: string)
      modifies this, channel
      ensures !loading
      ensures outcome.Ok? ==>
        error == None &&
        channel.listeners == old(channel.listeners) &&
        channel.deliveries == old(channel.deliveries) + old(channel.listeners) &&
        channel.triggered == old(channel.triggered) + 1
      ensures outcome.Err? ==> error == Some(MessageOr(outcome.thrown, fallback)) && unchanged(channel)
    {
      loading := true;
      error := None;
      match outcome {
        case Ok(_) => TriggerCartUpdate(channel);
        case Err(t) => error := Some(MessageOr(t, fallback));
      }
      loading := false;
    }

    /**
     * `addItemToCart`. The snapshot of the collection is accepted but not sent: the request
     * carries only the id and the quantity.
     */
    method AddItemToCart(channel: CartUpdateChannel, collectionId: int, quantity: int,
                         snapshot: Option<ItemSnapshot>, response: Response<Envelope<Cart>>)
      returns (call: Option<ServiceCall>)
      modifies this, channel
      ensures userId == 0 ==>
        call == None && error == Some(UserIdRequired) && loading == old(loading) && unchanged(channel)
      ensures userId != 0 ==> call == Some(AddToCartCall(userId, collectionId, quantity)) && !loading
      ensures userId != 0 && CartService.AddToCart(response).Ok? ==>
        error == None &&
        channel.listeners == old(channel.listeners) &&
        channel.deliveries == old(channel.deliveries) + old(channel.listeners) &&
        channel.triggered == old(channel.triggered) + 1
      ensures userId != 0 && CartService.AddToCart(response).Err? ==>
        error == Some(MessageOr(CartService.AddToCart(response).thrown, AddFailed)) && unchanged(channel)
    {
      if userId == 0 {
        error := Some(UserIdRequired);
        return None;
      }
      call := Some(AddToCartCall(userId, collectionId, quantity));
      Finish(channel, CartService.AddToCart(response), AddFailed);
    }

    /** `updateItemQuantity` */
    method UpdateItemQuantity(channel: CartUpdateChannel, collectionId: int, quantity: int,
                              response: Response<Envelope<Cart>>)
      returns (call: Option<ServiceCall>)
      modifies this, channel
      ensures userId == 0 ==>
        call == None && error == Some(UserIdRequired) && loading == old(loading) && unchanged(channel)
      ensures userId != 0 ==> call == Some(UpdateCartItemCall(userId, collectionId, quantity)) && !loading
      ensures userId != 0 && CartService.UpdateCartItem(response).Ok? ==>
        error == None &&
        channel.listeners == old(channel.listeners) &&
        channel.deliveries == old(channel.deliveries) + old(channel.listeners) &&
        channel.triggered == old(channel.triggered) + 1
      ensures userId != 0 && CartService.UpdateCartItem(response).Err? ==>
        error == Some(MessageOr(CartService.UpdateCartItem(response).thrown, UpdateFailed)) && unchanged(channel)
    {
      if userId == 0 {
        error := Some(UserIdRequired);
        return None;
      }
      call := Some(UpdateCartItemCall(userId, collectionId, quantity));
      Finish(channel, CartService.UpdateCartItem(response), UpdateFailed);
    }

    /** `removeItemFromCart` */
    method RemoveItemFromCart(channel: CartUpdateChannel, collectionId: int,
                              response: Response<Envelope<Cart>>)
      returns (call: Option<ServiceCall>)
      modifies this, channel
      ensures userId == 0 ==>
        call == None && error == Some(UserIdRequired) && loading == old(loading) && unchanged(channel)
      ensures userId != 0 ==> call == Some(RemoveFromCartCall(userId, collectionId)) && !loading
      ensures userId != 0 && CartService.RemoveFromCart(response).Ok? ==>
        error == None &&
        channel.listeners == old(channel.listeners) &&
        channel.deliveries == old(channel.deliveries) + old(channel.listeners) &&
        channel.triggered == old(channel.triggered) + 1
      ensures userId != 0 && CartService.RemoveFromCart(response).Err? ==>
        error == Some(MessageOr(CartService.RemoveFromCart(response).thrown, RemoveFailed)) && unchanged(channel)
    {
      if userId == 0 {
        error := Some(UserIdRequired);
        return None;
      }
      call := Some(RemoveFromCartCall(userId, collectionId));
      Finish(channel, CartService.RemoveFromCart(response), RemoveFailed);
    }

    /** `clearCart`: guarded by the user id, then by the user's answer to the confirmation. */
    method ClearCart(channel: CartUpdateChannel, confirm: bool, response: Response<Envelope<Cart>>)
      returns (call: Option<ServiceCall>)
      modifies this, channel
      ensures userId == 0 ==>
        call == None && error == Some(UserIdRequired) && loading == old(loading) && unchanged(channel)
      ensures userId != 0 && !confirm ==> call == None && unchanged(this) && unchanged(channel)
      ensures userId != 0 && confirm ==> call == Some(ClearCartCall(userId)) && !loading
      ensures userId != 0 && confirm && CartService.ClearCart(response).Ok? ==>
        error == None &&
        channel.listeners == old(channel.listeners) &&
        channel.deliveries == old(channel.deliveries) + old(channel.listeners) &&
        channel.triggered == old(channel.triggered) + 1
      ensures userId != 0 && confirm && CartService.ClearCart(response).Err? ==>
        error == Some(MessageOr(CartService.ClearCart(response).thrown, ClearFailed)) && unchanged(channel)
    {
      if userId == 0 {
        error := Some(UserIdRequired);
        return None;
      }
      if !confirm {
        return None;
      }
      call := Some(ClearCartCall(userId));
      Finish(channel, CartService.ClearCart(response), ClearFailed);
    }

    /**
     * `batchBooking`: the only operation whose failures reach the caller. A falsy user id
     * throws before any state changes; a gateway failure is recorded and rethrown.
     */
    method BatchBooking(channel: CartUpdateChannel, request: BookingRequest,
                        response: Response<Envelope<BookingResult>>)
      returns (res: Result<BookingResult>, call: Option<ServiceCall>)
      modifies this, channel
      ensures userId == 0 ==>
        res == Err(Error(UserIdRequired)) && call == None && unchanged(this) && unchanged(channel)
      ensures userId != 0 ==>
        res == CartService.BatchBooking(response) && call == Some(BatchBookingCall(userId, request)) && !loading
      ensures userId != 0 && res.Ok? ==>
        error == None &&
        channel.listeners == old(channel.listeners) &&
        channel.deliveries == old(channel.deliveries) + old(channel.listeners) &&
        channel.triggered == old(channel.triggered) + 1
      ensures userId != 0 && res.Err? ==>
        error == Some(MessageOr(res.thrown, BookingFailed)) && unchanged(channel)
    {
      if userId == 0 {
        return Err(Error(UserIdRequired)), None;
      }
      call := Some(BatchBookingCall(userId, request));
      res := CartService.BatchBooking(response);
      Finish(channel, res, BookingFailed);
    }
  }

  /**
   * A successful add followed by the provider handling the event it caused: the cart shown is
   * the one `getCart` returns afterwards, not the cart carried by the add response.
   */
  method AddThenRefresh(hook: CartHook, provider: CartProvider, channel: CartUpdateChannel,
                        collectionId: int, quantity: int,
                        addResponse: Response<Envelope<Cart>>, cartResponse: Response<Cart>)
    requires hook.userId != 0 && provider.userId == hook.userId
    requires channel.listeners[provider.handler] == 1
    requires CartService.AddToCart(addResponse).Ok?
    modifies hook, provider, channel
    ensures provider.state.cart == CartService.GetCart(cartResponse)
    ensures !provider.state.loading && provider.state.error == None
    ensures !hook.loading && hook.error == None
    ensures channel.triggered == old(channel.triggered) + 1
  {
    var _ := hook.AddItemToCart(channel, collectionId, quantity, None, addResponse);
    provider.HandleCartUpdate(channel, cartResponse);
  }
}
