/**
 * The shared cart state (`CartProvider`): a cart with loading and error flags, refreshed from
 * `getCart` on mount and on every 'cart-update' event; plus the event channel itself and the
 * `useCartContext` accessor.
 */
module CartContext {
  import opened Wrappers
  import opened Domain
  import opened Http
  import CartService

  const CartUpdateEvent: string := "cart-update"
  const RefreshFailed: string := "刷新购物车失败"
  const OutsideProvider: string := "useCartContext must be used within a CartProvider"

  datatype CartState = CartState(cart: Cart, loading: bool, error: Option<string>)

  /** The provider's first state: an empty cart, idle, no error. */
  const InitialState: CartState := CartState(EmptyCart, false, None)

  /** The first update of `refreshCart`: loading, error cleared, cart kept. */
  function Begin(prev: CartState): (next: CartState)
    ensures next.cart == prev.cart && next.loading && next.error == None
  {
    prev.(loading := true, error := None)
  }

  /**
   * The second update of `refreshCart`: a fetched cart replaces the old one wholesale; a
   * failure keeps the old cart and records the message or '刷新购物车失败'.
   */
  function Settle(prev: CartState, outcome: Result<Cart>): (next: CartState)
    ensures !next.loading
    ensures outcome.Ok? ==> next.cart == outcome.value && next.error == prev.error
    ensures outcome.Err? ==> next.cart == prev.cart && next.error == Some(MessageOr(outcome.thrown, RefreshFailed))
  {
    match outcome
    case Ok(c) => prev.(cart := c, loading := false)
    case Err(t) => prev.(loading := false, error := Some(MessageOr(t, RefreshFailed)))
  }

  /**
   * Because `getCart` never rejects, a refresh always ends with no error, showing either the
   * server's cart or, after any failure, the empty cart.
   */
  lemma RefreshNeverShowsError(prev: CartState, r: Response<Cart>)
    ensures Settle(Begin(prev), Ok(CartService.GetCart(r))).error == None
    ensures !(r.Received? && IsSuccessful(r.statusCode)) ==>
      Settle(Begin(prev), Ok(CartService.GetCart(r))).cart.items == []
  {
  }

  /** A refresh result does not depend on the cart it replaces. */
  lemma RefreshForgetsPreviousCart(p: CartState, q: CartState, r: Response<Cart>)
    ensures Settle(Begin(p), Ok(CartService.GetCart(r))) == Settle(Begin(q), Ok(CartService.GetCart(r)))
  {
  }

  /** `useCartContext`: the provider's state, or a throw outside any provider. */
  function UseCartContext(context: Option<CartState>): (res: Result<CartState>)
    ensures res.Ok? <==> context.Some?
    ensures res.Ok? ==> res.value == context.value
    ensures res.Err? ==> res.thrown == Error(OutsideProvider)
  {
    match context
    case Some(s) => Ok(s)
    case None => Err(Error(OutsideProvider))
  }

  /**
   * The application's event channel restricted to 'cart-update'. `listeners` are the
   * registered handlers (by identity, with multiplicity); `deliveries` are the handler
   * invocations a trigger has produced and that have not run yet; `triggered` counts triggers.
   */
  class CartUpdateChannel {
    var listeners: multiset<nat>
    var deliveries: multiset<nat>
    var triggered: nat

    constructor ()
      ensures listeners == multiset{} && deliveries == multiset{} && triggered == 0
    {
      listeners := multiset{};
      deliveries := multiset{};
      triggered := 0;
    }

    /** `eventCenter.on` */
    method On(handler: nat)
      modifies this
      ensures listeners == old(listeners) + multiset{handler}
      ensures deliveries == old(deliveries) && triggered == old(triggered)
    {
      listeners := listeners + multiset{handler};
    }

    /** `eventCenter.off`: the handler no longer receives anything. */
    method Off(handler: nat)
      modifies this
      ensures listeners == old(listeners)[handler := 0]
      ensures deliveries == old(deliveries) && triggered == old(triggered)
    {
      listeners := listeners[handler := 0];
    }

    /** `eventCenter.trigger`: one invocation per registered listener. */
    method Trigger()
      modifies this
      ensures listeners == old(listeners)
      ensures deliveries == old(deliveries) + old(listeners)
      ensures triggered == old(triggered) + 1
    {
      deliveries := deliveries + listeners;
      triggered := triggered + 1;
    }
  }

  /** `triggerCartUpdate()` */
  method TriggerCartUpdate(channel: CartUpdateChannel)
    modifies channel
    ensures channel.listeners == old(channel.listeners)
    ensures channel.deliveries == old(channel.deliveries) + old(channel.listeners)
    ensures channel.triggered == old(channel.triggered) + 1
  {
    channel.Trigger();
  }

  class CartProvider {
    const userId: int
    /** The identity of this provider's `handleCartUpdate`. */
    const handler: nat
    var state: CartState

    constructor (userId: int, handler: nat)
      ensures this.userId == userId && this.handler == handler
      ensures state == InitialState
    {
      this.userId := userId;
      this.handler := handler;
      state := InitialState;
    }

    /**
     * `refreshCart`: a no-op for a falsy user id; otherwise the state runs through Begin and
     * then Settle with `getCart`'s cart.
     */
    method RefreshCart(response: Response<Cart>)
      modifies this
      ensures userId == 0 ==> state == old(state)
      ensures userId != 0 ==> state == Settle(Begin(old(state)), Ok(CartService.GetCart(response)))
      ensures userId != 0 ==> state.cart == CartService.GetCart(response) && !state.loading && state.error == None
    {
      if userId == 0 {
        return;
      }
      state := Begin(state);
      var cartData := CartService.GetCart(response);
      state := Settle(state, Ok(cartData));
    }

    /** The subscription effect's setup. */
    method Subscribe(channel: CartUpdateChannel)
      modifies channel
      ensures channel.listeners == old(channel.listeners) + multiset{handler}
      ensures channel.deliveries == old(channel.deliveries) && channel.triggered == old(channel.triggered)
    {
      channel.On(handler);
    }

    /** The subscription effect's teardown. */
    method Unsubscribe(channel: CartUpdateChannel)
      modifies channel
      ensures channel.listeners == old(channel.listeners)[handler := 0]
      ensures channel.deliveries == old(channel.deliveries) && channel.triggered == old(channel.triggered)
    {
      channel.Off(handler);
    }

    /** `handleCartUpdate` running for one delivered event: one refresh. */
    method HandleCartUpdate(channel: CartUpdateChannel, response: Response<Cart>)
      requires handler in channel.deliveries
      modifies this, channel
      ensures channel.deliveries == old(channel.deliveries) - multiset{handler}
      ensures channel.listeners == old(channel.listeners) && channel.triggered == old(channel.triggered)
      ensures userId == 0 ==> state == old(state)
      ensures userId != 0 ==> state.cart == CartService.GetCart(response) && !state.loading && state.error == None
    {
      channel.deliveries := channel.deliveries - multiset{handler};
      RefreshCart(response);
    }
  }

  /** After teardown, a trigger delivers nothing to the provider. */
  method TeardownThenTrigger(provider: CartProvider, channel: CartUpdateChannel)
    requires provider.handler !in channel.deliveries
    modifies channel
    ensures provider.handler !in channel.deliveries
    ensures channel.triggered == old(channel.triggered) + 1
  {
    provider.Unsubscribe(channel);
    TriggerCartUpdate(channel);
  }

  /** While subscribed once, each trigger delivers exactly one invocation to the provider. */
  method SubscribedTrigger(provider: CartProvider, channel: CartUpdateChannel)
    requires channel.listeners[provider.handler] == 1
    modifies channel
    ensures channel.deliveries[provider.handler] == old(channel.deliveries)[provider.handler] + 1
  {
    TriggerCartUpdate(channel);
  }
}
