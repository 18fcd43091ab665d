/**
 * The add-to-cart button of a collection card: it looks the collection up in the shared cart,
 * routes "add" to an update when the collection is already there, and keeps a local quantity
 * selector and an "added" flag in step with the cart.
 */
module AddToCartButton {
  import opened Wrappers
  import opened Domain
  import opened Http
  import Seqs
  import CartService
  import opened CartContext
  import opened UseCart

  /** `cart.items.find(item => item.collectionId === collection.id)` */
  function FindCartItem(items: seq<CartItem>, collectionId: int): Option<CartItem>
  {
    Seqs.Find(items, (it: CartItem) => it.collectionId == collectionId)
  }

  /** The line found is the first one for the collection, and there is none only when no line matches. */
  lemma FindCartItemIsFirstLine(items: seq<CartItem>, collectionId: int)
    ensures FindCartItem(items, collectionId).None? <==>
      forall i :: 0 <= i < |items| ==> items[i].collectionId != collectionId
    ensures FindCartItem(items, collectionId).Some? ==>
      exists i :: 0 <= i < |items| && items[i] == FindCartItem(items, collectionId).value &&
        items[i].collectionId == collectionId &&
        forall j :: 0 <= j < i ==> items[j].collectionId != collectionId
  {
    var p := (it: CartItem) => it.collectionId == collectionId;
    var k := Seqs.FindIndex(items, p);
    if k.Some? {
      assert items[k.value] == FindCartItem(items, collectionId).value;
    }
  }

  /** `cartItem?.quantity || 0` */
  function CurrentQuantity(items: seq<CartItem>, collectionId: int): int
  {
    match FindCartItem(items, collectionId)
    case Some(item) => if item.quantity != 0 then item.quantity else 0
    case None => 0
  }

  /** The quantity shown is the cart line's quantity, and 0 when the collection is not in the cart. */
  lemma CurrentQuantityOfLine(items: seq<CartItem>, collectionId: int)
    ensures FindCartItem(items, collectionId).Some? ==>
      CurrentQuantity(items, collectionId) == FindCartItem(items, collectionId).value.quantity
    ensures FindCartItem(items, collectionId).None? ==> CurrentQuantity(items, collectionId) == 0
  {
  }

  /** The service call `handleAddToCart` makes for a user with a truthy id. */
  function AddRoute(userId: int, items: seq<CartItem>, collectionId: int, quantity: int): ServiceCall
  {
    if FindCartItem(items, collectionId).Some?
    then UpdateCartItemCall(userId, collectionId, CurrentQuantity(items, collectionId) + quantity)
    else AddToCartCall(userId, collectionId, quantity)
  }

  /**
   * Whichever route is taken, the quantity requested is what the cart holds plus what was
   * chosen: adding never replaces an existing line's quantity.
   */
  lemma AddRequestsCurrentPlusChosen(userId: int, items: seq<CartItem>, collectionId: int, quantity: int)
    ensures AddRoute(userId, items, collectionId, quantity).quantity ==
      CurrentQuantity(items, collectionId) + quantity
    ensures AddRoute(userId, items, collectionId, quantity).AddToCartCall? <==>
      forall i :: 0 <= i < |items| ==> items[i].collectionId != collectionId
  {
    FindCartItemIsFirstLine(items, collectionId);
  }

  /** The service call `handleCartQuantityChange(n)` makes for a user with a truthy id. */
  function CartQuantityRoute(userId: int, collectionId: int, newQuantity: int): (call: ServiceCall)
    ensures call.RemoveFromCartCall? || call.UpdateCartItemCall?
    ensures call.RemoveFromCartCall? <==> newQuantity <= 0
    ensures call.userId == userId && call.collectionId == collectionId
    ensures call.UpdateCartItemCall? ==> call.quantity == newQuantity && call.quantity >= 1
  {
    if newQuantity <= 0 then RemoveFromCartCall(userId, collectionId)
    else UpdateCartItemCall(userId, collectionId, newQuantity)
  }

  class AddToCartButtonState {
    const collection: ArtCollection
    const hook: CartHook
    var quantity: int
    var isAdded: bool

    /** The selector's quantity is at least one. */
    ghost predicate Valid()
      reads this
    {
      quantity >= 1
    }

    constructor (collection: ArtCollection, hook: CartHook)
      ensures this.collection == collection && this.hook == hook
      ensures quantity == 1 && !isAdded && Valid()
    {
      this.collection := collection;
      this.hook := hook;
      quantity := 1;
      isAdded := false;
    }

    /** The effect that follows the cart: copy the line's quantity, or reset to 1. */
    method SyncWithCart(cart: Cart)
      modifies this
      ensures FindCartItem(cart.items, collection.id).Some? ==>
        quantity == FindCartItem(cart.items, collection.id).value.quantity && isAdded
      ensures FindCartItem(cart.items, collection.id).None? ==> quantity == 1 && !isAdded && Valid()
    {
      var item := FindCartItem(cart.items, collection.id);
      if item.Some? {
        quantity := item.value.quantity;
        isAdded := true;
      } else {
        quantity := 1;
        isAdded := false;
      }
    }

    /**
     * `handleAddToCart`: routes to update or add, then marks the button added. The hook swallows
     * failures, so the mark is set whatever the gateway answered.
     */
    method HandleAddToCart(cart: Cart, channel: CartUpdateChannel, response: Response<Envelope<Cart>>)
      returns (call: Option<ServiceCall>)
      modifies this, hook, channel
      ensures isAdded && quantity == old(quantity)
      ensures hook.userId == 0 ==> call == None && hook.error == Some(UserIdRequired)
      ensures hook.userId != 0 ==>
        call == Some(AddRoute(hook.userId, cart.items, collection.id, quantity)) && !hook.loading
    {
      var cartItem := FindCartItem(cart.items, collection.id);
      if cartItem.Some? {
        call := hook.UpdateItemQuantity(channel, collection.id, CurrentQuantity(cart.items, collection.id) + quantity, response);
      } else {
        var snapshot := ItemSnapshot(collection.title, collection.category, collection.price, collection.coverImage);
        call := hook.AddItemToCart(channel, collection.id, quantity, Some(snapshot), response);
      }
      isAdded := true;
    }

    /** `handleQuantityChange`: values below one are ignored. */
    method HandleQuantityChange(newQuantity: int)
      requires Valid()
      modifies this
      ensures Valid()
      ensures quantity == if newQuantity >= 1 then newQuantity else old(quantity)
      ensures isAdded == old(isAdded)
    {
      if newQuantity >= 1 {
        quantity := newQuantity;
      }
    }

    /** `handleCartQuantityChange`: zero or less removes the line, anything else sets it. */
    method HandleCartQuantityChange(channel: CartUpdateChannel, newQuantity: int,
                                    response: Response<Envelope<Cart>>)
      returns (call: Option<ServiceCall>)
      modifies hook, channel
      ensures hook.userId == 0 ==> call == None && hook.error == Some(UserIdRequired)
      ensures hook.userId != 0 ==>
        call == Some(CartQuantityRoute(hook.userId, collection.id, newQuantity)) && !hook.loading
    {
      if newQuantity <= 0 {
        call := hook.RemoveItemFromCart(channel, collection.id, response);
      } else {
        call := hook.UpdateItemQuantity(channel, collection.id, newQuantity, response);
      }
    }
  }
}
