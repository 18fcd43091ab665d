/**
 * The cart page's handlers, as the actions they choose: a quantity change becomes an update or
 * a removal, the +/- buttons request one more or one fewer, and checkout answers with one of
 * two notices.
 */
module CartPage {
  import opened Wrappers
  import opened Domain

  const CartIsEmpty: string := "购物车为空"
  const CheckoutPending: string := "结算功能开发中"

  /** The hook call a handler chooses. */
  datatype CartAction = Remove(collectionId: int) | Update(collectionId: int, quantity: int)

  /** `handleUpdateQuantity(id, q)`: zero or less removes the line, anything else sets it to q. */
  function HandleUpdateQuantity(collectionId: int, quantity: int): (a: CartAction)
    ensures a.collectionId == collectionId
    ensures a.Remove? <==> quantity <= 0
    ensures a.Update? ==> a.quantity == quantity && a.quantity >= 1
  {
    if quantity <= 0 then Remove(collectionId) else Update(collectionId, quantity)
  }

  /** `handleCheckout`: the notice shown. */
  function HandleCheckout(cart: Cart): (notice: string)
    ensures notice == CartIsEmpty <==> cart.items == []
    ensures notice == CheckoutPending <==> cart.items != []
  {
    if |cart.items| == 0 then CartIsEmpty else CheckoutPending
  }

  /** The '-' button of a line: disabled at quantity one or less, otherwise one fewer. */
  function DecrementRequest(item: CartItem): Option<CartAction>
  {
    if item.quantity <= 1 then None else Some(HandleUpdateQuantity(item.collectionId, item.quantity - 1))
  }

  /** The '+' button of a line. */
  function IncrementRequest(item: CartItem): CartAction
  {
    HandleUpdateQuantity(item.collectionId, item.quantity + 1)
  }

  /** The delete button of a line: the same call as setting the line's quantity to zero. */
  function RemoveRequest(item: CartItem): (a: CartAction)
    ensures a == HandleUpdateQuantity(item.collectionId, 0)
  {
    Remove(item.collectionId)
  }

  /** The '-' button never removes a line: when enabled it asks for a quantity of at least one. */
  lemma DecrementNeverRemoves(item: CartItem)
    ensures DecrementRequest(item).Some? <==> item.quantity > 1
    ensures DecrementRequest(item).Some? ==>
      DecrementRequest(item).value == Update(item.collectionId, item.quantity - 1)
  {
  }

  /** The '+' button asks for exactly one more, and removes only a line already below zero. */
  lemma IncrementAddsOne(item: CartItem)
    ensures item.quantity >= 0 ==> IncrementRequest(item) == Update(item.collectionId, item.quantity + 1)
    ensures IncrementRequest(item).Remove? <==> item.quantity < 0
  {
  }

  /** '+' then '-' (once the cart shows the new quantity) asks for the original quantity back. */
  lemma IncrementThenDecrement(item: CartItem)
    requires item.quantity >= 1
    ensures var bumped := item.(quantity := IncrementRequest(item).quantity);
      DecrementRequest(bumped) == Some(Update(item.collectionId, item.quantity))
  {
  }
}
