/** The cart panel: it shows the very list the cart service holds (the
    component's `cartItems` is the service's field, not a copy) and keeps
    one flag of its own, whether the panel is expanded. */
module CartPanel {
  import opened Models
  import opened CartState

  class CartComponent {
    const service: CartService
    var isExpanded: bool

    /** The panel starts collapsed. */
    constructor (service: CartService)
      ensures this.service == service
      ensures !isExpanded
    {
      this.service := service;
      isExpanded := false;
    }

    /** `toggleCart`: flips the expanded flag and nothing else. */
    method ToggleCart()
      modifies this
      ensures isExpanded == !old(isExpanded)
    {
      isExpanded := !isExpanded;
    }

    /** Two toggles in a row leave the panel as it was. */
    method ToggleCartTwice()
      modifies this
      ensures isExpanded == old(isExpanded)
    {
      ToggleCart();
      ToggleCart();
    }

    /** `getTotalItems`: the total quantity of the shared list. It is 0 for
        an empty cart and always agrees with the service's count. */
    function GetTotalItems(): (n: int)
      reads this, service
      ensures service.cartItems == [] ==> n == 0
      ensures service.Valid() ==> n == service.cartItemsCount
    {
      Sum(service.cartItems)
    }

    /** `loadCart`: the list fetched from the server becomes the held one. */
    method LoadCart(fetched: seq<CartItem>)
      modifies service
      ensures service.Valid() && service.cartItems == fetched
      ensures GetTotalItems() == service.cartItemsCount
    {
      service.GetCart(fetched);
    }

    /** `removeItem`: drops the held items with that cart-item id. When
        exactly one item carries the id, the total falls by its quantity. */
    method RemoveItem(cartItemId: int)
      requires service.Valid()
      modifies service
      ensures service.Valid()
      ensures service.cartItems == Filter(old(service.cartItems), cartItemId)
      ensures forall k: nat :: OnlyAt(old(service.cartItems), k, cartItemId) ==>
                GetTotalItems() == old(GetTotalItems()) - old(service.cartItems)[k].quantity
    {
      var items := service.cartItems;
      forall k: nat | OnlyAt(items, k, cartItemId)
        ensures Sum(Filter(items, cartItemId)) == Sum(items) - items[k].quantity
      {
        FilterUniqueSum(items, k, cartItemId);
      }
      service.RemoveFromCart(cartItemId);
    }

    /** `clearCart`: empties the cart once the user has confirmed; the
        answer to the confirmation dialog is a parameter. */
    method ClearCart(confirmed: bool)
      requires service.Valid()
      modifies service
      ensures service.Valid()
      ensures confirmed ==> service.cartItems == [] && GetTotalItems() == 0
      ensures !confirmed ==> service.cartItems == old(service.cartItems) &&
                             service.cartItemsCount == old(service.cartItemsCount)
    {
      if confirmed {
        service.ClearCart();
      }
    }
  }
}
