/** The prepared-food page: the same cart drawer as the home page, fetched by an
    effect whenever the drawer's open flag changes to true. */
module Cooked {
  import opened Gateway
  import opened CartModel
  import opened CartDrawer

  class CookedPage {
    const cart: CartState
    var isDrawerOpen: bool

    ghost predicate Valid()
      reads this, cart
    {
      cart.Valid()
    }

    /** The drawer starts closed and empty, with `loading` already true. */
    constructor ()
      ensures Valid() && fresh(cart)
      ensures cart.cartItems == [] && cart.total == 0 && cart.loading
      ensures !isDrawerOpen
    {
      cart := new CartState(true);
      isDrawerOpen := false;
    }

    /** The drawer's `onOpenChange` followed by the effect on `isDrawerOpen`:
        the effect runs only when the flag changed, and fetches only if it is now
        true. `fetched` says whether the fetch ran. The effect does not await
        the fetch, so a fetch that throws leaves the open flag as set. */
    method OnDrawerOpenChange(open: bool, signedIn: bool, cartQuery: Query<seq<CartRow>>,
                              productsData: Option<seq<Product>>) returns (fetched: bool)
      requires Valid()
      modifies this, cart
      ensures Valid() && isDrawerOpen == open
      ensures fetched <==> open && !old(isDrawerOpen)
      ensures fetched ==> FetchSpec(old(cart.Snapshot()), cart.Snapshot(), signedIn, cartQuery, productsData)
      ensures !fetched ==> cart.Snapshot() == old(cart.Snapshot())
    {
      var changed := open != isDrawerOpen;
      isDrawerOpen := open;
      fetched := changed && isDrawerOpen;
      if fetched {
        var completed := cart.FetchCartItems(signedIn, cartQuery, productsData);
      }
    }
  }
}
