/** The home page: the cart badge flag, the cart drawer and the click that opens it. */
module Home {
  import opened Gateway
  import opened CartModel
  import opened CartDrawer

  class HomePage {
    const cart: CartState
    var hasCartItems: bool
    var isDrawerOpen: bool

    ghost predicate Valid()
      reads this, cart
    {
      cart.Valid()
    }

    /** The drawer starts closed, empty, with a zero total and not loading. */
    constructor ()
      ensures Valid() && fresh(cart)
      ensures cart.cartItems == [] && cart.total == 0 && !cart.loading
      ensures !hasCartItems && !isDrawerOpen
    {
      cart := new CartState(false);
      hasCartItems := false;
      isDrawerOpen := false;
    }

    /** `checkUser`: without a user, go to the intro page; otherwise the badge
        shows whether the user's cart-id query returned any row. */
    method CheckUser(signedIn: bool, cartIds: Option<seq<int>>) returns (redirect: Option<string>)
      modifies this
      ensures isDrawerOpen == old(isDrawerOpen)
      ensures !signedIn ==> redirect == Some(IntroPath) && hasCartItems == old(hasCartItems)
      ensures signedIn ==> redirect == None && (hasCartItems <==> HasRows(cartIds))
    {
      if !signedIn {
        return Some(IntroPath);
      }
      hasCartItems := HasRows(cartIds);
      return None;
    }

    /** The cart icon's click: await the fetch, then open the drawer. When the
        fetch throws (rows exist but the product list is null) the `await`
        re-throws and the drawer is not opened. */
    method OpenCart(signedIn: bool, cartQuery: Query<seq<CartRow>>, productsData: Option<seq<Product>>)
      returns (completed: bool)
      requires Valid()
      modifies this, cart
      ensures Valid()
      ensures !completed <==> signedIn && cartQuery.Returned? && HasRows(cartQuery.data) && productsData.None?
      ensures isDrawerOpen == (old(isDrawerOpen) || completed)
      ensures hasCartItems == old(hasCartItems)
      ensures FetchSpec(old(cart.Snapshot()), cart.Snapshot(), signedIn, cartQuery, productsData)
    {
      completed := cart.FetchCartItems(signedIn, cartQuery, productsData);
      if completed {
        isDrawerOpen := true;
      }
    }

    /** The drawer's `onOpenChange`: it only records whether the drawer is open. */
    method OnDrawerOpenChange(open: bool)
      modifies this
      ensures isDrawerOpen == open && hasCartItems == old(hasCartItems)
    {
      isDrawerOpen := open;
    }
  }
}
