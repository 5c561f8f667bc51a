/** The cart drawer's component state, `cartItems`, `total` and `loading`, and
    the two handlers that update it: `fetchCartItems` and `deleteCartItem`.
    The home page and the prepared-food page carry the same code; both own one
    `CartState`. */
module CartDrawer {
  import opened Gateway
  import opened CartModel

  /** A snapshot of the drawer's state. */
  datatype DrawerView = DrawerView(cartItems: seq<LineItem>, total: int, loading: bool)

  /** What one run of `fetchCartItems` does to the drawer, given what the
      gateway answered: whether a user is signed in, the cart-row query, and the
      product list (absent when the product query returned null, where `find`
      throws and the handler stops). */
  ghost predicate FetchSpec(before: DrawerView, after: DrawerView, signedIn: bool,
                            cartQuery: Query<seq<CartRow>>, productsData: Option<seq<Product>>)
  {
    if !signedIn then
      after == before.(loading := true)
    else if cartQuery.Failed? then
      after == before.(loading := false)
    else if !HasRows(cartQuery.data) then
      after == DrawerView([], 0, false)
    else if productsData.None? then
      after == before.(loading := true)
    else
      var merged := Merge(cartQuery.data.value, productsData.value);
      after == DrawerView(merged, SumTotals(merged), false)
  }

  class CartState {
    var cartItems: seq<LineItem>
    var total: int
    var loading: bool

    /** The displayed total is always the sum of the displayed line totals. */
    ghost predicate Valid()
      reads this
    {
      total == SumTotals(cartItems)
    }

    function Snapshot(): DrawerView
      reads this
    {
      DrawerView(cartItems, total, loading)
    }

    constructor (initialLoading: bool)
      ensures Valid()
      ensures cartItems == [] && total == 0 && loading == initialLoading
    {
      cartItems := [];
      total := 0;
      loading := initialLoading;
    }

    /** `completed` is false exactly when the handler throws: rows exist but the
        product list is null, so `productsData.find` fails and the returned
        promise rejects. Every other path returns normally. */
    method FetchCartItems(signedIn: bool, cartQuery: Query<seq<CartRow>>, productsData: Option<seq<Product>>)
      returns (completed: bool)
      requires Valid()
      modifies this
      ensures Valid()
      ensures FetchSpec(old(Snapshot()), Snapshot(), signedIn, cartQuery, productsData)
      ensures !completed <==> signedIn && cartQuery.Returned? && HasRows(cartQuery.data) && productsData.None?
    {
      completed := true;
      loading := true;
      if !signedIn {
        return;
      }
      if cartQuery.Failed? {
        loading := false;
        return;
      }
      if !HasRows(cartQuery.data) {
        cartItems := [];
        total := 0;
        loading := false;
        return;
      }
      if productsData.None? {
        completed := false;
        return;
      }
      var merged := Merge(cartQuery.data.value, productsData.value);
      cartItems := merged;
      total := SumTotals(merged);
      loading := false;
    }

    /** `removed` is the gateway's answer to `delete().eq("id", cartId)`: true when it reported no error. */
    method DeleteCartItem(cartId: int, removed: bool)
      requires Valid()
      modifies this
      ensures Valid()
      ensures loading == old(loading)
      ensures !removed ==> cartItems == old(cartItems) && total == old(total)
      ensures removed ==> cartItems == Without(old(cartItems), cartId)
      ensures removed ==> total == old(total) - SumTotals(WithId(old(cartItems), cartId))
      ensures removed ==> forall item :: item in cartItems ==> item.id != cartId
    {
      if removed {
        var updated := Without(cartItems, cartId);
        SumWithout(cartItems, cartId);
        cartItems := updated;
        total := SumTotals(updated);
      }
    }
  }

  /** Every run of `fetchCartItems` keeps the total consistent with the lines. */
  lemma FetchKeepsTotal(before: DrawerView, after: DrawerView, signedIn: bool,
                        cartQuery: Query<seq<CartRow>>, productsData: Option<seq<Product>>)
    requires before.total == SumTotals(before.cartItems)
    requires FetchSpec(before, after, signedIn, cartQuery, productsData)
    ensures after.total == SumTotals(after.cartItems)
  {
  }

  /** A failed or interrupted fetch never clears what is on display. */
  lemma FetchFailureKeepsLines(before: DrawerView, after: DrawerView, signedIn: bool,
                               cartQuery: Query<seq<CartRow>>, productsData: Option<seq<Product>>)
    requires FetchSpec(before, after, signedIn, cartQuery, productsData)
    requires !signedIn || cartQuery.Failed? || (HasRows(cartQuery.data) && productsData.None?)
    ensures after.cartItems == before.cartItems && after.total == before.total
  {
  }

  /** After a successful fetch the view holds one line per cart row, and
      filtering the deleted id out of those lines gives the merge of the rows
      that remain after the same id is deleted from them. */
  lemma {:induction false} DeleteAfterFetchMatchesRefetch(
    before: DrawerView, after: DrawerView, rows: seq<CartRow>, products: seq<Product>, cartId: int)
    requires FetchSpec(before, after, true, Returned(Some(rows)), Some(products))
    ensures |after.cartItems| == |rows|
    ensures Without(after.cartItems, cartId) == Merge(RowsWithout(rows, cartId), products)
  {
    DeleteMatchesRefetch(rows, products, cartId);
  }
}
