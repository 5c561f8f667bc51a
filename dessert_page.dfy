/** The dessert listing: its fetch of the badge flag and the products, and the
    shortened description shown on each product card. */
module Dessert {
  import opened Gateway
  import opened CartModel

  /** Descriptions longer than this are cut on the card. */
  const ExcerptLength: nat := 20

  const Ellipsis: string := "..."

  /** `description && description.length > 20 ? description.substring(0, 20) + "..." : description`;
      `None` is a null or missing description. */
  function Excerpt(description: Option<string>): (r: Option<string>)
    ensures description.None? <==> r.None?
    ensures description.Some? && |description.value| <= ExcerptLength ==> r == description
    ensures description.Some? && |description.value| > ExcerptLength ==>
      |r.value| == ExcerptLength + |Ellipsis| && r.value[ExcerptLength..] == Ellipsis
    ensures description.Some? ==>
      var keep := if |description.value| < ExcerptLength then |description.value| else ExcerptLength;
      keep <= |r.value| && r.value[..keep] == description.value[..keep]
    ensures description.Some? ==> |r.value| <= ExcerptLength + |Ellipsis|
  {
    match description
    case None => None
    case Some(s) => if |s| > ExcerptLength then Some(s[..ExcerptLength] + Ellipsis) else Some(s)
  }

  /** Shortening an already shortened description changes nothing. */
  lemma ExcerptIdempotent(description: Option<string>)
    ensures Excerpt(Excerpt(description)) == Excerpt(description)
  {
    if description.Some? && |description.value| > ExcerptLength {
      var s := description.value;
      var once := s[..ExcerptLength] + Ellipsis;
      assert once[..ExcerptLength] == s[..ExcerptLength];
    }
  }

  class DessertPage {
    var products: seq<Product>
    var hasCartItems: bool
    var loading: bool

    /** No products, no badge, and the skeleton showing. */
    constructor ()
      ensures products == [] && !hasCartItems && loading
    {
      products := [];
      hasCartItems := false;
      loading := true;
    }

    /** `fetchData`: without a user, go to the intro page and change nothing.
        Otherwise the badge follows the cart-id query, the product list is
        replaced by the query's data (or `[]` when that is null) unless the query
        failed, and the skeleton goes away either way. */
    method FetchData(signedIn: bool, cartIds: Option<seq<int>>, productQuery: Query<seq<Product>>)
      returns (redirect: Option<string>)
      modifies this
      ensures !signedIn ==> redirect == Some(IntroPath)
      ensures !signedIn ==> products == old(products) && hasCartItems == old(hasCartItems) && loading == old(loading)
      ensures signedIn ==> redirect == None && !loading
      ensures signedIn ==> (hasCartItems <==> HasRows(cartIds))
      ensures signedIn && productQuery.Failed? ==> products == old(products)
      ensures signedIn && productQuery.Returned? && productQuery.data.None? ==> products == []
      ensures signedIn && productQuery.Returned? && productQuery.data.Some? ==> products == productQuery.data.value
    {
      if !signedIn {
        return Some(IntroPath);
      }
      hasCartItems := HasRows(cartIds);
      if productQuery.Returned? {
        products := if productQuery.data.Some? then productQuery.data.value else [];
      }
      loading := false;
      return None;
    }
  }
}
