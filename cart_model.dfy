/** The cart view-model shared by the home page and the prepared-food page:
    the join of cart rows with products, line totals, the grand total and the
    filter applied after a delete. Prices are integers in minor currency units. */
module CartModel {
  import opened Gateway

  /** A row of the products table, as the pages select it. */
  datatype Product = Product(
    id: int,
    name: string,
    description: Option<string>,
    price: int,
    image: string,
    prepTime: Option<int>,
    tag: Option<string>)

  /** A row of the carts table: `{ id, product_id, quantity }`. */
  datatype CartRow = CartRow(id: int, productId: int, quantity: int)

  /** A merged cart line: the row's own fields, the resolved product (absent when
      no product has the row's product id) and the line total. */
  datatype LineItem = LineItem(
    id: int,
    productId: int,
    quantity: int,
    product: Option<Product>,
    totalPrice: int)

  /** `productsData.find(p => p.id === productId)`: the first product carrying the id. */
  function FindProduct(products: seq<Product>, productId: int): (r: Option<Product>)
    ensures r.None? <==> forall j :: 0 <= j < |products| ==> products[j].id != productId
    ensures r.Some? ==> r.value in products && r.value.id == productId
    ensures forall k :: 0 <= k < |products| && products[k].id == productId &&
                        (forall j :: 0 <= j < k ==> products[j].id != productId) ==>
                        r == Some(products[k])
  {
    if products == [] then None
    else if products[0].id == productId then Some(products[0])
    else FindProduct(products[1..], productId)
  }

  /** `product ? product.price * quantity : 0` */
  function LineTotal(product: Option<Product>, quantity: int): (r: int)
    ensures product.None? || quantity == 0 ==> r == 0
    ensures product.Some? && product.value.price >= 0 && quantity >= 0 ==> r >= 0
    ensures product.Some? && product.value.price >= 0 && quantity >= 1 ==> r >= product.value.price
  {
    if product.Some? then product.value.price * quantity else 0
  }

  function ToLineItem(row: CartRow, products: seq<Product>): LineItem
  {
    var product := FindProduct(products, row.productId);
    LineItem(row.id, row.productId, row.quantity, product, LineTotal(product, row.quantity))
  }

  /** `cartData.map(cart => ({ ...cart, product, totalPrice }))`: one line per row, in row order. */
  function Merge(rows: seq<CartRow>, products: seq<Product>): (r: seq<LineItem>)
    ensures |r| == |rows|
    ensures forall i :: 0 <= i < |rows| ==>
      && r[i].id == rows[i].id
      && r[i].productId == rows[i].productId
      && r[i].quantity == rows[i].quantity
      && r[i].product == FindProduct(products, rows[i].productId)
      && (r[i].product.Some? ==> r[i].totalPrice == r[i].product.value.price * rows[i].quantity)
      && (r[i].product.None? ==> r[i].totalPrice == 0)
  {
    seq(|rows|, i requires 0 <= i < |rows| => ToLineItem(rows[i], products))
  }

  /** `items.reduce((sum, item) => sum + item.totalPrice, 0)`, folded from the left. */
  function SumTotals(items: seq<LineItem>): (r: int)
    ensures items == [] ==> r == 0
    ensures (forall i :: 0 <= i < |items| ==> items[i].totalPrice >= 0) ==> r >= 0
  {
    if items == [] then 0 else SumTotals(items[..|items| - 1]) + items[|items| - 1].totalPrice
  }

  /** When no line total is negative, no single line exceeds the grand total. */
  lemma {:induction false} LineWithinTotal(items: seq<LineItem>, k: nat)
    requires forall i :: 0 <= i < |items| ==> items[i].totalPrice >= 0
    requires k < |items|
    ensures items[k].totalPrice <= SumTotals(items)
  {
    var init := items[..|items| - 1];
    if k < |items| - 1 {
      LineWithinTotal(init, k);
    }
  }

  /** `items.filter(item => item.id !== cartId)` */
  function Without(items: seq<LineItem>, cartId: int): (r: seq<LineItem>)
    ensures forall x :: x in r <==> x in items && x.id != cartId
    ensures |r| <= |items|
  {
    if items == [] then []
    else (if items[0].id == cartId then [] else [items[0]]) + Without(items[1..], cartId)
  }

  /** The lines a delete of `cartId` drops: the complement of `Without`. */
  function WithId(items: seq<LineItem>, cartId: int): (r: seq<LineItem>)
    ensures forall x :: x in r <==> x in items && x.id == cartId
  {
    if items == [] then []
    else (if items[0].id == cartId then [items[0]] else []) + WithId(items[1..], cartId)
  }

  /** The gateway's `delete().eq("id", cartId)` on the cart rows. */
  function RowsWithout(rows: seq<CartRow>, cartId: int): (r: seq<CartRow>)
    ensures forall x :: x in r <==> x in rows && x.id != cartId
  {
    if rows == [] then []
    else (if rows[0].id == cartId then [] else [rows[0]]) + RowsWithout(rows[1..], cartId)
  }

  /** The grand total of a concatenation is the sum of the two grand totals. */
  lemma {:induction false} SumAppend(a: seq<LineItem>, b: seq<LineItem>)
    ensures SumTotals(a + b) == SumTotals(a) + SumTotals(b)
  {
    if b == [] {
      assert a + b == a;
    } else {
      assert (a + b)[..|a + b| - 1] == a + b[..|b| - 1];
      SumAppend(a, b[..|b| - 1]);
    }
  }

  /** Filtering distributes over concatenation: a delete keeps the survivors in order. */
  lemma {:induction false} WithoutAppend(a: seq<LineItem>, b: seq<LineItem>, cartId: int)
    ensures Without(a + b, cartId) == Without(a, cartId) + Without(b, cartId)
  {
    if a == [] {
      assert a + b == b;
    } else {
      assert (a + b)[1..] == a[1..] + b;
      WithoutAppend(a[1..], b, cartId);
    }
  }

  /** A delete of an id no line carries leaves the lines as they were. */
  lemma {:induction false} WithoutAbsent(items: seq<LineItem>, cartId: int)
    requires forall i :: 0 <= i < |items| ==> items[i].id != cartId
    ensures Without(items, cartId) == items
  {
    if items != [] {
      WithoutAbsent(items[1..], cartId);
    }
  }

  /** After a delete the grand total drops by exactly the totals of the dropped lines. */
  lemma {:induction false} SumWithout(items: seq<LineItem>, cartId: int)
    ensures SumTotals(items) == SumTotals(Without(items, cartId)) + SumTotals(WithId(items, cartId))
  {
    if items != [] {
      var head, rest := [items[0]], items[1..];
      assert items == head + rest;
      SumAppend(head, rest);
      SumWithout(rest, cartId);
      if items[0].id == cartId {
        assert Without(items, cartId) == Without(rest, cartId);
        assert WithId(items, cartId) == head + WithId(rest, cartId);
        SumAppend(head, WithId(rest, cartId));
      } else {
        assert Without(items, cartId) == head + Without(rest, cartId);
        assert WithId(items, cartId) == WithId(rest, cartId);
        SumAppend(head, Without(rest, cartId));
      }
    }
  }

  /** Merging distributes over concatenation of the cart rows. */
  lemma MergeAppend(a: seq<CartRow>, b: seq<CartRow>, products: seq<Product>)
    ensures Merge(a + b, products) == Merge(a, products) + Merge(b, products)
  {
    assert forall i :: 0 <= i < |a| ==> (a + b)[i] == a[i];
    assert forall i :: |a| <= i < |a| + |b| ==> (a + b)[i] == b[i - |a|];
  }

  /** Deleting a line from the merged view gives the same view as deleting the row
      at the gateway and merging again: the local update never diverges from a re-fetch. */
  lemma {:induction false} DeleteMatchesRefetch(rows: seq<CartRow>, products: seq<Product>, cartId: int)
    ensures Without(Merge(rows, products), cartId) == Merge(RowsWithout(rows, cartId), products)
  {
    if rows != [] {
      var head, rest := [rows[0]], rows[1..];
      assert rows == head + rest;
      MergeAppend(head, rest, products);
      WithoutAppend(Merge(head, products), Merge(rest, products), cartId);
      DeleteMatchesRefetch(rest, products, cartId);
      if rows[0].id == cartId {
        assert RowsWithout(rows, cartId) == RowsWithout(rest, cartId);
        assert Without(Merge(head, products), cartId) == [];
      } else {
        assert RowsWithout(rows, cartId) == head + RowsWithout(rest, cartId);
        MergeAppend(head, RowsWithout(rest, cartId), products);
        assert Without(Merge(head, products), cartId) == Merge(head, products);
      }
    }
  }

  /** With non-negative prices and quantities the grand total is never negative. */
  lemma TotalNonNegative(rows: seq<CartRow>, products: seq<Product>)
    requires forall j :: 0 <= j < |products| ==> products[j].price >= 0
    requires forall i :: 0 <= i < |rows| ==> rows[i].quantity >= 0
    ensures SumTotals(Merge(rows, products)) >= 0
  {
    // every merged line total is non-negative, so the sum is too
  }

  /** Product A at 35.00 times 2 and product B at 20.50 times 1 make 90.50. */
  lemma ScenarioGrandTotal()
    ensures SumTotals(Merge(
      [CartRow(1, 10, 2), CartRow(2, 20, 1)],
      [Product(10, "A", None, 3500, "a.jpg", None, None), Product(20, "B", None, 2050, "b.jpg", None, None)]))
      == 9050
  {
    var rows := [CartRow(1, 10, 2), CartRow(2, 20, 1)];
    var products := [Product(10, "A", None, 3500, "a.jpg", None, None), Product(20, "B", None, 2050, "b.jpg", None, None)];
    var merged := Merge(rows, products);
    assert FindProduct(products, 20) == Some(products[1]);
    assert merged[..1][..0] == [];
    assert merged[..|merged| - 1] == merged[..1];
  }

  /** A row whose product is gone keeps its line, with no product and total 0,
      and the other lines are unaffected. */
  lemma ScenarioDeletedProduct()
    ensures var merged := Merge(
      [CartRow(1, 10, 2), CartRow(2, 99, 1)],
      [Product(10, "A", None, 3500, "a.jpg", None, None)]);
      && |merged| == 2
      && merged[1].product == None && merged[1].totalPrice == 0
      && merged[0].totalPrice == 7000
      && SumTotals(merged) == 7000
  {
    var rows := [CartRow(1, 10, 2), CartRow(2, 99, 1)];
    var products := [Product(10, "A", None, 3500, "a.jpg", None, None)];
    var merged := Merge(rows, products);
    assert merged[..1][..0] == [];
    assert merged[..|merged| - 1] == merged[..1];
  }
}
