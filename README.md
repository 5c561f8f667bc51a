# Cart view-model of a food-ordering web client

This project models, in Dafny, the client-side logic of a mobile-styled
food-ordering web application built as React pages over a hosted
backend-as-a-service:

- the **cart drawer** of the home page and of the prepared-food ("cooked")
  page: `fetchCartItems` reads the user's cart rows, joins each row to the
  first product with the same id, computes a line total (`price * quantity`,
  or 0 when the product is missing) and sums them into `total`;
  `deleteCartItem` drops the deleted row's line after the backend confirms the
  delete and recomputes `total`. Both pages carry the same code; it is modelled
  once, as the class `CartDrawer.CartState` (fields `cartItems`, `total`,
  `loading`) that each page class owns;
- the **dessert listing**: the shortened description on each card (cut to 20
  characters plus `"..."`) and the `fetchData` update of `products`,
  `hasCartItems` and `loading`;
- the **navigation bar**: the hide-on-scroll rule over `visible` and
  `lastScrollY`, and the "active item" test.

Prices and quantities are integers; prices are in minor currency units
(cents), so 35.00 is `3500`. The backend is not modelled: each of its answers
is an input of the method that awaits it — `signedIn` for the user lookup, a
`Query<T>` (`Failed`, or `Returned` with data that may be null) for a query,
`Option<seq<Product>>` for the product list and a `bool` for a delete. A
redirect is returned as the path the page would navigate to.

Modules: `Gateway` (the shapes of backend answers), `CartModel` (the pure
join, sum and filter, with their lemmas), `CartDrawer` (the drawer state),
`Home`, `Cooked`, `Dessert`, `Navbar` (one per page or component).

Without a signed-in user, `fetchCartItems` does not redirect: it returns
with `loading` still true. Adding to the cart or incrementing a quantity does
not appear in the modelled pages.

## Model

| member | source | states |
|---|---|---|
| `CartModel.FindProduct` | app/home/page.js:83 | the result is absent exactly when no product has the id; otherwise it is a product of the list with that id, namely the one at the first index whose id matches |
| `CartModel.Merge` | app/cooked/page.js:81-88 | one line per cart row, in row order, keeping the row's id, product id and quantity; the line's product is the first product with the row's product id, and its total is price times quantity, or 0 when no product was found |
| `CartModel.LineTotal` | app/home/page.js:87 | a line with no product, or with quantity 0, totals 0; with a non-negative price and quantity the line total is non-negative, and at least the price once the quantity is at least 1 |
| `CartModel.SumTotals` | app/home/page.js:92 | the `reduce` of an empty list is 0; when every line total is non-negative the sum is non-negative |
| `CartModel.LineWithinTotal` | app/home/page.js:92 | when no line total is negative, every single line total is at most the grand total |
| `CartModel.MergeAppend` | app/home/page.js:82-89 | merging is row-by-row: merging two concatenated row lists is the concatenation of the two merges |
| `CartModel.SumAppend` | app/home/page.js:92 | the summed total of two concatenated line lists is the sum of their totals |
| `CartModel.TotalNonNegative` | app/home/page.js:87-92 | with non-negative prices and quantities the grand total of a merge is never negative |
| `CartModel.ScenarioGrandTotal` | app/home/page.js:82-92 | product A at 35.00 times 2 and product B at 20.50 times 1 give a total of 90.50 |
| `CartModel.ScenarioDeletedProduct` | app/cooked/page.js:81-91 | a row whose product is missing keeps its line with no product and total 0, and the other line and the total are unaffected |
| `CartModel.Without` | app/home/page.js:101 | a line survives the delete filter exactly when it was there and its id differs from the deleted id; the result is no longer than the input |
| `CartModel.WithId` | app/home/page.js:101 | the complement of the filter: exactly the lines carrying the deleted id |
| `CartModel.RowsWithout` | app/home/page.js:98 | the backend's delete by id keeps exactly the rows whose id differs |
| `CartModel.WithoutAppend` | app/home/page.js:101 | the filter distributes over concatenation, so the surviving lines keep their original order |
| `CartModel.WithoutAbsent` | app/cooked/page.js:100 | deleting an id no line carries leaves the lines unchanged |
| `CartModel.SumWithout` | app/cooked/page.js:100-102 | the total before a delete is the total after it plus the totals of the dropped lines |
| `CartModel.DeleteMatchesRefetch` | app/home/page.js:97-104 | for all rows, products and ids: filtering the id out of the merged lines equals merging, against the same products, the rows with that id filtered out |
| `CartDrawer.CartState.constructor` | app/home/page.js:26-28 | the drawer starts with no lines, total 0 and the given `loading` flag, and its total is consistent |
| `CartDrawer.CartState.FetchCartItems` | app/home/page.js:53-94 | reports that it did not complete exactly when rows exist but the product list is null; keeps `total` equal to the sum of line totals; no user: lines and total kept, `loading` left true; row query error: lines and total kept, `loading` false; null or empty rows: no lines, total 0, `loading` false; null product list: stops with lines and total kept and `loading` true; otherwise the lines are the merge of rows and products, total their sum, `loading` false |
| `CartDrawer.CartState.DeleteCartItem` | app/cooked/page.js:96-104 | on a backend error nothing changes; on success the lines are the filtered old lines, none carries the id, and the total drops by exactly the totals of the dropped lines; `loading` is untouched and the total stays consistent |
| `CartDrawer.FetchKeepsTotal` | app/home/page.js:63-93 | every outcome of a fetch leaves the total equal to the sum of the line totals |
| `CartDrawer.FetchFailureKeepsLines` | app/cooked/page.js:62-66 | no user, a failed row query or a null product list never clears or alters the displayed lines and total |
| `CartDrawer.DeleteAfterFetchMatchesRefetch` | app/cooked/page.js:81-103 | after a fetch that returned rows (possibly none) and a product list, the view has one line per row, and filtering an id out of its lines equals merging the rows with that id filtered out against the same products |
| `Home.HomePage.constructor` | app/home/page.js:24-28 | the badge is off, the drawer is closed and empty with total 0 and `loading` false |
| `Home.HomePage.CheckUser` | app/home/page.js:32-48 | without a user it redirects to the intro page and keeps the badge; otherwise the badge is on exactly when the cart-id query returned a non-null, non-empty list |
| `Home.HomePage.OpenCart` | app/home/page.js:134-137 | the drawer state is what one fetch produces from the backend's answers; the fetch fails to complete exactly when rows exist but the product list is null, and the drawer is opened only when it completed, otherwise its flag is unchanged |
| `Home.HomePage.OnDrawerOpenChange` | app/home/page.js:173 | the drawer's open flag becomes the requested one and nothing is fetched |
| `Cooked.CookedPage.constructor` | app/cooked/page.js:22-26 | the drawer is closed and empty with total 0, and `loading` starts true |
| `Cooked.CookedPage.OnDrawerOpenChange` | app/cooked/page.js:106-109 | the open flag becomes the requested one; a fetch runs exactly when the flag changes to true, and otherwise the drawer state is unchanged |
| `Dessert.Excerpt` | app/cooked/dessert/page.js:105-107 | a missing description stays missing; one of at most 20 characters is shown unchanged; a longer one becomes 23 characters ending in `"..."`; the shown text always starts with the first min(20, length) characters of the original and is at most 23 long |
| `Dessert.ExcerptIdempotent` | app/cooked/dessert/page.js:105-107 | shortening an already shortened description changes nothing |
| `Dessert.DessertPage.constructor` | app/cooked/dessert/page.js:9-11 | no products, badge off, `loading` true |
| `Dessert.DessertPage.FetchData` | app/cooked/dessert/page.js:14-35 | without a user it redirects to the intro page and changes nothing; otherwise the badge is on exactly when the cart-id list is non-null and non-empty, `products` becomes the query's data (or `[]` for null data) unless the query failed, when it is kept, and `loading` becomes false |
| `Navbar.IsActive` | components/navbar.js:51 | an item is active exactly when the current pathname equals its path |
| `Gateway.HasRows` | app/home/page.js:47 | true exactly when the data is neither null nor an empty list; its negation is the `!cartData?.length` test of line 69 |
| `Navbar.AtMostOneActive` | components/navbar.js:13-17 | the three item paths are distinct, so the `pathname === path` test of line 51 marks at most one item |
| `Navbar.NavbarState.constructor` | components/navbar.js:10-11 | the bar starts visible with `lastScrollY` 0 |
| `Navbar.NavbarState.HandleScroll` | components/navbar.js:20-27 | the bar is hidden exactly when the scroll went down and past 50; scrolling up or staying put, or an offset of at most 50, shows it; `lastScrollY` becomes the new offset; a hidden bar always has `lastScrollY` past 50 |

## Left out

- The backend calls themselves (`auth.getUser`, the `profiles`, `carts` and `products` queries, the delete): they are inputs of the methods, not modelled operations.
- The user's display name fetched in `checkUser` (app/home/page.js:36-41): it only feeds the greeting text.
- The prepared-food page's own `checkUser` (app/cooked/page.js:29-49): it is the same code as the home page's and is modelled once, by `Home.HomePage.CheckUser`.
- The list of product ids passed to the product query (app/home/page.js:76): it only narrows the backend's answer; the model accepts any product list and resolves by id.
- Add-to-cart / increment: it does not appear in the modelled pages.
- `CartModel.DeleteMatchesRefetch`, `CartDrawer.DeleteAfterFetchMatchesRefetch`: they equate the locally filtered view with a re-merge of the remaining rows in their old order against the same product list; a real re-fetch has no ordering (app/home/page.js:58-61) and reads the products again, so it may show the same lines in another order or with other prices.
- The `console.error` logging on the row-query error and the delete error (app/home/page.js:64,99; app/cooked/page.js:63,98): it changes no state.
- Floating-point money and `toFixed(2)` formatting: amounts are exact integers in minor units.
- Quantities are not constrained to be positive, because the pages never check them.
- Interleaving of asynchronous handlers: `deleteCartItem` reading a stale `cartItems`, two fetches in flight at once, and the navbar handler's captured `lastScrollY`. The model runs each handler to completion on the current state.
- `Dessert.Excerpt`: lengths count Dafny characters, where the browser counts UTF-16 code units, so a description with characters outside the basic plane is cut at a different place.
- Registering and removing the scroll listener (components/navbar.js:28-30), navigation on item click, animations, skeleton loaders and all other markup.
