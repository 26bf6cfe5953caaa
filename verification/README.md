# Garage-sale storefront: the shopping cart

The storefront's home page keeps a client-side shopping cart: an ordered
list of lines, each a snapshot of a catalog product with a quantity. Three
handlers change it (add a product, remove a product id, adjust a line's
quantity by a signed delta); each writes the new cart to the browser's local
storage under the key "cart" and makes it the page's state. The checkout
handler refuses an empty cart before any request is built.

This project models that cart in Dafny:

- `cart_model.dfy`, module `CartModel`: products and lines as values; the
  meaning of each handler as a function on the list of lines (`Added`,
  `Removed`, `Adjusted`, with `FirstIndex` for the search the add handler
  does); and lemmas about them: which lines change, the stock bounds, no two
  lines sharing a product id, removal being idempotent and order-preserving,
  an accepted adjustment being undone by its opposite.
- `home_page.dfy`, module `HomePage`: class `Home` with the page's cart state
  and the stored copy; one method per handler, each proved against the
  function above, and each proved to leave the stored copy equal to the new
  cart.

What the handlers do, as the model states it:

- Add: the comment at src/app/page.tsx:49 says an increment must not exceed
  `available_count`; the guard `<=` at line 50 lets a line reach
  `available_count + 1` (see Findings). The guard compares against the stock
  count of the product passed in, not the snapshot stored in the line. A
  product not yet in the cart gets a line of one unit through the `push` at
  line 55 whatever its stock, so an out-of-stock product still gets a
  one-unit line, with either form of the guard on line 50.
- Adjust: an out-of-range result is rejected and the line left unchanged
  (lines 80-81); the test uses the snapshot stored in the line.
- Remove: the `filter` at line 68 drops every line with the id.
- Checkout: only the empty-cart guard (lines 94-97) is modelled; the request
  it would send carries the whole lines (line 102).
- Restore on mount: the saved text goes through `JSON.parse` (line 36),
  which throws on malformed text; the model takes the decoded lines as given.

## Model

| member | source | states |
|---|---|---|
| `CartModel.FirstIndex` | src/app/page.tsx:46 | The position found is the first line whose product id matches; there is none exactly when no line has that id. |
| `CartModel.FindLine` | src/app/page.tsx:46 | The left-to-right scan returns the first matching position, or none when no line matches, and agrees with `FirstIndex`. |
| `CartModel.Added` | src/app/page.tsx:41-61 | A product not in the cart is appended as one line of quantity 1 after the unchanged earlier lines; a product already in the cart leaves the length unchanged. |
| `CartModel.AddExistingTouchesFirstLineOnly` | src/app/page.tsx:46-52 | Adding a product already present changes only its first line, keeps that line's product snapshot, and adds one unit exactly when the quantity is at most the passed product's stock count. |
| `CartModel.AddAtMostOneOverStock` | src/app/page.tsx:49-51 | If the product's lines are within the passed stock count n, after one add they are at most n + 1 (at most 1 when n is negative). |
| `CartModel.AddKeepsIdsUnique` | src/app/page.tsx:46-56 | Adding keeps every product id on at most one line. |
| `CartModel.RepeatedAddQuantity` | src/app/page.tsx:46-56 | k adds of a product not in the cart leave the earlier lines unchanged and one appended line of quantity min(k, n + 1) (1 when n is negative). |
| `CartModel.AddOverflowsStock` | src/app/page.tsx:49-51 | For any stock count n >= 1, n + 1 adds leave a line of n + 1 units, one over the stock count the comment promises not to exceed. |
| `CartModel.AddedCapped` | src/app/page.tsx:49-56 | The add with the intended strict guard appends a new product as one unit and keeps the length for a present one. |
| `CartModel.AddedCappedWithinStock` | src/app/page.tsx:49-56 | With the strict guard, adding an in-stock product keeps every line in [1, stock] when the lines for it carry at least the passed stock count. |
| `CartModel.Removed` | src/app/page.tsx:68 | No line with the id remains; a line is in the result exactly when it was in the cart and has another id; the cart never grows. |
| `CartModel.RemoveAbsentIsIdentity` | src/app/page.tsx:68 | Removing an id that is not in the cart leaves the cart equal to before. |
| `CartModel.RemoveIsIdempotent` | src/app/page.tsx:68 | Removing an id twice equals removing it once. |
| `CartModel.RemoveDistributes` | src/app/page.tsx:68 | Removal distributes over concatenation, so the remaining lines keep their relative order. |
| `CartModel.RemoveKeepsIdsUnique` | src/app/page.tsx:68 | Removal keeps every product id on at most one line. |
| `CartModel.RemoveKeepsWithinStock` | src/app/page.tsx:68 | Removal keeps every remaining line in [1, stock]. |
| `CartModel.Adjusted` | src/app/page.tsx:77-85 | Adjusting keeps the length, the order and every line's product, and leaves lines for other ids unchanged. |
| `CartModel.AdjustedQuantity` | src/app/page.tsx:79-82 | For every integer delta, a matching line takes quantity q + delta when 1 <= q + delta <= its stock count, and otherwise keeps q (no clamping). |
| `CartModel.AdjustKeepsWithinStock` | src/app/page.tsx:79-81 | If every line is in [1, stock] before, it still is after an adjustment by any integer delta. |
| `CartModel.AdjustKeepsIdsUnique` | src/app/page.tsx:77-85 | Adjusting keeps every product id on at most one line. |
| `CartModel.AdjustAbsentIsIdentity` | src/app/page.tsx:77-85 | Adjusting an id that is not in the cart leaves the cart equal to before. |
| `CartModel.AdjustUndone` | src/app/page.tsx:79-81 | On a cart within stock, an adjustment accepted on every matching line is undone by adjusting with the opposite delta. |
| `HomePage.Home.Mount` | src/app/page.tsx:33-37 | On mount the cart is the saved cart when storage holds one, and empty otherwise. |
| `HomePage.Home.AddToCart` | src/app/page.tsx:41-61 | The new cart is `Added` of the old one, one line longer exactly when the product was absent; storage holds the new cart; unique ids are preserved. |
| `HomePage.Home.RemoveFromCart` | src/app/page.tsx:66-72 | The new cart is `Removed` of the old one, equal to it when the id was absent; storage holds the new cart; unique ids and stock bounds are preserved. |
| `HomePage.Home.AdjustQuantity` | src/app/page.tsx:75-90 | The line-by-line walk yields `Adjusted` of the old cart; storage holds the new cart; unique ids and stock bounds are preserved. |
| `HomePage.Home.Checkout` | src/app/page.tsx:93-102 | An empty cart stops checkout before any request; otherwise the request carries exactly the cart's lines. |

## Left out

- The catalog fetch from the hosted database and the `loading` flag (src/app/page.tsx:20-31): foreign I/O.
- Decoding the saved cart with `JSON.parse` and encoding it with `JSON.stringify` (src/app/page.tsx:36, 58, 69, 87): the model stores and restores the lines themselves; a malformed saved value, on which the code throws, is not modelled.
- The request, response handling and redirect of checkout (src/app/page.tsx:99-115): network and browser navigation.
- All rendering and the enabling of the quantity buttons (src/app/page.tsx:118-210): user interface.
- Shared line objects: the add and adjust handlers copy the array but increment or assign `quantity` on line objects that the previous state also holds (src/app/page.tsx:51, 81). Lines are values here, so that sharing is not captured.
- Optional chaining in the search (src/app/page.tsx:46) skips entries without a product; every modelled line has a product, so such entries cannot arise.
- Numbers: ids, quantities, stock counts and deltas are JavaScript numbers; they are modelled as unbounded integers (no fractions, no precision loss). Prices are kept as reals and not used.
- src/app/api/checkout/route.ts, src/app/upload/page.tsx, src/app/cancel/page.tsx, src/app/success/page.tsx and next.config.ts are not part of this model: they are calls into the database and payment services, upload forms, static pages and configuration.

## Findings

| source | as written | input that shows it | evidently intended | confidence | as-written member | corrected member |
|---|---|---|---|---|---|---|
| src/app/page.tsx:50 | the add handler increments while `quantity <= available_count` | a product with `available_count` n >= 1 added n + 1 times to a cart without it: the line holds n + 1 units | increment only while `quantity < available_count`, as the comment on line 49 says | high; not executed | `CartModel.AddOverflowsStock` | `CartModel.AddedCappedWithinStock` |

The page's class `Home` follows the code as written (`CartModel.Added`);
`CartModel.AddedCapped` is the corrected definition, with its stock bound
proved in `CartModel.AddedCappedWithinStock`.
