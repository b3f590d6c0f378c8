# Shopnetic shopping cart, modelled in Dafny

Shopnetic is a small shop page with a Flask back end. The logic worth
modelling is its shopping cart, which exists twice:

- **The browser cart** (`static/js/script.js`, module `BrowserCart` in
  `browser_cart.dfy`). The page holds a fixed catalog of products
  (id, name, price, stock), an ordered array of cart lines
  (id, name, price, quantity) and the product open in the detail dialog.
  Three click handlers change the cart:
  - "add to cart" merges into the product's existing line, or appends a new line;
  - "+" adds one unit while the line is below its product's stock;
  - "-" removes one unit, and removes the line when its last unit goes.

  `updateCart` then shows the item count and the total. Each handler is
  specified by a pure function on the lines: `AddToLines`, `IncreaseLines` and
  `DecreaseLines` state its cases. The page is the class `Store`, whose
  methods update the cart step by step and are proved to produce exactly what
  those functions give. They keep an invariant: each line is for a catalog
  product, carries that product's name and price, holds at least one unit, and
  no two lines share a product id. They also state how the item count changes.
- **The server cart** (`app.py`, module `ServerCart` in `server_cart.dfy`).
  `ShoppingCart` is a class holding a dictionary from product id to `CartItem`
  over its own two-product catalog. The `/api/cart/add`, `/api/cart/update` and
  `/api/cart/remove` handlers implement stock-checked add, update and remove.
  They work on a dictionary from product id to quantity, checked against the
  module-level `products` list. They are modelled as pure functions on
  `map<string, int>` that return the reported status and the new dictionary.

`wrappers.dfy` holds the `Option` type that both modules use for
`Array.prototype.find`'s `undefined` and Python's `next(..., None)`.

Prices are integer cents throughout (999.99 becomes 99999). Quantities in the
browser are naturals, because a line is only ever created with a positive
quantity. On the server they are integers, because `int(...)` of the request
body is never checked for sign.

Points where the source is inconsistent with itself:

- The first add of a product to the browser cart is not checked against the
  stock; only a merging add is (script.js:113-126). The model reproduces this.
  "Quantity at most stock" is therefore not part of the browser cart's
  invariant. `IncreaseLines` and the merging add preserve it.
  `BrowserCart.FirstAddUnchecked` verifies that, on the page's own catalog,
  a first add of 11 laptops is accepted with a stock of 10, and a further
  merging add of one is refused.
  `BrowserCart.SampleSession` and `BrowserCart.SampleSessionContinued` verify a
  sample session:
  - three laptops: count 3, total 299997 cents;
  - two increases: quantity 5;
  - three decreases: quantity 2;
  - two more decreases: the cart is empty.
- The route handlers (app.py:141-182) treat `cart` as a dictionary. But `cart`
  is bound to a `ShoppingCart` object (app.py:96), which defines none of the
  dictionary operations, so as written those routes fail at run time. The add
  and update handlers would raise `AttributeError` at `cart.get`
  (app.py:152, app.py:170). The remove handler would raise `TypeError` at
  `pid in cart` (app.py:180), because the class defines neither
  `__contains__` nor `__iter__`. The model gives the handlers the dictionary
  semantics they evidently intend. It keeps them separate from
  `ShoppingCart`, whose catalog (`prod1`, `prod2`) also differs from the
  handlers' `products` list (`1`, `2`).
- A negative `quantity` is accepted by `add_item` and by the add handler. An
  add of `-5` to an empty server cart stores `-5`. The model keeps this: quantities
  are `int` and the stock bound is an upper bound only.

## Model

| member | source | states |
|---|---|---|
| `BrowserCart.FindProduct` | static/js/script.js:47 | the lookup finds nothing exactly when no catalog product has the id; otherwise it returns a product with that id |
| `BrowserCart.FindProductFirst` | static/js/script.js:47 | when several products share an id, the lookup returns the first of them |
| `BrowserCart.LineIndex` | static/js/script.js:112 | the line search finds nothing exactly when no line has the id; otherwise it returns the position of the first line with that id |
| `BrowserCart.WellFormedAppend` | static/js/script.js:120-126 | appending a line for a catalog product with no line yet keeps at most one line per id, and every line keeps its catalog name and price and a positive quantity |
| `BrowserCart.WellFormedSetQuantity` | static/js/script.js:115 | setting one line's quantity to another positive number keeps the cart well formed |
| `BrowserCart.WellFormedRemove` | static/js/script.js:102 | removing a line with `splice` keeps the cart well formed |
| `BrowserCart.ItemCountBounds` | static/js/script.js:82 | the displayed count (the `reduce` fold) is at least every line's quantity, and is zero exactly when every line holds no units |
| `BrowserCart.TotalPriceBounds` | static/js/script.js:64-67 | the displayed total (the `forEach` sum, in cents) is at least every line's price times quantity, and is zero exactly when every such subtotal is |
| `BrowserCart.ItemCountAppend` | static/js/script.js:82 | pushing a line raises the displayed count by that line's quantity |
| `BrowserCart.ItemCountUpdate` | static/js/script.js:82 | replacing one line changes the displayed count by exactly the change of that line's quantity |
| `BrowserCart.ItemCountRemove` | static/js/script.js:82 | removing one line lowers the displayed count by exactly that line's quantity |
| `BrowserCart.AddToLines` | static/js/script.js:109-131 | no selection or a non-positive quantity is ignored and changes nothing; with no line for the product, exactly one line with the product's id, name, price and the requested quantity is appended at the end, with no stock check; with a line, the add is refused with the cart unchanged exactly when existing + quantity passes the stock, and otherwise only that line grows by the quantity, staying within stock |
| `BrowserCart.AddToLinesWellFormed` | static/js/script.js:112-126 | an add keeps the cart well formed, in particular at most one line per product id |
| `BrowserCart.AddToLinesCount` | static/js/script.js:109-131 | an accepted add (merged or appended) raises the count by exactly the quantity; an ignored or refused add leaves it |
| `BrowserCart.IncreaseLines` | static/js/script.js:86-94 | one unit is added only if the line is below its product's stock, otherwise nothing changes; a line within stock stays within stock |
| `BrowserCart.IncreaseLinesWellFormed` | static/js/script.js:89-90 | an increase keeps the cart well formed, and the line's product is always found in the catalog |
| `BrowserCart.IncreaseLinesCount` | static/js/script.js:89-90 | an increase raises the count by at most one |
| `BrowserCart.DecreaseLines` | static/js/script.js:96-106 | a line above one unit loses one unit; a line at one unit is removed, the cart shortens by one and the other lines keep their order |
| `BrowserCart.DecreaseLinesWellFormed` | static/js/script.js:99-102 | a decrease keeps the cart well formed |
| `BrowserCart.DecreaseLinesCount` | static/js/script.js:99-102 | on a line with at least one unit, a decrease lowers the count by exactly one, whether it decrements or removes the line |
| `BrowserCart.Store.constructor` | static/js/script.js:2-8 | the page starts with its catalog, an empty cart and no selected product |
| `BrowserCart.Store.ViewDetails` | static/js/script.js:46-47 | "View details" selects the catalog lookup's result and leaves the cart unchanged |
| `BrowserCart.Store.AddToCart` | static/js/script.js:109-131 | the outcome and the new cart are exactly what AddToLines gives for the old cart and the selected product; the page invariant holds after; the count grows by the quantity exactly when the cart changed |
| `BrowserCart.Store.Increase` | static/js/script.js:86-94 | the new cart is exactly what IncreaseLines gives for the old one; the page invariant holds after; the count grows by at most one |
| `BrowserCart.Store.Decrease` | static/js/script.js:96-106 | the new cart is exactly what DecreaseLines gives for the old one; the page invariant holds after; the count drops by exactly one |
| `BrowserCart.Store.Summary` | static/js/script.js:62-83 | the loop's total is the sum of price times quantity over the lines from first to last, and its count is the `reduce` fold of the quantities |
| `ServerCart.Subtotal` | app.py:65-66 | a subtotal has the sign of the quantity, and is zero exactly for zero units of a priced product |
| `ServerCart.ItemsInOrder` | app.py:83-84 | the listing has one entry per key of the order, the item stored under that key, in that order |
| `ServerCart.ShoppingCart.constructor` | app.py:76-81 | a new cart has no items and the two-product catalog |
| `ServerCart.ShoppingCart.GetItems` | app.py:83-84 | get_items lists every item exactly at its first-insertion position, each for its catalog product |
| `ServerCart.ShoppingCart.AddItem` | app.py:86-93 | an id outside the catalog returns false and changes nothing; a held id gets its quantity raised by the amount, and its subtotal by the subtotal of that amount, with no other change and the same order; a new id gets an item for its catalog product with that quantity, appended at the end of the listing; item keys stay within the catalog |
| `ServerCart.FindRecord` | app.py:146 | the product lookup finds nothing exactly when no listed product has the id; otherwise it returns a listed product with that id |
| `ServerCart.FindRecordFirst` | app.py:146 | when several listed products share an id, the lookup returns the first of them, as `next` over the generator does |
| `ServerCart.AddItemsToCart` | app.py:141-157 | an unknown id is refused with the cart unchanged; the add is refused with the cart unchanged exactly when qty plus the held quantity (0 when absent) exceeds the available quantity; otherwise only that entry changes, to held + qty, which is within the available quantity |
| `ServerCart.UpdateCartAsWritten` | app.py:160-174 | an unknown id is refused; the update is refused exactly when qty exceeds available plus the held quantity; otherwise only that entry changes and is set to exactly qty |
| `ServerCart.UpdateAsWrittenOverfills` | app.py:170-173 | with 5 of 10 books held, an update to 15 is accepted and leaves the cart over the available quantity |
| `ServerCart.UpdateCart` | app.py:170-173 | corrected update: refused exactly when qty exceeds the available quantity; otherwise the entry is set to exactly qty, within the available quantity |
| `ServerCart.RemoveFromCart` | app.py:177-182 | remove always reports success, deletes the entry if present and leaves every other entry as it was |
| `ServerCart.RemoveIdempotent` | app.py:180-182 | removing the same id twice is the same as removing it once |
| `ServerCart.AddKeepsStockBounded` | app.py:151-156 | if every entry is within its available quantity before an add, it still is afterwards |
| `ServerCart.UpdateKeepsStockBounded` | app.py:170-173 | the corrected update keeps every entry within its available quantity |
| `ServerCart.RemoveKeepsStockBounded` | app.py:180-181 | remove keeps every entry within its available quantity |

## Findings

| source | as written | input that shows it | evidently intended | confidence | as-written member | corrected member |
|---|---|---|---|---|---|---|
| app.py:170 | the update is refused only when `qty > quantity_available + cart.get(pid, 0)`, so the bound grows with what the cart already holds | cart `{"1": 5}`, update product `"1"` (10 available) to 15: accepted, cart holds 15 | refuse when `qty > quantity_available`, the same ceiling the add handler enforces on the total held (app.py:153) | medium, not executed | `ServerCart.UpdateCartAsWritten`, `ServerCart.UpdateAsWrittenOverfills` | `ServerCart.UpdateCart`, `ServerCart.UpdateKeepsStockBounded` |

## Left out

- DOM rendering, `innerHTML` templates, re-attaching event listeners, the Bootstrap modal and `alert` (script.js:10-60, 68-81, 117, 129) are left out. The alert is the `NotEnoughStock` outcome of `AddToCart`.
- Switching between the products view and the cart view (script.js:133-142) is CSS class toggling on the DOM and is left out.
- `parseInt` of input and attribute strings (script.js:46, 88, 98, 110) is left out. Quantities and indices are integer inputs, and a `NaN` quantity behaves like a non-positive one. Out-of-range line indices are a precondition of `Increase` and `Decrease`, because the page only produces indices of rendered lines.
- Floating-point prices and totals and `toFixed` formatting (script.js:64-67, 83; app.py:127-132) are left out. Prices are integer cents, so `Summary` and `Subtotal` compute exact sums, not rounded floats.
- Flask routing, request parsing and JSON or HTTP status responses (app.py:99-122, 184-185) are left out. The `/cart/add/<product_id>` route only forwards to `add_item`, which is modelled. A missing `product_id` in a request (Python `None`) behaves like an unknown id and is not modelled separately.
- `get_cart` (app.py:124-139) is left out. It calls `cart.items()`, which `ShoppingCart` does not define, and it mixes the two cart representations.
- The `to_dict` serialisations and the `PhysicalProduct` / `DigitalProduct` subclasses (app.py:27-58, 68-73) are dictionary building over float fields and are left out. `GetItems` returns the items themselves instead of their dictionaries.
- The route handlers are modelled on a dictionary, not on the `ShoppingCart` object they actually receive. As written they would fail at run time (`AttributeError` in add and update, `TypeError` in remove), and that failure is not modelled.
- `ShoppingCart.AddItem` takes its quantity explicitly: the default `quantity = 1` of `add_item` (app.py:86) is not modelled, since its only caller (app.py:106) always passes one.
- The `Store` methods model the cart as a sequence of line values. The JavaScript mutates line objects in place, but no line is aliased outside the array, so nothing observable is lost.
