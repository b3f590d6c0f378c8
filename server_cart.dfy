/** The server-side cart of app.py: the `ShoppingCart` class with its own
    product catalog, and the stock-checked add / update / remove logic of the
    `/api/cart/...` route handlers, which treat the cart as a dictionary from
    product id to quantity over the module-level `products` list. Prices are
    integer cents. */
module ServerCart {
  import opened Wrappers

  /** A product of `ShoppingCart._product_catalog` (physical weight and
      digital download size are left out). */
  datatype CatalogProduct = CatalogProduct(productId: string, name: string, price: nat)

  /** `CartItem`: a product and a quantity. Python does not check the sign of
      the quantity, so it is an `int`. */
  datatype CartItem = CartItem(product: CatalogProduct, quantity: int)

  /** The two products `ShoppingCart` is constructed with. */
  const ShopCatalog: map<string, CatalogProduct> := map[
    "prod1" := CatalogProduct("prod1", "T-Shirt", 1999),
    "prod2" := CatalogProduct("prod2", "E-Book", 999)
  ]

  /** `CartItem.calculate_subtotal`: price times quantity, in cents. */
  function Subtotal(item: CartItem): (r: int)
    ensures item.quantity >= 0 ==> r >= 0
    ensures item.quantity <= 0 ==> r <= 0
    ensures item.product.price > 0 ==> (r == 0 <==> item.quantity == 0)
  {
    item.product.price * item.quantity
  }

  /** Raising an item's quantity by `q` raises its subtotal by the subtotal
      of `q` units; AddItem uses it for an existing item. */
  lemma SubtotalAfterAdd(item: CartItem, q: int)
    ensures Subtotal(item.(quantity := item.quantity + q)) == Subtotal(item) + Subtotal(CartItem(item.product, q))
  {
  }

  /** The items of `items` listed in the order of `order`, as
      `[item.to_dict() for item in self._items.values()]` lists them. */
  function ItemsInOrder(items: map<string, CartItem>, order: seq<string>): (r: seq<CartItem>)
    requires forall k :: k in order ==> k in items
    ensures |r| == |order|
    ensures forall i :: 0 <= i < |order| ==> r[i] == items[order[i]]
  {
    if order == [] then []
    else ItemsInOrder(items, order[..|order| - 1]) + [items[order[|order| - 1]]]
  }

  /** `ShoppingCart`: a dictionary from product id to `CartItem` over a fixed
      catalog. A Python dictionary remembers the order in which its keys were
      first inserted; `order` is that order. */
  class ShoppingCart {
    var items: map<string, CartItem>
    var order: seq<string>
    const catalog: map<string, CatalogProduct>

    ghost predicate Valid()
      reads this
    {
      (forall i, j :: 0 <= i < j < |order| ==> order[i] != order[j]) &&
      (forall k :: k in items <==> k in order) &&
      (forall k :: k in items ==> k in catalog && items[k].product == catalog[k])
    }

    /** `ShoppingCart()`: no items, the two-product catalog. */
    constructor ()
      ensures Valid()
      ensures items == map[] && order == [] && catalog == ShopCatalog
    {
      items := map[];
      order := [];
      catalog := ShopCatalog;
    }

    /** `get_items`: one entry per item, in first-insertion order. */
    function GetItems(): (r: seq<CartItem>)
      reads this
      requires Valid()
      ensures |r| == |order|
      ensures forall i :: 0 <= i < |r| ==> r[i] == items[order[i]] && r[i].product == catalog[order[i]]
      ensures forall k :: k in items ==> items[k] in r
    {
      ItemsInOrder(items, order)
    }

    /** `add_item`: refuses (returns false, changes nothing) an id outside the
        catalog; otherwise adds `quantity` to the existing item, or creates an
        item for the catalog product at the end of the listing. */
    method AddItem(productId: string, quantity: int) returns (added: bool)
      requires Valid()
      modifies this
      ensures Valid()
      ensures added <==> productId in catalog
      ensures !added ==> items == old(items) && order == old(order)
      ensures added && productId in old(items) ==>
        var it := old(items)[productId];
        items == old(items)[productId := it.(quantity := it.quantity + quantity)] &&
        order == old(order) &&
        Subtotal(items[productId]) == Subtotal(it) + Subtotal(CartItem(catalog[productId], quantity))
      ensures added && productId !in old(items) ==>
        items == old(items)[productId := CartItem(catalog[productId], quantity)] &&
        order == old(order) + [productId] &&
        GetItems() == old(GetItems()) + [CartItem(catalog[productId], quantity)]
    {
      if productId in catalog {
        if productId in items {
          var it := items[productId];
          items := items[productId := it.(quantity := it.quantity + quantity)];
          SubtotalAfterAdd(it, quantity);
        } else {
          ghost var before := GetItems();
          items := items[productId := CartItem(catalog[productId], quantity)];
          order := order + [productId];
          assert GetItems() == before + [CartItem(catalog[productId], quantity)] by {
            forall i | 0 <= i < |order| - 1 ensures order[i] != productId {
              assert order[i] == old(order)[i] && order[i] in old(items);
            }
          }
        }
        added := true;
      } else {
        added := false;
      }
    }
  }

  /** An entry of the module-level `products` list the route handlers use
      (type, weight and download link are left out). */
  datatype StockRecord = StockRecord(productId: string, name: string, price: nat, quantityAvailable: nat)

  const Products: seq<StockRecord> := [
    StockRecord("1", "Physical Book", 999, 10),
    StockRecord("2", "E-book", 499, 100)
  ]

  /** `next((p for p in products if p['product_id'] == pid), None)`: a
      record with that id, or nothing (which one: FindRecordFirst). */
  function FindRecord(products: seq<StockRecord>, pid: string): (r: Option<StockRecord>)
    ensures r.None? <==> forall k :: 0 <= k < |products| ==> products[k].productId != pid
    ensures r.Some? ==> r.value.productId == pid && r.value in products
  {
    if products == [] then None
    else if products[0].productId == pid then Some(products[0])
    else FindRecord(products[1..], pid)
  }

  /** `next` returns the FIRST listed record carrying the id. */
  lemma {:induction false} FindRecordFirst(products: seq<StockRecord>, pid: string, k: nat)
    requires k < |products| && products[k].productId == pid
    requires forall j :: 0 <= j < k ==> products[j].productId != pid
    ensures FindRecord(products, pid) == Some(products[k])
  {
    if k > 0 {
      FindRecordFirst(products[1..], pid, k - 1);
    }
  }

  /** `cart.get(pid, 0)`. */
  function Held(cart: map<string, int>, pid: string): (r: int)
  {
    if pid in cart then cart[pid] else 0
  }

  /** The JSON answer of a handler, reduced to what it reports; `cart` is the
      dictionary afterwards. */
  datatype Status = Success | ProductNotFound | NotEnoughStock | ExceedsStock
  datatype Reply = Reply(status: Status, cart: map<string, int>)

  /** Every entry of the cart is for a listed product and holds no more than
      that product's `quantity_available`. */
  ghost predicate StockBounded(products: seq<StockRecord>, cart: map<string, int>)
  {
    forall k :: k in cart ==>
      FindRecord(products, k).Some? && cart[k] <= FindRecord(products, k).value.quantityAvailable
  }

  /** `add_items_to_cart`: an unknown id is refused; a request that would hold
      more than is available is refused; otherwise the held quantity (zero
      when absent) grows by `qty`. A refusal leaves the cart as it was. */
  function AddItemsToCart(products: seq<StockRecord>, cart: map<string, int>, pid: string, qty: int): (r: Reply)
    ensures r.status == ProductNotFound <==> FindRecord(products, pid).None?
    ensures r.status == NotEnoughStock <==>
      FindRecord(products, pid).Some? && qty + Held(cart, pid) > FindRecord(products, pid).value.quantityAvailable
    ensures r.status != ExceedsStock
    ensures r.status != Success ==> r.cart == cart
    ensures r.status == Success ==>
      r.cart.Keys == cart.Keys + {pid} &&
      r.cart[pid] == Held(cart, pid) + qty &&
      r.cart[pid] <= FindRecord(products, pid).value.quantityAvailable &&
      forall k :: k in cart && k != pid ==> r.cart[k] == cart[k]
  {
    match FindRecord(products, pid)
    case None => Reply(ProductNotFound, cart)
    case Some(product) =>
      var existing := Held(cart, pid);
      if qty + existing > product.quantityAvailable then Reply(NotEnoughStock, cart)
      else Reply(Success, cart[pid := existing + qty])
  }

  /** `update_cart` as written: the request is refused only when `qty` passes
      the available quantity PLUS what the cart already holds, so an accepted
      update may set the entry above `quantity_available`. */
  function UpdateCartAsWritten(products: seq<StockRecord>, cart: map<string, int>, pid: string, qty: int): (r: Reply)
    ensures r.status == ProductNotFound <==> FindRecord(products, pid).None?
    ensures r.status == ExceedsStock <==>
      FindRecord(products, pid).Some? && qty > FindRecord(products, pid).value.quantityAvailable + Held(cart, pid)
    ensures r.status != NotEnoughStock
    ensures r.status != Success ==> r.cart == cart
    ensures r.status == Success ==>
      r.cart.Keys == cart.Keys + {pid} && r.cart[pid] == qty &&
      forall k :: k in cart && k != pid ==> r.cart[k] == cart[k]
  {
    match FindRecord(products, pid)
    case None => Reply(ProductNotFound, cart)
    case Some(product) =>
      if qty > product.quantityAvailable + Held(cart, pid) then Reply(ExceedsStock, cart)
      else Reply(Success, cart[pid := qty])
  }

  /** With five of the ten books held, setting the entry to fifteen is
      accepted by the handler as written, leaving more books in the cart than
      are available. */
  lemma UpdateAsWrittenOverfills()
    ensures var r := UpdateCartAsWritten(Products, map["1" := 5], "1", 15);
      r.status == Success && r.cart["1"] == 15 > Products[0].quantityAvailable &&
      StockBounded(Products, map["1" := 5]) && !StockBounded(Products, r.cart)
  {
  }

  /** `update_cart` with the evidently intended ceiling: the entry is set to
      exactly `qty` unless `qty` passes the available quantity. */
  function UpdateCart(products: seq<StockRecord>, cart: map<string, int>, pid: string, qty: int): (r: Reply)
    ensures r.status == ProductNotFound <==> FindRecord(products, pid).None?
    ensures r.status == ExceedsStock <==>
      FindRecord(products, pid).Some? && qty > FindRecord(products, pid).value.quantityAvailable
    ensures r.status != NotEnoughStock
    ensures r.status != Success ==> r.cart == cart
    ensures r.status == Success ==>
      r.cart.Keys == cart.Keys + {pid} && r.cart[pid] == qty &&
      r.cart[pid] <= FindRecord(products, pid).value.quantityAvailable &&
      forall k :: k in cart && k != pid ==> r.cart[k] == cart[k]
  {
    match FindRecord(products, pid)
    case None => Reply(ProductNotFound, cart)
    case Some(product) =>
      if qty > product.quantityAvailable then Reply(ExceedsStock, cart)
      else Reply(Success, cart[pid := qty])
  }

  /** `remove_from_cart`: deletes the entry when there is one, and reports
      success either way. */
  function RemoveFromCart(cart: map<string, int>, pid: string): (r: Reply)
    ensures r.status == Success
    ensures r.cart.Keys == cart.Keys - {pid}
    ensures forall k :: k in r.cart ==> r.cart[k] == cart[k]
  {
    if pid in cart then Reply(Success, cart - {pid}) else Reply(Success, cart)
  }

  /** Removing twice is removing once. */
  lemma RemoveIdempotent(cart: map<string, int>, pid: string)
    ensures RemoveFromCart(RemoveFromCart(cart, pid).cart, pid) == RemoveFromCart(cart, pid)
  {
  }

  /** An accepted or refused add keeps every entry within the available
      stock. */
  lemma AddKeepsStockBounded(products: seq<StockRecord>, cart: map<string, int>, pid: string, qty: int)
    requires StockBounded(products, cart)
    ensures StockBounded(products, AddItemsToCart(products, cart, pid, qty).cart)
  {
  }

  /** The corrected update keeps every entry within the available stock (the
      update as written does not: UpdateAsWrittenOverfills). */
  lemma UpdateKeepsStockBounded(products: seq<StockRecord>, cart: map<string, int>, pid: string, qty: int)
    requires StockBounded(products, cart)
    ensures StockBounded(products, UpdateCart(products, cart, pid, qty).cart)
  {
  }

  /** Removing an entry keeps every other entry within the available stock. */
  lemma RemoveKeepsStockBounded(products: seq<StockRecord>, cart: map<string, int>, pid: string)
    requires StockBounded(products, cart)
    ensures StockBounded(products, RemoveFromCart(cart, pid).cart)
  {
  }
}
