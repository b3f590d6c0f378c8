/** The browser-side shopping cart of static/js/script.js: a fixed catalog of
    products, an ordered array of cart lines, the product currently shown in
    the detail dialog, and the add / increase / decrease handlers that mutate
    the cart. Prices are integer cents. */
module BrowserCart {
  import opened Wrappers

  /** A catalog product; `price` is in cents, `stock` is the ceiling used by
      the increase handler and by the merging add. */
  datatype Product = Product(id: int, name: string, price: nat, stock: nat)

  /** A cart line: the product id, the name and price copied from the product
      when the line was created, and the number of units. */
  datatype Line = Line(id: int, name: string, price: nat, quantity: nat)

  /** What a click on "Add to cart" did. `NotEnoughStock` is the alert path. */
  datatype AddOutcome = Ignored | Merged | Appended | NotEnoughStock

  /** The hard-coded catalog of the page. */
  const StoreCatalog: seq<Product> := [
    Product(1, "Laptop", 99999, 10),
    Product(2, "Phone", 49999, 15),
    Product(3, "Headphones", 19999, 20)
  ]

  /** `products.find(p => p.id === id)`: a product with that id, or nothing
      when no product has it (which one, when several do: FindProductFirst). */
  function FindProduct(catalog: seq<Product>, id: int): (r: Option<Product>)
    ensures r.None? <==> forall k :: 0 <= k < |catalog| ==> catalog[k].id != id
    ensures r.Some? ==> r.value.id == id
  {
    if catalog == [] then None
    else if catalog[0].id == id then Some(catalog[0])
    else FindProduct(catalog[1..], id)
  }

  /** The lookup returns the FIRST product carrying the id. */
  lemma {:induction false} FindProductFirst(catalog: seq<Product>, id: int, k: nat)
    requires k < |catalog| && catalog[k].id == id
    requires forall j :: 0 <= j < k ==> catalog[j].id != id
    ensures FindProduct(catalog, id) == Some(catalog[k])
  {
    if k > 0 {
      FindProductFirst(catalog[1..], id, k - 1);
    }
  }

  /** `cart.find(item => item.id === id)`, as the position of the line it
      returns (the handler then updates that line in place). */
  function LineIndex(lines: seq<Line>, id: int): (r: Option<nat>)
    ensures r.None? <==> forall k :: 0 <= k < |lines| ==> lines[k].id != id
    ensures r.Some? ==>
      r.value < |lines| && lines[r.value].id == id &&
      forall j :: 0 <= j < r.value ==> lines[j].id != id
  {
    if lines == [] then None
    else if lines[0].id == id then Some(0)
    else
      match LineIndex(lines[1..], id)
      case None => None
      case Some(k) => Some(k + 1)
  }

  /** No two lines of the cart are for the same product. */
  ghost predicate DistinctIds(lines: seq<Line>)
  {
    forall i, j :: 0 <= i < j < |lines| ==> lines[i].id != lines[j].id
  }

  /** A line refers to a catalog product, carries that product's name and
      price, and holds at least one unit. */
  ghost predicate LineOfCatalog(catalog: seq<Product>, l: Line)
  {
    l.quantity >= 1 &&
    match FindProduct(catalog, l.id)
    case None => false
    case Some(p) => l.name == p.name && l.price == p.price
  }

  /** What every reachable cart satisfies. Note that "quantity <= stock" is
      NOT part of it: the first add of a product is not stock-checked. */
  ghost predicate WellFormedCart(catalog: seq<Product>, lines: seq<Line>)
  {
    DistinctIds(lines) &&
    forall i :: 0 <= i < |lines| ==> LineOfCatalog(catalog, lines[i])
  }

  /** A line holds no more units than its product's stock. */
  ghost predicate WithinStock(catalog: seq<Product>, l: Line)
  {
    FindProduct(catalog, l.id).Some? && l.quantity <= FindProduct(catalog, l.id).value.stock
  }

  /** Appending a line for a catalog product the cart does not hold yet keeps
      the cart well formed (the merge-before-push of the add handler). */
  lemma WellFormedAppend(catalog: seq<Product>, lines: seq<Line>, p: Product, quantity: nat)
    requires WellFormedCart(catalog, lines)
    requires FindProduct(catalog, p.id) == Some(p) && quantity >= 1
    requires forall k :: 0 <= k < |lines| ==> lines[k].id != p.id
    ensures WellFormedCart(catalog, lines + [Line(p.id, p.name, p.price, quantity)])
  {
  }

  /** Changing the quantity of one line to another positive number keeps
      the cart well formed. */
  lemma WellFormedSetQuantity(catalog: seq<Product>, lines: seq<Line>, i: nat, quantity: nat)
    requires WellFormedCart(catalog, lines) && i < |lines| && quantity >= 1
    ensures WellFormedCart(catalog, lines[i := lines[i].(quantity := quantity)])
  {
  }

  /** Removing a line keeps the cart well formed. */
  lemma WellFormedRemove(catalog: seq<Product>, lines: seq<Line>, i: nat)
    requires WellFormedCart(catalog, lines) && i < |lines|
    ensures WellFormedCart(catalog, lines[..i] + lines[i + 1..])
  {
  }

  /** The count shown in the cart badge:
      `cart.reduce((sum, item) => sum + item.quantity, 0)`, a left fold. */
  function ItemCount(lines: seq<Line>): (r: nat)
  {
    if lines == [] then 0
    else ItemCount(lines[..|lines| - 1]) + lines[|lines| - 1].quantity
  }

  /** The total shown under the cart, in cents: the sum of price * quantity,
      accumulated left to right. */
  function TotalPrice(lines: seq<Line>): (r: nat)
  {
    if lines == [] then 0
    else TotalPrice(lines[..|lines| - 1]) + lines[|lines| - 1].price * lines[|lines| - 1].quantity
  }

  /** The count is at least every line's quantity, and zero exactly when
      every line holds no units. */
  lemma {:induction false} ItemCountBounds(lines: seq<Line>)
    ensures forall i :: 0 <= i < |lines| ==> lines[i].quantity <= ItemCount(lines)
    ensures ItemCount(lines) == 0 <==> forall i :: 0 <= i < |lines| ==> lines[i].quantity == 0
  {
    if lines != [] {
      var n := |lines| - 1;
      ItemCountBounds(lines[..n]);
      assert forall i :: 0 <= i < n ==> lines[..n][i] == lines[i];
    }
  }

  /** The total is at least every line's subtotal, and zero exactly when
      every subtotal is. */
  lemma {:induction false} TotalPriceBounds(lines: seq<Line>)
    ensures forall i :: 0 <= i < |lines| ==> lines[i].price * lines[i].quantity <= TotalPrice(lines)
    ensures TotalPrice(lines) == 0 <==> forall i :: 0 <= i < |lines| ==> lines[i].price * lines[i].quantity == 0
  {
    if lines != [] {
      var n := |lines| - 1;
      TotalPriceBounds(lines[..n]);
      assert forall i :: 0 <= i < n ==> lines[..n][i] == lines[i];
    }
  }

  /** Appending a line raises the count by that line's quantity. */
  lemma ItemCountAppend(lines: seq<Line>, l: Line)
    ensures ItemCount(lines + [l]) == ItemCount(lines) + l.quantity
  {
  }

  /** Replacing one line changes the count by the difference of the two
      quantities and by nothing else. */
  lemma {:induction false} ItemCountUpdate(lines: seq<Line>, i: nat, l: Line)
    requires i < |lines|
    ensures ItemCount(lines[i := l]) + lines[i].quantity == ItemCount(lines) + l.quantity
  {
    var n := |lines| - 1;
    if i < n {
      ItemCountUpdate(lines[..n], i, l);
      assert lines[i := l][..n] == lines[..n][i := l];
    } else {
      assert lines[i := l][..n] == lines[..n];
    }
  }

  /** Removing one line lowers the count by exactly that line's quantity. */
  lemma {:induction false} ItemCountRemove(lines: seq<Line>, i: nat)
    requires i < |lines|
    ensures ItemCount(lines[..i] + lines[i + 1..]) + lines[i].quantity == ItemCount(lines)
  {
    var n := |lines| - 1;
    if i < n {
      ItemCountRemove(lines[..n], i);
      assert (lines[..i] + lines[i + 1..])[..n - 1] == lines[..n][..i] + lines[..n][i + 1..];
      assert (lines[..i] + lines[i + 1..])[n - 1] == lines[n];
    } else {
      assert lines[..i] + lines[i + 1..] == lines[..n];
    }
  }

  /** What a click on "Add to cart" does to the lines, given the selected
      product and the parsed quantity. Ignored without a selected product or
      with a quantity that is not positive; merges into the product's line
      when there is one, refusing (and changing nothing) when the merged
      quantity would pass the stock; otherwise appends a new line WITHOUT
      checking the stock. */
  function AddToLines(lines: seq<Line>, selected: Option<Product>, quantity: int): (r: (AddOutcome, seq<Line>))
    ensures r.0 == Ignored <==> selected.None? || quantity <= 0
    ensures r.0 == Ignored || r.0 == NotEnoughStock ==> r.1 == lines
    ensures r.0 == Appended <==>
      selected.Some? && quantity > 0 &&
      forall k :: 0 <= k < |lines| ==> lines[k].id != selected.value.id
    ensures r.0 == Appended ==>
      var p := selected.value;
      r.1 == lines + [Line(p.id, p.name, p.price, quantity)]
    ensures r.0 == NotEnoughStock <==>
      selected.Some? && quantity > 0 && LineIndex(lines, selected.value.id).Some? &&
      lines[LineIndex(lines, selected.value.id).value].quantity + quantity > selected.value.stock
    ensures r.0 == Merged ==>
      var p := selected.value;
      var i := LineIndex(lines, p.id).value;
      LineIndex(lines, p.id).Some? &&
      r.1 == lines[i := lines[i].(quantity := lines[i].quantity + quantity)] &&
      r.1[i].quantity <= p.stock
  {
    if selected.None? || quantity <= 0 then (Ignored, lines)
    else
      var p := selected.value;
      match LineIndex(lines, p.id)
      case None => (Appended, lines + [Line(p.id, p.name, p.price, quantity)])
      case Some(i) =>
        if lines[i].quantity + quantity <= p.stock then
          (Merged, lines[i := lines[i].(quantity := lines[i].quantity + quantity)])
        else
          (NotEnoughStock, lines)
  }

  /** An add on a well-formed cart, with the selected product taken from the
      catalog, leaves a well-formed cart: in particular still at most one
      line per product id. */
  lemma AddToLinesWellFormed(catalog: seq<Product>, lines: seq<Line>, selected: Option<Product>, quantity: int)
    requires WellFormedCart(catalog, lines)
    requires selected.Some? ==> FindProduct(catalog, selected.value.id) == selected
    ensures WellFormedCart(catalog, AddToLines(lines, selected, quantity).1)
  {
    var r := AddToLines(lines, selected, quantity);
    if r.0 == Merged {
      var i := LineIndex(lines, selected.value.id).value;
      WellFormedSetQuantity(catalog, lines, i, lines[i].quantity + quantity);
    } else if r.0 == Appended {
      WellFormedAppend(catalog, lines, selected.value, quantity);
    }
  }

  /** An accepted add raises the item count by exactly the quantity; any
      other outcome leaves it. */
  lemma AddToLinesCount(lines: seq<Line>, selected: Option<Product>, quantity: int)
    ensures var r := AddToLines(lines, selected, quantity);
      ItemCount(r.1) == ItemCount(lines) + (if r.0 == Merged || r.0 == Appended then quantity else 0)
  {
    var r := AddToLines(lines, selected, quantity);
    if r.0 == Merged {
      var i := LineIndex(lines, selected.value.id).value;
      ItemCountUpdate(lines, i, r.1[i]);
    } else if r.0 == Appended {
      ItemCountAppend(lines, r.1[|r.1| - 1]);
    }
  }

  /** What the "+" button of line `i` does: one more unit, but only while the
      line is below its product's stock; otherwise nothing changes. */
  function IncreaseLines(catalog: seq<Product>, lines: seq<Line>, i: nat): (r: seq<Line>)
    requires i < |lines| && FindProduct(catalog, lines[i].id).Some?
    ensures lines[i].quantity < FindProduct(catalog, lines[i].id).value.stock ==>
      r == lines[i := lines[i].(quantity := lines[i].quantity + 1)]
    ensures lines[i].quantity >= FindProduct(catalog, lines[i].id).value.stock ==> r == lines
    ensures WithinStock(catalog, lines[i]) ==> WithinStock(catalog, r[i])
  {
    var l := lines[i];
    if l.quantity < FindProduct(catalog, l.id).value.stock then lines[i := l.(quantity := l.quantity + 1)]
    else lines
  }

  /** Increase keeps the cart well formed. */
  lemma IncreaseLinesWellFormed(catalog: seq<Product>, lines: seq<Line>, i: nat)
    requires WellFormedCart(catalog, lines) && i < |lines|
    ensures FindProduct(catalog, lines[i].id).Some?
    ensures WellFormedCart(catalog, IncreaseLines(catalog, lines, i))
  {
    assert LineOfCatalog(catalog, lines[i]);
    var l := lines[i];
    if l.quantity < FindProduct(catalog, l.id).value.stock {
      WellFormedSetQuantity(catalog, lines, i, l.quantity + 1);
    }
  }

  /** Increase raises the count by at most one. */
  lemma IncreaseLinesCount(catalog: seq<Product>, lines: seq<Line>, i: nat)
    requires i < |lines| && FindProduct(catalog, lines[i].id).Some?
    ensures ItemCount(lines) <= ItemCount(IncreaseLines(catalog, lines, i)) <= ItemCount(lines) + 1
  {
    var l := lines[i];
    if l.quantity < FindProduct(catalog, l.id).value.stock {
      ItemCountUpdate(lines, i, l.(quantity := l.quantity + 1));
    }
  }

  /** What the "-" button of line `i` does: one unit less while more than one
      remains; the last unit removes the line, keeping the order of the
      others. */
  function DecreaseLines(lines: seq<Line>, i: nat): (r: seq<Line>)
    requires i < |lines|
    ensures lines[i].quantity > 1 ==> r == lines[i := lines[i].(quantity := lines[i].quantity - 1)]
    ensures lines[i].quantity <= 1 ==>
      |r| == |lines| - 1 &&
      (forall j :: 0 <= j < i ==> r[j] == lines[j]) &&
      (forall j :: i <= j < |r| ==> r[j] == lines[j + 1])
  {
    var l := lines[i];
    if l.quantity > 1 then lines[i := l.(quantity := l.quantity - 1)]
    else lines[..i] + lines[i + 1..]
  }

  /** Decrease keeps the cart well formed. */
  lemma DecreaseLinesWellFormed(catalog: seq<Product>, lines: seq<Line>, i: nat)
    requires WellFormedCart(catalog, lines) && i < |lines|
    ensures lines[i].quantity >= 1
    ensures WellFormedCart(catalog, DecreaseLines(lines, i))
  {
    assert LineOfCatalog(catalog, lines[i]);
    var l := lines[i];
    if l.quantity > 1 {
      WellFormedSetQuantity(catalog, lines, i, l.quantity - 1);
    } else {
      WellFormedRemove(catalog, lines, i);
    }
  }

  /** On a line holding at least one unit, decrease lowers the count by
      exactly one, whether it decrements the line or removes it. */
  lemma DecreaseLinesCount(lines: seq<Line>, i: nat)
    requires i < |lines| && lines[i].quantity >= 1
    ensures ItemCount(DecreaseLines(lines, i)) + 1 == ItemCount(lines)
  {
    var l := lines[i];
    if l.quantity > 1 {
      ItemCountUpdate(lines, i, l.(quantity := l.quantity - 1));
    } else {
      ItemCountRemove(lines, i);
    }
  }

  /** The page's state: the catalog, the cart array and the product open in
      the detail dialog (`selectedProduct`). */
  class Store {
    const catalog: seq<Product>
    var cart: seq<Line>
    var selected: Option<Product>

    ghost predicate Valid()
      reads this
    {
      WellFormedCart(catalog, cart) &&
      (selected.Some? ==> FindProduct(catalog, selected.value.id) == selected)
    }

    /** Page load: an empty cart and no product selected. */
    constructor (catalog: seq<Product>)
      ensures Valid()
      ensures this.catalog == catalog && cart == [] && selected == None
    {
      this.catalog := catalog;
      cart := [];
      selected := None;
    }

    /** "View details" on the product with id `id`: remembers the product the
        catalog lookup returns, or nothing if there is none. */
    method ViewDetails(id: int)
      requires Valid()
      modifies this
      ensures Valid()
      ensures selected == FindProduct(catalog, id) && cart == old(cart)
    {
      selected := FindProduct(catalog, id);
    }

    /** "Add to cart" with the parsed quantity, on the selected product: the
        cart becomes what AddToLines says, and stays well formed. */
    method AddToCart(quantity: int) returns (outcome: AddOutcome)
      requires Valid()
      modifies this
      ensures Valid() && selected == old(selected)
      ensures (outcome, cart) == AddToLines(old(cart), old(selected), quantity)
      ensures ItemCount(cart) == ItemCount(old(cart)) + (if outcome == Merged || outcome == Appended then quantity else 0)
    {
      outcome := Ignored;
      if selected.Some? && quantity > 0 {
        var p := selected.value;
        match LineIndex(cart, p.id)
        case Some(i) =>
          var l := cart[i];
          if l.quantity + quantity <= p.stock {
            assert AddToLines(cart, selected, quantity) == (Merged, cart[i := l.(quantity := l.quantity + quantity)]);
            AddToLinesWellFormed(catalog, cart, selected, quantity);
            AddToLinesCount(cart, selected, quantity);
            cart := cart[i := l.(quantity := l.quantity + quantity)];
            outcome := Merged;
          } else {
            outcome := NotEnoughStock;
          }
        case None =>
          assert AddToLines(cart, selected, quantity) == (Appended, cart + [Line(p.id, p.name, p.price, quantity)]);
          AddToLinesWellFormed(catalog, cart, selected, quantity);
          AddToLinesCount(cart, selected, quantity);
          cart := cart + [Line(p.id, p.name, p.price, quantity)];
          outcome := Appended;
      }
    }

    /** The "+" button of line `index`: the cart becomes what IncreaseLines
        says; it stays well formed and the count grows by at most one. */
    method Increase(index: nat)
      requires Valid() && index < |cart|
      modifies this
      ensures Valid() && selected == old(selected)
      ensures cart == IncreaseLines(catalog, old(cart), index)
      ensures ItemCount(old(cart)) <= ItemCount(cart) <= ItemCount(old(cart)) + 1
    {
      IncreaseLinesWellFormed(catalog, cart, index);
      IncreaseLinesCount(catalog, cart, index);
      var l := cart[index];
      if l.quantity < FindProduct(catalog, l.id).value.stock {
        cart := cart[index := l.(quantity := l.quantity + 1)];
      }
    }

    /** The "-" button of line `index`: the cart becomes what DecreaseLines
        says; it stays well formed and the count drops by exactly one. */
    method Decrease(index: nat)
      requires Valid() && index < |cart|
      modifies this
      ensures Valid() && selected == old(selected)
      ensures cart == DecreaseLines(old(cart), index)
      ensures ItemCount(cart) + 1 == ItemCount(old(cart))
    {
      DecreaseLinesWellFormed(catalog, cart, index);
      DecreaseLinesCount(cart, index);
      var l := cart[index];
      if l.quantity > 1 {
        cart := cart[index := l.(quantity := l.quantity - 1)];
      } else {
        cart := cart[..index] + cart[index + 1..];
      }
    }

    /** The figures `updateCart` writes into the page: the total in cents
        (the `forEach` loop) and the item count (the `reduce`, a left fold
        over the same lines, accumulated here in the same pass). */
    method Summary() returns (count: nat, total: nat)
      ensures count == ItemCount(cart) && total == TotalPrice(cart)
    {
      count, total := 0, 0;
      var i := 0;
      while i < |cart|
        invariant 0 <= i <= |cart|
        invariant count == ItemCount(cart[..i])
        invariant total == TotalPrice(cart[..i])
      {
        assert cart[..i + 1][..i] == cart[..i];
        count := count + cart[i].quantity;
        total := total + cart[i].price * cart[i].quantity;
        i := i + 1;
      }
      assert cart[..i] == cart;
    }
  }

  /** A sample session on the page's own catalog: three laptops, then two
      increases; SampleSessionContinued takes over from the five-laptop cart
      this ends with. */
  method SampleSession()
  {
    var store := new Store(StoreCatalog);
    store.ViewDetails(1);
    assert store.selected == Some(StoreCatalog[0]);
    var outcome := store.AddToCart(3);
    assert store.cart == [Line(1, "Laptop", 99999, 3)];
    var count, total := store.Summary();
    assert count == 3 && total == 299997;
    store.Increase(0);
    store.Increase(0);
    assert store.cart == [Line(1, "Laptop", 99999, 5)];
  }

  /** The same session from five laptops on: three decreases leave two, two
      more empty the cart. */
  method SampleSessionContinued(store: Store)
    requires store.Valid() && store.catalog == StoreCatalog
    requires store.cart == [Line(1, "Laptop", 99999, 5)]
    modifies store
  {
    store.Decrease(0);
    store.Decrease(0);
    store.Decrease(0);
    assert store.cart == [Line(1, "Laptop", 99999, 2)];
    store.Decrease(0);
    store.Decrease(0);
    assert store.cart == [];
    var count, total := store.Summary();
    assert count == 0 && total == 0;
  }

  /** On the page's own catalog, a first add of 11 laptops (stock 10) is
      accepted, so a reachable cart can hold more than the stock, while a
      merging add of one more is refused. */
  method FirstAddUnchecked()
  {
    var store := new Store(StoreCatalog);
    store.ViewDetails(1);
    assert store.selected == Some(StoreCatalog[0]);
    var outcome := store.AddToCart(11);
    assert outcome == Appended && store.cart == [Line(1, "Laptop", 99999, 11)];
    assert !WithinStock(StoreCatalog, store.cart[0]);
    outcome := store.AddToCart(1);
    assert outcome == NotEnoughStock && store.cart[0].quantity == 11;
  }
}
