/**
 * Clients of `CartViewModel` that run the cart through short sessions and
 * state what the screens observe afterwards. Everything they promise follows
 * from the class's contracts alone.
 */
module CartScenarios {
  import opened Products
  import opened CartViews
  import opened CartTables
  import opened CartViewModels

  /** Adding one unit and then two of the same product: quantity 3 on a single line. */
  method AddTwice(p: Product, persistent: bool) returns (quantity: int, lines: int, flat: int)
    ensures quantity == 3 && lines == 1 && flat == 3
  {
    var dao: CartTable? := null;
    if persistent {
      dao := new CartTable([]);
    }
    var cart := new CartViewModel(dao);
    cart.AddToCartQuantity(p, 1);
    cart.AddToCartQuantity(p, 2);
    quantity := cart.GetQuantity(p.id);
    GroupingSize(cart.groupedCartItems, cart.idToQuantity, cart.idToProduct);
    assert cart.idToQuantity.Keys * cart.idToProduct.Keys == {p.id};
    lines := |cart.groupedCartItems|;
    FlattenLength(cart.groupedCartItems);
    assert cart.groupedCartItems[..0] == [];
    flat := |cart.cartItems|;
  }

  /** One unit, then `decrement`: the product leaves both maps and the cart is empty. */
  method DecrementToZero(p: Product, persistent: bool) returns (quantity: int, lines: int, total: real)
    ensures quantity == 0 && lines == 0 && total == 0.0
  {
    var dao: CartTable? := null;
    if persistent {
      dao := new CartTable([]);
    }
    var cart := new CartViewModel(dao);
    cart.AddToCartQuantity(p, 1);
    cart.Decrement(p.id);
    quantity := cart.GetQuantity(p.id);
    GroupingSize(cart.groupedCartItems, cart.idToQuantity, cart.idToProduct);
    lines := |cart.groupedCartItems|;
    total := cart.TotalPrice();
  }

  /** Two units, then `removeItem`: the product is gone whatever its quantity was. */
  method RemoveItemAfterTwo(p: Product, persistent: bool) returns (quantity: int, lines: int)
    ensures quantity == 0 && lines == 0
  {
    var dao: CartTable? := null;
    if persistent {
      dao := new CartTable([]);
    }
    var cart := new CartViewModel(dao);
    cart.AddToCartQuantity(p, 2);
    cart.RemoveItem(p.id);
    quantity := cart.GetQuantity(p.id);
    GroupingSize(cart.groupedCartItems, cart.idToQuantity, cart.idToProduct);
    lines := |cart.groupedCartItems|;
  }

  /** A second `removeItem` of the same id leaves the maps as the first one left them. */
  method RemoveItemTwice(p: Product, q: Product, persistent: bool) returns (once: map<int, int>, twice: map<int, int>)
    requires p.id != q.id
    ensures once == twice == map[q.id := 1]
  {
    var dao: CartTable? := null;
    if persistent {
      dao := new CartTable([]);
    }
    var cart := new CartViewModel(dao);
    cart.AddToCart(p);
    cart.AddToCart(q);
    assert cart.idToQuantity == map[p.id := 1, q.id := 1];
    cart.RemoveItem(p.id);
    once := cart.idToQuantity;
    cart.RemoveItem(p.id);
    twice := cart.idToQuantity;
  }

  /**
   * Adding a product again with a new price reprices the units added before:
   * the total uses the latest snapshot for every unit.
   */
  method Reprice(p: Product, newer: Product, persistent: bool) returns (total: real)
    requires newer.id == p.id
    ensures total == newer.price * 3.0
  {
    var dao: CartTable? := null;
    if persistent {
      dao := new CartTable([]);
    }
    var cart := new CartViewModel(dao);
    cart.AddToCartQuantity(p, 2);
    cart.AddToCart(newer);
    total := cart.TotalPrice();
    assert cart.idToQuantity == map[p.id := 3];
    assert CartTotal(cart.idToQuantity, cart.idToProduct) == newer.price * 3.0 by {
      var rest := cart.idToQuantity - {p.id};
      assert rest == map[];
    }
  }

  /** Two of `p` and three of `q` in a fresh table. */
  method FillTable(p: Product, q: Product) returns (table: CartTable, cart: CartViewModel)
    requires p.id != q.id
    ensures fresh(table) && fresh(cart) && cart.cartDao == table
    ensures cart.Valid() && cart.Positive() && cart.Mirrored()
    ensures cart.idToQuantity == map[p.id := 2, q.id := 3]
  {
    table := new CartTable([]);
    cart := new CartViewModel(table);
    cart.AddToCart(p);
    cart.AddToCartQuantity(q, 3);
    cart.AddToCart(p);
  }

  /** A first session that leaves two of `p` and one of `q` in a fresh table. */
  method FirstSession(p: Product, q: Product) returns (table: CartTable, cart: CartViewModel)
    requires p.id != q.id
    ensures fresh(table) && fresh(cart) && cart.cartDao == table
    ensures cart.Valid() && cart.Positive() && cart.Mirrored()
    ensures cart.idToQuantity == map[p.id := 2, q.id := 1]
  {
    table, cart := FillTable(p, q);
    cart.Decrement(q.id);
    assert cart.idToQuantity == map[p.id := 2, q.id := 2];
    cart.Decrement(q.id);
  }

  /**
   * A later session over the same table: hydrating from the rows the first
   * session wrote gives back the first session's maps, and writes nothing.
   */
  method Restart(p: Product, q: Product)
      returns (before: map<int, int>, after: map<int, int>, ghost writesBefore: nat, ghost writesAfter: nat)
    requires p.id != q.id
    ensures before == after == map[p.id := 2, q.id := 1]
    ensures writesBefore == writesAfter
  {
    var table, first := FirstSession(p, q);
    before := first.idToQuantity;
    writesBefore := table.writes;
    var second := new CartViewModel(table);
    HydrateRoundTrip(first.groupedCartItems, first.idToQuantity, first.idToProduct);
    second.Hydrate();
    after := second.idToQuantity;
    writesAfter := table.writes;
  }
}
