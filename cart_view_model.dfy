/**
 * `CartViewModel`: the cart store. Two maps keyed by product id hold the
 * quantity and the last product snapshot added; every command changes them in
 * place, then `recomputeState` rebuilds the grouped and flat views and, when a
 * table is attached, replaces the table's rows with the grouped lines.
 * Hydration rebuilds the maps from the table's rows without writing back.
 */
module CartViewModels {
  import opened Products
  import opened CartViews
  import opened CartTables

  class CartViewModel {
    /** The optional `CartDao`; `null` keeps the cart in memory only. */
    const cartDao: CartTable?

    /** Flat view: each product repeated `quantity` times. */
    var cartItems: seq<Product>
    /** Grouped view: one line per product id. */
    var groupedCartItems: seq<CartItem>

    var idToQuantity: map<int, int>
    var idToProduct: map<int, Product>

    /** The two maps agree on their keys, snapshots sit under their own id, no quantity is negative. */
    ghost predicate MapsValid()
      reads this
    {
      && idToQuantity.Keys == idToProduct.Keys
      && SnapshotsKeyed(idToProduct)
      && forall id :: id in idToQuantity ==> idToQuantity[id] >= 0
    }

    /** The maps are valid and both views are the ones `recomputeState` derives from them. */
    ghost predicate Valid()
      reads this
    {
      && MapsValid()
      && IsGrouping(groupedCartItems, idToQuantity, idToProduct)
      && NonNegative(groupedCartItems)
      && cartItems == Flatten(groupedCartItems)
    }

    /** Every stored quantity is at least one: no empty or negative line. */
    ghost predicate Positive()
      reads this
    {
      forall id :: id in idToQuantity ==> idToQuantity[id] >= 1
    }

    /** The attached table, if any, holds exactly one row per grouped line. */
    ghost predicate Mirrored()
      reads this, cartDao
    {
      cartDao != null ==> cartDao.rows == Materialize(groupedCartItems)
    }

    constructor (cartDao: CartTable?)
      ensures this.cartDao == cartDao
      ensures Valid() && Positive()
      ensures idToQuantity == map[] && idToProduct == map[]
      ensures groupedCartItems == [] && cartItems == []
    {
      this.cartDao := cartDao;
      cartItems := [];
      groupedCartItems := [];
      idToQuantity := map[];
      idToProduct := map[];
    }

    /** `getQuantity`: the stored quantity, 0 for an id not in the cart. */
    function GetQuantity(productId: int): (n: int)
      reads this
      ensures Valid() ==> n >= 0
      ensures Valid() && Positive() ==> (n == 0 <==> productId !in LineIds(groupedCartItems))
      ensures Valid() ==> forall i :: 0 <= i < |groupedCartItems| && groupedCartItems[i].product.id == productId ==>
        n == groupedCartItems[i].quantity
    {
      if productId in idToQuantity then idToQuantity[productId] else 0
    }

    /** `totalPrice`: the grouped lines' prices times quantities, which is the cart total of the maps. */
    function TotalPrice(): (total: real)
      reads this
      ensures Valid() ==> total == CartTotal(idToQuantity, idToProduct)
    {
      assert Valid() ==> LinesTotal(groupedCartItems) == CartTotal(idToQuantity, idToProduct) by {
        if Valid() {
          GroupingTotal(groupedCartItems, idToQuantity, idToProduct);
        }
      }
      LinesTotal(groupedCartItems)
    }

    /** The `mapNotNull` and `flatMap` of `recomputeState`; the grouped order is the maps' iteration order, left open. */
    method BuildViews()
      requires MapsValid()
      modifies this`groupedCartItems, this`cartItems
      ensures Valid()
    {
      var lines: seq<CartItem> := [];
      var pending := idToQuantity.Keys;
      while pending != {}
        invariant pending <= idToQuantity.Keys
        invariant DistinctIds(lines) && LinesMatch(lines, idToQuantity, idToProduct)
        invariant LineIds(lines) == (idToQuantity.Keys - pending) * idToProduct.Keys
        decreases pending
      {
        NonEmptyIds(pending);
        var id :| id in pending;
        if id in idToProduct {
          var line := CartItem(idToProduct[id], idToQuantity[id]);
          assert LineIds(lines + [line]) == LineIds(lines) + {id} by {
            assert forall i :: 0 <= i < |lines| ==> (lines + [line])[i] == lines[i];
            assert (lines + [line])[|lines|] == line;
          }
          lines := lines + [line];
        }
        pending := pending - {id};
      }
      assert NonNegative(lines);
      var flat: seq<Product> := [];
      for i := 0 to |lines|
        invariant flat == Flatten(lines[..i])
      {
        assert lines[..i + 1][..i] == lines[..i];
        flat := flat + seq(lines[i].quantity, _ => lines[i].product);
      }
      assert lines[..|lines|] == lines;
      groupedCartItems := lines;
      cartItems := flat;
    }

    /** `recomputeState`: rebuild the views, then clear the table and insert one row per grouped line. */
    method RecomputeState()
      requires MapsValid()
      modifies this`groupedCartItems, this`cartItems, cartDao
      ensures Valid() && Mirrored()
      ensures cartDao != null ==> cartDao.writes == old(cartDao.writes) + 2
    {
      BuildViews();
      if cartDao != null {
        var entities := Materialize(groupedCartItems);
        assert UniqueRowIds(entities);
        cartDao.Clear();
        cartDao.UpsertAll(entities);
        UpsertEachIntoEmpty(entities);
      }
    }

    /** `addToCart(product)`: one more of `product`, whose snapshot replaces the stored one. */
    method AddToCart(product: Product)
      requires Valid()
      modifies this, cartDao
      ensures Valid() && Mirrored()
      ensures idToQuantity == old(idToQuantity)[product.id := old(GetQuantity(product.id)) + 1]
      ensures idToProduct == old(idToProduct)[product.id := product]
      ensures old(Positive()) ==> Positive()
      ensures cartDao != null ==> cartDao.writes == old(cartDao.writes) + 2
    {
      idToProduct := idToProduct[product.id := product];
      idToQuantity := idToQuantity[product.id := GetQuantity(product.id) + 1];
      RecomputeState();
    }

    /** `addToCart(product, quantity)`: as above with `quantity` units; a non-positive quantity changes and writes nothing. */
    method AddToCartQuantity(product: Product, quantity: int)
      requires Valid()
      modifies this, cartDao
      ensures Valid()
      ensures quantity <= 0 ==> unchanged(this) && (cartDao != null ==> unchanged(cartDao))
      ensures quantity > 0 ==>
        && Mirrored()
        && idToQuantity == old(idToQuantity)[product.id := old(GetQuantity(product.id)) + quantity]
        && idToProduct == old(idToProduct)[product.id := product]
        && (cartDao != null ==> cartDao.writes == old(cartDao.writes) + 2)
      ensures old(Positive()) ==> Positive()
    {
      if quantity <= 0 {
        return;
      }
      idToProduct := idToProduct[product.id := product];
      idToQuantity := idToQuantity[product.id := GetQuantity(product.id) + quantity];
      RecomputeState();
    }

    /**
     * `removeFromCart(product)`: one fewer of `product.id`; at zero or below both
     * entries go. An id not in the cart leaves the maps as they are (the views
     * are still rebuilt and the table rewritten).
     */
    method RemoveFromCart(product: Product)
      requires Valid()
      modifies this, cartDao
      ensures Valid() && Mirrored()
      ensures old(GetQuantity(product.id)) <= 1 ==>
        && idToQuantity == old(idToQuantity) - {product.id}
        && idToProduct == old(idToProduct) - {product.id}
      ensures old(GetQuantity(product.id)) > 1 ==>
        && idToQuantity == old(idToQuantity)[product.id := old(GetQuantity(product.id)) - 1]
        && idToProduct == old(idToProduct)
      ensures old(Positive()) ==> Positive()
      ensures cartDao != null ==> cartDao.writes == old(cartDao.writes) + 2
    {
      var current := GetQuantity(product.id) - 1;
      if current <= 0 {
        idToQuantity := idToQuantity - {product.id};
        idToProduct := idToProduct - {product.id};
      } else {
        idToQuantity := idToQuantity[product.id := current];
      }
      RecomputeState();
    }

    /** `increment(productId)`: re-add the stored snapshot; no snapshot, no effect. */
    method Increment(productId: int)
      requires Valid()
      modifies this, cartDao
      ensures Valid()
      ensures productId !in old(idToProduct) ==> unchanged(this) && (cartDao != null ==> unchanged(cartDao))
      ensures productId in old(idToProduct) ==>
        && Mirrored()
        && idToQuantity == old(idToQuantity)[productId := old(idToQuantity[productId]) + 1]
        && idToProduct == old(idToProduct)
        && (cartDao != null ==> cartDao.writes == old(cartDao.writes) + 2)
      ensures old(Positive()) ==> Positive()
    {
      if productId !in idToProduct {
        return;
      }
      var product := idToProduct[productId];
      AddToCart(product);
    }

    /** `decrement(productId)`: `removeFromCart` on the stored snapshot; no snapshot, no effect. */
    method Decrement(productId: int)
      requires Valid()
      modifies this, cartDao
      ensures Valid()
      ensures productId !in old(idToProduct) ==> unchanged(this) && (cartDao != null ==> unchanged(cartDao))
      ensures productId in old(idToProduct) ==>
        && Mirrored()
        && (cartDao != null ==> cartDao.writes == old(cartDao.writes) + 2)
      ensures productId in old(idToProduct) && old(idToQuantity[productId]) <= 1 ==>
        && idToQuantity == old(idToQuantity) - {productId}
        && idToProduct == old(idToProduct) - {productId}
      ensures productId in old(idToProduct) && old(idToQuantity[productId]) > 1 ==>
        && idToQuantity == old(idToQuantity)[productId := old(idToQuantity[productId]) - 1]
        && idToProduct == old(idToProduct)
      ensures old(Positive()) ==> Positive()
    {
      if productId !in idToProduct {
        return;
      }
      var product := idToProduct[productId];
      RemoveFromCart(product);
    }

    /** `removeItem(productId)`: both entries go, whatever the quantity. */
    method RemoveItem(productId: int)
      requires Valid()
      modifies this, cartDao
      ensures Valid() && Mirrored()
      ensures idToQuantity == old(idToQuantity) - {productId}
      ensures idToProduct == old(idToProduct) - {productId}
      ensures GetQuantity(productId) == 0
      ensures old(Positive()) ==> Positive()
      ensures cartDao != null ==> cartDao.writes == old(cartDao.writes) + 2
    {
      idToQuantity := idToQuantity - {productId};
      idToProduct := idToProduct - {productId};
      RecomputeState();
    }

    /** `clearAll()`: empty cart, no lines, nothing to pay. */
    method ClearAll()
      requires Valid()
      modifies this, cartDao
      ensures Valid() && Positive() && Mirrored()
      ensures idToQuantity == map[] && idToProduct == map[]
      ensures groupedCartItems == [] && cartItems == [] && TotalPrice() == 0.0
      ensures cartDao != null ==> cartDao.rows == [] && cartDao.writes == old(cartDao.writes) + 2
    {
      idToQuantity := map[];
      idToProduct := map[];
      RecomputeState();
    }

    /** The `forEach` of the `init` collector: clear both maps, then store each row in turn. */
    method Refill(rows: seq<CartItemEntity>)
      modifies this`idToQuantity, this`idToProduct
      ensures idToQuantity == HydratedQuantities(rows)
      ensures idToProduct == HydratedProducts(rows)
      ensures (forall i :: 0 <= i < |rows| ==> rows[i].quantity >= 0) ==> MapsValid()
      ensures (forall i :: 0 <= i < |rows| ==> rows[i].quantity >= 1) ==> Positive()
    {
      idToQuantity := map[];
      idToProduct := map[];
      for i := 0 to |rows|
        invariant idToQuantity == HydratedQuantities(rows[..i])
        invariant idToProduct == HydratedProducts(rows[..i])
      {
        assert rows[..i + 1][..i] == rows[..i];
        idToQuantity := idToQuantity[rows[i].productId := rows[i].quantity];
        idToProduct := idToProduct[rows[i].productId := ToProduct(rows[i])];
      }
      assert rows[..|rows|] == rows;
      if forall i :: 0 <= i < |rows| ==> rows[i].quantity >= 0 {
        HydratedQuantitiesAtLeast(rows, 0);
      }
      if forall i :: 0 <= i < |rows| ==> rows[i].quantity >= 1 {
        HydratedQuantitiesAtLeast(rows, 1);
      }
    }

    /** A valid cart whose table mirrors it hydrates back to its own two maps. */
    lemma MirrorHydrates()
      requires cartDao != null && Valid() && Mirrored()
      ensures HydratedQuantities(cartDao.rows) == idToQuantity
      ensures HydratedProducts(cartDao.rows) == idToProduct
    {
      HydrateRoundTrip(groupedCartItems, idToQuantity, idToProduct);
    }

    /**
     * The body of the `init` collector, run on each list of rows the table
     * emits: refill both maps from the rows, rebuild the views, and write
     * nothing back. Rows the cart itself wrote give back the maps it had.
     */
    method Hydrate()
      requires cartDao != null
      requires forall i :: 0 <= i < |cartDao.rows| ==> cartDao.rows[i].quantity >= 0
      modifies this`idToQuantity, this`idToProduct, this`groupedCartItems, this`cartItems
      ensures Valid()
      ensures idToQuantity == HydratedQuantities(cartDao.rows)
      ensures idToProduct == HydratedProducts(cartDao.rows)
      ensures (forall i :: 0 <= i < |cartDao.rows| ==> cartDao.rows[i].quantity >= 1) ==> Positive()
      ensures old(Valid()) && old(Mirrored()) ==>
        idToQuantity == old(idToQuantity) && idToProduct == old(idToProduct)
    {
      var rows := cartDao.rows;
      if Valid() && Mirrored() {
        MirrorHydrates();
      }
      Refill(rows);
      BuildViews();
    }
  }
}
