/**
 * The values derived from the cart's two maps (`idToQuantity`, `idToProduct`):
 * the grouped lines, the flat list, the total price, the table rows written
 * after every command, and the maps rebuilt from those rows at hydration.
 * Everything here is pure; the class in CartViewModels owns the state.
 */
module CartViews {
  import opened Products

  /** One grouped line of the cart (`CartItem`). */
  datatype CartItem = CartItem(product: Product, quantity: int)

  /**
   * One row of the `cart_items` table (`CartItemEntity`): a flattened
   * `CartItem`. `productId` is the table's primary key.
   */
  datatype CartItemEntity = CartItemEntity(
    productId: int,
    title: string,
    price: real,
    image: string,
    category: string,
    description: string,
    rating: real,
    ratingCount: int,
    quantity: int)

  // ---------------------------------------------------------------------------
  // The maps and the grouped view
  // ---------------------------------------------------------------------------

  /** Every snapshot is stored under its own id (`idToProduct[product.id] = product`). */
  ghost predicate SnapshotsKeyed(products: map<int, Product>)
  {
    forall id :: id in products ==> products[id].id == id
  }

  /** The ids the lines are about. */
  function LineIds(lines: seq<CartItem>): set<int>
  {
    set i | 0 <= i < |lines| :: lines[i].product.id
  }

  ghost predicate DistinctIds(lines: seq<CartItem>)
  {
    forall i, j :: 0 <= i < j < |lines| ==> lines[i].product.id != lines[j].product.id
  }

  /** Each line carries the quantity and the snapshot the maps hold for its id. */
  ghost predicate LinesMatch(lines: seq<CartItem>, quantities: map<int, int>, products: map<int, Product>)
  {
    forall i :: 0 <= i < |lines| ==>
      && lines[i].product.id in quantities
      && lines[i].product.id in products
      && lines[i].quantity == quantities[lines[i].product.id]
      && lines[i].product == products[lines[i].product.id]
  }

  /**
   * `lines` is a `groupedCartItems` of the maps: exactly one line for every id
   * that has both a quantity and a snapshot (the `mapNotNull` drops the others),
   * in an order the maps do not fix.
   */
  ghost predicate IsGrouping(lines: seq<CartItem>, quantities: map<int, int>, products: map<int, Product>)
  {
    && DistinctIds(lines)
    && LinesMatch(lines, quantities, products)
    && LineIds(lines) == quantities.Keys * products.Keys
  }

  /** Distinct ids: as many ids as lines. */
  lemma {:induction false} DistinctLineCount(lines: seq<CartItem>)
    requires DistinctIds(lines)
    ensures |LineIds(lines)| == |lines|
  {
    if lines != [] {
      var n := |lines| - 1;
      var init := lines[..n];
      assert DistinctIds(init);
      DistinctLineCount(init);
      assert LineIds(lines) == LineIds(init) + {lines[n].product.id} by {
        assert forall i :: 0 <= i < n ==> init[i] == lines[i];
      }
      assert lines[n].product.id !in LineIds(init) by {
        assert forall i :: 0 <= i < n ==> init[i] == lines[i];
      }
    }
  }

  /** A grouping has exactly one line per id present in both maps. */
  lemma GroupingSize(lines: seq<CartItem>, quantities: map<int, int>, products: map<int, Product>)
    requires IsGrouping(lines, quantities, products)
    ensures |lines| == |quantities.Keys * products.Keys|
  {
    DistinctLineCount(lines);
  }

  predicate NonNegative(lines: seq<CartItem>)
  {
    forall i :: 0 <= i < |lines| ==> lines[i].quantity >= 0
  }

  // ---------------------------------------------------------------------------
  // The flat view
  // ---------------------------------------------------------------------------

  /**
   * `lines.flatMap { ci -> List(ci.quantity) { ci.product } }`. `List(n)`
   * throws on a negative size, hence the precondition.
   */
  function Flatten(lines: seq<CartItem>): seq<Product>
    requires NonNegative(lines)
  {
    if lines == [] then []
    else
      var last := lines[|lines| - 1];
      Flatten(lines[..|lines| - 1]) + seq(last.quantity, _ => last.product)
  }

  /** `lines.sumOf { it.quantity }`. */
  function SumQuantities(lines: seq<CartItem>): int
  {
    if lines == [] then 0
    else SumQuantities(lines[..|lines| - 1]) + lines[|lines| - 1].quantity
  }

  /** The flat view holds as many products as the lines' quantities add up to. */
  lemma {:induction false} FlattenLength(lines: seq<CartItem>)
    requires NonNegative(lines)
    ensures |Flatten(lines)| == SumQuantities(lines)
  {
    if lines != [] {
      FlattenLength(lines[..|lines| - 1]);
    }
  }

  /**
   * Line `i` occupies the contiguous block of the flat view that starts where
   * the quantities of the lines before it end: its product appears there
   * `quantity` times, in grouped order.
   */
  lemma {:induction false} FlattenBlock(lines: seq<CartItem>, i: int, k: int)
    requires NonNegative(lines)
    requires 0 <= i < |lines| && 0 <= k < lines[i].quantity
    ensures 0 <= SumQuantities(lines[..i]) + k < |Flatten(lines)|
    ensures Flatten(lines)[SumQuantities(lines[..i]) + k] == lines[i].product
  {
    var n := |lines| - 1;
    var init := lines[..n];
    FlattenLength(init);
    FlattenLength(lines[..i]);
    if i == n {
      assert init == lines[..i];
    } else {
      assert init[..i] == lines[..i];
      FlattenBlock(init, i, k);
    }
  }

  // ---------------------------------------------------------------------------
  // The total price
  // ---------------------------------------------------------------------------

  function LineValue(line: CartItem): real
  {
    line.product.price * line.quantity as real
  }

  /** `groupedCartItems.sumOf { it.product.price * it.quantity }`. */
  function LinesTotal(lines: seq<CartItem>): real
  {
    if lines == [] then 0.0
    else LinesTotal(lines[..|lines| - 1]) + LineValue(lines[|lines| - 1])
  }

  /** A non-empty set of ids has a member (the fact a `:|` choice over it needs). */
  lemma NonEmptyIds(ids: set<int>)
    requires ids != {}
    ensures exists id :: id in ids
  {
    if forall id :: id !in ids {
      assert false;
    }
  }

  ghost function MinKey(ids: set<int>): (m: int)
    requires ids != {}
    ensures m in ids && forall k :: k in ids ==> m <= k
  {
    NonEmptyIds(ids);
    var x :| x in ids;
    if ids == {x} then x
    else
      var rest := MinKey(ids - {x});
      assert forall k :: k in ids ==> k == x || k in ids - {x};
      if x < rest then x else rest
  }

  /**
   * Reference definition of the cart total, independent of any line order:
   * the price of the current snapshot times the quantity, summed over the ids
   * of the quantity map (taken smallest first).
   */
  ghost function CartTotal(quantities: map<int, int>, products: map<int, Product>): real
    requires quantities.Keys <= products.Keys
    decreases |quantities|
  {
    if quantities == map[] then 0.0
    else
      var id := MinKey(quantities.Keys);
      products[id].price * quantities[id] as real + CartTotal(quantities - {id}, products)
  }

  lemma {:induction false} LinesTotalAppend(a: seq<CartItem>, b: seq<CartItem>)
    ensures LinesTotal(a + b) == LinesTotal(a) + LinesTotal(b)
    decreases |b|
  {
    if b != [] {
      var n := |b| - 1;
      assert (a + b)[..|a + b| - 1] == a + b[..n];
      assert (a + b)[|a + b| - 1] == b[n];
      LinesTotalAppend(a, b[..n]);
    } else {
      assert a + b == a;
    }
  }

  /** Dropping line `i` from a grouping gives a grouping of the maps without its id. */
  lemma DropLine(lines: seq<CartItem>, quantities: map<int, int>, products: map<int, Product>, i: int)
    requires IsGrouping(lines, quantities, products)
    requires 0 <= i < |lines|
    ensures IsGrouping(lines[..i] + lines[i + 1..], quantities - {lines[i].product.id}, products)
  {
    var id := lines[i].product.id;
    var rest := lines[..i] + lines[i + 1..];
    forall j | 0 <= j < |rest|
      ensures rest[j] == lines[if j < i then j else j + 1]
    {
    }
    assert LineIds(rest) == LineIds(lines) - {id} by {
      forall x | x in LineIds(lines) - {id}
        ensures x in LineIds(rest)
      {
        var j :| 0 <= j < |lines| && lines[j].product.id == x;
        assert rest[if j < i then j else j - 1] == lines[j];
      }
    }
  }

  /** A single line totals to its own value. */
  lemma LinesTotalSingle(line: CartItem)
    ensures LinesTotal([line]) == LineValue(line)
  {
    assert [line][..0] == [];
  }

  /** Lines around a middle line total to the outer lines' total plus the middle line's value. */
  lemma LinesTotalMiddle(a: seq<CartItem>, x: CartItem, b: seq<CartItem>)
    ensures LinesTotal(a + [x] + b) == LinesTotal(a + b) + LineValue(x)
  {
    LinesTotalAppend(a + [x], b);
    LinesTotalAppend(a, [x]);
    LinesTotalAppend(a, b);
    LinesTotalSingle(x);
  }

  /** The total of a sequence of lines is the total with line `i` taken out, plus that line's value. */
  lemma LinesTotalSplit(lines: seq<CartItem>, i: int)
    requires 0 <= i < |lines|
    ensures LinesTotal(lines) == LinesTotal(lines[..i] + lines[i + 1..]) + LineValue(lines[i])
  {
    var a, x, b := lines[..i], lines[i], lines[i + 1..];
    assert lines == a + [x] + b;
    LinesTotalMiddle(a, x, b);
  }

  /** Taking out the line of a mapped id: the rest is a grouping of the smaller map and carries the rest of the total. */
  lemma GroupingTotalStep(lines: seq<CartItem>, quantities: map<int, int>, products: map<int, Product>, id: int)
      returns (rest: seq<CartItem>)
    requires IsGrouping(lines, quantities, products)
    requires id in quantities && id in products
    ensures IsGrouping(rest, quantities - {id}, products)
    ensures LinesTotal(lines) == LinesTotal(rest) + products[id].price * quantities[id] as real
  {
    assert id in LineIds(lines);
    var i :| 0 <= i < |lines| && lines[i].product.id == id;
    rest := lines[..i] + lines[i + 1..];
    LinesTotalSplit(lines, i);
    DropLine(lines, quantities, products, i);
  }

  /**
   * Whatever order the grouped lines come in, their total is the cart total
   * of the maps: the price of each id's current snapshot times its quantity.
   */
  lemma {:induction false} GroupingTotal(lines: seq<CartItem>, quantities: map<int, int>, products: map<int, Product>)
    requires quantities.Keys <= products.Keys
    requires IsGrouping(lines, quantities, products)
    ensures LinesTotal(lines) == CartTotal(quantities, products)
    decreases |quantities|
  {
    if quantities != map[] {
      var id := MinKey(quantities.Keys);
      var rest := GroupingTotalStep(lines, quantities, products, id);
      GroupingTotal(rest, quantities - {id}, products);
    }
  }

  // ---------------------------------------------------------------------------
  // Persistence: rows written after a command, maps rebuilt at hydration
  // ---------------------------------------------------------------------------

  /** The product hydration rebuilds from a row (`Product(id = e.productId, ...)`). */
  function ToProduct(e: CartItemEntity): (p: Product)
    ensures p.id == e.productId
  {
    Product(e.productId, e.title, e.price, e.description, e.category, e.image, Rating(e.rating, e.ratingCount))
  }

  /** The row written for a grouped line; it loses nothing of the line. */
  function ToEntity(line: CartItem): (e: CartItemEntity)
    ensures e.productId == line.product.id && e.quantity == line.quantity
    ensures ToProduct(e) == line.product
  {
    var p := line.product;
    CartItemEntity(p.id, p.title, p.price, p.image, p.category, p.description, p.rating.rate, p.rating.count, line.quantity)
  }

  /** The rows `recomputeState` hands to `upsertAll`: one per grouped line, in order. */
  function Materialize(lines: seq<CartItem>): (rows: seq<CartItemEntity>)
    ensures |rows| == |lines|
    ensures forall i :: 0 <= i < |lines| ==>
      && rows[i].productId == lines[i].product.id
      && rows[i].quantity == lines[i].quantity
      && ToProduct(rows[i]) == lines[i].product
  {
    seq(|lines|, i requires 0 <= i < |lines| => ToEntity(lines[i]))
  }

  function RowIds(rows: seq<CartItemEntity>): set<int>
  {
    set i | 0 <= i < |rows| :: rows[i].productId
  }

  ghost predicate UniqueRowIds(rows: seq<CartItemEntity>)
  {
    forall i, j :: 0 <= i < j < |rows| ==> rows[i].productId != rows[j].productId
  }

  /**
   * The quantity map the hydration `forEach` leaves after visiting `rows` in
   * order (`idToQuantity[e.productId] = e.quantity`, a later row winning).
   */
  function HydratedQuantities(rows: seq<CartItemEntity>): (quantities: map<int, int>)
    ensures quantities.Keys == RowIds(rows)
  {
    if rows == [] then map[]
    else
      var n := |rows| - 1;
      var before := HydratedQuantities(rows[..n]);
      assert RowIds(rows) == RowIds(rows[..n]) + {rows[n].productId} by {
        assert forall i :: 0 <= i < n ==> rows[..n][i] == rows[i];
      }
      before[rows[n].productId := rows[n].quantity]
  }

  /** The snapshot map the same `forEach` leaves (`idToProduct[e.productId] = Product(...)`). */
  function HydratedProducts(rows: seq<CartItemEntity>): (products: map<int, Product>)
    ensures products.Keys == RowIds(rows)
    ensures forall id :: id in products ==> products[id].id == id
  {
    if rows == [] then map[]
    else
      var n := |rows| - 1;
      var before := HydratedProducts(rows[..n]);
      assert RowIds(rows) == RowIds(rows[..n]) + {rows[n].productId} by {
        assert forall i :: 0 <= i < n ==> rows[..n][i] == rows[i];
      }
      before[rows[n].productId := ToProduct(rows[n])]
  }

  /** Hydration stores only quantities read from the rows, so a lower bound on the rows carries over. */
  lemma {:induction false} HydratedQuantitiesAtLeast(rows: seq<CartItemEntity>, lo: int)
    requires forall i :: 0 <= i < |rows| ==> rows[i].quantity >= lo
    ensures forall id :: id in HydratedQuantities(rows) ==> HydratedQuantities(rows)[id] >= lo
  {
    if rows != [] {
      var n := |rows| - 1;
      assert forall i :: 0 <= i < n ==> rows[..n][i] == rows[i];
      HydratedQuantitiesAtLeast(rows[..n], lo);
    }
  }

  /** With unique ids (a primary key), row `i`'s quantity is what hydration stores for its id. */
  lemma {:induction false} HydratedQuantityAt(rows: seq<CartItemEntity>, i: int)
    requires UniqueRowIds(rows) && 0 <= i < |rows|
    ensures HydratedQuantities(rows)[rows[i].productId] == rows[i].quantity
  {
    var n := |rows| - 1;
    if i < n {
      var init := rows[..n];
      assert init[i] == rows[i];
      assert rows[i].productId != rows[n].productId;
      HydratedQuantityAt(init, i);
    }
  }

  /** With unique ids, row `i`'s product is the snapshot hydration stores for its id. */
  lemma {:induction false} HydratedProductAt(rows: seq<CartItemEntity>, i: int)
    requires UniqueRowIds(rows) && 0 <= i < |rows|
    ensures HydratedProducts(rows)[rows[i].productId] == ToProduct(rows[i])
  {
    var n := |rows| - 1;
    if i < n {
      var init := rows[..n];
      assert init[i] == rows[i];
      assert rows[i].productId != rows[n].productId;
      HydratedProductAt(init, i);
    }
  }

  /** The rows of a grouping carry exactly the grouping's ids, each once. */
  lemma MaterializeIds(lines: seq<CartItem>)
    requires DistinctIds(lines)
    ensures RowIds(Materialize(lines)) == LineIds(lines)
    ensures UniqueRowIds(Materialize(lines))
  {
    var rows := Materialize(lines);
    forall id | id in LineIds(lines) ensures id in RowIds(rows) {
      var i :| 0 <= i < |lines| && lines[i].product.id == id;
      assert rows[i].productId == id;
    }
  }

  /** The rows written for a grouping hydrate each grouped id back to its quantity and snapshot. */
  lemma HydrateRoundTripAt(lines: seq<CartItem>, quantities: map<int, int>, products: map<int, Product>, id: int)
    requires IsGrouping(lines, quantities, products)
    requires id in LineIds(lines)
    ensures id in HydratedQuantities(Materialize(lines)) && id in HydratedProducts(Materialize(lines))
    ensures HydratedQuantities(Materialize(lines))[id] == quantities[id]
    ensures HydratedProducts(Materialize(lines))[id] == products[id]
  {
    var rows := Materialize(lines);
    MaterializeIds(lines);
    var i :| 0 <= i < |lines| && lines[i].product.id == id;
    assert rows[i].productId == id;
    HydratedQuantityAt(rows, i);
    HydratedProductAt(rows, i);
  }

  /** The rows written for a grouping hydrate into maps over the same ids. */
  lemma HydratedKeys(lines: seq<CartItem>, quantities: map<int, int>, products: map<int, Product>)
    requires quantities.Keys == products.Keys
    requires IsGrouping(lines, quantities, products)
    ensures HydratedQuantities(Materialize(lines)).Keys == quantities.Keys
    ensures HydratedProducts(Materialize(lines)).Keys == products.Keys
  {
    MaterializeIds(lines);
  }

  /**
   * Round trip of the persistence mirror: the rows written for a grouping of
   * the maps hydrate back into exactly the same two maps.
   */
  lemma HydrateRoundTrip(lines: seq<CartItem>, quantities: map<int, int>, products: map<int, Product>)
    requires quantities.Keys == products.Keys && SnapshotsKeyed(products)
    requires IsGrouping(lines, quantities, products)
    ensures HydratedQuantities(Materialize(lines)) == quantities
    ensures HydratedProducts(Materialize(lines)) == products
  {
    var rows := Materialize(lines);
    var hq, hp := HydratedQuantities(rows), HydratedProducts(rows);
    HydratedKeys(lines, quantities, products);
    forall id | id in quantities
      ensures hq[id] == quantities[id] && hp[id] == products[id]
    {
      HydrateRoundTripAt(lines, quantities, products, id);
    }
    assert hq == quantities;
    assert hp == products;
  }
}
