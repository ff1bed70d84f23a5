/**
 * The `cart_items` table behind `CartDao`, reduced to the two writes the cart
 * uses (`clear`, `upsertAll`) and the rows `observeCart` emits. `productId` is
 * the primary key and inserts replace on conflict.
 */
module CartTables {
  import opened CartViews

  lemma RowIdsCons(e: CartItemEntity, rows: seq<CartItemEntity>)
    ensures RowIds([e] + rows) == {e.productId} + RowIds(rows)
  {
    var whole := [e] + rows;
    forall id | id in RowIds(rows) ensures id in RowIds(whole) {
      var i :| 0 <= i < |rows| && rows[i].productId == id;
      assert whole[i + 1] == rows[i];
    }
    forall id | id in RowIds(whole) ensures id in {e.productId} + RowIds(rows) {
      var i :| 0 <= i < |whole| && whole[i].productId == id;
      if i > 0 {
        assert whole[i] == rows[i - 1];
      }
    }
    assert whole[0] == e;
  }

  /** One `@Insert(onConflict = REPLACE)`: a row with the same key is replaced, otherwise the row is added. */
  function Upsert(rows: seq<CartItemEntity>, e: CartItemEntity): (r: seq<CartItemEntity>)
    ensures RowIds(r) == RowIds(rows) + {e.productId}
    ensures e.productId !in RowIds(rows) ==> r == rows + [e]
    ensures UniqueRowIds(rows) ==> UniqueRowIds(r)
    ensures UniqueRowIds(rows) ==>
      forall x :: x in r <==> x == e || (x in rows && x.productId != e.productId)
  {
    if rows == [] then
      RowIdsCons(e, []);
      [e]
    else
      var rest := rows[1..];
      RowIdsCons(rows[0], rest);
      assert rows == [rows[0]] + rest;
      if rows[0].productId == e.productId then
        RowIdsCons(e, rest);
        [e] + rest
      else
        var tail := Upsert(rest, e);
        RowIdsCons(rows[0], tail);
        [rows[0]] + tail
  }

  /** `upsertAll(items)`: the items upserted one after another. */
  function UpsertEach(rows: seq<CartItemEntity>, items: seq<CartItemEntity>): seq<CartItemEntity>
  {
    if items == [] then rows
    else Upsert(UpsertEach(rows, items[..|items| - 1]), items[|items| - 1])
  }

  /** Into an emptied table, items with distinct keys land exactly as given. */
  lemma {:induction false} UpsertEachIntoEmpty(items: seq<CartItemEntity>)
    requires UniqueRowIds(items)
    ensures UpsertEach([], items) == items
  {
    if items != [] {
      var n := |items| - 1;
      var init := items[..n];
      UpsertEachIntoEmpty(init);
      assert items[n].productId !in RowIds(init) by {
        forall i | 0 <= i < n ensures init[i].productId != items[n].productId {
          assert init[i] == items[i];
        }
      }
      assert UpsertEach([], items) == Upsert(init, items[n]);
      assert init + [items[n]] == items;
    }
  }

  class CartTable {
    var rows: seq<CartItemEntity>
    /** How many writes (`clear` or `upsertAll`) the table has received. */
    ghost var writes: nat

    constructor (rows: seq<CartItemEntity>)
      ensures this.rows == rows && writes == 0
    {
      this.rows := rows;
      writes := 0;
    }

    /** `DELETE FROM cart_items`. */
    method Clear()
      modifies this
      ensures rows == [] && writes == old(writes) + 1
    {
      rows := [];
      writes := writes + 1;
    }

    /** `upsertAll(items)` with replace-on-conflict. */
    method UpsertAll(items: seq<CartItemEntity>)
      modifies this
      ensures rows == UpsertEach(old(rows), items) && writes == old(writes) + 1
    {
      var i := 0;
      while i < |items|
        invariant 0 <= i <= |items|
        invariant rows == UpsertEach(old(rows), items[..i])
        invariant writes == old(writes)
      {
        assert items[..i + 1][..i] == items[..i];
        rows := Upsert(rows, items[i]);
        i := i + 1;
      }
      assert items[..i] == items;
      writes := writes + 1;
    }
  }
}
