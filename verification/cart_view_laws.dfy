/** Laws of the server cart endpoints: what `add_item` does to the per-product
    quantities, how its checks relate to the cart-item serializer's, and the
    store invariant every endpoint preserves. */
module CartViewLaws {
  import opened ServerStore
  import opened CartViews
  import opened Wrappers
  import Serializers

  lemma {:induction false} QuantityOfAbsent(lines: seq<CartLine>, p: ProductId)
    requires !HasProduct(lines, p)
    ensures QuantityOf(lines, p) == 0
  {
    if |lines| > 0 {
      assert !HasProduct(lines[1..], p) by {
        forall i | 0 <= i < |lines[1..]| ensures lines[1..][i].product != p {
          assert lines[1..][i] == lines[i + 1];
        }
      }
      QuantityOfAbsent(lines[1..], p);
    }
  }

  /** Replacing line `i` by a line for the same product changes the quantity
      of that product only. */
  lemma {:induction false} QuantityOfReplace(lines: seq<CartLine>, i: nat, y: CartLine, p: ProductId)
    requires i < |lines| && y.product == lines[i].product
    requires UniqueProducts(lines)
    ensures QuantityOf(lines[i := y], p) ==
              (if p == y.product then y.quantity else QuantityOf(lines, p))
  {
    var r := lines[i := y];
    if i == 0 {
      assert r[1..] == lines[1..];
    } else {
      assert r[1..] == lines[1..][i - 1 := y];
      assert UniqueProducts(lines[1..]) by {
        forall a, b | 0 <= a < b < |lines[1..]| ensures lines[1..][a].product != lines[1..][b].product {
          assert lines[1..][a] == lines[a + 1] && lines[1..][b] == lines[b + 1];
        }
      }
      QuantityOfReplace(lines[1..], i - 1, y, p);
      assert lines[0].product != lines[i].product;
    }
  }

  /** Appending a line for a product the cart does not hold sets that
      product's quantity and leaves every other one alone. */
  lemma {:induction false} QuantityOfAppend(lines: seq<CartLine>, y: CartLine, p: ProductId)
    requires !HasProduct(lines, y.product)
    ensures QuantityOf(lines + [y], p) == (if p == y.product then y.quantity else QuantityOf(lines, p))
  {
    if |lines| == 0 {
      assert (lines + [y])[1..] == [];
    } else {
      assert (lines + [y])[1..] == lines[1..] + [y];
      assert !HasProduct(lines[1..], y.product) by {
        forall i | 0 <= i < |lines[1..]| ensures lines[1..][i].product != y.product {
          assert lines[1..][i] == lines[i + 1];
        }
      }
      QuantityOfAppend(lines[1..], y, p);
    }
  }

  lemma AddToLinesQuantities(lines: seq<CartLine>, p: ProductId, q: int, nextId: int, p2: ProductId)
    requires UniqueProducts(lines)
    ensures QuantityOf(AddToLines(lines, p, q, nextId), p) == QuantityOf(lines, p) + q
    ensures HasProduct(AddToLines(lines, p, q, nextId), p)
    ensures p2 != p ==> QuantityOf(AddToLines(lines, p, q, nextId), p2) == QuantityOf(lines, p2)
  {
    var after := AddToLines(lines, p, q, nextId);
    match IndexOfProduct(lines, p)
    case Some(i) =>
      var y := lines[i].(quantity := lines[i].quantity + q);
      QuantityOfAt(lines, i);
      QuantityOfReplace(lines, i, y, p);
      QuantityOfReplace(lines, i, y, p2);
      assert after[i].product == p;
    case None =>
      var y := CartLine(nextId, p, q);
      QuantityOfAbsent(lines, p);
      QuantityOfAppend(lines, y, p);
      QuantityOfAppend(lines, y, p2);
      assert after[|lines|].product == p;
  }

  /** A successful `add_item` raises the cart's quantity of the product by
      exactly the requested amount (from 0 when the cart had no line for it),
      never beyond the stock, and leaves every other product's quantity as it was. */
  lemma AddItemQuantities(st: Store, u: UserId, p: ProductId, q: int, p2: ProductId)
    requires WellFormed(st)
    requires AddItem(st, u, p, q).code == HTTP_200_OK
    ensures var lines := AddItem(st, u, p, q).store.carts[u];
            QuantityOf(lines, p) == QuantityOf(LinesOf(st, u), p) + q &&
            QuantityOf(lines, p) <= st.products[p].stock &&
            HasProduct(lines, p) &&
            (p2 != p ==> QuantityOf(lines, p2) == QuantityOf(LinesOf(st, u), p2))
  {
    var lines := LinesOf(st, u);
    if u in st.carts {
      assert LinesWellFormed(st.products, lines, st.nextItemId);
    }
    assert UniqueProducts(lines);
    AddToLinesQuantities(lines, p, q, EnsureCart(st, u).nextItemId, p);
    AddToLinesQuantities(lines, p, q, EnsureCart(st, u).nextItemId, p2);
    if HasProduct(lines, p) {
      var i :| 0 <= i < |lines| && lines[i].product == p;
      QuantityOfAt(lines, i);
    } else {
      QuantityOfAbsent(lines, p);
    }
  }

  lemma AddItemPreservesWellFormed(st: Store, u: UserId, p: ProductId, q: int)
    requires WellFormed(st)
    ensures WellFormed(AddItem(st, u, p, q).store)
  {
    var r := AddItem(st, u, p, q);
    var s1 := EnsureCart(st, u);
    var lines := s1.carts[u];
    assert LinesWellFormed(s1.products, lines, s1.nextItemId);
    if r.code == HTTP_200_OK {
      var after := r.store.carts[u];
      if !HasProduct(lines, p) {
        assert after == lines + [CartLine(s1.nextItemId, p, q)];
      }
      assert LinesWellFormed(r.store.products, after, r.store.nextItemId);
    }
    OneCartStep(st, r.store, u);
  }

  /** A step that rewrites one cart, keeps every other table and does not
      move the item counter back keeps the store invariant as long as the
      rewritten cart satisfies it. */
  lemma OneCartStep(st: Store, r: Store, u: UserId)
    requires WellFormed(st)
    requires u in r.carts && OnlyCartOf(st, r, u) && r.nextItemId >= st.nextItemId
    requires LinesWellFormed(r.products, r.carts[u], r.nextItemId)
    ensures WellFormed(r)
  {
    forall v | v in r.carts ensures LinesWellFormed(r.products, r.carts[v], r.nextItemId) {
      if v != u {
        assert LinesWellFormed(st.products, st.carts[v], st.nextItemId);
      }
    }
    forall o | o in r.orders ensures o < r.nextOrderId && ItemsWellFormed(r.products, r.orders[o].items) {
      assert o in st.orders;
    }
  }

  /** Lines that keep every row id and product in place keep the line invariant. */
  lemma SameKeysLinesWellFormed(products: map<ProductId, Product>, before: seq<CartLine>,
                                after: seq<CartLine>, n: int)
    requires LinesWellFormed(products, before, n) && |after| == |before|
    requires forall i :: 0 <= i < |before| ==> after[i].id == before[i].id && after[i].product == before[i].product
    ensures LinesWellFormed(products, after, n)
  {
  }

  lemma UpdateItemPreservesWellFormed(st: Store, u: UserId, id: int, q: int)
    requires WellFormed(st)
    ensures WellFormed(UpdateItem(st, u, id, q).store)
  {
    var r := UpdateItem(st, u, id, q);
    if r.code == HTTP_200_OK {
      var before, after := st.carts[u], r.store.carts[u];
      assert LinesWellFormed(st.products, before, st.nextItemId);
      assert forall i :: 0 <= i < |before| ==> after[i].id == before[i].id && after[i].product == before[i].product;
      SameKeysLinesWellFormed(st.products, before, after, st.nextItemId);
      OneCartStep(st, r.store, u);
    }
  }

  lemma CutKeepsLinesWellFormed(products: map<ProductId, Product>, lines: seq<CartLine>, n: int, k: nat)
    requires LinesWellFormed(products, lines, n) && k < |lines|
    ensures LinesWellFormed(products, lines[..k] + lines[k + 1..], n)
  {
    var after := lines[..k] + lines[k + 1..];
    forall i | 0 <= i < |after| ensures after[i] == lines[if i < k then i else i + 1] {
    }
  }

  lemma RemoveItemPreservesWellFormed(st: Store, u: UserId, id: int)
    requires WellFormed(st)
    ensures WellFormed(RemoveItem(st, u, id).store)
  {
    var r := RemoveItem(st, u, id);
    if r.code == HTTP_200_OK {
      var before := st.carts[u];
      assert LinesWellFormed(st.products, before, st.nextItemId);
      var k :| 0 <= k < |before| && before[k].id == id && r.store.carts[u] == before[..k] + before[k + 1..];
      CutKeepsLinesWellFormed(st.products, before, st.nextItemId, k);
      OneCartStep(st, r.store, u);
    }
  }

  lemma ClearPreservesWellFormed(st: Store, u: UserId)
    requires WellFormed(st)
    ensures WellFormed(Clear(st, u).store)
  {
  }

  /** `add_item` and the cart-item serializer make the same two checks, in
      the same order, for a product the cart does not hold yet: the
      serializer accepts exactly when the view answers 200, reports a missing
      product exactly when the view answers 404, and reports the stock
      exactly when the view answers 400. Once the cart holds the product, the
      view is the stricter of the two: whatever it accepts, the serializer
      accepts too. */
  lemma AddItemAgreesWithSerializer(st: Store, u: UserId, p: ProductId, q: int)
    ensures var v := Serializers.ValidateCartItem(st.products, Serializers.CartItemAttrs(p, q));
            var code := AddItem(st, u, p, q).code;
            (code == HTTP_200_OK ==> v.Ok?) &&
            (v == Err(Serializers.ProductNotFound) <==> code == HTTP_404_NOT_FOUND) &&
            (!HasProduct(LinesOf(st, u), p) ==>
               (v.Ok? <==> code == HTTP_200_OK) &&
               (v.Err? && v.error.InsufficientStock? <==> code == HTTP_400_BAD_REQUEST))
  {
  }
}
