/** Laws of the cart reducer: what each action does to the derived totals, and
    the two invariants (one line per product id, quantities at least 1) that
    every action except LOAD_CART preserves. */
module CartLaws {
  import opened CartContext

  /** The badge and the total of a cart the reducer keeps valid: the count is
      at least the number of lines, and with no negative price the total is
      not negative. */
  lemma {:induction false} TotalsBounds(items: seq<CartItem>)
    requires PositiveQuantities(items)
    ensures Count(items) >= |items|
    ensures (forall i :: 0 <= i < |items| ==> items[i].price >= 0.0) ==> Total(items) >= 0.0
  {
    if |items| > 0 {
      var n := |items|;
      var init := items[..n - 1];
      assert forall i :: 0 <= i < |init| ==> init[i] == items[i];
      TotalsBounds(init);
      var last := items[n - 1];
      assert last.quantity >= 1;
      if forall i :: 0 <= i < |items| ==> items[i].price >= 0.0 {
        assert last.price >= 0.0;
        assert last.price * (last.quantity as real) >= 0.0;
      }
    }
  }

  /** Replacing one line changes the sums by exactly the difference of that
      line's contributions. */
  lemma {:induction false} TotalsAfterReplace(items: seq<CartItem>, k: nat, y: CartItem)
    requires k < |items|
    ensures Count(items[k := y]) == Count(items) - items[k].quantity + y.quantity
    ensures Total(items[k := y]) ==
              Total(items) - items[k].price * (items[k].quantity as real) + y.price * (y.quantity as real)
  {
    var n := |items|;
    var r := items[k := y];
    if k == n - 1 {
      assert r[..n - 1] == items[..n - 1];
    } else {
      assert r[..n - 1] == items[..n - 1][k := y];
      TotalsAfterReplace(items[..n - 1], k, y);
    }
  }

  lemma TotalsAfterAppend(items: seq<CartItem>, y: CartItem)
    ensures Count(items + [y]) == Count(items) + y.quantity
    ensures Total(items + [y]) == Total(items) + y.price * (y.quantity as real)
  {
    assert (items + [y])[..|items|] == items;
  }

  /** Adding a product raises `cartCount` by exactly one and `cartTotal` by the
      price of the line that grew: the stored line's price when the id was
      already present, the product's price when a new line was appended. */
  lemma AddTotals(items: seq<CartItem>, p: Product)
    ensures Count(Add(items, p)) == Count(items) + 1
    ensures HasId(items, p.id) ==>
              Total(Add(items, p)) == Total(items) + items[FindIndex(items, p.id)].price
    ensures !HasId(items, p.id) ==> Total(Add(items, p)) == Total(items) + p.price
  {
    var i := FindIndex(items, p.id);
    if i > -1 {
      var y := items[i].(quantity := items[i].quantity + 1);
      assert Add(items, p) == items[i := y];
      TotalsAfterReplace(items, i, y);
    } else {
      assert Add(items, p) == items + [NewLine(p)];
      TotalsAfterAppend(items, NewLine(p));
    }
  }

  /** REMOVE_FROM_CART is exactly `filter(item => item.id !== id)`: it maps
      the empty list to itself, keeps a single line iff its id differs (see
      `RemoveSingle`), and distributes over concatenation. Together these fix
      the result completely: the kept lines stay in their original order,
      each as often as it occurred. */
  lemma {:induction false} RemoveAppend(a: seq<CartItem>, b: seq<CartItem>, id: int)
    ensures Remove(a + b, id) == Remove(a, id) + Remove(b, id)
  {
    if |a| == 0 {
      assert a + b == b;
    } else {
      assert Remove(a + b, id) == Remove(a, id) + Remove(b, id) by {
        var ab := a + b;
        assert ab[0] == a[0] && ab[1..] == a[1..] + b;
        RemoveHead(ab, id);
        RemoveHead(a, id);
        RemoveAppend(a[1..], b, id);
        ConcatAssoc(if a[0].id == id then [] else [a[0]], Remove(a[1..], id), Remove(b, id));
      }
    }
  }

  /** One step of the filter: the head is kept iff its id differs. */
  lemma RemoveHead(s: seq<CartItem>, id: int)
    requires |s| > 0
    ensures Remove(s, id) == (if s[0].id == id then [] else [s[0]]) + Remove(s[1..], id)
  {
  }

  lemma ConcatAssoc<T>(p: seq<T>, q: seq<T>, r: seq<T>)
    ensures p + (q + r) == (p + q) + r
  {
  }

  lemma RemoveSingle(x: CartItem, id: int)
    ensures Remove([], id) == []
    ensures Remove([x], id) == if x.id == id then [] else [x]
  {
    assert [x][1..] == [];
  }

  /** REMOVE_FROM_CART of an id no line carries returns the same list. */
  lemma {:induction false} RemoveAbsent(items: seq<CartItem>, id: int)
    requires !HasId(items, id)
    ensures Remove(items, id) == items
  {
    if |items| > 0 {
      assert !HasId(items[1..], id) by {
        forall j | 0 <= j < |items[1..]| ensures items[1..][j].id != id {
          assert items[1..][j] == items[j + 1];
        }
      }
      RemoveAbsent(items[1..], id);
      assert items == [items[0]] + items[1..];
    }
  }

  lemma UniqueTail(items: seq<CartItem>)
    requires UniqueIds(items) && |items| > 0
    ensures UniqueIds(items[1..])
    ensures forall x :: x in items[1..] ==> x.id != items[0].id
  {
    var tail := items[1..];
    forall i, j | 0 <= i < j < |tail| ensures tail[i].id != tail[j].id {
      assert tail[i] == items[i + 1] && tail[j] == items[j + 1];
    }
    forall x | x in tail ensures x.id != items[0].id {
      var m :| 0 <= m < |tail| && tail[m] == x;
      assert tail[m] == items[m + 1];
    }
  }

  lemma UniqueCons(x: CartItem, rest: seq<CartItem>)
    requires UniqueIds(rest)
    requires forall y :: y in rest ==> y.id != x.id
    ensures UniqueIds([x] + rest)
  {
    var r := [x] + rest;
    forall i, j | 0 <= i < j < |r| ensures r[i].id != r[j].id {
      assert r[j] == rest[j - 1];
      if i > 0 {
        assert r[i] == rest[i - 1];
      } else {
        assert rest[j - 1] in rest;
      }
    }
  }

  /** Removal keeps the relative order of the remaining lines, so a list with
      distinct ids stays one. */
  lemma {:induction false} RemoveKeepsUnique(items: seq<CartItem>, id: int)
    requires UniqueIds(items)
    ensures UniqueIds(Remove(items, id))
  {
    if |items| > 0 {
      UniqueTail(items);
      RemoveKeepsUnique(items[1..], id);
      if items[0].id != id {
        UniqueCons(items[0], Remove(items[1..], id));
      }
    }
  }

  /** The reducer keeps both invariants for every action except LOAD_CART. */
  lemma ReducePreservesValid(s: CartState, a: Action)
    requires Valid(s)
    requires !a.LoadCart?
    ensures Valid(Reduce(s, a))
  {
    match a
    case AddToCart(p) =>
      var r := Add(s.items, p);
      if !HasId(s.items, p.id) {
        forall i, j | 0 <= i < j < |r| ensures r[i].id != r[j].id {
          if j == |s.items| {
            assert r[i] == s.items[i];
          } else {
            assert r[i] == s.items[i] && r[j] == s.items[j];
          }
        }
      }
    case RemoveFromCart(id) =>
      RemoveKeepsUnique(s.items, id);
      var r := Remove(s.items, id);
      forall i | 0 <= i < |r| ensures r[i].quantity >= 1 {
        assert r[i] in s.items;
      }
    case UpdateQuantity(id, q) =>
    case ClearCart =>
    case Unknown(_) =>
  }

  /** LOAD_CART installs whatever it is given, so it does not establish the
      invariants: loading two lines with the same id yields an invalid state. */
  lemma LoadDoesNotEstablishValid(s: CartState, x: CartItem)
    ensures Reduce(s, LoadCart([x, x])).items == [x, x]
    ensures !Valid(Reduce(s, LoadCart([x, x])))
  {
    assert [x, x][0].id == [x, x][1].id;
  }

  /** Adding the same product twice to an empty cart gives one line of
      quantity 2 (not two lines), whose total is twice the price. */
  lemma AddSameTwice(p: Product)
    ensures Add(Add([], p), p) == [NewLine(p).(quantity := 2)]
    ensures Total(Add(Add([], p), p)) == 2.0 * p.price
    ensures Count(Add(Add([], p), p)) == 2
  {
    var once := Add([], p);
    assert once == [NewLine(p)];
    assert HasId(once, p.id) by { assert once[0].id == p.id; }
    assert FindIndex(once, p.id) == 0;
    var twice := Add(once, p);
    assert twice == [NewLine(p).(quantity := 2)];
    assert twice[..0] == [];
  }
}
