/** The server cart endpoints: add, update, remove and clear. This is where
    the stock bound on cart quantities is enforced. */
module CartViews {
  import opened Wrappers
  import opened ServerStore

  predicate HasProduct(lines: seq<CartLine>, p: ProductId)
  {
    exists i :: 0 <= i < |lines| && lines[i].product == p
  }

  predicate HasItem(lines: seq<CartLine>, id: int)
  {
    exists i :: 0 <= i < |lines| && lines[i].id == id
  }

  /** Everything outside `u`'s cart is as in `st`. */
  predicate OnlyCartOf(st: Store, r: Store, u: UserId)
  {
    r.products == st.products && r.orders == st.orders && r.nextOrderId == st.nextOrderId &&
    r.carts.Keys == st.carts.Keys + {u} &&
    forall v :: v in st.carts && v != u ==> r.carts[v] == st.carts[v]
  }

  /** `add_item`. The caller's cart is created before anything is checked, so
      it survives the error replies too. */
  function AddItem(st: Store, u: UserId, p: ProductId, q: int): (r: Outcome)
    ensures r.code == HTTP_200_OK || r.code == HTTP_400_BAD_REQUEST || r.code == HTTP_404_NOT_FOUND
    ensures r.code == HTTP_404_NOT_FOUND <==> !IsActive(st.products, p)
    ensures r.code == HTTP_400_BAD_REQUEST <==>
              IsActive(st.products, p) &&
              (q > st.products[p].stock ||
               (HasProduct(LinesOf(st, u), p) && QuantityOf(LinesOf(st, u), p) + q > st.products[p].stock))
    ensures r.code != HTTP_200_OK ==> r.store == EnsureCart(st, u)
    ensures u in r.store.carts && OnlyCartOf(st, r.store, u)
    ensures r.store.nextItemId ==
              st.nextItemId + (if r.code == HTTP_200_OK && !HasProduct(LinesOf(st, u), p) then 1 else 0)
  {
    var s1 := EnsureCart(st, u);
    if !IsActive(s1.products, p) then Outcome(HTTP_404_NOT_FOUND, s1)
    else
      var stock := s1.products[p].stock;
      if q > stock then Outcome(HTTP_400_BAD_REQUEST, s1)
      else
        var lines := s1.carts[u];
        var found := IndexOfProduct(lines, p);
        if found.Some? && (QuantityOfAt(lines, found.value); lines[found.value].quantity + q > stock)
        then Outcome(HTTP_400_BAD_REQUEST, s1)
        else
          var next := if found.Some? then s1.nextItemId else s1.nextItemId + 1;
          Outcome(HTTP_200_OK, s1.(carts := s1.carts[u := AddToLines(lines, p, q, s1.nextItemId)],
                                   nextItemId := next))
  }

  /** The lines of a cart after a successful add: the product's line grows
      by `q`, or a new line with row id `nextId` and quantity `q` is appended. */
  function AddToLines(lines: seq<CartLine>, p: ProductId, q: int, nextId: int): (r: seq<CartLine>)
    ensures |r| == |lines| + (if HasProduct(lines, p) then 0 else 1)
    ensures forall j :: 0 <= j < |lines| ==> r[j].id == lines[j].id && r[j].product == lines[j].product
    ensures forall j :: 0 <= j < |lines| && lines[j].product != p ==> r[j] == lines[j]
    ensures !HasProduct(lines, p) ==> r[|lines|] == CartLine(nextId, p, q)
  {
    match IndexOfProduct(lines, p)
    case Some(i) => lines[i := lines[i].(quantity := lines[i].quantity + q)]
    case None => lines + [CartLine(nextId, p, q)]
  }

  /** `update_item`: set the quantity of one line of the caller's cart. */
  function UpdateItem(st: Store, u: UserId, id: int, q: int): (r: Outcome)
    requires WellFormed(st)
    ensures r.code == HTTP_200_OK || r.code == HTTP_400_BAD_REQUEST || r.code == HTTP_404_NOT_FOUND
    ensures r.code == HTTP_404_NOT_FOUND <==> u !in st.carts || !HasItem(st.carts[u], id)
    ensures r.code != HTTP_200_OK ==> r.store == st
    ensures r.code == HTTP_200_OK ==>
              u in st.carts && u in r.store.carts && OnlyCartOf(st, r.store, u) &&
              r.store.nextItemId == st.nextItemId &&
              var before := st.carts[u];
              var after := r.store.carts[u];
              |after| == |before| &&
              forall i :: 0 <= i < |before| ==>
                if before[i].id == id
                then after[i] == before[i].(quantity := q) && q <= st.products[before[i].product].stock
                else after[i] == before[i]
    ensures r.code == HTTP_400_BAD_REQUEST ==>
              u in st.carts &&
              (exists i :: 0 <= i < |st.carts[u]| && st.carts[u][i].id == id &&
                 q > st.products[st.carts[u][i].product].stock)
  {
    if u !in st.carts then Outcome(HTTP_404_NOT_FOUND, st)
    else
      var lines := st.carts[u];
      match IndexOfItem(lines, id)
      case None => Outcome(HTTP_404_NOT_FOUND, st)
      case Some(i) =>
        if q > st.products[lines[i].product].stock then Outcome(HTTP_400_BAD_REQUEST, st)
        else Outcome(HTTP_200_OK, st.(carts := st.carts[u := lines[i := lines[i].(quantity := q)]]))
  }

  /** `remove_item`: delete one line of the caller's cart. */
  function RemoveItem(st: Store, u: UserId, id: int): (r: Outcome)
    requires WellFormed(st)
    ensures r.code == HTTP_200_OK || r.code == HTTP_404_NOT_FOUND
    ensures r.code == HTTP_404_NOT_FOUND <==> u !in st.carts || !HasItem(st.carts[u], id)
    ensures r.code != HTTP_200_OK ==> r.store == st
    ensures r.code == HTTP_200_OK ==>
              u in st.carts && u in r.store.carts && OnlyCartOf(st, r.store, u) &&
              r.store.nextItemId == st.nextItemId &&
              |r.store.carts[u]| == |st.carts[u]| - 1 &&
              (forall l :: l in r.store.carts[u] <==> l in st.carts[u] && l.id != id) &&
              exists k :: 0 <= k < |st.carts[u]| && st.carts[u][k].id == id &&
                r.store.carts[u] == st.carts[u][..k] + st.carts[u][k + 1..]
  {
    if u !in st.carts then Outcome(HTTP_404_NOT_FOUND, st)
    else
      var lines := st.carts[u];
      match IndexOfItem(lines, id)
      case None => Outcome(HTTP_404_NOT_FOUND, st)
      case Some(i) =>
        var rest := lines[..i] + lines[i + 1..];
        RemoveAtMembership(lines, i, id);
        Outcome(HTTP_200_OK, st.(carts := st.carts[u := rest]))
  }

  /** `clear`: delete every line of the caller's cart. */
  function Clear(st: Store, u: UserId): (r: Outcome)
    ensures r.code == HTTP_200_OK || r.code == HTTP_404_NOT_FOUND
    ensures r.code == HTTP_404_NOT_FOUND <==> u !in st.carts
    ensures r.code != HTTP_200_OK ==> r.store == st
    ensures r.code == HTTP_200_OK ==>
              OnlyCartOf(st, r.store, u) && r.store.carts[u] == [] && r.store.nextItemId == st.nextItemId
  {
    if u !in st.carts then Outcome(HTTP_404_NOT_FOUND, st)
    else Outcome(HTTP_200_OK, st.(carts := st.carts[u := []]))
  }

  /** Cutting out the line with row id `id` keeps exactly the other lines. */
  lemma RemoveAtMembership(lines: seq<CartLine>, i: nat, id: int)
    requires i < |lines| && lines[i].id == id
    requires forall a, b :: 0 <= a < b < |lines| ==> lines[a].id != lines[b].id
    ensures forall l :: l in lines[..i] + lines[i + 1..] <==> l in lines && l.id != id
  {
    var rest := lines[..i] + lines[i + 1..];
    forall l ensures l in rest <==> l in lines && l.id != id {
      if l in rest {
        var k :| 0 <= k < |rest| && rest[k] == l;
        if k < i { assert l == lines[k]; } else { assert l == lines[k + 1]; }
      }
      if l in lines && l.id != id {
        var k :| 0 <= k < |lines| && lines[k] == l;
        if k < i { assert rest[k] == l; } else { assert rest[k - 1] == l; }
      }
    }
  }

  // ----- quantity bookkeeping ---------------------------------------------

  /** In a cart with one line per product, the quantity of the product of
      line `i` is that line's quantity. */
  lemma {:induction false} QuantityOfAt(lines: seq<CartLine>, i: nat)
    requires i < |lines|
    requires forall j :: 0 <= j < i ==> lines[j].product != lines[i].product
    ensures QuantityOf(lines, lines[i].product) == lines[i].quantity
  {
    if i > 0 {
      QuantityOfAt(lines[1..], i - 1);
    }
  }
}
