/** The client-side cart store: the `cartReducer` state machine over an ordered
    list of line items, the derived `cartTotal` / `cartCount`, and the
    load-on-start / save-on-change persistence of the provider. */
module CartContext {
  import opened Wrappers

  /** The product record a page hands to `addToCart`. */
  datatype Product = Product(id: int, name: string, price: real, image: string)

  /** A cart line: the product's fields spread out, plus a quantity. */
  datatype CartItem = CartItem(id: int, name: string, price: real, image: string, quantity: int)

  datatype CartState = CartState(items: seq<CartItem>)

  datatype Action =
    | AddToCart(product: Product)
    | RemoveFromCart(id: int)
    | UpdateQuantity(id: int, quantity: int)
    | ClearCart
    | LoadCart(items: seq<CartItem>)
    | Unknown(tag: string)

  const EmptyCart := CartState([])

  /** The line a product becomes when it first enters the cart. */
  function NewLine(p: Product): CartItem
  {
    CartItem(p.id, p.name, p.price, p.image, 1)
  }

  predicate HasId(items: seq<CartItem>, id: int)
  {
    exists j :: 0 <= j < |items| && items[j].id == id
  }

  /** `findIndex(item => item.id === id)`: -1 when no line carries the id. */
  function FindIndex(items: seq<CartItem>, id: int): (r: int)
    ensures -1 <= r < |items|
    ensures r == -1 <==> !HasId(items, id)
    ensures r >= 0 ==> items[r].id == id && forall j :: 0 <= j < r ==> items[j].id != id
  {
    match FirstIndex(items, (x: CartItem) => x.id == id)
    case None => -1
    case Some(k) => k
  }

  /** ADD_TO_CART: bump the first line with the product's id, or append a new
      line with quantity 1. */
  function Add(items: seq<CartItem>, p: Product): (r: seq<CartItem>)
    ensures HasId(items, p.id) ==>
              |r| == |items| &&
              exists k :: 0 <= k < |items| && items[k].id == p.id &&
                (forall j :: 0 <= j < k ==> items[j].id != p.id) &&
                r[k] == items[k].(quantity := items[k].quantity + 1) &&
                (forall j :: 0 <= j < |items| && j != k ==> r[j] == items[j])
    ensures !HasId(items, p.id) ==>
              |r| == |items| + 1 && r[..|items|] == items &&
              r[|items|] == CartItem(p.id, p.name, p.price, p.image, 1)
  {
    var i := FindIndex(items, p.id);
    if i > -1 then items[i := items[i].(quantity := items[i].quantity + 1)]
    else items + [NewLine(p)]
  }

  /** Number of lines carrying `id`. */
  function Occurrences(items: seq<CartItem>, id: int): nat
  {
    if |items| == 0 then 0
    else (if items[0].id == id then 1 else 0) + Occurrences(items[1..], id)
  }

  /** REMOVE_FROM_CART: `filter(item => item.id !== id)`. */
  function Remove(items: seq<CartItem>, id: int): (r: seq<CartItem>)
    ensures forall j :: 0 <= j < |r| ==> r[j].id != id
    ensures forall x :: x in r <==> x in items && x.id != id
    ensures |r| == |items| - Occurrences(items, id)
  {
    if |items| == 0 then []
    else if items[0].id == id then Remove(items[1..], id)
    else [items[0]] + Remove(items[1..], id)
  }

  function Max(a: int, b: int): int
  {
    if a >= b then a else b
  }

  /** UPDATE_QUANTITY: every line with the id gets `max(1, q)`; others are kept. */
  function Update(items: seq<CartItem>, id: int, q: int): (r: seq<CartItem>)
    ensures |r| == |items|
    ensures forall j :: 0 <= j < |items| && items[j].id != id ==> r[j] == items[j]
    ensures forall j :: 0 <= j < |items| && items[j].id == id ==>
              r[j].quantity >= 1 && (q >= 1 ==> r[j].quantity == q) &&
              (q < 1 ==> r[j].quantity == 1) && r[j] == items[j].(quantity := r[j].quantity)
  {
    seq(|items|, j requires 0 <= j < |items| =>
      if items[j].id == id then items[j].(quantity := Max(1, q)) else items[j])
  }

  /** The reducer: which lines each action leaves behind. */
  function Reduce(s: CartState, a: Action): (r: CartState)
    ensures a.AddToCart? ==>
              HasId(r.items, a.product.id) &&
              |r.items| == |s.items| + (if HasId(s.items, a.product.id) then 0 else 1)
    ensures a.RemoveFromCart? ==> !HasId(r.items, a.id) && |r.items| <= |s.items|
    ensures a.UpdateQuantity? ==>
              |r.items| == |s.items| && forall id :: HasId(r.items, id) == HasId(s.items, id)
    ensures a.ClearCart? ==> r == EmptyCart
    ensures a.LoadCart? ==> r.items == a.items
    ensures a.Unknown? ==> r == s
  {
    match a
    case AddToCart(p) => s.(items := Add(s.items, p))
    case RemoveFromCart(id) => s.(items := Remove(s.items, id))
    case UpdateQuantity(id, q) => s.(items := Update(s.items, id, q))
    case ClearCart => s.(items := [])
    case LoadCart(xs) => s.(items := xs)
    case Unknown(_) => s
  }

  // ----- derived values ---------------------------------------------------

  /** `cartTotal`: left-to-right sum of price * quantity. */
  function Total(items: seq<CartItem>): real
  {
    if |items| == 0 then 0.0
    else Total(items[..|items| - 1]) + items[|items| - 1].price * (items[|items| - 1].quantity as real)
  }

  /** `cartCount`: left-to-right sum of quantities. */
  function Count(items: seq<CartItem>): int
  {
    if |items| == 0 then 0
    else Count(items[..|items| - 1]) + items[|items| - 1].quantity
  }

  // ----- invariants -------------------------------------------------------

  predicate UniqueIds(items: seq<CartItem>)
  {
    forall i, j :: 0 <= i < j < |items| ==> items[i].id != items[j].id
  }

  predicate PositiveQuantities(items: seq<CartItem>)
  {
    forall i :: 0 <= i < |items| ==> items[i].quantity >= 1
  }

  predicate Valid(s: CartState)
  {
    UniqueIds(s.items) && PositiveQuantities(s.items)
  }

  // ----- persistence ------------------------------------------------------

  /** The provider: the reducer state and what was last written under the
      storage key 'cart' (None: nothing written yet). JSON serialisation is
      taken to be an exact round trip. */
  datatype Provider = Provider(state: CartState, saved: Option<seq<CartItem>>)

  /** Mount: start from the empty cart and, when something was saved, load it. */
  function Mount(saved: Option<seq<CartItem>>): (p: Provider)
    ensures saved.None? ==> p.state == EmptyCart
    ensures saved.Some? ==> p.state.items == saved.value
    ensures p.saved == Some(p.state.items)
  {
    var s := if saved.Some? then Reduce(EmptyCart, LoadCart(saved.value)) else EmptyCart;
    Provider(s, Some(s.items))
  }

  /** One dispatch followed by the save effect: the state is the reducer's
      answer to the action, and what is saved reloads to exactly that state. */
  function Dispatch(p: Provider, a: Action): (r: Provider)
    ensures r.state == Reduce(p.state, a)
    ensures r.saved.Some? && Mount(r.saved).state == Reduce(p.state, a)
  {
    var s := Reduce(p.state, a);
    Provider(s, Some(s.items))
  }
}
