/** The server's persistent state, as the cart and order views see it: the
    product table, one cart per user holding its lines in creation order, and
    the order table with each order's items. Row ids come from two
    auto-increment counters. Every view is modelled as one atomic step from a
    store to an HTTP status code and the store after the request. */
module ServerStore {
  import opened Wrappers

  type UserId = int
  type ProductId = int

  const HTTP_200_OK := 200
  const HTTP_201_CREATED := 201
  const HTTP_400_BAD_REQUEST := 400
  const HTTP_403_FORBIDDEN := 403
  const HTTP_404_NOT_FOUND := 404

  datatype Product = Product(name: string, price: real, stock: int, isActive: bool, category: int)

  /** A cart item row; the cart it belongs to is the key it is stored under. */
  datatype CartLine = CartLine(id: int, product: ProductId, quantity: int)

  datatype Shipping = Shipping(address: string, city: string, zip: string, country: string)

  datatype PaymentStatus = PaymentPending | PaymentCompleted

  /** An order item: the quantity ordered and the product's price at the time. */
  datatype OrderItem = OrderItem(product: ProductId, quantity: int, price: real)

  datatype Order = Order(owner: UserId, status: string, paymentStatus: PaymentStatus,
                         shipping: Shipping, totalAmount: real, taxAmount: real,
                         items: seq<OrderItem>)

  datatype Store = Store(products: map<ProductId, Product>,
                         carts: map<UserId, seq<CartLine>>,
                         orders: map<int, Order>,
                         nextItemId: int,
                         nextOrderId: int)

  /** The reply of one view: its status code and the store it leaves behind. */
  datatype Outcome = Outcome(code: int, store: Store)

  /** The cart lines of `u`'s cart, or none when `u` has no cart. */
  function LinesOf(st: Store, u: UserId): seq<CartLine>
  {
    if u in st.carts then st.carts[u] else []
  }

  /** `Cart.objects.get_or_create(user=u)`. */
  function EnsureCart(st: Store, u: UserId): (r: Store)
    ensures u in r.carts && r.carts[u] == LinesOf(st, u)
    ensures forall v :: v in st.carts ==> v in r.carts && r.carts[v] == st.carts[v]
    ensures r.carts.Keys == st.carts.Keys + {u}
    ensures r.products == st.products && r.orders == st.orders
    ensures r.nextItemId == st.nextItemId && r.nextOrderId == st.nextOrderId
  {
    if u in st.carts then st else st.(carts := st.carts[u := []])
  }

  /** Position of the first line holding product `p`. */
  function IndexOfProduct(lines: seq<CartLine>, p: ProductId): (r: Option<nat>)
    ensures r.None? <==> forall j :: 0 <= j < |lines| ==> lines[j].product != p
    ensures r.Some? ==> r.value < |lines| && lines[r.value].product == p &&
                        forall j :: 0 <= j < r.value ==> lines[j].product != p
  {
    FirstIndex(lines, (l: CartLine) => l.product == p)
  }

  /** Position of the first line whose row id is `id`. */
  function IndexOfItem(lines: seq<CartLine>, id: int): (r: Option<nat>)
    ensures r.None? <==> forall j :: 0 <= j < |lines| ==> lines[j].id != id
    ensures r.Some? ==> r.value < |lines| && lines[r.value].id == id &&
                        forall j :: 0 <= j < r.value ==> lines[j].id != id
  {
    FirstIndex(lines, (l: CartLine) => l.id == id)
  }

  /** The quantity of product `p` in a cart, 0 when no line holds it. */
  function QuantityOf(lines: seq<CartLine>, p: ProductId): int
  {
    if |lines| == 0 then 0
    else if lines[0].product == p then lines[0].quantity
    else QuantityOf(lines[1..], p)
  }

  /** Sum of the quantities of the order items for product `p`. */
  function OrderedQuantity(items: seq<OrderItem>, p: ProductId): int
  {
    if |items| == 0 then 0
    else (if items[0].product == p then items[0].quantity else 0) + OrderedQuantity(items[1..], p)
  }

  /** `Product.objects.filter(id=id, is_active=True).exists()`. */
  predicate IsActive(products: map<ProductId, Product>, id: ProductId)
  {
    id in products && products[id].isActive
  }

  /** Every line's product is in the product table. */
  predicate LinesResolve(products: map<ProductId, Product>, lines: seq<CartLine>)
  {
    forall i :: 0 <= i < |lines| ==> lines[i].product in products
  }

  /** At most one line per product. */
  predicate UniqueProducts(lines: seq<CartLine>)
  {
    forall i, j :: 0 <= i < j < |lines| ==> lines[i].product != lines[j].product
  }

  /** Row ids are distinct and below the counter. */
  predicate FreshLineIds(lines: seq<CartLine>, nextItemId: int)
  {
    (forall i :: 0 <= i < |lines| ==> lines[i].id < nextItemId) &&
    (forall i, j :: 0 <= i < j < |lines| ==> lines[i].id != lines[j].id)
  }

  predicate LinesWellFormed(products: map<ProductId, Product>, lines: seq<CartLine>, nextItemId: int)
  {
    LinesResolve(products, lines) && UniqueProducts(lines) && FreshLineIds(lines, nextItemId)
  }

  predicate ItemsWellFormed(products: map<ProductId, Product>, items: seq<OrderItem>)
  {
    forall i :: 0 <= i < |items| ==> items[i].product in products
  }

  /** The store invariant the views rely on and keep: foreign keys resolve,
      a cart holds at most one line per product (the pair `get_or_create`
      looks up), line ids are distinct within a cart, and every id is below
      its counter. No database constraint is assumed for it; the
      `...PreservesWellFormed` lemmas show that every view keeps it. */
  predicate WellFormed(st: Store)
  {
    (forall u :: u in st.carts ==> LinesWellFormed(st.products, st.carts[u], st.nextItemId)) &&
    (forall o :: o in st.orders ==> o < st.nextOrderId && ItemsWellFormed(st.products, st.orders[o].items))
  }
}
