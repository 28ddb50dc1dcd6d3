/** The server order endpoints: which orders a user sees, turning the cart
    into an order, the admin status change, and payment confirmation with
    its stock decrement. */
module OrderViews {
  import opened Wrappers
  import opened ServerStore

  /** The status a new order is assumed to start in: the field's default is
      declared with the order model, which is not part of this model. */
  const DefaultStatus := "pending"

  /** `get_queryset`: staff see every order, anyone else only their own. */
  function VisibleOrders(st: Store, u: UserId, isStaff: bool): (r: set<int>)
    ensures r <= st.orders.Keys
    ensures isStaff ==> r == st.orders.Keys
    ensures !isStaff ==> forall o :: o in r <==> o in st.orders && st.orders[o].owner == u
  {
    if isStaff then st.orders.Keys else set o | o in st.orders && st.orders[o].owner == u
  }

  /** The cart's total price at current product prices. */
  function Subtotal(products: map<ProductId, Product>, lines: seq<CartLine>): real
    requires LinesResolve(products, lines)
  {
    if |lines| == 0 then 0.0
    else products[lines[0].product].price * (lines[0].quantity as real) + Subtotal(products, lines[1..])
  }

  /** Sum of price * quantity over order items. */
  function ItemsTotal(items: seq<OrderItem>): real
  {
    if |items| == 0 then 0.0
    else items[0].price * (items[0].quantity as real) + ItemsTotal(items[1..])
  }

  /** One order item per cart line, with the product's current price copied in. */
  function Snapshot(products: map<ProductId, Product>, lines: seq<CartLine>): (r: seq<OrderItem>)
    requires LinesResolve(products, lines)
    ensures |r| == |lines|
    ensures forall i :: 0 <= i < |lines| ==>
              r[i].product == lines[i].product && r[i].quantity == lines[i].quantity &&
              r[i].price == products[lines[i].product].price
    ensures ItemsTotal(r) == Subtotal(products, lines)
  {
    if |lines| == 0 then []
    else [OrderItem(lines[0].product, lines[0].quantity, products[lines[0].product].price)] +
         Snapshot(products, lines[1..])
  }

  /** The stock loop of `create`: no line asks for more than its product has. */
  predicate AllInStock(products: map<ProductId, Product>, lines: seq<CartLine>)
    requires LinesResolve(products, lines)
  {
    forall i :: 0 <= i < |lines| ==> lines[i].quantity <= products[lines[i].product].stock
  }

  lemma CartLinesResolve(st: Store, u: UserId)
    requires WellFormed(st) && u in st.carts
    ensures LinesResolve(st.products, st.carts[u])
  {
    assert LinesWellFormed(st.products, st.carts[u], st.nextItemId);
  }

  /** `create`: turn the caller's cart into a pending order and empty the cart.
      `shipping` is None when the shipping fields fail validation. */
  function CreateOrder(st: Store, u: UserId, shipping: Option<Shipping>): (r: Outcome)
    requires WellFormed(st)
    ensures r.code == HTTP_201_CREATED || r.code == HTTP_400_BAD_REQUEST || r.code == HTTP_404_NOT_FOUND
    ensures r.code == HTTP_404_NOT_FOUND <==> u !in st.carts
    ensures r.code == HTTP_400_BAD_REQUEST <==>
              u in st.carts &&
              (|st.carts[u]| == 0 || shipping.None? ||
               exists i :: 0 <= i < |st.carts[u]| &&
                 st.carts[u][i].quantity > st.products[st.carts[u][i].product].stock)
    ensures r.code != HTTP_201_CREATED ==> r.store == st
    ensures r.code == HTTP_201_CREATED ==>
              u in st.carts && shipping.Some? && st.nextOrderId !in st.orders &&
              st.nextOrderId in r.store.orders &&
              var lines := st.carts[u];
              var o := r.store.orders[st.nextOrderId];
              r.store.orders == st.orders[st.nextOrderId := o] &&
              r.store.nextOrderId == st.nextOrderId + 1 &&
              o.owner == u && o.status == DefaultStatus && o.paymentStatus == PaymentPending &&
              o.shipping == shipping.value &&
              |o.items| == |lines| &&
              (forall i :: 0 <= i < |lines| ==>
                 o.items[i].product == lines[i].product && o.items[i].quantity == lines[i].quantity &&
                 o.items[i].price == st.products[lines[i].product].price &&
                 lines[i].quantity <= st.products[lines[i].product].stock) &&
              o.taxAmount * 10.0 == ItemsTotal(o.items) &&
              o.totalAmount == ItemsTotal(o.items) + o.taxAmount &&
              r.store.carts == st.carts[u := []] &&
              r.store.products == st.products && r.store.nextItemId == st.nextItemId
  {
    if u !in st.carts then Outcome(HTTP_404_NOT_FOUND, st)
    else
      var lines := st.carts[u];
      CartLinesResolve(st, u);
      if |lines| == 0 then Outcome(HTTP_400_BAD_REQUEST, st)
      else if shipping.None? then Outcome(HTTP_400_BAD_REQUEST, st)
      else if !AllInStock(st.products, lines) then Outcome(HTTP_400_BAD_REQUEST, st)
      else
        var subtotal := Subtotal(st.products, lines);
        var tax := subtotal * 0.1;
        var order := Order(u, DefaultStatus, PaymentPending, shipping.value,
                           subtotal + tax, tax, Snapshot(st.products, lines));
        Outcome(HTTP_201_CREATED,
                st.(orders := st.orders[st.nextOrderId := order],
                    nextOrderId := st.nextOrderId + 1,
                    carts := st.carts[u := []]))
  }

  /** `update_status`: admin only; the order must exist and the new status
      must be one of the order model's status choices. */
  function UpdateStatus(st: Store, u: UserId, isStaff: bool, id: int, status: string,
                        choices: set<string>): (r: Outcome)
    ensures r.code == HTTP_200_OK || r.code == HTTP_400_BAD_REQUEST ||
            r.code == HTTP_403_FORBIDDEN || r.code == HTTP_404_NOT_FOUND
    ensures r.code == HTTP_403_FORBIDDEN <==> !isStaff
    ensures r.code == HTTP_404_NOT_FOUND <==> isStaff && id !in st.orders
    ensures r.code == HTTP_400_BAD_REQUEST <==> isStaff && id in st.orders && status !in choices
    ensures r.code != HTTP_200_OK ==> r.store == st
    ensures r.code == HTTP_200_OK ==>
              id in st.orders && status in choices &&
              r.store == st.(orders := st.orders[id := st.orders[id].(status := status)])
  {
    if !isStaff then Outcome(HTTP_403_FORBIDDEN, st)
    else if id !in VisibleOrders(st, u, isStaff) then Outcome(HTTP_404_NOT_FOUND, st)
    else if status !in choices then Outcome(HTTP_400_BAD_REQUEST, st)
    else Outcome(HTTP_200_OK, st.(orders := st.orders[id := st.orders[id].(status := status)]))
  }

  /** The stock loop of `confirm_payment`: each item takes its quantity off
      its product's stock, with no lower bound. */
  function DecrementStock(products: map<ProductId, Product>, items: seq<OrderItem>): (r: map<ProductId, Product>)
    requires ItemsWellFormed(products, items)
    ensures r.Keys == products.Keys
    ensures forall p :: p in products ==>
              r[p] == products[p].(stock := products[p].stock - OrderedQuantity(items, p))
  {
    if |items| == 0 then products
    else
      var p := items[0].product;
      DecrementStock(products[p := products[p].(stock := products[p].stock - items[0].quantity)], items[1..])
  }

  /** `confirm_payment`: only for the caller's own order while its payment is
      pending; marks the payment completed and takes the ordered quantities
      off the stock. */
  function ConfirmPayment(st: Store, u: UserId, id: int): (r: Outcome)
    requires WellFormed(st)
    ensures r.code == HTTP_200_OK || r.code == HTTP_404_NOT_FOUND
    ensures r.code == HTTP_404_NOT_FOUND <==>
              id !in st.orders || st.orders[id].owner != u || st.orders[id].paymentStatus != PaymentPending
    ensures r.code != HTTP_200_OK ==> r.store == st
    ensures r.code == HTTP_200_OK ==>
              id in st.orders && id in r.store.orders &&
              r.store.orders == st.orders[id := st.orders[id].(paymentStatus := PaymentCompleted)] &&
              r.store.carts == st.carts && r.store.products.Keys == st.products.Keys &&
              r.store.nextItemId == st.nextItemId && r.store.nextOrderId == st.nextOrderId &&
              forall p :: p in st.products ==>
                r.store.products[p] ==
                  st.products[p].(stock := st.products[p].stock - OrderedQuantity(st.orders[id].items, p))
  {
    if id !in st.orders || st.orders[id].owner != u || st.orders[id].paymentStatus != PaymentPending
    then Outcome(HTTP_404_NOT_FOUND, st)
    else
      var o := st.orders[id];
      Outcome(HTTP_200_OK,
              st.(orders := st.orders[id := o.(paymentStatus := PaymentCompleted)],
                  products := DecrementStock(st.products, o.items)))
  }
}
