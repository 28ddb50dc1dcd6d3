/** Laws of the order endpoints: the database invariants they preserve, that a
    payment is confirmed (and stock taken) at most once per order, that the
    server's order total agrees with the total the checkout page shows, and
    that nothing stops stock from going below zero. */
module OrderViewLaws {
  import opened Wrappers
  import opened ServerStore
  import opened OrderViews
  import Checkout

  lemma CreateOrderPreservesWellFormed(st: Store, u: UserId, shipping: Option<Shipping>)
    requires WellFormed(st)
    ensures WellFormed(CreateOrder(st, u, shipping).store)
  {
    var r := CreateOrder(st, u, shipping);
    if r.code == HTTP_201_CREATED {
      var o := r.store.orders[st.nextOrderId];
      CartLinesResolve(st, u);
      assert ItemsWellFormed(r.store.products, o.items);
      forall v | v in r.store.carts
        ensures LinesWellFormed(r.store.products, r.store.carts[v], r.store.nextItemId)
      {
        if v != u {
          assert LinesWellFormed(st.products, st.carts[v], st.nextItemId);
        }
      }
    }
  }

  lemma UpdateStatusPreservesWellFormed(st: Store, u: UserId, isStaff: bool, id: int, status: string,
                                        choices: set<string>)
    requires WellFormed(st)
    ensures WellFormed(UpdateStatus(st, u, isStaff, id, status, choices).store)
  {
  }

  lemma ConfirmPaymentPreservesWellFormed(st: Store, u: UserId, id: int)
    requires WellFormed(st)
    ensures WellFormed(ConfirmPayment(st, u, id).store)
  {
    var r := ConfirmPayment(st, u, id);
    if r.code == HTTP_200_OK {
      forall v | v in r.store.carts
        ensures LinesWellFormed(r.store.products, r.store.carts[v], r.store.nextItemId)
      {
        assert LinesWellFormed(st.products, st.carts[v], st.nextItemId);
      }
      forall o | o in r.store.orders
        ensures o < r.store.nextOrderId && ItemsWellFormed(r.store.products, r.store.orders[o].items)
      {
        assert ItemsWellFormed(st.products, st.orders[o].items);
      }
    }
  }

  /** Once confirmed, an order is no longer pending: a second confirmation is
      refused and takes nothing more off the stock. */
  lemma ConfirmPaymentOnce(st: Store, u: UserId, id: int)
    requires WellFormed(st)
    requires ConfirmPayment(st, u, id).code == HTTP_200_OK
    ensures WellFormed(ConfirmPayment(st, u, id).store)
    ensures ConfirmPayment(ConfirmPayment(st, u, id).store, u, id).code == HTTP_404_NOT_FOUND
    ensures ConfirmPayment(ConfirmPayment(st, u, id).store, u, id).store == ConfirmPayment(st, u, id).store
  {
    ConfirmPaymentPreservesWellFormed(st, u, id);
  }

  /** The order's total is the checkout page's grand total of the order's
      items: both add the same ten percent tax. */
  lemma OrderTotalMatchesCheckout(st: Store, u: UserId, shipping: Option<Shipping>)
    requires WellFormed(st)
    requires CreateOrder(st, u, shipping).code == HTTP_201_CREATED
    ensures var o := CreateOrder(st, u, shipping).store.orders[st.nextOrderId];
            o.totalAmount == Checkout.GrandTotal(ItemsTotal(o.items)) &&
            o.taxAmount == Checkout.Tax(ItemsTotal(o.items))
  {
  }

  /** A new order becomes visible to its owner and to staff, and to nobody
      else. */
  lemma CreateOrderVisible(st: Store, u: UserId, shipping: Option<Shipping>, v: UserId)
    requires WellFormed(st)
    requires CreateOrder(st, u, shipping).code == HTTP_201_CREATED
    ensures var after := CreateOrder(st, u, shipping).store;
            VisibleOrders(after, u, false) == VisibleOrders(st, u, false) + {st.nextOrderId} &&
            VisibleOrders(after, v, true) == VisibleOrders(st, v, true) + {st.nextOrderId} &&
            (v != u ==> VisibleOrders(after, v, false) == VisibleOrders(st, v, false))
  {
  }

  /** With no negative price or quantity, the cart's subtotal, and with it the
      order's tax, is not negative, and the total is at least the subtotal. */
  lemma {:induction false} SubtotalNonNegative(products: map<ProductId, Product>, lines: seq<CartLine>)
    requires LinesResolve(products, lines)
    requires forall i :: 0 <= i < |lines| ==> lines[i].quantity >= 0 && products[lines[i].product].price >= 0.0
    ensures Subtotal(products, lines) >= 0.0
    ensures Checkout.GrandTotal(Subtotal(products, lines)) >= Subtotal(products, lines)
  {
    if |lines| > 0 {
      var price, quantity := products[lines[0].product].price, lines[0].quantity as real;
      assert price >= 0.0 && quantity >= 0.0;
      assert price * quantity >= 0.0;
      assert forall i :: 0 <= i < |lines[1..]| ==> lines[1..][i] == lines[i + 1];
      SubtotalNonNegative(products, lines[1..]);
    }
  }

  // ----- the last unit, sold twice ------------------------------------------

  /** Two customers, each with the last lamp in their cart. */
  const LastLamp := Store(map[7 := Product("lamp", 5.0, 1, true, 1)],
                          map[1 := [CartLine(0, 7, 1)], 2 := [CartLine(1, 7, 1)]],
                          map[], 2, 0)

  /** What the scenario needs to know about an order for one lamp. */
  predicate OneLampOrder(st: Store, id: int, owner: UserId)
  {
    id in st.orders && st.orders[id].owner == owner &&
    st.orders[id].paymentStatus == PaymentPending &&
    st.orders[id].items == [OrderItem(7, 1, 5.0)]
  }

  lemma FirstCustomerOrders(sh: Shipping)
    ensures WellFormed(LastLamp)
    ensures var c := CreateOrder(LastLamp, 1, Some(sh));
            c.code == HTTP_201_CREATED && WellFormed(c.store) &&
            c.store.products == LastLamp.products && c.store.nextOrderId == 1 &&
            2 in c.store.carts && c.store.carts[2] == [CartLine(1, 7, 1)] &&
            OneLampOrder(c.store, 0, 1)
  {
    assert LinesWellFormed(LastLamp.products, LastLamp.carts[1], 2);
    assert LinesWellFormed(LastLamp.products, LastLamp.carts[2], 2);
    CreateOrderPreservesWellFormed(LastLamp, 1, Some(sh));
  }

  lemma SecondCustomerOrders(st: Store, sh: Shipping)
    requires WellFormed(st) && st.products == LastLamp.products && st.nextOrderId == 1
    requires 2 in st.carts && st.carts[2] == [CartLine(1, 7, 1)] && OneLampOrder(st, 0, 1)
    ensures var c := CreateOrder(st, 2, Some(sh));
            c.code == HTTP_201_CREATED && WellFormed(c.store) &&
            c.store.products == LastLamp.products &&
            OneLampOrder(c.store, 0, 1) && OneLampOrder(c.store, 1, 2)
  {
    CreateOrderPreservesWellFormed(st, 2, Some(sh));
  }

  /** Confirming a pending one-lamp order takes one lamp off the stock,
      whatever the stock is. */
  lemma ConfirmOneLamp(st: Store, id: int, owner: UserId)
    requires WellFormed(st) && 7 in st.products && OneLampOrder(st, id, owner)
    ensures var p := ConfirmPayment(st, owner, id);
            p.code == HTTP_200_OK && WellFormed(p.store) &&
            7 in p.store.products && p.store.products[7].stock == st.products[7].stock - 1 &&
            (forall o :: o != id && OneLampOrder(st, o, 2) ==> OneLampOrder(p.store, o, 2))
  {
    ConfirmPaymentPreservesWellFormed(st, owner, id);
    assert OrderedQuantity([OrderItem(7, 1, 5.0)], 7) == 1;
  }

  /** Stock is checked when an order is created but not when it is paid, and
      creating an order does not reserve stock. Two customers each ordering
      the last unit of a product both pass the check; paying both leaves the
      stock at -1. */
  lemma StockCanGoNegative(sh: Shipping)
    ensures WellFormed(LastLamp) && LastLamp.products[7].stock == 1
    ensures var c1 := CreateOrder(LastLamp, 1, Some(sh));
            c1.code == HTTP_201_CREATED && WellFormed(c1.store) &&
            var c2 := CreateOrder(c1.store, 2, Some(sh));
            c2.code == HTTP_201_CREATED && WellFormed(c2.store) &&
            var p1 := ConfirmPayment(c2.store, 1, 0);
            p1.code == HTTP_200_OK && WellFormed(p1.store) &&
            var p2 := ConfirmPayment(p1.store, 2, 1);
            p2.code == HTTP_200_OK && 7 in p2.store.products && p2.store.products[7].stock == -1
  {
    FirstCustomerOrders(sh);
    var c1 := CreateOrder(LastLamp, 1, Some(sh));
    SecondCustomerOrders(c1.store, sh);
    var c2 := CreateOrder(c1.store, 2, Some(sh));
    ConfirmOneLamp(c2.store, 0, 1);
    var p1 := ConfirmPayment(c2.store, 1, 0);
    ConfirmOneLamp(p1.store, 1, 2);
  }
}
