/** Laws of the checkout wizard: its guards, back-edges, the processing phase,
    the single-payment-in-flight invariant and the tax arithmetic. */
module CheckoutLaws {
  import opened CartContext
  import opened Checkout

  /** "Proceed to checkout" does nothing on an empty cart and otherwise moves
      from the cart step to the address step, touching nothing else. */
  lemma ProceedToCheckoutGuard(s: Session)
    ensures |s.cart.items| == 0 ==> HandleCheckout(s) == s && StepOn(s, ProceedToCheckout) == s
    ensures s.step == CartStep && |s.cart.items| > 0 ==>
              StepOn(s, ProceedToCheckout) == s.(step := AddressStep)
    ensures s.step != CartStep ==> StepOn(s, ProceedToCheckout) == s
  {
  }

  /** The submit handler itself checks nothing; the only gate is the browser's
      validation of the four `required` inputs. */
  lemma AddressSubmitGate(s: Session)
    ensures HandleAddressSubmit(s) == s.(step := PaymentStep)
    ensures s.step == AddressStep ==>
              (StepOn(s, SubmitAddress).step == PaymentStep <==> AllFilled(s.address))
    ensures StepOn(s, SubmitAddress).cart == s.cart
    ensures StepOn(s, SubmitAddress).address == s.address
  {
  }

  /** "Back" on the payment page returns to the address step and leaves the
      cart, the address and the processing flag as they were. */
  lemma BackToAddressEdge(s: Session)
    ensures s.step == PaymentStep ==> StepOn(s, BackToAddress) == s.(step := AddressStep)
    ensures s.step != PaymentStep ==> StepOn(s, BackToAddress) == s
  {
  }

  /** "Back" on the address page returns to the cart step and leaves the cart
      and the typed address as they were. */
  lemma BackToCartEdge(s: Session)
    ensures s.step == AddressStep ==> StepOn(s, BackToCart) == s.(step := CartStep)
    ensures s.step != AddressStep ==> StepOn(s, BackToCart) == s
  {
  }

  /** Paying raises the flag and schedules one completion; the completion
      lowers the flag, shows the confirmation and empties the cart. */
  lemma PaymentPhases(s: Session)
    ensures s.step == PaymentStep && !s.processing ==>
              StepOn(s, Pay).processing && StepOn(s, Pay).step == PaymentStep &&
              StepOn(s, Pay).pendingTimers == s.pendingTimers + 1 &&
              StepOn(s, Pay).cart == s.cart
    ensures s.pendingTimers > 0 ==>
              !StepOn(s, PaymentDelayElapsed).processing &&
              StepOn(s, PaymentDelayElapsed).step == ConfirmationStep &&
              StepOn(s, PaymentDelayElapsed).cart.items == []
  {
  }

  /** The pay button is disabled while processing: a second press is ignored. */
  lemma DoubleSubmitIgnored(s: Session)
    requires s.processing
    ensures StepOn(s, Pay) == s
  {
  }

  /** "Continue shopping" returns from the confirmation to the cart step; the
      address typed earlier is kept. */
  lemma ContinueShoppingReturns(s: Session)
    requires s.step == ConfirmationStep
    ensures StepOn(s, ContinueShopping).step == CartStep
    ensures StepOn(s, ContinueShopping).address == s.address
  {
  }

  lemma StepKeepsOneInFlight(s: Session, e: Event)
    requires OneInFlight(s)
    ensures OneInFlight(StepOn(s, e))
  {
  }

  /** From any state with no payment in flight or exactly one, every event
      sequence keeps it so: at most one payment is ever in flight. */
  lemma {:induction false} RunKeepsOneInFlight(s: Session, events: seq<Event>)
    requires OneInFlight(s)
    decreases events
    ensures OneInFlight(Run(s, events))
    ensures Run(s, events).pendingTimers <= 1
  {
    if |events| > 0 {
      StepKeepsOneInFlight(s, events[0]);
      RunKeepsOneInFlight(StepOn(s, events[0]), events[1..]);
    }
  }

  /** On a freshly mounted page nothing is in flight, so at most one payment
      is ever in flight, whatever the user does. */
  lemma AtMostOnePaymentInFlight(cart: CartState, events: seq<Event>)
    ensures !Start(cart).processing && Start(cart).step == CartStep
    ensures Run(Start(cart), events).pendingTimers <= 1
    ensures Run(Start(cart), events).processing <==> Run(Start(cart), events).pendingTimers == 1
  {
    RunKeepsOneInFlight(Start(cart), events);
  }

  /** Every change of step is one of the wizard's edges, except the
      completion timer, which jumps to the confirmation from wherever the
      page is while a payment is in flight. */
  lemma StepEdges(s: Session, e: Event)
    requires OneInFlight(s)
    ensures StepOn(s, e).step != s.step ==>
              UserEdge(s.step, StepOn(s, e).step) ||
              (e == PaymentDelayElapsed && s.processing && StepOn(s, e).step == ConfirmationStep)
  {
  }

  /** The back button is not disabled while processing, so the completion can
      land on the address step: it still clears the cart and shows the
      confirmation, a jump that is not one of the wizard's edges. */
  lemma CompletionAfterBack(cart: CartState, a: Address)
    requires |cart.items| > 0
    ensures var s := Session(PaymentStep, a, false, 0, cart);
            var mid := Run(s, [Pay, BackToAddress]);
            mid.step == AddressStep && mid.processing &&
            Run(s, [Pay, BackToAddress, PaymentDelayElapsed]).step == ConfirmationStep &&
            Run(s, [Pay, BackToAddress, PaymentDelayElapsed]).cart.items == [] &&
            !UserEdge(mid.step, ConfirmationStep)
  {
  }

  /** For a cart that is worth something the tax only adds: the amount on the
      pay button is never below the subtotal. */
  lemma GrandTotalCoversSubtotal(subtotal: real)
    ensures subtotal >= 0.0 ==> Tax(subtotal) >= 0.0 && GrandTotal(subtotal) >= subtotal
  {
  }

  /** A cart with one line of price 10 and quantity 1: adding the same product
      again gives quantity 2, a subtotal of 20 and a checkout total of 22. */
  lemma TenDollarScenario(name: string, image: string)
    ensures var items := Add([CartItem(1, name, 10.0, image, 1)], Product(1, name, 10.0, image));
            items == [CartItem(1, name, 10.0, image, 2)] &&
            Total(items) == 20.0 && GrandTotal(Total(items)) == 22.0
  {
  }
}
