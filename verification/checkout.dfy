/** The checkout wizard of the cart page: the step machine
    cart -> address -> payment -> (processing) -> confirmation -> cart, its
    back-edges, the payment-processing flag with its delayed completion, and
    the 10% tax shown on every step. */
module Checkout {
  import opened CartContext

  datatype Step = CartStep | AddressStep | PaymentStep | ConfirmationStep

  datatype Address = Address(street: string, city: string, zip: string, country: string)

  datatype AddressField = Street | City | Zip | Country

  /** The page's state, the cart it reads from the cart store, and the number
      of completion timers scheduled by `handlePayment` that have not fired. */
  datatype Session = Session(step: Step, address: Address, processing: bool,
                             pendingTimers: nat, cart: CartState)

  datatype Event =
    | ProceedToCheckout          // "Proceed to Checkout" in the order summary
    | EditAddress(field: AddressField, value: string)
    | SubmitAddress              // submit of the shipping-address form
    | BackToCart                 // "Back" on the address page
    | BackToAddress              // "Back" on the payment page
    | Pay                        // the pay button
    | PaymentDelayElapsed        // a scheduled completion timer fires
    | ContinueShopping           // "Continue Shopping" on the confirmation page
    | CartChange(action: Action) // a cart action dispatched from anywhere

  const BlankAddress := Address("", "", "", "")

  /** A freshly mounted page over the given cart. */
  function Start(cart: CartState): Session
  {
    Session(CartStep, BlankAddress, false, 0, cart)
  }

  // ----- tax --------------------------------------------------------------

  const TaxRate: real := 0.1

  function Tax(subtotal: real): (r: real)
    ensures r * 10.0 == subtotal
  {
    subtotal * TaxRate
  }

  /** The amount shown as "Total" and on the pay button. */
  function GrandTotal(subtotal: real): (r: real)
    ensures r * 10.0 == subtotal * 11.0
    ensures r - subtotal == Tax(subtotal)
  {
    subtotal + Tax(subtotal)
  }

  // ----- handlers ---------------------------------------------------------

  /** `handleCheckout`: refuses an empty cart, otherwise moves to the address step. */
  function HandleCheckout(s: Session): (r: Session)
    ensures r.step == (if |s.cart.items| == 0 then s.step else AddressStep)
    ensures r.address == s.address && r.processing == s.processing &&
            r.pendingTimers == s.pendingTimers && r.cart == s.cart
  {
    if |s.cart.items| == 0 then s else s.(step := AddressStep)
  }

  function SetField(a: Address, f: AddressField, v: string): Address
  {
    match f
    case Street => a.(street := v)
    case City => a.(city := v)
    case Zip => a.(zip := v)
    case Country => a.(country := v)
  }

  /** `handleAddressSubmit`: moves to the payment step without inspecting the address. */
  function HandleAddressSubmit(s: Session): (r: Session)
    ensures r.step == PaymentStep
    ensures r.address == s.address && r.processing == s.processing &&
            r.pendingTimers == s.pendingTimers && r.cart == s.cart
  {
    s.(step := PaymentStep)
  }

  /** `handlePayment`: raise the flag and schedule the completion timer. The
      handler itself does not look at the flag, so a second call while one
      payment is in flight would leave two timers pending; only the
      disabled button prevents that. */
  function HandlePayment(s: Session): (r: Session)
    ensures r.processing && r.pendingTimers == s.pendingTimers + 1
    ensures r.step == s.step && r.address == s.address && r.cart == s.cart
    ensures OneInFlight(s) && !s.processing ==> OneInFlight(r)
    ensures OneInFlight(s) && s.processing ==> !OneInFlight(r)
  {
    s.(processing := true, pendingTimers := s.pendingTimers + 1)
  }

  /** The completion callback: lower the flag, show the confirmation, clear the cart. */
  function CompletePayment(s: Session): (r: Session)
    requires s.pendingTimers > 0
    ensures !r.processing && r.step == ConfirmationStep && r.cart == EmptyCart
    ensures r.pendingTimers == s.pendingTimers - 1 && r.address == s.address
    ensures OneInFlight(s) ==> OneInFlight(r)
  {
    s.(processing := false, step := ConfirmationStep,
       cart := Reduce(s.cart, ClearCart), pendingTimers := s.pendingTimers - 1)
  }

  /** The browser's constraint validation: a form whose inputs are all
      `required` is submitted only when none of them is empty. */
  predicate AllFilled(a: Address)
  {
    a.street != "" && a.city != "" && a.zip != "" && a.country != ""
  }

  /** Whether the page offers the event at all: the control is rendered on
      the current step, is not disabled, and (for the form) passes validation. */
  predicate Enabled(s: Session, e: Event)
  {
    match e
    case ProceedToCheckout => s.step == CartStep && |s.cart.items| > 0
    case EditAddress(_, _) => s.step == AddressStep
    case SubmitAddress => s.step == AddressStep && AllFilled(s.address)
    case BackToCart => s.step == AddressStep
    case BackToAddress => s.step == PaymentStep
    case Pay => s.step == PaymentStep && !s.processing
    case PaymentDelayElapsed => s.pendingTimers > 0
    case ContinueShopping => s.step == ConfirmationStep
    case CartChange(_) => true
  }

  /** One user or timer event; an event the page does not offer changes
      nothing. Each part of the page state has its own writers: only address
      edits on the address step touch the address, only cart actions and
      the completion touch the cart, and only an enabled pay button
      schedules a timer. */
  function StepOn(s: Session, e: Event): (r: Session)
    ensures !Enabled(s, e) ==> r == s
    ensures r.address != s.address ==> e.EditAddress? && s.step == AddressStep
    ensures r.cart != s.cart ==> e.CartChange? || (e.PaymentDelayElapsed? && r.cart == EmptyCart)
    ensures r.pendingTimers > s.pendingTimers ==>
              e.Pay? && s.step == PaymentStep && !s.processing && r.pendingTimers == s.pendingTimers + 1
    ensures r.processing && !s.processing ==> e.Pay?
  {
    if !Enabled(s, e) then s
    else match e
      case ProceedToCheckout => HandleCheckout(s)
      case EditAddress(f, v) => s.(address := SetField(s.address, f, v))
      case SubmitAddress => HandleAddressSubmit(s)
      case BackToCart => s.(step := CartStep)
      case BackToAddress => s.(step := AddressStep)
      case Pay => HandlePayment(s)
      case PaymentDelayElapsed => CompletePayment(s)
      case ContinueShopping => s.(step := CartStep)
      case CartChange(a) => s.(cart := Reduce(s.cart, a))
  }

  function Run(s: Session, events: seq<Event>): Session
    decreases events
  {
    if |events| == 0 then s else Run(StepOn(s, events[0]), events[1..])
  }

  /** One completion timer is pending exactly while the flag is raised. */
  predicate OneInFlight(s: Session)
  {
    s.pendingTimers == (if s.processing then 1 else 0)
  }

  /** The moves the step machine makes without the completion timer. */
  predicate UserEdge(from: Step, to: Step)
  {
    (from == CartStep && to == AddressStep) ||
    (from == AddressStep && to == PaymentStep) ||
    (from == AddressStep && to == CartStep) ||
    (from == PaymentStep && to == AddressStep) ||
    (from == ConfirmationStep && to == CartStep)
  }
}
