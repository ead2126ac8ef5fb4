/** The checkout page: shipping and the final total, the entry guards, and
    the two-step flow (address and method, then card details) that ends by
    emptying the cart. */
module Checkout {
  import opened Seqs
  import CartStore

  const FreeShippingFrom := 999
  const ShippingFee := 99

  /** `shippingCost`: free from 999 on, 99 below. */
  function ShippingCost(total: int): (r: int)
    ensures r == 0 <==> total >= FreeShippingFrom
    ensures r == 0 || r == ShippingFee
  {
    if total >= FreeShippingFrom then 0 else ShippingFee
  }

  /** `finalTotal`: the cart total plus shipping. */
  function FinalTotal(total: int): (r: int)
    ensures r == total <==> total >= FreeShippingFrom
    ensures total < FreeShippingFrom ==> r == total + ShippingFee
    ensures total <= r <= total + ShippingFee
  {
    total + ShippingCost(total)
  }

  /** The threshold is inclusive: 998 pays 1097 while 999 pays 999. */
  lemma FreeShippingBoundary()
    ensures FinalTotal(998) == 1097 && FinalTotal(999) == 999
  {
  }

  /** Where the page sends a visitor before showing the form. */
  datatype Gate = ToLogin | ToCart | Proceed

  /** The user check comes first, then the empty-cart check. */
  function EntryGate(signedIn: bool, lineCount: nat): (g: Gate)
    ensures g == ToLogin <==> !signedIn
    ensures g == ToCart <==> signedIn && lineCount == 0
    ensures g == Proceed <==> signedIn && lineCount > 0
  {
    if !signedIn then ToLogin else if lineCount == 0 then ToCart else Proceed
  }

  function GateTarget(g: Gate): Option<string> {
    match g
    case ToLogin => Some("/login?redirect=/checkout")
    case ToCart => Some("/cart")
    case Proceed => None
  }

  /** The payment methods the first form offers. */
  datatype PaymentMethod = Card | Upi | Cod

  class Flow {
    var currentStep: int
    var showPaymentForm: bool
    var isProcessing: bool

    /** Step 1 or 2, and the card form shows exactly at step 2. */
    ghost predicate Valid()
      reads this
    {
      (currentStep == 1 || currentStep == 2) && (showPaymentForm <==> currentStep == 2)
    }

    constructor ()
      ensures Valid() && currentStep == 1 && !showPaymentForm && !isProcessing
    {
      currentStep := 1;
      showPaymentForm := false;
      isProcessing := false;
    }

    /** `onSubmit` of the step-1 form, which is shown only at step 1: card
        goes on to step 2, the other methods start the payment at once. The
        button is disabled while processing. */
    method Submit(m: PaymentMethod)
      requires Valid()
      modifies this
      ensures Valid()
      ensures old(isProcessing) || old(currentStep) != 1 ==> unchanged(this)
      ensures !old(isProcessing) && old(currentStep) == 1 && m == Card ==>
        currentStep == 2 && showPaymentForm && !isProcessing
      ensures !old(isProcessing) && old(currentStep) == 1 && m != Card ==>
        isProcessing && currentStep == 1 && !showPaymentForm
    {
      if isProcessing || currentStep != 1 {
        return;
      }
      if m == Card {
        showPaymentForm := true;
        currentStep := 2;
      } else {
        StartPayment();
      }
    }

    /** `onPaymentSubmit` of the card form, shown only at step 2. */
    method PaymentSubmit()
      requires Valid()
      modifies this
      ensures Valid()
      ensures old(isProcessing) || old(currentStep) != 2 ==> unchanged(this)
      ensures !old(isProcessing) && old(currentStep) == 2 ==>
        isProcessing && currentStep == 2 && showPaymentForm
    {
      if isProcessing || currentStep != 2 {
        return;
      }
      StartPayment();
    }

    /** `processPayment`, up to the timer it sets. */
    method StartPayment()
      modifies this`isProcessing
      ensures isProcessing
    {
      isProcessing := true;
    }

    /** The Back button of step 2: return to step 1 and hide the card form. */
    method Back()
      requires Valid()
      modifies this
      ensures Valid()
      ensures old(isProcessing) ==> unchanged(this)
      ensures !old(isProcessing) ==> currentStep == 1 && !showPaymentForm && !isProcessing
    {
      if isProcessing {
        return;
      }
      currentStep := 1;
      showPaymentForm := false;
    }

    /** The payment timer firing: payment always succeeds, the cart is
        emptied, and the page goes home. */
    method FinishPayment(cart: CartStore.Cart) returns (target: string)
      requires Valid() && isProcessing && cart.Valid()
      modifies this, cart
      ensures Valid() && !isProcessing
      ensures currentStep == old(currentStep) && showPaymentForm == old(showPaymentForm)
      ensures cart.Valid() && cart.items == [] && cart.user == old(cart.user)
      ensures cart.storage == CartStore.Persisted(old(cart.storage), cart.user, [])
      ensures target == "/"
    {
      isProcessing := false;
      cart.ClearCart();
      target := "/";
    }
  }
}
