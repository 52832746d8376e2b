/**
 * The checkout page: which step it shows, what the shipping and payment
 * submits do, and the place-order procedure that talks to the payment
 * gateway and saves the order.
 */
module CheckoutPage {
  import opened Wrappers
  import opened Tables
  import opened CheckoutTypes
  import opened CheckoutStore
  import CartStore
  import Pricing
  import OrderSummary
  import PaymentRouter
  import ShippingForm
  import PaymentForm

  /** What the page shows in its main column. */
  datatype Screen = EmptyCartScreen | ShippingScreen | PaymentScreen | ReviewScreen | NoStepScreen

  /**
   * An empty cart shows only the empty state; otherwise step 1 shows the
   * shipping form, step 2 the payment form, and step 3 the review with its
   * place-order button, but only when both infos are stored.
   */
  function Dispatch(cartLength: nat, step: int, hasShipping: bool, hasPayment: bool): (s: Screen)
    ensures s == EmptyCartScreen <==> cartLength == 0
    ensures s == ShippingScreen <==> cartLength > 0 && step == 1
    ensures s == PaymentScreen <==> cartLength > 0 && step == 2
    ensures s == ReviewScreen <==> cartLength > 0 && step == 3 && hasShipping && hasPayment
  {
    if cartLength == 0 then EmptyCartScreen
    else if step == 1 then ShippingScreen
    else if step == 2 then PaymentScreen
    else if step == 3 && hasShipping && hasPayment then ReviewScreen
    else NoStepScreen
  }

  /** Submitting both forms from a fresh checkout leads to the review. */
  lemma SubmitsReachReview(cartLength: nat)
    requires cartLength > 0
    ensures Dispatch(cartLength, NextStepOf(NextStepOf(1)), true, true) == ReviewScreen
    ensures Dispatch(cartLength, NextStepOf(1), true, false) == PaymentScreen
  {
  }

  /** The step-1 submit: store the shipping values, then advance. */
  method SubmitShipping(checkout: Checkout, values: ShippingInfo)
    modifies checkout`shippingInfo, checkout`currentStep
    ensures checkout.shippingInfo == Some(values)
    ensures checkout.currentStep == NextStepOf(old(checkout.currentStep))
  {
    checkout.SetShippingInfo(values);
    checkout.NextStep();
  }

  /** The step-2 submit: store the payment values, then advance. */
  method SubmitPayment(checkout: Checkout, values: PaymentInfo)
    modifies checkout`paymentInfo, checkout`currentStep
    ensures checkout.paymentInfo == Some(values)
    ensures checkout.currentStep == NextStepOf(old(checkout.currentStep))
  {
    checkout.SetPaymentInfo(values);
    checkout.NextStep();
  }

  /** What the gateway answers when asked to open a payment intent. */
  datatype IntentOutcome = IntentFailed(message: string) | IntentCreated(clientSecret: Option<string>)

  /** What the gateway answers when asked to confirm the card. */
  datatype ConfirmOutcome = ConfirmFailed(message: string) | ConfirmSucceeded(paymentIntentId: string)

  /**
   * The world outside the page: whether the gateway's objects are loaded,
   * its two answers, and whether the save request reaches the server.
   */
  datatype Gateway = Gateway(ready: bool, intent: IntentOutcome, confirm: ConfirmOutcome, saveDelivered: bool)

  /** What the procedure does that can be observed, in order. */
  datatype Event =
    | ProcessingSet(on: bool)
    | IntentRequested(amount: int)
    | ConfirmRequested(clientSecret: string)
    | SaveRequested(total: int)
    | ErrorShown(message: string)
    | SuccessShown

  datatype Outcome = Placed(purchaseId: int) | Failed(message: string)

  const GatewayUnavailable := "Something went wrong! We cannot process your payment now."

  /**
   * Placeholders for the caught error's message, which the page shows as it
   * is: a request that never reached the server, and the input schema's
   * rejection of a null info. Neither text is produced by the storefront itself.
   */
  const SaveUndelivered := "<network error message>"
  const InvalidInput := "<input validation error message>"

  /** The cart lines as sent to the save request; the other cart fields are stripped by its schema. */
  function OrderItemsOf(items: seq<CartStore.CartItem>): (r: seq<PaymentRouter.OrderItem>)
    ensures |r| == |items|
    ensures forall i :: 0 <= i < |items| ==>
      r[i] == PaymentRouter.OrderItem(items[i].id, items[i].name, items[i].price, items[i].size, items[i].color, items[i].quantity)
  {
    seq(|items|, i requires 0 <= i < |items| =>
      PaymentRouter.OrderItem(items[i].id, items[i].name, items[i].price, items[i].size, items[i].color, items[i].quantity))
  }

  predicate Requested(trace: seq<Event>) {
    exists i :: 0 <= i < |trace| && trace[i].IntentRequested?
  }

  predicate Confirming(trace: seq<Event>) {
    exists i :: 0 <= i < |trace| && trace[i].ConfirmRequested?
  }

  predicate Saving(trace: seq<Event>) {
    exists i :: 0 <= i < |trace| && trace[i].SaveRequested?
  }

  /**
   * `handlePlaceOrder`: raises the processing flag; aborts when the gateway
   * is not loaded; asks for an intent for the order total; aborts without a
   * client secret; confirms the card; aborts on a confirmation error; then
   * saves the order. Every abort shows its message, success shows a notice,
   * and the processing flag is lowered at the end on every path.
   */
  method PlaceOrder(checkout: Checkout, cart: CartStore.Cart, db: Database, userId: int,
                    gateway: Gateway, isEmail: string -> bool)
    returns (outcome: Outcome, trace: seq<Event>)
    requires db.Valid()
    modifies checkout`isProcessing, db
    ensures db.Valid()
    ensures !checkout.isProcessing
    ensures |trace| >= 3 && trace[0] == ProcessingSet(true) && trace[|trace| - 1] == ProcessingSet(false)
    ensures forall i :: 0 < i < |trace| - 1 ==> !trace[i].ProcessingSet?
    ensures Requested(trace) <==> gateway.ready
    ensures forall i :: 0 <= i < |trace| && trace[i].IntentRequested? ==>
      trace[i].amount == OrderSummary.SummaryTotal(cart.items, checkout.shippingMethod)
    ensures Confirming(trace) <==>
      gateway.ready && gateway.intent.IntentCreated? && Filled(gateway.intent.clientSecret)
    ensures Saving(trace) <==>
      && gateway.ready && gateway.intent.IntentCreated? && Filled(gateway.intent.clientSecret)
      && gateway.confirm.ConfirmSucceeded?
    ensures outcome.Placed? <==>
      && Saving(trace) && gateway.saveDelivered
      && checkout.shippingInfo.Some? && checkout.paymentInfo.Some?
      && ShippingForm.ShippingValid(checkout.shippingInfo.value, isEmail)
      && PaymentForm.PaymentValid(checkout.paymentInfo.value)
    ensures outcome.Placed? ==>
      && PaymentForm.RefineOk(checkout.paymentInfo.value)
      && outcome.purchaseId == old(db.nextId)
      && db.purchases == old(db.purchases) + [PaymentRouter.OrderRecord(outcome.purchaseId, userId,
           PaymentRouter.OrderInput(OrderItemsOf(cart.items), checkout.shippingInfo.value, checkout.paymentInfo.value,
                                    checkout.shippingMethod, OrderSummary.SummaryTotal(cart.items, checkout.shippingMethod),
                                    gateway.confirm.paymentIntentId))]
    ensures outcome.Failed? ==> db.purchases == old(db.purchases)
    ensures trace[|trace| - 2] == if outcome.Placed? then SuccessShown else ErrorShown(outcome.message)
    ensures !gateway.ready ==> outcome == Failed(GatewayUnavailable) && |trace| == 3
    ensures gateway.ready && gateway.intent.IntentFailed? ==> outcome == Failed(gateway.intent.message)
    ensures gateway.ready && gateway.intent.IntentCreated? && !Filled(gateway.intent.clientSecret) ==>
      outcome == Failed(GatewayUnavailable)
    ensures Confirming(trace) && gateway.confirm.ConfirmFailed? ==> outcome == Failed(gateway.confirm.message)
    ensures Saving(trace) && !gateway.saveDelivered ==> outcome == Failed(SaveUndelivered)
    ensures Saving(trace) && gateway.saveDelivered && (checkout.shippingInfo.None? || checkout.paymentInfo.None?) ==>
      outcome == Failed(InvalidInput)
    ensures db.products == old(db.products) && db.reviews == old(db.reviews) && db.users == old(db.users)
  {
    checkout.SetProcessing(true);
    trace := [ProcessingSet(true)];
    var total := OrderSummary.SummaryTotal(cart.items, checkout.shippingMethod);
    if !gateway.ready {
      outcome := Failed(GatewayUnavailable);
    } else {
      var request := PaymentRouter.CreatePaymentIntent(Pricing.Dollars(total));
      PaymentRouter.IntentChargesCents(total);
      trace := trace + [IntentRequested(request.amount)];
      if gateway.intent.IntentFailed? {
        outcome := Failed(gateway.intent.message);
      } else if !Filled(gateway.intent.clientSecret) {
        outcome := Failed(GatewayUnavailable);
      } else {
        trace := trace + [ConfirmRequested(gateway.intent.clientSecret.value)];
        if gateway.confirm.ConfirmFailed? {
          outcome := Failed(gateway.confirm.message);
        } else {
          trace := trace + [SaveRequested(total)];
          if !gateway.saveDelivered {
            // Stands for the message of whatever error the failed request throws.
            outcome := Failed(SaveUndelivered);
          } else if checkout.shippingInfo.None? || checkout.paymentInfo.None? {
            // Stands for the schema error the server returns for a null info.
            outcome := Failed(InvalidInput);
          } else {
            var input := PaymentRouter.OrderInput(OrderItemsOf(cart.items), checkout.shippingInfo.value,
                                                  checkout.paymentInfo.value, checkout.shippingMethod, total,
                                                  gateway.confirm.paymentIntentId);
            var saved := PaymentRouter.AccomplishPayment(db, userId, input, isEmail);
            outcome := if saved.Success? then Placed(saved.value) else Failed(saved.error);
          }
        }
      }
    }
    trace := trace + [if outcome.Placed? then SuccessShown else ErrorShown(outcome.message)];
    checkout.SetProcessing(false);
    trace := trace + [ProcessingSet(false)];
    if gateway.ready {
      assert trace[1].IntentRequested?;
    }
    if gateway.ready && gateway.intent.IntentCreated? && Filled(gateway.intent.clientSecret) {
      assert trace[2].ConfirmRequested?;
      if gateway.confirm.ConfirmSucceeded? {
        assert trace[3].SaveRequested?;
      }
    }
  }
}
