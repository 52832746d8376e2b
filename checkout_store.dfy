/** The checkout wizard's state: the step (1 shipping, 2 payment, 3 review), the captured infos, the method, the processing flag. */
module CheckoutStore {
  import opened Wrappers
  import opened CheckoutTypes

  /** `Math.min(3, step + 1)`. */
  function NextStepOf(step: int): (r: int)
    ensures r <= 3
    ensures r == 3 <==> step >= 2
    ensures step < 2 ==> r == step + 1
  {
    if step + 1 < 3 then step + 1 else 3
  }

  /** `Math.max(1, step - 1)`. */
  function PrevStepOf(step: int): (r: int)
    ensures r >= 1
    ensures r == 1 <==> step <= 2
    ensures step > 2 ==> r == step - 1
  {
    if step - 1 > 1 then step - 1 else 1
  }

  /** Both moves keep a step that is in 1..3 in 1..3. */
  lemma StepsStayInRange(step: int)
    requires 1 <= step <= 3
    ensures 1 <= NextStepOf(step) <= 3
    ensures 1 <= PrevStepOf(step) <= 3
  {
  }

  /** Going back undoes going forward below the last step, and going forward undoes going back above the first. */
  lemma StepsUndo(step: int)
    ensures 1 <= step < 3 ==> PrevStepOf(NextStepOf(step)) == step
    ensures 1 < step <= 3 ==> NextStepOf(PrevStepOf(step)) == step
  {
  }

  class Checkout {
    var currentStep: int
    var isProcessing: bool
    var shippingInfo: Option<ShippingInfo>
    var paymentInfo: Option<PaymentInfo>
    var shippingMethod: string

    constructor ()
      ensures currentStep == 1 && !isProcessing
      ensures shippingInfo == None && paymentInfo == None && shippingMethod == "standard"
    {
      currentStep := 1;
      isProcessing := false;
      shippingInfo := None;
      paymentInfo := None;
      shippingMethod := "standard";
    }

    method NextStep()
      modifies this`currentStep
      ensures currentStep == NextStepOf(old(currentStep))
      ensures 1 <= old(currentStep) <= 3 ==> 1 <= currentStep <= 3
    {
      currentStep := if 3 < currentStep + 1 then 3 else currentStep + 1;
    }

    method PrevStep()
      modifies this`currentStep
      ensures currentStep == PrevStepOf(old(currentStep))
      ensures 1 <= old(currentStep) <= 3 ==> 1 <= currentStep <= 3
    {
      currentStep := if 1 > currentStep - 1 then 1 else currentStep - 1;
    }

    /** Assigns any number, in range or not. */
    method SetStep(step: int)
      modifies this`currentStep
      ensures currentStep == step
    {
      currentStep := step;
    }

    method SetProcessing(processing: bool)
      modifies this`isProcessing
      ensures isProcessing == processing
    {
      isProcessing := processing;
    }

    method SetShippingInfo(info: ShippingInfo)
      modifies this`shippingInfo
      ensures shippingInfo == Some(info)
    {
      shippingInfo := Some(info);
    }

    method SetPaymentInfo(info: PaymentInfo)
      modifies this`paymentInfo
      ensures paymentInfo == Some(info)
    {
      paymentInfo := Some(info);
    }

    method SetShippingMethod(shippingMethod: string)
      modifies this`shippingMethod
      ensures this.shippingMethod == shippingMethod
    {
      this.shippingMethod := shippingMethod;
    }

    /** The review step's render guard: with either info missing it steps back. */
    method GuardReview()
      modifies this`currentStep
      ensures currentStep == if shippingInfo.None? || paymentInfo.None? then PrevStepOf(old(currentStep)) else old(currentStep)
    {
      if shippingInfo.None? || paymentInfo.None? {
        PrevStep();
      }
    }
  }
}
