/** The UPI payment page: a three-step wizard (enter a UPI id, enter an
  * amount, confirm) whose "Next" validates the current step before moving
  * on, whose "Back" steps back, and whose success view offers a reset.
  * Whether a string is a positive number (`!isNaN(s) && parseFloat(s) > 0`)
  * is left abstract: it is the `isPositiveNumber` the page is created with. */
module UpiStepper {

  const Steps: seq<string> := ["Enter UPI ID", "Verify", "Complete Payment"]

  /** `steps.length - 1`, the confirmation step. */
  const LastStep: nat := |Steps| - 1

  const MockUpiIds: seq<string> := ["user@upi", "test@upi", "demo@upi"]

  const EmptyUpiIdError := "Please enter a UPI ID"
  const UnknownUpiIdError := "Invalid UPI ID. Try: user@upi, test@upi, or demo@upi"
  const InvalidAmountError := "Please enter a valid amount"

  class UpiPayment {
    const isPositiveNumber: string -> bool
    var activeStep: nat
    var upiId: string
    var amount: string
    var error: string
    var success: bool

    /** `!(!amount || isNaN(amount) || parseFloat(amount) <= 0)`. */
    predicate ValidAmount(s: string)
    {
      s != "" && isPositiveNumber(s)
    }

    /** Every step past the first was entered with a known UPI id, the last
      * one with a valid amount; success is only shown from the last step. */
    ghost predicate Valid()
      reads this
    {
      && activeStep <= LastStep
      && (activeStep >= 1 ==> upiId in MockUpiIds)
      && (activeStep >= 2 ==> ValidAmount(amount))
      && (activeStep == LastStep ==> error == "")
      && (success ==> activeStep == LastStep)
    }

    /** The state the page mounts with. */
    ghost predicate Initial()
      reads this
    {
      activeStep == 0 && upiId == "" && amount == "" && error == "" && !success
    }

    constructor (isPositiveNumber: string -> bool)
      ensures this.isPositiveNumber == isPositiveNumber
      ensures Initial() && Valid()
    {
      this.isPositiveNumber := isPositiveNumber;
      activeStep, upiId, amount, error, success := 0, "", "", "", false;
    }

    /** Typing in the UPI id field, which is shown on the first step only. */
    method SetUpiId(value: string)
      requires Valid() && !success && activeStep == 0
      modifies this
      ensures Valid()
      ensures upiId == value
      ensures activeStep == old(activeStep) && amount == old(amount)
      ensures error == old(error) && success == old(success)
    {
      upiId := value;
    }

    /** Typing in the amount field, which is shown on the second step only. */
    method SetAmount(value: string)
      requires Valid() && !success && activeStep == 1
      modifies this
      ensures Valid()
      ensures amount == value
      ensures activeStep == old(activeStep) && upiId == old(upiId)
      ensures error == old(error) && success == old(success)
    {
      amount := value;
    }

    /** `handleNext`: the "Next" / "Pay Now" button of the wizard. */
    method HandleNext()
      requires Valid() && !success
      modifies this
      ensures Valid()
      ensures upiId == old(upiId) && amount == old(amount)
      ensures old(activeStep) == 0 ==>
        if old(upiId) == "" then activeStep == 0 && error == EmptyUpiIdError && !success
        else if old(upiId) !in MockUpiIds then activeStep == 0 && error == UnknownUpiIdError && !success
        else activeStep == 1 && error == "" && !success
      ensures old(activeStep) == 1 ==>
        if !ValidAmount(old(amount)) then activeStep == 1 && error == InvalidAmountError && !success
        else activeStep == 2 && error == "" && !success
      ensures old(activeStep) == LastStep ==>
        activeStep == LastStep && error == old(error) && success
      ensures success ==> upiId in MockUpiIds && ValidAmount(amount)
    {
      if activeStep == 0 {
        if upiId == "" {
          error := EmptyUpiIdError;
          return;
        }
        if upiId !in MockUpiIds {
          error := UnknownUpiIdError;
          return;
        }
        error := "";
      }
      if activeStep == 1 {
        if !ValidAmount(amount) {
          error := InvalidAmountError;
          return;
        }
        error := "";
      }
      if activeStep == LastStep {
        success := true;
        return;
      }
      activeStep := activeStep + 1;
    }

    /** `handleBack`: the "Back" button, disabled on the first step. */
    method HandleBack()
      requires Valid() && !success && activeStep > 0
      modifies this
      ensures Valid()
      ensures activeStep == old(activeStep) - 1 && error == ""
      ensures upiId == old(upiId) && amount == old(amount) && !success
    {
      activeStep := activeStep - 1;
      error := "";
    }

    /** The "Make Another Payment" button of the success view. */
    method MakeAnotherPayment()
      requires Valid() && success
      modifies this
      ensures Valid() && Initial()
    {
      success := false;
      activeStep := 0;
      upiId := "";
      amount := "";
    }
  }
}
