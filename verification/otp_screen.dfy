/**
 * The delivery-code screen (src/screens/OTPScreen.tsx): the courier types the customer's four-digit
 * code, which is validated before the order is marked Delivered.
 */
module OtpScreen {
  import opened Wrappers
  import opened Orders
  import opened Navigation
  import opened OtpKeypad

  /**
   * The answer of a status-service call (src/services/OrderStatusService.ts, which is not part of
   * this model): `success` and an optional `error` text, or a rejected promise.
   */
  datatype ServiceResult = Resolved(success: bool, error: Option<string>) | Rejected

  /** `error || fallback`: the error text when it is non-empty, else the fallback. */
  function ErrorOr(error: Option<string>, fallback: string): (s: string)
    ensures Truthy(error) ==> s == error.value
    ensures !Truthy(error) ==> s == fallback
    ensures fallback != "" ==> s != ""
  {
    if Truthy(error) then error.value else fallback
  }

  /** The requests one confirm makes of the status service. */
  datatype ValidateRequest = ValidateRequest(orderId: string, otp: string)
  datatype UpdateRequest = UpdateRequest(orderId: string, orderStatus: OrderStatus, deliveryTime: int)

  datatype ConfirmOutcome = ConfirmOutcome(
    validate: ValidateRequest,
    update: Option<UpdateRequest>,
    navigate: Option<Navigate>,
    alert: Option<string>
  )

  const UnexpectedError := "An unexpected error occurred"

  class OtpScreenState {
    const order: Order
    var otp: string
    var isLoading: bool

    constructor(order: Order)
      ensures this.order == order && otp == "" && !isLoading
    {
      this.order := order;
      otp := "";
      isLoading := false;
    }

    /** `handleNumberPress(num)` (lines 49-53). */
    method HandleNumberPress(num: string)
      modifies this`otp
      ensures otp == AppendDigit(old(otp), num)
      ensures |old(otp)| < CodeLength ==> otp == old(otp) + num
      ensures |old(otp)| >= CodeLength ==> otp == old(otp)
    {
      if |otp| < CodeLength {
        otp := otp + num;
      }
    }

    /** `handleBackspace()` (lines 55-57). */
    method HandleBackspace()
      modifies this`otp
      ensures otp == Backspace(old(otp))
    {
      if otp != [] {
        otp := otp[..|otp| - 1];
      }
    }

    /** A press on the keypad key at `row`, `col` (lines 83-114); keeps the buffer valid. */
    method PressKeypad(row: nat, col: nat)
      requires row < |Keypad| && col < |Keypad[row]|
      modifies this`otp
      ensures otp == PressKey(old(otp), Keypad[row][col])
      ensures Valid(old(otp)) ==> Valid(otp)
    {
      var key := Keypad[row][col];
      if Valid(otp) {
        PressKeyKeepsValid(otp, row, col);
      }
      if key == BackspaceKey {
        HandleBackspace();
      } else if key != "" {
        HandleNumberPress(key);
      }
    }

    /**
     * `handleConfirm()` (lines 21-47). The code is validated first; only a successful validation
     * leads to the update to Delivered, and only a successful update to the success screen.
     * `isLoading` is cleared on every path.
     */
    method HandleConfirm(validate: ServiceResult, update: ServiceResult, now: int) returns (r: ConfirmOutcome)
      modifies this`isLoading
      ensures !isLoading
      ensures r.validate == ValidateRequest(order.id, otp)
      ensures validate.Rejected? ==> r.update == None && r.navigate == None && r.alert == Some(UnexpectedError)
      ensures validate.Resolved? && !validate.success ==>
        r.update == None && r.navigate == None && r.alert == Some(ErrorOr(validate.error, "Invalid OTP"))
      ensures validate.Resolved? && validate.success ==>
        r.update == Some(UpdateRequest(order.id, Delivered, now))
      ensures validate.Resolved? && validate.success && update.Resolved? && update.success ==>
        r.alert == None && r.navigate == Some(WithOrder(OrderSuccess, order.(orderStatus := Delivered)))
      ensures validate.Resolved? && validate.success && update.Resolved? && !update.success ==>
        r.navigate == None && r.alert == Some(ErrorOr(update.error, "Failed to complete delivery"))
      ensures validate.Resolved? && validate.success && update.Rejected? ==>
        r.navigate == None && r.alert == Some(UnexpectedError)
      ensures r.navigate.Some? ==> r.update.Some? && r.navigate.value.order.value.orderStatus == Delivered
    {
      isLoading := true;
      var request := ValidateRequest(order.id, otp);
      match validate {
        case Rejected =>
          r := ConfirmOutcome(request, None, None, Some(UnexpectedError));
        case Resolved(success, error) =>
          if !success {
            r := ConfirmOutcome(request, None, None, Some(ErrorOr(error, "Invalid OTP")));
          } else {
            var updateRequest := Some(UpdateRequest(order.id, Delivered, now));
            match update {
              case Rejected =>
                r := ConfirmOutcome(request, updateRequest, None, Some(UnexpectedError));
              case Resolved(updated, updateError) =>
                if updated {
                  r := ConfirmOutcome(request, updateRequest,
                                      Some(WithOrder(OrderSuccess, order.(orderStatus := Delivered))), None);
                } else {
                  r := ConfirmOutcome(request, updateRequest, None,
                                      Some(ErrorOr(updateError, "Failed to complete delivery")));
                }
            }
          }
      }
      isLoading := false;
    }
  }
}
