/**
 * The login-code screen (src/screens/OTPLogin.tsx): on arrival the code is e-mailed to the address
 * passed by the sign-in screen, and confirm checks the typed code against it.
 */
module OtpLogin {
  import opened Wrappers
  import opened Navigation
  import opened OtpKeypad

  /** The body of the code check: the contact address and the typed code. */
  datatype VerifyRequest = VerifyRequest(contact: string, code: string)

  datatype MountOutcome = MountOutcome(sendTo: Option<string>, alert: Option<string>)
  datatype ConfirmOutcome = ConfirmOutcome(request: VerifyRequest, navigate: Option<Navigate>, alert: Option<string>)

  class OtpLoginState {
    var otp: string
    var userEmail: string

    constructor()
      ensures otp == "" && userEmail == ""
    {
      otp := "";
      userEmail := "";
    }

    /**
     * The mount effect (lines 21-28) with `sendOTPEmail` (lines 126-148): only a present, non-empty
     * route e-mail is stored and sent to; a failed or non-ok send shows an alert.
     */
    method Mount(routeEmail: Option<string>, sendResponse: Fetch<()>) returns (r: MountOutcome)
      modifies this`userEmail
      ensures Truthy(routeEmail) ==> userEmail == routeEmail.value && r.sendTo == Some(routeEmail.value)
      ensures Truthy(routeEmail) ==>
        r.alert == if sendResponse.Answered? && sendResponse.ok then None else Some("Failed to send OTP email")
      ensures !Truthy(routeEmail) ==> userEmail == old(userEmail) && r == MountOutcome(None, None)
    {
      if Truthy(routeEmail) {
        userEmail := routeEmail.value;
        var alert := if sendResponse.Answered? && sendResponse.ok then None else Some("Failed to send OTP email");
        r := MountOutcome(Some(routeEmail.value), alert);
      } else {
        r := MountOutcome(None, None);
      }
    }

    /** `handleNumberPress(num)` (lines 29-33). */
    method HandleNumberPress(num: string)
      modifies this`otp
      ensures otp == AppendDigit(old(otp), num)
      ensures |old(otp)| < CodeLength ==> otp == old(otp) + num
      ensures |old(otp)| >= CodeLength ==> otp == old(otp)
    {
      if |otp| < CodeLength {
        otp := otp + num;
      }
    }

    /** `handleBackspace()` (lines 35-37). */
    method HandleBackspace()
      modifies this`otp
      ensures otp == Backspace(old(otp))
    {
      if otp != [] {
        otp := otp[..|otp| - 1];
      }
    }

    /** A press on the keypad key at `row`, `col` (lines 63-94); keeps the buffer valid. */
    method PressKeypad(row: nat, col: nat)
      requires row < |Keypad| && col < |Keypad[row]|
      modifies this`otp
      ensures otp == PressKey(old(otp), Keypad[row][col])
      ensures Valid(old(otp)) ==> Valid(otp)
    {
      var key := Keypad[row][col];
      if Valid(otp) {
        PressKeyKeepsValid(otp, row, col);
      }
      if key == BackspaceKey {
        HandleBackspace();
      } else if key != "" {
        HandleNumberPress(key);
      }
    }

    /**
     * `handleConfirm()` (lines 96-123): the stored address and the typed code are sent; only an ok
     * answer opens the main tabs.
     */
    method HandleConfirm(response: Fetch<()>) returns (r: ConfirmOutcome)
      ensures r.request == VerifyRequest(userEmail, otp)
      ensures r.navigate.Some? <==> response.Answered? && response.ok
      ensures r.navigate.Some? ==> r.navigate.value.screen == MainTabs && r.alert == None
      ensures response.Answered? && !response.ok ==> r.alert == Some("Invalid OTP code")
      ensures response.Failed? ==> r.alert == Some("Failed to verify OTP")
    {
      var request := VerifyRequest(userEmail, otp);
      match response {
        case Failed(_) =>
          r := ConfirmOutcome(request, None, Some("Failed to verify OTP"));
        case Answered(ok, _) =>
          if ok {
            r := ConfirmOutcome(request, Some(Navigate(MainTabs, None, None, None)), None);
          } else {
            r := ConfirmOutcome(request, None, Some("Invalid OTP code"));
          }
      }
    }
  }
}
