/**
 * The four-digit code entry shared by the delivery-code screen (src/screens/OTPScreen.tsx) and the
 * login-code screen (src/screens/OTPLogin.tsx): the keypad, the bounded append, backspace, the
 * digit slots and the confirm button's enablement.
 */
module OtpKeypad {

  /** The number of code digits. */
  const CodeLength := 4

  /** The backspace key's label. */
  const BackspaceKey := "\U{2190}"

  /** The keypad rows, the blank key at the bottom left. */
  const Keypad: seq<seq<string>> := [
    ["1", "2", "3"],
    ["4", "5", "6"],
    ["7", "8", "9"],
    ["", "0", BackspaceKey]
  ]

  predicate IsDigitChar(c: char) { '0' <= c <= '9' }

  /** A one-character decimal digit string. */
  predicate IsDigitKey(num: string) { |num| == 1 && IsDigitChar(num[0]) }

  /** What pressing a key does: the blank key is disabled, the arrow erases, any other key appends its label. */
  datatype KeyAction = Disabled | Erase | Append(num: string)

  function ActionOf(key: string): (a: KeyAction)
    ensures a == Disabled <==> key == ""
    ensures a == Erase <==> key == BackspaceKey
    ensures a.Append? ==> a.num == key && key != "" && key != BackspaceKey
  {
    if key == BackspaceKey then Erase
    else if key == "" then Disabled
    else Append(key)
  }

  /** Every key that appends carries a single digit; the only other keys are the blank and the arrow. */
  lemma KeypadKeys(row: nat, col: nat)
    requires row < |Keypad| && col < |Keypad[row]|
    ensures ActionOf(Keypad[row][col]).Append? ==> IsDigitKey(Keypad[row][col])
    ensures Keypad[row][col] == "" || Keypad[row][col] == BackspaceKey || IsDigitKey(Keypad[row][col])
    ensures Keypad[row][col] == "" <==> row == 3 && col == 0
    ensures Keypad[row][col] == BackspaceKey <==> row == 3 && col == 2
  {
  }

  /** A buffer the keypad can produce: at most four characters, every one a digit. */
  predicate Valid(otp: string)
  {
    |otp| <= CodeLength && forall i :: 0 <= i < |otp| ==> IsDigitChar(otp[i])
  }

  /** `handleNumberPress(num)`: appends `num` while fewer than four characters are entered. */
  function AppendDigit(otp: string, num: string): (r: string)
    ensures |otp| < CodeLength ==> r == otp + num
    ensures |otp| >= CodeLength ==> r == otp
  {
    if |otp| < CodeLength then otp + num else otp
  }

  /** `handleBackspace()`: `slice(0, -1)` drops the last character and leaves an empty buffer empty. */
  function Backspace(otp: string): (r: string)
    ensures otp == [] ==> r == []
    ensures otp != [] ==> r + [otp[|otp| - 1]] == otp
  {
    if otp == [] then [] else otp[..|otp| - 1]
  }

  /**
   * The buffer after pressing the key labelled `key`: the blank key changes nothing, a full
   * buffer ignores every key but backspace, and backspace removes exactly one character.
   */
  function PressKey(otp: string, key: string): (r: string)
    ensures ActionOf(key).Disabled? ==> r == otp
    ensures |otp| >= CodeLength && !ActionOf(key).Erase? ==> r == otp
    ensures ActionOf(key).Erase? ==> |r| == if otp == [] then 0 else |otp| - 1
  {
    match ActionOf(key)
    case Disabled => otp
    case Erase => Backspace(otp)
    case Append(num) => AppendDigit(otp, num)
  }

  /** Keypad presses keep the buffer valid: never longer than four, digits only. */
  lemma PressKeyKeepsValid(otp: string, row: nat, col: nat)
    requires Valid(otp)
    requires row < |Keypad| && col < |Keypad[row]|
    ensures Valid(PressKey(otp, Keypad[row][col]))
  {
    KeypadKeys(row, col);
  }

  /** Backspace undoes a digit appended to a buffer that was not full. */
  lemma BackspaceUndoesAppend(otp: string, num: string)
    requires |otp| < CodeLength && IsDigitKey(num)
    ensures Backspace(AppendDigit(otp, num)) == otp
  {
    assert (otp + num)[..|otp|] == otp;
  }

  /** A full buffer ignores further digits. */
  lemma FullIgnoresDigits(otp: string, num: string)
    requires |otp| == CodeLength
    ensures AppendDigit(otp, num) == otp
  {
  }

  /** Slot `i` shows a digit when the buffer has an `i`-th character. */
  predicate SlotFilled(otp: string, i: nat) { i < |otp| }

  /** The highlighted slot is the one the next digit goes into. */
  predicate SlotActive(otp: string, i: nat) { i == |otp| }

  /** The text shown in slot `i`: its digit, or nothing. */
  function SlotText(otp: string, i: nat): (s: string)
    ensures SlotFilled(otp, i) <==> s != ""
    ensures SlotFilled(otp, i) ==> s == [otp[i]]
  {
    if i < |otp| then [otp[i]] else ""
  }

  /** The four slots spell the buffer; one slot is highlighted exactly while the buffer is not full. */
  lemma SlotsShowBuffer(otp: string)
    requires Valid(otp)
    ensures SlotText(otp, 0) + SlotText(otp, 1) + SlotText(otp, 2) + SlotText(otp, 3) == otp
    ensures (exists i: nat :: i < CodeLength && SlotActive(otp, i)) <==> |otp| < CodeLength
  {
    if |otp| < CodeLength {
      assert SlotActive(otp, |otp|);
    }
    if |otp| == 0 {
    } else if |otp| == 1 {
      assert otp == [otp[0]];
    } else if |otp| == 2 {
      assert otp == [otp[0]] + [otp[1]];
    } else if |otp| == 3 {
      assert otp == [otp[0]] + [otp[1]] + [otp[2]];
    } else {
      assert otp == [otp[0]] + [otp[1]] + [otp[2]] + [otp[3]];
    }
  }

  /**
   * The confirm button is enabled exactly when four characters are entered; for a valid buffer
   * that is exactly when the keypad stops accepting digits.
   */
  predicate ConfirmEnabled(otp: string)
    ensures Valid(otp) ==> (ConfirmEnabled(otp) <==> AppendDigit(otp, "0") == otp)
  {
    |otp| == CodeLength
  }

  /** Four keypad digits from empty enable confirm; from then on digits change nothing. */
  lemma FourDigitsEnableConfirm(a: string, b: string, c: string, d: string)
    requires IsDigitKey(a) && IsDigitKey(b) && IsDigitKey(c) && IsDigitKey(d)
    ensures var otp := AppendDigit(AppendDigit(AppendDigit(AppendDigit("", a), b), c), d);
      ConfirmEnabled(otp) && Valid(otp) && otp == a + b + c + d
  {
  }
}
