/**
 * The order card (src/components/OrderCard.tsx): badge colours, address truncation, the
 * zero-padded order number, the distance rule, and what the card and its button do on press.
 */
module OrderCard {
  import opened Wrappers
  import opened Orders
  import opened Navigation
  import OrdersScreen

  /** A badge's background and text colour. */
  datatype Colors = Colors(background: string, text: string)

  /** `STATUS_COLORS` (lines 20-53), keyed by the status names. */
  const StatusColorTable: map<string, Colors> := map[
    "ReadyForPickup" := Colors("#DEE9FF", "#4A6FA5"),
    "Assigned" := Colors("#FFFCAD", "#8B8654"),
    "Pickup" := Colors("#EDEDED", "#666666"),
    "OnTheWay" := Colors("#FFD9AD", "#A67B4D"),
    "Delivered" := Colors("#D2FFAD", "#5C8C3E"),
    "Cancelled" := Colors("#FFBDAD", "#A65D45"),
    "DeliveryFailed" := Colors("#000000", "#FFFFFF"),
    "Completed" := Colors("#D2FFAD", "#5C8C3E")
  ]

  /** The ReadyForPickup entry, used as the fallback. */
  const DefaultColors: Colors := Colors("#DEE9FF", "#4A6FA5")

  /**
   * `getStatusColors(status)` (lines 55-60): the table entry of a status that is a key of the
   * table, otherwise the ReadyForPickup entry.
   */
  function StatusColors(s: OrderStatus): (c: Colors)
    ensures Declared(s) ==> Text(s).value in StatusColorTable && c == StatusColorTable[Text(s).value]
    ensures !Declared(s) ==> c == DefaultColors
    ensures c in StatusColorTable.Values
  {
    var t := Text(s);
    assert StatusColorTable["ReadyForPickup"] == DefaultColors;
    if !Truthy(t) || t.value !in StatusColorTable then StatusColorTable["ReadyForPickup"]
    else StatusColorTable[t.value]
  }

  /** Delivered and Completed badges look the same. */
  lemma DeliveredLooksCompleted()
    ensures StatusColors(Delivered) == StatusColors(Completed)
  {
  }

  /** The badge text: the status string, or 'ReadyForPickup' when it is missing or empty (line 169). */
  function BadgeText(s: OrderStatus): (r: string)
    ensures Declared(s) ==> r == Text(s).value
    ensures s.Undefined? ==> r == "ReadyForPickup"
    ensures s.Unrecognized? ==> r == if s.raw != "" then s.raw else "ReadyForPickup"
    ensures r != ""
  {
    if Truthy(Text(s)) then Text(s).value else "ReadyForPickup"
  }

  /** A badge that falls back to the default text also falls back to the default colours. */
  lemma BadgeFallbackAgrees(s: OrderStatus)
    ensures BadgeText(s) == "ReadyForPickup" ==> StatusColors(s) == DefaultColors
  {
  }

  /** A separator at which `split(/[\n,]/)` cuts. */
  predicate IsSeparator(c: char)
  {
    c == ',' || c == '\n'
  }

  /** `address.split(/[\n,]/)[0]`: the text before the first comma or newline. */
  function FirstLine(address: string): (r: string)
    ensures r <= address
    ensures forall i :: 0 <= i < |r| ==> !IsSeparator(r[i])
    ensures |r| < |address| ==> IsSeparator(address[|r|])
  {
    if address == [] then []
    else if IsSeparator(address[0]) then []
    else [address[0]] + FirstLine(address[1..])
  }

  /** A text without separators is its own first line. */
  lemma {:induction false} FirstLineOfLine(s: string)
    requires forall i :: 0 <= i < |s| ==> !IsSeparator(s[i])
    ensures FirstLine(s) == s
  {
    if s != [] {
      FirstLineOfLine(s[1..]);
    }
  }

  /** `truncateAddress(address)` (lines 63-68). */
  function TruncateAddress(address: string): (r: string)
    ensures |FirstLine(address)| <= 30 ==> r == FirstLine(address)
    ensures |FirstLine(address)| > 30 ==> r == FirstLine(address)[..30] + "..."
    ensures |r| <= 33
    ensures forall i :: 0 <= i < |r| ==> !IsSeparator(r[i])
  {
    var line := FirstLine(address);
    if |line| > 30 then line[..30] + "..." else line
  }

  /** Truncating an already truncated address changes nothing. */
  lemma TruncateIdempotent(address: string)
    ensures TruncateAddress(TruncateAddress(address)) == TruncateAddress(address)
  {
    var r := TruncateAddress(address);
    FirstLineOfLine(r);
    if |FirstLine(address)| > 30 {
      assert r[..30] == FirstLine(address)[..30];
    }
  }

  /** The character of a decimal digit. */
  function DigitChar(d: nat): char
    requires d < 10
  {
    "0123456789"[d]
  }

  predicate IsDigit(c: char)
  {
    '0' <= c <= '9'
  }

  /** The value of a decimal digit character. */
  function DigitValue(c: char): nat
    requires IsDigit(c)
  {
    (c - '0') as nat
  }

  /** `String(n)` for a natural number: its decimal digits, without leading zeros. */
  function DecimalText(n: nat): (r: string)
    ensures |r| >= 1
    ensures forall i :: 0 <= i < |r| ==> IsDigit(r[i])
    ensures |r| > 1 ==> r[0] != '0'
  {
    if n < 10 then [DigitChar(n)] else DecimalText(n / 10) + [DigitChar(n % 10)]
  }

  /** The number a string of decimal digits denotes. */
  function DecimalValue(s: string): nat
    requires forall i :: 0 <= i < |s| ==> IsDigit(s[i])
  {
    if s == [] then 0 else DecimalValue(s[..|s| - 1]) * 10 + DigitValue(s[|s| - 1])
  }

  /** Reading back the decimal text of a number gives the number. */
  lemma {:induction false} DecimalRoundTrip(n: nat)
    ensures DecimalValue(DecimalText(n)) == n
  {
    if n >= 10 {
      DecimalRoundTrip(n / 10);
      var s := DecimalText(n);
      assert s[..|s| - 1] == DecimalText(n / 10);
    }
  }

  /** `k` copies of `c`. */
  function Repeat(c: char, k: nat): (r: string)
    ensures |r| == k && forall i :: 0 <= i < k ==> r[i] == c
  {
    if k == 0 then [] else [c] + Repeat(c, k - 1)
  }

  /** Leading zeros do not change the value of a digit string. */
  lemma {:induction false} LeadingZeros(k: nat, s: string)
    requires forall i :: 0 <= i < |s| ==> IsDigit(s[i])
    ensures forall i :: 0 <= i < k + |s| ==> IsDigit((Repeat('0', k) + s)[i])
    ensures DecimalValue(Repeat('0', k) + s) == DecimalValue(s)
  {
    var z := Repeat('0', k) + s;
    if s == [] {
      assert z == Repeat('0', k);
      if k > 0 {
        assert z[..|z| - 1] == Repeat('0', k - 1) + [];
        LeadingZeros(k - 1, []);
      }
    } else {
      assert z[..|z| - 1] == Repeat('0', k) + s[..|s| - 1];
      LeadingZeros(k, s[..|s| - 1]);
    }
  }

  /** `s.padStart(width, fill)`. */
  function PadStart(s: string, width: nat, fill: char): (r: string)
    ensures |r| == if |s| >= width then |s| else width
    ensures s <= r[|r| - |s|..] && r[|r| - |s|..] == s
    ensures forall i :: 0 <= i < |r| - |s| ==> r[i] == fill
  {
    if |s| >= width then s else Repeat(fill, width - |s|) + s
  }

  /**
   * The order number as the card prints it after '#' (line 156): at least three characters,
   * ending with the number's own digits.
   */
  function OrderNumberText(n: nat): (t: string)
    ensures |t| >= 3 && |t| >= |DecimalText(n)|
    ensures t[|t| - |DecimalText(n)|..] == DecimalText(n)
  {
    PadStart(DecimalText(n), 3, '0')
  }

  /**
   * The printed order number is at least three characters long, ends with the digits of the
   * number behind '0' padding, and reads back as the number itself.
   */
  lemma OrderNumberTextSpec(n: nat)
    ensures var t := OrderNumberText(n);
      && |t| == (if |DecimalText(n)| >= 3 then |DecimalText(n)| else 3)
      && t[|t| - |DecimalText(n)|..] == DecimalText(n)
      && (forall i :: 0 <= i < |t| ==> IsDigit(t[i]))
      && DecimalValue(t) == n
  {
    var d := DecimalText(n);
    var k := if |d| >= 3 then 0 else 3 - |d|;
    assert OrderNumberText(n) == Repeat('0', k) + d;
    LeadingZeros(k, d);
    DecimalRoundTrip(n);
  }

  /** What the details button does: `None` opens the accept/decline modal (lines 91-115). */
  function DetailsRoute(s: OrderStatus): (r: Option<Screen>)
    ensures r.None? <==> s == ReadyForPickup
    ensures !Declared(s) ==> r == Some(OrderDetailsScreen)
  {
    if Is(s, "ReadyForPickup") then None
    else if Is(s, "Assigned") then Some(OrderDetailsScreen)
    else if Is(s, "Pickup") then Some(OrderStartScreen)
    else if Is(s, "OnTheWay") then Some(OrderDropoffScreen)
    else if Is(s, "Delivered") then Some(OrderSuccess)
    else if Is(s, "Completed") then Some(OrderReceipt)
    else Some(OrderDetailsScreen)
  }

  /**
   * The details button and the list screen's router agree on every status except Delivered,
   * which the button sends to OrderSuccess and the list to OrderCompleteScreen.
   */
  lemma ProjectorsAgreeExceptDelivered(s: OrderStatus)
    ensures s != Delivered ==> DetailsRoute(s) == OrdersScreen.RouteFor(s)
    ensures DetailsRoute(Delivered) == Some(OrderSuccess)
    ensures OrdersScreen.RouteFor(Delivered) == Some(OrderCompleteScreen)
  {
  }

  /** `shouldShowDistance` (lines 117-119), with the 'Picked Up' literal as written. */
  predicate ShouldShowDistance(s: OrderStatus)
  {
    Is(s, "ReadyForPickup") || OneOf(s, ["Assigned", "Picked Up", "OnTheWay"])
  }

  /**
   * Among the declared statuses the distance shows for ReadyForPickup, Assigned and OnTheWay
   * only, so not for Pickup; the 'Picked Up' literal matches only that undeclared string.
   */
  lemma ShouldShowDistanceRule(s: OrderStatus)
    ensures Declared(s) ==> (ShouldShowDistance(s) <==> s == ReadyForPickup || s == Assigned || s == OnTheWay)
    ensures !Declared(s) ==> (ShouldShowDistance(s) <==> s == Unrecognized("Picked Up"))
    ensures !ShouldShowDistance(Pickup)
  {
  }

  /**
   * `getDistance()` (lines 121-134) given the computed distance text: nothing when the distance
   * is not shown or a pickup coordinate is falsy (missing or zero).
   */
  function DistanceLabel(s: OrderStatus, pickupLatitude: Option<real>, pickupLongitude: Option<real>,
                         distance: string): (r: Option<string>)
    ensures r.Some? <==> ShouldShowDistance(s) && pickupLatitude.Some? && pickupLatitude.value != 0.0
                         && pickupLongitude.Some? && pickupLongitude.value != 0.0
    ensures r.Some? ==> r.value == distance + " km away"
  {
    if !ShouldShowDistance(s) || pickupLatitude.None? || pickupLatitude.value == 0.0
       || pickupLongitude.None? || pickupLongitude.value == 0.0
    then None
    else Some(distance + " km away")
  }

  datatype CardPress = OpenModal | CallOnPress

  /** `handlePress` (lines 140-146): the modal opens exactly for a ReadyForPickup order. */
  function HandlePress(s: OrderStatus): (p: CardPress)
    ensures p == OpenModal <==> s == ReadyForPickup
  {
    if Is(s, "ReadyForPickup") then OpenModal else CallOnPress
  }

  /** The details button's label (line 196): 'Accept/Decline' exactly for ReadyForPickup. */
  function ButtonLabel(s: OrderStatus): (text: string)
    ensures text == "Accept/Decline" <==> s == ReadyForPickup
    ensures text == "View Details" <==> s != ReadyForPickup
  {
    if Is(s, "ReadyForPickup") then "Accept/Decline" else "View Details"
  }

  /**
   * The card opens the modal exactly for ReadyForPickup, and exactly then the button reads
   * 'Accept/Decline'; the details button opens the modal in the same case.
   */
  lemma PressAndLabelAgree(s: OrderStatus)
    ensures HandlePress(s) == OpenModal <==> s == ReadyForPickup
    ensures ButtonLabel(s) == "Accept/Decline" <==> HandlePress(s) == OpenModal
    ensures ButtonLabel(s) == "View Details" <==> s != ReadyForPickup
    ensures DetailsRoute(s).None? <==> HandlePress(s) == OpenModal
  {
  }
}
