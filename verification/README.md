# delika-rider decision logic in Dafny

delika-rider is the courier app of a delivery service: riders see the orders assigned to them, accept or decline them, and walk each one through pickup, drop-off and completion. They confirm a delivery with the customer's four-digit code and review their earnings. The app is mostly screens around HTTP calls. This project models the small routines inside those screens and services that decide something:

- **Order status projections**: the filter tabs and badge counts of the orders screen, the routing switch, drop-off markers, the order card's colours, labels, address truncation and order-number padding.
- **Analytics aggregation**: earnings, counts, chart buckets and the date filters of the analytics screen, and the courier/date filter and figures of the analytics service.
- **Batch completion**: the completion PATCH, its fan-out over the batch, and the move to the next order.
- **Code entry**: the four-digit buffer shared by the delivery-code and login-code screens, and the confirm flows of both.
- **Terms screen**: its expand/collapse toggle.
- **Application context**: the translation fallback, the theme toggle and palette, preference loading, and the provider guard.
- **Orders service**: the courier filter and the authentication check before a location update.

## How the model is built

An order's status is a string on the wire. The eight declared values are constructors of `Orders.Status`. Any other string is `Unrecognized(raw)`, and a missing field is `Undefined`. Every comparison against a status literal goes through the status text, exactly as written in the source. So the `'Picked Up'` literal in the card and the chart matches no declared status: `Pickup` shows no distance and falls in no chart bar. Other quirks are modelled as they stand, not fixed:

- the "Complete" badge counts only `Completed`;
- the card routes `Delivered` to the success screen, while the orders screen routes it to the complete screen;
- `handleUpdateStatus` writes a separate `status` property and leaves `orderStatus` untouched;
- the orders service ignores `response.ok`.

Network calls are not performed. Each call's outcome is a parameter of type `Fetch`: an answer with its `ok` flag and body, or a failure (a thrown error). A handler returns the requests it sends together with its navigation and alert. React state becomes the fields of a class (`OrdersScreenState`, `AnalyticsScreenState`, `OtpScreenState`, `OtpLoginState`, `TermsScreenState`, `AppProviderState`), and each handler becomes a method: one that changes screen state names the fields it changes in a `modifies` clause, and one that only sends requests and decides navigation returns them and changes nothing. Filter/map/reduce chains become functions over sequences, built on `Seqs.Filter`, `Seqs.Count` and `Seqs.Sum`.

Value choices:

- Timestamps are integers. Same-day tests and week and month bounds are parameters, since they come from a date library.
- Money is an integer.
- Hours and averages are reals, with `Math.round` written as floor of x + 0.5.

## Model

| member | source | states |
|---|---|---|
| Orders.Text | src/types/order.ts:1-9 | the status text is missing exactly for an undefined status, and a declared status reads as one of the eight names |
| Orders.TextInjective | src/types/order.ts:1-9 | two statuses with the same text are the same status |
| Orders.IsDeclared | src/types/order.ts:1-9 | comparing with a declared status's name matches exactly that status |
| Orders.IsUndeclaredLiteral | src/types/order.ts:1-9 | a literal naming no declared status matches only an unrecognized status carrying that literal |
| Seqs.Filter | src/screens/OrdersScreen.tsx:162-179 | `filter` keeps an order-preserving sub-list, never longer than its input, of elements satisfying the test |
| Seqs.FilterMembership | src/screens/OrdersScreen.tsx:162-179 | an element survives the filter iff it occurs in the input and passes the test |
| Seqs.FilterDisjointUnion | src/screens/OrdersScreen.tsx:162-179 | filtering by the disjunction of two exclusive tests keeps as many elements as the two filters together |
| Seqs.FilterAppend | src/screens/AnalyticsScreen.tsx:120-122 | filtering distributes over concatenation |
| Seqs.SumAppend | src/screens/AnalyticsScreen.tsx:120-122 | a `reduce` sum over a concatenation is the sum of the two sums |
| Api.FetchOrders | src/services/api.ts:3-14 | a thrown fetch is rethrown; an answer yields an order-preserving sub-list of the fetched orders, all of the given courier |
| Api.FetchOrdersExact | src/services/api.ts:9 | an order is returned iff it was fetched and its courier name equals the argument, whatever `ok` says |
| Api.FetchOrdersKeepsOwn | src/services/api.ts:9 | when every fetched order is the courier's own, the list comes back unchanged |
| Api.UpdateRiderLocation | src/services/api.ts:16-59 | without a non-empty user id and token nothing is sent and the call fails with 'User not authenticated'; otherwise the patch carries the id, token and location, and a failed or non-ok answer is an error |
| OrdersScreen.InFilterIsTabOf | src/screens/OrdersScreen.tsx:162-179 | each tab's literal list is the same as a classification of declared statuses into exactly one tab |
| OrdersScreen.FilteredOrders | src/screens/OrdersScreen.tsx:162-179 | each tab shows an order-preserving sub-list of the orders, all of that tab |
| OrdersScreen.FilteredOrdersExact | src/screens/OrdersScreen.tsx:162-179 | an order is under a tab iff it is in the list and its status belongs to that tab |
| OrdersScreen.FilterCountVersusList | src/screens/OrdersScreen.tsx:215-229 | the badge equals the tab's length for Pending, Active and Other; for Complete the badge plus the Delivered count is the tab's length |
| OrdersScreen.FilterCount | src/screens/OrdersScreen.tsx:215-229 | a tab's badge count never exceeds the number of orders, and is zero for no orders; its relation to the tab's list is FilterCountVersusList |
| OrdersScreen.FiltersPartition | src/screens/OrdersScreen.tsx:162-179 | the four tab lengths add up to the number of orders with a declared status |
| OrdersScreen.FiltersCoverDeclared | src/screens/OrdersScreen.tsx:162-179 | when every status is declared, the four tabs together hold every order |
| OrdersScreen.RouteFor | src/screens/OrdersScreen.tsx:349-378 | ReadyForPickup selects instead of navigating; Delivered goes to the complete screen and Completed to the receipt; an unknown status goes to the details screen |
| OrdersScreen.RouteTable | src/screens/OrdersScreen.tsx:349-378 | the routing table, one declared status at a time |
| OrdersScreen.ShowsDropoffMarker | src/screens/OrdersScreen.tsx:301-304 | a drop-off marker is drawn iff the status is declared and is neither ReadyForPickup nor Cancelled |
| OrdersScreen.FindById | src/screens/OrdersScreen.tsx:80 | `find` returns an order with the id iff one exists, and it is the first such order |
| OrdersScreen.MarkStatus | src/screens/OrdersScreen.tsx:99-103 | the list keeps its length; orders with the id get the new status and every other order is unchanged |
| OrdersScreen.MarkStatusField | src/screens/OrdersScreen.tsx:151-155 | only the stray `status` property of matching orders changes; every `orderStatus` and id stays as it was |
| OrdersScreen.MarkStatusAbsent | src/screens/OrdersScreen.tsx:134-138 | marking an id no order carries leaves the list unchanged |
| OrdersScreen.OrdersScreenState.constructor | src/screens/OrdersScreen.tsx:34-44 | no orders, the Pending tab, nothing selected |
| OrdersScreen.OrdersScreenState.LoadOrders | src/screens/OrdersScreen.tsx:52-71 | the courier's fetched orders replace the list; a thrown fetch keeps the old list |
| OrdersScreen.OrdersScreenState.SetActiveFilter | src/screens/OrdersScreen.tsx:195 | the pressed tab becomes active |
| OrdersScreen.OrdersScreenState.Visible | src/screens/OrdersScreen.tsx:162-179 | the shown list is an order-preserving sub-list of the orders; every shown order belongs to the active tab, and every order of the active tab is shown |
| OrdersScreen.OrdersScreenState.HandleAcceptOrder | src/screens/OrdersScreen.tsx:78-114 | an unknown id sends nothing and changes nothing; otherwise an Assigned PATCH is sent; on ok only that order becomes Assigned and the details screen opens with it; a non-ok answer changes nothing; a throw alerts |
| OrdersScreen.OrdersScreenState.HandleDeclineOrder | src/screens/OrdersScreen.tsx:116-144 | a Cancelled PATCH is sent; on ok only matching orders become Cancelled; otherwise the list is unchanged; only a throw alerts |
| OrdersScreen.OrdersScreenState.HandleUpdateStatus | src/screens/OrdersScreen.tsx:146-159 | the list keeps its length and every `orderStatus`; only the `status` property of matching orders is written |
| OrdersScreen.OrdersScreenState.NavigateBasedOnStatus | src/screens/OrdersScreen.tsx:346-379 | a ReadyForPickup order is selected without navigating; any other is navigated to its route with the order |
| OrdersScreen.OrdersScreenState.PressPickupMarker | src/screens/OrdersScreen.tsx:311-315 | a marker press selects the order only when it is ReadyForPickup |
| OrdersScreen.OrdersScreenState.SetModalVisible | src/screens/OrdersScreen.tsx:428-434 | opening selects the card's order, closing clears the selection; the modal is then visible as requested |
| OrdersScreen.OrdersScreenState.IsModalVisible | src/screens/OrdersScreen.tsx:427 | when a card's modal is open, no order with another id is selected, so at most one order id has its modal open |
| OrderCard.StatusColors | src/components/OrderCard.tsx:55-60 | a declared status gets its table entry; an unknown or missing one gets the ReadyForPickup colours; the result is always a table colour |
| OrderCard.DeliveredLooksCompleted | src/components/OrderCard.tsx:37-52 | Delivered and Completed have identical colours |
| OrderCard.BadgeText | src/components/OrderCard.tsx:169 | a declared status shows its name; an unrecognized status shows its raw text, or 'ReadyForPickup' when that text is empty; a missing status shows 'ReadyForPickup'; the badge is never empty |
| OrderCard.BadgeFallbackAgrees | src/components/OrderCard.tsx:169 | a badge reading 'ReadyForPickup' always has the ReadyForPickup colours |
| OrderCard.FirstLine | src/components/OrderCard.tsx:65 | the text before the first comma or newline: a prefix free of separators, followed by a separator or the end |
| OrderCard.FirstLineOfLine | src/components/OrderCard.tsx:65 | a text without separators is its own first line |
| OrderCard.TruncateAddress | src/components/OrderCard.tsx:63-68 | the first line when it is at most 30 characters (Unicode scalar values), else its first 30 and '...'; at most 33 characters and no comma or newline |
| OrderCard.TruncateIdempotent | src/components/OrderCard.tsx:63-68 | truncating a truncated address changes nothing |
| OrderCard.DecimalText | src/components/OrderCard.tsx:156 | `toString()` of a natural: at least one digit, all digits, no leading zero |
| OrderCard.DecimalRoundTrip | src/components/OrderCard.tsx:156 | reading the decimal text back gives the number |
| OrderCard.LeadingZeros | src/components/OrderCard.tsx:156 | zeros put in front of a digit string keep it a digit string of the same value |
| OrderCard.PadStart | src/components/OrderCard.tsx:156 | `padStart`: length max(width, length), the text at the end, fill characters before it |
| OrderCard.OrderNumberTextSpec | src/components/OrderCard.tsx:156 | the order number prints with length max(3, digits), all digits, and reads back as the number |
| OrderCard.OrderNumberText | src/components/OrderCard.tsx:156 | the printed order number is at least three characters long and ends with the number's own digits |
| OrderCard.DetailsRoute | src/components/OrderCard.tsx:91-115 | ReadyForPickup opens the modal; an unknown status goes to the details screen |
| OrderCard.ProjectorsAgreeExceptDelivered | src/components/OrderCard.tsx:91-115 | the card's routing equals the orders screen's for every status except Delivered, which the card sends to the success screen |
| OrderCard.ShouldShowDistanceRule | src/components/OrderCard.tsx:117-119 | distance is shown exactly for ReadyForPickup, Assigned and OnTheWay among declared statuses, so never for Pickup |
| OrderCard.DistanceLabel | src/components/OrderCard.tsx:121-134 | a distance label appears iff the status allows it and both pickup coordinates are present and non-zero, and it reads '<distance> km away' |
| OrderCard.PressAndLabelAgree | src/components/OrderCard.tsx:140-146 | a card press opens the modal iff ReadyForPickup; the label is 'Accept/Decline' exactly then, else 'View Details' |
| OrderCard.HandlePress | src/components/OrderCard.tsx:140-146 | a press opens the accept/decline modal exactly for a ReadyForPickup order, and otherwise calls `onPress` |
| OrderCard.ButtonLabel | src/components/OrderCard.tsx:196 | the button reads 'Accept/Decline' exactly for ReadyForPickup and 'View Details' for every other status |
| AnalyticsScreen.CalculateAnalytics | src/screens/AnalyticsScreen.tsx:119-145 | earnings over Delivered orders, the count of all orders, rounded delivered hours, and an average that is zero for no orders and otherwise times the count gives the hours |
| AnalyticsScreen.EarningsAppend | src/screens/AnalyticsScreen.tsx:120-122 | the earnings of two lists together are the sum of their earnings |
| AnalyticsScreen.EarningsIgnoreUndelivered | src/screens/AnalyticsScreen.tsx:120-122 | orders that are not Delivered earn nothing |
| AnalyticsScreen.EarningsOfDelivered | src/screens/AnalyticsScreen.tsx:120-122 | a Delivered order earns its delivery price, a missing price counting as zero |
| AnalyticsScreen.BarOfAgrees | src/screens/AnalyticsScreen.tsx:147-162 | each bar's literal test equals a classification of statuses into at most one bar |
| AnalyticsScreen.ChartBarsSum | src/screens/AnalyticsScreen.tsx:147-162 | the four bars add up to the number of orders in some bar, hence at most the number of orders |
| AnalyticsScreen.ChartData | src/screens/AnalyticsScreen.tsx:147-178 | each bar counts at most the orders, and the Complete bar counts exactly the Delivered orders |
| AnalyticsScreen.UnchartedStatuses | src/screens/AnalyticsScreen.tsx:152-154 | Pickup and Completed orders fall in no bar |
| AnalyticsScreen.SelectOrders | src/screens/AnalyticsScreen.tsx:184-224 | the kept list is a sub-list of the fetched orders: same day for the daily filter, inside the range otherwise, empty without a range |
| AnalyticsScreen.SelectOrdersInRange | src/screens/AnalyticsScreen.tsx:186-214 | weekly, monthly and range keep an order iff it was fetched and start <= created_at <= end |
| AnalyticsScreen.SelectOrdersDaily | src/screens/AnalyticsScreen.tsx:216-221 | daily keeps an order iff it was fetched and created on the selected day |
| AnalyticsScreen.InvertedRangeSelectsNothing | src/screens/AnalyticsScreen.tsx:186-214 | a range that starts after it ends keeps nothing |
| AnalyticsScreen.StartConfirmed | src/screens/AnalyticsScreen.tsx:48-54 | the picked date becomes the start; the old end stays, or the picked date without one |
| AnalyticsScreen.EndConfirmed | src/screens/AnalyticsScreen.tsx:56-62 | the picked date becomes the end; the old start stays, or the picked date without one |
| AnalyticsScreen.PickBothEnds | src/screens/AnalyticsScreen.tsx:48-62 | picking a start and then an end, in either order, yields exactly those two dates |
| AnalyticsScreen.AnalyticsScreenState.constructor | src/screens/AnalyticsScreen.tsx:111-116 | daily filter on today, no range, no orders |
| AnalyticsScreen.AnalyticsScreenState.Figures | src/screens/AnalyticsScreen.tsx:119-145 | the figures count every order shown |
| AnalyticsScreen.AnalyticsScreenState.LoadOrders | src/screens/AnalyticsScreen.tsx:180-231 | the courier's fetched orders narrowed by the current filter replace the list; a thrown fetch keeps it |
| AnalyticsScreen.AnalyticsScreenState.HandleFilterChange | src/screens/AnalyticsScreen.tsx:242-267 | weekly and monthly set their range, daily clears the range and resets the day, range leaves the range untouched |
| AnalyticsScreen.AnalyticsScreenState.SelectDate | src/screens/AnalyticsScreen.tsx:333 | the picked day becomes the selected date |
| AnalyticsScreen.AnalyticsScreenState.ConfirmStartDate | src/screens/AnalyticsScreen.tsx:48-54 | the range becomes the start-confirmed range |
| AnalyticsScreen.AnalyticsScreenState.ConfirmEndDate | src/screens/AnalyticsScreen.tsx:56-62 | the range becomes the end-confirmed range |
| AnalyticsService.HalfHours | src/services/analytics.ts:62 | `Math.round(n * 0.5)` equals (n + 1) div 2 |
| AnalyticsService.AverageDeliveryTime | src/services/analytics.ts:52-57 | zero when no record has a delivery time, otherwise the mean of the present ones |
| AnalyticsService.OutcomesBounded | src/services/analytics.ts:39-44 | Delivered plus DeliveryFailed counts never exceed the record count |
| AnalyticsService.CalculateAnalytics | src/services/analytics.ts:38-68 | successes count Delivered, failures DeliveryFailed; the total is the record count; hours are (n + 1) div 2 |
| AnalyticsService.CalculateAnalyticsTotals | src/services/analytics.ts:46-58 | earnings sum every amount, a missing one as zero; the average delivery time is the one computed over the records that carry a time |
| AnalyticsService.ReportedOutcomesBounded | src/services/analytics.ts:39-61 | the reported successes and failures together never exceed the reported order count |
| AnalyticsService.FetchAnalytics | src/services/analytics.ts:4-36 | a thrown fetch is rethrown; a non-ok answer fails with 'Failed to fetch analytics' before any aggregation; otherwise the figures of the selected records |
| AnalyticsService.FetchAnalyticsSelects | src/services/analytics.ts:24-29 | a record is aggregated iff it was fetched, is the courier's and is dated within the range, both ends included |
| AnalyticsService.FetchAnalyticsBounded | src/services/analytics.ts:61 | the reported order count never exceeds the number of fetched records |
| OrderComplete.PatchFor | src/screens/OrderCompleteScreen.tsx:31-37 | a completion PATCH is marked completed, carries the shared time and the current order's other times |
| OrderComplete.SiblingPatchesExact | src/screens/OrderCompleteScreen.tsx:46-69 | one sibling PATCH per batch member whose id differs from the current order's, in batch order |
| OrderComplete.SiblingPatchesShareTime | src/screens/OrderCompleteScreen.tsx:57-63 | every sibling PATCH is completed, carries the same time, and never targets the current order |
| OrderComplete.NextOrder | src/screens/OrderCompleteScreen.tsx:74 | the next order is defined iff the index is at least -1, and is then the element after the current index |
| OrderComplete.HandleConfirm | src/screens/OrderCompleteScreen.tsx:21-95 | the first PATCH targets the order; if it fails nothing else is sent and an alert shows; with a batch id every sibling is patched; a thrown sibling alerts instead of navigating; otherwise the next order or the success screen with the completion time |
| OrderComplete.NextIndexValid | src/screens/OrderCompleteScreen.tsx:71-76 | on the next-order branch from a non-negative index, index + 1 is inside the batch |
| OrderComplete.ButtonLabel | src/screens/OrderCompleteScreen.tsx:186-190 | 'Next Order' iff the index is below the last position, else 'Confirm Delivery' |
| OrderComplete.ProgressLabel | src/screens/OrderCompleteScreen.tsx:178-182 | "Order i+1 of n" appears iff the batch is non-empty |
| OrderComplete.LabelMatchesBranch | src/screens/OrderCompleteScreen.tsx:71 | from a non-negative index the button reads 'Next Order' exactly when confirm moves to the next order |
| OrderComplete.LabelDisagreesBelowZero | src/screens/OrderCompleteScreen.tsx:187 | below -1 with an empty batch the button offers a next order that confirm does not go to |
| OrderComplete.DefaultsFinish | src/screens/OrderCompleteScreen.tsx:18 | with the default parameters there is no progress line, the button confirms, and confirm finishes |
| OtpKeypad.ActionOf | src/screens/OTPScreen.tsx:102-103 | the blank key is disabled, the arrow erases, any other key appends its label |
| OtpKeypad.KeypadKeys | src/screens/OTPScreen.tsx:84-89 | every key that appends is a single digit; the only other keys are the blank and the arrow, at the bottom corners |
| OtpKeypad.AppendDigit | src/screens/OTPScreen.tsx:49-53 | appends only while fewer than four characters are entered |
| OtpKeypad.Backspace | src/screens/OTPScreen.tsx:55-57 | drops the last character; an empty buffer stays empty |
| OtpKeypad.PressKeyKeepsValid | src/screens/OTPScreen.tsx:83-114 | keypad presses keep the buffer at most four digits long |
| OtpKeypad.BackspaceUndoesAppend | src/screens/OTPScreen.tsx:49-57 | backspace undoes a digit appended to a non-full buffer |
| OtpKeypad.FullIgnoresDigits | src/screens/OTPScreen.tsx:50 | a full buffer ignores further digits |
| OtpKeypad.SlotText | src/screens/OTPScreen.tsx:59-80 | a slot shows its digit iff it is filled |
| OtpKeypad.SlotsShowBuffer | src/screens/OTPScreen.tsx:59-80 | the four slots spell the buffer, and a slot is highlighted iff the buffer is not full |
| OtpKeypad.FourDigitsEnableConfirm | src/screens/OTPScreen.tsx:132-135 | four digits typed from empty fill the buffer and enable confirm |
| OtpKeypad.PressKey | src/screens/OTPScreen.tsx:83-114 | the blank key changes nothing, a full buffer ignores every key but backspace, and backspace removes exactly one character of a non-empty buffer |
| OtpKeypad.ConfirmEnabled | src/screens/OTPScreen.tsx:132-135 | for a valid buffer, confirm is enabled exactly when the keypad stops accepting digits |
| OtpScreen.ErrorOr | src/screens/OTPScreen.tsx:27 | the error text when it is non-empty, else the fallback |
| OtpScreen.OtpScreenState.constructor | src/screens/OTPScreen.tsx:15-19 | the screen starts with the routed order, an empty code and no loading |
| OtpScreen.OtpScreenState.HandleNumberPress | src/screens/OTPScreen.tsx:49-53 | the buffer becomes the bounded append |
| OtpScreen.OtpScreenState.HandleBackspace | src/screens/OTPScreen.tsx:55-57 | the buffer loses its last character |
| OtpScreen.OtpScreenState.PressKeypad | src/screens/OTPScreen.tsx:83-114 | a key press applies its action and keeps the buffer valid |
| OtpScreen.OtpScreenState.HandleConfirm | src/screens/OTPScreen.tsx:21-47 | validation comes first; a failed validation alerts and sends no update; after success the order is updated to Delivered, and only a successful update opens the success screen with a Delivered order; loading is cleared on every path |
| OtpLogin.OtpLoginState.constructor | src/screens/OTPLogin.tsx:15-16 | the screen starts with an empty code and no stored e-mail |
| OtpLogin.OtpLoginState.Mount | src/screens/OTPLogin.tsx:21-28 | only a non-empty route e-mail is stored and sent to; a failed send alerts |
| OtpLogin.OtpLoginState.HandleNumberPress | src/screens/OTPLogin.tsx:29-33 | the buffer becomes the bounded append |
| OtpLogin.OtpLoginState.HandleBackspace | src/screens/OTPLogin.tsx:35-37 | the buffer loses its last character |
| OtpLogin.OtpLoginState.PressKeypad | src/screens/OTPLogin.tsx:63-94 | a key press applies its action and keeps the buffer valid |
| OtpLogin.OtpLoginState.HandleConfirm | src/screens/OTPLogin.tsx:96-123 | sends the stored address and the typed code; the main tabs open iff the answer is ok, otherwise an alert |
| Terms.Toggle | src/screens/TermsScreen.tsx:133-139 | an open index is removed, keeping the others in order; a closed one is appended at the end |
| Terms.ToggleFlips | src/screens/TermsScreen.tsx:133-139 | the toggled index changes membership |
| Terms.ToggleKeepsOthers | src/screens/TermsScreen.tsx:133-139 | every other index keeps its membership |
| Terms.ToggleTwice | src/screens/TermsScreen.tsx:133-139 | two toggles restore every membership, and the list itself when the index was closed |
| Terms.FilterKeepsDistinct | src/screens/TermsScreen.tsx:136 | filtering a list without duplicates leaves none |
| Terms.ToggleKeepsDistinct | src/screens/TermsScreen.tsx:134-138 | a duplicate-free list stays duplicate-free |
| Terms.ToggleKeepsCopies | src/screens/TermsScreen.tsx:133-139 | every other index keeps its number of occurrences, so no copy of another section is dropped |
| Terms.TermsScreenState.constructor | src/screens/TermsScreen.tsx:131 | no section is open |
| Terms.TermsScreenState.ToggleSection | src/screens/TermsScreen.tsx:133-139 | the toggled section flips, every other section keeps its state, and no index is ever duplicated |
| AppContext.TablesComplete | src/i18n/translations.ts:3-37 | the three tables define the same nine keys, none with an empty text |
| AppContext.Entry | src/context/AppContext.tsx:58 | the entry is present iff the language and the key are both in the tables |
| AppContext.Translate | src/context/AppContext.tsx:57-59 | the current language's non-empty entry, else the English one, else the key; a non-empty key never yields an empty text |
| AppContext.UnknownLanguageReadsEnglish | src/context/AppContext.tsx:58 | a language without a table reads English, or the key itself |
| AppContext.KnownKeysTranslate | src/context/AppContext.tsx:58 | each of the nine keys reads in the chosen language when it has a table |
| AppContext.NextTheme | src/context/AppContext.tsx:39 | dark iff the theme was light; the result is always light or dark |
| AppContext.ToggleTwice | src/context/AppContext.tsx:39 | two toggles restore light and dark; an unexpected stored theme ends up dark |
| AppContext.ColorsFor | src/context/AppContext.tsx:64 | the light palette iff the theme is 'light', the dark one otherwise |
| AppContext.ToggleSwitchesPalette | src/context/AppContext.tsx:39-64 | a toggle always changes the palette |
| AppContext.UseApp | src/context/AppContext.tsx:73-78 | outside a provider the call fails with 'useApp must be used within an AppProvider'; inside it returns the provider's value |
| AppContext.AppProviderState.constructor | src/context/AppContext.tsx:19-20 | light theme and English |
| AppContext.AppProviderState.Value | src/context/AppContext.tsx:61-68 | the value exposes the theme, the language, and the light palette iff the theme is light |
| AppContext.AppProviderState.LoadPreferences | src/context/AppContext.tsx:26-36 | a stored theme or language overrides the current one only when present and non-empty; a failing read changes nothing |
| AppContext.AppProviderState.ToggleTheme | src/context/AppContext.tsx:38-46 | the theme switches, is stored under 'theme', and the palette changes |
| AppContext.AppProviderState.ChangeLanguage | src/context/AppContext.tsx:48-55 | the language becomes the argument and is stored; `t` then reads that language |
| AppContext.SavedPreferenceReloads | src/context/AppContext.tsx:31-32 | a non-empty value just stored is what the next load applies |
| AppContext.Stored | src/context/AppContext.tsx:28-29 | a stored preference reads back as present exactly when its key is stored, with the stored value |
| AppContext.AppProviderState.T | src/context/AppContext.tsx:57-59 | in the current language, one of the nine keys reads that language's table when it has one, and a non-empty key never reads as empty |

## Left out

- Rendering is not modelled: JSX, styles, maps, markers, charts, modals and navigation-container wiring.
- HTTP is not modelled. URLs, headers and JSON bodies are absent, except the fields the modelled decisions send or read.
- Every response is an abstract outcome: an answer with its `ok` flag, or a thrown error.
- `OrderStatusService` (src/services/OrderStatusService.ts) is not part of this model. Its calls in the delivery-code screen are abstract results with `success` and `error`.
- `LocationService` is not part of this model.
- The screens that are one call plus navigation are not part of this model: sign-in, settings, account, details, start, drop-off, success, receipt and splash.
- Date libraries are not modelled: `isSameDay`, week and month bounds, and date formatting. Timestamps are integers, and same-day and the bounds are parameters.
- The 30-day account-deletion step of the terms screen is left out, because it only writes device storage and navigates.
- `calculateDistance` and the coordinate conversions are not modelled. The distance text is a parameter of `OrderCard.DistanceLabel`.
- Floating point is not modelled. Hours and averages are exact reals, with no IEEE rounding claimed.
- `AnalyticsScreen.CalculateAnalytics` states hours and the average only through the exact real arithmetic; `Number()` of a non-numeric price is not modelled.
- `AnalyticsService.CalculateAnalytics` leaves out three fields. `pendingDeliveries` and `activeDeliveries` are declared in `AnalyticsData`, but the service never sets them. `date` is the clock time of the call.
- JavaScript's `in` operator also matching inherited keys is not modelled. The colour lookup is membership in the eight table keys.
- `OrderCard.TruncateAddress` and `OrderCard.FirstLine` count and cut Unicode scalar values, whereas `length` and `substring(0, 30)` count UTF-16 code units: a first line with characters outside the Basic Multilingual Plane (emoji, say) is cut at a different place in the source, which may also leave a lone surrogate there.
- `Orders.Order.orderNumber` is a natural number, so `String(n).padStart(3, '0')` is modelled only for non-negative integers; negative, fractional and exponent-notation numbers (`0-5`, `4.5`, `1e+21`) are not.
- `AppContext.Translate` looks up own table keys only. `translations[language]?.[key]` also finds inherited members such as `constructor`, which yield a function rather than a text, so the non-empty result is promised only for keys that are not inherited property names.
- React's stale-closure behaviour is not modelled: a handler that reads state captured at render time, such as `handleAcceptOrder` mapping over `orders`, reads the current field here.
- The intermediate `isLoading == true` state during the delivery-code confirm is not modelled. Only its final value is stated, because the model has no concurrency.
- Concurrency is not modelled. The sibling PATCHes of the batch confirm are issued in batch order, with no claim about the order or atomicity of `Promise.all`.
- Storage write failures are not modelled. They are only logged, so every write succeeds here.
- The enablement of the confirm buttons is stated by `OtpKeypad.ConfirmEnabled`. The confirm methods do not require it, because the source does not check it inside the handler.
