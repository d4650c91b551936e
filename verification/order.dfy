/**
 * The order record and its status, as the server sends them (src/types/order.ts).
 *
 * The status field is a string on the wire. The eight declared values get their own
 * constructors; any other string is `Unrecognized`, and a missing field is `Undefined`.
 * Every comparison the application makes against a status literal goes through `Text`,
 * so a literal that names no declared status (such as 'Picked Up') is modelled as written.
 */
module Orders {
  import opened Wrappers

  datatype Status =
    | ReadyForPickup | Assigned | Pickup | OnTheWay
    | Delivered | Cancelled | DeliveryFailed | Completed
    | Unrecognized(raw: string)
    | Undefined

  /** The names of the eight declared statuses (src/types/order.ts, lines 1-9). */
  const StatusNames: seq<string> :=
    ["ReadyForPickup", "Assigned", "Pickup", "OnTheWay",
     "Delivered", "Cancelled", "DeliveryFailed", "Completed"]

  /** A status value in canonical form: a string naming a declared status is that status. */
  type OrderStatus = s: Status | s.Unrecognized? ==> s.raw !in StatusNames
    witness ReadyForPickup

  /** One of the eight values of the closed `OrderStatus` union. */
  predicate Declared(s: Status)
  {
    !s.Unrecognized? && !s.Undefined?
  }

  /** The string the status field holds, or `None` when it is undefined. */
  function Text(s: Status): (t: Option<string>)
    ensures t.None? <==> s.Undefined?
    ensures Declared(s) ==> t.value in StatusNames
  {
    match s
    case ReadyForPickup => Some("ReadyForPickup")
    case Assigned => Some("Assigned")
    case Pickup => Some("Pickup")
    case OnTheWay => Some("OnTheWay")
    case Delivered => Some("Delivered")
    case Cancelled => Some("Cancelled")
    case DeliveryFailed => Some("DeliveryFailed")
    case Completed => Some("Completed")
    case Unrecognized(raw) => Some(raw)
    case Undefined => None
  }

  /** `status === lit`. */
  predicate Is(s: Status, lit: string)
  {
    Text(s) == Some(lit)
  }

  /** `lits.includes(status)`; `includes(undefined)` is false for a list of strings. */
  predicate OneOf(s: Status, lits: seq<string>)
  {
    Text(s).Some? && Text(s).value in lits
  }

  /** Reading a declared status's name back gives the same status: text determines canonical statuses. */
  lemma TextInjective(s: OrderStatus, t: OrderStatus)
    requires Text(s) == Text(t)
    ensures s == t
  {
  }

  /** A literal naming a declared status matches exactly that status. */
  lemma IsDeclared(s: OrderStatus, d: Status)
    requires Declared(d)
    ensures Is(s, Text(d).value) <==> s == d
  {
  }

  /** A literal naming no declared status matches no declared status. */
  lemma IsUndeclaredLiteral(s: OrderStatus, lit: string)
    requires lit !in StatusNames
    ensures Is(s, lit) ==> s == Unrecognized(lit)
  {
  }

  /** The fields of an order that the modelled decisions read or write (src/types/order.ts, lines 23-52). */
  datatype Order = Order(
    id: string,
    createdAt: int,
    orderNumber: nat,
    courierName: string,
    orderStatus: OrderStatus,
    deliveryPrice: Option<int>,
    pickupAddress: string,
    dropOffAddress: string,
    orderReceivedTime: Option<int>,
    orderPickedupTime: Option<int>,
    orderDeliveredTime: Option<int>,
    orderCompletedTime: Option<int>,
    batchID: Option<string>,
    // A `status` property that is not part of the Order type; only handleUpdateStatus writes it.
    status: Option<OrderStatus>
  )
}
