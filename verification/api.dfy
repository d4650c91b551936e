/** The order gateway and the rider-location report (src/services/api.ts). */
module Api {
  import opened Wrappers
  import opened Orders
  import opened Seqs

  /**
   * `fetchOrders(courierName)`: the fetched list restricted to the orders whose `courierName`
   * equals the argument. The response's `ok` flag is never inspected; a failed fetch or an
   * unparsable body is rethrown with its own message.
   */
  function FetchOrders(courierName: string, response: Fetch<seq<Order>>): (r: Result<seq<Order>>)
    ensures response.Failed? ==> r == Err(response.message)
    ensures response.Answered? ==> r.Ok?
    ensures r.Ok? ==> SubsequenceOf(r.value, response.body) && |r.value| <= |response.body|
    ensures r.Ok? ==> forall i :: 0 <= i < |r.value| ==> r.value[i].courierName == courierName
  {
    match response
    case Failed(message) => Err(message)
    case Answered(_, body) => Ok(Filter(body, (o: Order) => o.courierName == courierName))
  }

  /** Exactly the fetched orders of the named courier are returned. */
  lemma FetchOrdersExact(courierName: string, body: seq<Order>, ok: bool, o: Order)
    ensures FetchOrders(courierName, Answered(ok, body)).Ok?
    ensures o in FetchOrders(courierName, Answered(ok, body)).value <==> o in body && o.courierName == courierName
  {
    FilterMembership(body, (o: Order) => o.courierName == courierName, o);
  }

  /** A fetched list whose orders all belong to the courier comes back unchanged. */
  lemma FetchOrdersKeepsOwn(courierName: string, body: seq<Order>, ok: bool)
    requires forall i :: 0 <= i < |body| ==> body[i].courierName == courierName
    ensures FetchOrders(courierName, Answered(ok, body)) == Ok(body)
  {
    FilterAll(body, (o: Order) => o.courierName == courierName);
  }

  /** A rider position as handed to `updateRiderLocation`. */
  datatype Location = Location(latitude: real, longitude: real, timestamp: int)

  /** The PATCH sent to the location endpoint: the user id in the path, the token in the header. */
  datatype LocationPatch = LocationPatch(userId: string, authToken: string, location: Location)

  /**
   * `updateRiderLocation(location)`. `profileId` is the `id` of the stored user profile (`None`
   * when no profile is stored), `authToken` the stored token; `response` is the outcome of the
   * PATCH, with the JSON the server answered. Returns the request it sent, if any, and what the
   * call returns or throws.
   */
  method UpdateRiderLocation(profileId: Option<string>, authToken: Option<string>, location: Location,
                             response: Fetch<string>)
    returns (sent: Option<LocationPatch>, result: Result<string>)
    ensures !(Truthy(profileId) && Truthy(authToken)) ==> sent == None && result == Err("User not authenticated")
    ensures Truthy(profileId) && Truthy(authToken) ==>
      sent == Some(LocationPatch(profileId.value, authToken.value, location))
    ensures Truthy(profileId) && Truthy(authToken) ==>
      result == match response
                case Failed(message) => Err(message)
                case Answered(ok, data) => if ok then Ok(data) else Err("Failed to update location")
  {
    if !Truthy(profileId) || !Truthy(authToken) {
      return None, Err("User not authenticated");
    }
    sent := Some(LocationPatch(profileId.value, authToken.value, location));
    match response {
      case Failed(message) =>
        result := Err(message);
      case Answered(ok, data) =>
        if !ok {
          result := Err("Failed to update location");
        } else {
          result := Ok(data);
        }
    }
  }
}
