/**
 * The order-complete screen (src/screens/OrderCompleteScreen.tsx): the confirm step that marks
 * the current order completed, fans the same completion out to the rest of its batch, and then
 * either moves on to the next order of the batch or finishes on the success screen.
 */
module OrderComplete {
  import opened Wrappers
  import opened Orders
  import opened Seqs
  import opened Navigation

  /** The body of one completion PATCH, together with the id it is addressed to. */
  datatype CompletePatch = CompletePatch(
    orderId: string,
    completed: bool,
    orderCompletedTime: int,
    orderReceivedTime: Option<int>,
    orderPickedupTime: Option<int>,
    orderDeliveredTime: Option<int>
  )

  /** What one confirm did: the PATCHes sent, in the order they were issued, and its navigation or alert. */
  datatype Outcome = Outcome(patches: seq<CompletePatch>, navigate: Option<Navigate>, alert: Option<string>)

  const UpdateFailed := "Failed to update order status"

  /** The PATCH addressed to `id`: completed, stamped with `time`, and carrying the current order's other times. */
  function PatchFor(id: string, order: Order, time: int): (p: CompletePatch)
    ensures p.orderId == id && p.completed && p.orderCompletedTime == time
    ensures p.orderReceivedTime == order.orderReceivedTime && p.orderPickedupTime == order.orderPickedupTime
    ensures p.orderDeliveredTime == order.orderDeliveredTime
  {
    CompletePatch(id, true, time, order.orderReceivedTime, order.orderPickedupTime, order.orderDeliveredTime)
  }

  /** A batch member other than the order on screen. */
  predicate IsSibling(order: Order, o: Order)
  {
    o.id != order.id
  }

  /** The sibling PATCHes for `batch`, one per member whose id differs from the current order's, in batch order. */
  function SiblingPatches(order: Order, batch: seq<Order>, time: int): seq<CompletePatch>
  {
    if batch == [] then []
    else
      var last := batch[|batch| - 1];
      SiblingPatches(order, batch[..|batch| - 1], time)
      + (if IsSibling(order, last) then [PatchFor(last.id, order, time)] else [])
  }

  /**
   * The sibling PATCHes are exactly one per member of the batch whose id differs from the current
   * order's: the k-th goes to the k-th such member.
   */
  lemma {:induction false} SiblingPatchesExact(order: Order, batch: seq<Order>, time: int)
    ensures |SiblingPatches(order, batch, time)| == Count(batch, (o: Order) => IsSibling(order, o))
    ensures forall k :: 0 <= k < |SiblingPatches(order, batch, time)| ==>
      SiblingPatches(order, batch, time)[k]
      == PatchFor(Filter(batch, (o: Order) => IsSibling(order, o))[k].id, order, time)
  {
    var p := (o: Order) => IsSibling(order, o);
    if batch != [] {
      var init := batch[..|batch| - 1];
      var last := batch[|batch| - 1];
      SiblingPatchesExact(order, init, time);
      assert batch == init + [last];
      FilterAppend(init, [last], p);
      assert [last][1..] == [];
      assert Filter([last], p) == if p(last) then [last] else [];
    }
  }

  /** Every PATCH sent by one confirm carries `completed` and one shared completion time. */
  lemma {:induction false} SiblingPatchesShareTime(order: Order, batch: seq<Order>, time: int)
    ensures forall q :: q in SiblingPatches(order, batch, time) ==>
      q.completed && q.orderCompletedTime == time && q.orderId != order.id
  {
    if batch != [] {
      SiblingPatchesShareTime(order, batch[..|batch| - 1], time);
    }
  }

  /** Whether a sibling's request is rejected (a network failure); a non-ok sibling response is not inspected. */
  predicate SiblingThrew(order: Order, batch: seq<Order>, siblingResponse: string -> Fetch<()>)
  {
    exists k :: 0 <= k < |batch| && IsSibling(order, batch[k]) && siblingResponse(batch[k].id).Failed?
  }

  /** The navigation branch: another order of the batch follows this one. */
  predicate HasNext(batchedOrders: seq<Order>, currentBatchIndex: int)
  {
    |batchedOrders| > 0 && currentBatchIndex < |batchedOrders| - 1
  }

  /** `batchedOrders[currentBatchIndex + 1]`, undefined below the start of the list. */
  function NextOrder(batchedOrders: seq<Order>, currentBatchIndex: int): (r: Option<Order>)
    requires currentBatchIndex < |batchedOrders| - 1
    ensures r.Some? <==> currentBatchIndex >= -1
    ensures r.Some? ==> r.value == batchedOrders[currentBatchIndex + 1]
  {
    if currentBatchIndex + 1 >= 0 then Some(batchedOrders[currentBatchIndex + 1]) else None
  }

  /**
   * `handleConfirm` (lines 21-95). `now` is the completion time, `firstResponse` the outcome of the
   * PATCH for the order on screen, and `siblingResponse(id)` the outcome of the PATCH for batch
   * member `id`. All sibling PATCHes are issued before any is awaited, so they are all sent even
   * when one of them is rejected; a rejection then reaches the catch block.
   */
  method HandleConfirm(order: Order, batchedOrders: seq<Order>, currentBatchIndex: int, now: int,
                       firstResponse: Fetch<()>, siblingResponse: string -> Fetch<()>)
    returns (r: Outcome)
    ensures |r.patches| >= 1 && r.patches[0] == PatchFor(order.id, order, now)
    ensures !(firstResponse.Answered? && firstResponse.ok) ==>
      r == Outcome([PatchFor(order.id, order, now)], None, Some(UpdateFailed))
    ensures firstResponse.Answered? && firstResponse.ok ==>
      r.patches == [PatchFor(order.id, order, now)]
                   + (if Truthy(order.batchID) then SiblingPatches(order, batchedOrders, now) else [])
    ensures firstResponse.Answered? && firstResponse.ok && Truthy(order.batchID)
            && SiblingThrew(order, batchedOrders, siblingResponse) ==>
      r.navigate == None && r.alert == Some(UpdateFailed)
    ensures firstResponse.Answered? && firstResponse.ok
            && !(Truthy(order.batchID) && SiblingThrew(order, batchedOrders, siblingResponse)) ==>
      r.alert == None
      && r.navigate == Some(
        if HasNext(batchedOrders, currentBatchIndex) then
          Navigate(OrderStartScreen, NextOrder(batchedOrders, currentBatchIndex),
                   Some(batchedOrders), Some(currentBatchIndex + 1))
        else
          Navigate(OrderSuccess, Some(order.(orderCompletedTime := Some(now))), Some(batchedOrders), None))
  {
    var patches := [PatchFor(order.id, order, now)];
    if !(firstResponse.Answered? && firstResponse.ok) {
      return Outcome(patches, None, Some(UpdateFailed));
    }
    var threw := false;
    if Truthy(order.batchID) {
      var i := 0;
      while i < |batchedOrders|
        invariant 0 <= i <= |batchedOrders|
        invariant patches == [PatchFor(order.id, order, now)] + SiblingPatches(order, batchedOrders[..i], now)
        invariant threw <==> SiblingThrew(order, batchedOrders[..i], siblingResponse)
      {
        var batchOrder := batchedOrders[i];
        assert batchedOrders[..i + 1][..i] == batchedOrders[..i];
        if batchOrder.id != order.id {
          patches := patches + [PatchFor(batchOrder.id, order, now)];
          if siblingResponse(batchOrder.id).Failed? {
            threw := true;
          }
        }
        assert SiblingThrew(order, batchedOrders[..i + 1], siblingResponse)
               <==> SiblingThrew(order, batchedOrders[..i], siblingResponse)
                    || (IsSibling(order, batchOrder) && siblingResponse(batchOrder.id).Failed?)
        by {
          if IsSibling(order, batchOrder) && siblingResponse(batchOrder.id).Failed? {
            assert batchedOrders[..i + 1][i] == batchOrder;
          }
          if SiblingThrew(order, batchedOrders[..i], siblingResponse) {
            var k :| 0 <= k < i && IsSibling(order, batchedOrders[..i][k])
                     && siblingResponse(batchedOrders[..i][k].id).Failed?;
            assert batchedOrders[..i + 1][k] == batchedOrders[..i][k];
          }
        }
        i := i + 1;
      }
      assert batchedOrders[..i] == batchedOrders;
    }
    if threw {
      return Outcome(patches, None, Some(UpdateFailed));
    }
    if |batchedOrders| > 0 && currentBatchIndex < |batchedOrders| - 1 {
      var next := NextOrder(batchedOrders, currentBatchIndex);
      r := Outcome(patches, Some(Navigate(OrderStartScreen, next, Some(batchedOrders), Some(currentBatchIndex + 1))), None);
    } else {
      r := Outcome(patches, Some(Navigate(OrderSuccess, Some(order.(orderCompletedTime := Some(now))),
                                          Some(batchedOrders), None)), None);
    }
  }

  /** On the next-order branch from a reachable index, the next index lies inside the batch. */
  lemma NextIndexValid(batchedOrders: seq<Order>, currentBatchIndex: int)
    requires currentBatchIndex >= 0 && HasNext(batchedOrders, currentBatchIndex)
    ensures 0 <= currentBatchIndex + 1 < |batchedOrders|
    ensures NextOrder(batchedOrders, currentBatchIndex) == Some(batchedOrders[currentBatchIndex + 1])
  {
  }

  /** The route parameters with their defaults: no batch and index 0. */
  function BatchOrDefault(batchedOrders: Option<seq<Order>>): seq<Order>
  {
    match batchedOrders
    case None => []
    case Some(b) => b
  }

  function IndexOrDefault(currentBatchIndex: Option<int>): int
  {
    match currentBatchIndex
    case None => 0
    case Some(i) => i
  }

  /** The confirm button text (lines 186-190). */
  function ButtonLabel(batchedOrders: seq<Order>, currentBatchIndex: int): (s: string)
    ensures s == "Next Order" || s == "Confirm Delivery"
    ensures s == "Next Order" <==> currentBatchIndex < |batchedOrders| - 1
  {
    if currentBatchIndex < |batchedOrders| - 1 then "Next Order" else "Confirm Delivery"
  }

  /** The "Order i of n" progress line (lines 178-182): the 1-based position and the batch size, when there is a batch. */
  function ProgressLabel(batchedOrders: seq<Order>, currentBatchIndex: int): (p: Option<(int, nat)>)
    ensures p.Some? <==> |batchedOrders| > 0
    ensures p.Some? ==> p.value.0 == currentBatchIndex + 1 && p.value.1 == |batchedOrders|
  {
    if |batchedOrders| > 0 then Some((currentBatchIndex + 1, |batchedOrders|)) else None
  }

  /** From a non-negative index, the button reads "Next Order" exactly when confirm moves to the next order. */
  lemma LabelMatchesBranch(batchedOrders: seq<Order>, currentBatchIndex: int)
    requires currentBatchIndex >= 0
    ensures ButtonLabel(batchedOrders, currentBatchIndex) == "Next Order" <==> HasNext(batchedOrders, currentBatchIndex)
  {
  }

  /** Below -1 with an empty batch the two disagree: the button offers a next order that confirm does not go to. */
  lemma LabelDisagreesBelowZero()
    ensures ButtonLabel([], -2) == "Next Order" && !HasNext([], -2)
  {
  }

  /** Without route parameters there is no progress line, the button confirms, and confirm finishes. */
  lemma DefaultsFinish()
    ensures ProgressLabel(BatchOrDefault(None), IndexOrDefault(None)) == None
    ensures ButtonLabel(BatchOrDefault(None), IndexOrDefault(None)) == "Confirm Delivery"
    ensures !HasNext(BatchOrDefault(None), IndexOrDefault(None))
  {
  }
}
