/** Navigation targets and the parameters handed to them (src/types/navigation.ts). */
module Navigation {
  import opened Wrappers
  import opened Orders

  datatype Screen =
    | MainTabs
    | OrderDetailsScreen
    | OrderStartScreen
    | OrderDropoffScreen
    | OrderCompleteScreen
    | OrderSuccess
    | OrderReceipt

  /**
   * One `navigation.navigate(screen, params)` call. Route parameters that a call does not
   * pass are `None`; `order` is `None` also when the value passed is `undefined`.
   */
  datatype Navigate = Navigate(
    screen: Screen,
    order: Option<Order>,
    batchedOrders: Option<seq<Order>>,
    batchIndex: Option<int>
  )

  /** A navigation that passes only an order. */
  function WithOrder(screen: Screen, order: Order): Navigate
  {
    Navigate(screen, Some(order), None, None)
  }
}
