/**
 * The manager dashboard: the local order list kept up to date by the socket,
 * the status-advance controller, the alert sound and the view switcher.
 */
module ManagerBoard {
  import opened Wrappers
  import opened Orders
  import opened OrderFeed

  /** The manager fetches orders in the orders and analytics views only. */
  function FetchesOrders(v: View): (r: bool)
    ensures r <==> v in {OrdersView, AnalyticsView}
  {
    v == OrdersView || v == AnalyticsView
  }

  /** `renderContent`: each named view has its own screen; the order board is the fallback. */
  function ManagerScreen(v: View): (s: Screen)
    ensures s == OrderBoardScreen <==> v == OrdersView
    ensures v == MenuView <==> s == MenuManagerScreen
    ensures v == AnalyticsView <==> s == AnalyticsScreen
  {
    match v
    case MenuView => MenuManagerScreen
    case ThemeView => ThemeScreen
    case AnalyticsView => AnalyticsScreen
    case UsersView => UserManagerScreen
    case ReviewsView => ReviewsScreen
    case OrdersView => OrderBoardScreen
  }

  class ManagerDashboard {
    var currentView: View
    var orders: seq<Order>
    var loadingOrders: bool
    const alert: AlertSound

    /** A freshly mounted dashboard: analytics view, no orders yet, loading. */
    constructor ()
      ensures currentView == AnalyticsView && orders == [] && loadingOrders
      ensures fresh(alert) && alert.State() == AudioState(false, false, false, 0)
    {
      currentView := AnalyticsView;
      orders := [];
      loadingOrders := true;
      alert := new AlertSound();
    }

    /**
     * `updateOrderStatus`: silence the alert first, then send one step forward
     * or nothing. The local list is never written here; it changes only when
     * the resulting `orderStatusUpdated` event arrives. Whether the request
     * succeeds changes nothing on this side except an error dialog.
     */
    method UpdateOrderStatus(id: string, current: Status) returns (request: Option<StatusRequest>)
      modifies alert
      ensures alert.State() == Stop(old(alert.State()))
      ensures request == AdvanceRequest(id, current)
      ensures unchanged(this)
    {
      alert.StopSound();
      match NextStatus(current)
      case None =>
        return None;
      case Some(next) =>
        request := Some(StatusRequest(id, next));
    }

    /**
     * The end of `fetchOrders`: a fetched list replaces the local one; a
     * failure keeps the stale list and asks for logout when it was a 401.
     */
    method ApplyFetch(outcome: FetchOutcome) returns (logout: bool)
      modifies this
      ensures currentView == old(currentView) && !loadingOrders
      ensures outcome.Fetched? ==> orders == outcome.orders && !logout
      ensures outcome.FetchFailed? ==> orders == old(orders) && logout == outcome.unauthorized
    {
      match outcome
      case Fetched(list) =>
        orders := list;
        loadingOrders := false;
        logout := false;
      case FetchFailed(unauthorized) =>
        logout := unauthorized;
        loadingOrders := false;
    }

    /**
     * A nav button sets the view. Choosing the view already shown is a state
     * update to the same value, so nothing re-renders and the effect does not
     * re-run. Otherwise the socket/fetch effect re-runs: the orders are fetched
     * (with `outcome` as the server's answer) only in the orders and analytics
     * views; the alert is not touched.
     */
    method SelectView(v: View, outcome: FetchOutcome) returns (fetched: bool, logout: bool)
      modifies this
      ensures v == old(currentView) ==> !fetched && !logout && unchanged(this)
      ensures currentView == v
      ensures v != old(currentView) ==> fetched == FetchesOrders(v)
      ensures fetched ==> !loadingOrders
      ensures fetched && outcome.Fetched? ==> orders == outcome.orders && !logout
      ensures fetched && outcome.FetchFailed? ==> orders == old(orders) && logout == outcome.unauthorized
      ensures !fetched ==> orders == old(orders) && loadingOrders == old(loadingOrders) && !logout
    {
      if v == currentView {
        return false, false;
      }
      currentView := v;
      fetched := FetchesOrders(v);
      logout := false;
      if fetched {
        loadingOrders := true;
        logout := ApplyFetch(outcome);
      }
    }

    /** The socket handlers: merge the event into the list and drive the alert. */
    method OnEvent(ev: FeedEvent)
      modifies this, alert
      ensures orders == Reduce(old(orders), ev)
      ensures alert.State() == AlertAfter(old(alert.State()), ev)
      ensures currentView == old(currentView) && loadingOrders == old(loadingOrders)
    {
      match ev
      case NewOrder(o) =>
        orders := [o] + orders;
        alert.PlaySound();
      case OrderStatusUpdated(o) =>
        orders := ReplaceById(orders, o);
      case NewRating(o) =>
        orders := ReplaceById(orders, o);
      case WaiterCalled(_) =>
        alert.PlaySound();
        alert.StopSound();
    }

    function RenderContent(): Screen
      reads this
    {
      ManagerScreen(currentView)
    }
  }
}
