/**
 * The cashier dashboard: the same order list, controller and alert as the
 * manager's, with the analytics and menu views gated by the cashier's
 * permissions and an effect cleanup that also silences the alert.
 */
module CashierBoard {
  import opened Wrappers
  import opened Orders
  import opened OrderFeed
  import opened Accounts

  /** Orders are fetched in the orders view, and in analytics only with that permission. */
  function FetchesOrders(v: View, perms: Permissions): (r: bool)
    ensures r <==> v == OrdersView || (v == AnalyticsView && perms.canViewAnalytics)
  {
    v == OrdersView || (v == AnalyticsView && perms.canViewAnalytics)
  }

  /** `renderContent`: analytics and menu need their permission; everything else is the order board. */
  function CashierScreen(v: View, perms: Permissions): (s: Screen)
    ensures s in {AnalyticsScreen, MenuManagerScreen, OrderBoardScreen}
    ensures s == AnalyticsScreen <==> v == AnalyticsView && perms.canViewAnalytics
    ensures s == MenuManagerScreen <==> v == MenuView && perms.canManageMenu
  {
    if v == AnalyticsView && perms.canViewAnalytics then AnalyticsScreen
    else if v == MenuView && perms.canManageMenu then MenuManagerScreen
    else OrderBoardScreen
  }

  /** Whenever the cashier sees the analytics screen, the orders behind it were fetched. */
  lemma AnalyticsScreenIsFetched(v: View, perms: Permissions)
    requires CashierScreen(v, perms) == AnalyticsScreen
    ensures FetchesOrders(v, perms)
  {
  }

  class CashierDashboard {
    var currentView: View
    var orders: seq<Order>
    var loadingOrders: bool
    const perms: Permissions
    const alert: AlertSound

    /** A freshly mounted dashboard for a cashier with `perms`: orders view, no orders yet, loading. */
    constructor (perms: Permissions)
      ensures this.perms == perms
      ensures currentView == OrdersView && orders == [] && loadingOrders
      ensures fresh(alert) && alert.State() == AudioState(false, false, false, 0)
    {
      this.perms := perms;
      currentView := OrdersView;
      orders := [];
      loadingOrders := true;
      alert := new AlertSound();
    }

    /** `updateOrderStatus`: the manager's controller, line for line. */
    method UpdateOrderStatus(id: string, current: Status) returns (request: Option<StatusRequest>)
      modifies alert
      ensures alert.State() == Stop(old(alert.State()))
      ensures request == AdvanceRequest(id, current)
      ensures unchanged(this)
    {
      alert.StopSound();
      match NextStatus(current)
      case None =>
        return None;
      case Some(next) =>
        request := Some(StatusRequest(id, next));
    }

    /** The end of `fetchOrders`: replace on success; on failure keep the list, and log out on a 401. */
    method ApplyFetch(outcome: FetchOutcome) returns (logout: bool)
      modifies this
      ensures currentView == old(currentView) && !loadingOrders
      ensures outcome.Fetched? ==> orders == outcome.orders && !logout
      ensures outcome.FetchFailed? ==> orders == old(orders) && logout == outcome.unauthorized
    {
      match outcome
      case Fetched(list) =>
        orders := list;
        loadingOrders := false;
        logout := false;
      case FetchFailed(unauthorized) =>
        logout := unauthorized;
        loadingOrders := false;
    }

    /**
     * A nav button sets the view. Choosing the view already shown is a state
     * update to the same value: the effect does not re-run, so neither its
     * cleanup nor a fetch happens. Switching to another view first runs the
     * previous effect's cleanup, which stops the alert, then the new effect,
     * which fetches only where `FetchesOrders` says.
     */
    method SelectView(v: View, outcome: FetchOutcome) returns (fetched: bool, logout: bool)
      modifies this, alert
      ensures v == old(currentView) ==> !fetched && !logout && unchanged(this) && alert.State() == old(alert.State())
      ensures currentView == v
      ensures v != old(currentView) ==> fetched == FetchesOrders(v, perms) && alert.State() == Stop(old(alert.State()))
      ensures fetched ==> !loadingOrders
      ensures fetched && outcome.Fetched? ==> orders == outcome.orders && !logout
      ensures fetched && outcome.FetchFailed? ==> orders == old(orders) && logout == outcome.unauthorized
      ensures !fetched ==> orders == old(orders) && loadingOrders == old(loadingOrders) && !logout
    {
      if v == currentView {
        return false, false;
      }
      alert.StopSound();
      currentView := v;
      fetched := FetchesOrders(v, perms);
      logout := false;
      if fetched {
        loadingOrders := true;
        logout := ApplyFetch(outcome);
      }
    }

    /** The socket handlers: merge the event into the list and drive the alert. */
    method OnEvent(ev: FeedEvent)
      modifies this, alert
      ensures orders == Reduce(old(orders), ev)
      ensures alert.State() == AlertAfter(old(alert.State()), ev)
      ensures currentView == old(currentView) && loadingOrders == old(loadingOrders)
    {
      match ev
      case NewOrder(o) =>
        orders := [o] + orders;
        alert.PlaySound();
      case OrderStatusUpdated(o) =>
        orders := ReplaceById(orders, o);
      case NewRating(o) =>
        orders := ReplaceById(orders, o);
      case WaiterCalled(_) =>
        alert.PlaySound();
        alert.StopSound();
    }

    function RenderContent(): (s: Screen)
      reads this
    {
      CashierScreen(currentView, perms)
    }
  }
}
