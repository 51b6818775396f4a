/**
 * What the two staff dashboards share: the realtime events they receive, the
 * reducer that merges those events into the local order list, the
 * status-advance request, the outcome of the order fetch, and the single
 * looping alert sound.
 */
module OrderFeed {
  import opened Wrappers
  import opened Orders

  /** The events a staff dashboard listens for on its socket. */
  datatype FeedEvent =
    | NewOrder(order: Order)
    | OrderStatusUpdated(order: Order)
    | NewRating(order: Order)
    | WaiterCalled(tableNumber: string)

  /** The result of `GET /orders`: the list, or a failure that may be a 401. */
  datatype FetchOutcome = Fetched(orders: seq<Order>) | FetchFailed(unauthorized: bool)

  /** The body of `PUT /orders/{id}/status`. */
  datatype StatusRequest = StatusRequest(orderId: string, status: Status)

  /** The screens a staff dashboard can be switched to. */
  datatype View = AnalyticsView | ReviewsView | OrdersView | MenuView | ThemeView | UsersView

  /** What a dashboard's main area shows. */
  datatype Screen =
    | AnalyticsScreen | ReviewsScreen | OrderBoardScreen | MenuManagerScreen
    | ThemeScreen | UserManagerScreen

  /**
   * The request the status-advance controller sends for an order shown with
   * status `current`: one step forward, or none at all.
   */
  function AdvanceRequest(id: string, current: Status): (r: Option<StatusRequest>)
    ensures r.Some? <==> current == Pending || current == InProgress
    ensures r.Some? ==> r.value.orderId == id && r.value.status != Cancelled
                        && Rank(r.value.status) == Rank(current) + 1
  {
    match NextStatus(current)
    case Some(next) => Some(StatusRequest(id, next))
    case None => None
  }

  /**
   * `orders.map(o => o._id === snapshot._id ? snapshot : o)`: every order
   * carrying the snapshot's id becomes the snapshot, every other order stays.
   */
  function ReplaceById(orders: seq<Order>, snapshot: Order): (r: seq<Order>)
    ensures |r| == |orders|
    ensures forall i :: 0 <= i < |orders| && orders[i].id == snapshot.id ==> r[i] == snapshot
    ensures forall i :: 0 <= i < |orders| && orders[i].id != snapshot.id ==> r[i] == orders[i]
  {
    if orders == [] then []
    else [if orders[0].id == snapshot.id then snapshot else orders[0]] + ReplaceById(orders[1..], snapshot)
  }

  /** The ids of a list of orders, in order. */
  function Ids(orders: seq<Order>): (ids: seq<string>)
    ensures |ids| == |orders|
    ensures forall i :: 0 <= i < |orders| ==> ids[i] == orders[i].id
  {
    if orders == [] then [] else [orders[0].id] + Ids(orders[1..])
  }

  /**
   * How one event changes the local order list: a new order goes in front of
   * the others, a status or rating snapshot rewrites orders in place, and a
   * waiter call leaves the list alone.
   */
  function Reduce(orders: seq<Order>, ev: FeedEvent): (r: seq<Order>)
    ensures ev.NewOrder? ==> |r| == |orders| + 1 && r[0] == ev.order && r[1..] == orders
    ensures ev.OrderStatusUpdated? || ev.NewRating? ==> Ids(r) == Ids(orders)
    ensures ev.OrderStatusUpdated? || ev.NewRating? ==>
      forall i :: 0 <= i < |orders| ==> r[i] == (if orders[i].id == ev.order.id then ev.order else orders[i])
    ensures ev.WaiterCalled? ==> r == orders
  {
    match ev
    case NewOrder(o) => [o] + orders
    case OrderStatusUpdated(o) => ReplaceKeepsIds(orders, o); ReplaceById(orders, o)
    case NewRating(o) => ReplaceKeepsIds(orders, o); ReplaceById(orders, o)
    case WaiterCalled(_) => orders
  }

  /**
   * The list after a run of events, oldest event first. Only `newOrder`
   * grows the list, by one order each; the other events keep its length.
   */
  function ReduceAll(orders: seq<Order>, evs: seq<FeedEvent>): (r: seq<Order>)
    ensures |r| == |orders| + NewOrderCount(evs)
    decreases |evs|
  {
    if evs == [] then orders else ReduceAll(Reduce(orders, evs[0]), evs[1..])
  }

  /** How many of the events announce a new order. */
  function NewOrderCount(evs: seq<FeedEvent>): nat {
    if evs == [] then 0 else (if evs[0].NewOrder? then 1 else 0) + NewOrderCount(evs[1..])
  }

  /** A status or rating event for an id the list does not hold changes nothing. */
  lemma ReplaceUnknownId(orders: seq<Order>, snapshot: Order)
    requires snapshot.id !in Ids(orders)
    ensures ReplaceById(orders, snapshot) == orders
  {
    var r := ReplaceById(orders, snapshot);
    forall i | 0 <= i < |orders| ensures r[i] == orders[i] {
      assert Ids(orders)[i] == orders[i].id;
    }
  }

  /** Applying the same snapshot twice is the same as applying it once. */
  lemma ReplaceIdempotent(orders: seq<Order>, snapshot: Order)
    ensures ReplaceById(ReplaceById(orders, snapshot), snapshot) == ReplaceById(orders, snapshot)
  {
    var once := ReplaceById(orders, snapshot);
    var twice := ReplaceById(once, snapshot);
    forall i | 0 <= i < |orders| ensures twice[i] == once[i] {
      if orders[i].id == snapshot.id {
        assert once[i] == snapshot;
      }
    }
  }

  /** Replacing by id never adds, drops or reorders ids. */
  lemma ReplaceKeepsIds(orders: seq<Order>, snapshot: Order)
    ensures Ids(ReplaceById(orders, snapshot)) == Ids(orders)
  {
    var r := ReplaceById(orders, snapshot);
    forall i | 0 <= i < |orders| ensures Ids(r)[i] == Ids(orders)[i] {
      if orders[i].id == snapshot.id {
        assert r[i] == snapshot;
      }
    }
  }

  /** The same status or rating event delivered twice leaves the list as one delivery does. */
  lemma RedeliveryIsHarmless(orders: seq<Order>, ev: FeedEvent)
    requires ev.OrderStatusUpdated? || ev.NewRating?
    ensures Reduce(Reduce(orders, ev), ev) == Reduce(orders, ev)
  {
    ReplaceIdempotent(orders, ev.order);
  }

  /**
   * The list trusts every snapshot as the latest: for any list and any order in
   * it, a stale status event for that order that arrives after a newer one
   * moves the order's status back.
   */
  lemma LateSnapshotRewindsStatus(orders: seq<Order>, i: int, snapshot: Order)
    requires 0 <= i < |orders| && snapshot.id == orders[i].id
    requires snapshot.status != Cancelled && orders[i].status != Cancelled
    requires Rank(snapshot.status) < Rank(orders[i].status)
    ensures |Reduce(orders, OrderStatusUpdated(snapshot))| == |orders|
    ensures Reduce(orders, OrderStatusUpdated(snapshot))[i].status == snapshot.status
    ensures Rank(Reduce(orders, OrderStatusUpdated(snapshot))[i].status) < Rank(orders[i].status)
  {
  }

  /**
   * With only new-order and waiter-call events, the run only ever prepends:
   * the original list itself is a suffix of the result.
   */
  lemma {:induction false} ReduceAllKeepsOrders(orders: seq<Order>, evs: seq<FeedEvent>)
    requires forall k :: 0 <= k < |evs| ==> evs[k].NewOrder? || evs[k].WaiterCalled?
    ensures |orders| <= |ReduceAll(orders, evs)|
    ensures ReduceAll(orders, evs)[|ReduceAll(orders, evs)| - |orders|..] == orders
    decreases |evs|
  {
    if evs != [] {
      ReduceAllKeepsOrders(Reduce(orders, evs[0]), evs[1..]);
    }
  }

  /**
   * Any run of events only ever prepends new orders: after the one order each
   * new-order event adds at the front, the original orders follow, by id, in
   * their original order (status and rating events rewrite orders in place).
   */
  lemma {:induction false} ReduceAllKeepsIds(orders: seq<Order>, evs: seq<FeedEvent>)
    ensures NewOrderCount(evs) <= |ReduceAll(orders, evs)|
    ensures Ids(ReduceAll(orders, evs))[NewOrderCount(evs)..] == Ids(orders)
    decreases |evs|
  {
    if evs != [] {
      var next := Reduce(orders, evs[0]);
      var ids := Ids(ReduceAll(orders, evs));
      ReduceAllKeepsIds(next, evs[1..]);
      assert ReduceAll(orders, evs) == ReduceAll(next, evs[1..]);
      match evs[0]
      case NewOrder(o) =>
        assert Ids(next) == [o.id] + Ids(orders);
        assert ids[NewOrderCount(evs[1..])..] == [o.id] + Ids(orders);
        assert ids[NewOrderCount(evs)..] == ids[NewOrderCount(evs[1..])..][1..];
      case OrderStatusUpdated(o) =>
      case NewRating(o) =>
      case WaiterCalled(_) =>
    }
  }

  // ---------------------------------------------------------------------
  // The alert sound: one audio element, reached through a ref that is null
  // before the dashboard mounts and after it unmounts.
  // ---------------------------------------------------------------------

  /** The observable state of the alert: whether the ref holds an element, and that element's state. */
  datatype AudioState = AudioState(attached: bool, playing: bool, looping: bool, position: nat)

  /** `playSound`: restart from 0 with looping on; nothing when the ref is empty. */
  function Play(a: AudioState): (r: AudioState)
    ensures a.attached ==> r.attached && r.playing && r.looping && r.position == 0
    ensures !a.attached ==> r == a
  {
    if a.attached then a.(playing := true, looping := true, position := 0) else a
  }

  /** `stopSound`: pause and rewind; the looping flag is left as it was. */
  function Stop(a: AudioState): (r: AudioState)
    ensures a.attached ==> r.attached && !r.playing && r.position == 0 && r.looping == a.looping
    ensures !a.attached ==> r == a
  {
    if a.attached then a.(playing := false, position := 0) else a
  }

  /**
   * How an event changes the alert: a new order starts it, a waiter call plays
   * it and, once the dialog closes, stops it; status and rating events leave
   * it alone. Without an element nothing changes.
   */
  function AlertAfter(a: AudioState, ev: FeedEvent): (r: AudioState)
    ensures !a.attached ==> r == a
    ensures a.attached ==> r.attached && (r.playing <==> ev.NewOrder? || (a.playing && !ev.WaiterCalled?))
    ensures a.attached && (ev.NewOrder? || ev.WaiterCalled?) ==> r.looping && r.position == 0
    ensures ev.OrderStatusUpdated? || ev.NewRating? ==> r == a
  {
    match ev
    case NewOrder(_) => Play(a)
    case WaiterCalled(_) => Stop(Play(a))
    case OrderStatusUpdated(_) => a
    case NewRating(_) => a
  }

  /** Triggering twice gives one alert, not two: playing is idempotent. */
  lemma PlayDoesNotStack(a: AudioState)
    ensures Play(Play(a)) == Play(a)
  {
  }

  /** Stopping a stopped alert changes nothing. */
  lemma StopIdempotent(a: AudioState)
    ensures Stop(Stop(a)) == Stop(a)
  {
  }

  /** A waiter call leaves an attached alert paused at position 0, whatever it was doing before. */
  lemma WaiterCallEndsSilent(a: AudioState, table: string)
    ensures a.attached ==> !AlertAfter(a, WaiterCalled(table)).playing
    ensures a.attached ==> AlertAfter(a, WaiterCalled(table)).position == 0
  {
  }

  /** The dashboard's alert element. */
  class AlertSound {
    var attached: bool
    var playing: bool
    var looping: bool
    var position: nat

    function State(): AudioState
      reads this
    {
      AudioState(attached, playing, looping, position)
    }

    /** The ref starts empty (`useRef(null)`). */
    constructor ()
      ensures State() == AudioState(false, false, false, 0)
    {
      attached, playing, looping, position := false, false, false, 0;
    }

    /** The mount effect: a fresh, paused, non-looping element at position 0. */
    method Attach()
      modifies this
      ensures State() == AudioState(true, false, false, 0)
    {
      attached, playing, looping, position := true, false, false, 0;
    }

    /** The unmount cleanup: pause the element and empty the ref. */
    method Detach()
      modifies this
      ensures !State().attached && !State().playing
    {
      playing := false;
      attached := false;
    }

    method PlaySound()
      modifies this
      ensures State() == Play(old(State()))
    {
      if attached {
        position := 0;
        looping := true;
        playing := true;
      }
    }

    method StopSound()
      modifies this
      ensures State() == Stop(old(State()))
    {
      if attached {
        playing := false;
        position := 0;
      }
    }
  }
}
