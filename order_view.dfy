/**
 * The kitchen board: the order list split into the Pending, In Progress and
 * Completed columns, the advance button each card offers, and the star row
 * shown on rated orders.
 */
module OrderBoard {
  import opened Wrappers
  import opened Orders
  import opened OrderFeed

  /**
   * `orders.filter(o => o.status === s)`: every order with that status, as
   * often as the list holds it, and no other.
   */
  function Column(orders: seq<Order>, s: Status): (col: seq<Order>)
    ensures |col| <= |orders|
    ensures forall o :: o in col <==> o in orders && o.status == s
  {
    if orders == [] then []
    else
      var head := if orders[0].status == s then [orders[0]] else [];
      head + Column(orders[1..], s)
  }

  /** A column holds each order of its status as often as the list does. */
  lemma {:induction false} ColumnMultiplicity(orders: seq<Order>, s: Status)
    ensures forall o :: multiset(Column(orders, s))[o] == if o.status == s then multiset(orders)[o] else 0
  {
    if orders != [] {
      ColumnMultiplicity(orders[1..], s);
      assert orders == [orders[0]] + orders[1..];
    }
  }

  /** The filter works order by order, so a column keeps the list's order. */
  lemma {:induction false} ColumnKeepsOrder(a: seq<Order>, b: seq<Order>, s: Status)
    ensures Column(a + b, s) == Column(a, s) + Column(b, s)
  {
    if a == [] {
      assert a + b == b;
    } else {
      assert (a + b)[1..] == a[1..] + b;
      ColumnKeepsOrder(a[1..], b, s);
    }
  }

  /** The three columns in board order. */
  function Columns(orders: seq<Order>): (cols: (seq<Order>, seq<Order>, seq<Order>)) {
    (Column(orders, Pending), Column(orders, InProgress), Column(orders, Completed))
  }

  /** No order sits in two columns, and no cancelled order sits in any. */
  lemma ColumnsDisjoint(orders: seq<Order>, o: Order)
    ensures o in Columns(orders).0 ==> o.status == Pending
    ensures o in Columns(orders).1 ==> o.status == InProgress
    ensures o in Columns(orders).2 ==> o.status == Completed
    ensures o.status == Cancelled ==> o !in Columns(orders).0 && o !in Columns(orders).1 && o !in Columns(orders).2
  {
  }

  /**
   * The column headers count every order that is not cancelled exactly once:
   * the three counts and the cancelled ones add up to the list's length.
   */
  lemma {:induction false} ColumnCountsPartition(orders: seq<Order>)
    ensures |Column(orders, Pending)| + |Column(orders, InProgress)| + |Column(orders, Completed)|
            + |Column(orders, Cancelled)| == |orders|
  {
    if orders != [] {
      var rest := orders[1..];
      ColumnCountsPartition(rest);
    }
  }

  /** The status-advance call a card offers: Pending and In Progress cards pass their own id and status; Completed cards offer none. */
  function CardAdvance(o: Order): (call: Option<(string, Status)>)
    ensures call.Some? <==> o.status in {Pending, InProgress}
    ensures call.Some? ==> call.value == (o.id, o.status)
  {
    if o.status == Pending || o.status == InProgress then Some((o.id, o.status)) else None
  }

  /** Every advance button on the board produces a request, one step forward, for that card. */
  lemma BoardAdvanceAlwaysSends(orders: seq<Order>, o: Order)
    requires o in Columns(orders).0 || o in Columns(orders).1
    ensures CardAdvance(o).Some?
    ensures AdvanceRequest(CardAdvance(o).value.0, CardAdvance(o).value.1).Some?
    ensures AdvanceRequest(o.id, o.status).value.orderId == o.id
  {
  }

  /** The deletes a board can send: one order by id, or every order. */
  datatype DeleteRequest = DeleteOne(orderId: string) | DeleteAll

  /**
   * The card's delete button and the header's delete-all button: each sends
   * its request only once the confirmation dialog is accepted.
   */
  function DeleteRequestFor(target: Option<string>, confirmed: bool): (r: Option<DeleteRequest>)
    ensures r.Some? <==> confirmed
    ensures confirmed && target.Some? ==> r == Some(DeleteOne(target.value))
    ensures confirmed && target.None? ==> r == Some(DeleteAll)
  {
    if !confirmed then None
    else match target
      case Some(id) => Some(DeleteOne(id))
      case None => Some(DeleteAll)
  }

  /** The delete-all button is shown only when there is something to delete. */
  function ShowsDeleteAll(orders: seq<Order>): (shown: bool)
    ensures shown <==> exists o :: o in orders
  {
    assert orders != [] ==> orders[0] in orders;
    |orders| > 0
  }

  /**
   * `StarRating`: nothing for a missing or zero rating, otherwise five stars
   * where star `i` (from 0) is lit exactly when `i < rating`.
   */
  function StarRow(rating: Option<int>): (stars: Option<seq<bool>>)
    ensures stars.None? <==> rating.None? || rating.value == 0
    ensures stars.Some? ==> |stars.value| == 5 && forall i :: 0 <= i < 5 ==> stars.value[i] == (i < rating.value)
  {
    match rating
    case None => None
    case Some(r) => if r == 0 then None else Some(seq(5, i => i < r))
  }

  /** How many stars of a row are lit. */
  function LitCount(stars: seq<bool>): nat {
    if stars == [] then 0 else (if stars[0] then 1 else 0) + LitCount(stars[1..])
  }

  /** In a row of lit-then-unlit stars, the lit count is the boundary. */
  lemma {:induction false} LitCountPrefix(stars: seq<bool>, r: int)
    requires forall i :: 0 <= i < |stars| ==> stars[i] == (i < r)
    ensures LitCount(stars) == if r <= 0 then 0 else if r >= |stars| then |stars| else r
    decreases |stars|
  {
    if stars != [] {
      LitCountPrefix(stars[1..], r - 1);
    }
  }

  /** A rated order shows as many lit stars as its rating, clamped to the row of five. */
  lemma StarRowLitCount(r: int)
    requires r != 0
    ensures StarRow(Some(r)).Some?
    ensures LitCount(StarRow(Some(r)).value) == if r < 0 then 0 else if r > 5 then 5 else r
  {
    LitCountPrefix(StarRow(Some(r)).value, r);
  }
}
