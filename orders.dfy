/**
 * Orders as the server broadcasts them, the status values they carry and the
 * one-step forward map that the staff dashboards use to advance an order.
 */
module Orders {
  import opened Wrappers

  /** The four status values of the order store. */
  datatype Status = Pending | InProgress | Completed | Cancelled

  /** The wire spelling of each status. */
  function StatusName(s: Status): string {
    match s
    case Pending => "Pending"
    case InProgress => "In Progress"
    case Completed => "Completed"
    case Cancelled => "Cancelled"
  }

  /** Distinct statuses have distinct wire spellings, so storing the spelling loses nothing. */
  lemma StatusNameInjective(a: Status, b: Status)
    ensures StatusName(a) == StatusName(b) <==> a == b
  {
    if a != b {
      assert StatusName(a)[1] != StatusName(b)[1];
    }
  }

  /** `Completed` and `Cancelled` end an order's life. */
  predicate IsTerminal(s: Status) {
    s == Completed || s == Cancelled
  }

  /** Comparing the wire spelling with "Completed" and "Cancelled" recognises exactly the terminal statuses. */
  lemma TerminalByName(s: Status)
    ensures IsTerminal(s) <==> StatusName(s) == "Completed" || StatusName(s) == "Cancelled"
  {
    StatusNameInjective(s, Completed);
    StatusNameInjective(s, Cancelled);
  }

  /** Position on the forward path Pending < In Progress < Completed. */
  function Rank(s: Status): nat
    requires s != Cancelled
  {
    match s
    case Pending => 0
    case InProgress => 1
    case Completed => 2
  }

  /**
   * The status that "advance" asks for: Pending goes to In Progress, In Progress
   * to Completed, and every other status has no next step.
   */
  function NextStatus(current: Status): (next: Option<Status>)
    ensures next.Some? <==> current == Pending || current == InProgress
    ensures next.Some? ==> next.value != Cancelled && Rank(next.value) == Rank(current) + 1
  {
    if current == Pending then Some(InProgress)
    else if current == InProgress then Some(Completed)
    else None
  }

  /** An option the customer chose, as the cart and the order record carry it. */
  datatype ChosenOption = ChosenOption(groupName: string, optionName: string, price: int)

  /** One ordered line: unit price (options included) and quantity. */
  datatype OrderLine = OrderLine(menuItemId: string, name: string, quantity: int, price: int,
                                 selectedOptions: seq<ChosenOption>)

  /** An order snapshot; `rating` is absent until the customer rates the order. */
  datatype Order = Order(id: string, customerName: string, tableNumber: string,
                         items: seq<OrderLine>, notes: string, totalPrice: int,
                         status: Status, rating: Option<int>, ratingComment: string)

  /** The order total as the record's invariant defines it: the sum of quantity times unit price. */
  function LinesTotal(lines: seq<OrderLine>): int {
    if lines == [] then 0 else lines[0].quantity * lines[0].price + LinesTotal(lines[1..])
  }

  /** The total of a concatenation is the sum of the totals. */
  lemma {:induction false} LinesTotalAppend(a: seq<OrderLine>, b: seq<OrderLine>)
    ensures LinesTotal(a + b) == LinesTotal(a) + LinesTotal(b)
  {
    if a == [] {
      assert a + b == b;
    } else {
      assert (a + b)[1..] == a[1..] + b;
      LinesTotalAppend(a[1..], b);
    }
  }
}
