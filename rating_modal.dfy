/**
 * The customer's rating dialog: five star buttons with a hover preview, an
 * optional comment, and a submit that refuses an unrated order.
 */
module RatingForm {
  import opened Wrappers
  import OrderBoard

  /** The line the dialog shows instead of the stars once something happened. */
  datatype RatingMessage = NoMessage | SelectRating | ThankYou | RateFailed(serverMessage: Option<string>)

  /** The body of `PUT /orders/{id}/rate`. */
  datatype RateRequest = RateRequest(orderId: string, rating: int, ratingComment: string)

  /**
   * Star `k` (from 1) is highlighted when `k` is at most the hovered star, or,
   * with no star hovered, at most the chosen rating.
   */
  function StarOn(k: int, hover: int, rating: int): (on: bool)
    ensures hover == 0 ==> (on <==> k <= rating)
    ensures hover != 0 ==> (on <==> k <= hover)
  {
    k <= (if hover != 0 then hover else rating)
  }

  /** The five buttons' highlighting, left to right. */
  function StarButtons(hover: int, rating: int): (row: seq<bool>)
    ensures |row| == 5
    ensures forall i :: 0 <= i < 5 ==> row[i] == StarOn(i + 1, hover, rating)
  {
    seq(5, i => StarOn(i + 1, hover, rating))
  }

  /**
   * Without a hover, the row the customer sees when choosing rating `r` is the
   * row the kitchen board shows for an order rated `r`.
   */
  lemma ChosenRowMatchesBoard(r: int)
    requires 1 <= r <= 5
    ensures OrderBoard.StarRow(Some(r)) == Some(StarButtons(0, r))
  {
    var board := OrderBoard.StarRow(Some(r)).value;
    var modal := StarButtons(0, r);
    forall i | 0 <= i < 5 ensures board[i] == modal[i] {
      assert board[i] == (i < r);
    }
    assert board == modal;
  }

  /** What the dialog remembers between renders. */
  datatype Dialog = Dialog(orderId: string, rating: int, hover: int, comment: string, message: RatingMessage)

  /** One thing the customer does with the dialog's controls. */
  datatype Input = Star(k: int) | Hover(k: int) | Unhover | Type(text: string)
                 | Send(succeeded: bool, serverMessage: Option<string>)

  /** The dialog after one input, and the rating request it sent, if any. */
  datatype Outcome = Outcome(dialog: Dialog, sent: Option<RateRequest>)

  /** The dialog after a run of inputs, and every request sent on the way. */
  datatype Session = Session(dialog: Dialog, sent: seq<RateRequest>)

  /**
   * What each control's handler does: the star buttons set the rating and the
   * hover, the text box the comment, and the send button runs `submitRating`,
   * whose server answer is part of the input.
   */
  function Act(d: Dialog, i: Input): (r: Outcome)
    ensures r.dialog.orderId == d.orderId
    ensures r.sent.Some? <==> i.Send? && d.rating != 0
    ensures r.sent.Some? ==> r.sent.value == RateRequest(d.orderId, d.rating, d.comment)
    ensures i.Send? && d.rating == 0 ==> r.dialog == d.(message := SelectRating)
    ensures i.Send? && d.rating != 0 ==>
              r.dialog == d.(message := if i.succeeded then ThankYou else RateFailed(Truthy(i.serverMessage)))
    ensures !i.Send? ==> r.dialog.message == d.message
  {
    match i
    case Star(k) => Outcome(d.(rating := k), None)
    case Hover(k) => Outcome(d.(hover := k), None)
    case Unhover => Outcome(d.(hover := 0), None)
    case Type(text) => Outcome(d.(comment := text), None)
    case Send(succeeded, serverMessage) =>
      if d.rating == 0 then Outcome(d.(message := SelectRating), None)
      else
        var message := if succeeded then ThankYou else RateFailed(Truthy(serverMessage));
        Outcome(d.(message := message), Some(RateRequest(d.orderId, d.rating, d.comment)))
  }

  /**
   * Which message leaves the controls on screen. As written, the dialog body
   * shows either the message or the controls, so any message hides them;
   * the intended dialog hides them only behind the thanks.
   */
  datatype Layout = AsWritten | Intended

  predicate ControlsShown(layout: Layout, m: RatingMessage)
  {
    match layout
    case AsWritten => m == NoMessage
    case Intended => m != ThankYou
  }

  /** An input reaches its handler only while the controls are on screen. */
  function Step(layout: Layout, d: Dialog, i: Input): (r: Outcome)
    ensures !ControlsShown(layout, d.message) ==> r == Outcome(d, None)
    ensures ControlsShown(layout, d.message) ==> r == Act(d, i)
  {
    if ControlsShown(layout, d.message) then Act(d, i) else Outcome(d, None)
  }

  /** A run of inputs, with no success timer firing in between. */
  function Run(layout: Layout, d: Dialog, inputs: seq<Input>): (r: Session)
    ensures |r.sent| <= |inputs|
    decreases |inputs|
  {
    if inputs == [] then Session(d, [])
    else
      var first := Step(layout, d, inputs[0]);
      var rest := Run(layout, first.dialog, inputs[1..]);
      Session(rest.dialog, (if first.sent.Some? then [first.sent.value] else []) + rest.sent)
  }

  /** Once the controls are hidden, no input changes the dialog or sends anything. */
  lemma {:induction false} HiddenControlsIgnoreInput(layout: Layout, d: Dialog, inputs: seq<Input>)
    requires !ControlsShown(layout, d.message)
    ensures Run(layout, d, inputs) == Session(d, [])
    decreases |inputs|
  {
    if inputs != [] {
      HiddenControlsIgnoreInput(layout, d, inputs[1..]);
    }
  }

  /**
   * As written, pressing send with no star chosen ends the dialog's use: the
   * prompt replaces the stars, and whatever the customer does next, no rating
   * is ever sent.
   */
  lemma UnratedSendIsFinal(d: Dialog, succeeded: bool, serverMessage: Option<string>, inputs: seq<Input>)
    requires ControlsShown(AsWritten, d.message) && d.rating == 0
    ensures Run(AsWritten, d, [Send(succeeded, serverMessage)] + inputs).sent == []
  {
    var all := [Send(succeeded, serverMessage)] + inputs;
    assert all[1..] == inputs;
    HiddenControlsIgnoreInput(AsWritten, d.(message := SelectRating), inputs);
  }

  /** As written, a failed send ends it too: the failure line replaces the stars. */
  lemma FailedSendIsFinal(d: Dialog, serverMessage: Option<string>, inputs: seq<Input>)
    requires ControlsShown(AsWritten, d.message) && d.rating != 0
    ensures Run(AsWritten, d, [Send(false, serverMessage)] + inputs).sent
            == [RateRequest(d.orderId, d.rating, d.comment)]
  {
    var all := [Send(false, serverMessage)] + inputs;
    assert all[1..] == inputs;
    HiddenControlsIgnoreInput(AsWritten, d.(message := RateFailed(Truthy(serverMessage))), inputs);
  }

  /**
   * In the intended dialog the prompt and the failure line sit above the live
   * controls: from any dialog not yet thanked, choosing star `k` and sending
   * sends exactly that rating.
   */
  lemma IntendedRecovers(d: Dialog, k: int, succeeded: bool, serverMessage: Option<string>)
    requires ControlsShown(Intended, d.message) && 1 <= k <= 5
    ensures Run(Intended, d, [Star(k), Send(succeeded, serverMessage)]).sent
            == [RateRequest(d.orderId, k, d.comment)]
  {
    var d1 := d.(rating := k);
    assert Step(Intended, d, Star(k)) == Outcome(d1, None);
    assert [Star(k), Send(succeeded, serverMessage)][1..] == [Send(succeeded, serverMessage)];
    assert Run(Intended, d1, [Send(succeeded, serverMessage)]).sent == [RateRequest(d.orderId, k, d.comment)] by {
      assert [Send(succeeded, serverMessage)][1..] == [];
    }
  }

  /** The intended dialog still sends a rating at most once: after the thanks, input is ignored. */
  lemma IntendedThanksIsFinal(d: Dialog, inputs: seq<Input>)
    requires d.message == ThankYou
    ensures Run(Intended, d, inputs) == Session(d, [])
  {
    HiddenControlsIgnoreInput(Intended, d, inputs);
  }

  class RatingModal {
    const orderId: string
    var rating: int
    var hover: int
    var comment: string
    var message: RatingMessage
    var closeRequested: bool

    /** Rating and hover are a star number, or 0 for none. */
    ghost predicate Valid()
      reads this
    {
      0 <= rating <= 5 && 0 <= hover <= 5
    }

    /** The dialog's state as a value. */
    function Snapshot(): (d: Dialog)
      reads this
      ensures d.orderId == orderId && d.rating == rating && d.hover == hover
      ensures d.comment == comment && d.message == message
    {
      Dialog(orderId, rating, hover, comment, message)
    }

    constructor (orderId: string)
      ensures this.orderId == orderId && rating == 0 && hover == 0 && comment == ""
      ensures message == NoMessage && !closeRequested && Valid()
    {
      this.orderId := orderId;
      rating, hover, comment := 0, 0, "";
      message := NoMessage;
      closeRequested := false;
    }

    /** Clicking star `k` chooses rating `k`; the stars are there only while no message is. */
    method ClickStar(k: int)
      requires Valid() && 1 <= k <= 5 && message == NoMessage
      modifies this`rating
      ensures Valid() && rating == k
      ensures Snapshot() == Act(old(Snapshot()), Star(k)).dialog
    {
      rating := k;
    }

    /** Entering star `k` previews it. */
    method EnterStar(k: int)
      requires Valid() && 1 <= k <= 5 && message == NoMessage
      modifies this`hover
      ensures Valid() && hover == k
      ensures Snapshot() == Act(old(Snapshot()), Hover(k)).dialog
    {
      hover := k;
    }

    /** Leaving a star ends the preview. */
    method LeaveStar()
      requires Valid() && message == NoMessage
      modifies this`hover
      ensures Valid() && hover == 0
      ensures Snapshot() == Act(old(Snapshot()), Unhover).dialog
    {
      hover := 0;
    }

    /** Typing in the comment box, which is there only while no message is. */
    method EditComment(text: string)
      requires message == NoMessage
      modifies this`comment
      ensures comment == text
      ensures Snapshot() == Act(old(Snapshot()), Type(text)).dialog
    {
      comment := text;
    }

    /**
     * `submitRating`: with no star chosen it asks for one and sends nothing;
     * otherwise it sends the rating and comment, then thanks the customer or
     * shows the failure. The button is there only while no message is.
     */
    method SubmitRating(succeeded: bool, serverMessage: Option<string>) returns (request: Option<RateRequest>)
      requires Valid() && message == NoMessage
      modifies this`message
      ensures Valid()
      ensures Snapshot() == Act(old(Snapshot()), Send(succeeded, serverMessage)).dialog
      ensures request == Act(old(Snapshot()), Send(succeeded, serverMessage)).sent
      ensures request.None? <==> rating == 0
      ensures rating == 0 ==> message == SelectRating
      ensures request.Some? ==> request.value == RateRequest(orderId, rating, comment)
                                && 1 <= request.value.rating <= 5
      ensures request.Some? && succeeded ==> message == ThankYou
      ensures request.Some? && !succeeded ==> message == RateFailed(Truthy(serverMessage))
    {
      if rating == 0 {
        message := SelectRating;
        return None;
      }
      request := Some(RateRequest(orderId, rating, comment));
      if succeeded {
        message := ThankYou;
      } else {
        message := RateFailed(Truthy(serverMessage));
      }
    }

    /** The timer a successful submit starts: close the dialog and clear it for next time. */
    method ThanksTimeout()
      requires Valid()
      modifies this
      ensures Valid()
      ensures closeRequested && message == NoMessage && rating == 0 && comment == ""
      ensures hover == old(hover)
    {
      closeRequested := true;
      message := NoMessage;
      rating := 0;
      comment := "";
    }
  }
}
