/** One canonical reply through up to three Telegram renderings, with no resend after an unknown outcome. */
module UnifiedDelivery {
  import opened Wrappers
  import FinalDelivery

  const RICH_CAPABILITY_COOLDOWN_MS := 30 * 60 * 1000
  const MAX_MESSAGE := 4096

  datatype Mode = Rich | MarkdownV2 | Text
  datatype Attempt = Success | Permanent(disableCapability: bool) | Uncertain
  datatype Try = Try(mode: Mode, answer: Attempt)
  datatype Receipt = Sent(mode: Mode) | TooLarge | UnknownOutcome | Rejected

  /**
    A reply as the deliverer sees it: whether the chat is authorised, the normalised rich Markdown
    if the content wants and permits one, and the lengths that are checked against the wire limit.
   */
  datatype Reply = Reply(authorized: bool, needsRich: bool, normalizable: bool, renderedLength: nat, contentLength: nat)

  /** Telegram's answer to each rendering, should it be tried. */
  datatype Answers = Answers(rich: Attempt, markdown: Attempt, text: Attempt)

  /** Only the last try can have created a message. */
  ghost predicate StopsWhenUnsure(tried: seq<Try>) {
    forall i :: 0 <= i < |tried| - 1 ==> tried[i].answer.Permanent?
  }

  ghost predicate NothingCreated(tried: seq<Try>) {
    forall i :: 0 <= i < |tried| ==> tried[i].answer.Permanent?
  }

  ghost predicate InOrder(tried: seq<Try>) {
    && |tried| <= 3
    && forall i, j :: 0 <= i < j < |tried| ==> Rank(tried[i].mode) < Rank(tried[j].mode)
  }

  function Rank(m: Mode): nat { match m case Rich => 0 case MarkdownV2 => 1 case Text => 2 }

  /** Telegram's answer to a rendering. */
  function AnswerTo(mode: Mode, answers: Answers): Attempt {
    match mode
    case Rich => answers.rich
    case MarkdownV2 => answers.markdown
    case Text => answers.text
  }

  ghost predicate AsAnswered(tried: seq<Try>, answers: Answers) {
    forall i :: 0 <= i < |tried| ==> tried[i].answer == AnswerTo(tried[i].mode, answers)
  }

  ghost predicate Uses(tried: seq<Try>, mode: Mode) { exists i :: 0 <= i < |tried| && tried[i].mode == mode }

  lemma UsesMore(tried: seq<Try>, t: Try)
    ensures forall mode :: Uses(tried + [t], mode) <==> Uses(tried, mode) || t.mode == mode
  {
    var all := tried + [t];
    assert all[|tried|] == t && forall i :: 0 <= i < |tried| ==> all[i] == tried[i];
  }

  /**
    Which renderings of a reply are tried, if rich delivery is not paused or is: each behind the permanent
    refusal of the one before it, and the two of sendMessage within the wire limit.
   */
  ghost predicate Chosen(reply: Reply, answers: Answers, paused: bool, tried: seq<Try>) {
    && (Uses(tried, Rich) <==> reply.authorized && !paused && reply.needsRich && reply.normalizable)
    && (Uses(tried, MarkdownV2) <==>
          && reply.authorized && (Uses(tried, Rich) ==> answers.rich.Permanent?)
          && reply.renderedLength <= MAX_MESSAGE)
    && (Uses(tried, Text) <==>
          Uses(tried, MarkdownV2) && answers.markdown.Permanent? && reply.contentLength <= MAX_MESSAGE)
  }

  /** One rendering more, after others that created nothing. */
  lemma TryNext(tried: seq<Try>, t: Try, answers: Answers)
    requires AsAnswered(tried, answers) && t.answer == AnswerTo(t.mode, answers) && NothingCreated(tried) &&
               InOrder(tried) && |tried| < 3
    requires tried == [] || Rank(tried[|tried| - 1].mode) < Rank(t.mode)
    ensures AsAnswered(tried + [t], answers) && StopsWhenUnsure(tried + [t]) && InOrder(tried + [t]) &&
              (t.answer.Permanent? <==> NothingCreated(tried + [t]))
  {
    var all := tried + [t];
    assert all[|tried|] == t && forall i :: 0 <= i < |tried| ==> all[i] == tried[i];
  }

  lemma NothingTried()
    ensures NothingCreated([]) && InOrder([]) && StopsWhenUnsure([]) && forall answers :: AsAnswered([], answers)
    ensures forall mode :: !Uses([], mode)
  {
  }

  class Deliverer {
    var richDisabledUntil: int

    constructor ()
      ensures richDisabledUntil == 0
    {
      richDisabledUntil := 0;
    }

    /** began: the clock when delivery starts; later: the clock when a rich refusal is noted. */
    method Deliver(reply: Reply, answers: Answers, began: int, later: int) returns (r: Receipt, tried: seq<Try>)
      modifies this
      ensures StopsWhenUnsure(tried) && InOrder(tried)
      ensures Chosen(reply, answers, began < old(richDisabledUntil), tried)
      ensures r == TooLarge <==> reply.authorized && NothingCreated(tried) && !Uses(tried, Text)
      ensures r == Rejected <==> NothingCreated(tried) && (reply.authorized ==> Uses(tried, Text))
      ensures r.Sent? <==> tried != [] && tried[|tried| - 1].answer == Success
      ensures r.Sent? ==> tried[|tried| - 1].mode == r.mode
      ensures r == UnknownOutcome <==> tried != [] && tried[|tried| - 1].answer == Uncertain
      ensures !reply.authorized ==> tried == [] && r == Rejected
      ensures AsAnswered(tried, answers)
      ensures richDisabledUntil ==
              if tried != [] && tried[0] == Try(Rich, Permanent(true)) then later + RICH_CAPABILITY_COOLDOWN_MS
                  else old(richDisabledUntil)
    {
      hide StopsWhenUnsure, NothingCreated, InOrder, AsAnswered, Uses;
      tried := [];
      NothingTried();
      if !reply.authorized { return Rejected, tried; }
      if began >= richDisabledUntil && reply.needsRich && reply.normalizable {
        TryNext(tried, Try(Rich, answers.rich), answers);
        UsesMore(tried, Try(Rich, answers.rich));
        tried := tried + [Try(Rich, answers.rich)];
        match answers.rich
        case Success => return Sent(Rich), tried;
        case Uncertain => return UnknownOutcome, tried;
        case Permanent(disable) =>
          if disable { richDisabledUntil := later + RICH_CAPABILITY_COOLDOWN_MS; }
      }
      if reply.renderedLength > MAX_MESSAGE { return TooLarge, tried; }
      TryNext(tried, Try(MarkdownV2, answers.markdown), answers);
      UsesMore(tried, Try(MarkdownV2, answers.markdown));
      tried := tried + [Try(MarkdownV2, answers.markdown)];
      match answers.markdown
      case Success => return Sent(MarkdownV2), tried;
      case Uncertain => return UnknownOutcome, tried;
      case Permanent(_) =>
      if reply.contentLength > MAX_MESSAGE { return TooLarge, tried; }
      TryNext(tried, Try(Text, answers.text), answers);
      UsesMore(tried, Try(Text, answers.text));
      tried := tried + [Try(Text, answers.text)];
      match answers.text
      case Success => return Sent(Text), tried;
      case Uncertain => return UnknownOutcome, tried;
      case Permanent(_) => return Rejected, tried;
    }

    /**
      deliverFinal as a finished turn sees it; afterwards: whether the attachments that follow a sent
      text break with an exception. Only a size rejection promises that no message can exist: an
      exception after the text was sent reads as a rejection as well.
     */
    method DeliverFinal(reply: Reply, answers: Answers, began: int, later: int, afterwards: bool)
      returns (outcome: FinalDelivery.Outcome, tried: seq<Try>)
      modifies this
      ensures forall thread, kind :: Promised(FinalDelivery.Call(thread, kind, Some(outcome)), tried)
      ensures StopsWhenUnsure(tried) && InOrder(tried) && AsAnswered(tried, answers)
      ensures Chosen(reply, answers, began < old(richDisabledUntil), tried)
      ensures outcome == FinalDelivery.TooLarge <==> reply.authorized && NothingCreated(tried) && !Uses(tried, Text)
      ensures outcome == FinalDelivery.Delivered <==>
                tried != [] && tried[|tried| - 1].answer == Success && !afterwards
      ensures outcome == FinalDelivery.Uncertain <==> tried != [] && tried[|tried| - 1].answer == Uncertain
      ensures outcome == FinalDelivery.Rejected <==>
                || (NothingCreated(tried) && (reply.authorized ==> Uses(tried, Text)))
                || (afterwards && tried != [] && tried[|tried| - 1].answer == Success)
      ensures richDisabledUntil ==
              if tried != [] && tried[0] == Try(Rich, Permanent(true)) then later + RICH_CAPABILITY_COOLDOWN_MS
                  else old(richDisabledUntil)
    {
      hide StopsWhenUnsure, NothingCreated, InOrder, AsAnswered, Uses, Chosen;
      var receipt;
      receipt, tried := Deliver(reply, answers, began, later);
      match receipt
      case Sent(_) => outcome := if afterwards then FinalDelivery.Rejected else FinalDelivery.Delivered;
      case TooLarge => outcome := FinalDelivery.TooLarge;
      case UnknownOutcome => outcome := FinalDelivery.Uncertain;
      case Rejected => outcome := FinalDelivery.Rejected;
    }
  }

  // ----- the sends of a whole turn -----

  /** How many of these tries may have created a message. */
  function Possible(tried: seq<Try>): nat {
    if tried == [] then 0
    else Possible(tried[..|tried| - 1]) + if tried[|tried| - 1].answer.Permanent? then 0 else 1
  }

  function PossibleIn(tries: seq<seq<Try>>): nat {
    if tries == [] then 0 else PossibleIn(tries[..|tries| - 1]) + Possible(tries[|tries| - 1])
  }

  lemma {:induction false} NothingPossible(tried: seq<Try>)
    requires NothingCreated(tried)
    ensures Possible(tried) == 0
  {
    if tried != [] { NothingPossible(tried[..|tried| - 1]); }
  }

  lemma OnePossible(tried: seq<Try>)
    requires StopsWhenUnsure(tried)
    ensures Possible(tried) <= 1
  {
    if tried != [] { NothingPossible(tried[..|tried| - 1]); }
  }

  /** What a delivery promises of its renderings, finished or still under way. */
  ghost predicate Promised(call: FinalDelivery.Call, tried: seq<Try>) {
    StopsWhenUnsure(tried) && (call.outcome == Some(FinalDelivery.TooLarge) ==> NothingCreated(tried))
  }

  /** Deliveries of which only the last can have created anything. */
  lemma {:induction false} PossibleOnce(calls: seq<FinalDelivery.Call>, tries: seq<seq<Try>>)
    requires |tries| == |calls| && forall i :: 0 <= i < |calls| ==> Promised(calls[i], tries[i])
    requires FinalDelivery.AtMostOneSend(calls)
    ensures PossibleIn(tries) <= 1
    ensures FinalDelivery.NothingSent(calls) ==> PossibleIn(tries) == 0
  {
    if calls != [] {
      var n := |calls| - 1;
      assert forall i :: 0 <= i < n ==> calls[..n][i] == calls[i] && tries[..n][i] == tries[i];
      assert FinalDelivery.NothingSent(calls[..n]);
      PossibleOnce(calls[..n], tries[..n]);
      assert Promised(calls[n], tries[n]);
      OnePossible(tries[n]);
      if calls[n].outcome == Some(FinalDelivery.TooLarge) { NothingPossible(tries[n]); }
    }
  }

  /**
    At most one message. Over every interleaving of a turn's hooks and whatever Telegram answers, of all
    the renderings sent by all its final deliveries at most one may have created a message, and none
    while a retry is offered.
   */
  lemma AtMostOneMessage(killed: bool, events: seq<FinalDelivery.Event>, tries: seq<seq<Try>>)
    requires var calls := FinalDelivery.Run(FinalDelivery.Init(killed), events).calls;
      |tries| == |calls| && forall i :: 0 <= i < |calls| ==> Promised(calls[i], tries[i])
    ensures PossibleIn(tries) <= 1
    ensures !FinalDelivery.Run(FinalDelivery.Init(killed), events).turn.finalDeliveryAttempted ==>
              PossibleIn(tries) == 0
  {
    FinalDelivery.RunKeepsInv(killed, events);
    PossibleOnce(FinalDelivery.Run(FinalDelivery.Init(killed), events).calls, tries);
  }
}
