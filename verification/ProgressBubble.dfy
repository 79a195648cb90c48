/**
  The progress bubble of one turn: a chain of flushes that edit or send one Telegram message, cut
  at their awaits, so that a phase switch or a drop can land while a call is in flight.
 */
module ProgressBubble {
  import opened Wrappers

  type Text = string

  /** Unknown is terminal for a phase: a message may exist. Abandoned ends disclosure. */
  datatype BubbleState = NoBubble | Have | Unknown | Abandoned
  datatype Phase = Foreground | BackgroundAgents

  datatype SendOutcome = Sent(messageId: nat) | SendUncertain | SendRefused
  datatype EditOutcome = EditedOk | Transient | Throttled | Gone | EditRefused

  /** A transport call in the order it was issued, with its answer once there is one. */
  datatype Call =
    | Send(phase: Phase, text: Text, sendOutcome: Option<SendOutcome>)
    | Edit(phase: Phase, messageId: nat, text: Text, editOutcome: Option<EditOutcome>)

  datatype Flight = Idle | AwaitEdit(text: Text) | AwaitSend(text: Text)

  /** What a flush sees when it starts. */
  datatype Visible = Visible(hasSteps: bool, text: Text, authorized: bool)

  datatype View = View(
    phase: Phase, bubble: Option<nat>, state: BubbleState, replacementUsed: bool,
    lastSent: Option<Text>, queued: nat, flight: Flight, calls: seq<Call>)

  datatype Event =
    | Enqueue
    | BeginFlush(visible: Visible)
    | EditAnswer(edit: EditOutcome)
    | SendAnswer(send: SendOutcome)
    | OpenBackground
    | Drop

  function Init(): View { View(Foreground, None, NoBubble, false, None, 0, Idle, []) }

  // ----- the meaning of each segment -----

  function IssueSend(v: View, text: Text): View {
    v.(flight := AwaitSend(text), calls := v.calls + [Send(v.phase, text, None)])
  }

  function IssueEdit(v: View, id: nat, text: Text): View {
    v.(flight := AwaitEdit(text), calls := v.calls + [Edit(v.phase, id, text, None)])
  }

  function Begin(v: View, visible: Visible): View {
    if v.flight != Idle || v.queued == 0 then v
    else
      var w := v.(queued := v.queued - 1);
      if w.state in {Unknown, Abandoned} || !visible.hasSteps then w
      else if !visible.authorized then w.(state := Abandoned)
      else if w.lastSent == Some(visible.text) then w
      else if w.state == Have && w.bubble.Some? then IssueEdit(w, w.bubble.value, visible.text)
      else IssueSend(w, visible.text)
  }

  function AnswerEdit(v: View, o: EditOutcome): View {
    if !v.flight.AwaitEdit? || v.calls == [] || !v.calls[|v.calls| - 1].Edit? then v
    else
      var text := v.flight.text;
      var w := v.(flight := Idle, calls := v.calls[|v.calls| - 1 := v.calls[|v.calls| - 1].(editOutcome := Some(o))]);
      match o
      case EditedOk => w.(lastSent := Some(text))
      case Transient => w
      case Gone =>
        if w.replacementUsed then w.(state := Abandoned)
        else IssueSend(w.(replacementUsed := true, state := NoBubble, bubble := None), text)
      case _ => w.(state := Abandoned)
  }

  function AnswerSend(v: View, o: SendOutcome): View {
    if !v.flight.AwaitSend? || v.calls == [] || !v.calls[|v.calls| - 1].Send? then v
    else
      var text := v.flight.text;
      var w := v.(flight := Idle, calls := v.calls[|v.calls| - 1 := v.calls[|v.calls| - 1].(sendOutcome := Some(o))]);
      match o
      case Sent(id) => w.(bubble := Some(id), state := Have, lastSent := Some(text))
      case SendUncertain => w.(state := Unknown)
      case SendRefused => w.(state := Abandoned)
  }

  /** beginBackgroundAgentDisclosure resets the bubble and queues a flush, once. */
  function SwitchPhase(v: View): View {
    if v.phase == BackgroundAgents then v
    else v.(phase := BackgroundAgents, bubble := None, state := NoBubble, replacementUsed := false, lastSent := None,
        queued := v.queued + 1)
  }

  function Step(v: View, e: Event): View {
    match e
    case Enqueue => v.(queued := v.queued + 1)
    case BeginFlush(visible) => Begin(v, visible)
    case EditAnswer(o) => AnswerEdit(v, o)
    case SendAnswer(o) => AnswerSend(v, o)
    case OpenBackground => SwitchPhase(v)
    case Drop => v.(state := Abandoned)
  }

  function Run(events: seq<Event>): View {
    if events == [] then Init() else Step(Run(events[..|events| - 1]), events[|events| - 1])
  }

  // ----- the turn object -----

  class BubbleTurn {
    var phase: Phase
    var bubbleMessageId: Option<nat>
    var state: BubbleState
    var replacementUsed: bool
    var lastSentText: Option<Text>
    var queued: nat
    var flight: Flight
    var calls: seq<Call>

    constructor ()
      ensures Now() == Init()
    {
      phase, bubbleMessageId, state, replacementUsed := Foreground, None, NoBubble, false;
      lastSentText, queued, flight, calls := None, 0, Idle, [];
    }

    function Now(): View
      reads this
    {
      View(phase, bubbleMessageId, state, replacementUsed, lastSentText, queued, flight, calls)
    }

    method EnqueueFlush()
      modifies this
      ensures Now() == Step(old(Now()), Enqueue)
    {
      queued := queued + 1;
    }

    /** The next flush of the chain, up to its first transport call or its early return. */
    method StartFlush(visible: Visible)
      requires flight == Idle && queued > 0
      modifies this
      ensures Now() == Step(old(Now()), BeginFlush(visible))
    {
      queued := queued - 1;
      if state == Unknown || state == Abandoned { return; }
      if !visible.hasSteps { return; }
      if !visible.authorized {
        state := Abandoned;
        return;
      }
      if lastSentText == Some(visible.text) { return; }
      if state == Have && bubbleMessageId.Some? {
        flight := AwaitEdit(visible.text);
        calls := calls + [Edit(phase, bubbleMessageId.value, visible.text, None)];
      } else {
        SendBubble(visible.text);
      }
    }

    method SendBubble(text: Text)
      modifies this`flight, this`calls
      ensures flight == AwaitSend(text) && calls == old(calls) + [Send(phase, text, None)]
    {
      flight, calls := AwaitSend(text), calls + [Send(phase, text, None)];
    }

    /** The flush resumes after its edit; a bubble that is gone is replaced at most once. */
    method ResumeAfterEdit(outcome: EditOutcome)
      requires flight.AwaitEdit? && calls != [] && calls[|calls| - 1].Edit?
      modifies this
      ensures Now() == Step(old(Now()), EditAnswer(outcome))
    {
      var text := flight.text;
      flight, calls := Idle, calls[|calls| - 1 := calls[|calls| - 1].(editOutcome := Some(outcome))];
      if outcome == EditedOk {
        lastSentText := Some(text);
        return;
      }
      if outcome == Transient { return; }
      if outcome == Gone && !replacementUsed {
        replacementUsed, state, bubbleMessageId := true, NoBubble, None;
        SendBubble(text);
        return;
      }
      state := Abandoned;
    }

    method ResumeAfterSend(outcome: SendOutcome)
      requires flight.AwaitSend? && calls != [] && calls[|calls| - 1].Send?
      modifies this
      ensures Now() == Step(old(Now()), SendAnswer(outcome))
    {
      var text := flight.text;
      flight, calls := Idle, calls[|calls| - 1 := calls[|calls| - 1].(sendOutcome := Some(outcome))];
      match outcome
      case Sent(id) => bubbleMessageId, state, lastSentText := Some(id), Have, Some(text);
      case SendUncertain => state := Unknown;
      case SendRefused => state := Abandoned;
    }

    method BeginBackground()
      modifies this
      ensures Now() == Step(old(Now()), OpenBackground)
    {
      if phase == BackgroundAgents { return; }
      phase := BackgroundAgents;
      bubbleMessageId, state, replacementUsed, lastSentText := None, NoBubble, false, None;
      EnqueueFlush();
    }

    method DropTurn()
      modifies this
      ensures Now() == Step(old(Now()), Drop)
    {
      state := Abandoned;
    }
  }

  // ----- what every reachable state satisfies -----

  function Sends(calls: seq<Call>, ph: Phase): nat {
    if calls == [] then 0
    else Sends(calls[..|calls| - 1], ph) + if calls[|calls| - 1].Send? && calls[|calls| - 1].phase == ph then 1 else 0
  }

  ghost predicate IsUnsure(c: Call, ph: Phase) { c.Send? && c.phase == ph && c.sendOutcome == Some(SendUncertain) }

  /** A further send of a phase comes right after an edit that was answered "gone". */
  ghost predicate SecondAfterGone(calls: seq<Call>) {
    forall i, j :: 0 <= i < j < |calls| && calls[i].Send? && calls[j].Send? && calls[i].phase == calls[j].phase ==>
        AfterGone(calls, j)
  }

  ghost predicate AfterGone(calls: seq<Call>, j: nat)
    requires 0 < j <= |calls|
  {
    calls[j - 1].Edit? && calls[j - 1].editOutcome == Some(Gone)
  }

  ghost predicate NoSendAfterUnsure(calls: seq<Call>) {
    forall i, j :: 0 <= i < j < |calls| && IsUnsure(calls[i], calls[i].phase) && calls[j].Send? ==>
        calls[j].phase != calls[i].phase
  }

  ghost predicate NoUnsure(calls: seq<Call>, ph: Phase) { forall c :: c in calls ==> !IsUnsure(c, ph) }

  ghost predicate Inv(v: View) {
    && (v.phase == Foreground ==> Sends(v.calls, BackgroundAgents) == 0)
    && Sends(v.calls, Foreground) <= 2
    && Budget(v)
    && (v.state == Have ==> v.bubble.Some?)
    && FlightMatches(v)
    && SecondAfterGone(v.calls)
    && NoSendAfterUnsure(v.calls)
    && (NoUnsure(v.calls, v.phase) || (v.flight == Idle && v.state in {Unknown, Abandoned}))
  }

  /** The sends of the current phase plus those it may still issue never exceed two. */
  ghost predicate Budget(v: View) {
    && (v.state == NoBubble && !v.flight.AwaitSend? ==> !v.replacementUsed && Sends(v.calls, v.phase) == 0)
    && Sends(v.calls, v.phase) + (if v.replacementUsed then 0 else 1) <= 2
  }

  ghost predicate FlightMatches(v: View) {
    && (v.flight.AwaitSend? <==>
          v.calls != [] && v.calls[|v.calls| - 1].Send? && v.calls[|v.calls| - 1].sendOutcome == None)
    && (v.flight.AwaitEdit? ==> v.calls != [] && v.calls[|v.calls| - 1].Edit?)
  }

  lemma SendsAppend(calls: seq<Call>, c: Call, ph: Phase)
    ensures Sends(calls + [c], ph) == Sends(calls, ph) + if c.Send? && c.phase == ph then 1 else 0
  {
    assert (calls + [c])[..|calls|] == calls;
  }

  lemma {:induction false} SendsZero(calls: seq<Call>, ph: Phase)
    requires Sends(calls, ph) == 0
    ensures forall c :: c in calls && c.Send? ==> c.phase != ph
  {
    if calls != [] {
      SendsZero(calls[..|calls| - 1], ph);
      assert calls == calls[..|calls| - 1] + [calls[|calls| - 1]];
    }
  }

  /** Recording the answer of the newest call changes no count. */
  lemma SendsAnswered(calls: seq<Call>, c: Call, ph: Phase)
    requires calls != [] && c.Send? == calls[|calls| - 1].Send? && c.phase == calls[|calls| - 1].phase
    ensures Sends(calls[|calls| - 1 := c], ph) == Sends(calls, ph)
  {
    assert calls[|calls| - 1 := c][..|calls| - 1] == calls[..|calls| - 1];
  }

  lemma HistoryAfterEdit(calls: seq<Call>, c: Call, ph: Phase)
    requires c.Edit? && SecondAfterGone(calls) && NoSendAfterUnsure(calls)
    ensures SecondAfterGone(calls + [c]) && NoSendAfterUnsure(calls + [c])
    ensures NoUnsure(calls, ph) ==> NoUnsure(calls + [c], ph)
  {
    hide AfterGone, IsUnsure;
    var all := calls + [c];
    forall i, j | 0 <= i < j < |all| && all[i].Send? && all[j].Send? && all[i].phase == all[j].phase
      ensures AfterGone(all, j)
    {
      assert all[i] == calls[i] && all[j] == calls[j];
      GoneStays(calls, all, j);
    }
    EditIsSure(c, ph);
  }

  lemma EditIsSure(c: Call, ph: Phase)
    ensures c.Edit? ==> !IsUnsure(c, ph)
    ensures c.Send? && c.sendOutcome == None ==> !IsUnsure(c, ph)
  {
  }

  lemma GoneStays(calls: seq<Call>, all: seq<Call>, j: nat)
    requires 0 < j <= |calls| <= |all| && all[j - 1] == calls[j - 1]
    ensures AfterGone(calls, j) ==> AfterGone(all, j)
  {
  }

  lemma HistoryAfterSend(calls: seq<Call>, c: Call)
    requires c.Send? && c.sendOutcome == None && SecondAfterGone(calls) && NoSendAfterUnsure(calls)
    requires (forall d :: d in calls && d.Send? ==> d.phase != c.phase) || (calls != [] && AfterGone(calls, |calls|))
    requires NoUnsure(calls, c.phase)
    ensures SecondAfterGone(calls + [c]) && NoSendAfterUnsure(calls + [c]) && NoUnsure(calls + [c], c.phase)
  {
    hide AfterGone, IsUnsure;
    var all := calls + [c];
    EditIsSure(c, c.phase);
    forall i, j | 0 <= i < j < |all| && all[i].Send? && all[j].Send? && all[i].phase == all[j].phase
      ensures AfterGone(all, j)
    {
      assert all[i] == calls[i] && calls[i] in calls;
      GoneStays(calls, all, j);
    }
    forall i, j | 0 <= i < j < |all| && IsUnsure(all[i], all[i].phase) && all[j].Send?
      ensures all[j].phase != all[i].phase
    {
      assert all[i] == calls[i] && calls[i] in calls;
    }
  }

  lemma HistoryAnswered(calls: seq<Call>, c: Call, ph: Phase)
    requires calls != [] && c.Send? == calls[|calls| - 1].Send? && c.phase == calls[|calls| - 1].phase
    requires SecondAfterGone(calls) && NoSendAfterUnsure(calls)
    ensures var all := calls[|calls| - 1 := c]; SecondAfterGone(all) && NoSendAfterUnsure(all)
    ensures NoUnsure(calls, ph) && !IsUnsure(c, ph) ==> NoUnsure(calls[|calls| - 1 := c], ph)
  {
    hide AfterGone, IsUnsure;
    var all := calls[|calls| - 1 := c];
    forall i, j | 0 <= i < j < |all| && all[i].Send? && all[j].Send? && all[i].phase == all[j].phase
      ensures AfterGone(all, j)
    {
      assert all[i] == calls[i];
      GoneStays(calls, all, j);
    }
    forall i, j | 0 <= i < j < |all| && IsUnsure(all[i], all[i].phase) && all[j].Send?
      ensures all[j].phase != all[i].phase
    {
      assert all[i] == calls[i];
    }
  }

  /** Issuing a send is safe right after a gone edit, or as the first of its phase. */
  lemma IssueSendKeepsInv(v: View, text: Text)
    requires v.flight == Idle && v.state == NoBubble
    requires SecondAfterGone(v.calls) && NoSendAfterUnsure(v.calls)
    requires v.phase == Foreground ==> Sends(v.calls, BackgroundAgents) == 0
    requires Sends(v.calls, Foreground) <= 2
    requires Sends(v.calls, v.phase) + 1 + (if v.replacementUsed then 0 else 1) <= 2
    requires Sends(v.calls, v.phase) == 0 || (v.calls != [] && AfterGone(v.calls, |v.calls|))
    requires NoUnsure(v.calls, v.phase)
    ensures Inv(IssueSend(v, text))
  {
    hide SecondAfterGone, NoSendAfterUnsure, NoUnsure, Sends, AfterGone;
    var c := Send(v.phase, text, None);
    SendsAppend(v.calls, c, Foreground);
    SendsAppend(v.calls, c, BackgroundAgents);
    if Sends(v.calls, v.phase) == 0 { SendsZero(v.calls, v.phase); }
    HistoryAfterSend(v.calls, c);
  }

  /** An edit of the bubble counts as no send. */
  lemma IssueEditKeepsInv(v: View, id: nat, text: Text)
    requires Inv(v) && v.flight == Idle && v.state == Have
    ensures Inv(IssueEdit(v, id, text))
  {
    hide SecondAfterGone, NoSendAfterUnsure, NoUnsure, Sends;
    var c := Edit(v.phase, id, text, None);
    SendsAppend(v.calls, c, Foreground);
    SendsAppend(v.calls, c, BackgroundAgents);
    HistoryAfterEdit(v.calls, c, v.phase);
  }

  /** The queue plays no part. */
  lemma DequeueKeepsInv(v: View)
    requires Inv(v) && v.queued > 0
    ensures Inv(v.(queued := v.queued - 1))
  {
    hide SecondAfterGone, NoSendAfterUnsure, NoUnsure, Sends;
  }

  lemma BeginKeepsInv(v: View, visible: Visible)
    requires Inv(v)
    ensures Inv(Begin(v, visible))
  {
    hide SecondAfterGone, NoSendAfterUnsure, NoUnsure, Sends, IssueSend, IssueEdit;
    if v.flight == Idle && v.queued > 0 {
      DequeueKeepsInv(v);
      var w := v.(queued := v.queued - 1);
      if w.state == Have {
        IssueEditKeepsInv(w, w.bubble.value, visible.text);
      } else if w.state == NoBubble {
        IssueSendKeepsInv(w, visible.text);
      }
    }
  }

  lemma AnswerEditKeepsInv(v: View, o: EditOutcome)
    requires Inv(v)
    ensures Inv(AnswerEdit(v, o))
  {
    hide SecondAfterGone, NoSendAfterUnsure, NoUnsure, Sends;
    if v.flight.AwaitEdit? {
      var c := v.calls[|v.calls| - 1].(editOutcome := Some(o));
      SendsAnswered(v.calls, c, Foreground);
      SendsAnswered(v.calls, c, BackgroundAgents);
      HistoryAnswered(v.calls, c, v.phase);
      if o == Gone && !v.replacementUsed {
        var calls := v.calls[|v.calls| - 1 := c];
        IssueSendKeepsInv(v.(flight := Idle, calls := calls, replacementUsed := true, state := NoBubble,
            bubble := None), v.flight.text);
      }
    }
  }

  lemma AnswerSendKeepsInv(v: View, o: SendOutcome)
    requires Inv(v)
    ensures Inv(AnswerSend(v, o))
  {
    hide SecondAfterGone, NoSendAfterUnsure, NoUnsure, Sends;
    if v.flight.AwaitSend? {
      var c := v.calls[|v.calls| - 1].(sendOutcome := Some(o));
      SendsAnswered(v.calls, c, Foreground);
      SendsAnswered(v.calls, c, BackgroundAgents);
      HistoryAnswered(v.calls, c, v.phase);
    }
  }

  lemma SwitchKeepsInv(v: View)
    requires Inv(v)
    ensures Inv(SwitchPhase(v))
  {
    if v.phase == Foreground { SendsZero(v.calls, BackgroundAgents); }
  }

  lemma StepKeepsInv(v: View, e: Event)
    requires Inv(v)
    ensures Inv(Step(v, e))
  {
    hide Begin, AnswerEdit, AnswerSend, SwitchPhase;
    match e
    case BeginFlush(visible) => BeginKeepsInv(v, visible);
    case EditAnswer(o) => AnswerEditKeepsInv(v, o);
    case SendAnswer(o) => AnswerSendKeepsInv(v, o);
    case OpenBackground => SwitchKeepsInv(v);
    case _ =>
  }

  lemma {:induction false} RunKeepsInv(events: seq<Event>)
    ensures Inv(Run(events))
  {
    hide Step, Inv;
    if events == [] {
      InitHoldsInv();
    } else {
      RunKeepsInv(events[..|events| - 1]);
      StepKeepsInv(Run(events[..|events| - 1]), events[|events| - 1]);
    }
  }

  lemma InitHoldsInv()
    ensures Inv(Init())
  {
  }

  /**
    Bubble protocol. For every order of hooks, timers and answers, each phase issues at most two
    sends, the second only right after an edit that found the bubble gone, and none after a send of
    that phase whose outcome is unknown, even if a flush was in flight when the phase was switched
    or the turn dropped.
   */
  lemma BubbleProtocol(events: seq<Event>, ph: Phase)
    ensures var calls := Run(events).calls;
      && Sends(calls, ph) <= 2
      && SecondAfterGone(calls)
      && NoSendAfterUnsure(calls)
  {
    RunKeepsInv(events);
  }

  /**
    The same of the turn object, driven by any events; an answer that nothing waits for and a flush
    that is not due do nothing.
   */
  method Drive(events: seq<Event>) returns (calls: seq<Call>)
    ensures calls == Run(events).calls
    ensures Sends(calls, Foreground) <= 2 && Sends(calls, BackgroundAgents) <= 2
    ensures SecondAfterGone(calls) && NoSendAfterUnsure(calls)
  {
    hide Inv, Step, SecondAfterGone, NoSendAfterUnsure, Sends;
    var turn := new BubbleTurn();
    for i := 0 to |events|
      invariant fresh(turn) && turn.Now() == Run(events[..i])
    {
      assert events[..i + 1][..i] == events[..i];
      NotDue(turn.Now(), events[i]);
      FlightHasCall(events[..i]);
      match events[i] {
        case Enqueue => turn.EnqueueFlush();
        case BeginFlush(visible) => if turn.flight == Idle && turn.queued > 0 { turn.StartFlush(visible); }
        case EditAnswer(o) => if turn.flight.AwaitEdit? { turn.ResumeAfterEdit(o); }
        case SendAnswer(o) => if turn.flight.AwaitSend? { turn.ResumeAfterSend(o); }
        case OpenBackground => turn.BeginBackground();
        case Drop => turn.DropTurn();
      }
    }
    assert events[..|events|] == events;
    BubbleProtocol(events, Foreground);
    BubbleProtocol(events, BackgroundAgents);
    calls := turn.calls;
  }

  lemma NotDue(v: View, e: Event)
    ensures e.BeginFlush? && (v.flight != Idle || v.queued == 0) ==> Step(v, e) == v
    ensures e.EditAnswer? && !v.flight.AwaitEdit? ==> Step(v, e) == v
    ensures e.SendAnswer? && !v.flight.AwaitSend? ==> Step(v, e) == v
  {
  }

  /** What a flush waits for is the newest call. */
  lemma FlightHasCall(events: seq<Event>)
    ensures var v := Run(events);
      && (v.flight.AwaitEdit? ==> v.calls != [] && v.calls[|v.calls| - 1].Edit?)
      && (v.flight.AwaitSend? ==> v.calls != [] && v.calls[|v.calls| - 1].Send?)
  {
    RunKeepsInv(events);
  }

  /** A flush that has something new to show and may show it always reaches the transport. */
  lemma FlushReachesTransport(events: seq<Event>, visible: Visible)
    requires var v := Run(events);
      v.flight == Idle && v.queued > 0 && v.state !in {Unknown, Abandoned} && v.lastSent != Some(visible.text)
    requires visible.hasSteps && visible.authorized
    ensures var v, w := Run(events), Run(events + [BeginFlush(visible)]);
      && (v.state == Have ==> v.bubble.Some?)
      && w.calls == v.calls + [
        if v.state == Have then Edit(v.phase, v.bubble.value, visible.text, None)
        else Send(v.phase, visible.text, None)]
  {
    RunKeepsInv(events);
    assert (events + [BeginFlush(visible)])[..|events|] == events;
  }
}
