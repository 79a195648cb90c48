/**
  What the progress bubble does, told from the events and the transport calls alone: the first text of
  a phase is sent, a bubble that exists is edited, one that is gone is replaced once, and a phase that
  has ended stays silent.
 */
module BubbleHistory {
  import opened Wrappers
  import opened ProgressBubble

  predicate Unanswered(c: Call) {
    match c
    case Send(_, _, outcome) => outcome == None
    case Edit(_, _, _, outcome) => outcome == None
  }

  /** A call is in flight. */
  predicate Asking(calls: seq<Call>) { calls != [] && Unanswered(calls[|calls| - 1]) }

  predicate AskingSend(calls: seq<Call>) { Asking(calls) && calls[|calls| - 1].Send? }

  predicate AskingEdit(calls: seq<Call>) { Asking(calls) && calls[|calls| - 1].Edit? }

  /** The last text that reached the chat. */
  function Shown(calls: seq<Call>): Option<Text> {
    if calls == [] then None
    else match calls[|calls| - 1]
      case Send(_, text, Some(Sent(_))) => Some(text)
      case Edit(_, _, text, Some(EditedOk)) => Some(text)
      case _ => Shown(calls[..|calls| - 1])
  }

  function PhaseAfter(events: seq<Event>): Phase { if OpenBackground in events then BackgroundAgents else Foreground }

  /** Flushes that were queued and have not started; they start one at a time. */
  function Due(events: seq<Event>): nat {
    if events == [] then 0
    else
      var before, e := events[..|events| - 1], events[|events| - 1];
      if e.Enqueue? || (e.OpenBackground? && OpenBackground !in before) then Due(before) + 1
      else if e.BeginFlush? && !Asking(Run(before).calls) && Due(before) > 0 then Due(before) - 1
      else Due(before)
  }

  /** Event i of a run found the bubble gone, in the phase that is still on. */
  ghost predicate GoneAt(events: seq<Event>, i: nat)
    requires i < |events|
  {
    && events[i] == EditAnswer(Gone) && AskingEdit(Run(events[..i]).calls)
    && PhaseAfter(events[..i]) == PhaseAfter(events)
  }

  ghost predicate GoneInPhase(events: seq<Event>) { exists i :: 0 <= i < |events| && GoneAt(events, i) }

  // ----- the history tells the state -----

  /** The turn object agrees with what its events and calls tell. */
  ghost predicate Agrees(v: View, events: seq<Event>) {
    && v.phase == PhaseAfter(events)
    && v.queued == Due(events)
    && (v.flight == Idle <==> !Asking(v.calls))
    && (v.flight.AwaitSend? ==> AskingSend(v.calls) && v.calls[|v.calls| - 1].text == v.flight.text)
    && (v.flight.AwaitEdit? ==> AskingEdit(v.calls) && v.calls[|v.calls| - 1].text == v.flight.text)
    && (v.replacementUsed <==> GoneInPhase(events))
  }

  lemma PhaseOneMore(before: seq<Event>, e: Event)
    ensures PhaseAfter(before + [e]) == if e == OpenBackground then BackgroundAgents else PhaseAfter(before)
  {
  }

  lemma DueOneMore(before: seq<Event>, e: Event)
    ensures Due(before + [e]) ==
      if e.Enqueue? || (e.OpenBackground? && PhaseAfter(before) == Foreground) then Due(before) + 1
      else if e.BeginFlush? && !Asking(Run(before).calls) && Due(before) > 0 then Due(before) - 1
      else Due(before)
  {
    assert (before + [e])[..|before|] == before;
  }

  lemma AgreesOneMore(v: View, before: seq<Event>, e: Event)
    requires v == Run(before) && Agrees(v, before)
    ensures Agrees(Step(v, e), before + [e])
  {
    PhaseOneMore(before, e);
    DueOneMore(before, e);
    GoneOneMore(before, e);
    hide PhaseAfter, Due, GoneInPhase, Run;
  }

  lemma {:induction false} HistoryAgrees(events: seq<Event>)
    ensures Agrees(Run(events), events)
  {
    hide Step, PhaseAfter, Due, Agrees, GoneInPhase;
    if events == [] {
      NothingAgrees();
    } else {
      var before, e := events[..|events| - 1], events[|events| - 1];
      HistoryAgrees(before);
      assert events == before + [e];
      AgreesOneMore(Run(before), before, e);
    }
  }

  lemma NothingAgrees()
    ensures Agrees(Run([]), [])
  {
  }

  lemma GoneOneMore(before: seq<Event>, e: Event)
    ensures GoneInPhase(before + [e]) <==>
      || (GoneInPhase(before) && PhaseAfter(before + [e]) == PhaseAfter(before))
      || (e == EditAnswer(Gone) && AskingEdit(Run(before).calls))
  {
    var all := before + [e];
    assert all[..|before|] == before;
    assert forall i :: 0 <= i < |before| ==> all[i] == before[i] && all[..i] == before[..i];
    assert forall i :: 0 <= i <= |before| && OpenBackground in all[..i] ==> OpenBackground in before;
    if GoneInPhase(before) && PhaseAfter(all) == PhaseAfter(before) {
      var i :| 0 <= i < |before| && GoneAt(before, i);
      assert GoneAt(all, i);
    }
    if e == EditAnswer(Gone) && AskingEdit(Run(before).calls) { assert GoneAt(all, |before|); }
    if GoneInPhase(all) {
      var i :| 0 <= i < |all| && GoneAt(all, i);
      if i < |before| {
        assert all[..i] == before[..i] && all[i] == before[i];
        assert GoneAt(before, i);
      }
    }
  }

  lemma RunOneMore(events: seq<Event>, e: Event)
    ensures Run(events + [e]) == Step(Run(events), e)
  {
    assert (events + [e])[..|events|] == events;
  }

  // ----- every event, by what it does to the calls -----

  function Answered(calls: seq<Call>, e: Event): seq<Call>
    requires (e.SendAnswer? && AskingSend(calls)) || (e.EditAnswer? && AskingEdit(calls))
  {
    var last := calls[|calls| - 1];
    calls[|calls| - 1 := if e.SendAnswer? then last.(sendOutcome := Some(e.send))
        else last.(editOutcome := Some(e.edit))]
  }

  /**
    Only a flush that is due and an answer that is awaited touch the calls, and an answer that finds the
    bubble gone, the first of its phase, is followed at once by one send of the same text.
   */
  lemma AnswersAndIdleEvents(events: seq<Event>, e: Event)
    ensures var calls, next := Run(events).calls, Run(events + [e]).calls;
      if (e.SendAnswer? && AskingSend(calls)) || (e.EditAnswer? && AskingEdit(calls)) then
        next == Answered(calls, e) + (
          if e == EditAnswer(Gone) && !GoneInPhase(events)
          then [Send(PhaseAfter(events), calls[|calls| - 1].text, None)] else [])
      else (e.BeginFlush? && !Asking(calls) && Due(events) > 0) || next == calls
  {
    HistoryAgrees(events);
    RunOneMore(events, e);
    hide PhaseAfter, Due, GoneInPhase, Run;
  }

  /** A flush issues one call at most, and only if it has steps to show and may show them. */
  lemma FlushIssues(events: seq<Event>, visible: Visible)
    ensures var calls, next := Run(events).calls, Run(events + [BeginFlush(visible)]).calls;
      |calls| <= |next| <= |calls| + 1 && next[..|calls|] == calls
      && (next != calls ==> visible.hasSteps && visible.authorized && next[|calls|].text == visible.text)
  {
    RunOneMore(events, BeginFlush(visible));
  }

  // ----- the life of a bubble -----

  /**
    No drop, no switch to another phase, no flush of a chat that may not be shown to, and no edit that fails for good.
   */
  ghost predicate Spared(since: seq<Event>, background: bool) {
    forall e :: e in since ==> Sparing(e, background)
  }

  predicate Sparing(e: Event, background: bool) {
    match e
    case Drop => false
    case OpenBackground => background
    case BeginFlush(visible) => visible.authorized || !visible.hasSteps
    case EditAnswer(o) => o == EditedOk || o == Transient
    case _ => true
  }

  lemma SparedInit(since: seq<Event>, background: bool)
    requires Spared(since, background) && since != []
    ensures Spared(since[..|since| - 1], background) && Sparing(since[|since| - 1], background)
  {
    assert forall e :: e in since[..|since| - 1] ==> e in since;
  }

  ghost predicate Alive(v: View, id: nat) {
    && v.state == Have && v.bubble == Some(id) && !v.flight.AwaitSend?
    && v.lastSent == Shown(v.calls) && v.lastSent.Some?
  }

  lemma ShownOneMore(calls: seq<Call>, c: Call)
    ensures Unanswered(c) ==> Shown(calls + [c]) == Shown(calls)
    ensures c.Send? && c.sendOutcome.Some? && c.sendOutcome.value.Sent? ==> Shown(calls + [c]) == Some(c.text)
    ensures c.Edit? && c.editOutcome == Some(EditedOk) ==> Shown(calls + [c]) == Some(c.text)
    ensures c.Edit? && c.editOutcome == Some(Transient) ==> Shown(calls + [c]) == Shown(calls)
  {
    assert (calls + [c])[..|calls|] == calls;
  }

  lemma ShownAnswered(calls: seq<Call>, e: Event)
    requires (e.SendAnswer? && AskingSend(calls)) || (e.EditAnswer? && AskingEdit(calls))
    ensures e.SendAnswer? && e.send.Sent? ==> Shown(Answered(calls, e)) == Some(calls[|calls| - 1].text)
    ensures e == EditAnswer(EditedOk) ==> Shown(Answered(calls, e)) == Some(calls[|calls| - 1].text)
    ensures e == EditAnswer(Transient) ==> Shown(Answered(calls, e)) == Shown(calls)
  {
    var n := |calls| - 1;
    ShownOneMore(calls[..n], calls[n]);
    ShownOneMore(calls[..n], Answered(calls, e)[n]);
    assert calls[..n] + [calls[n]] == calls;
    assert calls[..n] + [Answered(calls, e)[n]] == Answered(calls, e);
  }

  /** A bubble is born of a send that arrives, whatever happened to the turn while it was under way. */
  lemma Born(before: seq<Event>, id: nat)
    requires AskingSend(Run(before).calls)
    ensures Alive(Run(before + [SendAnswer(Sent(id))]), id)
  {
    HistoryAgrees(before);
    RunOneMore(before, SendAnswer(Sent(id)));
    ShownAnswered(Run(before).calls, SendAnswer(Sent(id)));
    hide PhaseAfter, Due, GoneInPhase, Run, Shown;
  }

  lemma StaysAlive(events: seq<Event>, e: Event, id: nat)
    requires Alive(Run(events), id) && Sparing(e, OpenBackground in events)
    ensures Alive(Run(events + [e]), id)
    ensures var calls, next := Run(events).calls, Run(events + [e]).calls;
      |next| == |calls| || (|next| == |calls| + 1 && next[|calls|] ==
        Edit(PhaseAfter(events), id, next[|calls|].text, None))
  {
    var v := Run(events);
    HistoryAgrees(events);
    RunOneMore(events, e);
    if e.BeginFlush? { ShownOneMore(v.calls, Edit(v.phase, id, e.visible.text, None)); }
    if e.EditAnswer? && AskingEdit(v.calls) { ShownAnswered(v.calls, e); }
    hide Due, GoneInPhase, Run, Shown;
  }

  lemma {:induction false} LivesOn(before: seq<Event>, id: nat, since: seq<Event>)
    requires AskingSend(Run(before).calls) && Spared(since, OpenBackground in before)
    ensures Alive(Run(before + [SendAnswer(Sent(id))] + since), id)
    ensures PhaseAfter(before + [SendAnswer(Sent(id))] + since) == PhaseAfter(before)
  {
    hide Run, Alive, Shown;
    var born := before + [SendAnswer(Sent(id))];
    if since == [] {
      Born(before, id);
      assert born + since == born;
    } else {
      var n := |since| - 1;
      SparedInit(since, OpenBackground in before);
      LivesOn(before, id, since[..n]);
      assert OpenBackground in before <==> OpenBackground in born + since[..n];
      StaysAlive(born + since[..n], since[n], id);
      assert born + since[..n] + [since[n]] == born + since;
    }
  }

  /**
    The life of a bubble. Once a send has arrived as message id, and until the turn is dropped, switched to
    another phase, barred from its chat or an edit fails for good, a flush that is due edits message id exactly
    if it has steps to show and their text is not the last one shown; it sends nothing.
   */
  lemma BubbleIsEdited(before: seq<Event>, id: nat, since: seq<Event>, visible: Visible)
    requires AskingSend(Run(before).calls) && Spared(since, OpenBackground in before)
    ensures var events := before + [SendAnswer(Sent(id))] + since;
      var calls := Run(events).calls;
      && Shown(calls).Some?
      && (!Asking(calls) && Due(events) > 0 && visible.authorized ==>
            Run(events + [BeginFlush(visible)]).calls == calls +
              if visible.hasSteps && Shown(calls) != Some(visible.text)
              then [Edit(PhaseAfter(before), id, visible.text, None)] else [])
  {
    var events := before + [SendAnswer(Sent(id))] + since;
    LivesOn(before, id, since);
    HistoryAgrees(events);
    RunOneMore(events, BeginFlush(visible));
    hide Due, GoneInPhase, Run, Shown, PhaseAfter;
  }

  // ----- the start of a phase -----

  /** Where a phase may start: with the turn, or when the background phase opens. */
  ghost predicate Opens(start: seq<Event>) {
    start == [] || (OpenBackground == start[|start| - 1] && OpenBackground !in start[..|start| - 1])
  }

  /** What an edit that was under way when the phase opened has shown since. */
  function ShownLate(calls: seq<Call>, late: bool): Option<Text> {
    if late && calls != [] && calls[|calls| - 1].Edit? && calls[|calls| - 1].editOutcome == Some(EditedOk)
    then Some(calls[|calls| - 1].text) else None
  }

  ghost predicate Bare(v: View, late: bool) {
    && v.state == NoBubble && !v.flight.AwaitSend?
    && v.lastSent == ShownLate(v.calls, late) && (v.flight.AwaitEdit? ==> late)
  }

  lemma Opened(start: seq<Event>)
    requires Opens(start) && !AskingSend(Run(start).calls)
    ensures Bare(Run(start), AskingEdit(Run(start).calls))
  {
    HistoryAgrees(start);
    if start != [] {
      var before := start[..|start| - 1];
      HistoryAgrees(before);
      assert start == before + [OpenBackground];
      RunOneMore(before, OpenBackground);
    }
    hide Due, GoneInPhase, Run;
  }

  lemma StaysBare(events: seq<Event>, e: Event, late: bool)
    requires Bare(Run(events), late) && Sparing(e, OpenBackground in events)
    requires |Run(events + [e]).calls| == |Run(events).calls|
    ensures Bare(Run(events + [e]), late)
  {
    HistoryAgrees(events);
    RunOneMore(events, e);
    hide Due, GoneInPhase, Run;
  }

  lemma CallsGrow(events: seq<Event>, e: Event)
    ensures |Run(events).calls| <= |Run(events + [e]).calls|
  {
    RunOneMore(events, e);
  }

  lemma {:induction false} StartStays(start: seq<Event>, since: seq<Event>)
    requires Opens(start) && !AskingSend(Run(start).calls) && Spared(since, OpenBackground in start)
    ensures |Run(start).calls| <= |Run(start + since).calls|
    ensures |Run(start).calls| == |Run(start + since).calls| ==>
              Bare(Run(start + since), AskingEdit(Run(start).calls))
    ensures PhaseAfter(start + since) == PhaseAfter(start)
  {
    hide Run, Bare, Opens;
    if since == [] {
      Opened(start);
      assert start + since == start;
    } else {
      var n := |since| - 1;
      SparedInit(since, OpenBackground in start);
      StartStays(start, since[..n]);
      assert start + since[..n] + [since[n]] == start + since;
      CallsGrow(start + since[..n], since[n]);
      assert OpenBackground in start <==> OpenBackground in start + since[..n];
      if |Run(start).calls| == |Run(start + since).calls| {
        StaysBare(start + since[..n], since[n], AskingEdit(Run(start).calls));
      }
    }
  }

  /**
    The first bubble of a phase. If no send is under way when a phase starts, the first flush that is due, may
    show its text and has steps sends it, unless an edit left over from the phase before has shown that text since.
   */
  lemma FirstFlushSends(start: seq<Event>, since: seq<Event>, visible: Visible)
    requires Opens(start) && !AskingSend(Run(start).calls) && Spared(since, OpenBackground in start)
    requires |Run(start + since).calls| == |Run(start).calls|
    ensures var calls := Run(start + since).calls;
      !Asking(calls) && Due(start + since) > 0 && visible.authorized ==>
        Run(start + since + [BeginFlush(visible)]).calls == calls +
          if visible.hasSteps && ShownLate(calls, AskingEdit(Run(start).calls)) != Some(visible.text)
          then [Send(PhaseAfter(start), visible.text, None)] else []
  {
    StartStays(start, since);
    HistoryAgrees(start + since);
    RunOneMore(start + since, BeginFlush(visible));
    hide Due, GoneInPhase, Run, PhaseAfter, Opens;
  }

  // ----- the end of a phase -----

  /** An event that ends the disclosure of its phase. */
  ghost predicate Ends(before: seq<Event>, e: Event) {
    var calls := Run(before).calls;
    match e
    case SendAnswer(o) => AskingSend(calls) && !o.Sent?
    case EditAnswer(o) =>
      AskingEdit(calls) && (o == Throttled || o == EditRefused || (o == Gone && GoneInPhase(before)))
    case Drop => !Asking(calls)
    case BeginFlush(visible) => !Asking(calls) && Due(before) > 0 && visible.hasSteps && !visible.authorized
    case _ => false
  }

  ghost predicate Silent(v: View) { v.flight == Idle && v.state in {Unknown, Abandoned} }

  lemma Ended(before: seq<Event>, e: Event)
    requires Ends(before, e)
    ensures Silent(Run(before + [e]))
  {
    HistoryAgrees(before);
    RunOneMore(before, e);
    hide Due, GoneInPhase, Run, PhaseAfter;
  }

  lemma StaysSilent(events: seq<Event>, e: Event)
    requires Silent(Run(events)) && (e == OpenBackground ==> OpenBackground in events)
    ensures Silent(Run(events + [e])) && Run(events + [e]).calls == Run(events).calls
  {
    HistoryAgrees(events);
    RunOneMore(events, e);
    hide Due, GoneInPhase, Run;
  }

  /**
    The end of a phase. Behind an unknown or refused send, a refused or throttled edit, a second bubble that is
    gone, a drop with no call under way, or a flush that finds its chat barred, no call is issued unless the
    background phase opens.
   */
  lemma {:induction false} PhaseIsOver(before: seq<Event>, e: Event, since: seq<Event>)
    requires Ends(before, e) && (OpenBackground in since ==> OpenBackground in before)
    ensures Silent(Run(before + [e] + since))
    ensures Run(before + [e] + since).calls == Run(before + [e]).calls
  {
    hide Run, Silent, Ends;
    if since == [] {
      Ended(before, e);
      assert before + [e] + since == before + [e];
    } else {
      var n := |since| - 1;
      assert since == since[..n] + [since[n]];
      PhaseIsOver(before, e, since[..n]);
      assert before + [e] + since[..n] + [since[n]] == before + [e] + since;
      StaysSilent(before + [e] + since[..n], since[n]);
    }
  }

  ghost predicate Stopped(v: View) { !v.flight.AwaitSend? && v.state in {Unknown, Abandoned} }

  lemma StaysStopped(events: seq<Event>, e: Event)
    requires Stopped(Run(events)) && (e == OpenBackground ==> OpenBackground in events) && e != EditAnswer(Gone)
    ensures Stopped(Run(events + [e])) && |Run(events + [e]).calls| == |Run(events).calls|
  {
    HistoryAgrees(events);
    RunOneMore(events, e);
    hide Due, GoneInPhase, Run;
  }

  lemma Dropped(before: seq<Event>)
    requires !AskingSend(Run(before).calls)
    ensures Stopped(Run(before + [Drop])) && Run(before + [Drop]).calls == Run(before).calls
  {
    HistoryAgrees(before);
    RunOneMore(before, Drop);
    hide Due, GoneInPhase, Run, PhaseAfter;
  }

  /** A drop during an edit ends the phase too, unless the edit finds the bubble gone and is replaced. */
  lemma {:induction false} DropDuringEdit(before: seq<Event>, since: seq<Event>)
    requires !AskingSend(Run(before).calls) && EditAnswer(Gone) !in since
    requires OpenBackground in since ==> OpenBackground in before
    ensures Stopped(Run(before + [Drop] + since))
    ensures |Run(before + [Drop] + since).calls| == |Run(before).calls|
  {
    hide Run, Stopped;
    if since == [] {
      Dropped(before);
      assert before + [Drop] + since == before + [Drop];
    } else {
      var n := |since| - 1;
      assert since == since[..n] + [since[n]];
      DropDuringEdit(before, since[..n]);
      assert before + [Drop] + since[..n] + [since[n]] == before + [Drop] + since;
      StaysStopped(before + [Drop] + since[..n], since[n]);
    }
  }
}
