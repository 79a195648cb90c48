/**
  How a finished turn hands its final text to Telegram. Stop hooks of one turn may overlap at every
  await, and other hooks may drop the turn, open its background phase or take over its failure in
  between, so each hook is cut into the atomic segments between its awaits.
 */
module FinalDelivery {
  import opened Wrappers

  datatype Outcome = Delivered | Uncertain | TooLarge | Rejected
  datatype Kind = Content | Fallback

  /** One deliverFinal call; outcome None while it is in flight. */
  datatype Call = Call(thread: nat, kind: Kind, outcome: Option<Outcome>)

  datatype Message = Blank | Fits | Huge
  datatype Hook = Stop(message: Message) | StopFailure(rateLimit: bool)

  /** Where a finishTurn activation is waiting, or how it ended. */
  datatype Thread =
    | AwaitFailureGrace(hook: Hook)
    | AwaitDrain(hook: Hook)
    | AwaitContent
    | AwaitFallback
    | AwaitFailureDrain
    | AwaitNotice
    | AwaitBackground
    | AwaitDrop
    | Finished
    | Retry

  datatype Phase = Foreground | BackgroundAgents

  /** live: the turn map still holds this very turn object. */
  datatype Turn = Turn(
    live: bool, killed: bool, phase: Phase, agentsActive: bool,
    runtimeFailureAttempted: bool, finalDeliveryAttempted: bool, finalDeliveryRetries: nat)

  datatype State = State(turn: Turn, threads: seq<Thread>, calls: seq<Call>)

  datatype Event =
    | Hook(hook: Hook)                                // finishTurn is called
    | Resume(thread: nat, configured: bool)           // an await other than a delivery completes
    | Answer(thread: nat, outcome: Outcome)           // a deliverFinal call completes
    | Retire                                          // eviction, a newer prompt or a rebind drops the turn
    | Agents(active: bool)                            // a subagent starts or the last one stops
    | FailureTaken                                    // the transcript watcher claims the runtime failure

  function Init(killed: bool): State {
    State(Turn(true, killed, Foreground, false, false, false, 0), [], [])
  }

  function SetThread(s: State, t: nat, th: Thread): State
    requires t < |s.threads|
  {
    s.(threads := s.threads[t := th])
  }

  /** The start of finishTurn up to its first await. */
  function Enter(s: State, h: Hook): State {
    if !s.turn.live then s.(threads := s.threads + [Finished])
    else if h.StopFailure? && h.rateLimit then s.(threads := s.threads + [AwaitFailureGrace(h)])
    else AfterGrace(s.(threads := s.threads + [Finished]), |s.threads|, h)
  }

  /** From the structured-failure wait to the next await. */
  function AfterGrace(s: State, t: nat, h: Hook): State
    requires t < |s.threads|
  {
    if s.turn.phase == BackgroundAgents then
      if h.StopFailure? && !s.turn.runtimeFailureAttempted then
        SetThread(s.(turn := s.turn.(runtimeFailureAttempted := true)), t, AwaitFailureDrain)
      else SetThread(s, t, Finished)
    else SetThread(s, t, AwaitDrain(h))
  }

  /** deliverRuntimeFailure once the bubble is drained: the turn is retired before the notice is sent. */
  function RetireForFailure(s: State, t: nat): State
    requires t < |s.threads|
  {
    if s.turn.live then SetThread(s.(turn := s.turn.(live := false)), t, AwaitNotice) else SetThread(s, t, Finished)
  }

  /** From the drained bubble to the delivery of the final text. */
  function AfterDrain(s: State, t: nat, h: Hook, configured: bool): State
    requires t < |s.threads|
  {
    if !s.turn.live then SetThread(s, t, Finished)
    else if s.turn.killed then SetThread(s.(turn := s.turn.(live := false)), t, Finished)
    else match h
      case StopFailure(_) =>
        if s.turn.runtimeFailureAttempted then SetThread(s, t, Finished)
        else RetireForFailure(s.(turn := s.turn.(runtimeFailureAttempted := true)), t)
      case Stop(message) =>
        if s.turn.finalDeliveryAttempted then SetThread(s, t, Finished)
        else if message == Blank then Close(s, t)
        else
          var attempted := s.(turn := s.turn.(finalDeliveryAttempted := true));
          if message == Huge then TooLong(attempted, t, configured)
          else if configured then Send(attempted, t, Content)
          else Close(attempted, t)
  }

  function Send(s: State, t: nat, kind: Kind): State
    requires t < |s.threads|
  {
    SetThread(s.(calls := s.calls + [Call(t, kind, None)]), t, if kind == Content then AwaitContent else AwaitFallback)
  }

  /** A proven local size rejection: one retry for the model, then one fixed fallback. */
  function TooLong(s: State, t: nat, configured: bool): State
    requires t < |s.threads|
  {
    if s.turn.finalDeliveryRetries < 1 then
      var turn := s.turn.(finalDeliveryRetries := s.turn.finalDeliveryRetries + 1, finalDeliveryAttempted := false);
      SetThread(s.(turn := turn), t, Retry)
    else if configured then Send(s, t, Fallback)
    else Close(s, t)
  }

  /** beginBackgroundAgentDisclosure; if no agent is running the turn is dropped afterwards. */
  function Close(s: State, t: nat): State
    requires t < |s.threads|
  {
    if s.turn.agentsActive then SetThread(s.(turn := s.turn.(phase := BackgroundAgents)), t, AwaitBackground)
    else SetThread(s, t, AwaitDrop)
  }

  /** The in-flight call of a thread is answered. */
  function Settle(calls: seq<Call>, t: nat, outcome: Outcome): seq<Call> {
    seq(|calls|, i requires 0 <= i < |calls| =>
      if calls[i].thread == t && calls[i].outcome == None then calls[i].(outcome := Some(outcome)) else calls[i])
  }

  /** An await other than a delivery completes. */
  function Continue(s: State, t: nat, configured: bool): State
    requires t < |s.threads|
  {
    match s.threads[t]
    case AwaitFailureGrace(h) =>
      if !s.turn.live || s.turn.runtimeFailureAttempted then SetThread(s, t, Finished) else AfterGrace(s, t, h)
    case AwaitDrain(h) => AfterDrain(s, t, h, configured)
    case AwaitFailureDrain => RetireForFailure(s, t)
    case AwaitNotice => SetThread(s, t, Finished)
    case AwaitBackground => SetThread(s, t, Finished)
    case AwaitDrop => SetThread(s.(turn := s.turn.(live := false)), t, Finished)
    case _ => s
  }

  /** A deliverFinal call completes. */
  function Answered(s: State, t: nat, outcome: Outcome): State
    requires t < |s.threads|
  {
    var settled := s.(calls := Settle(s.calls, t, outcome));
    match s.threads[t]
    case AwaitContent => if outcome == TooLarge then TooLong(settled, t, true) else Close(settled, t)
    case AwaitFallback => Close(settled, t)
    case _ => s
  }

  function Step(s: State, e: Event): State {
    match e
    case Hook(h) => Enter(s, h)
    case Resume(t, configured) => if t < |s.threads| then Continue(s, t, configured) else s
    case Answer(t, outcome) => if t < |s.threads| then Answered(s, t, outcome) else s
    case Retire => s.(turn := s.turn.(live := false))
    case Agents(active) => s.(turn := s.turn.(agentsActive := active))
    case FailureTaken => s.(turn := s.turn.(runtimeFailureAttempted := true))
  }

  function Run(s: State, events: seq<Event>): State {
    if events == [] then s else Step(Run(s, events[..|events| - 1]), events[|events| - 1])
  }

  // ----- what every reachable state satisfies -----

  function Count(calls: seq<Call>, kind: Kind): nat {
    if calls == [] then 0 else Count(calls[..|calls| - 1], kind) + if calls[|calls| - 1].kind == kind then 1 else 0
  }

  /** Nothing but proven local size rejections: no message can exist. */
  ghost predicate NothingSent(calls: seq<Call>) {
    forall i :: 0 <= i < |calls| ==> calls[i].outcome == Some(TooLarge)
  }

  /** Only the newest call can have created anything. */
  ghost predicate AtMostOneSend(calls: seq<Call>) {
    forall i :: 0 <= i < |calls| - 1 ==> calls[i].outcome == Some(TooLarge)
  }

  predicate Flying(th: Thread) { th == AwaitContent || th == AwaitFallback }

  /** The newest call is in flight for thread t. */
  ghost predicate InFlight(s: State, t: nat, kind: Kind) {
    s.calls != [] && s.calls[|s.calls| - 1] == Call(t, kind, None)
  }

  ghost predicate Core(s: State) {
    && s.turn.finalDeliveryRetries <= 1
    && AtMostOneSend(s.calls)
    && (!s.turn.finalDeliveryAttempted ==> NothingSent(s.calls))
    && Count(s.calls, Content) <= s.turn.finalDeliveryRetries + (if s.turn.finalDeliveryAttempted then 1 else 0)
    && Count(s.calls, Fallback) <= 1
    && (Count(s.calls, Fallback) == 1 ==>
          s.turn.finalDeliveryAttempted && s.turn.finalDeliveryRetries == 1 && s.calls[|s.calls| - 1].kind == Fallback)
  }

  /** Every thread but t that waits for a delivery waits for the newest call. */
  ghost predicate OthersWait(s: State, t: nat) {
    forall u :: 0 <= u < |s.threads| && u != t && Flying(s.threads[u]) ==>
      InFlight(s, u, if s.threads[u] == AwaitContent then Content else Fallback)
  }

  /** At most one activation was told to retry, and only by spending the retry. */
  ghost predicate RetryOnce(s: State) {
    && (forall t, u :: 0 <= t < |s.threads| && 0 <= u < |s.threads| ==>
          s.threads[t] == Retry && s.threads[u] == Retry ==> t == u)
    && (Retry in s.threads ==> s.turn.finalDeliveryRetries == 1)
  }

  ghost predicate Inv(s: State) { Core(s) && OthersWait(s, |s.threads|) && RetryOnce(s) }

  lemma CountAppend(calls: seq<Call>, c: Call, kind: Kind)
    ensures Count(calls + [c], kind) == Count(calls, kind) + if c.kind == kind then 1 else 0
  {
    assert (calls + [c])[..|calls|] == calls;
  }

  /** Two threads can never wait for deliveries at the same time. */
  lemma OnlyOneFlying(s: State, t: nat, u: nat)
    requires Inv(s) && t < |s.threads| && u < |s.threads| && Flying(s.threads[t]) && Flying(s.threads[u])
    ensures t == u
  {
  }

  /** A call is only issued once every earlier one is known to have created nothing. */
  lemma SendKeepsInv(s: State, t: nat, kind: Kind)
    requires t < |s.threads| && NothingSent(s.calls) && s.turn.finalDeliveryRetries <= 1 && RetryOnce(s)
    requires s.turn.finalDeliveryAttempted && Count(s.calls, Fallback) == 0
    requires Count(s.calls, Content) <= s.turn.finalDeliveryRetries + if kind == Content then 0 else 1
    requires kind == Fallback ==> s.turn.finalDeliveryRetries == 1
    requires forall u :: 0 <= u < |s.threads| && u != t ==> !Flying(s.threads[u])
    ensures Inv(Send(s, t, kind))
  {
    var c := Call(t, kind, None);
    CountAppend(s.calls, c, Content);
    CountAppend(s.calls, c, Fallback);
  }

  lemma TooLongKeepsInv(s: State, t: nat, configured: bool)
    requires t < |s.threads| && NothingSent(s.calls) && s.turn.finalDeliveryRetries <= 1 && RetryOnce(s)
    requires s.turn.finalDeliveryAttempted && Count(s.calls, Fallback) == 0
    requires Count(s.calls, Content) <= s.turn.finalDeliveryRetries + 1
    requires forall u :: 0 <= u < |s.threads| && u != t ==> !Flying(s.threads[u])
    ensures Inv(TooLong(s, t, configured))
  {
    if s.turn.finalDeliveryRetries == 1 && configured { SendKeepsInv(s, t, Fallback); }
  }

  /** With nothing sent no thread is waiting for a delivery. */
  lemma NobodyFlying(s: State, t: nat)
    requires Inv(s) && NothingSent(s.calls) && t < |s.threads|
    ensures !Flying(s.threads[t])
  {
  }

  lemma AfterDrainKeepsInv(s: State, t: nat, h: Hook, configured: bool)
    requires Inv(s) && t < |s.threads| && s.threads[t] == AwaitDrain(h)
    ensures Inv(AfterDrain(s, t, h, configured))
  {
    if s.turn.live && !s.turn.killed && h.Stop? && !s.turn.finalDeliveryAttempted && h.message != Blank {
      forall u | 0 <= u < |s.threads|
        ensures !Flying(s.threads[u])
      {
        NobodyFlying(s, u);
      }
      var attempted := s.(turn := s.turn.(finalDeliveryAttempted := true));
      if h.message == Huge { TooLongKeepsInv(attempted, t, configured); }
      else if configured { SendKeepsInv(attempted, t, Content); }
    }
  }

  lemma {:induction false} CountSettle(calls: seq<Call>, t: nat, outcome: Outcome, kind: Kind)
    ensures Count(Settle(calls, t, outcome), kind) == Count(calls, kind)
  {
    if calls != [] {
      CountSettle(calls[..|calls| - 1], t, outcome, kind);
      assert Settle(calls, t, outcome)[..|calls| - 1] == Settle(calls[..|calls| - 1], t, outcome);
    }
  }

  lemma CloseKeepsInv(s: State, t: nat)
    requires t < |s.threads| && Core(s) && RetryOnce(s) && OthersWait(s, t)
    ensures Inv(Close(s, t))
  {
    hide NothingSent, AtMostOneSend, Count;
  }

  /** The answer of the only call in flight. */
  lemma SettleKeepsCore(s: State, t: nat, outcome: Outcome)
    requires Inv(s) && t < |s.threads| && Flying(s.threads[t])
    ensures var settled := s.(calls := Settle(s.calls, t, outcome));
            && Core(settled) && RetryOnce(settled)
            && (forall u :: 0 <= u < |s.threads| && u != t ==> !Flying(s.threads[u]))
            && (outcome == TooLarge ==> NothingSent(settled.calls))
            && (s.threads[t] == AwaitContent ==> Count(settled.calls, Fallback) == 0)
  {
    CountSettle(s.calls, t, outcome, Content);
    CountSettle(s.calls, t, outcome, Fallback);
    forall u | 0 <= u < |s.threads| && u != t
      ensures !Flying(s.threads[u])
    {
      if Flying(s.threads[u]) { OnlyOneFlying(s, t, u); }
    }
  }

  lemma AnsweredKeepsInv(s: State, t: nat, outcome: Outcome)
    requires Inv(s) && t < |s.threads|
    ensures Inv(Answered(s, t, outcome))
  {
    if Flying(s.threads[t]) {
      SettleKeepsCore(s, t, outcome);
      hide Settle, NothingSent, AtMostOneSend, Count, Inv, Close, TooLong;
      var settled := s.(calls := Settle(s.calls, t, outcome));
      if s.threads[t] == AwaitContent && outcome == TooLarge {
        TooLongKeepsInv(settled, t, true);
      } else {
        CloseKeepsInv(settled, t);
      }
    }
  }

  /** A step that issues and answers no call and leaves threads as they are or lets them wait for something else. */
  lemma QuietKeepsInv(s: State, next: State)
    requires Inv(s) && next.calls == s.calls
    requires next.turn.finalDeliveryAttempted == s.turn.finalDeliveryAttempted &&
               next.turn.finalDeliveryRetries == s.turn.finalDeliveryRetries
    requires |s.threads| <= |next.threads|
    requires forall u :: 0 <= u < |next.threads| ==>
               (u < |s.threads| && next.threads[u] == s.threads[u]) ||
                   (!Flying(next.threads[u]) && next.threads[u] != Retry)
    ensures Inv(next)
  {
    hide NothingSent, AtMostOneSend, Count;
  }

  lemma EnterKeepsInv(s: State, h: Hook)
    requires Inv(s)
    ensures Inv(Enter(s, h))
  {
    hide Inv;
    QuietKeepsInv(s, Enter(s, h));
  }

  lemma ContinueKeepsInv(s: State, t: nat, configured: bool)
    requires Inv(s) && t < |s.threads|
    ensures Inv(Continue(s, t, configured))
  {
    hide Inv, AfterDrain, Count;
    if !s.threads[t].AwaitDrain? { QuietKeepsInv(s, Continue(s, t, configured)); }
    if s.threads[t].AwaitDrain? { AfterDrainKeepsInv(s, t, s.threads[t].hook, configured); }
  }

  lemma StepKeepsInv(s: State, e: Event)
    requires Inv(s)
    ensures Inv(Step(s, e))
  {
    hide Enter, Continue, Answered, NothingSent, AtMostOneSend, Count;
    match e
    case Hook(h) => EnterKeepsInv(s, h);
    case Resume(t, configured) => if t < |s.threads| { ContinueKeepsInv(s, t, configured); }
    case Answer(t, outcome) => if t < |s.threads| { AnsweredKeepsInv(s, t, outcome); }
    case _ =>
  }

  lemma EnterNoRetry(s: State, h: Hook)
    requires Retry !in s.threads
    ensures Retry !in Enter(s, h).threads
  {
    assert forall u :: 0 <= u < |s.threads| ==> s.threads[u] != Retry;
    assert forall u :: 0 <= u < |Enter(s, h).threads| ==> Enter(s, h).threads[u] != Retry;
  }

  /** Setting one thread to Retry is the only way for it to appear. */
  ghost predicate Reopens(s: State) { Retry in s.threads ==> !s.turn.finalDeliveryAttempted }

  lemma TooLongReopens(s: State, t: nat, configured: bool)
    requires t < |s.threads| && Retry !in s.threads
    ensures Reopens(TooLong(s, t, configured))
  {
  }

  lemma ContinueReopens(s: State, t: nat, configured: bool)
    requires t < |s.threads| && Retry !in s.threads
    ensures Reopens(Continue(s, t, configured))
  {
    hide TooLong;
    match s.threads[t]
    case AwaitDrain(h) =>
      if h == Stop(Huge) { TooLongReopens(s.(turn := s.turn.(finalDeliveryAttempted := true)), t, configured); }
    case _ =>
  }

  lemma AnsweredReopens(s: State, t: nat, outcome: Outcome)
    requires t < |s.threads| && Retry !in s.threads
    ensures Reopens(Answered(s, t, outcome))
  {
    hide TooLong, Settle;
    TooLongReopens(s.(calls := Settle(s.calls, t, outcome)), t, true);
  }

  /** A retry answer is given in a step that reopens the delivery. */
  lemma FreshRetry(s: State, e: Event)
    requires Retry !in s.threads && Retry in Step(s, e).threads
    ensures !Step(s, e).turn.finalDeliveryAttempted
  {
    hide Enter, Continue, Answered;
    match e
    case Hook(h) => EnterNoRetry(s, h);
    case Resume(t, configured) => if t < |s.threads| { ContinueReopens(s, t, configured); }
    case Answer(t, outcome) => if t < |s.threads| { AnsweredReopens(s, t, outcome); }
    case _ =>
  }

  lemma {:induction false} RunKeepsInv(killed: bool, events: seq<Event>)
    ensures Inv(Run(Init(killed), events))
  {
    if events != [] {
      RunKeepsInv(killed, events[..|events| - 1]);
      StepKeepsInv(Run(Init(killed), events[..|events| - 1]), events[|events| - 1]);
    }
  }

  /**
    At-most-once final text. Over every interleaving of hook calls, completions and retirements,
    at most one deliverFinal call of a turn is not a proven local rejection, there are at most two
    content calls and one fixed fallback, and at most one hook is told to retry.
   */
  lemma AtMostOneFinalText(killed: bool, events: seq<Event>)
    ensures var s := Run(Init(killed), events);
      && (forall i, j :: 0 <= i < |s.calls| && 0 <= j < |s.calls| ==>
            s.calls[i].outcome != Some(TooLarge) && s.calls[j].outcome != Some(TooLarge) ==> i == j)
      && Count(s.calls, Content) <= 2
      && Count(s.calls, Fallback) <= 1
      && (forall t, u :: 0 <= t < |s.threads| && 0 <= u < |s.threads| ==>
            s.threads[t] == Retry && s.threads[u] == Retry ==> t == u)
  {
    RunKeepsInv(killed, events);
  }

  /** A hook is told to retry only at a moment when no message of this turn can exist. */
  lemma RetryMeansNothingSent(killed: bool, events: seq<Event>, e: Event, t: nat)
    requires var s := Run(Init(killed), events);
               t < |Step(s, e).threads| && Step(s, e).threads[t] == Retry && Retry !in s.threads
    ensures NothingSent(Step(Run(Init(killed), events), e).calls)
  {
    var s := Run(Init(killed), events);
    RunKeepsInv(killed, events);
    RunKeepsInv(killed, events + [e]);
    assert (events + [e])[..|events|] == events;
    assert Step(s, e) == Run(Init(killed), events + [e]);
    FreshRetry(s, e);
  }

  /** A turn bound to a killed task, before and after any step: no delivery was ever started. */
  ghost predicate Silent(s: State) { s.turn.killed && s.calls == [] && forall th :: th in s.threads ==> !Flying(th) }

  lemma StepKeepsSilent(s: State, e: Event)
    requires Silent(s)
    ensures Silent(Step(s, e))
  {
    match e
    case Hook(h) => assert Flying(Finished) == false;
    case Resume(t, configured) => if t < |s.threads| { assert s.threads[t] in s.threads; }
    case Answer(t, outcome) => if t < |s.threads| { assert s.threads[t] in s.threads; }
    case _ =>
  }

  /** A killed background completion never sends a final text. */
  lemma {:induction false} KilledSendsNothing(events: seq<Event>)
    ensures Silent(Run(Init(true), events))
  {
    hide Step;
    if events != [] {
      KilledSendsNothing(events[..|events| - 1]);
      StepKeepsSilent(Run(Init(true), events[..|events| - 1]), events[|events| - 1]);
    }
  }

  /** Thread t has just been told that the text was too long. */
  ghost predicate SizeAnswered(s: State, next: State, t: nat, configured: bool)
    requires t < |s.threads|
  {
    && |next.threads| == |s.threads|
    && (s.turn.finalDeliveryRetries == 0 ==>
          && next.threads[t] == Retry && !next.turn.finalDeliveryAttempted && next.turn.finalDeliveryRetries == 1
          && |next.calls| == |s.calls| && NothingSent(next.calls))
    && (s.turn.finalDeliveryRetries == 1 && configured ==>
          && next.threads[t] == AwaitFallback && next.turn.finalDeliveryAttempted
          && |next.calls| == |s.calls| + 1 && next.calls[|s.calls|] == Call(t, Fallback, None)
          && NothingSent(next.calls[..|s.calls|]) && Count(next.calls, Fallback) == 1)
    && (s.turn.finalDeliveryRetries == 1 && !configured ==> !Flying(next.threads[t]) && next.calls == s.calls)
  }

  lemma TooLongRejects(s: State, before: State, t: nat, configured: bool)
    requires t < |s.threads| == |before.threads| && |s.calls| == |before.calls| && NothingSent(s.calls) &&
               Count(s.calls, Fallback) == 0
    requires s.turn.finalDeliveryAttempted && s.turn.finalDeliveryRetries == before.turn.finalDeliveryRetries
    requires !configured ==> s.calls == before.calls
    ensures SizeAnswered(before, TooLong(s, t, configured), t, configured)
  {
    CountAppend(s.calls, Call(t, Fallback, None), Fallback);
    assert (s.calls + [Call(t, Fallback, None)])[..|s.calls|] == s.calls;
  }

  /**
    In every reachable state, a delivery that is rejected for its size leads to the one retry, which
    reopens the delivery while no message can exist, and once that is spent to the one fixed fallback.
   */
  lemma SizeRejected(killed: bool, events: seq<Event>, t: nat)
    requires var s := Run(Init(killed), events); t < |s.threads| && s.threads[t] == AwaitContent
    ensures var s := Run(Init(killed), events); SizeAnswered(s, Step(s, Answer(t, TooLarge)), t, true)
  {
    hide SizeAnswered, Settle, NothingSent, Count, TooLong;
    RunKeepsInv(killed, events);
    var s := Run(Init(killed), events);
    SettleKeepsCore(s, t, TooLarge);
    WaitsAttempted(s, t);
    SettledLength(s.calls, t, TooLarge);
    TooLongRejects(s.(calls := Settle(s.calls, t, TooLarge)), s, t, true);
  }

  lemma SettledLength(calls: seq<Call>, t: nat, outcome: Outcome)
    ensures |Settle(calls, t, outcome)| == |calls|
  {
  }

  /** Whoever waits for a delivery has it marked as attempted. */
  lemma WaitsAttempted(s: State, t: nat)
    requires Inv(s) && t < |s.threads| && Flying(s.threads[t])
    ensures s.turn.finalDeliveryAttempted
  {
  }

  /** The same for a text that is too long to be tried at all. */
  lemma HugeRejected(killed: bool, events: seq<Event>, t: nat, configured: bool)
    requires var s := Run(Init(killed), events);
      t < |s.threads| && s.threads[t] == AwaitDrain(Stop(Huge)) && s.turn.live && !s.turn.killed &&
          !s.turn.finalDeliveryAttempted
    ensures var s := Run(Init(killed), events); SizeAnswered(s, Step(s, Resume(t, configured)), t, configured)
  {
    hide SizeAnswered, NothingSent, TooLong;
    RunKeepsInv(killed, events);
    var s := Run(Init(killed), events);
    TooLongRejects(s.(turn := s.turn.(finalDeliveryAttempted := true)), s, t, configured);
  }

  /** After the retry the next finished answer is delivered, if the turn is still there and in the foreground. */
  lemma RetryDelivers(killed: bool, events: seq<Event>)
    requires var s := Run(Init(killed), events);
      Retry in s.threads && s.turn.live && !s.turn.killed && s.turn.phase == Foreground &&
          !s.turn.finalDeliveryAttempted
    ensures var s := Run(Init(killed), events);
      var next := Step(Step(s, Hook(Stop(Fits))), Resume(|s.threads|, true));
      next.calls == s.calls + [Call(|s.threads|, Content, None)] && next.threads[|s.threads|] == AwaitContent &&
          NothingSent(s.calls)
  {
    RunKeepsInv(killed, events);
  }

  // ----- what becomes of a hook -----

  /** The turn goes into its background phase if an agent runs, and is dropped when thread t goes on otherwise. */
  ghost predicate Closes(s: State, next: State, t: nat)
    requires t < |next.threads|
  {
    if s.turn.agentsActive then
      next.threads[t] == AwaitBackground && next.turn.phase == BackgroundAgents && next.turn.live == s.turn.live
    else
      && next.threads[t] == AwaitDrop && next.turn.phase == s.turn.phase && next.turn.live == s.turn.live
      && forall configured :: !Step(next, Resume(t, configured)).turn.live
  }

  /** The bubble is drained: an ordinary text goes out, once, and nothing does for a turn that is gone or served. */
  ghost predicate StopGoesOn(s: State, t: nat, m: Message, configured: bool)
    requires t < |s.threads|
  {
    var next := Step(s, Resume(t, configured));
    && |next.threads| == |s.threads|
    && (forall u :: 0 <= u < |s.threads| && u != t ==> next.threads[u] == s.threads[u])
    && if !s.turn.live || s.turn.killed || s.turn.finalDeliveryAttempted then
         && next.calls == s.calls && next.threads[t] == Finished
         && next.turn.live == (s.turn.live && !s.turn.killed)
       else if m == Fits && configured then
         next.calls == s.calls + [Call(t, Content, None)] && next.threads[t] == AwaitContent && next.turn.live
       else
         m != Huge ==> next.calls == s.calls && Closes(s, next, t)
  }

  /** Whatever happens to other threads meanwhile, a thread waits until it is resumed. */
  lemma {:induction false} StillWaits(s: State, t: nat, since: seq<Event>)
    requires t < |s.threads| && !Flying(s.threads[t])
    requires forall e :: e in since ==> !(e.Resume? && e.thread == t)
    ensures t < |Run(s, since).threads| && Run(s, since).threads[t] == s.threads[t]
  {
    if since != [] {
      var e := since[|since| - 1];
      assert e in since && forall d :: d in since[..|since| - 1] ==> d in since;
      StillWaits(s, t, since[..|since| - 1]);
    }
  }

  /**
    A Stop hook in the foreground waits for its bubble, whatever comes in between, and then goes on; behind it, and
    for a turn that is gone, it is over at once.
   */
  lemma StopWaits(s: State, m: Message, since: seq<Event>, configured: bool)
    requires forall e :: e in since ==> !(e.Resume? && e.thread == |s.threads|)
    ensures var hooked := Step(s, Hook(Stop(m)));
      var t, waiting := |s.threads|, Run(hooked, since);
      && hooked.calls == s.calls && hooked.turn == s.turn && |hooked.threads| == t + 1 && t < |waiting.threads|
      && (if s.turn.live && s.turn.phase == Foreground
          then waiting.threads[t] == AwaitDrain(Stop(m)) && StopGoesOn(waiting, t, m, configured)
          else waiting.threads[t] == Finished)
  {
    StillWaits(Step(s, Hook(Stop(m))), |s.threads|, since);
  }

  /** A delivery was attempted and none is in flight. */
  ghost predicate Served(s: State) {
    s.turn.finalDeliveryAttempted && forall u :: 0 <= u < |s.threads| ==> !Flying(s.threads[u])
  }

  lemma StepKeepsServed(s: State, e: Event)
    requires Served(s)
    ensures Served(Step(s, e)) && Step(s, e).calls == s.calls
  {
  }

  lemma {:induction false} RunKeepsServed(s: State, after: seq<Event>)
    requires Served(s)
    ensures Served(Run(s, after)) && Run(s, after).calls == s.calls
  {
    hide Step, Served;
    if after != [] {
      RunKeepsServed(s, after[..|after| - 1]);
      StepKeepsServed(Run(s, after[..|after| - 1]), after[|after| - 1]);
    }
  }

  /**
    An answer other than a size rejection of the text is the last word: the turn ends its foreground
    phase, and no call starts whatever comes after.
   */
  lemma AnsweredIsLast(killed: bool, events: seq<Event>, t: nat, outcome: Outcome, after: seq<Event>)
    requires var s := Run(Init(killed), events);
      t < |s.threads| && (s.threads[t] == AwaitFallback || (s.threads[t] == AwaitContent && outcome != TooLarge))
    ensures var s := Run(Init(killed), events);
      var told := Step(s, Answer(t, outcome));
      && s.calls != [] && s.calls[|s.calls| - 1].outcome == None
      && told.calls == s.calls[|s.calls| - 1 := s.calls[|s.calls| - 1].(outcome := Some(outcome))]
      && Closes(s, told, t)
      && Run(told, after).calls == told.calls
  {
    var s := Run(Init(killed), events);
    var told := Step(s, Answer(t, outcome));
    RunKeepsInv(killed, events);
    SettleKeepsCore(s, t, outcome);
    WaitsAttempted(s, t);
    SettlesLast(s, t, outcome);
    RunKeepsServed(told, after);
  }

  lemma SettlesLast(s: State, t: nat, outcome: Outcome)
    requires Inv(s) && t < |s.threads| && Flying(s.threads[t])
    ensures s.calls != [] && s.calls[|s.calls| - 1].outcome == None
    ensures Settle(s.calls, t, outcome) ==
            s.calls[|s.calls| - 1 := s.calls[|s.calls| - 1].(outcome := Some(outcome))]
  {
  }

  ghost predicate Unserved(s: State) {
    s.turn.live && s.calls == [] && forall u :: 0 <= u < |s.threads| ==> !Flying(s.threads[u])
  }

  lemma UndisturbedStep(s: State, e: Event)
    requires Unserved(s) && !e.Retire? && !e.Resume?
    ensures Unserved(Step(s, e))
    ensures Step(s, e).turn == s.turn.(
      runtimeFailureAttempted := Step(s, e).turn.runtimeFailureAttempted, agentsActive := Step(s, e).turn.agentsActive)
  {
  }

  /** Nothing that happens before the first hook goes on spoils the delivery. */
  lemma {:induction false} Undisturbed(s: State, events: seq<Event>)
    requires forall e :: e in events ==> !e.Retire? && !e.Resume?
    requires Unserved(s)
    ensures Unserved(Run(s, events))
    ensures var turn := Run(s, events).turn;
      turn == s.turn.(runtimeFailureAttempted := turn.runtimeFailureAttempted, agentsActive := turn.agentsActive)
  {
    hide Step, Unserved;
    if events != [] {
      var e := events[|events| - 1];
      assert e in events && forall d :: d in events[..|events| - 1] ==> d in events;
      Undisturbed(s, events[..|events| - 1]);
      UndisturbedStep(Run(s, events[..|events| - 1]), e);
    }
  }

  lemma {:induction false} NoHookYet(s: State, events: seq<Event>)
    requires forall e :: e in events ==> !e.Hook? && !e.Resume? && !e.Answer?
    ensures Run(s, events).threads == s.threads
  {
    if events != [] {
      var e := events[|events| - 1];
      assert e in events && forall d :: d in events[..|events| - 1] ==> d in events;
      NoHookYet(s, events[..|events| - 1]);
    }
  }

  /**
    The first answer of every turn is delivered, exactly once if it is answered other than by its size:
    agents may come and go, the watcher may claim the failure and further hooks may come in before the
    bubble is drained.
   */
  lemma FirstAnswerDelivered(before: seq<Event>, since: seq<Event>, outcome: Outcome, after: seq<Event>)
    requires forall e :: e in before ==> e.Agents? || e.FailureTaken?
    requires forall e :: e in since ==> !e.Retire? && !e.Resume?
    ensures var waiting := Run(Step(Run(Init(false), before), Hook(Stop(Fits))), since);
      var asked := Step(waiting, Resume(0, true));
      && asked.calls == [Call(0, Content, None)]
      && (outcome != TooLarge ==>
            Run(Step(asked, Answer(0, outcome)), after).calls == [Call(0, Content, Some(outcome))])
  {
    var s := Run(Init(false), before);
    var hooked := Step(s, Hook(Stop(Fits)));
    Undisturbed(Init(false), before);
    NoHookYet(Init(false), before);
    StopWaits(s, Fits, since, true);
    Undisturbed(hooked, since);
    if outcome != TooLarge {
      var told := Step(Step(Run(hooked, since), Resume(0, true)), Answer(0, outcome));
      RunKeepsServed(told, after);
    }
  }

  lemma TurnStep(s: State, e: Event)
    ensures Step(s, e).turn.killed == s.turn.killed
    ensures Step(s, e).turn.agentsActive == if e.Agents? then e.active else s.turn.agentsActive
  {
  }

  /** Agents run as the last of their events says, and whether the task was killed never changes. */
  lemma {:induction false} AgentsAsTold(killed: bool, events: seq<Event>, active: bool, since: seq<Event>)
    requires forall e :: e in since ==> !e.Agents?
    ensures var s := Run(Init(killed), events + [Agents(active)] + since);
      s.turn.agentsActive == active && s.turn.killed == killed
  {
    hide Step;
    var all := events + [Agents(active)] + since;
    TurnStep(Run(Init(killed), all[..|all| - 1]), all[|all| - 1]);
    if since == [] {
      assert all[..|all| - 1] == events;
      KilledStays(killed, events);
    } else {
      var e := since[|since| - 1];
      assert e in since && forall d :: d in since[..|since| - 1] ==> d in since;
      AgentsAsTold(killed, events, active, since[..|since| - 1]);
      assert all[..|all| - 1] == events + [Agents(active)] + since[..|since| - 1];
    }
  }

  lemma {:induction false} KilledStays(killed: bool, events: seq<Event>)
    ensures Run(Init(killed), events).turn.killed == killed
  {
    hide Step;
    if events != [] {
      KilledStays(killed, events[..|events| - 1]);
      TurnStep(Run(Init(killed), events[..|events| - 1]), events[|events| - 1]);
    }
  }

  // ----- the notice of a failed turn -----

  /** A thread that sends the notice has retired the turn, and there is no other. */
  ghost predicate NoticeInv(s: State) {
    forall t :: 0 <= t < |s.threads| && s.threads[t] == AwaitNotice ==> NoticedBy(s, t)
  }

  ghost predicate NoticedBy(s: State, t: nat) {
    !s.turn.live && forall u :: 0 <= u < |s.threads| && s.threads[u] == AwaitNotice ==> u == t
  }

  /** A turn that is gone gets no further notice. */
  lemma NoNewNotice(s: State, e: Event, u: nat)
    requires !s.turn.live && u < |Step(s, e).threads| && Step(s, e).threads[u] == AwaitNotice
    ensures u < |s.threads| && s.threads[u] == AwaitNotice
  {
  }

  /** A thread starts its notice when it is resumed, and retires the turn. */
  lemma NewNotice(s: State, e: Event, u: nat)
    requires u < |Step(s, e).threads| && Step(s, e).threads[u] == AwaitNotice
    requires u < |s.threads| ==> s.threads[u] != AwaitNotice
    ensures e.Resume? && e.thread == u && !Step(s, e).turn.live
  {
  }

  lemma StepKeepsNotice(s: State, e: Event)
    requires NoticeInv(s)
    ensures NoticeInv(Step(s, e))
  {
    var next := Step(s, e);
    hide Step;
    forall t | 0 <= t < |next.threads| && next.threads[t] == AwaitNotice
      ensures NoticedBy(next, t)
    {
      if s.turn.live {
        forall u | 0 <= u < |next.threads| && next.threads[u] == AwaitNotice
          ensures u == t && !next.turn.live
        {
          NewNotice(s, e, t);
          NewNotice(s, e, u);
        }
      } else {
        NoNewNotice(s, e, t);
        StepKeepsNoticedBy(s, t, e);
      }
    }
  }

  lemma StepKeepsNoticedBy(s: State, t: nat, e: Event)
    requires NoticedBy(s, t)
    ensures NoticedBy(Step(s, e), t)
  {
  }

  lemma {:induction false} RunKeepsNotice(killed: bool, events: seq<Event>)
    ensures NoticeInv(Run(Init(killed), events))
  {
    hide Step, NoticedBy;
    if events != [] {
      RunKeepsNotice(killed, events[..|events| - 1]);
      StepKeepsNotice(Run(Init(killed), events[..|events| - 1]), events[|events| - 1]);
    }
  }

  /** However hooks, watcher and answers interleave, at most one activation of a turn ever sends a failure notice. */
  lemma {:induction false} OneFailureNotice(killed: bool, events: seq<Event>, after: seq<Event>, t: nat)
    requires var s := Run(Init(killed), events); t < |s.threads| && s.threads[t] == AwaitNotice
    ensures NoticedBy(Run(Run(Init(killed), events), after), t)
  {
    hide Step, NoticedBy;
    var s := Run(Init(killed), events);
    if after == [] {
      RunKeepsNotice(killed, events);
    } else {
      OneFailureNotice(killed, events, after[..|after| - 1], t);
      StepKeepsNoticedBy(Run(s, after[..|after| - 1]), t, after[|after| - 1]);
    }
  }

  /** From the drained bubble a failed turn is retired for its notice, unless the failure is taken or the turn gone. */
  ghost predicate FailureGoesOn(s: State, t: nat, configured: bool)
    requires t < |s.threads|
  {
    var next := Step(s, Resume(t, configured));
    && next.calls == s.calls && |next.threads| == |s.threads| && next.turn.killed == s.turn.killed
    && next.threads[t] == (
      if s.turn.live && !s.turn.killed && !s.turn.runtimeFailureAttempted then AwaitNotice else Finished)
    && (next.turn.live <==> s.turn.live && !s.turn.killed && s.turn.runtimeFailureAttempted)
  }

  /**
    A StopFailure hook waits for its bubble, with a rate limit first for the structured failure, whatever
    comes in between; behind the foreground it takes the failure at once or is over.
   */
  lemma FailureWaits(s: State, rateLimit: bool, since: seq<Event>, configured: bool)
    requires forall e :: e in since ==> !(e.Resume? && e.thread == |s.threads|)
    ensures var h := StopFailure(rateLimit);
      var hooked := Step(s, Hook(h));
      var t, waiting := |s.threads|, Run(hooked, since);
      && hooked.calls == s.calls && t < |waiting.threads|
      && waiting.threads[t] == (
        if !s.turn.live then Finished
        else if rateLimit then AwaitFailureGrace(h)
        else if s.turn.phase == Foreground then AwaitDrain(h)
        else if s.turn.runtimeFailureAttempted then Finished else AwaitFailureDrain)
      && (waiting.threads[t].AwaitDrain? ==> FailureGoesOn(waiting, t, configured))
      && (waiting.threads[t].AwaitFailureDrain? ==>
            Step(waiting, Resume(t, configured)).threads[t] == if waiting.turn.live then AwaitNotice else Finished)
  {
    StillWaits(Step(s, Hook(StopFailure(rateLimit))), |s.threads|, since);
  }

  /**
    The wait for the structured failure ends without a notice of its own exactly if the failure was taken or the turn is
    gone.
   */
  lemma GraceEnds(s: State, t: nat, h: Hook, since: seq<Event>, configured: bool)
    requires t < |s.threads| && s.threads[t] == AwaitFailureGrace(h) && h.StopFailure?
    requires forall e :: e in since ==> !(e.Resume? && e.thread == t)
    ensures var next := Step(s, Resume(t, configured));
      var waiting := Run(next, since);
      && |next.threads| == |s.threads| && next.calls == s.calls && t < |waiting.threads|
      && waiting.threads[t] == (
        if !s.turn.live || s.turn.runtimeFailureAttempted then Finished
        else if s.turn.phase == Foreground then AwaitDrain(h) else AwaitFailureDrain)
      && (waiting.threads[t].AwaitDrain? ==> FailureGoesOn(waiting, t, configured))
  {
    StillWaits(Step(s, Resume(t, configured)), t, since);
  }
}
