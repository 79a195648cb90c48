/** The broker's limiter: a list of recent reservations in a file, filtered and extended under a lock. */
module RateLimiter {
  import opened Wrappers
  import opened OrderedMap

  const RATE_WINDOW_SECONDS: real := 60.0
  const MAX_PENDING_JOBS := 4
  const MAX_PENDING_MEMORY_REVIEW_JOBS := 2

  function Later(t: real): real -> bool { (v: real) => v > t }

  function Within(from: real, to: real): real -> bool { (v: real) => from < v <= to }

  /** The number of reservations in the window of this length that ends with t; its start does not belong to it. */
  function InWindow(times: seq<real>, length: real, t: real): nat { |Filter(times, Within(t - length, t))| }

  ghost predicate Limited(times: seq<real>, length: real, burst: nat) {
    forall t: real :: InWindow(times, length, t) <= burst
  }

  ghost predicate NoneAfter(times: seq<real>, t: real) { forall v :: v in times ==> v <= t }

  /** The clock never went back by more than d. */
  ghost predicate Back(times: seq<real>, d: real) { forall i, j :: 0 <= i < j < |times| ==> times[i] <= times[j] + d }

  /**
    The clock never went back by more than a second; if by no more than d, then every window shorter by d than a minute
    is within bounds.
   */
  ghost predicate Bounded(times: seq<real>, burst: nat) {
    && Back(times, 1.0)
    && forall d: real :: 0.0 <= d <= 1.0 && Back(times, d) ==> Limited(times, RATE_WINDOW_SECONDS - d, burst)
  }

  /** The file agrees with the whole history on everything in the minute before the latest reservation. */
  ghost predicate Remembers(stored: seq<real>, history: seq<real>, latest: real) {
    if history == [] then stored == []
    else
      && latest in history && latest in stored && NoneAfter(history, latest)
      && Filter(stored, Later(latest - RATE_WINDOW_SECONDS)) == Filter(history, Later(latest - RATE_WINDOW_SECONDS))
  }

  /**
    If fewer than burst reservations are known to lie in the last stretch, one more keeps every window of that length
    within bounds.
   */
  lemma OneMore(history: seq<real>, now: real, length: real, burst: nat)
    requires Limited(history, length, burst) && |Filter(history, Later(now - length))| < burst
    ensures Limited(history + [now], length, burst)
  {
    forall t: real ensures InWindow(history + [now], length, t) <= burst {
      FilterConcat(history, [now], Within(t - length, t));
      assert InWindow(history, length, t) <= burst;
      if t - length < now <= t {
        FilterNested(history, Later(now - length), Within(t - length, t));
      }
    }
  }

  /**
    What the file still holds is enough to count the last stretch, as long as the clock has not gone back beyond it.
   */
  lemma FileCounts(stored: seq<real>, history: seq<real>, latest: real, now: real, length: real)
    requires Remembers(stored, history, latest) && length <= RATE_WINDOW_SECONDS
    requires history != [] ==> latest - RATE_WINDOW_SECONDS <= now - length
    ensures |Filter(history, Later(now - length))| <= |Filter(stored, Later(now - RATE_WINDOW_SECONDS))|
  {
    if history != [] {
      FilterNested(history, Later(latest - RATE_WINDOW_SECONDS), Later(now - length));
      FilterNested(stored, Later(latest - RATE_WINDOW_SECONDS), Later(now - length));
      FilterNested(stored, Later(now - RATE_WINDOW_SECONDS), Later(now - length));
    }
  }

  /** By a clock that has not gone back the file counts just what the history does, and holds nothing of the future. */
  lemma FileAgrees(stored: seq<real>, history: seq<real>, latest: real, now: real)
    requires Remembers(stored, history, latest) && NoneAfter(history, now)
    ensures Filter(stored, Later(now - RATE_WINDOW_SECONDS)) == Filter(history, Later(now - RATE_WINDOW_SECONDS))
    ensures NoneAfter(stored, now + 1.0)
  {
    if history != [] {
      var recent := Later(latest - RATE_WINDOW_SECONDS);
      FilterNested(history, recent, Later(now - RATE_WINDOW_SECONDS));
      FilterNested(stored, recent, Later(now - RATE_WINDOW_SECONDS));
      FilterMembers(stored, recent);
      FilterMembers(history, recent);
      forall v | v in stored ensures v <= now + 1.0 {
        if v > latest - RATE_WINDOW_SECONDS { assert v in Filter(stored, recent) && v in history; }
      }
    }
  }

  /** Filtering by the current minute and adding the new time keeps the file in agreement with the history. */
  lemma StillRemembers(stored: seq<real>, history: seq<real>, latest: real, now: real)
    requires Remembers(stored, history, latest)
    ensures Remembers(Filter(stored, Later(now - RATE_WINDOW_SECONDS)) + [now], history + [now],
                      if history == [] || latest < now then now else latest)
  {
    var kept := Filter(stored, Later(now - RATE_WINDOW_SECONDS));
    var newest := if history == [] || latest < now then now else latest;
    var recent := Later(newest - RATE_WINDOW_SECONDS);
    hide Filter;
    FilterMembers(stored, Later(now - RATE_WINDOW_SECONDS));
    FilterLast(kept, now, recent);
    FilterLast(history, now, recent);
    FilterNested(stored, Later(now - RATE_WINDOW_SECONDS), recent);
    if history != [] {
      FilterNested(history, Later(latest - RATE_WINDOW_SECONDS), recent);
      FilterNested(stored, Later(latest - RATE_WINDOW_SECONDS), recent);
    }
  }

  datatype Action = Interactive | MemoryReview

  function MaxPending(action: Action): nat {
    if action == MemoryReview then MAX_PENDING_MEMORY_REVIEW_JOBS else MAX_PENDING_JOBS
  }

  class Limiter {
    const burst: nat
    var stored: Option<seq<real>>
    var schedule: seq<Fault>
    /** Every reservation written, and the latest of their times. */
    ghost var history: seq<real>
    ghost var latest: real

    ghost predicate Valid()
      reads this
    {
      Remembers(Times(), history, latest) && Bounded(history, burst)
    }

    function Times(): seq<real>
      reads this
    {
      if stored.Some? then stored.value else []
    }

    constructor (limit: nat)
      ensures Valid() && burst == limit && stored == None && history == [] && schedule == []
    {
      burst, stored, schedule, history, latest := limit, None, [], [], 0.0;
    }

    method Pause() returns (t: Fault)
      modifies this`schedule
      ensures old(schedule) == [] ==> schedule == [] && t == Fine
    {
      if schedule == [] { return Fine; }
      t, schedule := schedule[0], schedule[1..];
    }

    /** The stored times still inside the window; a time in the future is an error. */
    method ReadTimestamps(current: real) returns (r: Flow<seq<real>>)
      modifies this`schedule
      ensures r.Return? ==>
                r.value == Filter(Times(), Later(current - RATE_WINDOW_SECONDS)) && NoneAfter(Times(), current + 1.0)
      ensures old(schedule) == [] && NoneAfter(Times(), current + 1.0) ==> schedule == [] && r.Return?
    {
      var t := Pause();
      if t == Crash { return Die; }
      if t != Fine { return Throw; }
      var values, timestamps := Times(), [];
      for i := 0 to |values|
        invariant timestamps == Filter(values[..i], Later(current - RATE_WINDOW_SECONDS))
        invariant forall v :: v in values[..i] ==> v <= current + 1.0
        invariant old(schedule) == [] ==> schedule == []
      {
        assert values[i] in values;
        if values[i] > current + 1.0 { return Throw; }
        assert values[..i + 1] == values[..i] + [values[i]];
        FilterConcat(values[..i], [values[i]], Later(current - RATE_WINDOW_SECONDS));
        if values[i] > current - RATE_WINDOW_SECONDS {
          timestamps := timestamps + [values[i]];
        }
      }
      assert values[..|values|] == values;
      return Return(timestamps);
    }

    /** _reserve_mutation; pending: the jobs already running, as systemd counts them. */
    method ReserveMutation(action: Action, pending: nat, current: real) returns (r: Flow<()>)
      requires Valid()
      modifies this`stored, this`schedule, this`history, this`latest
      ensures Valid()
      ensures (history == old(history) && Times() == old(Times()))
              || (history == old(history) + [current] &&
                    Times() == Filter(old(Times()), Later(current - RATE_WINDOW_SECONDS)) + [current])
      ensures r.Return? ==> history == old(history) + [current]
      ensures pending >= MaxPending(action) ==> !r.Return? && history == old(history)
      ensures old(schedule) == [] && NoneAfter(old(Times()), current + 1.0) && pending < MaxPending(action) ==>
                schedule == [] && r.Return? == (|Filter(old(Times()), Later(current - RATE_WINDOW_SECONDS))| < burst)
    {
      hide Bounded, Remembers, Filter, Later;
      if pending >= MaxPending(action) { return Throw; }
      var timestamps :- ReadTimestamps(current);
      if |timestamps| >= burst { return Throw; }
      var t := Pause();
      if t == Crash { return Die; }
      if t == Fail { return Throw; }
      Accepted(Times(), history, latest, current, burst);
      StillRemembers(Times(), history, latest, current);
      latest := if history == [] || latest < current then current else latest;
      stored, history := Some(timestamps + [current]), history + [current];
      if t == Late { return Throw; }
      return Return(());
    }

    /** An untroubled call that finds these times still inside the window. */
    method Grant(current: real, kept: seq<real>)
      requires Valid() && schedule == [] && NoneAfter(Times(), current + 1.0)
      requires Filter(Times(), Later(current - RATE_WINDOW_SECONDS)) == kept && |kept| < burst
      modifies this`stored, this`schedule, this`history, this`latest
      ensures Valid() && schedule == [] && Times() == kept + [current] && history == old(history) + [current]
    {
      var _ := ReserveMutation(Interactive, 0, current);
    }
  }

  /** A reservation granted keeps the bounds of every window the clock allows for. */
  lemma Accepted(stored: seq<real>, history: seq<real>, latest: real, now: real, burst: nat)
    requires Remembers(stored, history, latest) && NoneAfter(stored, now + 1.0)
    requires |Filter(stored, Later(now - RATE_WINDOW_SECONDS))| < burst && Bounded(history, burst)
    ensures Bounded(history + [now], burst)
  {
    hide Limited, Filter, Later;
    var all := history + [now];
    forall i, j | 0 <= i < j < |all| ensures all[i] <= all[j] + 1.0 {
      if j < |history| {
        assert all[j] == history[j] && all[i] == history[i];
      } else {
        assert all[i] == history[i] && history[i] in history && history[i] <= latest <= now + 1.0;
      }
    }
    forall d: real | 0.0 <= d <= 1.0 && Back(all, d) ensures Limited(all, RATE_WINDOW_SECONDS - d, burst) {
      BackBefore(history, now, d);
      if history != [] {
        var i :| 0 <= i < |history| && history[i] == latest;
        assert all[i] == latest && all[|history|] == now;
      }
      FileCounts(stored, history, latest, now, RATE_WINDOW_SECONDS - d);
      OneMore(history, now, RATE_WINDOW_SECONDS - d, burst);
    }
  }

  lemma BackBefore(history: seq<real>, now: real, d: real)
    requires Back(history + [now], d)
    ensures Back(history, d)
  {
    var all := history + [now];
    forall i, j | 0 <= i < j < |history| ensures history[i] <= history[j] + d {
      assert all[i] == history[i] && all[j] == history[j];
    }
  }

  // ----- runs -----

  datatype Call = Call(action: Action, pending: nat, time: real, faults: seq<Fault>)

  /**
    Any calls, at any times and failing wherever they may: the times of the reservations granted never go
    back by more than a second, and if they go back by no more than d, then no more than burst of them lie
    within 60 - d seconds: 60 if the clock never went back,
        59 in any case. What is granted is written. The limiter reads the clock
    before it waits for its lock, so that going back is possible.
   */
  method Run(burst: nat, calls: seq<Call>) returns (granted: seq<bool>, ghost written: seq<bool>)
    ensures |granted| == |written| == |calls|
    ensures forall i :: 0 <= i < |calls| ==>
              Answered(calls[i], TimesOf(calls[..i], written[..i]), granted[i], written[i], burst)
    ensures Bounded(TimesOf(calls, written), burst)
  {
    hide Bounded, Remembers, Filter, InWindow, Later, TimesOf, Answered, AllAnswered;
    var limiter := new Limiter(burst);
    granted, written := [], [];
    NothingAsked(calls, burst);
    for i := 0 to |calls|
      invariant fresh(limiter) && limiter.Valid() && limiter.burst == burst
      invariant |granted| == |written| == i && AllAnswered(calls, granted, written, burst)
      invariant limiter.history == TimesOf(calls[..i], written)
    {
      limiter.schedule := calls[i].faults;
      if NoneAfter(limiter.history, calls[i].time) {
        FileAgrees(limiter.Times(), limiter.history, limiter.latest, calls[i].time);
      }
      var r := limiter.ReserveMutation(calls[i].action, calls[i].pending, calls[i].time);
      ghost var w := limiter.history != TimesOf(calls[..i], written);
      ThisAnswered(calls[i], TimesOf(calls[..i], written), r.Return?, w, burst, limiter.history);
      Ask(calls, granted, written, r.Return?, w, burst, limiter.history);
      granted, written := granted + [r.Return?], written + [w];
    }
    assert calls[..|calls|] == calls;
    WereAnswered(calls, granted, written, burst);
  }

  /** The times of the reservations written, in the order of the calls. */
  function TimesOf(calls: seq<Call>, written: seq<bool>): seq<real>
    requires |written| == |calls|
  {
    if calls == [] then []
    else
      var n := |calls| - 1;
      TimesOf(calls[..n], written[..n]) + if written[n] then [calls[n].time] else []
  }

  /**
    One call, given the reservations before it: what is granted is written, and never beyond the bounds.
    An untroubled call by a clock that has not gone back is granted exactly if fewer than burst of them
    lie in its last minute.
   */
  ghost predicate Answered(call: Call, before: seq<real>, granted: bool, written: bool, burst: nat) {
    && (granted ==> written)
    && (written ==>
          call.pending < (if call.action == MemoryReview then 2 else 4) && Bounded(before + [call.time], burst))
    && (call.faults == [] && call.pending < (if call.action == MemoryReview then 2 else 4) &&
          NoneAfter(before, call.time) ==>
          (granted <==> |Filter(before, Later(call.time - RATE_WINDOW_SECONDS))| < burst))
  }

  lemma ThisAnswered(call: Call, before: seq<real>, granted: bool, written: bool, burst: nat, history: seq<real>)
    requires history == (if written then before + [call.time] else before) && (granted ==> written)
    requires written ==> call.pending < MaxPending(call.action) && Bounded(history, burst)
    requires call.faults == [] && call.pending < MaxPending(call.action) && NoneAfter(before, call.time) ==>
               (granted <==> |Filter(before, Later(call.time - RATE_WINDOW_SECONDS))| < burst)
    ensures Answered(call, before, granted, written, burst)
  {
  }

  ghost predicate AnsweredAt(calls: seq<Call>, granted: seq<bool>, written: seq<bool>, i: nat, burst: nat)
    requires i < |granted| == |written| <= |calls|
  {
    Answered(calls[i], TimesOf(calls[..i], written[..i]), granted[i], written[i], burst)
  }

  ghost predicate AllAnswered(calls: seq<Call>, granted: seq<bool>, written: seq<bool>, burst: nat) {
    |granted| == |written| <= |calls| && forall i :: 0 <= i < |granted| ==>
        AnsweredAt(calls, granted, written, i, burst)
  }

  lemma NothingAsked(calls: seq<Call>, burst: nat)
    ensures AllAnswered(calls, [], [], burst) && TimesOf(calls[..0], []) == []
  {
  }

  lemma WereAnswered(calls: seq<Call>, granted: seq<bool>, written: seq<bool>, burst: nat)
    requires AllAnswered(calls, granted, written, burst)
    ensures forall i :: 0 <= i < |granted| ==>
              Answered(calls[i], TimesOf(calls[..i], written[..i]), granted[i], written[i], burst)
  {
    hide Answered;
    forall i | 0 <= i < |granted|
      ensures Answered(calls[i], TimesOf(calls[..i], written[..i]), granted[i], written[i], burst)
    {
      assert AnsweredAt(calls, granted, written, i, burst);
    }
  }

  lemma Ask(
    calls: seq<Call>, granted: seq<bool>, written: seq<bool>, g: bool, w: bool, burst: nat, history: seq<real>)
    requires AllAnswered(calls, granted, written, burst) && |granted| < |calls|
    requires var i := |granted|; var before := TimesOf(calls[..i], written);
      && Answered(calls[i], before, g, w, burst) && history == if w then before + [calls[i].time] else before
    ensures AllAnswered(calls, granted + [g], written + [w], burst)
    ensures TimesOf(calls[..|granted| + 1], written + [w]) == history
  {
    hide Answered;
    var i := |granted|;
    assert calls[..i + 1][..i] == calls[..i] && (written + [w])[..i] == written;
    forall k | 0 <= k <= i ensures AnsweredAt(calls, granted + [g], written + [w], k, burst) {
      if k < i { assert (written + [w])[..k] == written[..k] && AnsweredAt(calls, granted, written, k, burst); }
    }
  }

  lemma FilterNothing(p: real -> bool)
    ensures Filter([], p) == []
  {
  }

  lemma CountLast(times: seq<real>, v: real)
    ensures InWindow(times + [v], RATE_WINDOW_SECONDS, 59.5) ==
            InWindow(times, RATE_WINDOW_SECONDS, 59.5) + if 59.5 - RATE_WINDOW_SECONDS < v <= 59.5 then 1 else 0
  {
    FilterLast(times, v, Within(59.5 - RATE_WINDOW_SECONDS, 59.5));
  }

  lemma ThreeInAMinute()
    ensures InWindow([] + [0.0] + [0.1] + [60.1] + [59.5], RATE_WINDOW_SECONDS, 59.5) == 3
  {
    FilterNothing(Within(59.5 - RATE_WINDOW_SECONDS, 59.5));
    hide InWindow;
    assert InWindow([], RATE_WINDOW_SECONDS, 59.5) == 0 by { NothingInWindow(); }
    CountLast([], 0.0);
    CountLast([] + [0.0], 0.1);
    CountLast([] + [0.0] + [0.1], 60.1);
    CountLast([] + [0.0] + [0.1] + [60.1], 59.5);
  }

  lemma NothingInWindow()
    ensures InWindow([], RATE_WINDOW_SECONDS, 59.5) == 0
  {
  }

  lemma KeptOf(a: seq<real>, b: real, now: real)
    ensures Filter(a + [b], Later(now - RATE_WINDOW_SECONDS)) ==
            Filter(a, Later(now - RATE_WINDOW_SECONDS)) + if b > now - RATE_WINDOW_SECONDS then [b] else []
  {
    FilterLast(a, b, Later(now - RATE_WINDOW_SECONDS));
  }

  /**
    With a clock that goes back by less than a second, three reservations fit into one minute although the burst is two.
   */
  method ClockGoesBack() returns (limiter: Limiter)
    ensures limiter.burst == 2 && limiter.history == [] + [0.0] + [0.1] + [60.1] + [59.5]
    ensures InWindow(limiter.history, RATE_WINDOW_SECONDS, 59.5) == 3
  {
    hide Bounded, Remembers, Filter, InWindow, Later;
    ThreeInAMinute();
    limiter := new Limiter(2);
    FilterNothing(Later(0.0 - RATE_WINDOW_SECONDS));
    limiter.Grant(0.0, []);
    FilterNothing(Later(0.1 - RATE_WINDOW_SECONDS));
    KeptOf([], 0.0, 0.1);
    limiter.Grant(0.1, [] + [0.0]);
    FilterNothing(Later(60.1 - RATE_WINDOW_SECONDS));
    KeptOf([], 0.0, 60.1);
    KeptOf([] + [0.0], 0.1, 60.1);
    limiter.Grant(60.1, []);
    FilterNothing(Later(59.5 - RATE_WINDOW_SECONDS));
    KeptOf([], 60.1, 59.5);
    limiter.Grant(59.5, [] + [60.1]);
  }
}
