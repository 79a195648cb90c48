/** The scan of a whole transcript for background tasks that were launched and never reported finished. */
module BackgroundTasks {
  import opened LineFraming
  import opened Wrappers

  const TASK_SCAN_CHUNK_BYTES: nat := 64 * 1024
  const MAX_TASK_SCAN_LINE_BYTES: nat := 1024 * 1024
  const MAX_TRACKED_BACKGROUND_TASKS := 256

  datatype Notification = Notification(taskId: Option<string>, toolUseId: Option<string>)

  /** A user row: its tool results if it reports launched tasks, and the terminal notifications in its texts. */
  datatype Row = Row(
    launched: bool, agentId: Option<string>, toolResults: seq<string>, notifications: seq<Notification>)

  datatype Event = Launch(id: string, agentId: Option<string>) | Notice(notification: Notification)

  datatype Tracked = Tracked(ids: set<string>, aliases: map<string, string>)

  /** The task a notification speaks for; none if its two names disagree. */
  function Resolve(aliases: map<string, string>, n: Notification): Option<string> {
    var aliased := if n.taskId.Some? && n.taskId.value in aliases then Some(aliases[n.taskId.value]) else None;
    if n.toolUseId.Some? && n.taskId.Some? && aliased != n.toolUseId then None
    else if n.toolUseId.Some? then n.toolUseId
    else aliased
  }

  function Apply(t: Tracked, e: Event): Tracked {
    match e
    case Launch(id, agentId) =>
      Tracked(t.ids + {id}, if agentId.Some? && agentId.value !in t.aliases then t.aliases[agentId.value := id]
          else t.aliases)
    case Notice(n) =>
      var id := Resolve(t.aliases, n);
      if id == None then t
      else Tracked(t.ids - {id.value}, if n.taskId.Some? then t.aliases - {n.taskId.value} else t.aliases)
  }

  /** What is tracked after all events, had the number of tasks no bound. */
  function After(events: seq<Event>): Tracked {
    if events == [] then Tracked({}, map[]) else Apply(After(events[..|events| - 1]), events[|events| - 1])
  }

  // ----- what the tracked set means -----

  ghost predicate Closes(events: seq<Event>, j: nat, id: string)
    requires j < |events|
  {
    events[j].Notice? && Resolve(After(events[..j]).aliases, events[j].notification) == Some(id)
  }

  /** The task launched by event i has not been reported finished since. */
  ghost predicate Unfinished(events: seq<Event>, i: nat, id: string)
    requires i < |events|
  {
    && events[i].Launch? && events[i].id == id
    && forall j :: i < j < |events| ==> !Closes(events, j, id)
  }

  lemma {:induction false} TrackedAreUnfinished(events: seq<Event>, id: string)
    ensures id in After(events).ids <==> exists i :: 0 <= i < |events| && Unfinished(events, i, id)
  {
    if events != [] {
      var n := |events| - 1;
      var before := events[..n];
      TrackedAreUnfinished(before, id);
      forall j | 0 <= j < n ensures Closes(events, j, id) == Closes(before, j, id) {
        assert events[..j] == before[..j];
      }
      forall i | 0 <= i < n ensures Unfinished(events, i, id) == (Unfinished(before, i, id) && !Closes(events, n, id)) {
        assert Unfinished(before, i, id) && !Closes(events, n, id) ==> Unfinished(events, i, id);
        assert Unfinished(events, i, id) ==> forall j :: i < j < n ==> Closes(events, j, id) == Closes(before, j, id);
      }
      assert Unfinished(events, n, id) == (events[n].Launch? && events[n].id == id);
    }
  }

  /** Task id a names the task that launch i has started: no notification has taken the name since, nor was it taken. */
  ghost predicate Named(events: seq<Event>, a: string, i: nat)
    requires i < |events|
  {
    && events[i].Launch? && events[i].agentId == Some(a)
    && (forall m :: i < m < |events| ==> !Frees(events, m, a))
    && (forall k :: 0 <= k < i && events[k].Launch? && events[k].agentId == Some(a) ==> FreedIn(events, a, k, i))
  }

  ghost predicate FreedIn(events: seq<Event>, a: string, k: nat, i: nat)
    requires i <= |events|
  {
    exists m :: k < m < i && Frees(events, m, a)
  }

  /** A notification by the name a closes a task, and the name is free again. */
  ghost predicate Frees(events: seq<Event>, m: nat, a: string)
    requires m < |events|
  {
    events[m].Notice? && events[m].notification.taskId == Some(a) && exists id :: Closes(events, m, id)
  }

  ghost predicate Bears(events: seq<Event>, a: string, id: string) {
    exists i :: 0 <= i < |events| && Named(events, a, i) && events[i].id == id
  }

  lemma FreesBefore(before: seq<Event>, e: Event, m: nat, a: string)
    requires m < |before|
    ensures Frees(before + [e], m, a) <==> Frees(before, m, a)
  {
    var all := before + [e];
    assert all[..m] == before[..m] && all[m] == before[m];
    assert forall id :: Closes(all, m, id) <==> Closes(before, m, id);
  }

  lemma FreedBefore(before: seq<Event>, e: Event, a: string, k: nat, i: nat)
    requires i <= |before|
    ensures FreedIn(before + [e], a, k, i) <==> FreedIn(before, a, k, i)
  {
    forall m | 0 <= m < |before| ensures Frees(before + [e], m, a) <==> Frees(before, m, a) {
      FreesBefore(before, e, m, a);
    }
  }

  lemma NamedBefore(before: seq<Event>, e: Event, a: string, i: nat)
    requires i < |before|
    ensures Named(before + [e], a, i) <==> Named(before, a, i) && !Frees(before + [e], |before|, a)
  {
    hide Frees, FreedIn;
    forall m | 0 <= m < |before| ensures Frees(before + [e], m, a) <==> Frees(before, m, a) {
      FreesBefore(before, e, m, a);
    }
    forall k | 0 <= k < i ensures FreedIn(before + [e], a, k, i) <==> FreedIn(before, a, k, i) {
      FreedBefore(before, e, a, k, i);
    }
  }

  /**
    The aliases name the tasks of the launches that brought them; a name without a task is free again for all launches.
   */
  lemma {:induction false} AliasesMean(events: seq<Event>, a: string)
    ensures forall i :: 0 <= i < |events| && Named(events, a, i) ==>
              a in After(events).aliases && After(events).aliases[a] == events[i].id
    ensures a in After(events).aliases ==> Bears(events, a, After(events).aliases[a])
    ensures a !in After(events).aliases ==>
              forall k :: 0 <= k < |events| && events[k].Launch? && events[k].agentId == Some(a) ==>
                FreedIn(events, a, k, |events|)
  {
    if events != [] {
      var n := |events| - 1;
      var before, e := events[..n], events[n];
      assert events == before + [e];
      AliasesMean(before, a);
      AliasOneMore(before, e, a);
    }
  }

  lemma AliasOneMore(before: seq<Event>, e: Event, a: string)
    requires forall i :: 0 <= i < |before| && Named(before, a, i) ==>
               a in After(before).aliases && After(before).aliases[a] == before[i].id
    requires a in After(before).aliases ==> Bears(before, a, After(before).aliases[a])
    requires a !in After(before).aliases ==>
               forall k :: 0 <= k < |before| && before[k].Launch? && before[k].agentId == Some(a) ==>
                 FreedIn(before, a, k, |before|)
    ensures var events := before + [e];
      && (forall i :: 0 <= i < |events| && Named(events, a, i) ==>
            a in After(events).aliases && After(events).aliases[a] == events[i].id)
      && (a in After(events).aliases ==> Bears(events, a, After(events).aliases[a]))
      && (a !in After(events).aliases ==>
            forall k :: 0 <= k < |events| && events[k].Launch? && events[k].agentId == Some(a) ==>
              FreedIn(events, a, k, |events|))
  {
    var events, n := before + [e], |before|;
    AliasAfter(before, e, a);
    hide After, Frees, FreedIn, Apply, Resolve;
    forall i | 0 <= i < n ensures Named(events, a, i) <==> Named(before, a, i) && !Frees(events, n, a) {
      NamedBefore(before, e, a, i);
    }
    forall k | 0 <= k < n ensures FreedIn(events, a, k, n) <==> FreedIn(before, a, k, n) {
      FreedBefore(before, e, a, k, n);
    }
    forall k | 0 <= k < n ensures FreedIn(events, a, k, |events|) <==> FreedIn(events, a, k, n) || Frees(events, n, a) {
      FreedLater(events, a, k);
    }
    if a in After(before).aliases {
      var i :| 0 <= i < n && Named(before, a, i) && before[i].id == After(before).aliases[a];
      assert events[i] == before[i];
      NotFreed(before, a, i);
      if Frees(events, n, a) {} else { assert Named(events, a, i); }
    } else if e.Launch? && e.agentId == Some(a) {
      assert Named(events, a, n);
    }
  }

  lemma NotFreed(events: seq<Event>, a: string, i: nat)
    requires i < |events| && Named(events, a, i)
    ensures !FreedIn(events, a, i, |events|)
  {
  }

  lemma FreedLater(events: seq<Event>, a: string, k: nat)
    requires k < |events| - 1
    ensures FreedIn(events, a, k, |events|) <==> FreedIn(events, a, k, |events| - 1) || Frees(events, |events| - 1, a)
  {
    hide Frees;
  }

  lemma AliasAfter(before: seq<Event>, e: Event, a: string)
    ensures var was, now := After(before).aliases, After(before + [e]).aliases;
      if Frees(before + [e], |before|, a) then e.Notice? && a !in now
      else if e.Launch? && e.agentId == Some(a) && a !in was then a in now && now[a] == e.id
      else (a in now <==> a in was) && (a in was ==> now[a] == was[a])
  {
    var all := before + [e];
    assert all[..|before|] == before;
    if e.Notice? {
      var id := Resolve(After(before).aliases, e.notification);
      assert id.Some? ==> Closes(all, |before|, id.value);
    }
  }

  /**
    A notification closes the task that its tool id names, unless a task id given besides names another or none, and
    without a tool id the one its task id names.
   */
  lemma ClosesMeans(events: seq<Event>, j: nat, id: string)
    requires j < |events| && events[j].Notice?
    ensures var n := events[j].notification;
      Closes(events, j, id) <==>
        if n.toolUseId.Some? then
          n.toolUseId.value == id && (n.taskId.Some? ==> Bears(events[..j], n.taskId.value, id))
        else n.taskId.Some? && Bears(events[..j], n.taskId.value, id)
  {
    var n := events[j].notification;
    if n.taskId.Some? {
      AliasesMean(events[..j], n.taskId.value);
      hide Named, After;
    }
  }

  /** Event k launches one task more than can be tracked. */
  ghost predicate Exceeds(events: seq<Event>, k: nat)
    requires k < |events|
  {
    && events[k].Launch? && events[k].id !in After(events[..k]).ids
    && |After(events[..k]).ids| >= MAX_TRACKED_BACKGROUND_TASKS
  }

  ghost predicate Overflow(events: seq<Event>) { exists k :: 0 <= k < |events| && Exceeds(events, k) }

  /** The answer of the scan. */
  ghost predicate Incomplete(events: seq<Event>) {
    Overflow(events) || exists i :: 0 <= i < |events| && events[i].Launch? && Unfinished(events, i, events[i].id)
  }

  lemma TrackedOrNot(events: seq<Event>)
    ensures Incomplete(events) == (Overflow(events) || After(events).ids != {})
  {
    if id :| id in After(events).ids {
      TrackedAreUnfinished(events, id);
    }
    forall i | 0 <= i < |events| && events[i].Launch? && Unfinished(events, i, events[i].id)
      ensures After(events).ids != {}
    {
      TrackedAreUnfinished(events, events[i].id);
    }
  }

  lemma {:induction false} AfterExtends(events: seq<Event>, more: seq<Event>)
    ensures Overflow(events) ==> Overflow(events + more)
  {
    if k :| 0 <= k < |events| && Exceeds(events, k) {
      assert (events + more)[..k] == events[..k];
      assert Exceeds(events + more, k);
    }
  }

  lemma AfterNext(events: seq<Event>, e: Event)
    ensures After(events + [e]) == Apply(After(events), e)
    ensures Overflow(events + [e]) ==
            (Overflow(events) ||
                (e.Launch? && e.id !in After(events).ids && |After(events).ids| >= MAX_TRACKED_BACKGROUND_TASKS))
  {
    var all := events + [e];
    assert all[..|events|] == events;
    AfterExtends(events, [e]);
    forall k | 0 <= k < |events| ensures Exceeds(all, k) == Exceeds(events, k) {
      assert all[..k] == events[..k];
    }
    assert Exceeds(all, |events|) ==
        (e.Launch? && e.id !in After(events).ids && |After(events).ids| >= MAX_TRACKED_BACKGROUND_TASKS);
  }

  // ----- rows -----

  function Launches(agentId: Option<string>, ids: seq<string>): seq<Event> {
    seq(|ids|, i requires 0 <= i < |ids| => Launch(ids[i], agentId))
  }

  function Notices(notifications: seq<Notification>): seq<Event> {
    seq(|notifications|, i requires 0 <= i < |notifications| => Notice(notifications[i]))
  }

  /** Launches first, then notifications. */
  function RowEvents(row: Row): seq<Event> {
    (if row.launched then Launches(row.agentId, row.toolResults) else []) + Notices(row.notifications)
  }

  lemma RowEventsAt(row: Row)
    ensures var launched := if row.launched then |row.toolResults| else 0;
            && |RowEvents(row)| == launched + |row.notifications|
            && (forall i :: 0 <= i < launched ==> RowEvents(row)[i] == Launch(row.toolResults[i], row.agentId))
            && (forall i :: 0 <= i < |row.notifications| ==>
                  RowEvents(row)[launched + i] == Notice(row.notifications[i]))
  {
  }

  function LineEvents(line: seq<Byte>, parse: seq<Byte> -> Option<Row>): seq<Event> {
    match parse(line)
    case None => []
    case Some(row) => RowEvents(row)
  }

  function Events(lines: seq<seq<Byte>>, parse: seq<Byte> -> Option<Row>): seq<Event> {
    if lines == [] then [] else Events(lines[..|lines| - 1], parse) + LineEvents(lines[|lines| - 1], parse)
  }

  lemma {:induction false} EventsConcat(a: seq<seq<Byte>>, b: seq<seq<Byte>>, parse: seq<Byte> -> Option<Row>)
    ensures Events(a + b, parse) == Events(a, parse) + Events(b, parse)
  {
    hide LineEvents;
    if b == [] {
      assert a + b == a;
    } else {
      var n := |b| - 1;
      assert (a + b)[..|a + b| - 1] == a + b[..n] && (a + b)[|a + b| - 1] == b[n];
      EventsConcat(a, b[..n], parse);
      assert Events(a, parse) + Events(b[..n], parse) + LineEvents(b[n], parse) == Events(a, parse)
          + (Events(b[..n], parse) + LineEvents(b[n], parse));
    }
  }

  /** The lines of a file that are looked at: 1 byte to 1 MiB long, the last one with or without its terminator. */
  function ScannedLines(text: seq<Byte>): seq<seq<Byte>> {
    var tail := Tail(text, IsNewline);
    Rows(MAX_TASK_SCAN_LINE_BYTES, Complete(text, IsNewline)) + if 1 <= |tail| <= MAX_TASK_SCAN_LINE_BYTES then [tail]
        else []
  }

  ghost predicate InBounds(lines: seq<seq<Byte>>) {
    forall i :: 0 <= i < |lines| ==> 1 <= |lines[i]| <= MAX_TASK_SCAN_LINE_BYTES
  }

  lemma {:induction false} RowsInBounds(lines: seq<seq<Byte>>)
    ensures InBounds(Rows(MAX_TASK_SCAN_LINE_BYTES, lines))
  {
    if lines != [] { RowsInBounds(lines[1..]); }
  }

  /** The lines looked at so far, and the last line as the end of the scan sees it. */
  ghost predicate Scanning(text: seq<Byte>, pending: seq<Byte>, skip: bool, lines: seq<seq<Byte>>) {
    && Follows(MAX_TASK_SCAN_LINE_BYTES, Plain(text), pending, skip)
    && lines == Kept(MAX_TASK_SCAN_LINE_BYTES, Complete(Plain(text), EndsRow))
  }

  lemma ScanStarts()
    ensures Scanning([], [], false, [])
  {
  }

  lemma ScanEnds(text: seq<Byte>, pending: seq<Byte>, skip: bool, lines: seq<seq<Byte>>)
    requires Scanning(text, pending, skip, lines)
    ensures ScannedLines(text) == lines + if !skip && 1 <= |pending| <= MAX_TASK_SCAN_LINE_BYTES then [pending] else []
  {
    hide Complete, Rows, Kept, Tail;
    SplitPlain(text);
    KeptPlain(MAX_TASK_SCAN_LINE_BYTES, Complete(text, IsNewline));
    if !skip {
      assert forall i :: 0 <= i < |pending| ==> Plain(pending)[i] == Seen(pending[i]);
      assert Tail(text, IsNewline) == pending by {
        assert Bytes(Plain(pending)) == pending && Bytes(Plain(Tail(text, IsNewline))) == Tail(text, IsNewline);
      }
    }
  }

  class Tasks {
    var taskIds: set<string>
    var taskAliases: map<string, string>
    var overflow: bool
    ghost var seen: seq<Event>

    ghost predicate Valid()
      reads this
    {
      && overflow == Overflow(seen)
      && (!overflow ==> Tracked(taskIds, taskAliases) == After(seen))
      && |taskIds| <= MAX_TRACKED_BACKGROUND_TASKS
    }

    constructor ()
      ensures Valid() && seen == []
    {
      taskIds, taskAliases, overflow, seen := {}, map[], false, [];
    }

    method TakeNotification(n: Notification)
      requires Valid()
      modifies this
      ensures Valid() && seen == old(seen) + [Notice(n)]
    {
      hide Overflow, After, Closes, Frees;
      AfterNext(seen, Notice(n));
      seen := seen + [Notice(n)];
      var aliased := if n.taskId.Some? && n.taskId.value in taskAliases then Some(taskAliases[n.taskId.value])
          else None;
      if n.toolUseId.Some? && n.taskId.Some? && aliased != n.toolUseId { return; }
      var toolUseId := if n.toolUseId.Some? then n.toolUseId else aliased;
      if toolUseId.Some? {
        SubsetSize(taskIds - {toolUseId.value}, taskIds);
        taskIds := taskIds - {toolUseId.value};
      }
      if n.taskId.Some? && aliased == toolUseId {
        taskAliases := taskAliases - {n.taskId.value};
      }
    }

    /** One tool result of a launch; refused once 256 other tasks are tracked. */
    method Track(id: string, agentId: Option<string>) returns (full: bool)
      requires Valid()
      modifies this
      ensures Valid() && seen == old(seen) + [Launch(id, agentId)] && (full ==> overflow)
    {
      AfterNext(seen, Launch(id, agentId));
      seen := seen + [Launch(id, agentId)];
      if |taskIds| >= MAX_TRACKED_BACKGROUND_TASKS && id !in taskIds {
        overflow := true;
        return true;
      }
      taskIds := taskIds + {id};
      if agentId.Some? && agentId.value !in taskAliases {
        taskAliases := taskAliases[agentId.value := id];
      }
      return false;
    }

    /** The rest of a row is abandoned once the bound is hit, for the answer is then settled. */
    ghost method Abandon(events: seq<Event>)
      requires Valid() && overflow
      modifies this`seen
      ensures Valid() && seen == old(seen) + events
    {
      AfterExtends(seen, events);
      seen := seen + events;
    }

    /** updateBackgroundTaskState, and the flag its caller sets when it answers true. */
    method UpdateBackgroundTaskState(row: Row)
      requires Valid()
      modifies this
      ensures Valid() && seen == old(seen) + RowEvents(row)
    {
      hide Overflow, After, Valid, RowEvents;
      ghost var before, events := seen, RowEvents(row);
      RowEventsAt(row);
      if row.launched {
        for i := 0 to |row.toolResults|
          invariant Valid() && seen == before + events[..i]
        {
          var full := Track(row.toolResults[i], row.agentId);
          OneEvent(before, events, i, Launch(row.toolResults[i], row.agentId));
          if full {
            Abandon(events[i + 1..]);
            AllEvents(before, events, i + 1);
            return;
          }
        }
      }
      ghost var launched := if row.launched then |row.toolResults| else 0;
      for i := 0 to |row.notifications|
        invariant Valid() && seen == before + events[..launched + i]
      {
        OneEvent(before, events, launched + i, Notice(row.notifications[i]));
        TakeNotification(row.notifications[i]);
      }
      assert events[..|events|] == events;
    }

    /** consume: a malformed row, or one out of bounds, is ignored. */
    method Consume(line: seq<Byte>, parse: seq<Byte> -> Option<Row>)
      requires Valid()
      modifies this
      ensures Valid()
      ensures seen == old(seen) + if 1 <= |line| <= MAX_TASK_SCAN_LINE_BYTES then LineEvents(line, parse) else []
    {
      if |line| == 0 || |line| > MAX_TASK_SCAN_LINE_BYTES { return; }
      var row := parse(line);
      if row.Some? { UpdateBackgroundTaskState(row.value); }
    }

    method ConsumeAll(lines: seq<seq<Byte>>, parse: seq<Byte> -> Option<Row>)
      requires Valid() && InBounds(lines)
      modifies this
      ensures Valid()
      ensures seen == old(seen) + Events(lines, parse)
    {
      hide LineEvents, Overflow, After, Valid;
      for i := 0 to |lines|
        invariant Valid() && seen == old(seen) + Events(lines[..i], parse)
      {
        assert lines[..i + 1][..i] == lines[..i];
        Consume(lines[i], parse);
      }
      assert lines[..|lines|] == lines;
    }
  }

  /**
    scanIncompleteBackgroundTasks: however the file is cut into reads, the answer is that of the plain
    split. counts: what successive reads return; a read that returns nothing ends the scan early.
   */
  method ScanIncompleteBackgroundTasks(file: seq<Byte>, counts: seq<nat>, parse: seq<Byte> -> Option<Row>)
    returns (incomplete: bool, scanned: nat)
    ensures scanned <= |file| && (0 !in counts ==> scanned == |file|)
    ensures incomplete == Incomplete(Events(ScannedLines(file[..scanned]), parse))
  {
    hide Complete, Rows, Kept, Tail, AfterSkip, Split, LineEvents, Incomplete, ScannedLines, Plain, Overflow, After;
    var tasks := new Tasks();
    var pending: seq<Byte>, skipOversizedLine := [], false;
    ghost var scannedLines: seq<seq<Byte>> := [];
    var offset, turn := 0, 0;
    ScanStarts();
    while offset < |file|
      invariant offset <= |file|
      invariant fresh(tasks) && tasks.Valid()
      invariant Scanning(file[..offset], pending, skipOversizedLine, scannedLines)
      invariant tasks.seen == Events(scannedLines, parse)
      decreases |file| - offset
    {
      var length := if |file| - offset < TASK_SCAN_CHUNK_BYTES then |file| - offset else TASK_SCAN_CHUNK_BYTES;
      var count := if turn < |counts| && counts[turn] < length then counts[turn] else length;
      if count == 0 { break; }
      var chunk := file[offset..offset + count];
      ReadOn(MAX_TASK_SCAN_LINE_BYTES, Plain(file[..offset]), pending, skipOversizedLine, chunk);
      assert Plain(file[..offset]) + Plain(chunk) ==
          Plain(file[..offset + count]) by { PlainConcat(file[..offset], chunk, file[..offset + count]); }
      offset, turn := offset + count, turn + 1;
      RowsInBounds(AfterSkip(Complete(pending + chunk, IsNewline), skipOversizedLine));
      var lines;
      lines, pending, skipOversizedLine := TakeLines(MAX_TASK_SCAN_LINE_BYTES, pending + chunk, skipOversizedLine);
      tasks.ConsumeAll(lines, parse);
      EventsConcat(scannedLines, lines, parse);
      scannedLines := scannedLines + lines;
    }
    ScanEnds(file[..offset], pending, skipOversizedLine, scannedLines);
    assert scannedLines + [] == scannedLines;
    if !skipOversizedLine {
      EventsConcat(scannedLines, [pending], parse);
      OneLine(pending, parse);
      tasks.Consume(pending, parse);
    }
    scanned := offset;
    assert tasks.seen == Events(ScannedLines(file[..scanned]), parse) by {
      assert Events(scannedLines, parse) + [] == Events(scannedLines, parse);
    }
    incomplete := tasks.overflow || tasks.taskIds != {};
    TrackedOrNot(tasks.seen);
  }

  lemma PlainConcat(a: seq<Byte>, b: seq<Byte>, all: seq<Byte>)
    requires a + b == all
    ensures Plain(a) + Plain(b) == Plain(all)
  {
  }

  lemma OneLine(line: seq<Byte>, parse: seq<Byte> -> Option<Row>)
    ensures Events([line], parse) == LineEvents(line, parse)
  {
    assert [line][..0] == [];
  }

  lemma OneEvent(before: seq<Event>, events: seq<Event>, i: nat, e: Event)
    requires i < |events| && events[i] == e
    ensures before + events[..i + 1] == before + events[..i] + [e]
  {
    assert events[..i + 1] == events[..i] + [e];
  }

  lemma AllEvents(before: seq<Event>, events: seq<Event>, i: nat)
    requires i <= |events|
    ensures before + events[..i] + events[i..] == before + events
  {
    assert events[..i] + events[i..] == events;
  }
}
