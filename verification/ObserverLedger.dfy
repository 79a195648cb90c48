/** The observer of native memory: every observation adds the difference to the last one to a bounded log. */
module ObserverLedger {
  import opened Wrappers
  import opened OrderedMap
  import opened ManagedLedger

  const MAX_FILES := 64

  type Sha = Digest<Bytes>
  type Inventory = map<Path, Sha>

  datatype File = File(path: Path, sha256: Sha, size: int, mtime: int)
  datatype Kind = Created | Modified | Deleted
  datatype Event = Event(
    sequence: int, observedAt: int, path: Path, kind: Kind, before: Option<Sha>, after: Option<Sha>, release: string)

  datatype Observation = Observation(
    observedAt: int, release: string, directory: Sha, watermark: Digest<seq<File>>, files: seq<File>)

  /** recovered: the ledger was rebuilt after a corruption, now or earlier. */
  datatype Log = Log(
    recovered: bool, nextSequence: int, observedAt: int, release: string, directory: Sha, inventory: Digest<seq<File>>,
        files: seq<File>,
    watermarkSequence: int, watermarkAt: int, watermarkInventory: Digest<seq<File>>, events: seq<Event>)

  /** The map of the last entry for each path. */
  function InventoryOf(files: seq<File>): Inventory {
    if files == [] then map[]
        else InventoryOf(files[..|files| - 1])[files[|files| - 1].path := files[|files| - 1].sha256]
  }

  predicate Listed(paths: seq<Path>) { forall i :: 0 < i < |paths| ==> Less(paths[i - 1], paths[i]) }

  predicate ValidFiles(files: seq<File>) {
    && |files| <= MAX_FILES && (forall i :: 0 <= i < |files| ==> files[i].size >= 0 && files[i].mtime >= 0)
    && forall i :: 0 < i < |files| ==> Less(files[i - 1].path, files[i].path)
  }

  predicate ValidEvent(e: Event) {
    && e.sequence >= 1 && e.observedAt >= 0
    && match e.kind
       case Created => e.before == None && e.after.Some?
       case Modified => e.before.Some? && e.after.Some? && e.before != e.after
       case Deleted => e.before.Some? && e.after == None
  }

  predicate Increasing(events: seq<Event>) {
    forall i :: 0 < i < |events| ==> events[i - 1].sequence < events[i].sequence
  }

  /** validateLedger */
  predicate ValidLog(l: Log, maxEvents: nat) {
    && l.nextSequence >= 1 && l.observedAt >= 0 && l.watermarkSequence >= 0
    && |l.events| <= maxEvents && (forall i :: 0 <= i < |l.events| ==> ValidEvent(l.events[i])) && Increasing(l.events)
    && ValidFiles(l.files)
    && l.watermarkAt == l.observedAt && l.watermarkInventory == l.inventory
    && l.nextSequence > l.watermarkSequence && (l.events != [] ==> l.nextSequence > l.events[|l.events| - 1].sequence)
  }

  // ----- differences -----

  function Lookup(m: Inventory, p: Path): Option<Sha> { if p in m then Some(m[p]) else None }

  function KindOf(before: Option<Sha>, after: Option<Sha>): Option<Kind> {
    if before == None && after.Some? then Some(Created)
    else if before.Some? && after == None then Some(Deleted)
    else if before != after then Some(Modified)
    else None
  }

  /** One event for each of these paths whose content differs, numbered from first. */
  function Delta(
    before: Inventory, after: Inventory, paths: seq<Path>, first: int, at: int, release: string): seq<Event> {
    if paths == [] then []
    else
      var n := |paths| - 1;
      var events := Delta(before, after, paths[..n], first, at, release);
      var kind := KindOf(Lookup(before, paths[n]), Lookup(after, paths[n]));
      if kind == None then events
      else
        var was, now := Lookup(before, paths[n]), Lookup(after, paths[n]);
        events + [Event(first + |events|, at, paths[n], kind.value, was, now, release)]
  }

  function Replay(events: seq<Event>, m: Inventory): Inventory {
    if events == [] then m
    else
      var e := events[|events| - 1];
      var earlier := Replay(events[..|events| - 1], m);
      if e.after.Some? then earlier[e.path := e.after.value] else earlier - {e.path}
  }

  lemma {:induction false} ReplayConcat(a: seq<Event>, b: seq<Event>, m: Inventory)
    ensures Replay(a + b, m) == Replay(b, Replay(a, m))
  {
    if b == [] {
      assert a + b == a;
    } else {
      var n := |b| - 1;
      assert (a + b)[..|a + b| - 1] == a + b[..n] && (a + b)[|a + b| - 1] == b[n];
      ReplayConcat(a, b[..n], m);
    }
  }

  lemma DeltaStep(before: Inventory, after: Inventory, paths: seq<Path>, first: int, at: int, release: string)
    requires paths != []
    ensures var p := paths[|paths| - 1];
            var events := Delta(before, after, paths[..|paths| - 1], first, at, release);
            var all := Delta(before, after, paths, first, at, release);
            if Lookup(before, p) == Lookup(after, p) then all == events
            else var was, now := Lookup(before, p), Lookup(after, p);
                 var e := Event(first + |events|, at, p, KindOf(was, now).value, was, now, release);
                 all == events + [e] && ((first >= 1 && at >= 0) ==> ValidEvent(e))
  {
  }

  lemma ReplayNext(events: seq<Event>, e: Event, m: Inventory, p: Path)
    ensures Lookup(Replay(events + [e], m), p) == if p == e.path then e.after else Lookup(Replay(events, m), p)
  {
    assert (events + [e])[..|events|] == events;
  }

  lemma {:induction false} DeltaReplay(
    before: Inventory, after: Inventory, paths: seq<Path>, first: int, at: int, release: string, p: Path)
    ensures Lookup(Replay(Delta(before, after, paths, first, at, release), before), p) ==
            if p in paths then Lookup(after, p) else Lookup(before, p)
  {
    if paths != [] {
      var n := |paths| - 1;
      var events := Delta(before, after, paths[..n], first, at, release);
      DeltaReplay(before, after, paths[..n], first, at, release, p);
      DeltaStep(before, after, paths, first, at, release);
      hide Delta, Replay, Lookup;
      assert p in paths <==> p in paths[..n] || p == paths[n];
      if Lookup(before, paths[n]) != Lookup(after, paths[n]) {
        var all := Delta(before, after, paths, first, at, release);
        ReplayNext(events, all[|events|], before, p);
      }
    }
  }

  /** Replayed over the previous inventory, the events of an observation give the new one. */
  lemma DeltaLeads(before: Inventory, after: Inventory, paths: seq<Path>, first: int, at: int, release: string)
    requires forall p :: p in before || p in after ==> p in paths
    ensures Replay(Delta(before, after, paths, first, at, release), before) == after
  {
    var reached := Replay(Delta(before, after, paths, first, at, release), before);
    forall p ensures Lookup(reached, p) == Lookup(after, p) {
      DeltaReplay(before, after, paths, first, at, release, p);
    }
    SameInventory(reached, after);
  }

  lemma SameInventory(a: Inventory, b: Inventory)
    requires forall p :: Lookup(a, p) == Lookup(b, p)
    ensures a == b
  {
    forall p ensures p in a <==> p in b { assert Lookup(a, p) == Lookup(b, p); }
    forall p | p in a ensures a[p] == b[p] { assert Lookup(a, p) == Lookup(b, p); }
  }

  /** The events are numbered without gaps, carry the observation's time and are each well-formed. */
  lemma {:induction false} DeltaShape(
    before: Inventory, after: Inventory, paths: seq<Path>, first: int, at: int, release: string)
    requires first >= 1
    ensures var events := Delta(before, after, paths, first, at, release);
            forall i :: 0 <= i < |events| ==>
              events[i].sequence == first + i && events[i].observedAt == at && (at >= 0 ==> ValidEvent(events[i]))
  {
    if paths != [] {
      DeltaShape(before, after, paths[..|paths| - 1], first, at, release);
      DeltaStep(before, after, paths, first, at, release);
      hide Delta, KindOf;
    }
  }

  /** An event for each path that differs, and no other, told as it was and as it is, in the order of the paths. */
  ghost predicate Tells(events: seq<Event>, before: Inventory, after: Inventory, release: string) {
    && (forall i :: 0 <= i < |events| ==> ToldAt(events[i], before, after, release))
    && (forall p :: Lookup(before, p) != Lookup(after, p) ==> exists i :: 0 <= i < |events| && events[i].path == p)
    && (forall i :: 0 < i < |events| ==> Less(events[i - 1].path, events[i].path))
  }

  ghost predicate ToldAt(e: Event, before: Inventory, after: Inventory, release: string) {
    e.before == Lookup(before, e.path) && e.after == Lookup(after, e.path) && e.before != e.after &&
        e.release == release
  }

  lemma {:induction false} ListedLast(paths: seq<Path>, i: nat)
    requires Listed(paths) && i < |paths| - 1
    ensures Less(paths[i], paths[|paths| - 1])
    decreases |paths| - i
  {
    if i < |paths| - 2 {
      ListedLast(paths, i + 1);
      LessTransitive(paths[i], paths[i + 1], paths[|paths| - 1]);
    }
  }

  lemma {:induction false} DeltaTold(
    before: Inventory, after: Inventory, paths: seq<Path>, first: int, at: int, release: string)
    ensures var events := Delta(before, after, paths, first, at, release);
      forall i :: 0 <= i < |events| ==> ToldAt(events[i], before, after, release) && events[i].path in paths
  {
    if paths != [] {
      var n := |paths| - 1;
      DeltaTold(before, after, paths[..n], first, at, release);
      DeltaStep(before, after, paths, first, at, release);
      hide Delta, KindOf, Lookup;
      assert forall p :: p in paths[..n] ==> p in paths;
    }
  }

  lemma {:induction false} DeltaInOrder(
    before: Inventory, after: Inventory, paths: seq<Path>, first: int, at: int, release: string)
    requires Listed(paths)
    ensures var events := Delta(before, after, paths, first, at, release);
      forall i :: 0 < i < |events| ==> Less(events[i - 1].path, events[i].path)
  {
    if paths != [] {
      var n := |paths| - 1;
      var events := Delta(before, after, paths[..n], first, at, release);
      DeltaInOrder(before, after, paths[..n], first, at, release);
      DeltaTold(before, after, paths[..n], first, at, release);
      DeltaStep(before, after, paths, first, at, release);
      hide Delta, KindOf, Lookup, Less;
      if events != [] {
        var k :| 0 <= k < n && paths[..n][k] == events[|events| - 1].path;
        ListedLast(paths, k);
      }
    }
  }

  lemma {:induction false} DeltaTells(
    before: Inventory, after: Inventory, paths: seq<Path>, first: int, at: int, release: string)
    ensures var events := Delta(before, after, paths, first, at, release);
      forall p :: p in paths && Lookup(before, p) != Lookup(after, p) ==>
        exists i :: 0 <= i < |events| && events[i].path == p
  {
    if paths != [] {
      var n := |paths| - 1;
      var events, all := Delta(before, after, paths[..n], first, at, release),
          Delta(before, after, paths, first, at, release);
      DeltaTells(before, after, paths[..n], first, at, release);
      DeltaStep(before, after, paths, first, at, release);
      hide Delta, KindOf, Lookup;
      assert forall p :: p in paths <==> p in paths[..n] || p == paths[n];
      forall p | p in paths && Lookup(before, p) != Lookup(after, p)
        ensures exists i :: 0 <= i < |all| && all[i].path == p
      {
        if p != paths[n] {
          var i :| 0 <= i < |events| && events[i].path == p;
          assert all[i] == events[i];
        } else {
          assert all[|events|].path == p;
        }
      }
    }
  }

  // ----- pruning -----

  function Since(cutoff: int): Event -> bool { (e: Event) => e.observedAt >= cutoff }

  /** The age filter, then the last maxEvents. */
  function Prune(events: seq<Event>, cutoff: int, maxEvents: nat): seq<Event> {
    Newest(Filter(events, Since(cutoff)), maxEvents)
  }

  predicate InOrder(events: seq<Event>) {
    forall i, j :: 0 <= i < j < |events| ==> events[i].observedAt <= events[j].observedAt
  }

  lemma {:induction false} FilterAll(events: seq<Event>, cutoff: int)
    requires forall i :: 0 <= i < |events| ==> events[i].observedAt >= cutoff
    ensures Filter(events, Since(cutoff)) == events
  {
    if events != [] { FilterAll(events[1..], cutoff); }
  }

  /** Where the age filter cuts a log in order of time. */
  ghost predicate CutsAt(events: seq<Event>, cutoff: int, k: nat) {
    && k <= |events|
    && (forall i :: 0 <= i < k ==> events[i].observedAt < cutoff)
    && (forall i :: k <= i < |events| ==> events[i].observedAt >= cutoff)
  }

  lemma {:induction false} FilterCuts(events: seq<Event>, cutoff: int, k: nat)
    requires CutsAt(events, cutoff, k)
    ensures Filter(events, Since(cutoff)) == events[k..]
  {
    if k == 0 {
      FilterAll(events, cutoff);
    } else {
      FilterCuts(events[1..], cutoff, k - 1);
    }
  }

  lemma {:induction false} CutExists(events: seq<Event>, cutoff: int) returns (k: nat)
    requires InOrder(events)
    ensures CutsAt(events, cutoff, k)
  {
    k := 0;
    while k < |events| && events[k].observedAt < cutoff
      invariant k <= |events| && forall i :: 0 <= i < k ==> events[i].observedAt < cutoff
    {
      k := k + 1;
    }
  }

  function Start(k: nat, length: nat, maxEvents: nat): nat { if length - k <= maxEvents then k else length - maxEvents }

  lemma PruneAt(events: seq<Event>, cutoff: int, maxEvents: nat, k: nat)
    requires CutsAt(events, cutoff, k)
    ensures Start(k, |events|, maxEvents) <= |events| &&
              Prune(events, cutoff, maxEvents) == events[Start(k, |events|, maxEvents)..]
  {
    FilterCuts(events, cutoff, k);
    var recent := events[k..];
    if |recent| > maxEvents {
      assert recent[|recent| - maxEvents..] == events[|events| - maxEvents..];
    }
  }

  lemma CutShifts(events: seq<Event>, cutoff: int, k: nat, start: nat)
    requires CutsAt(events, cutoff, k) && start <= |events|
    ensures CutsAt(events[start..], cutoff, if k <= start then 0 else k - start)
  {
    assert forall i :: 0 <= i < |events[start..]| ==> events[start..][i] == events[start + i];
  }

  lemma CutsInOrder(history: seq<Event>, more: seq<Event>, earlier: int, later: int, a: nat, b: nat)
    requires CutsAt(history, earlier, a) && CutsAt(history + more, later, b) && earlier <= later
    ensures a <= b
  {
    if b < |history| { assert (history + more)[b] == history[b]; }
  }

  /** Pruning step by step comes to the same as pruning the whole history once. */
  lemma PruneIncrementally(history: seq<Event>, more: seq<Event>, earlier: int, later: int, maxEvents: nat)
    requires InOrder(history + more) && earlier <= later
    ensures Prune(Prune(history, earlier, maxEvents) + more, later, maxEvents) ==
              Prune(history + more, later, maxEvents)
  {
    hide CutsAt, InOrder, Prune, Start;
    var all := history + more;
    InOrderBefore(history, more);
    var a := CutExists(history, earlier);
    var b := CutExists(all, later);
    CutsInOrder(history, more, earlier, later, a, b);
    CutsWithin(history, earlier, a);
    CutsWithin(all, later, b);
    PruneAt(history, earlier, maxEvents, a);
    PruneAt(all, later, maxEvents, b);
    var start := Start(a, |history|, maxEvents);
    SuffixAndMore(history, more, start);
    CutShifts(all, later, b, start);
    var c := if b <= start then 0 else b - start;
    PruneAt(all[start..], later, maxEvents, c);
    StartsAgree(a, b, |history|, |all|, maxEvents);
    SuffixOfSuffix(all, start, Start(c, |all| - start, maxEvents));
  }

  lemma InOrderBefore(history: seq<Event>, more: seq<Event>)
    requires InOrder(history + more)
    ensures InOrder(history)
  {
    assert forall i :: 0 <= i < |history| ==> history[i] == (history + more)[i];
  }

  lemma CutsWithin(events: seq<Event>, cutoff: int, k: nat)
    requires CutsAt(events, cutoff, k)
    ensures k <= |events|
  {
  }

  lemma SuffixAndMore(history: seq<Event>, more: seq<Event>, start: nat)
    requires start <= |history|
    ensures (history + more)[start..] == history[start..] + more
  {
  }

  lemma SuffixOfSuffix(all: seq<Event>, start: nat, k: nat)
    requires start + k <= |all|
    ensures all[start..][k..] == all[start + k..]
  {
  }

  /** Cutting first for the shorter history and then for the longer one starts where cutting once does. */
  lemma StartsAgree(a: nat, b: nat, shorter: nat, longer: nat, maxEvents: nat)
    requires a <= b <= longer && a <= shorter <= longer
    ensures var start := Start(a, shorter, maxEvents);
      && start <= shorter
      && start + Start(if b <= start then 0 else b - start, longer - start, maxEvents) ==
          Start(b, longer, maxEvents) <= longer
  {
  }

  // ----- the ledger file -----

  datatype Stored = Good(log: Log) | Corrupt

  function PathsOf(files: seq<File>): set<Path> { set i | 0 <= i < |files| :: files[i].path }

  lemma {:induction false} InventoryPaths(files: seq<File>)
    ensures InventoryOf(files).Keys == PathsOf(files)
  {
    if files != [] {
      var n := |files| - 1;
      InventoryPaths(files[..n]);
      assert PathsOf(files) == PathsOf(files[..n]) + {files[n].path};
    }
  }

  /** The place of a path in a sorted list. */
  function InsertPath(p: Path, paths: seq<Path>): seq<Path> {
    if paths == [] || Less(p, paths[0]) then [p] + paths else [paths[0]] + InsertPath(p, paths[1..])
  }

  lemma {:induction false} InsertPathSorts(p: Path, paths: seq<Path>)
    requires Listed(paths) && p !in paths
    ensures Listed(InsertPath(p, paths)) && forall q :: q in InsertPath(p, paths) <==> q == p || q in paths
    ensures InsertPath(p, paths)[0] == if paths == [] || Less(p, paths[0]) then p else paths[0]
  {
    if paths != [] && !Less(p, paths[0]) {
      LessTotal(p, paths[0]);
      assert paths[0] in paths && paths == [paths[0]] + paths[1..];
      InsertPathSorts(p, paths[1..]);
    }
  }

  /** The paths in order. */
  ghost predicate Listing(l: seq<Path>, paths: set<Path>) { Listed(l) && forall p :: p in l <==> p in paths }

  lemma {:induction false} ListedFrom(l: seq<Path>, i: nat)
    requires Listed(l) && 0 < i < |l|
    ensures Less(l[0], l[i])
  {
    if i > 1 {
      ListedFrom(l, i - 1);
      LessTransitive(l[0], l[i - 1], l[i]);
    }
  }

  /** The first path of a listing is the least. */
  lemma ListingFirst(l: seq<Path>, paths: set<Path>)
    requires Listing(l, paths) && l != []
    ensures forall p :: p in paths ==> p == l[0] || Less(l[0], p)
    ensures Listing(l[1..], paths - {l[0]})
  {
    forall i | 0 < i < |l| ensures Less(l[0], l[i]) {
      ListedFrom(l, i);
    }
    LessIrreflexive(l[0]);
    assert forall p :: p in paths ==> p in l;
    assert forall p :: p in l[1..] <==> p in paths && p != l[0] by {
      assert l == [l[0]] + l[1..];
      assert forall i :: 0 < i < |l| ==> l[i] != l[0];
    }
  }

  /** There is but one listing. */
  lemma {:induction false} ListingUnique(a: seq<Path>, b: seq<Path>, paths: set<Path>)
    requires Listing(a, paths) && Listing(b, paths)
    ensures a == b
  {
    assert a != [] ==> a[0] in a && a[0] in paths && a[0] in b;
    assert b != [] ==> b[0] in b && b[0] in paths && b[0] in a;
    if a != [] && b != [] {
      ListingFirst(a, paths);
      ListingFirst(b, paths);
      if Less(a[0], b[0]) && Less(b[0], a[0]) {
        LessTransitive(a[0], b[0], a[0]);
        LessIrreflexive(a[0]);
      }
      ListingUnique(a[1..], b[1..], paths - {a[0]});
    }
  }

  ghost function SortedPaths(paths: set<Path>): seq<Path> {
    if exists l :: Listing(l, paths) then var l :| Listing(l, paths); l else []
  }

  lemma SortedIs(l: seq<Path>, paths: set<Path>)
    requires Listing(l, paths)
    ensures SortedPaths(paths) == l
  {
    ListingUnique(SortedPaths(paths), l, paths);
  }

  /** What happened between two inventories. */
  ghost function EventsOf(previous: seq<File>, o: Observation, first: int): seq<Event> {
    var before, after := InventoryOf(previous), InventoryOf(o.files);
    Delta(before, after, SortedPaths(before.Keys + after.Keys), first, o.observedAt, o.release)
  }

  /** [...paths].sort() */
  method SortPaths(paths: set<Path>) returns (sorted: seq<Path>)
    ensures Listed(sorted) && forall p :: p in sorted <==> p in paths
  {
    sorted := [];
    var remaining := paths;
    while remaining != {}
      invariant remaining <= paths && Listed(sorted)
      invariant forall p :: p in sorted <==> p in paths && p !in remaining
      decreases |remaining|
    {
      var p :| p in remaining;
      InsertPathSorts(p, sorted);
      sorted, remaining := InsertPath(p, sorted), remaining - {p};
    }
  }

  /** The loop of deltaEvents, over the sorted paths of both inventories. */
  method DeltaEvents(previous: seq<File>, observation: Observation, first: int) returns (events: seq<Event>)
    requires first >= 1
    ensures events == EventsOf(previous, observation, first)
    ensures Replay(events, InventoryOf(previous)) == InventoryOf(observation.files)
    ensures Tells(events, InventoryOf(previous), InventoryOf(observation.files), observation.release)
    ensures forall i :: 0 <= i < |events| ==>
              && events[i].sequence == first + i && events[i].observedAt == observation.observedAt
              && (observation.observedAt >= 0 ==> ValidEvent(events[i]))
  {
    hide InventoryOf, Replay, ValidEvent, Listed, Delta, Tells, Less;
    var before, after := InventoryOf(previous), InventoryOf(observation.files);
    var paths := SortPaths(before.Keys + after.Keys);
    events := [];
    DeltaOfNone(before, after, first, observation.observedAt, observation.release);
    assert paths[..0] == [];
    for n := 0 to |paths|
      invariant events == Delta(before, after, paths[..n], first, observation.observedAt, observation.release)
    {
      assert paths[..n + 1][..n] == paths[..n];
      DeltaStep(before, after, paths[..n + 1], first, observation.observedAt, observation.release);
      var kind := KindOf(Lookup(before, paths[n]), Lookup(after, paths[n]));
      if kind.Some? {
        events := events + [Event(first + |events|, observation.observedAt, paths[n], kind.value,
                                  Lookup(before, paths[n]), Lookup(after, paths[n]), observation.release)];
      }
    }
    assert paths[..|paths|] == paths;
    DeltaMeans(previous, observation, first, paths);
  }

  lemma DeltaOfNone(before: Inventory, after: Inventory, first: int, at: int, release: string)
    ensures Delta(before, after, [], first, at, release) == []
  {
  }

  /** All that is known of the events of an observation. */
  lemma DeltaMeans(previous: seq<File>, o: Observation, first: int, paths: seq<Path>)
    requires first >= 1 && Listing(paths, InventoryOf(previous).Keys + InventoryOf(o.files).Keys)
    ensures var events := Delta(InventoryOf(previous), InventoryOf(o.files), paths, first, o.observedAt, o.release);
      && events == EventsOf(previous, o, first)
      && Replay(events, InventoryOf(previous)) == InventoryOf(o.files)
      && Tells(events, InventoryOf(previous), InventoryOf(o.files), o.release)
      && forall i :: 0 <= i < |events| ==>
           && events[i].sequence == first + i && events[i].observedAt == o.observedAt
           && (o.observedAt >= 0 ==> ValidEvent(events[i]))
  {
    hide InventoryOf, Replay, ValidEvent, Listed, Delta, ToldAt, Less, Lookup;
    var before, after := InventoryOf(previous), InventoryOf(o.files);
    SortedIs(paths, before.Keys + after.Keys);
    DeltaLeads(before, after, paths, first, o.observedAt, o.release);
    DeltaShape(before, after, paths, first, o.observedAt, o.release);
    DeltaTold(before, after, paths, first, o.observedAt, o.release);
    DeltaInOrder(before, after, paths, first, o.observedAt, o.release);
    DeltaTells(before, after, paths, first, o.observedAt, o.release);
    TellsAll(before, after, paths);
  }

  lemma TellsAll(before: Inventory, after: Inventory, paths: seq<Path>)
    requires forall p :: p in before || p in after ==> p in paths
    ensures forall p :: Lookup(before, p) != Lookup(after, p) ==> p in paths
  {
  }

  // ----- one observation -----

  function First(previous: Option<Log>): int { if previous.Some? then previous.value.nextSequence else 1 }

  function Known(previous: Option<Log>): seq<Event> { if previous.Some? then previous.value.events else [] }

  function FilesOf(previous: Option<Log>): seq<File> { if previous.Some? then previous.value.files else [] }

  /** The ledger recordMemoryObservation builds. */
  function NextLog(
    previous: Option<Log>, recovered: bool, o: Observation, additions: seq<Event>, retentionMs: nat,
    maxEvents: nat): Log {
    Log(recovered, First(previous) + |additions|, o.observedAt, o.release, o.directory, o.watermark, o.files,
        if additions != [] then additions[|additions| - 1].sequence
        else if previous.Some? then previous.value.watermarkSequence else 0,
        o.observedAt, o.watermark, Prune(Known(previous) + additions, o.observedAt - retentionMs, maxEvents))
  }

  /** The additions to a log: numbered on from it and dated by the observation. */
  ghost predicate Adds(additions: seq<Event>, previous: Option<Log>, o: Observation) {
    forall i :: 0 <= i < |additions| ==>
      && additions[i].sequence == First(previous) + i && additions[i].observedAt == o.observedAt
      && (o.observedAt >= 0 ==> ValidEvent(additions[i]))
  }

  ghost predicate Rising(events: seq<Event>, next: int) {
    && (forall i :: 0 <= i < |events| ==> ValidEvent(events[i]) && events[i].sequence < next)
    && (forall i, j :: 0 <= i < j < |events| ==> events[i].sequence < events[j].sequence)
  }

  lemma {:induction false} IncreasingRises(events: seq<Event>, next: int)
    requires Increasing(events) && (forall i :: 0 <= i < |events| ==> ValidEvent(events[i]))
    requires events != [] ==> events[|events| - 1].sequence < next
    ensures Rising(events, next)
  {
    if events != [] {
      var n := |events| - 1;
      IncreasingRises(events[..n], events[n].sequence);
      assert forall i :: 0 <= i < n ==> events[i] == events[..n][i];
    }
  }

  lemma {:induction false} FilterRises(events: seq<Event>, cutoff: int, next: int)
    requires Rising(events, next)
    ensures Rising(Filter(events, Since(cutoff)), next)
  {
    if events != [] {
      hide ValidEvent;
      var more := Filter(events[1..], Since(cutoff));
      FilterRises(events[1..], cutoff, next);
      FilterMembers(events[1..], Since(cutoff));
      assert forall e :: e in events[1..] ==> events[0].sequence < e.sequence;
      if events[0].observedAt >= cutoff { RisesInFront(events[0], more, next); }
    }
  }

  lemma RisesInFront(e: Event, more: seq<Event>, next: int)
    requires Rising(more, next) && ValidEvent(e) && e.sequence < next && forall m :: m in more ==>
               e.sequence < m.sequence
    ensures Rising([e] + more, next)
  {
    hide ValidEvent;
    assert forall i :: 0 <= i < |more| ==> more[i] in more;
  }

  lemma AdditionsRise(previous: Option<Log>, o: Observation, additions: seq<Event>, maxEvents: nat)
    requires previous.Some? ==> ValidLog(previous.value, maxEvents)
    requires o.observedAt >= 0 && Adds(additions, previous, o)
    ensures Rising(Known(previous) + additions, First(previous) + |additions|)
  {
    IncreasingRises(Known(previous), First(previous));
  }

  lemma WatermarkBehind(previous: Option<Log>, o: Observation, additions: seq<Event>, maxEvents: nat)
    requires (previous.Some? ==> ValidLog(previous.value, maxEvents)) && Adds(additions, previous, o)
    ensures First(previous) >= 1
    ensures additions != [] ==> 1 <= additions[|additions| - 1].sequence < First(previous) + |additions|
    ensures previous.Some? ==> 0 <= previous.value.watermarkSequence < First(previous)
  {
  }

  /** The ledger built passes its own validation exactly when the observation is well-formed. */
  lemma NextLogValid(
    previous: Option<Log>, recovered: bool, o: Observation, additions: seq<Event>, retentionMs: nat, maxEvents: nat)
    requires (previous.Some? ==> ValidLog(previous.value, maxEvents)) && Adds(additions, previous, o)
    ensures ValidLog(NextLog(previous, recovered, o, additions, retentionMs, maxEvents), maxEvents) <==>
              o.observedAt >= 0 && ValidFiles(o.files)
  {
    hide Prune, ValidLog, Rising, Filter, Increasing, ValidEvent, ValidFiles, Adds, Known, First, Newest, Since;
    var log := NextLog(previous, recovered, o, additions, retentionMs, maxEvents);
    ValidNeeds(log, maxEvents);
    if o.observedAt >= 0 && ValidFiles(o.files) {
      var next, cutoff := First(previous) + |additions|, o.observedAt - retentionMs;
      WatermarkBehind(previous, o, additions, maxEvents);
      AdditionsRise(previous, o, additions, maxEvents);
      FilterRises(Known(previous) + additions, cutoff, next);
      NewestRises(Filter(Known(previous) + additions, Since(cutoff)), maxEvents, next);
      PruneIs(Known(previous) + additions, cutoff, maxEvents);
      ValidSuffices(log, maxEvents);
    }
  }

  lemma ValidNeeds(log: Log, maxEvents: nat)
    ensures ValidLog(log, maxEvents) ==> log.observedAt >= 0 && ValidFiles(log.files)
  {
  }

  lemma ValidSuffices(log: Log, maxEvents: nat)
    requires log.nextSequence >= 1 && log.observedAt >= 0 && 0 <= log.watermarkSequence < log.nextSequence
    requires |log.events| <= maxEvents && Rising(log.events, log.nextSequence) && ValidFiles(log.files)
    requires log.watermarkAt == log.observedAt && log.watermarkInventory == log.inventory
    ensures ValidLog(log, maxEvents)
  {
    hide ValidEvent, ValidFiles;
  }

  lemma PruneIs(events: seq<Event>, cutoff: int, maxEvents: nat)
    ensures Prune(events, cutoff, maxEvents) == Newest(Filter(events, Since(cutoff)), maxEvents)
  {
  }

  lemma NewestRises(events: seq<Event>, n: nat, next: int)
    requires Rising(events, next)
    ensures Rising(Newest(events, n), next) && |Newest(events, n)| <= n
    ensures Increasing(Newest(events, n)) && forall i :: 0 <= i < |Newest(events, n)| ==>
              ValidEvent(Newest(events, n)[i])
    ensures Newest(events, n) != [] ==> Newest(events, n)[|Newest(events, n)| - 1].sequence < next
  {
  }

  /** A ledger file against the whole history behind it; inOrder: no observation was earlier than one before it. */
  ghost predicate Sound(log: Log, history: seq<Event>, inOrder: bool, maxEvents: nat, retentionMs: nat) {
    && ValidLog(log, maxEvents)
    && Replay(history, map[]) == InventoryOf(log.files)
    && |history| == log.nextSequence - 1
    && Numbered(history)
    && (inOrder ==>
          && Before(history, log.observedAt)
          && log.events == Prune(history, log.observedAt - retentionMs, maxEvents))
  }

  ghost predicate Numbered(history: seq<Event>) {
    forall i :: 0 <= i < |history| ==> history[i].sequence == i + 1 && ValidEvent(history[i])
  }

  ghost predicate Before(history: seq<Event>, time: int) {
    InOrder(history) && forall i :: 0 <= i < |history| ==> history[i].observedAt <= time
  }

  lemma NextBefore(history: seq<Event>, earlier: int, previous: Option<Log>, o: Observation, additions: seq<Event>)
    requires Before(history, earlier) && earlier <= o.observedAt && Adds(additions, previous, o)
    ensures Before(history + additions, o.observedAt)
  {
  }

  lemma NextNumbered(history: seq<Event>, previous: Option<Log>, o: Observation, additions: seq<Event>)
    requires Numbered(history) && First(previous) == |history| + 1 && Adds(additions, previous, o) && o.observedAt >= 0
    ensures Numbered(history + additions)
  {
  }

  lemma NextSound(
    previous: Option<Log>, history: seq<Event>, inOrder: bool, recovered: bool, o: Observation, additions: seq<Event>,
    retentionMs: nat, maxEvents: nat)
    requires if previous.Some? then Sound(previous.value, history, inOrder, maxEvents, retentionMs) else history == []
    requires ValidLog(NextLog(previous, recovered, o, additions, retentionMs, maxEvents), maxEvents)
    requires Replay(additions, InventoryOf(FilesOf(previous))) == InventoryOf(o.files) && Adds(additions, previous, o)
    ensures Sound(NextLog(previous, recovered, o, additions, retentionMs, maxEvents), history + additions,
                  previous.None? || (inOrder && previous.value.observedAt <= o.observedAt), maxEvents, retentionMs)
  {
    hide ValidLog, Prune, InOrder, Adds, ValidEvent, InventoryOf, Replay, Numbered, Before, Newest, Filter, Since;
    ReplayConcat(history, additions, map[]);
    assert o.observedAt >= 0 by { PositiveTime(NextLog(previous, recovered, o, additions, retentionMs, maxEvents),
        maxEvents); }
    NothingListed();
    NextNumbered(history, previous, o, additions);
    if previous.None? {
      assert [] + additions == additions;
      NothingHappened(o.observedAt);
      NextBefore([], o.observedAt, previous, o, additions);
    } else if inOrder && previous.value.observedAt <= o.observedAt {
      NextBefore(history, previous.value.observedAt, previous, o, additions);
      PruneIncrementally(history, additions, previous.value.observedAt - retentionMs, o.observedAt - retentionMs,
          maxEvents);
    }
  }

  lemma PositiveTime(log: Log, maxEvents: nat)
    requires ValidLog(log, maxEvents)
    ensures log.observedAt >= 0
  {
  }

  lemma NothingListed()
    ensures InventoryOf([]) == map[] && Replay([], map[]) == map[]
  {
  }

  lemma NothingHappened(time: int)
    ensures InOrder([]) && Before([], time) && Numbered([])
  {
  }

  /** A well-formed observation of the directory the ledger is about. */
  ghost predicate Admissible(previous: Option<Log>, o: Observation) {
    o.observedAt >= 0 && ValidFiles(o.files) && (previous.Some? ==> previous.value.directory == o.directory)
  }

  /** The ledger file is damaged, or has been and says so. */
  predicate Damaged(stored: Option<Stored>) { stored.Some? && (stored.value.Corrupt? || stored.value.log.recovered) }

  /** The ledger that takes the observation up; a damaged one is started anew and stays marked for good. */
  ghost predicate Continued(
    previous: Option<Log>, damaged: bool, o: Observation, additions: seq<Event>, next: Option<Log>)
  {
    && next.Some?
    && next.value.recovered == (damaged || (previous.Some? && previous.value.recovered))
    && next.value.nextSequence == (if previous.Some? then previous.value.nextSequence else 1) + |additions|
    && next.value.observedAt == next.value.watermarkAt == o.observedAt && next.value.release == o.release
    && next.value.directory == o.directory && next.value.files == o.files
    && next.value.inventory == next.value.watermarkInventory == o.watermark
    && next.value.watermarkSequence ==
        (if additions != [] then next.value.nextSequence - 1
         else if previous.Some? then previous.value.watermarkSequence else 0)
  }

  class Observer {
    const maxEvents: nat
    const retentionMs: nat
    var stored: Option<Stored>
    var schedule: seq<Fault>
    /** All events since the ledger was last built from nothing. */
    ghost var history: seq<Event>
    /** Since then no observation was earlier than the one before it. */
    ghost var inOrder: bool

    ghost predicate Valid()
      reads this
    {
      stored.Some? && stored.value.Good? ==> Sound(stored.value.log, history, inOrder, maxEvents, retentionMs)
    }

    constructor (max: nat, retention: nat)
      ensures Valid() && stored == None && schedule == [] && maxEvents == max && retentionMs == retention
    {
      maxEvents, retentionMs, stored, schedule, history, inOrder := max, retention, None, [], [], true;
    }

    method Pause() returns (t: Fault)
      modifies this`schedule
      ensures old(schedule) == [] ==> schedule == [] && t == Fine
    {
      if schedule == [] { return Fine; }
      t, schedule := schedule[0], schedule[1..];
    }

    /** The log the next observation continues; none if there is no ledger or it is corrupt. */
    function Previous(): Option<Log>
      reads this
    {
      if stored.Some? && stored.value.Good? then Some(stored.value.log) else None
    }

    /** recordMemoryObservation. written: the new ledger is in place, as it is behind a late failure. */
    method RecordMemoryObservation(o: Observation)
      returns (r: Flow<Log>, written: bool, ghost additions: seq<Event>)
      requires Valid()
      modifies this`stored, this`schedule, this`history, this`inOrder
      ensures Valid()
      ensures !written ==> !r.Return? && stored == old(stored) && history == old(history) && inOrder == old(inOrder)
      ensures written ==>
                Admissible(old(Previous()), o) && Previous().Some? && Previous().value.directory == o.directory
      ensures written ==>
                First(old(Previous())) >= 1 &&
                    additions == EventsOf(FilesOf(old(Previous())), o, First(old(Previous())))
      ensures written ==>
                && Tells(additions, InventoryOf(FilesOf(old(Previous()))), InventoryOf(o.files), o.release)
                && Continued(old(Previous()), old(stored) == Some(Corrupt), o, additions, Previous())
      ensures written ==>
                && Replay(additions, InventoryOf(FilesOf(old(Previous())))) == InventoryOf(o.files)
                && history == (if old(Previous()).Some? then old(history) else []) + additions
                && inOrder ==
                    (old(Previous()).None? || (old(inOrder) && old(Previous()).value.observedAt <= o.observedAt))
                && Previous().Some? && Previous().value.files == o.files && Previous().value.observedAt == o.observedAt
      ensures r.Return? ==> written && stored == Some(Good(r.value))
      ensures old(schedule) == [] && Admissible(old(Previous()), o) ==> r.Return?
    {
      hide ValidLog, Prune, InOrder, ValidEvent, InventoryOf, Replay, ValidFiles, EventsOf, Numbered, Tells;
      written, additions := false, [];
      var t := Pause();
      if t == Crash { return Die, written, additions; }
      if t != Fine { return Throw, written, additions; }
      var previous := Previous();
      var recovered := stored == Some(Corrupt) || (previous.Some? && previous.value.recovered);
      if previous.Some? && previous.value.directory != o.directory { return Throw, written, additions; }
      ghost var known := if previous.Some? then history else [];
      var events := DeltaEvents(FilesOf(previous), o, First(previous));
      var log := NextLog(previous, recovered, o, events, retentionMs, maxEvents);
      NextLogValid(previous, recovered, o, events, retentionMs, maxEvents);
      if !ValidLog(log, maxEvents) { return Throw, written, additions; }
      NextSound(previous, known, inOrder, recovered, o, events, retentionMs, maxEvents);
      t := Pause();
      if t == Crash { return Die, written, additions; }
      if t == Fail { return Throw, written, additions; }
      written, additions := true, events;
      stored, history := Some(Good(log)), known + events;
      inOrder := previous.None? || (inOrder && previous.value.observedAt <= o.observedAt);
      if t == Late { return Throw, written, additions; }
      return Return(log), true, additions;
    }
  }

  // ----- runs -----

  /** Spoil: the ledger file is damaged from outside. */
  datatype Op = Observe(observation: Observation, faults: seq<Fault>) | Spoil

  ghost predicate Timely(os: seq<Observation>) {
    forall i, j :: 0 <= i < j < |os| ==> os[i].observedAt <= os[j].observedAt
  }

  ghost predicate TimelyOps(ops: seq<Op>) {
    forall i, j :: 0 <= i < j < |ops| && ops[i].Observe? && ops[j].Observe? ==>
        ops[i].observation.observedAt <= ops[j].observation.observedAt
  }

  /** The observations written since the ledger was last damaged, or from the start. */
  function Accepted(ops: seq<Op>, written: seq<bool>): seq<Observation>
    requires |written| == |ops|
  {
    if ops == [] then []
    else
      var n := |ops| - 1;
      match ops[n]
      case Spoil => []
      case Observe(o, _) => Accepted(ops[..n], written[..n]) + if written[n] then [o] else []
  }

  /** All that happened over a series of observations. */
  ghost function HistoryOf(os: seq<Observation>): seq<Event> {
    if os == [] then []
    else
      var n := |os| - 1;
      var earlier := HistoryOf(os[..n]);
      earlier + EventsOf(if n == 0 then [] else os[n - 1].files, os[n], |earlier| + 1)
  }

  lemma HistoryNext(os: seq<Observation>, o: Observation)
    ensures HistoryOf(os + [o]) == HistoryOf(os)
              + EventsOf(if os == [] then [] else os[|os| - 1].files, o, |HistoryOf(os)| + 1)
  {
    assert (os + [o])[..|os|] == os;
  }

  lemma {:induction false} AcceptedTimely(ops: seq<Op>, written: seq<bool>)
    requires |written| == |ops| && TimelyOps(ops)
    ensures Timely(Accepted(ops, written))
    ensures forall o :: o in Accepted(ops, written) ==>
              exists i :: 0 <= i < |ops| && ops[i].Observe? && ops[i].observation == o
  {
    if ops != [] {
      var n := |ops| - 1;
      AcceptedTimely(ops[..n], written[..n]);
      if ops[n].Observe? {
        var before := Accepted(ops[..n], written[..n]);
        forall o | o in before ensures o.observedAt <= ops[n].observation.observedAt {
          var i :| 0 <= i < n && ops[..n][i].Observe? && ops[..n][i].observation == o;
          assert ops[i] == ops[..n][i];
        }
        forall o | o in before ensures exists i :: 0 <= i < |ops| && ops[i].Observe? && ops[i].observation == o {
          var i :| 0 <= i < n && ops[..n][i].Observe? && ops[..n][i].observation == o;
          assert ops[i].Observe? && ops[i].observation == o;
        }
        forall i | 0 <= i < |before| ensures before[i].observedAt <= ops[n].observation.observedAt {
          assert before[i] in before;
        }
      }
    }
  }

  /** One operation, given what was accepted before it. */
  ghost predicate Handled(op: Op, accepted: seq<Observation>, written: bool, recorded: bool) {
    match op
    case Spoil => !written && !recorded
    case Observe(o, faults) =>
      var fitting := o.observedAt >= 0 && ValidFiles(o.files) &&
          (accepted != [] ==> accepted[|accepted| - 1].directory == o.directory);
      && (recorded ==> written) && (written ==> fitting)
      && (faults == [] && fitting ==> recorded)
  }

  /** The ledger file continues the observations accepted. */
  ghost predicate Continues(log: Option<Log>, accepted: seq<Observation>, history: seq<Event>, inOrder: bool) {
    && (log.Some? <==> accepted != [])
    && (log.Some? ==>
          var last := accepted[|accepted| - 1];
          && log.value.files == last.files && log.value.observedAt == last.observedAt
          && log.value.directory == last.directory
          && history == HistoryOf(accepted) && (Timely(accepted) ==> inOrder))
  }

  lemma ContinuesOn(
    previous: Option<Log>, accepted: seq<Observation>, history: seq<Event>, inOrder: bool, o: Observation, log: Log,
    known: seq<Event>)
    requires Continues(previous, accepted, history, inOrder) && known == if previous.Some? then history else []
    requires log.files == o.files && log.observedAt == o.observedAt && log.directory == o.directory
    requires First(previous) == |known| + 1
    ensures Continues(Some(log), accepted + [o], known + EventsOf(FilesOf(previous), o, First(previous)),
                      previous.None? || (inOrder && previous.value.observedAt <= o.observedAt))
  {
    HistoryNext(accepted, o);
    hide EventsOf;
    var all := accepted + [o];
    if Timely(all) && accepted != [] {
      assert Timely(accepted) by { assert forall i :: 0 <= i < |accepted| ==> all[i] == accepted[i]; }
      assert all[|accepted| - 1] == accepted[|accepted| - 1] && all[|accepted|] == o;
    }
  }

  method Perform(observer: Observer, op: Op, ghost accepted: seq<Observation>)
    returns (recorded: bool, written: bool)
    requires observer.Valid() && Continues(observer.Previous(), accepted, observer.history, observer.inOrder)
    modifies observer
    ensures observer.Valid() && Handled(op, accepted, written, recorded)
    ensures Damaged(observer.stored) == (op.Spoil? || Damaged(old(observer.stored)))
    ensures Continues(observer.Previous(), if op.Spoil? then [] else if written then accepted + [op.observation]
              else accepted,
                      observer.history, observer.inOrder)
  {
    hide ValidLog, Prune, InventoryOf, Replay, Numbered, Before, EventsOf, ValidFiles, Timely, HistoryOf;
    match op
    case Spoil =>
      observer.stored := Some(Corrupt);
      return false, false;
    case Observe(o, faults) =>
      observer.schedule := faults;
      ghost var previous, history, inOrder := observer.Previous(), observer.history, observer.inOrder;
      NextNumber(observer);
      var r, done;
      ghost var additions;
      r, done, additions := observer.RecordMemoryObservation(o);
      if done {
        ghost var known := if previous.Some? then history else [];
        ContinuesOn(previous, accepted, history, inOrder, o, observer.Previous().value, known);
      }
      return r.Return?, done;
  }

  lemma NextNumber(observer: Observer)
    requires observer.Valid()
    ensures First(observer.Previous()) == (if observer.Previous().Some? then |observer.history| else 0) + 1
  {
  }

  /**
    Any observations, failing wherever they may, and any damage in between: the ledger is readable
    exactly if an observation was written since the last damage; it holds the inventory of the latest,
    what happened over all of them replays to it, and if they came in order the log kept is that
    history pruned once.
   */
  method Run(maxEvents: nat, retentionMs: nat, ops: seq<Op>)
    returns (stored: Option<Stored>, recorded: seq<bool>, written: seq<bool>)
    ensures |recorded| == |written| == |ops| && forall i :: 0 <= i < |ops| ==> HandledAt(ops, recorded, written, i)
    ensures (stored.Some? && stored.value.Good?) <==> Accepted(ops, written) != []
    ensures stored.Some? && stored.value.Good? ==> (stored.value.log.recovered <==> Spoil in ops)
    ensures stored.Some? && stored.value.Good? ==>
              var log, accepted := stored.value.log, Accepted(ops, written);
              var history := HistoryOf(accepted);
              && ValidLog(log, maxEvents) && log.files == accepted[|accepted| - 1].files
              && Replay(history, map[]) == InventoryOf(log.files) && Numbered(history)
              && (Timely(accepted) || TimelyOps(ops) ==>
                    log.events == Prune(history, log.observedAt - retentionMs, maxEvents))
  {
    hide ValidLog, Prune, InventoryOf, Replay, Numbered, Before, Handled, HistoryOf, Timely, Accepted, AllHandled;
    hide TimelyOps;
    var observer := new Observer(maxEvents, retentionMs);
    recorded, written := [], [];
    NothingAccepted(ops);
    for i := 0 to |ops|
      invariant fresh(observer) && observer.Valid() && observer.maxEvents == maxEvents &&
                  observer.retentionMs == retentionMs
      invariant |recorded| == |written| == i && AllHandled(ops, recorded, written)
      invariant Damaged(observer.stored) <==> Spoil in ops[..i]
      invariant Continues(observer.Previous(), Accepted(ops[..i], written), observer.history, observer.inOrder)
    {
      var r, w := Perform(observer, ops[i], Accepted(ops[..i], written));
      assert ops[..i + 1] == ops[..i] + [ops[i]];
      AcceptedNext(ops, i, written, w);
      HandledNext(ops, recorded, written, r, w);
      recorded, written := recorded + [r], written + [w];
    }
    assert ops[..|ops|] == ops;
    AllWereHandled(ops, recorded, written);
    if TimelyOps(ops) { AcceptedTimely(ops, written); }
    stored := observer.stored;
  }

  ghost predicate HandledAt(ops: seq<Op>, recorded: seq<bool>, written: seq<bool>, i: nat)
    requires i < |recorded| == |written| <= |ops|
  {
    Handled(ops[i], Accepted(ops[..i], written[..i]), written[i], recorded[i])
  }

  ghost predicate AllHandled(ops: seq<Op>, recorded: seq<bool>, written: seq<bool>) {
    |recorded| == |written| <= |ops| && forall i :: 0 <= i < |recorded| ==> HandledAt(ops, recorded, written, i)
  }

  lemma AllWereHandled(ops: seq<Op>, recorded: seq<bool>, written: seq<bool>)
    requires AllHandled(ops, recorded, written)
    ensures |recorded| == |written| <= |ops| && forall i :: 0 <= i < |recorded| ==> HandledAt(ops, recorded, written, i)
  {
  }

  lemma HandledNext(ops: seq<Op>, recorded: seq<bool>, written: seq<bool>, r: bool, w: bool)
    requires AllHandled(ops, recorded, written) && |recorded| < |ops|
    requires var i := |recorded|; Handled(ops[i], Accepted(ops[..i], written), w, r)
    ensures AllHandled(ops, recorded + [r], written + [w])
  {
    hide Handled, Accepted;
    forall i | 0 <= i < |recorded| + 1 ensures HandledAt(ops, recorded + [r], written + [w], i) {
      if i < |recorded| {
        assert (written + [w])[..i] == written[..i] && HandledAt(ops, recorded, written, i);
      } else {
        assert (written + [w])[..i] == written;
      }
    }
  }

  lemma NothingAccepted(ops: seq<Op>)
    ensures Accepted(ops[..0], []) == [] && AllHandled(ops, [], [])
  {
  }

  lemma AcceptedNext(ops: seq<Op>, i: nat, written: seq<bool>, w: bool)
    requires i < |ops| && |written| == i
    ensures Accepted(ops[..i + 1], written + [w]) ==
            if ops[i].Spoil? then [] else if w then Accepted(ops[..i], written) + [ops[i].observation]
                else Accepted(ops[..i], written)
  {
    assert ops[..i + 1][..i] == ops[..i] && (written + [w])[..i] == written;
  }
}
