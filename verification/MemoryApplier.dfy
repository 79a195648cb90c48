/**
  The native-memory applier: a write-ahead-journal transaction over a topic file, the MEMORY.md
  index and the ownership ledger, with rollback that only touches its own bytes.

  The host owns the durable state. Every system call first consumes one tick of a schedule, which
  lets other programs edit memory files and decides whether the call succeeds, fails without
  effect, fails after its effect, or never returns because the process died.
 */
module MemoryApplier {
  import opened Wrappers
  import opened ManagedLedger
  import opened ApplyJournal
  import opened LeafMoves
  import opened IndexText

  class Host {
    var files: Files
    var ledger: Option<Ledger>
    var journals: Journals
    var clock: nat
    var schedule: seq<Tick>
    ghost var log: seq<LeafWrite>
    ghost var commits: seq<Commit>
    /** The files at the start, and all that has become of them since. */
    ghost const origin: Files
    ghost var trace: seq<Move>
    /** For each apply, the transactions that were pending when it started. */
    ghost var starts: seq<set<Key>>
    /** The ticks used up so far. */
    ghost var consumed: seq<Tick>

    constructor (files: Files)
      ensures Valid() && Traced() && this.files == files && ledger == None && journals == map[] && commits == []
      ensures schedule == [] && starts == []
    {
      this.files, ledger, journals, clock, schedule, log, commits := files, None, map[], 0, [], [], [];
      origin, trace, consumed, starts := files, [], [], [];
      NothingTold(files);
    }

    /** The trace accounts for every leaf. */
    ghost predicate Traced()
      reads this`files, this`log, this`trace, this`consumed
    {
      Tells(origin, trace, files, log, consumed)
    }

    ghost function Script(): seq<Tick>
      reads this`schedule, this`consumed
    {
      consumed + schedule
    }

    /** The trace goes on, by moves of others that the schedule gives and by own writes. */
    twostate predicate Onward()
      reads this
    {
      Traced() && old(trace) <= trace && Script() == old(Script())
    }

    /** What has become of the leaves since. */
    twostate function Moves(): seq<Move>
      reads this
      requires old(trace) <= trace
    {
      trace[|old(trace)|..]
    }

    ghost predicate Valid()
      reads this
    {
      && JournalsValid(journals)
      && ValidLedger(EntriesOf(ledger))
    }

    function View(): Abstract
      reads this
    {
      Abstract(ContentsOf(files), ledger)
    }

    // ----- system calls -----

    /** What the outside world does before a call, and the fate of the call. */
    method Pause() returns (f: Fault)
      requires Traced()
      modifies this`files, this`schedule, this`trace, this`consumed
      ensures Onward()
      ensures schedule == Rest(old(schedule)) && files == Arriving(old(files), old(schedule))
      ensures f == (if old(schedule) == [] then Fine else old(schedule)[0].fault)
      ensures Keeps(old(schedule), schedule)
      ensures Calm(old(schedule)) ==> files == old(files)
      ensures CrashOnly(old(schedule)) ==> f in {Fine, Crash}
      ensures Sound(old(schedule)) ==> f == Fine
    {
      if schedule == [] { return Fine; }
      assert Calm(schedule) ==> Edited(files, schedule[0].edits) == files;
      OthersMove(origin, trace, files, log, consumed, schedule[0]);
      trace, consumed := trace + [Others(schedule[0].edits)], consumed + [schedule[0]];
      assert schedule == [schedule[0]] + schedule[1..];
      files, f, schedule := Edited(files, schedule[0].edits), schedule[0].fault, schedule[1..];
    }

    method CaptureLeaf(p: Path) returns (r: Flow<Option<Leaf>>)
      requires Traced()
      modifies this`files, this`schedule, this`trace, this`consumed
      ensures Onward()
      ensures Keeps(old(schedule), schedule) && (Calm(old(schedule)) ==> files == old(files))
      ensures Sound(old(schedule)) ==> !r.Die?
      ensures IsMemoryName(p) ==> schedule == Rest(old(schedule)) && files == Arriving(old(files), old(schedule))
      ensures r.Return? ==> r.value == LeafAt(files, p) && IsMemoryName(p)
      ensures r.Return? && r.value.Some? ==> |r.value.value.bytes| <= MAX_MEMORY_FILE_BYTES
      ensures p in files && |files[p].bytes| > MAX_MEMORY_FILE_BYTES ==> !r.Return?
      ensures
        CrashOnly(old(schedule)) && IsMemoryName(p) && (p in files ==> |files[p].bytes| <= MAX_MEMORY_FILE_BYTES) ==>
          !r.Throw?
    {
      if !IsMemoryName(p) { return Throw; }
      var f := Pause();
      if f == Crash { return Die; }
      if f != Fine || (p in files && |files[p].bytes| > MAX_MEMORY_FILE_BYTES) { return Throw; }
      return Return(LeafAt(files, p));
    }

    /** Compare-and-swap of one leaf; the comparison and the rename are one step. */
    method WriteLeaf(p: Path, before: Option<Leaf>, bytes: Bytes) returns (r: Flow<()>)
      requires Traced()
      modifies this`files, this`schedule, this`trace, this`consumed, this`clock, this`log
      ensures Onward()
      ensures Keeps(old(schedule), schedule)
      ensures Sound(old(schedule)) ==> !r.Die?
      ensures
        || (schedule == old(schedule) && files == old(files) && log == old(log))
        || (schedule == Rest(old(schedule)) && files == Arriving(old(files), old(schedule)) && log == old(log))
        || Wrote(Arriving(old(files), old(schedule)), LeafWrite(p, before, Some(Leaf(bytes, old(clock)))),
                 old(schedule), old(log))
      ensures r.Return? ==> ContentAt(files, p) == Some(bytes)
      ensures
        CrashOnly(old(schedule)) && IsMemoryName(p) && |bytes| <= MAX_MEMORY_FILE_BYTES &&
        (before.Some? ==> |before.value.bytes| <= MAX_MEMORY_FILE_BYTES) && !r.Die?
        ==> (r.Return? <==> LeafAt(Arriving(old(files), old(schedule)), p) == before)
      ensures Calm(old(schedule)) ==> files == old(files) || WrittenLeaf(old(files), files, p, before, bytes)
      ensures Calm(old(schedule)) && r.Return? ==> WrittenLeaf(old(files), files, p, before, bytes)
      ensures Calm(old(schedule)) && r.Die? ==> files == old(files)
      ensures
        Calm(old(schedule)) && CrashOnly(old(schedule)) && IsMemoryName(p) && |bytes| <= MAX_MEMORY_FILE_BYTES &&
        LeafAt(old(files), p) == before && (before.Some? ==> |before.value.bytes| <= MAX_MEMORY_FILE_BYTES)
        ==> !r.Throw?
    {
      hide Tells, IsMemoryName, Edited;
      assert Calm(schedule) ==> Arriving(files, schedule) == files by { CalmArrival(files, schedule); }
      if |bytes| > MAX_MEMORY_FILE_BYTES || !IsMemoryName(p) { return Throw; }
      var f := Pause();
      if f == Crash { return Die; }
      if f == Fail || (p in files && |files[p].bytes| > MAX_MEMORY_FILE_BYTES) || LeafAt(files, p) != before {
        return Throw;
      }
      ghost var w := LeafWrite(p, before, Some(Leaf(bytes, clock)));
      OwnMove(origin, trace, files, log, consumed, w);
      log, trace := log + [w], trace + [Own(w)];
      files, clock := files[p := Leaf(bytes, clock)], clock + 1;
      if f == Late { return Throw; }
      return Return(());
    }

    /** One own write has been made where others had left these files. */
    ghost predicate Wrote(arrived: Files, w: LeafWrite, s: seq<Tick>, was: seq<LeafWrite>)
      reads this`files, this`schedule, this`log
    {
      && LeafAt(arrived, w.path) == w.was && files == Made(arrived, Own(w))
      && schedule == Rest(s) && log == was + [w]
    }

    method RemoveLeaf(p: Path, expected: Leaf) returns (r: Flow<()>)
      requires Traced()
      modifies this`files, this`schedule, this`trace, this`consumed, this`log
      ensures Onward()
      ensures Keeps(old(schedule), schedule)
      ensures Sound(old(schedule)) ==> !r.Die?
      ensures schedule == Rest(old(schedule))
      ensures
        || (files == Arriving(old(files), old(schedule)) && log == old(log))
        || Wrote(Arriving(old(files), old(schedule)), LeafWrite(p, Some(expected), None), old(schedule), old(log))
      ensures r.Return? ==> p !in files
      ensures CrashOnly(old(schedule)) && !r.Die? ==>
                (r.Return? <==> LeafAt(Arriving(old(files), old(schedule)), p) == Some(expected))
      ensures Calm(old(schedule)) ==> files == old(files) || files == old(files) - {p}
      ensures Calm(old(schedule)) && r.Return? ==> files == old(files) - {p}
      ensures Calm(old(schedule)) && r.Die? ==> files == old(files)
      ensures Calm(old(schedule)) && CrashOnly(old(schedule)) && LeafAt(old(files), p) == Some(expected) ==> !r.Throw?
    {
      assert Calm(schedule) ==> Arriving(files, schedule) == files;
      var f := Pause();
      if f == Crash { return Die; }
      if f == Fail || LeafAt(files, p) != Some(expected) { return Throw; }
      ghost var w := LeafWrite(p, Some(expected), None);
      OwnMove(origin, trace, files, log, consumed, w);
      log, trace := log + [w], trace + [Own(w)];
      files := files - {p};
      if f == Late { return Throw; }
      return Return(());
    }

    method ReadLedger() returns (r: Flow<Option<Ledger>>)
      requires Valid()
      requires Traced()
      modifies this`files, this`schedule, this`trace, this`consumed
      ensures Onward()
      ensures Keeps(old(schedule), schedule) && (Calm(old(schedule)) ==> files == old(files))
      ensures Sound(old(schedule)) ==> !r.Die?
      ensures CrashOnly(old(schedule)) ==> !r.Throw?
      ensures r.Return? ==> r.value == ledger
    {
      var f := Pause();
      if f == Crash { return Die; }
      if f != Fine { return Throw; }
      return Return(ledger);
    }

    method WriteLedger(l: Ledger) returns (r: Flow<()>)
      requires Traced()
      modifies this`files, this`schedule, this`trace, this`consumed, this`ledger
      ensures Onward()
      ensures Keeps(old(schedule), schedule) && (Calm(old(schedule)) ==> files == old(files))
      ensures Sound(old(schedule)) ==> !r.Die?
      ensures CrashOnly(old(schedule)) && ValidLedger(l) ==> !r.Throw?
      ensures ledger == old(ledger) || (ledger == Some(l) && ValidLedger(l))
      ensures r.Return? ==> ledger == Some(l)
    {
      if !ValidLedger(l) { return Throw; }
      var f := Pause();
      if f == Crash { return Die; }
      if f == Fail { return Throw; }
      ledger := Some(l);
      if f == Late { return Throw; }
      return Return(());
    }

    /** restoreManagedLedgerFd: true unless the current ledger is a foreign one. */
    method RestoreLedger(j: Journal) returns (r: Flow<bool>)
      requires JournalValid(j)
      requires Traced()
      modifies this`files, this`schedule, this`trace, this`consumed, this`ledger
      ensures Onward()
      ensures Keeps(old(schedule), schedule) && (Calm(old(schedule)) ==> files == old(files))
      ensures Sound(old(schedule)) ==> !r.Die?
      ensures CrashOnly(old(schedule)) ==> !r.Throw?
      ensures ledger == old(ledger) || ledger == RestoredLedger(j, old(ledger))
      ensures r.Return? ==> ledger == RestoredLedger(j, old(ledger)) && (r.value <==> !LedgerForeign(j, old(ledger)))
    {
      hide Traced, Script;
      var f := Pause();
      if f == Crash { return Die; }
      if f != Fine { return Throw; }
      if ledger == j.ledgerBefore { return Return(true); }
      if LedgerForeign(j, ledger) { return Return(false); }
      f := Pause();
      if f == Crash { return Die; }
      if f == Fail { return Throw; }
      ledger := j.ledgerBefore;
      if f == Late { return Throw; }
      return Return(true);
    }

    /** A journal write that fails has had no effect. */
    method WriteJournal(j: Journal) returns (r: Flow<()>)
      requires Traced()
      modifies this`files, this`schedule, this`trace, this`consumed, this`journals
      ensures Onward()
      ensures Keeps(old(schedule), schedule) && (Calm(old(schedule)) ==> files == old(files))
      ensures Sound(old(schedule)) ==> !r.Die?
      ensures CrashOnly(old(schedule)) ==> !r.Throw?
      ensures journals == if r.Return? then old(journals)[j.key := j] else old(journals)
    {
      var f := Pause();
      if f == Crash { return Die; }
      if f != Fine { return Throw; }
      journals := journals[j.key := j];
      return Return(());
    }

    method RemoveJournal(k: Key) returns (r: Flow<()>)
      requires Traced()
      modifies this`files, this`schedule, this`trace, this`consumed, this`journals
      ensures Onward()
      ensures Keeps(old(schedule), schedule) && (Calm(old(schedule)) ==> files == old(files))
      ensures Sound(old(schedule)) ==> !r.Die?
      ensures CrashOnly(old(schedule)) ==> !r.Throw?
      ensures journals == if r.Return? then old(journals) - {k} else old(journals)
    {
      var f := Pause();
      if f == Crash { return Die; }
      if f != Fine { return Throw; }
      journals := journals - {k};
      return Return(());
    }

    // ----- rollback -----

    /** The write or removal that puts one leaf back over the applier's own bytes. */
    method PutBack(f: JournalFile, current: Leaf) returns (w: Flow<()>)
      requires FileValid(f) && current.bytes == f.after && |f.after| <= MAX_MEMORY_FILE_BYTES
      requires Traced()
      modifies this`files, this`schedule, this`trace, this`consumed, this`clock, this`log
      ensures Onward()
      ensures Keeps(old(schedule), schedule) && (schedule == old(schedule) || schedule == Rest(old(schedule)))
      ensures Sound(old(schedule)) ==> !w.Die?
      ensures log == old(log) || exists e :: log == old(log) + [e] && BackWrite(f, e)
      ensures
        || files == old(files)
        || files == Arriving(old(files), old(schedule))
        || PutBackAlone(f, Arriving(old(files), old(schedule)), files)
      ensures w.Return? ==> ContentAt(files, f.path) == BytesOf(f.before)
      ensures CrashOnly(old(schedule)) && !w.Die? ==>
                (w.Return? <==> LeafAt(Arriving(old(files), old(schedule)), f.path) == Some(current))
      ensures Calm(old(schedule)) ==> ContentAt(files, f.path) in {ContentAt(old(files), f.path), BytesOf(f.before)}
      ensures Calm(old(schedule)) ==> forall q :: q != f.path ==> LeafAt(files, q) == LeafAt(old(files), q)
      ensures Calm(old(schedule)) && CrashOnly(old(schedule)) && LeafAt(old(files), f.path) == Some(current) ==>
                !w.Throw?
    {
      hide Traced, Script;
      hide Calm, CrashOnly, Sound, Keeps, IsMemoryName, Arriving, Rest;
      if f.before.Some? {
        w := WriteLeaf(f.path, Some(current), f.before.value.bytes);
      } else {
        w := RemoveLeaf(f.path, current);
      }
      assert log != old(log) ==> BackWrite(f, log[|log| - 1]);
    }

    /** Puts one leaf back if it holds the applier's own bytes; returns the conflicts found (0 or 1). */
    method RollbackFile(f: JournalFile) returns (r: Flow<nat>)
      requires FileValid(f)
      requires Traced()
      modifies this`files, this`schedule, this`trace, this`consumed, this`clock, this`log
      ensures Onward()
      ensures Keeps(old(schedule), schedule)
      ensures Sound(old(schedule)) ==> !r.Die?
      ensures !r.Throw? && (r.Return? ==> r.value <= 1)
      ensures log == old(log) || exists w :: log == old(log) + [w] && BackWrite(f, w)
      ensures Calm(old(schedule)) ==> PlacePartlyRestored(f, old(files), files)
      ensures Calm(old(schedule)) ==> forall q :: q != f.path ==> LeafAt(files, q) == LeafAt(old(files), q)
      ensures Remainder(old(schedule), schedule)
      ensures r == Return(0) ==> ContentAt(files, f.path) == BytesOf(f.before)
      ensures r.Return? ==> Passed(f, Passage(old(files), old(schedule), files, r.value == 1))
      ensures Calm(old(schedule)) && CrashOnly(old(schedule)) && !r.Die? ==>
                PlaceRestored(f, old(files), files) &&
                r == Return(if Foreign(f, ContentAt(old(files), f.path)) then 1 else 0)
    {
      hide Traced, Script;
      hide Calm, CrashOnly, Sound, IsMemoryName, Arriving;
      ghost var was := files;
      var current := CaptureLeaf(f.path);
      if current.Die? { return Die; }
      if current.Throw? { return Return(1); }
      if BytesOf(current.value) == BytesOf(f.before) { return Return(0); }
      if BytesOf(current.value) != Some(f.after) { return Return(1); }
      var w := PutBack(f, current.value.value);
      if w.Die? { return Die; }
      return Return(if w.Return? then 0 else 1);
    }

    /** The loop over the journal's files, last first; returns the conflicts found. */
    method RollbackFiles(j: Journal) returns (r: Flow<nat>, ghost passages: seq<Passage>)
      requires JournalValid(j)
      requires Traced()
      modifies this`files, this`schedule, this`trace, this`consumed, this`clock, this`log
      ensures Onward()
      ensures Keeps(old(schedule), schedule)
      ensures Sound(old(schedule)) ==> !r.Die?
      ensures !r.Throw?
      ensures BackSince(j, old(log), log)
      ensures Calm(old(schedule)) ==> PartlyRestored(j, old(files), ledger, files, ledger)
      ensures r.Return? ==>
                RollbackWay(j, passages, old(files), old(schedule)) && LeftBy(passages, old(files)) == files &&
                    r.value == ConflictsIn(passages)
      ensures Calm(old(schedule)) && r == Return(0) ==> TailBefore(j, 0, files)
      ensures Calm(old(schedule)) && r.Return? ==> TailPartly(j, 0, old(files), files)
      ensures Calm(old(schedule)) && CrashOnly(old(schedule)) && !r.Die? ==>
                TailRestored(j, 0, old(files), files) && r == Return(ForeignFiles(j.files, old(files)))
    {
      hide Traced, Script;
      hide Calm, CrashOnly, Sound, Passed, IsMemoryName, BackSince, Passages, TailPartly, TailRestored, TailBefore;
      hide PlaceRestored, PlacePartlyRestored, ForeignFiles, ConflictsIn, LeftBy, TicksOf, Remainder, Foreign;
      hide PartlyRestored;
      NoTail(j, files, schedule);
      NothingBack(j, log);
      var conflicts: nat := 0;
      var i := |j.files|;
      passages := [];
      while i > 0
        modifies this`files, this`schedule, this`trace, this`consumed, this`clock, this`log
        invariant Onward()
        invariant 0 <= i <= |j.files|
        invariant Keeps(old(schedule), schedule)
        invariant BackSince(j, old(log), log)
        invariant Passages(j, i, passages, old(files), old(schedule)) && conflicts == ConflictsIn(passages)
        invariant LeftBy(passages, old(files)) == files && Remainder(TicksOf(passages, old(schedule)), schedule)
        invariant passages == [] ==> schedule == old(schedule)
        invariant Calm(old(schedule)) ==> TailPartly(j, i, old(files), files)
        invariant Calm(old(schedule)) && conflicts == 0 ==> TailBefore(j, i, files)
        invariant Calm(old(schedule)) && CrashOnly(old(schedule)) ==>
                    TailRestored(j, i, old(files), files) && conflicts == ForeignFiles(j.files[i..], old(files))
      {
        i := i - 1;
        ghost var before, logged, ticks := files, log, schedule;
        var c := RollbackFile(j.files[i]);
        BackExtends(j, i, old(log), logged, log);
        if Calm(old(schedule)) { TailStep(j, i, old(files), before, files); }
        if c.Die? {
          if Calm(old(schedule)) { TailAll(j, old(files), ledger, files, ledger, i); }
          return Die, [];
        }
        ghost var passage := Passage(before, ticks, files, c.value == 1);
        NextPassage(j, i, passages, old(files), old(schedule), passage);
        passages := [passage] + passages;
        ForeignFrom(j, i, old(files));
        conflicts := conflicts + c.value;
      }
      assert j.files[0..] == j.files;
      if Calm(old(schedule)) { TailAll(j, old(files), ledger, files, ledger, 0); }
      r := Return(conflicts);
    }

    /** Files, then the ledger; returns the conflicts found. */
    method RollbackPlaces(j: Journal) returns (r: Flow<nat>, ghost passages: seq<Passage>)
      requires JournalValid(j)
      requires Traced()
      modifies this`files, this`schedule, this`trace, this`consumed, this`clock, this`log, this`ledger
      ensures Onward()
      ensures Keeps(old(schedule), schedule)
      ensures Sound(old(schedule)) ==> !r.Die?
      ensures BackSince(j, old(log), log)
      ensures ledger == old(ledger) || ledger == RestoredLedger(j, old(ledger))
      ensures Calm(old(schedule)) ==> PartlyRestored(j, old(files), old(ledger), files, ledger)
      ensures r.Return? ==>
                && RollbackWay(j, passages, old(files), old(schedule)) && ledger == RestoredLedger(j, old(ledger))
                && r.value == ConflictsIn(passages) + (if LedgerForeign(j, old(ledger)) then 1 else 0)
      ensures Calm(old(schedule)) && r == Return(0) ==> HoldsBefore(j, files, ledger)
      ensures Calm(old(schedule)) && CrashOnly(old(schedule)) && !r.Die? ==>
                FullyRestored(j, old(files), old(ledger), files, ledger) &&
                r == Return(ForeignCount(j, old(files), old(ledger)))
    {
      hide Traced, Script;
      var conflicts: nat;
      conflicts, passages :- RollbackFiles(j);
      var restored := RestoreLedger(j);
      if Calm(old(schedule)) { TailAll(j, old(files), old(ledger), files, ledger, 0); }
      if restored.IsFailure() { return restored.PropagateFailure<nat>(), []; }
      r := Return(if restored.value then conflicts else conflicts + 1);
    }

    /** The steps of rollbackJournal. */
    method RollbackWhole(j: Journal) returns (r: Flow<nat>, ghost passages: seq<Passage>)
      requires JournalValid(j)
      requires Traced()
      modifies this`files, this`schedule, this`trace, this`consumed, this`clock, this`log, this`ledger, this`journals
      ensures Onward()
      ensures Keeps(old(schedule), schedule)
      ensures Sound(old(schedule)) ==> !r.Die?
      ensures BackSince(j, old(log), log)
      ensures ledger == old(ledger) || ledger == RestoredLedger(j, old(ledger))
      ensures journals == if r == Return(0) then old(journals) - {j.key} else old(journals)
      ensures r.Return? && passages == [] ==> r.value == 1 && ledger == old(ledger) && log == old(log)
      ensures r.Return? && passages != [] ==>
                && RollbackWay(j, passages, Arriving(old(files), old(schedule)), Rest(old(schedule)))
                && ledger == RestoredLedger(j, old(ledger))
                && r.value == ConflictsIn(passages) + (if LedgerForeign(j, old(ledger)) then 1 else 0)
      ensures r == Return(0) ==> HeldBefore(j, 0, passages) && ledger == j.ledgerBefore
      ensures Calm(old(schedule)) ==> PartlyRestored(j, old(files), old(ledger), files, ledger)
      ensures Calm(old(schedule)) && r == Return(0) ==> HoldsBefore(j, files, ledger)
      ensures Calm(old(schedule)) && CrashOnly(old(schedule)) && !r.Die? && Anchored(j) ==>
                FullyRestored(j, old(files), old(ledger), files, ledger) &&
                r == Return(ForeignCount(j, old(files), old(ledger)))
    {
      hide Traced, Script;
      hide BackSince, ConflictsIn, JournalValid;
      hide Calm, CrashOnly, Sound, RollbackWay, HeldBefore, PartlyRestored, FullyRestored, HoldsBefore, ForeignCount;
      NothingBack(j, log);
      NothingRestored(j, files, ledger);
      var f := Pause();
      if f == Crash { return Die, []; }
      if f != Fine || !Anchored(j) { return Return(1), []; }
      var conflicts: nat;
      conflicts, passages :- RollbackPlaces(j);
      WholeWay(j, passages, Arriving(old(files), old(schedule)), Rest(old(schedule)));
      if conflicts == 0 {
        NoConflict(j, 0, passages, Arriving(old(files), old(schedule)), Rest(old(schedule)));
        var _ :- RemoveJournal(j.key);
      }
      r := Return(conflicts);
    }

    /**
      rollbackJournal. Whatever else happens, the leaves change only as others edit them, and by writes
      that put back the before-content over the applier's own bytes;
          each place held its before-content when its passage ended or counts as a conflict, and a foreign content
      always counts; the journal is removed exactly when there is no conflict. Left alone, it restores
      every place that is not foreign.
     */
    method RollbackJournal(j: Journal) returns (r: Flow<nat>, ghost passages: seq<Passage>)
      requires JournalValid(j)
      requires Traced()
      modifies this`files, this`schedule, this`trace, this`consumed, this`clock, this`log, this`ledger, this`journals
      ensures Onward()
      ensures Keeps(old(schedule), schedule)
      ensures Sound(old(schedule)) ==> !r.Die?
      ensures BackSince(j, old(log), log)
      ensures ledger == old(ledger) || ledger == RestoredLedger(j, old(ledger))
      ensures journals == if r == Return(0) then old(journals) - {j.key} else old(journals)
      ensures Led(old(files), old(schedule), Moves(), files, schedule) && BackWrites(j.files, Writes(Moves()))
      ensures r.Return? && passages == [] ==> r.value == 1 && ledger == old(ledger) && log == old(log)
      ensures r.Return? && passages != [] ==>
                && RollbackWay(j, passages, Arriving(old(files), old(schedule)), Rest(old(schedule)))
                && ledger == RestoredLedger(j, old(ledger))
                && r.value == ConflictsIn(passages) + (if LedgerForeign(j, old(ledger)) then 1 else 0)
      ensures r == Return(0) ==> HeldBefore(j, 0, passages) && ledger == j.ledgerBefore
      ensures Calm(old(schedule)) ==> PartlyRestored(j, old(files), old(ledger), files, ledger)
      ensures Calm(old(schedule)) && r == Return(0) ==> HoldsBefore(j, files, ledger)
      ensures Calm(old(schedule)) && CrashOnly(old(schedule)) && !r.Die? && Anchored(j) ==>
                FullyRestored(j, old(files), old(ledger), files, ledger) &&
                r == Return(ForeignCount(j, old(files), old(ledger)))
    {
      r, passages := RollbackWhole(j);
      LedSince(
        origin, old(trace), trace, old(files), files, old(log), log, old(consumed), consumed, old(schedule), schedule);
      assert log[|old(log)|..] == Writes(Moves());
    }

    // ----- apply -----

    /** One compare-and-swap of the forward direction, then its phase record. */
    method WriteFile(j: Journal, n: nat, phase: Phase, ghost a: Abstract) returns (r: Flow<()>)
      requires Underway(j, journals, journals)
      requires JournalValid(j) && n < |j.files| && phase != Committed
      requires Traced()
      modifies this`files, this`schedule, this`trace, this`consumed, this`clock, this`log, this`journals
      ensures Onward()
      ensures Keeps(old(schedule), schedule)
      ensures Sound(old(schedule)) ==> !r.Die?
      ensures OwnSince(j, old(log), log)
      ensures Underway(j, old(journals), journals)
      ensures Calm(old(schedule)) && WrittenUpTo(a, j, n, old(files)) ==>
                WrittenUpTo(a, j, n + 1, files) || (!r.Return? && WrittenUpTo(a, j, n, files))
      ensures Calm(old(schedule)) && CrashOnly(old(schedule)) && WrittenUpTo(a, j, n, old(files)) && AftersFit(j) ==>
                !r.Throw?
    {
      hide Traced, Script;
      hide Calm, CrashOnly, Sound, IsMemoryName, OwnSince, WrittenUpTo, WrittenLeaf, Arriving, ValidLedger;
      ghost var before := files;
      if WrittenUpTo(a, j, n, files) { NextWritable(a, j, n, files); }
      r := WriteLeaf(j.files[n].path, j.files[n].before, j.files[n].after);
      if Calm(old(schedule)) && WrittenUpTo(a, j, n, before) { WriteNext(a, j, n, before, files); }
      NothingSince(j, old(log));
      LogExtends(j, n, old(log), old(log), log);
      if r.IsFailure() { return; }
      r := WriteJournal(j.(phase := phase));
    }

    /** The memory leaves in journal order. */
    method WriteLeaves(j: Journal, ghost a: Abstract) returns (r: Flow<()>)
      requires Underway(j, journals, journals)
      requires JournalValid(j)
      requires Traced()
      modifies this`files, this`schedule, this`trace, this`consumed, this`clock, this`log, this`journals
      ensures Onward()
      ensures Keeps(old(schedule), schedule)
      ensures Sound(old(schedule)) ==> !r.Die?
      ensures OwnSince(j, old(log), log)
      ensures Underway(j, old(journals), journals)
      ensures Calm(old(schedule)) && WrittenUpTo(a, j, 0, old(files)) ==> PartWritten(a, j, files)
      ensures Calm(old(schedule)) && WrittenUpTo(a, j, 0, old(files)) && r.Return? ==>
                WrittenUpTo(a, j, |j.files|, files)
      ensures Calm(old(schedule)) && CrashOnly(old(schedule)) && WrittenUpTo(a, j, 0, old(files)) && AftersFit(j) ==>
                !r.Throw?
    {
      hide Traced, Script;
      hide Calm, CrashOnly, Sound, WrittenUpTo, OwnSince, AftersFit, PartWritten, FileValid, ValidLedger;
      r := WriteFile(j, 0, TopicApplied, a);
      WrittenSoFar(a, j, files);
      if r.IsFailure() || |j.files| == 1 { return; }
      ghost var logged := log;
      r := WriteFile(j, 1, IndexApplied, a);
      OwnSinceTransitive(j, old(log), logged, log);
      WrittenSoFar(a, j, files);
    }

    /** The ledger, then the commit record; the journal is removed if that works. */
    method CommitTransaction(j: Journal, next: Ledger, ghost c: Commit) returns (r: Flow<()>)
      requires Underway(j, journals, journals)
      requires ValidLedger(next)
      requires Traced()
      modifies this`files, this`schedule, this`trace, this`consumed, this`ledger, this`journals, this`commits
      ensures Onward()
      ensures Keeps(old(schedule), schedule) && (Calm(old(schedule)) ==> files == old(files))
      ensures ledger == old(ledger) || ledger == Some(next)
      ensures commits == old(commits) ==> !r.Return? && Underway(j, old(journals), journals)
      ensures commits != old(commits) ==>
                commits == old(commits) + [c] && ledger == Some(next) && Finished(j, old(journals), journals, r)
      ensures Sound(old(schedule)) ==> !r.Die?
      ensures CrashOnly(old(schedule)) && !r.Die? ==> r.Return? && journals == old(journals) - {j.key}
    {
      hide Traced, Script;
      hide Calm, CrashOnly, Sound, ValidLedger;
      var _ :- WriteLedger(next);
      var _ :- WriteJournal(j.(phase := LedgerApplied));
      var _ :- WriteJournal(j.(phase := Committed));
      commits := commits + [c];
      var removed := RemoveJournal(j.key);
      if removed.Die? { return Die; }
      return Return(());
    }

    /** The durable steps after prepare. On a throw or a crash before the commit record the state is torn. */
    method WritePhases(j: Journal, next: Ledger, ghost a: Abstract, ghost c: Commit) returns (r: Flow<()>)
      requires j.key in journals && journals[j.key] == j
      requires JournalValid(j) && j.phase == Prepared && ValidLedger(next) && Sha256(next) == j.ledgerAfter
      requires Traced()
      modifies this`files, this`schedule, this`trace, this`consumed, this`clock, this`log, this`ledger, this`journals,
          this`commits
      ensures Onward()
      ensures Keeps(old(schedule), schedule)
      ensures Sound(old(schedule)) ==> !r.Die?
      ensures OwnSince(j, old(log), log)
      ensures ledger == old(ledger) || ledger == Some(next)
      ensures commits == old(commits) ==> !r.Return? && Underway(j, old(journals), journals)
      ensures commits != old(commits) ==> commits == old(commits) + [c] && Finished(j, old(journals), journals, r)
      ensures Calm(old(schedule)) && ReadyToWrite(a, j, old(files), old(ledger)) ==> Torn(a, j, files, ledger)
      ensures Calm(old(schedule)) && ReadyToWrite(a, j, old(files), old(ledger)) && commits != old(commits) ==>
                HoldsAfter(a, j, next, files, ledger)
      ensures Calm(old(schedule)) && CrashOnly(old(schedule)) && !r.Die? &&
                ReadyToWrite(a, j, old(files), old(ledger)) && AftersFit(j) ==>
                r.Return? && journals == old(journals) - {j.key}
    {
      hide Traced, Script;
      hide Calm, CrashOnly, Sound, OwnSince, ValidLedger, JournalValid, AftersFit;
      ghost var ready := Calm(schedule) && ReadyToWrite(a, j, files, ledger);
      if ready { ReadyIsWrittenUpToNothing(a, j, files, ledger); }
      r := WriteLeaves(j, a);
      if ready {
        ghost var n :| 0 <= n <= |j.files| && WrittenUpTo(a, j, n, files);
        WrittenIsTorn(a, j, n, next, files, ledger);
      }
      if r.IsFailure() { return; }
      r := CommitTransaction(j, next, c);
      if ready { WrittenIsTorn(a, j, |j.files|, next, files, ledger); }
    }

    method ReadJournal(k: Key) returns (r: Flow<Option<Journal>>)
      requires Traced()
      modifies this`files, this`schedule, this`trace, this`consumed
      ensures Onward()
      ensures Keeps(old(schedule), schedule) && (Calm(old(schedule)) ==> files == old(files))
      ensures Sound(old(schedule)) ==> !r.Die?
      ensures CrashOnly(old(schedule)) ==> !r.Throw?
      ensures r.Return? ==> r.value == if k in journals then Some(journals[k]) else None
    {
      var f := Pause();
      if f == Crash { return Die; }
      if f != Fine { return Throw; }
      return Return(if k in journals then Some(journals[k]) else None);
    }

    /** observationMatchesCurrent: the whole memory directory is still as it was observed. */
    method ObservationMatches(o: Digest<Files>) returns (r: Flow<bool>)
      requires Traced()
      modifies this`files, this`schedule, this`trace, this`consumed
      ensures Onward()
      ensures Keeps(old(schedule), schedule) && (Calm(old(schedule)) ==> files == old(files))
      ensures Sound(old(schedule)) ==> !r.Die?
      ensures CrashOnly(old(schedule)) && !r.Die? ==> r == Return(o == Sha256(files))
      ensures r == Return(true) ==> o == Sha256(files)
      ensures !r.Throw?
    {
      var f := Pause();
      if f == Crash { return Die; }
      return Return(f == Fine && o == Sha256(files));
    }

    /** Clears the proposal's own committed journal; false if it has an unfinished one. */
    method ClearCommitted(k: Key) returns (r: Flow<bool>)
      requires Traced()
      modifies this`files, this`schedule, this`trace, this`consumed, this`journals
      ensures Onward()
      ensures Keeps(old(schedule), schedule) && (Calm(old(schedule)) ==> files == old(files))
      ensures Sound(old(schedule)) ==> !r.Die?
      ensures CrashOnly(old(schedule)) ==> !r.Throw?
      ensures journals == old(journals) ||
                (k in old(journals) && old(journals)[k].phase == Committed && journals == old(journals) - {k})
      ensures r == Return(true) ==> k !in journals
      ensures r == Return(false) ==> k in Unfinished(journals)
    {
      hide Traced, Script;
      var pending :- ReadJournal(k);
      if pending == None { return Return(true); }
      if pending.value.phase != Committed { return Return(false); }
      var _ :- RemoveJournal(k);
      return Return(true);
    }

    /** Whether the index holds the topic's line exactly once; asked for a create only. */
    method IndexedOnce(p: Proposal) returns (r: Flow<bool>)
      requires Traced()
      modifies this`files, this`schedule, this`trace, this`consumed
      ensures Onward()
      ensures Keeps(old(schedule), schedule) && (Calm(old(schedule)) ==> files == old(files))
      ensures Sound(old(schedule)) ==> !r.Die?
      ensures r.Return? ==> (r.value <==> Indexed(files, p))
      ensures Calm(old(schedule)) && CrashOnly(old(schedule)) && Readable(files, p) ==> !r.Throw?
    {
      hide Traced, Script;
      if p.decision != Create { return Return(true); }
      assert IsMemoryName(INDEX) && IndexLine(p.topic) != [];
      hide Calm, CrashOnly, Sound, IsMemoryName, Occurrences, IndexLine, Arriving, Rest;
      var current :- CaptureLeaf(INDEX);
      return Return(current.Some? && Occurrences(current.value.bytes, IndexLine(p.topic)) == 1);
    }

    /** The topic leaf, the ledger, and whether the proposal is already in effect. */
    method Inspect(p: Proposal) returns (r: Flow<Seen>)
      requires Valid()
      requires Traced()
      modifies this`files, this`schedule, this`trace, this`consumed
      ensures Onward()
      ensures Keeps(old(schedule), schedule) && (Calm(old(schedule)) ==> files == old(files))
      ensures Sound(old(schedule)) ==> !r.Die?
      ensures Calm(old(schedule)) && r.Return? ==>
                && r.value.topicBefore == LeafAt(files, TopicPath(p.topic))
                && (r.value.already <==> AlreadyThere(View(), p))
      ensures r.Return? ==>
                && r.value.managed == ledger && IsMemoryName(TopicPath(p.topic))
                && (r.value.topicBefore.Some? ==> |r.value.topicBefore.value.bytes| <= MAX_MEMORY_FILE_BYTES)
      ensures Calm(old(schedule)) && CrashOnly(old(schedule)) && Readable(files, p) ==> !r.Throw?
    {
      hide Traced, Script;
      hide Calm, CrashOnly, Sound, IsMemoryName, JournalsValid, TopicPath, ValidLedger, AlreadyThere, Indexed;
      hide Readable, Owner, EntriesOf, Arriving, Rest;
      if Readable(files, p) { ReadableParts(files, p); }
      var topicBefore :- CaptureLeaf(TopicPath(p.topic));
      var managed :- ReadLedger();
      var owned := Owner(EntriesOf(managed), TopicPath(p.topic));
      var idempotentIndex :- IndexedOnce(p);
      var already := owned.Some? && owned.value.proposalKey == p.key && topicBefore.Some?
        && Sha256(topicBefore.value.bytes) == owned.value.sha256 && idempotentIndex;
      if Calm(old(schedule)) { SeenAlready(files, ledger, p, idempotentIndex, already); }
      return Return(Seen(topicBefore, managed, already));
    }

    /** The journal entries of the transaction, or None if its preconditions do not hold. */
    method PlanFiles(p: Proposal, seen: Seen) returns (r: Flow<Option<seq<JournalFile>>>)
      requires Traced()
      modifies this`files, this`schedule, this`trace, this`consumed
      ensures Onward()
      ensures Keeps(old(schedule), schedule) && (Calm(old(schedule)) ==> files == old(files))
      ensures Sound(old(schedule)) ==> !r.Die?
      ensures r.Return? && r.value.Some? ==> Entries(p, seen, r.value.value)
      ensures Calm(old(schedule)) && r.Return? && r.value.Some? && p.decision == Create ==>
                r.value.value[1].before == LeafAt(files, INDEX)
      ensures Calm(old(schedule)) && CrashOnly(old(schedule)) && !r.Die? && Readable(files, p) ==>
                r.Return? &&
                    (r.value.Some? <==>
                        if p.decision == Create then seen.topicBefore == None && INDEX in files
                            else OwnedAsSeen(p, seen))
    {
      hide Traced, Script;
      var topic := JournalFile(TopicPath(p.topic), seen.topicBefore, p.content + "\n");
      if p.decision == Patch {
        return Return(if OwnedAsSeen(p, seen) then Some([topic]) else None);
      }
      if seen.topicBefore.Some? { return Return(None); }
      var indexBefore :- CaptureLeaf(INDEX);
      if indexBefore == None { return Return(None); }
      return Return(Some([topic, JournalFile(INDEX, indexBefore, IndexAfter(indexBefore.value.bytes, p.topic))]));
    }

    /** The journal and next ledger, or None if the proposal's preconditions do not hold. */
    method Draft(q: Request, seen: Seen) returns (r: Flow<Option<Plan>>)
      requires Valid() && IsTopic(q.proposal.topic) && IsMemoryName(TopicPath(q.proposal.topic))
      requires ValidLedger(EntriesOf(seen.managed))
      requires seen.topicBefore.Some? ==> |seen.topicBefore.value.bytes| <= MAX_MEMORY_FILE_BYTES
      requires Traced()
      modifies this`files, this`schedule, this`trace, this`consumed
      ensures Onward()
      ensures Keeps(old(schedule), schedule) && (Calm(old(schedule)) ==> files == old(files))
      ensures Sound(old(schedule)) ==> !r.Die?
      ensures r.Return? && r.value.Some? ==> r.value.value.Go? && SoundPlan(q, r.value.value)
      ensures Calm(old(schedule)) && r.Return? && r.value.Some? && Expected(View(), files, q, seen) ==>
                FaithfulPlan(View(), files, ledger, q, r.value.value)
      ensures Calm(old(schedule)) && CrashOnly(old(schedule)) && !r.Die? && Expected(View(), files, q, seen) &&
                Readable(files, q.proposal) ==>
                r.Return? && (r.value.Some? <==> Accepts(View(), q.proposal))
    {
      hide Traced, Script;
      var entries :- PlanFiles(q.proposal, seen);
      if entries == None { return Return(None); }
      var before :- ReadLedger();
      PlanIsSound(q, seen, entries.value, before);
      if Calm(old(schedule)) &&
          Expected(View(), files, q, seen)
      {
        PlanIsFaithful(files, ledger, q, seen, entries.value);
      }
      return Return(Some(MakePlan(q, seen, entries.value, before)));
    }

    /** The part of apply that reads the state and decides. */
    method Prepare(q: Request) returns (r: Flow<Plan>)
      requires Valid() && IsTopic(q.proposal.topic)
      requires Traced()
      modifies this`files, this`schedule, this`trace, this`consumed
      ensures Onward()
      ensures Keeps(old(schedule), schedule) && (Calm(old(schedule)) ==> files == old(files))
      ensures Sound(old(schedule)) ==> !r.Die?
      ensures r.Return? && r.value.Go? ==> SoundPlan(q, r.value)
      ensures r.Return? && (r.value.Go? || r.value == Stop(AlreadyApplied)) ==>
                IsMemoryName(TopicPath(q.proposal.topic))
      ensures r.Return? && r.value.Stop? ==> r.value.outcome in {Rejected, AlreadyApplied}
      ensures Calm(old(schedule)) && r.Return? ==> RightPlan(View(), files, ledger, q, r.value)
      ensures Calm(old(schedule)) && CrashOnly(old(schedule)) && !r.Die? && Readable(files, q.proposal) ==>
                r.Return? && ExactPlan(View(), files, q, r.value)
    {
      hide Traced, Script;
      hide Calm, CrashOnly, Sound, JournalsValid, ValidLedger, IsTopic, AlreadyThere, FaithfulPlan, Accepts;
      TopicNamesLeaf(q.proposal.topic);
      var seen :- Inspect(q.proposal);
      if seen.already { return Return(Stop(AlreadyApplied)); }
      var current :- ObservationMatches(q.observation);
      if !current { return Return(Stop(Rejected)); }
      var plan :- Draft(q, seen);
      return Return(if plan.Some? then plan.value else Stop(Rejected));
    }

    /** The write phases, rolled back in place if anything throws. */
    method WriteOrUndo(j: Journal, next: Ledger, ghost a: Abstract, ghost c: Commit) returns (r: Flow<Outcome>)
      requires j.key in journals && journals[j.key] == j
      requires JournalValid(j) && j.phase == Prepared && ValidLedger(next) && Sha256(next) == j.ledgerAfter
      requires Traced()
      modifies this`files, this`schedule, this`trace, this`consumed, this`clock, this`log, this`ledger, this`journals,
          this`commits
      ensures Onward()
      ensures Keeps(old(schedule), schedule)
      ensures Sound(old(schedule)) ==> !r.Die?
      ensures OwnSince(j, old(log), log)
      ensures ledger == old(ledger) || ledger == Some(next) || ledger == j.ledgerBefore
      ensures commits != old(commits) ==>
                commits == old(commits) + [c] && (r == Return(Applied) || r == Die) &&
                (journals == old(journals) - {j.key} || journals == old(journals)[j.key := j.(phase := Committed)])
      ensures commits == old(commits) ==>
                if r == Return(RolledBack) then journals == old(journals) - {j.key}
                else r in {Return(RollbackConflict), Throw, Die} && Underway(j, old(journals), journals)
      ensures Calm(old(schedule)) && ReadyToWrite(a, j, old(files), old(ledger)) ==>
                && Torn(a, j, files, ledger)
                && (commits != old(commits) ==> HoldsAfter(a, j, next, files, ledger))
                && (r == Return(RolledBack) ==> View() == a)
                && (CrashOnly(old(schedule)) && Anchored(j) ==> r in {Return(Applied), Return(RolledBack), Die})
      ensures Calm(old(schedule)) && CrashOnly(old(schedule)) && !r.Die? &&
                ReadyToWrite(a, j, old(files), old(ledger)) && AftersFit(j) ==>
                r == Return(Applied) && journals == old(journals) - {j.key}
    {
      hide Traced, Script;
      hide Calm, CrashOnly, Sound, ReadyToWrite, HoldsAfter;
      ghost var ready := Calm(schedule) && ReadyToWrite(a, j, files, ledger);
      var written := WritePhases(j, next, a, c);
      if written.Return? { return Return(Applied); }
      if written.Die? { return Die; }
      ghost var torn, owed, logged := files, ledger, log;
      if ready { TornIsNotForeign(a, j, files, ledger); }
      var rolled, _ := RollbackJournal(j);
      BackIsOwn(j, logged, log);
      OwnSinceTransitive(j, old(log), logged, log);
      if ready { TornRestores(a, j, torn, owed, files, ledger); }
      if rolled.IsFailure() { return rolled.PropagateFailure<Outcome>(); }
      return Return(if rolled.value == 0 then RolledBack else RollbackConflict);
    }

    /** From the prepare record on. Either the proposal commits, or the state stays one rollback away from a. */
    method Transact(q: Request, plan: Plan, ghost a: Abstract) returns (r: Flow<Outcome>)
      requires Valid() && plan.Go? && SoundPlan(q, plan) && q.proposal.key !in journals
      requires Traced()
      modifies this`files, this`schedule, this`trace, this`consumed, this`clock, this`log, this`ledger, this`journals,
          this`commits
      ensures Onward()
      ensures Keeps(old(schedule), schedule)
      ensures Sound(old(schedule)) ==> !r.Die?
      ensures Valid()
      ensures OwnSince(plan.journal, old(log), log)
      ensures commits != old(commits) ==>
                commits == old(commits) + [Commit(q.proposal, q.now)] && (r == Return(Applied) || r == Die)
      ensures r == Return(Applied) ==> commits != old(commits)
      ensures r.Return? ==> r.value in {Applied, RolledBack, RollbackConflict}
      ensures commits != old(commits) || r == Return(RolledBack) ==> Unfinished(journals) == Unfinished(old(journals))
      ensures Calm(old(schedule)) && FaithfulPlan(a, old(files), old(ledger), q, plan) ==>
                if commits != old(commits) then Execute(a, Commit(q.proposal, q.now)) == Some(View())
                else Unfinished(old(journals)) == {} ==> Coherent(a, files, ledger, journals)
      ensures OthersKept(plan.journal.key, old(journals), journals)
      ensures Calm(old(schedule)) && CrashOnly(old(schedule)) && !r.Die? &&
                FaithfulPlan(a, old(files), old(ledger), q, plan) && AftersFit(plan.journal) ==>
                r == Return(Applied) && journals == old(journals)
      ensures Calm(old(schedule)) && CrashOnly(old(schedule)) && !r.Die? &&
                FaithfulPlan(a, old(files), old(ledger), q, plan) ==>
                Unfinished(journals) == Unfinished(old(journals))
    {
      hide Traced, Script;
      hide OwnSince, Anchored, Underway, OthersKept, Unfinished;
      hide Calm, CrashOnly, Sound, AftersFit, Effect, JournalsValid, JournalValid, ValidLedger, Coherent, Execute, Torn;
      hide Carries, HoldsAfter, ReadyToWrite;
      ghost var j := plan.journal;
      ghost var ready := Calm(schedule) && FaithfulPlan(a, files, ledger, q, plan);
      ghost var alone := Unfinished(journals) == {};
      NothingSince(j, log);
      if ready && alone { ReadyIsCoherent(a, j, files, ledger, journals); }
      NothingEnds(j, journals);
      var prepared := WriteJournal(plan.journal);
      if prepared.IsFailure() { return prepared.PropagateFailure<Outcome>(); }
      r := WriteOrUndo(plan.journal, plan.next, a, Commit(q.proposal, q.now));
      ghost var committed, undone := commits != old(commits), r == Return(RolledBack);
      TransactionEnds(j, old(journals), journals, committed, undone);
      ValidAfter(j, plan.next, old(journals), journals, old(ledger), ledger);
      if ready && (committed || alone) {
        Concluded(a, q, plan, old(journals), files, ledger, journals, committed, undone);
      }
    }

    /** The body of apply once both claims are held. */
    method ApplyClaimed(q: Request) returns (r: Flow<Outcome>, ghost mine: seq<JournalFile>)
      requires Valid() && IsTopic(q.proposal.topic)
      requires Traced()
      modifies this`files, this`schedule, this`trace, this`consumed, this`clock, this`log, this`ledger, this`journals,
          this`commits
      ensures Onward()
      ensures Keeps(old(schedule), schedule)
      ensures Sound(old(schedule)) ==> !r.Die?
      ensures Valid()
      ensures |old(log)| <= |log| && log[..|old(log)|] == old(log) && OwnWrites(mine, log[|old(log)|..])
      ensures commits != old(commits) ==>
                commits == old(commits) + [Commit(q.proposal, q.now)] && (r == Return(Applied) || r == Die)
      ensures r == Return(Applied) ==> commits != old(commits)
      ensures r.Return? ==> r.value != Disabled
      ensures (r.Return? && r.value != Rejected) || commits != old(commits) ==>
                IsMemoryName(TopicPath(q.proposal.topic))
      ensures r in {Return(Applied), Return(AlreadyApplied), Return(RolledBack)} ==>
                Unfinished(journals) == Unfinished(old(journals))
      ensures Calm(old(schedule)) ==> Faithful(old(View()), q, old(commits), old(journals))
      ensures OthersKept(q.proposal.key, old(journals), journals)
      ensures Undisturbed(old(schedule)) && !r.Die? ==> Unfinished(journals) == Unfinished(old(journals))
      ensures Calm(old(schedule)) && r == Return(AlreadyApplied) ==>
                AlreadyThere(old(View()), q.proposal) && View() == old(View())
      ensures Calm(old(schedule)) && commits != old(commits) ==> Applicable(old(View()), old(files), q)
      ensures Undisturbed(old(schedule)) && !r.Die? && q.proposal.key !in Unfinished(old(journals)) &&
                Readable(old(files), q.proposal) ==>
                && (AlreadyThere(old(View()), q.proposal) ==> r == Return(AlreadyApplied))
                && (Applicable(old(View()), old(files), q) && ResultFits(old(View()), q.proposal) ==>
                      r == Return(Applied))
      ensures Undisturbed(old(schedule)) && !r.Die? && q.proposal.key !in Unfinished(old(journals)) &&
                Room(old(View()).contents, q.proposal) && r != Return(Applied) ==>
                files == old(files) && ledger == old(ledger)
    {
      hide Traced, Script;
      hide Sound, JournalsValid, SoundPlan, Coherent, OthersKept, Unfinished;
      hide Calm, CrashOnly, Sound, AftersFit, Execute, Accepts, JournalValid, ValidLedger, EntriesOf, AlreadyThere;
      hide Torn, Readable, ResultFits, ReadyToWrite, Carries;
      mine := [];
      assert log[|old(log)|..] == [];
      AtRest(files, ledger, journals);
      var cleared := ClearCommitted(q.proposal.key);
      ClearedKeeps(q.proposal.key, old(journals), journals);
      AtRest(files, ledger, journals);
      if cleared.IsFailure() { return cleared.PropagateFailure<Outcome>(), []; }
      if !cleared.value { return Return(Rejected), []; }
      var plan := Prepare(q);
      if plan.IsFailure() { return plan.PropagateFailure<Outcome>(), []; }
      if plan.value.Stop? { return Return(plan.value.outcome), []; }
      if Room(View().contents, q.proposal) { RoomSuffices(files, ledger, q.proposal); }
      mine := plan.value.journal.files;
      ghost var between := journals;
      PlanKey(q, plan.value);
      r := Transact(q, plan.value, old(View()));
      KeptTwice(q.proposal.key, old(journals), between, journals);
    }

    /**
      The committed state is what the proposal means in the state it was applied to; without a commit the
      state stays coherent with that one, if no other transaction was pending there.
     */
    ghost predicate Faithful(a: Abstract, q: Request, was: seq<Commit>, pending: Journals)
      reads this
    {
      if commits == was then Unfinished(pending) == {} ==> Coherent(a, files, ledger, journals)
      else Unfinished(journals) == Unfinished(pending) && Execute(a, Commit(q.proposal, q.now)) == Some(View())
    }

    /** Nobody else writes and no call fails, though the process may die. */
    ghost predicate Undisturbed(s: seq<Tick>) { Calm(s) && CrashOnly(s) }

    /** The request passes all checks that do not look at the memory directory. */
    ghost predicate Wanted(q: Request) {
      && q.enabled && q.authorized && !q.busy && q.observation == q.proposal.watermark
      && IsTopic(q.proposal.topic) && Hyphens(q.proposal.topic) <= 1
    }

    /** applyMemoryReviewProposal; an exception of its body is a rejection. None means the process died. */
    method Apply(q: Request) returns (r: Option<Outcome>, ghost mine: seq<JournalFile>)
      requires Valid()
      requires Traced()
      modifies this`starts, this`files, this`schedule, this`trace, this`consumed, this`clock, this`log, this`ledger,
          this`journals, this`commits
      ensures Onward()
      ensures Keeps(old(schedule), schedule)
      ensures Sound(old(schedule)) ==> r.Some?
      ensures Valid()
      ensures |old(log)| <= |log| && log[..|old(log)|] == old(log) && OwnWrites(mine, log[|old(log)|..])
      ensures commits != old(commits) ==>
                commits == old(commits) + [Commit(q.proposal, q.now)] && r in {Some(Applied), None}
      ensures r == Some(Applied) ==> commits != old(commits)
      ensures q.enabled && IsTopic(q.proposal.topic) && Hyphens(q.proposal.topic) > 1 ==>
                r in {Some(Rejected), None} && commits == old(commits)
      ensures r in {Some(Disabled), Some(Applied), Some(AlreadyApplied), Some(RolledBack)} ==>
                Unfinished(journals) == Unfinished(old(journals))
      ensures Calm(old(schedule)) ==> Faithful(old(View()), q, old(commits), old(journals))
      ensures OthersKept(q.proposal.key, old(journals), journals)
      ensures starts == old(starts) + [Unfinished(old(journals))]
      ensures Led(old(files), old(schedule), Moves(), files, schedule) && OwnWrites(mine, Writes(Moves()))
      ensures Undisturbed(old(schedule)) && r.Some? ==> Unfinished(journals) == Unfinished(old(journals))
      ensures Calm(old(schedule)) && r == Some(AlreadyApplied) ==>
                AlreadyThere(old(View()), q.proposal) && View() == old(View())
      ensures Calm(old(schedule)) && commits != old(commits) ==> Permitted(q) && Applicable(old(View()), old(files), q)
      ensures Undisturbed(old(schedule)) && r.Some? && q.proposal.key !in Unfinished(old(journals)) && Permitted(q) &&
                Readable(old(files), q.proposal) ==>
                && (AlreadyThere(old(View()), q.proposal) ==> r == Some(AlreadyApplied))
                && (Applicable(old(View()), old(files), q) && ResultFits(old(View()), q.proposal) ==>
                      r == Some(Applied))
      ensures Calm(old(schedule)) && commits != old(commits) ==> Took(old(View()), View(), Commit(q.proposal, q.now))
      ensures Undisturbed(old(schedule)) && r.Some? && q.proposal.key !in Unfinished(old(journals)) &&
                Room(old(View()).contents, q.proposal) ==>
                && (r == Some(Applied) <==>
                      Wanted(q) && q.observation == Sha256(old(files)) && Open(old(files), old(ledger), q.proposal))
                && (r != Some(Applied) ==> files == old(files) && ledger == old(ledger))
    {
      hide Calm, CrashOnly, Sound, Coherent, Execute, Unfinished, OwnWrites, JournalsValid, ValidLedger, Readable;
      hide AlreadyThere, Accepts, ResultFits, Took, Open, Room, Applicable;
      ghost var a, seen := View(), files;
      mine := [];
      NothingWritten([], log);
      NothingMoved(files, schedule);
      AtRest(files, ledger, journals);
      assert trace[|trace|..] == [] && log[|log|..] == [];
      starts := starts + [Unfinished(journals)];
      if !q.enabled { return Some(Disabled), []; }
      if !q.authorized || !IsTopic(q.proposal.topic) ||
          q.observation != q.proposal.watermark
      {
        return Some(Rejected), [];
      }
      if q.busy { return Some(Rejected), []; }
      var outcome: Flow<Outcome>;
      TopicNamesLeaf(q.proposal.topic);
      outcome, mine := ApplyClaimed(q);
      LedSince(
        origin, old(trace), trace, old(files), files, old(log), log, old(consumed), consumed, old(schedule), schedule);
      assert log[|old(log)|..] == Writes(Moves());
      if Calm(old(schedule)) && commits != old(commits) { AppliedTakes(a, View(), q); }
      MayBeApplied(seen, a.ledger, q);
      if Room(a.contents, q.proposal) && IsMemoryName(TopicPath(q.proposal.topic)) {
        RoomSuffices(seen, a.ledger, q.proposal);
      }
      r := match outcome case Return(o) => Some(o) case Throw => Some(Rejected) case Die => None;
    }

    predicate Permitted(q: Request) {
      q.enabled && q.authorized && !q.busy && IsTopic(q.proposal.topic) && q.observation == q.proposal.watermark
    }

    // ----- recovery -----

    /** One journal of the recovery loop. */
    method RecoverOne(k: Key, s: Authority, ghost a: Abstract) returns (r: Flow<One>)
      requires Valid() && k in journals
      requires Traced()
      modifies this`files, this`schedule, this`trace, this`consumed, this`clock, this`log, this`ledger, this`journals
      ensures Onward()
      ensures Keeps(old(schedule), schedule)
      ensures Sound(old(schedule)) ==> !r.Die?
      ensures Valid()
      ensures BackSince(old(journals)[k], old(log), log)
      ensures journals == if r in {Return(Cleared), Return(Undone)} then old(journals) - {k} else old(journals)
      ensures r == Return(Undone) ==> k in Unfinished(old(journals))
      ensures r == Return(Cleared) ==> k !in Unfinished(old(journals))
      ensures Calm(old(schedule)) && Coherent(a, old(files), old(ledger), old(journals)) ==>
                Coherent(a, files, ledger, journals)
      ensures Undisturbed(old(schedule)) && !r.Die? && Coherent(a, old(files), old(ledger), old(journals)) &&
                Governs(s, old(journals)[k]) ==>
                r == Return(if k in Unfinished(old(journals)) then Undone else Cleared)
    {
      hide Traced, Script;
      hide Calm, CrashOnly, Sound, Torn, JournalValid, ValidLedger, Coherent, BackSince;
      NothingBack(journals[k], log);
      var read :- ReadJournal(k);
      var j := read.value;
      if j.release != s.release || j.directory != s.directory ||
          j.directoryHash != s.directoryHash
      {
        return Return(Conflict);
      }
      if j.phase == Committed {
        var _ :- RemoveJournal(k);
        ClearedJournal(a, k, files, ledger, old(journals));
        return Return(Cleared);
      }
      if k in s.busyKeys { return Return(Conflict); }
      r := UndoClaimed(j, a);
    }

    /** The rollback of one unfinished journal whose claim is held. */
    method UndoClaimed(j: Journal, ghost a: Abstract) returns (r: Flow<One>)
      requires Valid() && j.key in Unfinished(journals) && journals[j.key] == j
      requires Traced()
      modifies this`files, this`schedule, this`trace, this`consumed, this`clock, this`log, this`ledger, this`journals
      ensures Onward()
      ensures Keeps(old(schedule), schedule)
      ensures Sound(old(schedule)) ==> !r.Die?
      ensures Valid()
      ensures BackSince(j, old(log), log)
      ensures r != Return(Cleared) && journals == if r == Return(Undone) then old(journals) - {j.key} else old(journals)
      ensures Calm(old(schedule)) && Coherent(a, old(files), old(ledger), old(journals)) ==>
                Coherent(a, files, ledger, journals)
      ensures Undisturbed(old(schedule)) && !r.Die? && Coherent(a, old(files), old(ledger), old(journals)) ==>
                r == Return(Undone)
    {
      hide Traced, Script;
      hide Calm, CrashOnly, Sound, Torn, JournalValid, ValidLedger, Coherent, Passages, HeldBefore, Arriving, Rest;
      hide ConflictsIn;
      ghost var coherent := Calm(schedule) && Coherent(a, files, ledger, journals);
      if coherent { CoherentIsNotForeign(a, j.key, files, ledger, journals); }
      var rolled, _ := RollbackJournal(j);
      ValidAfter(j, EntriesOf(old(ledger)), old(journals), journals, old(ledger), ledger);
      if coherent { RecoverStep(a, j.key, old(files), old(ledger), old(journals), files, ledger, journals); }
      if rolled.IsFailure() { return rolled.PropagateFailure<One>(); }
      return Return(if rolled.value == 0 then Undone else Conflict);
    }

    /** The loop of recovery, over the journals in any order. */
    method RecoverAll(s: Authority, ghost a: Abstract) returns (r: Flow<Recovery>)
      requires Valid()
      requires Traced()
      modifies this`files, this`schedule, this`trace, this`consumed, this`clock, this`log, this`ledger, this`journals
      ensures Onward()
      ensures Keeps(old(schedule), schedule)
      ensures Sound(old(schedule)) ==> !r.Die?
      ensures Valid()
      ensures UndoneBy(old(journals), old(log), log)
      ensures OnlyFewer(old(journals), journals)
      ensures r.Return? && r.value.Recovered? ==> journals == map[]
      ensures r.Return? ==> Counts(r.value, old(journals), journals)
      ensures old(journals) == map[] ==> files == old(files) && ledger == old(ledger) && r == Return(Recovered(0))
      ensures Calm(old(schedule)) && Coherent(a, old(files), old(ledger), old(journals)) ==>
                Coherent(a, files, ledger, journals)
      ensures Undisturbed(old(schedule)) && !r.Die? && Coherent(a, old(files), old(ledger), old(journals)) &&
                GovernsAll(s, old(journals)) ==>
                r == Return(Recovered(|Unfinished(old(journals))|))
    {
      hide Traced, Script;
      hide Coherent, Calm, CrashOnly, Sound, UndoneBy, JournalsValid, ValidLedger, EntriesOf, BackSince, Governs;
      hide Remaining, OnlyFewer, GovernsAll, Unfinished, Counts;
      var tally := Tally(0, 0);
      var names := journals.Keys;
      ghost var coherent := Calm(schedule) && Coherent(a, files, ledger, journals);
      ghost var smooth := coherent && CrashOnly(schedule) && GovernsAll(s, journals);
      NothingUndone(journals, log);
      NoneHandled(journals, smooth);
      while names != {}
        modifies this`files, this`schedule, this`trace, this`consumed, this`clock, this`log, this`ledger, this`journals
        invariant Onward()
        invariant Keeps(old(schedule), schedule)
        invariant Valid()
        invariant UndoneBy(old(journals), old(log), log)
        invariant Remaining(old(journals), journals, names, tally, smooth)
        invariant coherent ==> Coherent(a, files, ledger, journals)
        invariant old(journals) == map[] ==>
                    names == {} && files == old(files) && ledger == old(ledger) && tally == Tally(0, 0)
        decreases names
      {
        var k :| k in names;
        StillThere(old(journals), journals, names, tally, smooth, s, k);
        assert names == names - {k} + {k};
        names := names - {k};
        ghost var was, logged := journals, log;
        var one := RecoverOne(k, s, a);
        UndoneByOne(old(journals), k, old(log), logged, log);
        RemainingAfter(old(journals), was, names, tally, smooth, k, one, journals);
        if one.IsFailure() { return one.PropagateFailure<Recovery>(); }
        tally := tally.Count(one.value);
      }
      AllHandled(old(journals), journals, tally, smooth);
      return Return(if tally.conflicts > 0 then Conflicts(tally.rolledBack, tally.conflicts)
          else Recovered(tally.rolledBack));
    }

    /**
      recoverMemoryReviewApplier. A recovery that reports no conflict leaves no journal, and in a
      coherent state leaves exactly the committed contents.
     */
    method Recover(s: Authority, ghost a: Abstract) returns (r: Flow<Recovery>)
      requires Valid()
      requires Traced()
      modifies this`files, this`schedule, this`trace, this`consumed, this`clock, this`log, this`ledger, this`journals
      ensures Onward()
      ensures Keeps(old(schedule), schedule)
      ensures Sound(old(schedule)) ==> !r.Die?
      ensures Valid()
      ensures UndoneBy(old(journals), old(log), log)
      ensures Led(old(files), old(schedule), Moves(), files, schedule) && Writes(Moves()) == log[|old(log)|..]
      ensures OnlyFewer(old(journals), journals)
      ensures r.Return? && r.value.Recovered? ==> journals == map[]
      ensures r.Return? ==> if s.Ready() then Counts(r.value, old(journals), journals) else r.value == Conflicts(0, 1)
      ensures old(journals) == map[] ==>
                files == old(files) && ledger == old(ledger) && (s.Ready() ==> r == Return(Recovered(0)))
      ensures Calm(old(schedule)) && Coherent(a, old(files), old(ledger), old(journals)) ==>
                Coherent(a, files, ledger, journals)
      ensures Calm(old(schedule)) && Coherent(a, old(files), old(ledger), old(journals)) ==>
                r.Return? && r.value.Recovered? ==> View() == a
      ensures Undisturbed(old(schedule)) && !r.Die? && Coherent(a, old(files), old(ledger), old(journals)) &&
                s.Ready() && GovernsAll(s, old(journals)) ==>
                r == Return(Recovered(|Unfinished(old(journals))|))
    {
      hide UndoneBy, Coherent, Calm, CrashOnly, Sound, JournalsValid, ValidLedger, OnlyFewer, Unfinished, GovernsAll;
      hide Tells, Led, Writes, Remaining;
      NothingUndone(journals, log);
      NoneHandled(journals, false);
      r := Return(Conflicts(0, 1));
      if s.Ready() { r := RecoverAll(s, a); }
      LedSince(
        origin, old(trace), trace, old(files), files, old(log), log, old(consumed), consumed, old(schedule), schedule);
      UndoneAfter(old(journals), old(log), log);
      Emptied(a, files, ledger, journals);
    }
  }

  lemma CalmArrival(files: Files, s: seq<Tick>)
    ensures Calm(s) ==> Arriving(files, s) == files
  {
    if Calm(s) && s != [] { assert Edited(files, map[]) == files; }
  }

  /** The commit record of j is durable; its journal may still linger. */
  ghost predicate Finished(j: Journal, was: Journals, journals: Journals, r: Flow<()>) {
    && !r.Throw?
    && (journals == was - {j.key} || journals == was[j.key := j.(phase := Committed)])
  }

  /** The way of a rollback through all places of its journal. */
  ghost predicate RollbackWay(j: Journal, passages: seq<Passage>, files: Files, s: seq<Tick>) {
    Passages(j, 0, passages, files, s)
  }

  /** Only the phase of j's journal has moved on, and not to the end. */
  ghost predicate Underway(j: Journal, was: Journals, journals: Journals) {
    && j.key in journals
    && journals[j.key].phase != Committed
    && journals == was[j.key := j.(phase := journals[j.key].phase)]
  }

  lemma ClearedJournal(a: Abstract, k: Key, files: Files, ledger: Option<Ledger>, was: Journals)
    requires k in was && k !in Unfinished(was) && JournalsValid(was)
    ensures Coherent(a, files, ledger, was) ==> Coherent(a, files, ledger, was - {k})
    ensures JournalsValid(was - {k})
  {
    assert Unfinished(was - {k}) == Unfinished(was);
  }

  lemma NothingRestored(j: Journal, files: Files, ledger: Option<Ledger>)
    ensures PartlyRestored(j, files, ledger, files, ledger)
  {
  }

  lemma WholeWay(j: Journal, passages: seq<Passage>, files: Files, s: seq<Tick>)
    requires RollbackWay(j, passages, files, s) && JournalValid(j)
    ensures Passages(j, 0, passages, files, s) && passages != []
  {
  }

  lemma NothingEnds(j: Journal, journals: Journals)
    ensures OthersKept(j.key, journals, journals)
  {
  }

  lemma ClearedKeeps(k: Key, was: Journals, journals: Journals)
    requires JournalsValid(was)
    requires journals == was || (k in was && was[k].phase == Committed && journals == was - {k})
    ensures OthersKept(k, was, journals) && JournalsValid(journals) && Unfinished(journals) == Unfinished(was)
    ensures k !in journals || k !in Unfinished(was) ==> k !in Unfinished(journals)
  {
  }

  lemma PlanKey(q: Request, plan: Plan)
    requires plan.Go? && SoundPlan(q, plan)
    ensures plan.journal.key == q.proposal.key
  {
  }

  lemma KeptTwice(k: Key, was: Journals, between: Journals, journals: Journals)
    requires OthersKept(k, was, between) && OthersKept(k, between, journals)
    ensures OthersKept(k, was, journals)
  {
  }

  /** How the journals end up: as they were, or with j's own among them. */
  lemma TransactionEnds(j: Journal, was: Journals, journals: Journals, committed: bool, undone: bool)
    requires j.key !in was
    requires committed ==>
               || journals == was[j.key := j] - {j.key}
               || journals == was[j.key := j][j.key := j.(phase := Committed)]
    requires !committed ==>
               if undone then journals == was[j.key := j] - {j.key} else Underway(j, was[j.key := j], journals)
    ensures OthersKept(j.key, was, journals)
    ensures !committed && undone ==> journals == was
    ensures committed || undone ==> Unfinished(journals) == Unfinished(was)
    ensures forall k :: k in journals ==>
              (k in was && journals[k] == was[k]) || (k == j.key && journals[k] == j.(phase := journals[k].phase))
  {
    assert was[j.key := j] - {j.key} == was;
    UnfinishedAfter(j, was, journals);
  }

  lemma AtRest(files: Files, ledger: Option<Ledger>, journals: Journals)
    ensures Unfinished(journals) == {} ==> Coherent(Abstract(ContentsOf(files), ledger), files, ledger, journals)
  {
  }

  /** No other journal has changed, and none is new. */
  ghost predicate OthersKept(k: Key, was: Journals, journals: Journals) {
    && (forall l :: l in was && l != k ==> l in journals && journals[l] == was[l])
    && (forall l :: l in journals && l != k ==> l in was)
  }

  lemma ReadyIsCoherent(a: Abstract, j: Journal, files: Files, ledger: Option<Ledger>, journals: Journals)
    requires ReadyToWrite(a, j, files, ledger) && Unfinished(journals) == {}
    ensures Coherent(a, files, ledger, journals)
  {
  }

  /** Where a transaction ends: carried out, undone, or with its own journal alone to tell what is torn. */
  lemma Concluded(
    a: Abstract, q: Request, plan: Plan, was: Journals, files: Files, ledger: Option<Ledger>, journals: Journals,
    committed: bool, undone: bool)
    requires plan.Go? && SoundPlan(q, plan) && Carries(a, q.proposal, q.now, plan.journal, plan.next)
    requires plan.journal.key !in was && Torn(a, plan.journal, files, ledger)
    requires committed ==> HoldsAfter(a, plan.journal, plan.next, files, ledger)
    requires !committed && undone ==>
               journals == was && Unfinished(was) == {} && ContentsOf(files) == a.contents && ledger == a.ledger
    requires !committed && !undone ==>
               Unfinished(was) == {} && Underway(plan.journal, was[plan.journal.key := plan.journal], journals)
    ensures if committed then Execute(a, Commit(q.proposal, q.now)) == Some(Abstract(ContentsOf(files), ledger))
            else Coherent(a, files, ledger, journals)
  {
    hide Torn, Carries, HoldsAfter, Execute;
    var j := plan.journal;
    if committed {
      CarriedOut(a, q.proposal, q.now, j, plan.next, files, ledger);
    } else if !undone {
      UnfinishedAfter(j, was, journals);
      SamePlaces(a, j, journals[j.key], files, ledger);
      assert Unfinished(journals) == {j.key};
    }
  }

  /** Every leaf written since was is a write this transaction may make. */
  ghost predicate OwnSince(j: Journal, was: seq<LeafWrite>, log: seq<LeafWrite>) {
    |was| <= |log| && log[..|was|] == was && OwnWrites(j.files, log[|was|..])
  }

  /** Every leaf written since was is one that a rollback of j puts back. */
  ghost predicate BackSince(j: Journal, was: seq<LeafWrite>, log: seq<LeafWrite>) {
    was <= log && BackWrites(j.files, log[|was|..])
  }

  lemma NothingBack(j: Journal, log: seq<LeafWrite>)
    ensures BackSince(j, log, log)
  {
    assert log[|log|..] == [];
  }

  lemma BackExtends(j: Journal, i: nat, was: seq<LeafWrite>, log: seq<LeafWrite>, log': seq<LeafWrite>)
    requires i < |j.files| && BackSince(j, was, log)
    requires log' == log || exists w :: log' == log + [w] && BackWrite(j.files[i], w)
    ensures BackSince(j, was, log')
  {
    if log' != log {
      assert log'[|was|..] == log[|was|..] + [log'[|log|]];
    }
  }

  lemma BackIsOwn(j: Journal, was: seq<LeafWrite>, log: seq<LeafWrite>)
    requires BackSince(j, was, log)
    ensures OwnSince(j, was, log)
  {
    forall w | w in log[|was|..] ensures Owned(j.files, w) {
      var i :| 0 <= i < |j.files| && BackWrite(j.files[i], w);
      assert OwnWrite(j.files[i], w);
    }
  }

  lemma ReadableParts(files: Files, p: Proposal)
    requires Readable(files, p)
    ensures IsMemoryName(TopicPath(p.topic)) &&
              (TopicPath(p.topic) in files ==> |files[TopicPath(p.topic)].bytes| <= MAX_MEMORY_FILE_BYTES)
    ensures p.decision == Create && INDEX in files ==> |files[INDEX].bytes| <= MAX_MEMORY_FILE_BYTES
  {
  }

  /** What Inspect computes from its three reads. */
  lemma SeenAlready(files: Files, ledger: Option<Ledger>, p: Proposal, indexed: bool, already: bool)
    requires indexed <==> Indexed(files, p)
    requires
      var topicBefore := LeafAt(files, TopicPath(p.topic));
      var owned := Owner(EntriesOf(ledger), TopicPath(p.topic));
      already <==>
        && owned.Some? && owned.value.proposalKey == p.key && topicBefore.Some?
        && Sha256(topicBefore.value.bytes) == owned.value.sha256 && indexed
    ensures already <==> AlreadyThere(Abstract(ContentsOf(files), ledger), p)
  {
  }

  /** What already being in effect demands of the index. */
  predicate Indexed(files: Files, p: Proposal) {
    p.decision == Create ==> INDEX in files && Occurrences(files[INDEX].bytes, IndexLine(p.topic)) == 1
  }

  /** Whatever number of files a journal has written, it is a part of them. */
  lemma WrittenSoFar(a: Abstract, j: Journal, files: Files)
    ensures WrittenUpTo(a, j, 0, files) ==> PartWritten(a, j, files)
    ensures |j.files| >= 1 && WrittenUpTo(a, j, 1, files) ==> PartWritten(a, j, files)
    ensures |j.files| >= 2 && WrittenUpTo(a, j, 2, files) ==> PartWritten(a, j, files)
  {
    hide WrittenUpTo;
  }

  lemma NothingWritten(files: seq<JournalFile>, log: seq<LeafWrite>)
    ensures OwnWrites(files, log[|log|..])
  {
    assert log[|log|..] == [];
  }

  lemma NothingSince(j: Journal, log: seq<LeafWrite>)
    ensures OwnSince(j, log, log)
  {
    assert log[|log|..] == [];
  }

  lemma LogExtends(j: Journal, i: nat, was: seq<LeafWrite>, log: seq<LeafWrite>, log': seq<LeafWrite>)
    requires i < |j.files| && OwnSince(j, was, log)
    requires log' == log || exists w :: log' == log + [w] && OwnWrite(j.files[i], w)
    ensures OwnSince(j, was, log')
  {
    if log' != log {
      assert log'[|was|..] == log[|was|..] + [log'[|log|]];
    }
  }

  lemma OwnSinceTransitive(j: Journal, was: seq<LeafWrite>, middle: seq<LeafWrite>, log: seq<LeafWrite>)
    requires OwnSince(j, was, middle) && OwnSince(j, middle, log)
    ensures OwnSince(j, was, log)
  {
    assert log[|was|..] == middle[|was|..] + log[|middle|..];
    assert log[..|was|] == log[..|middle|][..|was|];
  }

  /** Who asks for a recovery, and which proposal claims other processes hold. */
  datatype Authority = Authority(
    valid: bool, release: string, directory: string, directoryHash: Digest<string>, busy: bool, busyKeys: set<Key>) {
    predicate Ready() { valid && !busy && Sha256(directory) == directoryHash }
  }

  datatype One = Cleared | Undone | Conflict

  /** The journal is this authority's to recover. */
  predicate Governs(s: Authority, j: Journal) {
    j.release == s.release && j.directory == s.directory && j.directoryHash == s.directoryHash && j.key !in s.busyKeys
  }

  datatype Tally = Tally(rolledBack: nat, conflicts: nat) {
    function Count(one: One): Tally {
      match one
      case Cleared => this
      case Undone => Tally(rolledBack + 1, conflicts)
      case Conflict => Tally(rolledBack, conflicts + 1)
    }
  }

  /** Journals only disappear; those handled that are still there are the conflicts, and the undone are counted. */
  ghost predicate Remaining(was: Journals, journals: Journals, names: set<Key>, tally: Tally, smooth: bool) {
    && OnlyFewer(was, journals)
    && names <= journals.Keys
    && tally.conflicts == |journals.Keys - names|
    && tally.rolledBack + |Unfinished(journals)| == |Unfinished(was)|
    && (smooth ==> tally.conflicts == 0)
  }

  /** The counts of a recovery: the transactions it has undone, and the journals it had to leave. */
  ghost predicate Counts(r: Recovery, was: Journals, journals: Journals) {
    match r
    case Recovered(rolledBack) => journals == map[] && rolledBack == |Unfinished(was)|
    case Conflicts(rolledBack, conflicts) =>
      conflicts == |journals| > 0 && rolledBack + |Unfinished(journals)| == |Unfinished(was)|
  }

  ghost predicate OnlyFewer(was: Journals, journals: Journals) {
    journals.Keys <= was.Keys && forall k :: k in journals ==> journals[k] == was[k]
  }

  lemma NoneHandled(journals: Journals, smooth: bool)
    ensures Remaining(journals, journals, journals.Keys, Tally(0, 0), smooth) && OnlyFewer(journals, journals)
  {
  }

  lemma StillThere(was: Journals, journals: Journals, names: set<Key>, tally: Tally, smooth: bool, s: Authority, k: Key)
    requires k in names && Remaining(was, journals, names, tally, smooth)
    ensures k in journals && k in was && journals[k] == was[k]
    ensures GovernsAll(s, was) ==> Governs(s, journals[k])
  {
  }

  lemma AllHandled(was: Journals, journals: Journals, tally: Tally, smooth: bool)
    requires Remaining(was, journals, {}, tally, smooth)
    ensures OnlyFewer(was, journals)
    ensures tally.conflicts == 0 ==> journals == map[]
    ensures Counts(
              if tally.conflicts > 0 then Conflicts(tally.rolledBack, tally.conflicts) else Recovered(tally.rolledBack),
              was, journals)
    ensures smooth ==> tally == Tally(|Unfinished(was)|, 0)
  {
    assert journals.Keys - {} == journals.Keys;
    if tally.conflicts == 0 { assert journals.Keys == {} && Unfinished(journals) == {}; }
    assert |journals| == |journals.Keys|;
  }

  lemma WithoutOne(s: set<Key>, k: Key)
    ensures |s| == |s - {k}| + if k in s then 1 else 0
  {
    if k in s { assert s == s - {k} + {k}; } else { assert s == s - {k}; }
  }

  lemma UnfinishedWithout(journals: Journals, k: Key)
    ensures Unfinished(journals - {k}) == Unfinished(journals) - {k}
  {
  }

  lemma OneFewer(journals: Journals, names: set<Key>, k: Key)
    requires k in journals && k !in names
    ensures |Unfinished(journals)| == |Unfinished(journals - {k})| + if k in Unfinished(journals) then 1 else 0
    ensures |(journals - {k}).Keys - names| == |journals.Keys - (names + {k})|
    ensures |journals.Keys - names| == |journals.Keys - (names + {k})| + 1
  {
    hide Unfinished;
    WithoutOne(Unfinished(journals), k);
    UnfinishedWithout(journals, k);
    WithoutOne(journals.Keys - names, k);
    assert journals.Keys - names - {k} == journals.Keys - (names + {k});
    assert (journals - {k}).Keys == journals.Keys - {k};
    assert journals.Keys - {k} - names == journals.Keys - (names + {k});
  }

  lemma FewerStill(was: Journals, journals: Journals, k: Key)
    requires OnlyFewer(was, journals)
    ensures OnlyFewer(was, journals - {k})
  {
  }

  lemma RemainingWithout(
    was: Journals, journals: Journals, names: set<Key>, tally: Tally, smooth: bool, k: Key, undone: nat)
    requires k in journals && k !in names && Remaining(was, journals, names + {k}, tally, smooth)
    requires undone == if k in Unfinished(journals) then 1 else 0
    ensures Remaining(was, journals - {k}, names, tally.(rolledBack := tally.rolledBack + undone), smooth)
  {
    hide Unfinished, OnlyFewer;
    OneFewer(journals, names, k);
    FewerStill(was, journals, k);
    assert (journals - {k}).Keys == journals.Keys - {k};
  }

  lemma RemainingWith(was: Journals, journals: Journals, names: set<Key>, tally: Tally, k: Key)
    requires k in journals && k !in names && Remaining(was, journals, names + {k}, tally, false)
    ensures Remaining(was, journals, names, tally.(conflicts := tally.conflicts + 1), false)
  {
    hide Unfinished, OnlyFewer;
    OneFewer(journals, names, k);
  }

  lemma SmoothOrNot(was: Journals, journals: Journals, names: set<Key>, tally: Tally, smooth: bool)
    requires Remaining(was, journals, names, tally, smooth)
    ensures OnlyFewer(was, journals) && Remaining(was, journals, names, tally, false)
  {
    hide Unfinished, OnlyFewer;
  }

  lemma RemainingAfter(
    was: Journals, journals: Journals, names: set<Key>, tally: Tally, smooth: bool, k: Key, one: Flow<One>,
    journals': Journals)
    requires k in journals && k !in names && Remaining(was, journals, names + {k}, tally, smooth)
    requires journals' == if one in {Return(Cleared), Return(Undone)} then journals - {k} else journals
    requires smooth && !one.Die? ==> one == Return(if k in Unfinished(journals) then Undone else Cleared)
    requires (one == Return(Undone) ==> k in Unfinished(journals)) &&
               (one == Return(Cleared) ==> k !in Unfinished(journals))
    ensures OnlyFewer(was, journals')
    ensures one.Return? ==> Remaining(was, journals', names, tally.Count(one.value), smooth)
  {
    hide Remaining, OnlyFewer, Unfinished;
    SmoothOrNot(was, journals, names + {k}, tally, smooth);
    FewerStill(was, journals, k);
    if one == Return(Undone) { RemainingWithout(was, journals, names, tally, smooth, k, 1); }
    if one == Return(Cleared) { RemainingWithout(was, journals, names, tally, smooth, k, 0); }
    if one == Return(Conflict) { RemainingWith(was, journals, names, tally, k); }
  }

  ghost predicate GovernsAll(s: Authority, journals: Journals) {
    forall k :: k in journals ==> Governs(s, journals[k])
  }

  /** Every leaf written since was is put back for one of these journals. */
  ghost predicate UndoneBy(journals: Journals, was: seq<LeafWrite>, log: seq<LeafWrite>) {
    && was <= log
    && forall w :: w in log[|was|..] ==> exists k :: k in journals && Backward(journals[k].files, w)
  }

  lemma NothingUndone(journals: Journals, log: seq<LeafWrite>)
    ensures UndoneBy(journals, log, log)
  {
  }

  lemma Emptied(a: Abstract, files: Files, ledger: Option<Ledger>, journals: Journals)
    ensures Coherent(a, files, ledger, journals) && journals == map[] ==> Abstract(ContentsOf(files), ledger) == a
  {
    assert journals == map[] ==> Unfinished(journals) == {};
  }

  lemma UndoneAfter(journals: Journals, was: seq<LeafWrite>, log: seq<LeafWrite>)
    requires UndoneBy(journals, was, log)
    ensures was <= log
  {
  }

  lemma UndoneByOne(journals: Journals, k: Key, was: seq<LeafWrite>, middle: seq<LeafWrite>, log: seq<LeafWrite>)
    requires UndoneBy(journals, was, middle) && k in journals && BackSince(journals[k], middle, log)
    ensures UndoneBy(journals, was, log)
  {
    assert log[|was|..] == middle[|was|..] + log[|middle|..];
  }
}
