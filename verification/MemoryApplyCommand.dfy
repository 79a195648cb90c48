/**
  The Stop-hook command that drives the applier: recover first, then apply the session's reviewed
  proposals until one lands. Whole runs of the command, each cut short anywhere, are compared with
  applying the committed proposals one after the other.
 */
module MemoryApplyCommand {
  import opened Wrappers
  import opened ManagedLedger
  import opened ApplyJournal
  import opened LeafMoves
  import opened IndexText
  import opened MemoryApplier

  /** A stored proposal; eligible: same session and release, not a no-op, receipt reviewed. */
  datatype Record = Record(eligible: bool, authorized: bool, busy: bool, proposal: Proposal)

  /** proceed: the checks of the payload, flags, settings and observer ledger have passed. */
  datatype Command = Command(proceed: bool, authority: Authority, records: seq<Record>, now: nat)

  /** One activation of the command under one schedule. */
  datatype Activation = Activation(command: Command, schedule: seq<Tick>)

  predicate Owns(l: Option<Ledger>, k: Key) { exists e :: e in EntriesOf(l) && e.proposalKey == k }

  /** The durable state is the replay of the committed proposals, up to one unfinished transaction. */
  ghost predicate InStep(h: Host, initial: Abstract)
    reads h
  {
    var done := Replay(initial, h.commits);
    done.Some? && Coherent(done.value, h.files, h.ledger, h.journals)
  }

  method Observe(h: Host) returns (r: Flow<Digest<Files>>)
    requires h.Traced()
    modifies h`files, h`schedule, h`trace, h`consumed
    ensures h.Onward()
    ensures Keeps(old(h.schedule), h.schedule) && (Calm(old(h.schedule)) ==> h.files == old(h.files))
    ensures Sound(old(h.schedule)) ==> !r.Die?
    ensures CrashOnly(old(h.schedule)) ==> !r.Throw?
    ensures r.Return? ==> r.value == Sha256(h.files)
  {
    var f := h.Pause();
    if f == Crash { return Die; }
    if f != Fine { return Throw; }
    return Return(Sha256(h.files));
  }

  /** What one call of apply leaves of the agreement with the replayed proposals. */
  lemma ApplyInStep(
    initial: Abstract, was: seq<Commit>, c: Commit, commits: seq<Commit>, a: Abstract, files: Files,
    ledger: Option<Ledger>, journals: Journals)
    requires Replay(initial, was) == Some(a)
    requires commits == was || commits == was + [c]
    requires commits == was ==> Coherent(a, files, ledger, journals)
    requires commits != was ==> Unfinished(journals) == {} && Execute(a, c) == Some(Abstract(ContentsOf(files), ledger))
    ensures Replay(initial, commits).Some? && Coherent(Replay(initial, commits).value, files, ledger, journals)
  {
    ReplayStep(initial, was, c);
  }

  /** With no unfinished journal, a coherent state holds exactly the replayed contents. */
  lemma SettledView(a: Abstract, files: Files, ledger: Option<Ledger>, journals: Journals)
    requires Coherent(a, files, ledger, journals) && Unfinished(journals) == {}
    ensures a == Abstract(ContentsOf(files), ledger)
  {
    forall k
      ensures Unfinished(journals) != {k}
    {
      assert k in {k};
    }
  }

  /** The loop tries this record. */
  predicate Tried(ledger: Option<Ledger>, record: Record) {
    record.eligible && !Owns(ledger, record.proposal.key)
  }

  /** Applying this record to these files and this ledger must succeed: it was made for them, and nothing bars it. */
  ghost predicate Due(files: Files, ledger: Option<Ledger>, record: Record) {
    && Tried(ledger, record) && record.authorized && !record.busy && record.proposal.watermark == Sha256(files)
    && IsTopic(record.proposal.topic) && Hyphens(record.proposal.topic) <= 1 && Open(files, ledger, record.proposal)
  }

  /** Whatever of the records is applied fits. */
  ghost predicate RoomForAll(contents: Contents, records: seq<Record>) {
    forall n :: 0 <= n < |records| ==> Room(contents, records[n].proposal)
  }

  /** None of the first n records is due. */
  ghost predicate NoneDue(files: Files, ledger: Option<Ledger>, records: seq<Record>, n: nat)
    requires n <= |records|
  {
    forall m :: 0 <= m < n ==> !Due(files, ledger, records[m])
  }

  /** The first record that is due, if one is, has been applied and no other. */
  ghost predicate FirstDue(
    files: Files, ledger: Option<Ledger>, c: Command, r: Flow<bool>, was: seq<Commit>, commits: seq<Commit>) {
    && r.Return?
    && if r.value then
         exists n :: 0 <= n < |c.records| && NoneDue(files, ledger, c.records, n) && Due(files, ledger, c.records[n]) &&
             commits == was + [Commit(c.records[n].proposal, c.now)]
       else commits == was && NoneDue(files, ledger, c.records, |c.records|)
  }

  lemma FirstIsDue(files: Files, ledger: Option<Ledger>, c: Command, n: nat, was: seq<Commit>)
    requires n < |c.records| && NoneDue(files, ledger, c.records, n) && Due(files, ledger, c.records[n])
    ensures FirstDue(files, ledger, c, Return(true), was, was + [Commit(c.records[n].proposal, c.now)])
  {
    hide Due, NoneDue;
  }

  lemma NoneIsDue(files: Files, ledger: Option<Ledger>, c: Command, was: seq<Commit>)
    requires NoneDue(files, ledger, c.records, |c.records|)
    ensures FirstDue(files, ledger, c, Return(false), was, was)
  {
    hide Due, NoneDue;
  }

  lemma OneMoreNotDue(files: Files, ledger: Option<Ledger>, records: seq<Record>, n: nat)
    requires n < |records| && NoneDue(files, ledger, records, n)
    requires !Due(files, ledger, records[n])
    ensures NoneDue(files, ledger, records, n + 1)
  {
    hide Open, IsTopic;
  }

  /** One record of the loop: observe, then apply. A journal left unfinished earlier makes it overlap. */
  method ApplyRecord(h: Host, c: Command, n: nat, ghost initial: Abstract) returns (r: Flow<Outcome>)
    requires h.Valid() && h.Traced() && n < |c.records|
    modifies h
    ensures h.Onward()
    ensures Keeps(old(h.schedule), h.schedule)
    ensures Sound(old(h.schedule)) ==> !r.Die?
    ensures h.Valid()
    ensures h.starts == old(h.starts) || h.starts == old(h.starts) + [Unfinished(old(h.journals))]
    ensures h.commits != old(h.commits) ==>
              h.commits == old(h.commits) + [Commit(c.records[n].proposal, c.now)] && (r == Return(Applied) || r == Die)
    ensures r == Return(Applied) ==> h.commits != old(h.commits)
    ensures Calm(old(h.schedule)) && Unfinished(old(h.journals)) == {} && old(InStep(h, initial)) ==> InStep(h, initial)
    ensures h.starts == old(h.starts) ==>
              h.commits == old(h.commits) && h.journals == old(h.journals) && h.ledger == old(h.ledger)
    ensures Calm(old(h.schedule)) && h.starts == old(h.starts) ==> h.files == old(h.files)
    ensures h.Undisturbed(old(h.schedule)) && !r.Die? ==> Unfinished(h.journals) == Unfinished(old(h.journals))
    ensures CrashOnly(old(h.schedule)) ==> !r.Throw?
    ensures h.Undisturbed(old(h.schedule)) && !r.Die? && Unfinished(old(h.journals)) == {} &&
            Room(old(h.View()).contents, c.records[n].proposal) && Tried(old(h.ledger), c.records[n]) ==>
              && r.Return? && (r.value == Applied <==> Due(old(h.files), old(h.ledger), c.records[n]))
              && (r.value != Applied ==> h.files == old(h.files) && h.ledger == old(h.ledger))
  {
    hide Room, Open, IsTopic, Owns, Took;
    hide Calm, CrashOnly, Sound, Coherent, Execute, Accepts, JournalsValid, ValidLedger, AlreadyThere, Readable;
    hide ResultFits, Applicable, Led, OwnWrites, OthersKept;
    var observation := Observe(h);
    if observation.IsFailure() { return observation.PropagateFailure<Outcome>(); }
    var record := c.records[n];
    var q := Request(true, record.authorized, record.busy, c.authority.release, c.authority.directory, record.proposal,
        observation.value, c.now);
    var outcome, mine := h.Apply(q);
    if Calm(old(h.schedule)) && Unfinished(old(h.journals)) == {} && old(InStep(h, initial)) {
      SettledView(Replay(initial, old(h.commits)).value, old(h.files), old(h.ledger), old(h.journals));
      ApplyInStep(initial, old(h.commits), Commit(record.proposal, c.now), h.commits, old(h.View()), h.files, h.ledger,
          h.journals);
    }
    r := if outcome.Some? then Return(outcome.value) else Die;
  }

  /** An apply that started since then found a transaction pending: it overlapped. */
  ghost predicate Overlaps(starts: seq<set<Key>>, since: nat) { exists i :: since <= i < |starts| && starts[i] != {} }

  lemma NoStarts(starts: seq<set<Key>>)
    ensures !Overlaps(starts, |starts|)
  {
  }

  lemma OneStart(starts: seq<set<Key>>, since: nat, pending: set<Key>)
    requires since <= |starts|
    ensures Overlaps(starts + [pending], since) <==> Overlaps(starts, since) || pending != {}
  {
    var more := starts + [pending];
    if Overlaps(starts, since) {
      var i :| since <= i < |starts| && starts[i] != {};
      assert more[i] != {};
    }
    if pending != {} { assert more[|starts|] != {}; }
  }

  lemma LaterStarts(starts: seq<set<Key>>, since: nat, middle: nat)
    requires since <= middle <= |starts|
    ensures Overlaps(starts, since) <==> Overlaps(starts[..middle], since) || Overlaps(starts, middle)
  {
    var early := starts[..middle];
    if Overlaps(starts, since) {
      var i :| since <= i < |starts| && starts[i] != {};
      if i < middle { assert early[i] != {}; }
    }
    if Overlaps(early, since) {
      var i :| since <= i < |early| && early[i] != {};
      assert starts[i] != {};
    }
  }

  /** One turn of the loop: the record is tried, or passed over. True if it was applied. */
  method TryRecord(h: Host, c: Command, n: nat, ghost initial: Abstract) returns (r: Flow<bool>)
    requires h.Valid() && h.Traced() && n < |c.records|
    modifies h
    ensures h.Onward()
    ensures Keeps(old(h.schedule), h.schedule)
    ensures h.Valid()
    ensures h.starts == old(h.starts) || h.starts == old(h.starts) + [Unfinished(old(h.journals))]
    ensures h.starts == old(h.starts) ==> h.journals == old(h.journals)
    ensures h.commits != old(h.commits) ==>
              h.commits == old(h.commits) + [Commit(c.records[n].proposal, c.now)] && (r == Return(true) || r == Die)
    ensures r == Return(true) ==> h.commits != old(h.commits)
    ensures Calm(old(h.schedule)) && Unfinished(old(h.journals)) == {} && old(InStep(h, initial)) ==> InStep(h, initial)
    ensures Calm(old(h.schedule)) && h.starts == old(h.starts) && old(InStep(h, initial)) ==> InStep(h, initial)
    ensures h.Undisturbed(old(h.schedule)) && !r.Die? ==>
              r.Return? && Unfinished(h.journals) == Unfinished(old(h.journals))
    ensures h.Undisturbed(old(h.schedule)) && !r.Die? && Unfinished(old(h.journals)) == {} &&
            Room(old(h.View()).contents, c.records[n].proposal) ==>
              && (r == Return(true) <==> Due(old(h.files), old(h.ledger), c.records[n]))
              && (r != Return(true) ==> h.files == old(h.files) && h.ledger == old(h.ledger))
  {
    hide Calm, CrashOnly, Sound, Coherent, JournalsValid, ValidLedger, Execute, Room, Owns, Tells;
    if !c.records[n].eligible { return Return(false); }
    var ledger := h.ReadLedger();
    if ledger.IsFailure() { return ledger.PropagateFailure<bool>(); }
    if Owns(ledger.value, c.records[n].proposal.key) { return Return(false); }
    var outcome := ApplyRecord(h, c, n, initial);
    if outcome.IsFailure() { return outcome.PropagateFailure<bool>(); }
    return Return(outcome.value == Applied);
  }

  /** The loop over the records, after a recovery that left no journal. */
  method ApplyRecords(h: Host, c: Command, ghost initial: Abstract) returns (r: Flow<bool>)
    requires h.Valid() && h.Traced() && h.journals == map[]
    modifies h
    ensures h.Onward()
    ensures Keeps(old(h.schedule), h.schedule)
    ensures h.Valid()
    ensures old(h.starts) <= h.starts && |h.starts| <= |old(h.starts)| + |c.records|
    ensures |h.starts| > |old(h.starts)| ==> h.starts[|old(h.starts)|] == {}
    ensures old(h.commits) <= h.commits && |h.commits| <= |old(h.commits)| + 1
    ensures r == Return(true) ==> h.commits != old(h.commits)
    ensures Calm(old(h.schedule)) && old(InStep(h, initial)) && !Overlaps(h.starts, |old(h.starts)|) ==>
              InStep(h, initial)
    ensures h.Undisturbed(old(h.schedule)) ==> !Overlaps(h.starts, |old(h.starts)|)
    ensures h.Undisturbed(old(h.schedule)) && !r.Die? && RoomForAll(old(h.View()).contents, c.records) ==>
              && FirstDue(old(h.files), old(h.ledger), c, r, old(h.commits), h.commits)
              && (h.commits == old(h.commits) ==> h.files == old(h.files) && h.ledger == old(h.ledger))
  {
    hide Calm, CrashOnly, Sound, Coherent, JournalsValid, ValidLedger, Overlaps, Unfinished, Execute, Tells, Replay;
    hide RoomForAll, Room, Due, NoneDue, FirstDue;
    ghost var since := |h.starts|;
    ghost var roomy := h.Undisturbed(h.schedule) && RoomForAll(h.View().contents, c.records);
    NoStarts(h.starts);
    NothingPending();
    NoneDueYet(h.files, h.ledger, c.records);
    for n := 0 to |c.records|
      invariant h.Onward()
      invariant Keeps(old(h.schedule), h.schedule)
      invariant h.Valid()
      invariant h.commits == old(h.commits)
      invariant old(h.starts) <= h.starts && |h.starts| <= since + n
      invariant |h.starts| > since ==> h.starts[since] == {}
      invariant |h.starts| == since ==> h.journals == map[]
      invariant Calm(old(h.schedule)) && old(InStep(h, initial)) && !Overlaps(h.starts, since) ==> InStep(h, initial)
      invariant h.Undisturbed(old(h.schedule)) ==> !Overlaps(h.starts, since) && Unfinished(h.journals) == {}
      invariant roomy ==>
                  h.files == old(h.files) && h.ledger == old(h.ledger) && NoneDue(h.files, h.ledger, c.records, n)
    {
      if roomy { RoomForOne(old(h.View()).contents, c.records, n); }
      OneStart(h.starts, since, Unfinished(h.journals));
      r := TryRecord(h, c, n, initial);
      if r.IsFailure() { return; }
      if r.value {
        if roomy { FirstIsDue(old(h.files), old(h.ledger), c, n, old(h.commits)); }
        return;
      }
      if roomy { OneMoreNotDue(old(h.files), old(h.ledger), c.records, n); }
    }
    if roomy { NoneIsDue(h.files, h.ledger, c, h.commits); }
    return Return(false);
  }

  lemma NoneDueYet(files: Files, ledger: Option<Ledger>, records: seq<Record>)
    ensures NoneDue(files, ledger, records, 0)
  {
  }

  lemma RoomForOne(contents: Contents, records: seq<Record>, n: nat)
    requires RoomForAll(contents, records) && n < |records|
    ensures Room(contents, records[n].proposal)
  {
  }

  lemma NothingPending()
    ensures Unfinished(map[]) == {}
  {
  }

  /**
    handleMemoryApplyCommand: true when a proposal was applied. At most one proposal commits per
    activation. An apply overlaps if it starts over a journal that an earlier apply of this very
    activation had left unfinished, which takes a failed call and not just a crash.
   */
  method HandleCommand(h: Host, c: Command, ghost initial: Abstract) returns (r: Flow<bool>)
    requires h.Valid() && h.Traced()
    modifies h
    ensures h.Onward()
    ensures Keeps(old(h.schedule), h.schedule)
    ensures h.Valid()
    ensures old(h.starts) <= h.starts && |h.starts| <= |old(h.starts)| + |c.records|
    ensures |h.starts| > |old(h.starts)| ==> h.starts[|old(h.starts)|] == {}
    ensures old(h.commits) <= h.commits && |h.commits| <= |old(h.commits)| + 1
    ensures r == Return(true) ==> h.commits != old(h.commits)
    ensures Calm(old(h.schedule)) && old(InStep(h, initial)) && !Overlaps(h.starts, |old(h.starts)|) ==>
              InStep(h, initial)
    ensures h.Undisturbed(old(h.schedule)) ==> !Overlaps(h.starts, |old(h.starts)|)
    ensures h.Undisturbed(old(h.schedule)) && !r.Die? && c.proceed && c.authority.Ready() &&
            old(h.journals) == map[] && RoomForAll(old(h.View()).contents, c.records) ==>
              FirstDue(old(h.files), old(h.ledger), c, r, old(h.commits), h.commits)
    ensures h.Undisturbed(old(h.schedule)) && !r.Die? && c.proceed && c.authority.Ready() &&
            old(InStep(h, initial)) && GovernsAll(c.authority, old(h.journals)) &&
            RoomForAll(Replay(initial, old(h.commits)).value.contents, c.records) ==>
              && r.Return? && (r.value <==> h.commits != old(h.commits))
              && (!r.value ==> NoneDue(h.files, h.ledger, c.records, |c.records|))
  {
    hide Calm, CrashOnly, Sound, Coherent, JournalsValid, ValidLedger, Overlaps, Unfinished, Execute, Tells, Led;
    hide Due, RoomForAll, GovernsAll;
    NoStarts(h.starts);
    if !c.proceed { return Return(false); }
    var observed := Observe(h);
    if observed.IsFailure() { return observed.PropagateFailure<bool>(); }
    ghost var done := Replay(initial, h.commits);
    var recovery := h.Recover(c.authority, if done.Some? then done.value else initial);
    if recovery.IsFailure() { return recovery.PropagateFailure<bool>(); }
    if recovery.value.Conflicts? { return Return(false); }
    r := ApplyRecords(h, c, initial);
  }

  /**
    Crash-safe refinement. However often the command is activated and wherever each activation
    dies, if nobody else writes memory and no call fails, the state stays one rollback away from
    the sequential replay of exactly the proposals whose commit record was written; if a call may
    fail too, the same holds as long as no apply overlaps an unfinished journal.
   */
  method Run(h: Host, activations: seq<Activation>)
    requires h.Valid() && h.Traced() && h.journals == map[] && h.commits == []
    modifies h
    ensures h.Valid() && h.Traced()
    ensures old(h.starts) <= h.starts
    ensures (forall i :: 0 <= i < |activations| ==> Calm(activations[i].schedule)) &&
            !Overlaps(h.starts, |old(h.starts)|) ==>
              InStep(h, old(h.View()))
    ensures (forall i :: 0 <= i < |activations| ==> h.Undisturbed(activations[i].schedule)) ==>
              !Overlaps(h.starts, |old(h.starts)|) && InStep(h, old(h.View()))
    ensures |h.commits| <= |activations|
  {
    hide Calm, CrashOnly, Sound, Coherent, JournalsValid, ValidLedger, Overlaps;
    ghost var initial, since := h.View(), |h.starts|;
    NoStarts(h.starts);
    InStepAtStart(h);
    var n := 0;
    while n < |activations|
      invariant 0 <= n <= |activations|
      invariant h.Valid() && h.Traced() && old(h.starts) <= h.starts
      invariant |h.commits| <= n
      invariant (forall i :: 0 <= i < n ==> Calm(activations[i].schedule)) && !Overlaps(h.starts, since) ==>
                  InStep(h, initial)
      invariant (forall i :: 0 <= i < n ==> h.Undisturbed(activations[i].schedule)) ==>
                  !Overlaps(h.starts, since) && InStep(h, initial)
    {
      ghost var middle := h.starts;
      h.schedule := activations[n].schedule;
      var _ := HandleCommand(h, activations[n].command, initial);
      assert h.starts[..|middle|] == middle;
      LaterStarts(h.starts, since, |middle|);
      n := n + 1;
    }
  }

  lemma InStepAtStart(h: Host)
    requires h.journals == map[] && h.commits == []
    ensures InStep(h, h.View())
  {
    assert Unfinished(h.journals) == {};
  }

  /**
    After any such run, a recovery that reports no conflict leaves no journal, and the memory contents
    and the ledger equal to that replay.
   */
  method RunThenRecover(h: Host, activations: seq<Activation>, s: Authority, schedule: seq<Tick>)
    returns (r: Flow<Recovery>)
    requires h.Valid() && h.Traced() && h.journals == map[] && h.commits == []
    modifies h
    ensures r.Return? && r.value.Recovered? ==> h.journals == map[]
    ensures (forall i :: 0 <= i < |activations| ==> Calm(activations[i].schedule)) && Calm(schedule) &&
            !Overlaps(h.starts, |old(h.starts)|) && r.Return? && r.value.Recovered? ==>
              Replay(old(h.View()), h.commits) == Some(h.View())
    ensures (forall i :: 0 <= i < |activations| ==> h.Undisturbed(activations[i].schedule)) ==>
              !Overlaps(h.starts, |old(h.starts)|)
  {
    hide Calm, CrashOnly, Coherent, JournalsValid, ValidLedger, Overlaps, Led;
    Run(h, activations);
    h.schedule := schedule;
    ghost var done := Replay(old(h.View()), h.commits);
    r := h.Recover(s, if done.Some? then done.value else old(h.View()));
  }

  // ----- an overlap -----

  /** A create of topic t that has written the topic and then could neither go on nor be rolled back. */
  function Stuck(t: string): Journal {
    Journal(
      "1", "release", "memory", Sha256("memory"), Prepared,
      [JournalFile(TopicPath(t), None, "text\n"), JournalFile(INDEX, Some(Leaf("", 0)), IndexAfter("", t))],
      None, Sha256(LedgerAfter(None, TopicPath(t), Sha256("text\n"), "1", 0)))
  }

  /** What it has left behind in an empty memory. */
  function LeftBehind(t: string): Files { map[INDEX := Leaf("", 0), TopicPath(t) := Leaf("text\n", 1)] }

  const EmptyMemory: Abstract := Abstract(map[INDEX := ""], None)

  lemma StuckIsCoherent(t: string)
    requires IsTopic(t) && Hyphens(t) <= 1
    ensures JournalsValid(map["1" := Stuck(t)])
    ensures Unfinished(map["1" := Stuck(t)]) == {"1"}
    ensures Coherent(EmptyMemory, LeftBehind(t), None, map["1" := Stuck(t)])
  {
    TopicNamesLeaf(t);
    var j := Stuck(t);
    var journals := map["1" := j];
    assert Unfinished(journals) == {"1"};
    assert j.files[0].path == TopicPath(t) && j.files[1].path == INDEX;
    assert Torn(EmptyMemory, j, LeftBehind(t), None) by {
      forall p | !Touches(j, p) ensures ContentAt(LeftBehind(t), p) == At(EmptyMemory.contents, p) {
        assert p != j.files[0].path && p != j.files[1].path;
      }
    }
  }

  lemma DifferentPaths(t: string, u: string)
    requires t != u
    ensures TopicPath(t) != TopicPath(u)
  {
    var p, q := TopicPath(t), TopicPath(u);
    assert p[..|p| - 3] == t && q[..|q| - 3] == u;
  }

  /** The proposal of another topic, reviewed in the state left behind. */
  function Another(t: string, u: string): Request {
    var observation := Sha256(LeftBehind(t));
    Request(true, true, false, "release", "memory", Proposal("2", Create, u, "note", observation), observation, 0)
  }

  lemma AnotherFits(t: string, u: string)
    requires IsTopic(t) && IsTopic(u) && Hyphens(u) <= 1 && t != u && |u| <= 100
    ensures var a, q := Abstract(ContentsOf(LeftBehind(t)), None), Another(t, u);
      && Readable(LeftBehind(t), q.proposal) && Applicable(a, LeftBehind(t), q) && ResultFits(a, q.proposal)
  {
    TopicNamesLeaf(t);
    TopicNamesLeaf(u);
    DifferentPaths(t, u);
    assert |IndexAfter("", u)| <= 300;
  }

  /**
    An apply that overlaps breaks the agreement: it commits, but the topic of the transaction that was
    pending stays in memory, and the pending journal no longer fits the ledger.
   */
  method OverlapBreaksStep(t: string, u: string) returns (h: Host)
    requires IsTopic(t) && Hyphens(t) <= 1 && IsTopic(u) && Hyphens(u) <= 1 && t != u && |u| <= 100
    ensures fresh(h) && h.starts == [{"1"}] && Overlaps(h.starts, 0)
    ensures h.commits == [Commit(Another(t, u).proposal, 0)] && TopicPath(t) in h.files
    ensures Replay(EmptyMemory, h.commits).Some? && TopicPath(t) !in Replay(EmptyMemory, h.commits).value.contents
    ensures InStepAt(EmptyMemory, [], LeftBehind(t), None, map["1" := Stuck(t)]) && !InStep(h, EmptyMemory)
  {
    hide JournalsValid, ValidLedger, Readable, Applicable, ResultFits, Coherent, Led, OwnWrites, IsMemoryName;
    hide Execute, AlreadyThere, Calm, CrashOnly, Sound, Stuck, LeftBehind, IndexAfter, Tells, Unfinished, Replay;
    NoTicks();
    NothingReplayed();
    h := new Host(LeftBehind(t));
    StuckIsCoherent(t);
    h.journals := map["1" := Stuck(t)];
    AnotherFits(t, u);
    ghost var was, view := h.journals, h.View();
    var r, mine := h.Apply(Another(t, u));
    assert r == Some(Applied) && h.starts[0] == {"1"};
    OutOfStep(t, u, h.files, h.ledger, h.journals);
  }

  lemma NoTicks()
    ensures Calm([]) && CrashOnly([]) && Sound([])
  {
  }

  lemma NothingReplayed()
    ensures Replay(EmptyMemory, []) == Some(EmptyMemory)
  {
  }

  /** InStep of a state given by its parts. */
  ghost predicate InStepAt(
    initial: Abstract, commits: seq<Commit>, files: Files, ledger: Option<Ledger>, journals: Journals) {
    var done := Replay(initial, commits);
    done.Some? && Coherent(done.value, files, ledger, journals)
  }

  lemma OutOfStep(t: string, u: string, files: Files, ledger: Option<Ledger>, journals: Journals)
    requires IsTopic(t) && IsTopic(u) && t != u
    requires Execute(Abstract(ContentsOf(LeftBehind(t)), None), Commit(Another(t, u).proposal, 0)) ==
             Some(Abstract(ContentsOf(files), ledger))
    requires Unfinished(journals) == {"1"} && journals["1"] == Stuck(t)
    ensures var done := Replay(EmptyMemory, [Commit(Another(t, u).proposal, 0)]);
      && done.Some? && TopicPath(t) !in done.value.contents && TopicPath(t) in files
      && !Coherent(done.value, files, ledger, journals)
  {
    TopicNamesLeaf(t);
    TopicNamesLeaf(u);
    DifferentPaths(t, u);
    var c := Commit(Another(t, u).proposal, 0);
    ReplayStep(EmptyMemory, [], c);
    assert [] + [c] == [c];
    assert TopicPath(t) in ContentsOf(files);
    forall k | Unfinished(journals) == {k} ensures k == "1" {
      assert k in {k};
    }
  }
}
