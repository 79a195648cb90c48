/**
  The values the native-memory applier works on: memory leaves, the write-ahead journal, what a
  proposal means when applied alone, and what rolling a journal back restores.
 */
module ApplyJournal {
  import opened Wrappers
  import opened ManagedLedger

  const MAX_MEMORY_FILE_BYTES := 64 * 1024

  /** stamp stands for mode, device, inode and modification time. */
  datatype Leaf = Leaf(bytes: Bytes, stamp: nat)
  type Files = map<Path, Leaf>
  type Contents = map<Path, Bytes>

  datatype Phase = Prepared | TopicApplied | IndexApplied | LedgerApplied | Committed
  datatype JournalFile = JournalFile(path: Path, before: Option<Leaf>, after: Bytes)
  datatype Journal = Journal(
    key: Key, release: string, directory: string, directoryHash: Digest<string>, phase: Phase,
    files: seq<JournalFile>, ledgerBefore: Option<Ledger>, ledgerAfter: Digest<Ledger>)
  type Journals = map<Key, Journal>

  datatype Decision = Create | Patch
  datatype Proposal = Proposal(key: Key, decision: Decision, topic: string, content: Bytes, watermark: Digest<Files>)
  datatype Commit = Commit(proposal: Proposal, now: nat)

  /**
    authorized: the receipt, release, digest and idle checks of validateBinding; busy: another
    process holds the global or the proposal claim.
   */
  datatype Request = Request(
    enabled: bool, authorized: bool, busy: bool, release: string, directory: string,
    proposal: Proposal, observation: Digest<Files>, now: nat)
  datatype Outcome = Disabled | Rejected | Applied | AlreadyApplied | RolledBack | RollbackConflict
  datatype Recovery = Recovered(rolledBack: nat) | Conflicts(rolledBack: nat, conflicts: nat)

  datatype Tick = Tick(edits: map<Path, Option<Leaf>>, fault: Fault)

  datatype LeafWrite = LeafWrite(path: Path, was: Option<Leaf>, put: Option<Leaf>)

  // ----- contents -----

  function LeafAt(files: Files, p: Path): Option<Leaf> { if p in files then Some(files[p]) else None }

  function BytesOf(l: Option<Leaf>): Option<Bytes> { if l.Some? then Some(l.value.bytes) else None }

  function ContentAt(files: Files, p: Path): Option<Bytes> { BytesOf(LeafAt(files, p)) }

  function At(m: Contents, p: Path): Option<Bytes> { if p in m then Some(m[p]) else None }

  function ContentsOf(files: Files): Contents { map p | p in files :: files[p].bytes }

  function Edited(files: Files, edits: map<Path, Option<Leaf>>): Files {
    map p | p in files.Keys + edits.Keys && (p in edits ==> edits[p].Some?) ::
      if p in edits then edits[p].value else files[p]
  }

  /** No other program touches memory while this schedule lasts. */
  ghost predicate Calm(s: seq<Tick>) { forall i :: 0 <= i < |s| ==> s[i].edits == map[] }

  /** No call fails, though the process may die. */
  ghost predicate CrashOnly(s: seq<Tick>) { forall i :: 0 <= i < |s| ==> s[i].fault in {Fine, Crash} }

  /** No call fails and the process survives. */
  ghost predicate Sound(s: seq<Tick>) { forall i :: 0 <= i < |s| ==> s[i].fault == Fine }

  /** What later of a schedule is no worse than what was there before. */
  ghost predicate Keeps(was: seq<Tick>, now: seq<Tick>) {
    (Calm(was) ==> Calm(now)) && (CrashOnly(was) ==> CrashOnly(now)) && (Sound(was) ==> Sound(now))
  }

  function Rest(s: seq<Tick>): seq<Tick> { if s == [] then [] else s[1..] }

  /** The files as the next call finds them, after whatever others did before it. */
  function Arriving(files: Files, s: seq<Tick>): Files { if s == [] then files else Edited(files, s[0].edits) }

  // ----- the sequential meaning of a proposal -----

  datatype Abstract = Abstract(contents: Contents, ledger: Option<Ledger>)

  function IndexLine(topic: string): Bytes { "- [" + topic + "](" + TopicPath(topic) + ")\n" }

  function Separator(text: Bytes): Bytes {
    if text != [] && text[|text| - 1] != '\n' then "\n" else ""
  }

  function IndexAfter(text: Bytes, topic: string): Bytes { text + Separator(text) + IndexLine(topic) }

  /** text.split(line).length - 1 for a non-empty line. */
  function Occurrences(text: Bytes, line: Bytes): nat
    requires line != []
    decreases |text|
  {
    if |text| < |line| then 0
    else if text[..|line|] == line then 1 + Occurrences(text[|line|..], line)
    else Occurrences(text[1..], line)
  }

  /** The guards of the transaction: create a missing topic beside an index, or patch an owned, unchanged one. */
  predicate Accepts(a: Abstract, p: Proposal) {
    var topic := TopicPath(p.topic);
    match p.decision
    case Create => topic !in a.contents && INDEX in a.contents
    case Patch =>
      var owner := Owner(EntriesOf(a.ledger), topic);
      owner.Some? && topic in a.contents && owner.value.sha256 == Sha256(a.contents[topic])
  }

  function Effect(a: Abstract, c: Commit): Abstract
    requires Accepts(a, c.proposal)
  {
    var topic := TopicPath(c.proposal.topic);
    var after := c.proposal.content + "\n";
    var contents := a.contents[topic := after];
    Abstract(
      if c.proposal.decision == Create then contents[INDEX := IndexAfter(a.contents[INDEX], c.proposal.topic)]
          else contents,
      Some(LedgerAfter(a.ledger, topic, Sha256(after), c.proposal.key, c.now)))
  }

  /** What applying one proposal does to the memory contents and the ledger, or None if refused. */
  function Execute(a: Abstract, c: Commit): Option<Abstract> {
    if Accepts(a, c.proposal) then Some(Effect(a, c)) else None
  }

  function Replay(a: Abstract, commits: seq<Commit>): Option<Abstract> {
    if commits == [] then Some(a)
    else
      var r := Replay(a, commits[..|commits| - 1]);
      if r == None then None else Execute(r.value, commits[|commits| - 1])
  }

  lemma ReplayStep(a: Abstract, commits: seq<Commit>, c: Commit)
    ensures Replay(a, commits + [c]) ==
            (var r := Replay(a, commits); if r == None then None else Execute(r.value, c))
  {
    assert (commits + [c])[..|commits|] == commits;
  }

  // ----- journals and what rollback restores -----

  predicate JournalValid(j: Journal) {
    && 1 <= |j.files| <= 2
    && (forall i :: 0 <= i < |j.files| ==> FileValid(j.files[i]))
    && (|j.files| == 2 ==> j.files[0].path != j.files[1].path)
    && (j.ledgerBefore.Some? ==> ValidLedger(j.ledgerBefore.value))
  }

  predicate Anchored(j: Journal) { Sha256(j.directory) == j.directoryHash }

  predicate FileValid(f: JournalFile) {
    IsMemoryName(f.path) && (f.before.Some? ==> |f.before.value.bytes| <= MAX_MEMORY_FILE_BYTES)
  }

  predicate Touches(j: Journal, p: Path) { exists i :: 0 <= i < |j.files| && j.files[i].path == p }

  /** A content that is neither what was there before nor what the applier wrote. */
  predicate Foreign(f: JournalFile, c: Option<Bytes>) {
    c != BytesOf(f.before) && (c != Some(f.after) || |f.after| > MAX_MEMORY_FILE_BYTES)
  }

  function Restored(f: JournalFile, c: Option<Bytes>): Option<Bytes> {
    if Foreign(f, c) then c else BytesOf(f.before)
  }

  predicate LedgerForeign(j: Journal, l: Option<Ledger>) {
    l != j.ledgerBefore && (l == None || Sha256(l.value) != j.ledgerAfter)
  }

  function RestoredLedger(j: Journal, l: Option<Ledger>): Option<Ledger> {
    if LedgerForeign(j, l) then l else j.ledgerBefore
  }

  function ForeignFiles(files: seq<JournalFile>, at: Files): nat {
    if files == [] then 0
    else (if Foreign(files[0], ContentAt(at, files[0].path)) then 1 else 0) + ForeignFiles(files[1..], at)
  }

  function ForeignCount(j: Journal, files: Files, ledger: Option<Ledger>): nat {
    ForeignFiles(j.files, files) + if LedgerForeign(j, ledger) then 1 else 0
  }

  /** Every place holds its old content or the one rollback gives it; no other place changed. */
  ghost predicate PartlyRestored(
    j: Journal, files: Files, ledger: Option<Ledger>, files': Files, ledger': Option<Ledger>) {
    && (forall i :: 0 <= i < |j.files| ==> PlacePartlyRestored(j.files[i], files, files'))
    && (forall p :: !Touches(j, p) ==> LeafAt(files', p) == LeafAt(files, p))
    && (ledger' == ledger || ledger' == RestoredLedger(j, ledger))
  }

  ghost predicate PlacePartlyRestored(f: JournalFile, files: Files, files': Files) {
    var c := ContentAt(files, f.path);
    ContentAt(files', f.path) == c || ContentAt(files', f.path) == Restored(f, c)
  }

  ghost predicate PlaceRestored(f: JournalFile, files: Files, files': Files) {
    ContentAt(files', f.path) == Restored(f, ContentAt(files, f.path))
  }

  ghost predicate FullyRestored(
    j: Journal, files: Files, ledger: Option<Ledger>, files': Files, ledger': Option<Ledger>) {
    && (forall i :: 0 <= i < |j.files| ==> PlaceRestored(j.files[i], files, files'))
    && (forall p :: !Touches(j, p) ==> LeafAt(files', p) == LeafAt(files, p))
    && ledger' == RestoredLedger(j, ledger)
  }

  ghost predicate HoldsBefore(j: Journal, files: Files, ledger: Option<Ledger>) {
    && (forall i :: 0 <= i < |j.files| ==> ContentAt(files, j.files[i].path) == BytesOf(j.files[i].before))
    && ledger == j.ledgerBefore
  }

  /**
    The handling of one place by a rollback: the files and the schedule it started from, the files
    when it ended, and whether it counted a conflict.
   */
  datatype Passage = Passage(start: Files, ticks: seq<Tick>, left: Files, conflict: bool) {
    function Found(): Files { Arriving(start, ticks) }
    /** The files as a write finds them that follows the capture. */
    function Later(): Files { Arriving(Found(), Rest(ticks)) }
  }

  /**
    Whatever others do meanwhile: the files end as others left them, or with this leaf alone put back
    from the after-bytes to its before-content. Without a conflict the place ends with its
    before-content, and a foreign content is a conflict and stays. If no call fails, the one other
    conflict is that the leaf was replaced between the capture and the write.
   */
  ghost predicate Passed(f: JournalFile, p: Passage) {
    && (p.left == p.Found() || p.left == p.Later() || PutBackAlone(f, p.Later(), p.left))
    && (!p.conflict ==> ContentAt(p.left, f.path) == BytesOf(f.before))
    && (Foreign(f, ContentAt(p.Found(), f.path)) ==> p.conflict && p.left == p.Found())
    && (CrashOnly(p.ticks) ==>
          (p.conflict <==>
             || Foreign(f, ContentAt(p.Found(), f.path))
             || (ContentAt(p.Found(), f.path) != BytesOf(f.before) &&
                   LeafAt(p.Later(), f.path) != LeafAt(p.Found(), f.path))))
  }

  /** Nothing but the leaf of f differs, and that was put back. */
  ghost predicate PutBackAlone(f: JournalFile, files: Files, files': Files) {
    && ContentAt(files, f.path) == Some(f.after) && ContentAt(files', f.path) == BytesOf(f.before)
    && forall q :: q != f.path ==> LeafAt(files', q) == LeafAt(files, q)
  }

  function ConflictsIn(passages: seq<Passage>): nat {
    if passages == [] then 0 else (if passages[0].conflict then 1 else 0) + ConflictsIn(passages[1..])
  }

  /** now is what is left of was. */
  ghost predicate Remainder(was: seq<Tick>, now: seq<Tick>) {
    |now| <= |was| && now == was[|was| - |now|..]
  }

  /** The passages over the files from i on, last first; each starts where the one before it ended. */
  ghost predicate Passages(j: Journal, i: nat, passages: seq<Passage>, files: Files, s: seq<Tick>) {
    && i + |passages| == |j.files|
    && (forall k :: 0 <= k < |passages| ==> Passed(j.files[i + k], passages[k]))
    && (forall k :: 0 < k < |passages| ==>
          passages[k - 1].start == passages[k].left && Remainder(passages[k].ticks, passages[k - 1].ticks))
    && (passages != [] ==> passages[|passages| - 1].start == files && passages[|passages| - 1].ticks == s)
  }

  /** The files when the passages were over, and the schedule the last of them was given. */
  function LeftBy(passages: seq<Passage>, files: Files): Files { if passages == [] then files else passages[0].left }
  function TicksOf(passages: seq<Passage>, s: seq<Tick>): seq<Tick> { if passages == [] then s else passages[0].ticks }

  lemma NextPassage(j: Journal, i: nat, passages: seq<Passage>, files: Files, s: seq<Tick>, p: Passage)
    requires i < |j.files| && Passages(j, i + 1, passages, files, s) && Passed(j.files[i], p)
    requires p.start == LeftBy(passages, files) && Remainder(TicksOf(passages, s), p.ticks)
    requires passages == [] ==> p.ticks == s
    ensures Passages(j, i, [p] + passages, files, s)
    ensures ConflictsIn([p] + passages) == (if p.conflict then 1 else 0) + ConflictsIn(passages)
    ensures LeftBy([p] + passages, files) == p.left && TicksOf([p] + passages, s) == p.ticks
  {
    hide Passed, Remainder;
    var all := [p] + passages;
    assert all[1..] == passages;
    forall k | 0 <= k < |all|
      ensures Passed(j.files[i + k], all[k])
    {
      if k > 0 { assert all[k] == passages[k - 1] && Passed(j.files[i + 1 + (k - 1)], passages[k - 1]); }
    }
  }

  /** Without conflicts every place held its before-content when its own passage ended. */
  lemma NoConflict(j: Journal, i: nat, passages: seq<Passage>, files: Files, s: seq<Tick>)
    requires Passages(j, i, passages, files, s) && ConflictsIn(passages) == 0
    ensures HeldBefore(j, i, passages)
  {
    hide Passed;
    forall k | 0 <= k < |passages|
      ensures ContentAt(passages[k].left, j.files[i + k].path) == BytesOf(j.files[i + k].before)
    {
      if passages[k].conflict { ConflictAt(passages, k); }
      assert Passed(j.files[i + k], passages[k]);
      PassedWithout(j.files[i + k], passages[k]);
    }
  }

  lemma PassedWithout(f: JournalFile, p: Passage)
    requires Passed(f, p) && !p.conflict
    ensures ContentAt(p.left, f.path) == BytesOf(f.before)
  {
  }

  ghost predicate HeldBefore(j: Journal, i: nat, passages: seq<Passage>) {
    && i + |passages| == |j.files|
    && forall k :: 0 <= k < |passages| ==>
        ContentAt(passages[k].left, j.files[i + k].path) == BytesOf(j.files[i + k].before)
  }

  /** A foreign content at any place is a conflict. */
  lemma SomeConflict(j: Journal, i: nat, passages: seq<Passage>, files: Files, s: seq<Tick>, n: nat)
    requires Passages(j, i, passages, files, s) && n < |passages|
    requires Foreign(j.files[i + n], ContentAt(passages[n].Found(), j.files[i + n].path))
    ensures ConflictsIn(passages) > 0
  {
    assert Passed(j.files[i + n], passages[n]);
    ConflictAt(passages, n);
  }

  lemma {:induction false} ConflictAt(passages: seq<Passage>, n: nat)
    requires n < |passages| && passages[n].conflict
    ensures ConflictsIn(passages) > 0
  {
    if n > 0 { ConflictAt(passages[1..], n - 1); }
  }

  /** A write of the forward direction: the captured image gives way to the after-bytes. */
  ghost predicate ForwardWrite(f: JournalFile, w: LeafWrite) {
    w.path == f.path && w.was == f.before && BytesOf(w.put) == Some(f.after)
  }

  /** A write of a rollback: the after-bytes give way to the before-content. */
  ghost predicate BackWrite(f: JournalFile, w: LeafWrite) {
    w.path == f.path && BytesOf(w.was) == Some(f.after) && BytesOf(w.put) == BytesOf(f.before)
  }

  /** A write the transaction is entitled to make. */
  ghost predicate OwnWrite(f: JournalFile, w: LeafWrite) { ForwardWrite(f, w) || BackWrite(f, w) }

  ghost predicate BackWrites(files: seq<JournalFile>, log: seq<LeafWrite>) {
    forall w :: w in log ==> Backward(files, w)
  }

  ghost predicate Backward(files: seq<JournalFile>, w: LeafWrite) {
    exists i :: 0 <= i < |files| && BackWrite(files[i], w)
  }

  ghost predicate OwnWrites(files: seq<JournalFile>, log: seq<LeafWrite>) {
    forall w :: w in log ==> Owned(files, w)
  }

  ghost predicate Owned(files: seq<JournalFile>, w: LeafWrite) {
    exists i :: 0 <= i < |files| && OwnWrite(files[i], w)
  }

  // ----- coherence of the durable state -----

  function Unfinished(journals: Journals): set<Key> { set k | k in journals && journals[k].phase != Committed }

  ghost predicate JournalsValid(journals: Journals) {
    forall k :: k in journals ==> journals[k].key == k && JournalValid(journals[k]) && Anchored(journals[k])
  }

  /** Between prepare and commit: each place holds its before or its after content. */
  ghost predicate Torn(a: Abstract, j: Journal, files: Files, ledger: Option<Ledger>) {
    && (forall i :: 0 <= i < |j.files| ==> PlaceTorn(a, j.files[i], files))
    && (forall p :: !Touches(j, p) ==> ContentAt(files, p) == At(a.contents, p))
    && j.ledgerBefore == a.ledger
    && !LedgerForeign(j, ledger)
  }

  ghost predicate PlaceTorn(a: Abstract, f: JournalFile, files: Files) {
    && BytesOf(f.before) == At(a.contents, f.path)
    && !Foreign(f, ContentAt(files, f.path))
  }

  /** The state is a, or one unfinished transaction away from a. */
  ghost predicate Coherent(a: Abstract, files: Files, ledger: Option<Ledger>, journals: Journals) {
    || (Unfinished(journals) == {} && ContentsOf(files) == a.contents && ledger == a.ledger)
    || (exists k :: Unfinished(journals) == {k} && Torn(a, journals[k], files, ledger))
  }

  lemma SameContents(files: Files, m: Contents)
    requires forall p :: ContentAt(files, p) == At(m, p)
    ensures ContentsOf(files) == m
  {
    forall p
      ensures p in files <==> p in m
      ensures p in files ==> files[p].bytes == m[p]
    {
      assert ContentAt(files, p) == At(m, p);
    }
  }

  /** Undoing the one unfinished transaction of a torn state gives back the abstract state. */
  lemma TornRestores(
    a: Abstract, j: Journal, files: Files, ledger: Option<Ledger>, files': Files, ledger': Option<Ledger>)
    requires Torn(a, j, files, ledger)
    requires PartlyRestored(j, files, ledger, files', ledger')
    ensures Torn(a, j, files', ledger')
    ensures HoldsBefore(j, files', ledger') ==> ContentsOf(files') == a.contents && ledger' == a.ledger
  {
    forall i | 0 <= i < |j.files|
      ensures PlaceTorn(a, j.files[i], files')
    {
      assert PlacePartlyRestored(j.files[i], files, files');
      assert PlaceTorn(a, j.files[i], files);
    }
    if HoldsBefore(j, files', ledger') {
      forall p
        ensures ContentAt(files', p) == At(a.contents, p)
      {
        if Touches(j, p) {
          var i :| 0 <= i < |j.files| && j.files[i].path == p;
          assert PlaceTorn(a, j.files[i], files);
        }
      }
      SameContents(files', a.contents);
    }
  }

  /**
    Rollback may be stopped anywhere and run again: what an interrupted rollback left behind has
    the same restored contents and the same conflicts as the state it started from.
   */
  lemma {:induction false} RollbackResumes(
    j: Journal, files: Files, ledger: Option<Ledger>, files': Files, ledger': Option<Ledger>, files'': Files,
    ledger'': Option<Ledger>)
    requires PartlyRestored(j, files, ledger, files', ledger')
    ensures FullyRestored(j, files', ledger', files'', ledger'') <==>
            FullyRestored(j, files, ledger, files'', ledger'')
    ensures ForeignCount(j, files', ledger') == ForeignCount(j, files, ledger)
  {
    forall i | 0 <= i < |j.files|
      ensures Restored(j.files[i], ContentAt(files', j.files[i].path)) ==
                Restored(j.files[i], ContentAt(files, j.files[i].path))
      ensures PlaceRestored(j.files[i], files', files'') == PlaceRestored(j.files[i], files, files'')
    {
      assert PlacePartlyRestored(j.files[i], files, files');
    }
    SameForeign(j.files, files, files');
  }

  lemma {:induction false} SameForeign(fs: seq<JournalFile>, files: Files, files': Files)
    requires forall i :: 0 <= i < |fs| ==> PlacePartlyRestored(fs[i], files, files')
    ensures ForeignFiles(fs, files') == ForeignFiles(fs, files)
  {
    if fs != [] {
      assert PlacePartlyRestored(fs[0], files, files');
      forall i | 0 <= i < |fs[1..]|
        ensures PlacePartlyRestored(fs[1..][i], files, files')
      {
        assert fs[1..][i] == fs[i + 1];
      }
      SameForeign(fs[1..], files, files');
    }
  }

  // ----- rollback, last file first -----

  /** Files from i on are restored or untouched, everything else is untouched. */
  ghost predicate TailPartly(j: Journal, i: nat, files: Files, files': Files) {
    && (forall k :: i <= k < |j.files| ==> PlacePartlyRestored(j.files[k], files, files'))
    && (forall p :: p !in TailPaths(j.files, i) ==> LeafAt(files', p) == LeafAt(files, p))
  }

  ghost predicate TailRestored(j: Journal, i: nat, files: Files, files': Files) {
    forall k :: i <= k < |j.files| ==> PlaceRestored(j.files[k], files, files')
  }

  ghost predicate TailBefore(j: Journal, i: nat, files: Files) {
    forall k :: i <= k < |j.files| ==> ContentAt(files, j.files[k].path) == BytesOf(j.files[k].before)
  }

  ghost function TailPaths(fs: seq<JournalFile>, i: nat): set<Path> { set k | i <= k < |fs| :: fs[k].path }

  /** One more file handled, going backwards. */
  lemma TailStep(j: Journal, i: nat, files: Files, files': Files, files'': Files)
    requires JournalValid(j) && i < |j.files|
    requires TailPartly(j, i + 1, files, files')
    requires PlacePartlyRestored(j.files[i], files', files'')
    requires forall q :: q != j.files[i].path ==> LeafAt(files'', q) == LeafAt(files', q)
    ensures TailPartly(j, i, files, files'')
    ensures ContentAt(files', j.files[i].path) == ContentAt(files, j.files[i].path)
    ensures TailRestored(j, i + 1, files, files') && PlaceRestored(j.files[i], files', files'') ==>
              TailRestored(j, i, files, files'')
    ensures TailBefore(j, i + 1, files') && ContentAt(files'', j.files[i].path) == BytesOf(j.files[i].before) ==>
              TailBefore(j, i, files'')
  {
    assert j.files[i].path !in TailPaths(j.files, i + 1);
    assert TailPaths(j.files, i) == TailPaths(j.files, i + 1) + {j.files[i].path};
  }

  lemma TailAll(j: Journal, files: Files, ledger: Option<Ledger>, files': Files, ledger': Option<Ledger>, i: nat)
    requires JournalValid(j) && TailPartly(j, i, files, files')
    requires i <= |j.files|
    requires ledger' == ledger || ledger' == RestoredLedger(j, ledger)
    ensures PartlyRestored(j, files, ledger, files', ledger')
    ensures i == 0 && TailRestored(j, 0, files, files') && ledger' == RestoredLedger(j, ledger) ==>
              FullyRestored(j, files, ledger, files', ledger')
    ensures i == 0 && TailBefore(j, 0, files') && ledger' == j.ledgerBefore ==> HoldsBefore(j, files', ledger')
  {
    forall p | !Touches(j, p)
      ensures LeafAt(files', p) == LeafAt(files, p)
    {
      assert p !in TailPaths(j.files, i);
    }
    forall k | 0 <= k < |j.files|
      ensures PlacePartlyRestored(j.files[k], files, files')
    {
      if k < i && j.files[k].path in TailPaths(j.files, i) {
        var m :| i <= m < |j.files| && j.files[m].path == j.files[k].path;
        assert PlacePartlyRestored(j.files[m], files, files');
      }
    }
  }

  /** Before the first file is handled. */
  lemma NoTail(j: Journal, files: Files, s: seq<Tick>)
    ensures TailPartly(j, |j.files|, files, files) && TailRestored(j, |j.files|, files, files) &&
              TailBefore(j, |j.files|, files)
    ensures ForeignFiles(j.files[|j.files|..], files) == 0
    ensures Passages(j, |j.files|, [], files, s) && LeftBy([], files) == files && TicksOf([], s) == s &&
              ConflictsIn([]) == 0
    ensures Remainder(s, s)
  {
  }

  lemma ForeignFrom(j: Journal, i: nat, files: Files)
    requires i < |j.files|
    ensures ForeignFiles(j.files[i..], files) ==
            (if Foreign(j.files[i], ContentAt(files, j.files[i].path)) then 1 else 0)
                + ForeignFiles(j.files[i + 1..], files)
  {
    assert j.files[i..] == [j.files[i]] + j.files[i + 1..];
  }

  // ----- writing the transaction forward -----

  /** Nothing has been written yet: every captured image is still in place. */
  ghost predicate ReadyToWrite(a: Abstract, j: Journal, files: Files, ledger: Option<Ledger>) {
    && ContentsOf(files) == a.contents
    && ledger == a.ledger == j.ledgerBefore
    && (forall i :: 0 <= i < |j.files| ==> LeafAt(files, j.files[i].path) == j.files[i].before)
  }

  predicate AftersFit(j: Journal) {
    forall i :: 0 <= i < |j.files| ==> |j.files[i].after| <= MAX_MEMORY_FILE_BYTES
  }

  /** The contents once the first n files of the journal hold their after-bytes. */
  ghost predicate WrittenUpTo(a: Abstract, j: Journal, n: nat, files: Files) {
    && (forall i :: 0 <= i < |j.files| && i < n ==>
          ContentAt(files, j.files[i].path) == Some(j.files[i].after) && |j.files[i].after| <= MAX_MEMORY_FILE_BYTES)
    && (forall i :: n <= i < |j.files| ==> LeafAt(files, j.files[i].path) == j.files[i].before)
    && (forall i :: 0 <= i < |j.files| ==> BytesOf(j.files[i].before) == At(a.contents, j.files[i].path))
    && (forall p :: !Touches(j, p) ==> ContentAt(files, p) == At(a.contents, p))
  }

  ghost predicate PartWritten(a: Abstract, j: Journal, files: Files) {
    exists n :: 0 <= n <= |j.files| && WrittenUpTo(a, j, n, files)
  }

  ghost predicate HoldsAfter(a: Abstract, j: Journal, next: Ledger, files: Files, ledger: Option<Ledger>) {
    WrittenUpTo(a, j, |j.files|, files) && ledger == Some(next)
  }

  lemma ReadyIsWrittenUpToNothing(a: Abstract, j: Journal, files: Files, ledger: Option<Ledger>)
    requires ReadyToWrite(a, j, files, ledger)
    ensures WrittenUpTo(a, j, 0, files)
  {
    forall p
      ensures ContentAt(files, p) == At(a.contents, p)
    {
      assert p in ContentsOf(files) <==> p in files;
    }
    forall i | 0 <= i < |j.files|
      ensures BytesOf(j.files[i].before) == At(a.contents, j.files[i].path)
    {
      assert LeafAt(files, j.files[i].path) == j.files[i].before;
    }
  }

  lemma NextWritable(a: Abstract, j: Journal, n: nat, files: Files)
    requires n < |j.files| && WrittenUpTo(a, j, n, files)
    ensures LeafAt(files, j.files[n].path) == j.files[n].before
    ensures AftersFit(j) ==> |j.files[n].after| <= MAX_MEMORY_FILE_BYTES
  {
  }

  lemma WriteNext(a: Abstract, j: Journal, n: nat, files: Files, files': Files)
    requires JournalValid(j) && n < |j.files| && WrittenUpTo(a, j, n, files)
    requires files' == files || WrittenLeaf(files, files', j.files[n].path, j.files[n].before, j.files[n].after)
    ensures WrittenUpTo(a, j, n, files') || WrittenUpTo(a, j, n + 1, files')
    ensures WrittenLeaf(files, files', j.files[n].path, j.files[n].before, j.files[n].after) ==>
              WrittenUpTo(a, j, n + 1, files')
  {
    assert Touches(j, j.files[n].path);
  }

  /** A successful compare-and-swap of one leaf. */
  ghost predicate WrittenLeaf(files: Files, files': Files, p: Path, before: Option<Leaf>, bytes: Bytes) {
    && LeafAt(files, p) == before
    && |bytes| <= MAX_MEMORY_FILE_BYTES
    && ContentAt(files', p) == Some(bytes)
    && forall q :: q != p ==> LeafAt(files', q) == LeafAt(files, q)
  }

  lemma WrittenIsTorn(a: Abstract, j: Journal, n: nat, next: Ledger, files: Files, ledger: Option<Ledger>)
    requires n <= |j.files| && WrittenUpTo(a, j, n, files)
    requires j.ledgerBefore == a.ledger && Sha256(next) == j.ledgerAfter
    requires ledger == a.ledger || ledger == Some(next)
    ensures Torn(a, j, files, ledger)
  {
    forall i | 0 <= i < |j.files|
      ensures PlaceTorn(a, j.files[i], files)
    {
    }
  }

  // ----- planning a transaction -----

  /** What Prepare decides: an early answer, or a journal and the ledger to install. */
  datatype Plan = Stop(outcome: Outcome) | Go(journal: Journal, next: Ledger)

  /** What Prepare may answer in a state nobody else disturbs. */
  ghost predicate RightPlan(a: Abstract, files: Files, ledger: Option<Ledger>, q: Request, plan: Plan) {
    match plan
    case Stop(outcome) => outcome == AlreadyApplied ==> AlreadyThere(a, q.proposal)
    case Go(_, _) => FaithfulPlan(a, files, ledger, q, plan)
  }

  /** What Prepare must answer when in addition no call fails. */
  ghost predicate ExactPlan(a: Abstract, files: Files, q: Request, plan: Plan) {
    && (plan == Stop(AlreadyApplied) <==> AlreadyThere(a, q.proposal))
    && (plan.Go? <==> Applicable(a, files, q))
  }

  /** The proposal is already in effect: owned under its key, unchanged, and indexed exactly once. */
  predicate AlreadyThere(a: Abstract, p: Proposal) {
    var topic := TopicPath(p.topic);
    var owner := Owner(EntriesOf(a.ledger), topic);
    && owner.Some? && owner.value.proposalKey == p.key
    && topic in a.contents && owner.value.sha256 == Sha256(a.contents[topic])
    && (p.decision == Create ==> INDEX in a.contents && Occurrences(a.contents[INDEX], IndexLine(p.topic)) == 1)
  }

  /** The leaves the applier must read can be captured. */
  predicate Readable(files: Files, p: Proposal) {
    && IsMemoryName(TopicPath(p.topic))
    && (TopicPath(p.topic) in files ==> |files[TopicPath(p.topic)].bytes| <= MAX_MEMORY_FILE_BYTES)
    && (p.decision == Create && INDEX in files ==> |files[INDEX].bytes| <= MAX_MEMORY_FILE_BYTES)
  }

  /** Everything the transaction will write fits in a memory file. */
  predicate ResultFits(a: Abstract, p: Proposal) {
    && |p.content| + 1 <= MAX_MEMORY_FILE_BYTES
    && (p.decision == Create && INDEX in a.contents ==>
          |IndexAfter(a.contents[INDEX], p.topic)| <= MAX_MEMORY_FILE_BYTES)
  }

  /** j and next carry out proposal p from a. */
  ghost predicate Carries(a: Abstract, p: Proposal, now: nat, j: Journal, next: Ledger) {
    var topic := TopicPath(p.topic);
    && Accepts(a, p)
    && next == LedgerAfter(a.ledger, topic, Sha256(p.content + "\n"), p.key, now)
    && j.key == p.key
    && j.files != [] && j.files[0].path == topic && j.files[0].after == p.content + "\n"
    && (p.decision == Patch ==> |j.files| == 1)
    && (p.decision == Create ==>
          |j.files| == 2 && j.files[1].path == INDEX && j.files[1].after == IndexAfter(a.contents[INDEX], p.topic))
  }

  /** What the first reads of apply found. */
  datatype Seen = Seen(topicBefore: Option<Leaf>, managed: Option<Ledger>, already: bool)

  predicate OwnedAsSeen(p: Proposal, seen: Seen) {
    var owned := Owner(EntriesOf(seen.managed), TopicPath(p.topic));
    owned.Some? && seen.topicBefore.Some? && owned.value.sha256 == Sha256(seen.topicBefore.value.bytes)
  }

  /** The journal entries for p: the topic, and for a create the index with one more line. */
  predicate Entries(p: Proposal, seen: Seen, entries: seq<JournalFile>) {
    && (p.decision == Create ==>
          && seen.topicBefore == None
          && |entries| == 2
          && entries[1].path == INDEX && entries[1].before.Some?
          && |entries[1].before.value.bytes| <= MAX_MEMORY_FILE_BYTES
          && entries[1].after == IndexAfter(entries[1].before.value.bytes, p.topic))
    && (p.decision == Patch ==> |entries| == 1 && OwnedAsSeen(p, seen))
    && entries != [] && entries[0] == JournalFile(TopicPath(p.topic), seen.topicBefore, p.content + "\n")
  }

  /** The proposal may be applied now: not yet in effect, observed state current, accepted by Execute. */
  ghost predicate Applicable(a: Abstract, files: Files, q: Request) {
    && !AlreadyThere(a, q.proposal)
    && q.observation == Sha256(files)
    && Accepts(a, q.proposal)
  }

  ghost predicate SoundPlan(q: Request, plan: Plan)
    requires plan.Go?
  {
    var j := plan.journal;
    && JournalValid(j) && Anchored(j) && j.phase == Prepared
    && j.key == q.proposal.key && j.release == q.release && j.directory == q.directory
    && ValidLedger(plan.next) && Sha256(plan.next) == j.ledgerAfter
  }

  ghost predicate FaithfulPlan(a: Abstract, files: Files, ledger: Option<Ledger>, q: Request, plan: Plan)
    requires plan.Go?
  {
    && ReadyToWrite(a, plan.journal, files, ledger)
    && Carries(a, q.proposal, q.now, plan.journal, plan.next)
    && Applicable(a, files, q)
    && (ResultFits(a, q.proposal) ==> AftersFit(plan.journal))
  }

  function MakePlan(q: Request, seen: Seen, entries: seq<JournalFile>, before: Option<Ledger>): Plan {
    var p := q.proposal;
    var next := LedgerAfter(seen.managed, TopicPath(p.topic), Sha256(p.content + "\n"), p.key, q.now);
    Go(Journal(p.key, q.release, q.directory, Sha256(q.directory), Prepared, entries, before, Sha256(next)), next)
  }

  lemma PlanIsSound(q: Request, seen: Seen, entries: seq<JournalFile>, before: Option<Ledger>)
    requires IsTopic(q.proposal.topic) && IsMemoryName(TopicPath(q.proposal.topic)) &&
               Entries(q.proposal, seen, entries)
    requires seen.topicBefore.Some? ==> |seen.topicBefore.value.bytes| <= MAX_MEMORY_FILE_BYTES
    requires ValidLedger(EntriesOf(seen.managed)) && ValidLedger(EntriesOf(before))
    ensures SoundPlan(q, MakePlan(q, seen, entries, before))
  {
    TopicNamesLeaf(q.proposal.topic);
    NextLedgerValid(seen.managed, TopicPath(q.proposal.topic), Sha256(q.proposal.content + "\n"), q.proposal.key,
        q.now);
  }

  /** The proposal is not in effect, the observation is current, and seen is what is really there. */
  ghost predicate Expected(a: Abstract, files: Files, q: Request, seen: Seen) {
    && seen == Seen(LeafAt(files, TopicPath(q.proposal.topic)), a.ledger, false)
    && !AlreadyThere(a, q.proposal)
    && q.observation == Sha256(files)
  }

  lemma PlanIsFaithful(files: Files, ledger: Option<Ledger>, q: Request, seen: Seen, entries: seq<JournalFile>)
    requires Entries(q.proposal, seen, entries)
    requires Expected(Abstract(ContentsOf(files), ledger), files, q, seen)
    requires q.proposal.decision == Create ==> entries[1].before == LeafAt(files, INDEX)
    ensures FaithfulPlan(Abstract(ContentsOf(files), ledger), files, ledger, q, MakePlan(q, seen, entries, ledger))
  {
  }

  lemma CarriedOut(a: Abstract, p: Proposal, now: nat, j: Journal, next: Ledger, files: Files, ledger: Option<Ledger>)
    requires JournalValid(j) && Carries(a, p, now, j, next) && HoldsAfter(a, j, next, files, ledger)
    ensures Execute(a, Commit(p, now)) == Some(Abstract(ContentsOf(files), ledger))
  {
    var e := Execute(a, Commit(p, now)).value;
    forall q
      ensures ContentAt(files, q) == At(e.contents, q)
    {
      if Touches(j, q) {
        assert q == j.files[0].path || (|j.files| == 2 && q == j.files[1].path);
      } else {
        assert q != j.files[0].path;
        assert p.decision == Create ==> q != j.files[1].path;
      }
    }
    SameContents(files, e.contents);
  }

  /** A patch or create that the sequential meaning accepts leads to the next ledger being valid. */
  lemma NextLedgerValid(ledger: Option<Ledger>, topic: Path, sha256: Digest<Bytes>, key: Key, now: nat)
    requires ValidLedger(EntriesOf(ledger)) && IsMemoryName(topic) && topic != INDEX
    ensures ValidLedger(LedgerAfter(ledger, topic, sha256, key, now))
  {
    LedgerAfterSpec(ledger, topic, sha256, key, now);
  }

  /** The phase of a journal plays no part in what it restores. */
  lemma SamePlaces(a: Abstract, j: Journal, j': Journal, files: Files, ledger: Option<Ledger>)
    requires Torn(a, j, files, ledger) && j' == j.(phase := j'.phase)
    ensures Torn(a, j', files, ledger)
  {
    forall p | !Touches(j', p)
      ensures ContentAt(files, p) == At(a.contents, p)
    {
      assert forall i :: 0 <= i < |j.files| ==> j.files[i] == j'.files[i];
      assert !Touches(j, p);
    }
  }

  lemma UnfinishedAfter(j: Journal, was: Journals, journals: Journals)
    requires j.key !in was
    ensures journals == was || journals == was[j.key := j.(phase := Committed)] ==>
              Unfinished(journals) == Unfinished(was)
    ensures j.key in journals && journals == was[j.key := journals[j.key]] && journals[j.key].phase != Committed ==>
              Unfinished(journals) == Unfinished(was) + {j.key}
  {
  }

  /** Nothing in a torn state is in conflict with its own journal. */
  lemma TornIsNotForeign(a: Abstract, j: Journal, files: Files, ledger: Option<Ledger>)
    ensures Torn(a, j, files, ledger) ==> ForeignCount(j, files, ledger) == 0
  {
    if Torn(a, j, files, ledger) {
      forall i | 0 <= i < |j.files|
        ensures !Foreign(j.files[i], ContentAt(files, j.files[i].path))
      {
        assert PlaceTorn(a, j.files[i], files);
      }
      NoneForeign(j.files, files);
    }
  }

  lemma {:induction false} NoneForeign(fs: seq<JournalFile>, files: Files)
    requires forall i :: 0 <= i < |fs| ==> !Foreign(fs[i], ContentAt(files, fs[i].path))
    ensures ForeignFiles(fs, files) == 0
  {
    if fs != [] { NoneForeign(fs[1..], files); }
  }

  /** Rolling back the unfinished journal k, in part or to the end, keeps the state coherent. */
  lemma RecoverStep(
    a: Abstract, k: Key, files: Files, ledger: Option<Ledger>, journals: Journals, files': Files,
    ledger': Option<Ledger>, journals': Journals)
    requires k in Unfinished(journals) && Coherent(a, files, ledger, journals)
    requires PartlyRestored(journals[k], files, ledger, files', ledger')
    requires journals' == journals || (journals' == journals - {k} && HoldsBefore(journals[k], files', ledger'))
    ensures Coherent(a, files', ledger', journals')
  {
    var k' :| Unfinished(journals) == {k'} && Torn(a, journals[k'], files, ledger);
    assert k == k';
    TornRestores(a, journals[k], files, ledger, files', ledger');
    if journals' != journals { assert Unfinished(journals') == {}; }
  }

  lemma CoherentIsNotForeign(a: Abstract, k: Key, files: Files, ledger: Option<Ledger>, journals: Journals)
    requires k in Unfinished(journals) && Coherent(a, files, ledger, journals)
    ensures ForeignCount(journals[k], files, ledger) == 0
  {
    var k' :| Unfinished(journals) == {k'} && Torn(a, journals[k'], files, ledger);
    assert k == k';
    TornIsNotForeign(a, journals[k], files, ledger);
  }

  lemma ValidAfter(
    j: Journal, next: Ledger, was: Journals, journals: Journals, owed: Option<Ledger>, ledger: Option<Ledger>)
    requires JournalsValid(was) && JournalValid(j) && Anchored(j) && ValidLedger(next) && ValidLedger(EntriesOf(owed))
    requires forall k :: k in journals ==>
               (k in was && journals[k] == was[k]) || (k == j.key && journals[k] == j.(phase := journals[k].phase))
    requires ledger == owed || ledger == Some(next) || ledger == j.ledgerBefore
    ensures JournalsValid(journals) && ValidLedger(EntriesOf(ledger))
  {
    assert forall k :: k in journals && !(k in was && journals[k] == was[k]) ==> JournalValid(journals[k]);
  }

  // ----- applying the same proposal again -----

  /** An index line ends the only line break it contains, so no copy of it straddles the place where one is appended. */
  lemma {:induction false} AppendedOccurrence(text: Bytes, line: Bytes)
    requires line != [] && line[|line| - 1] == '\n'
    requires forall i :: 0 <= i < |line| - 1 ==> line[i] != '\n'
    ensures Occurrences(text + line, line) == Occurrences(text, line) + 1
    decreases |text|
  {
    var whole := text + line;
    if text == [] {
      assert whole == line && line[..|line|] == line && line[|line|..] == [];
    } else if |text| >= |line| && text[..|line|] == line {
      assert whole[..|line|] == text[..|line|];
      assert whole[|line|..] == text[|line|..] + line;
      AppendedOccurrence(text[|line|..], line);
    } else {
      assert whole[..|line|] != line by {
        if |text| < |line| {
          assert whole[..|line|][|line| - 1] == line[|line| - 1 - |text|];
        } else {
          assert whole[..|line|] == text[..|line|];
        }
      }
      assert whole[1..] == text[1..] + line;
      AppendedOccurrence(text[1..], line);
      if |text| < |line| { assert Occurrences(text, line) == 0 && Occurrences(text[1..], line) == 0; }
    }
  }

  lemma IndexLineShape(topic: string)
    requires IsTopic(topic)
    ensures var line := IndexLine(topic);
      line[|line| - 1] == '\n' && forall i :: 0 <= i < |line| - 1 ==> line[i] != '\n'
  {
    var line := IndexLine(topic);
    forall i | 0 <= i < |line| - 1
      ensures line[i] != '\n'
    {
      if 3 <= i < 3 + |topic| {
        assert line[i] == topic[i - 3];
      } else if 5 + |topic| <= i < 5 + 2 * |topic| {
        assert line[i] == topic[i - 5 - |topic|];
      }
    }
  }

  /** A committed proposal is already in effect, for a create if its index line did not occur before it was appended. */
  lemma RetryCounts(a: Abstract, c: Commit)
    requires Accepts(a, c.proposal) && IsTopic(c.proposal.topic) && IsMemoryName(TopicPath(c.proposal.topic))
    requires ValidLedger(EntriesOf(a.ledger))
    ensures AlreadyThere(Effect(a, c), c.proposal) <==>
            c.proposal.decision == Patch ||
            Occurrences(a.contents[INDEX] + Separator(a.contents[INDEX]), IndexLine(c.proposal.topic)) == 0
  {
    var p := c.proposal;
    TopicNamesLeaf(p.topic);
    LedgerAfterSpec(a.ledger, TopicPath(p.topic), Sha256(p.content + "\n"), p.key, c.now);
    if p.decision == Create {
      IndexLineShape(p.topic);
      AppendedOccurrence(a.contents[INDEX] + Separator(a.contents[INDEX]), IndexLine(p.topic));
    }
  }
}
