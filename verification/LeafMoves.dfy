/**
  What becomes of the memory leaves while the applier runs: the edits of other programs, in the order
  of the schedule, and the applier's own writes between them. Nothing else changes a leaf.
 */
module LeafMoves {
  import opened Wrappers
  import opened ManagedLedger
  import opened ApplyJournal

  datatype Move = Others(edits: map<Path, Option<Leaf>>) | Own(write: LeafWrite)

  function Made(files: Files, m: Move): Files {
    match m
    case Others(edits) => Edited(files, edits)
    case Own(w) => if w.put.Some? then files[w.path := w.put.value] else files - {w.path}
  }

  function Play(files: Files, moves: seq<Move>): Files {
    if moves == [] then files else Made(Play(files, moves[..|moves| - 1]), moves[|moves| - 1])
  }

  /** Every own write replaces the very leaf it was compared with. */
  ghost predicate Fitting(files: Files, moves: seq<Move>) {
    moves != [] ==>
      var n := |moves| - 1;
      && Fitting(files, moves[..n])
      && (moves[n].Own? ==> LeafAt(Play(files, moves[..n]), moves[n].write.path) == moves[n].write.was)
  }

  function Writes(moves: seq<Move>): seq<LeafWrite> {
    if moves == [] then []
    else
      var n := |moves| - 1;
      Writes(moves[..n]) + if moves[n].Own? then [moves[n].write] else []
  }

  function EditsIn(moves: seq<Move>): seq<map<Path, Option<Leaf>>> {
    if moves == [] then []
    else
      var n := |moves| - 1;
      EditsIn(moves[..n]) + if moves[n].Others? then [moves[n].edits] else []
  }

  function EditsOf(s: seq<Tick>): seq<map<Path, Option<Leaf>>> {
    seq(|s|, i requires 0 <= i < |s| => s[i].edits)
  }

  /** The moves lead from these files to those and use up just this part of the schedule. */
  ghost predicate Led(files: Files, s: seq<Tick>, moves: seq<Move>, files': Files, s': seq<Tick>) {
    && files' == Play(files, moves) && Fitting(files, moves)
    && Remainder(s, s') && EditsIn(moves) == EditsOf(s[..|s| - |s'|])
  }

  // ----- the trace of a host -----

  /** The trace tells how the files came about, which writes were logged, and which ticks were used up. */
  ghost predicate Tells(origin: Files, trace: seq<Move>, files: Files, log: seq<LeafWrite>, consumed: seq<Tick>) {
    && files == Play(origin, trace) && Fitting(origin, trace)
    && Writes(trace) == log && EditsIn(trace) == EditsOf(consumed)
  }

  lemma NothingTold(origin: Files)
    ensures Tells(origin, [], origin, [], [])
  {
  }

  lemma OthersMove(origin: Files, trace: seq<Move>, files: Files, log: seq<LeafWrite>, consumed: seq<Tick>, t: Tick)
    requires Tells(origin, trace, files, log, consumed)
    ensures Tells(origin, trace + [Others(t.edits)], Edited(files, t.edits), log, consumed + [t])
  {
    assert (trace + [Others(t.edits)])[..|trace|] == trace;
    assert EditsOf(consumed + [t]) == EditsOf(consumed) + [t.edits];
  }

  lemma OwnMove(origin: Files, trace: seq<Move>, files: Files, log: seq<LeafWrite>, consumed: seq<Tick>, w: LeafWrite)
    requires Tells(origin, trace, files, log, consumed) && LeafAt(files, w.path) == w.was
    ensures Tells(origin, trace + [Own(w)], Made(files, Own(w)), log + [w], consumed)
  {
    assert (trace + [Own(w)])[..|trace|] == trace;
  }

  lemma {:induction false} PlayConcat(files: Files, a: seq<Move>, b: seq<Move>)
    ensures Play(files, a + b) == Play(Play(files, a), b)
    ensures Fitting(files, a + b) ==> Fitting(Play(files, a), b)
    ensures Writes(a + b) == Writes(a) + Writes(b)
    ensures EditsIn(a + b) == EditsIn(a) + EditsIn(b)
  {
    if b == [] {
      assert a + b == a;
    } else {
      var n := |b| - 1;
      assert (a + b)[..|a + b| - 1] == a + b[..n] && (a + b)[|a + b| - 1] == b[n];
      PlayConcat(files, a, b[..n]);
    }
  }

  /** Two points of one trace: what happened in between. */
  lemma LedSince(
    origin: Files, was: seq<Move>, trace: seq<Move>, files: Files, files': Files, log: seq<LeafWrite>,
    log': seq<LeafWrite>, consumed: seq<Tick>, consumed': seq<Tick>, s: seq<Tick>, s': seq<Tick>)
    requires Tells(origin, was, files, log, consumed) && Tells(origin, trace, files', log', consumed')
    requires was <= trace && consumed' + s' == consumed + s
    ensures Led(files, s, trace[|was|..], files', s') && log' == log + Writes(trace[|was|..])
  {
    var moves := trace[|was|..];
    assert trace == was + moves;
    PlayConcat(origin, was, moves);
    hide Play, Fitting, Writes, EditsIn;
    var n := |consumed|;
    assert |EditsOf(consumed')| == |EditsOf(consumed)| + |EditsIn(moves)|;
    assert n <= |consumed'| && |s'| == |s| - (|consumed'| - n);
    var used := |consumed'| - n;
    assert consumed' == (consumed + s)[..|consumed'|] && s' == (consumed + s)[|consumed'|..];
    assert consumed' == consumed + s[..used] && s' == s[used..];
    assert EditsIn(moves) == EditsOf(consumed')[n..] == EditsOf(s[..used]);
  }

  lemma NothingMoved(files: Files, s: seq<Tick>)
    ensures Led(files, s, [], files, s) && Writes([]) == []
  {
    assert s[..0] == [];
  }

  // ----- what stays -----

  /** No other program touches this leaf. */
  ghost predicate Untouched(edits: seq<map<Path, Option<Leaf>>>, p: Path) { forall e :: e in edits ==> p !in e }

  /** A leaf that others leave alone and that is no place of these writes stays as it is. */
  lemma {:induction false} OtherLeavesStay(files: Files, moves: seq<Move>, p: Path)
    requires Untouched(EditsIn(moves), p) && forall w :: w in Writes(moves) ==> w.path != p
    ensures LeafAt(Play(files, moves), p) == LeafAt(files, p)
  {
    if moves != [] {
      var n := |moves| - 1;
      OtherLeavesStay(files, moves[..n], p);
      MoveLeaves(Play(files, moves[..n]), moves[n], p);
      if moves[n].Own? { assert moves[n].write in Writes(moves); } else { assert moves[n].edits in EditsIn(moves); }
    }
  }

  lemma MoveLeaves(files: Files, m: Move, p: Path)
    ensures m.Own? && m.write.path != p ==> LeafAt(Made(files, m), p) == LeafAt(files, p)
    ensures m.Others? && p !in m.edits ==> LeafAt(Made(files, m), p) == LeafAt(files, p)
  {
  }

  /**
    Writes that only ever replace one content leave any other content alone, as long as no other
    program touches the leaf: rolling back does not disturb a third content.
   */
  lemma {:induction false} ThirdContentStays(files: Files, moves: seq<Move>, p: Path, ours: Bytes)
    requires Fitting(files, moves) && Untouched(EditsIn(moves), p)
    requires forall w :: w in Writes(moves) && w.path == p ==> BytesOf(w.was) == Some(ours)
    requires ContentAt(files, p) != Some(ours)
    ensures LeafAt(Play(files, moves), p) == LeafAt(files, p)
  {
    if moves != [] {
      var n := |moves| - 1;
      ThirdContentStays(files, moves[..n], p, ours);
      MoveLeaves(Play(files, moves[..n]), moves[n], p);
      if moves[n].Own? { assert moves[n].write in Writes(moves); } else { assert moves[n].edits in EditsIn(moves); }
    }
  }

  /** The same for a rollback: under any edits elsewhere, a content that is not the journal's own stays. */
  lemma RollbackSparesOthers(
    j: Journal, i: nat, files: Files, s: seq<Tick>, moves: seq<Move>, files': Files, s': seq<Tick>)
    requires JournalValid(j) && i < |j.files| && Led(files, s, moves, files', s') && BackWrites(j.files, Writes(moves))
    requires Untouched(EditsIn(moves), j.files[i].path) && ContentAt(files, j.files[i].path) != Some(j.files[i].after)
    ensures LeafAt(files', j.files[i].path) == LeafAt(files, j.files[i].path)
  {
    var p := j.files[i].path;
    forall w | w in Writes(moves) && w.path == p ensures BytesOf(w.was) == Some(j.files[i].after) {
      var k :| 0 <= k < |j.files| && BackWrite(j.files[k], w);
      assert k == i;
    }
    ThirdContentStays(files, moves, p, j.files[i].after);
  }
}
