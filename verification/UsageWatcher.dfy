/** The usage watcher: a transcript followed from its end, poll by poll, with bursts that are skipped unread. */
module UsageWatcher {
  import opened LineFraming

  const MAX_SCAN_BYTES: nat := 256 * 1024
  const MAX_LINE_BYTES: nat := 64 * 1024

  /** A skipped burst. Only its last byte is probed, to learn whether it ends a row. */
  function Burst(bytes: seq<Byte>, probed: bool): (cells: seq<Cell>)
    requires bytes != []
  {
    seq(|bytes|, i requires 0 <= i < |bytes| => Lost(IsNewline(bytes[i]) && (probed || i < |bytes| - 1)))
  }

  /** What one poll meets of the bytes it finds, if the reads get as far as filled. */
  function Met(bytes: seq<Byte>, probed: bool, filled: nat): seq<Cell>
    requires filled <= |bytes|
  {
    if |bytes| > MAX_SCAN_BYTES then Burst(bytes, probed) else Plain(bytes[..filled])
  }

  /** Every cell tells the truth about its byte, though a lost one may hide a newline. */
  ghost predicate Describes(cells: seq<Cell>, bytes: seq<Byte>) {
    && |cells| <= |bytes|
    && forall i :: 0 <= i < |cells| ==>
         match cells[i]
         case Seen(b) => b == bytes[i]
         case Lost(newline) => newline ==> bytes[i] == NEWLINE
  }

  class Transcript {
    var offset: nat
    var pending: seq<Byte>
    var skipOversizedLine: bool
    ghost const base: nat
    ghost var cells: seq<Cell>

    ghost predicate Valid()
      reads this
    {
      offset == base + |cells| && Follows(MAX_LINE_BYTES, cells, pending, skipOversizedLine)
    }

    /** openTranscript: what the file already holds is not read. */
    constructor (size: nat)
      ensures Valid() && offset == base == size && cells == []
    {
      offset, pending, skipOversizedLine := size, [], false;
      base, cells := size, [];
    }

    /** counts: what successive reads return; past the list, as many bytes as were asked for. */
    method ReadAppendedLines(file: seq<Byte>, counts: seq<nat>, probed: bool) returns (lines: seq<seq<Byte>>)
      requires Valid()
      modifies this
      ensures Valid()
      ensures Kept(MAX_LINE_BYTES, Complete(cells, EndsRow)) == old(Kept(MAX_LINE_BYTES, Complete(cells, EndsRow)))
                + lines
      ensures |file| < old(offset) ==> offset == old(offset) && cells == old(cells)
      ensures |file| >= old(offset) ==>
                && old(offset) <= offset <= |file|
                && cells == old(cells) + Met(file[old(offset)..], probed, offset - old(offset))
      ensures 0 !in counts && |file| >= old(offset) ==> offset == |file|
    {
      hide Complete, Kept, Rows, Tail, AfterSkip, Split, Plain;
      if |file| <= offset { return []; }
      var growth := |file| - offset;
      if growth > MAX_SCAN_BYTES {
        assert Burst(file[offset..], probed)[growth - 1] == Lost(probed && file[|file| - 1] == NEWLINE);
        SkipBurst(MAX_LINE_BYTES, cells, Burst(file[offset..], probed));
        cells := cells + Burst(file[offset..], probed);
        offset, pending := |file|, [];
        skipOversizedLine := !probed || file[|file| - 1] != NEWLINE;
        return [];
      }
      var filled, turn := 0, 0;
      while filled < growth
        invariant filled <= growth
        decreases growth - filled
      {
        var count := if turn < |counts| && counts[turn] < growth - filled then counts[turn] else growth - filled;
        if count == 0 { break; }
        filled, turn := filled + count, turn + 1;
      }
      var chunk := file[offset..offset + filled];
      assert Met(file[offset..], probed, filled) == Plain(chunk) by { assert file[offset..][..filled] == chunk; }
      var unread := pending + chunk;
      ReadOn(MAX_LINE_BYTES, cells, pending, skipOversizedLine, chunk);
      lines, pending, skipOversizedLine := TakeLines(MAX_LINE_BYTES, unread, skipOversizedLine);
      offset, cells := offset + filled, cells + Plain(chunk);
    }
  }

  datatype Poll = Poll(appended: seq<Byte>, counts: seq<nat>, probed: bool)

  function Appended(polls: seq<Poll>): seq<Byte> {
    if polls == [] then [] else Appended(polls[..|polls| - 1]) + polls[|polls| - 1].appended
  }

  /** No poll meets a burst or a read that returns nothing. */
  ghost predicate Smooth(polls: seq<Poll>) {
    forall i :: 0 <= i < |polls| ==> |polls[i].appended| <= MAX_SCAN_BYTES && 0 !in polls[i].counts
  }

  lemma MetDescribes(cells: seq<Cell>, known: seq<Byte>, more: seq<Byte>, probed: bool, filled: nat)
    requires Describes(cells, known) && filled <= |known + more| - |cells|
    ensures Describes(cells + Met((known + more)[|cells|..], probed, filled), known + more)
    ensures cells == Plain(known) && |more| <= MAX_SCAN_BYTES && filled == |more| ==>
              cells + Met((known + more)[|cells|..], probed, filled) == Plain(known + more)
  {
  }

  /**
    Poll k takes the cells from cuts[k] on: all that is unread, unless its reads stop early, and nothing in between is
    passed over.
   */
  ghost predicate Polled(polls: seq<Poll>, cells: seq<Cell>, cuts: seq<nat>, k: nat)
    requires k < |polls| && k + 1 < |cuts|
  {
    var known := Appended(polls[..k + 1]);
    && cuts[k] <= cuts[k + 1] <= |cells| && cuts[k + 1] <= |known|
    && cells[cuts[k]..cuts[k + 1]] == Met(known[cuts[k]..], polls[k].probed, cuts[k + 1] - cuts[k])
    && (0 !in polls[k].counts ==> cuts[k + 1] == |known|)
  }

  lemma MetPersists(polls: seq<Poll>, cells: seq<Cell>, cuts: seq<nat>, k: nat, longer: seq<Cell>, more: seq<nat>)
    requires k < |polls| && k + 1 < |cuts| && Polled(polls, cells, cuts, k) && cells <= longer && cuts <= more
    ensures Polled(polls, longer, more, k)
  {
    hide Met, Appended;
    assert more[k] == cuts[k] && more[k + 1] == cuts[k + 1];
    assert longer[cuts[k]..cuts[k + 1]] == cells[cuts[k]..cuts[k + 1]];
  }

  /** The polls up to the last cut took these cells. */
  ghost predicate Record(polls: seq<Poll>, cells: seq<Cell>, cuts: seq<nat>) {
    && 0 < |cuts| <= |polls| + 1 && cuts[0] == 0 && cuts[|cuts| - 1] == |cells|
    && forall k :: 0 <= k < |cuts| - 1 ==> Polled(polls, cells, cuts, k)
  }

  lemma RecordOn(polls: seq<Poll>, cells: seq<Cell>, cuts: seq<nat>, longer: seq<Cell>, taken: nat)
    requires Record(polls, cells, cuts) && |cuts| <= |polls|
    requires var known, poll := Appended(polls[..|cuts|]), polls[|cuts| - 1];
      && |longer| == |cells| + taken <= |known| && longer == cells + Met(known[|cells|..], poll.probed, taken)
      && (0 !in poll.counts ==> |longer| == |known|)
    ensures Record(polls, longer, cuts + [|longer|])
  {
    hide Met, Appended;
    var more := cuts + [|longer|];
    forall k | 0 <= k < |cuts| ensures Polled(polls, longer, more, k) {
      if k < |cuts| - 1 {
        MetPersists(polls, cells, cuts, k, longer, more);
      } else {
        assert longer[|cells|..|longer|] == Met(Appended(polls[..|cuts|])[|cells|..], polls[k].probed, taken);
      }
    }
  }

  /** What a poll finds of the file behind what was there before the reading started. */
  lemma FileBehind(before: seq<Byte>, known: seq<Byte>, more: seq<Byte>, n: nat)
    requires n <= |known|
    ensures (before + known) + more == before + (known + more)
    ensures (before + (known + more))[|before| + n..] == (known + more)[n..]
  {
  }

  lemma AppendedNext(polls: seq<Poll>, i: nat)
    requires i < |polls|
    ensures Appended(polls[..i + 1]) == Appended(polls[..i]) + polls[i].appended
  {
    assert polls[..i + 1][..i] == polls[..i];
  }

  /**
    Over any polls the lines handed out are exactly the complete rows of 1 to 64 KiB of which nothing
    was lost; without bursts and failed reads they are those of a plain split of what was appended,
    however the appended bytes were cut into polls and reads.
   */
  method Watch(before: seq<Byte>, polls: seq<Poll>)
    returns (lines: seq<seq<Byte>>, ghost cells: seq<Cell>, ghost cuts: seq<nat>)
    ensures lines == Kept(MAX_LINE_BYTES, Complete(cells, EndsRow))
    ensures |cuts| == |polls| + 1 && Record(polls, cells, cuts)
    ensures Describes(cells, Appended(polls))
    ensures Smooth(polls) ==> lines == Rows(MAX_LINE_BYTES, Complete(Appended(polls), IsNewline))
  {
    hide Complete, Kept, Rows, Met, Plain, Describes, Follows, Record, Appended;
    var transcript := new Transcript(|before|);
    var file := before;
    lines, cuts := [], [0];
    NothingYet(polls);
    assert polls[..0] == [] && before + [] == before;
    for i := 0 to |polls|
      invariant fresh(transcript) && transcript.Valid() && transcript.base == |before|
      invariant file == before + Appended(polls[..i])
      invariant lines == Kept(MAX_LINE_BYTES, Complete(transcript.cells, EndsRow))
      invariant |transcript.cells| <= |Appended(polls[..i])| && Describes(transcript.cells, Appended(polls[..i]))
      invariant |cuts| == i + 1 && Record(polls, transcript.cells, cuts)
      invariant Smooth(polls) ==> transcript.cells == Plain(Appended(polls[..i]))
    {
      AppendedNext(polls, i);
      ghost var known, more, was, at := Appended(polls[..i]), polls[i].appended, transcript.cells, transcript.offset;
      FileBehind(before, known, more, |was|);
      file := file + polls[i].appended;
      var found := transcript.ReadAppendedLines(file, polls[i].counts, polls[i].probed);
      MetDescribes(was, known, more, polls[i].probed, transcript.offset - at);
      RecordOn(polls, was, cuts, transcript.cells, transcript.offset - at);
      lines := lines + found;
      cuts := cuts + [|transcript.cells|];
    }
    cells := transcript.cells;
    assert polls[..|polls|] == polls;
    SplitPlain(Appended(polls));
    KeptPlain(MAX_LINE_BYTES, Complete(Appended(polls), IsNewline));
  }

  lemma NothingYet(polls: seq<Poll>)
    ensures Record(polls, [], [0]) && Appended([]) == []
    ensures Kept(MAX_LINE_BYTES, Complete([], EndsRow)) == []
    ensures Describes([], []) && Plain([]) == []
  {
  }
}
