/**
  Two readers cut a growing transcript into JSONL rows: they keep an unfinished row between reads and,
  once it grows past a limit, skip to its end. Both must find the rows a plain split would find.
 */
module LineFraming {
  newtype Byte = x: int | 0 <= x < 256
  const NEWLINE: Byte := 0x0a

  predicate IsNewline(b: Byte) { b == NEWLINE }

  /** The plain split: every line keeps its terminator, the last one is whatever follows the final terminator. */
  function Split<T>(s: seq<T>, ends: T -> bool): (lines: seq<seq<T>>)
    ensures |lines| > 0
  {
    if s == [] then [[]]
    else
      var rest := Split(s[1..], ends);
      if ends(s[0]) then [[s[0]]] + rest else [[s[0]] + rest[0]] + rest[1..]
  }

  function Complete<T>(s: seq<T>, ends: T -> bool): seq<seq<T>> {
    var lines := Split(s, ends);
    lines[..|lines| - 1]
  }

  function Tail<T>(s: seq<T>, ends: T -> bool): seq<T> {
    var lines := Split(s, ends);
    lines[|lines| - 1]
  }

  /** The texts of the lines that are neither empty nor longer than the limit. */
  function Rows(limit: nat, lines: seq<seq<Byte>>): seq<seq<Byte>> {
    if lines == [] then []
    else
      var text := if lines[0] == [] then [] else lines[0][..|lines[0]| - 1];
      (if 1 <= |text| <= limit then [text] else []) + Rows(limit, lines[1..])
  }

  // ----- splitting -----

  /** One more element in front: a line of its own if it ends one, else the start of the first line. */
  function Cons<T>(e: T, lines: seq<seq<T>>, apart: bool): seq<seq<T>>
    requires lines != []
  {
    if apart then [[e]] + lines else [[e] + lines[0]] + lines[1..]
  }

  lemma SplitStep<T>(e: T, s: seq<T>, ends: T -> bool)
    ensures Split([e] + s, ends) == Cons(e, Split(s, ends), ends(e))
  {
    assert ([e] + s)[1..] == s;
  }

  lemma ConsConcat<T>(e: T, a: seq<seq<T>>, d: seq<seq<T>>, apart: bool)
    requires a != [] && d != []
    ensures var w, v := Cons(e, a, apart), Cons(e, a[..|a| - 1] + d, apart);
            && w != []
            && if apart || |a| > 1 then v == w[..|w| - 1] + d && w[|w| - 1] == a[|a| - 1]
               else w == [[e] + a[|a| - 1]] && v == Cons(e, d, apart)
  {
    if apart {
      assert ([[e]] + a)[..|a|] == [[e]] + a[..|a| - 1];
    } else if |a| > 1 {
      assert (a[..|a| - 1] + d)[1..] == a[1..][..|a| - 2] + d;
    } else {
      assert a[..|a| - 1] + d == d;
    }
  }

  lemma SplitConcatStep<T>(e: T, more: seq<T>, y: seq<T>, ends: T -> bool)
    requires Split(more + y, ends) == Complete(more, ends) + Split(Tail(more, ends) + y, ends)
    ensures Split([e] + (more + y), ends) == Complete([e] + more, ends) + Split(Tail([e] + more, ends) + y, ends)
  {
    hide Split, Cons;
    var tail := Tail(more, ends);
    SplitStep(e, more, ends);
    SplitStep(e, more + y, ends);
    ConsConcat(e, Split(more, ends), Split(tail + y, ends), ends(e));
    if !ends(e) && |Split(more, ends)| == 1 {
      SplitStep(e, tail + y, ends);
      assert Tail([e] + more, ends) + y == [e] + (tail + y);
      assert Complete([e] + more, ends) == [];
    }
  }

  lemma {:induction false} SplitConcat<T>(x: seq<T>, y: seq<T>, ends: T -> bool)
    ensures Split(x + y, ends) == Complete(x, ends) + Split(Tail(x, ends) + y, ends)
  {
    if x == [] {
      assert x + y == y && Tail(x, ends) + y == y;
    } else {
      SplitConcat(x[1..], y, ends);
      hide Split, Complete, Tail;
      SplitConcatStep(x[0], x[1..], y, ends);
      assert [x[0]] + x[1..] == x && [x[0]] + (x[1..] + y) == x + y;
    }
  }

  lemma {:induction false} SplitOpen<T>(x: seq<T>, y: seq<T>, ends: T -> bool)
    requires forall i :: 0 <= i < |x| ==> !ends(x[i])
    ensures Split(x + y, ends) == [x + Split(y, ends)[0]] + Split(y, ends)[1..]
  {
    if x == [] {
      assert x + y == y && x + Split(y, ends)[0] == Split(y, ends)[0];
    } else {
      assert (x + y)[1..] == x[1..] + y;
      SplitOpen(x[1..], y, ends);
      assert [x[0]] + (x[1..] + Split(y, ends)[0]) == x + Split(y, ends)[0];
    }
  }

  ghost predicate IsLine<T>(line: seq<T>, ends: T -> bool) { line != [] && ends(line[|line| - 1]) }

  lemma {:induction false} LinesEnd<T>(s: seq<T>, ends: T -> bool)
    ensures forall k :: 0 <= k < |Complete(s, ends)| ==> IsLine(Complete(s, ends)[k], ends)
  {
    if s != [] {
      LinesEnd(s[1..], ends);
      var rest := Complete(s[1..], ends);
      if ends(s[0]) {
        assert Complete(s, ends) == [[s[0]]] + rest;
      } else if rest != [] {
        assert IsLine(rest[0], ends);
        assert Complete(s, ends) == [[s[0]] + rest[0]] + rest[1..];
      }
    }
  }

  /** The tail holds no terminator and ends as the text ends. */
  lemma {:induction false} TailShape<T>(s: seq<T>, ends: T -> bool)
    ensures forall i :: 0 <= i < |Tail(s, ends)| ==> !ends(Tail(s, ends)[i])
    ensures Tail(s, ends) == [] <==> s == [] || ends(s[|s| - 1])
    ensures Tail(s, ends) != [] ==> Tail(s, ends)[|Tail(s, ends)| - 1] == s[|s| - 1]
  {
    if s == [] {
      TailOfNothing(ends);
    } else {
      hide Tail, Complete;
      TailShape(s[1..], ends);
      TailStep(s[0], s[1..], ends);
      assert s == [s[0]] + s[1..];
      if !ends(s[0]) && Complete(s[1..], ends) == [] {
        TailGrows(s[0], Tail(s[1..], ends), ends);
      }
    }
  }

  lemma TailOfNothing<T>(ends: T -> bool)
    ensures Tail([], ends) == []
  {
  }

  lemma TailGrows<T>(e: T, tail: seq<T>, ends: T -> bool)
    requires !ends(e) && forall i :: 0 <= i < |tail| ==> !ends(tail[i])
    ensures forall i :: 0 <= i < |[e] + tail| ==> !ends(([e] + tail)[i])
    ensures ([e] + tail)[|tail|] == if tail == [] then e else tail[|tail| - 1]
  {
  }

  lemma TailStep<T>(e: T, s: seq<T>, ends: T -> bool)
    ensures Tail([e] + s, ends) == if !ends(e) && Complete(s, ends) == [] then [e] + Tail(s, ends) else Tail(s, ends)
  {
    SplitStep(e, s, ends);
    hide Split;
  }

  lemma {:induction false} RowsConcat(limit: nat, a: seq<seq<Byte>>, b: seq<seq<Byte>>)
    ensures Rows(limit, a + b) == Rows(limit, a) + Rows(limit, b)
  {
    if a == [] {
      assert a + b == b;
    } else {
      assert (a + b)[1..] == a[1..] + b;
      RowsConcat(limit, a[1..], b);
    }
  }

  // ----- one step of a reader -----

  /** indexOf(0x0a) */
  function FirstNewline(s: seq<Byte>): (i: int)
    ensures -1 <= i < |s|
    ensures i >= 0 ==> s[i] == NEWLINE && NEWLINE !in s[..i]
    ensures i < 0 ==> NEWLINE !in s
  {
    if s == [] then -1
    else if s[0] == NEWLINE then 0
    else
      var i := FirstNewline(s[1..]);
      if i < 0 then -1 else i + 1
  }

  lemma {:induction false} SplitLine<T>(x: seq<T>, e: T, y: seq<T>, ends: T -> bool)
    requires ends(e) && forall i :: 0 <= i < |x| ==> !ends(x[i])
    ensures Complete(x + [e] + y, ends) == [x + [e]] + Complete(y, ends)
    ensures Tail(x + [e] + y, ends) == Tail(y, ends)
  {
    SplitOpen(x, [e] + y, ends);
    assert ([e] + y)[1..] == y && x + [e] + y == x + ([e] + y);
  }

  lemma FirstLine(s: seq<Byte>)
    ensures FirstNewline(s) < 0 ==> Complete(s, IsNewline) == [] && Tail(s, IsNewline) == s
    ensures FirstNewline(s) >= 0 ==>
              var i := FirstNewline(s);
              && Complete(s, IsNewline) == [s[..i + 1]] + Complete(s[i + 1..], IsNewline)
              && Tail(s, IsNewline) == Tail(s[i + 1..], IsNewline)
  {
    hide Split, Complete, Tail, FirstNewline;
    var i := FirstNewline(s);
    if i < 0 {
      OpenLine(s);
    } else {
      SplitLine(s[..i], s[i], s[i + 1..], IsNewline);
      LineParts(s, i);
    }
  }

  /** Without a newline all of it is the last line. */
  lemma OpenLine(s: seq<Byte>)
    requires NEWLINE !in s
    ensures Complete(s, IsNewline) == [] && Tail(s, IsNewline) == s
  {
    SplitOpen(s, [], IsNewline);
    assert s + [] == s;
  }

  lemma LineParts(s: seq<Byte>, i: nat)
    requires i < |s|
    ensures s[..i] + [s[i]] == s[..i + 1] && s[..i + 1] + s[i + 1..] == s
  {
  }

  /** What is left of the lines once the end of a skipped one is dropped. */
  function AfterSkip(lines: seq<seq<Byte>>, skip: bool): seq<seq<Byte>> {
    if skip && lines != [] then lines[1..] else lines
  }

  lemma NextLine(limit: nat, line: seq<Byte>, rest: seq<seq<Byte>>, skip: bool)
    requires line != []
    ensures Rows(limit, AfterSkip([line] + rest, skip)) ==
            (if !skip && 1 <= |line| - 1 <= limit then [line[..|line| - 1]] else [])
                + Rows(limit, AfterSkip(rest, false))
  {
    assert ([line] + rest)[1..] == rest;
  }

  lemma NoLine(limit: nat, skip: bool)
    ensures Rows(limit, AfterSkip([], skip)) == []
  {
  }

  /** The inner loop of both readers, and the reset of an unfinished row that has grown past the limit. */
  method TakeLines(limit: nat, unread: seq<Byte>, skip: bool)
    returns (rows: seq<seq<Byte>>, pending: seq<Byte>, skipping: bool)
    ensures rows == Rows(limit, AfterSkip(Complete(unread, IsNewline), skip))
    ensures var tail := Tail(unread, IsNewline);
            if |tail| > limit then pending == [] && skipping
            else pending == tail && skipping == (skip && Complete(unread, IsNewline) == [])
  {
    hide Split, Complete, Tail, FirstNewline, Rows, AfterSkip;
    rows, pending, skipping := [], unread, skip;
    var newline := FirstNewline(pending);
    while newline >= 0
      invariant newline == FirstNewline(pending)
      invariant Tail(unread, IsNewline) == Tail(pending, IsNewline)
      invariant Rows(limit, AfterSkip(Complete(unread, IsNewline), skip)) == rows
                  + Rows(limit, AfterSkip(Complete(pending, IsNewline), skipping))
      invariant (skip && Complete(unread, IsNewline) == []) == (skipping && Complete(pending, IsNewline) == [])
      decreases |pending|
    {
      FirstLine(pending);
      var line := pending[..newline];
      assert pending[..newline + 1][..newline] == line;
      NextLine(limit, pending[..newline + 1], Complete(pending[newline + 1..], IsNewline), skipping);
      pending := pending[newline + 1..];
      if skipping {
        skipping := false;
      } else if 1 <= |line| <= limit {
        rows := rows + [line];
      }
      newline := FirstNewline(pending);
    }
    FirstLine(pending);
    NoLine(limit, skipping);
    if |pending| > limit {
      pending, skipping := [], true;
    }
  }

  // ----- what has been read so far -----

  /** A byte of the transcript as the reader met it: read, or inside a burst too large to scan. */
  datatype Cell = Seen(byte: Byte) | Lost(newline: bool)

  predicate EndsRow(c: Cell) {
    match c
    case Seen(b) => b == NEWLINE
    case Lost(newline) => newline
  }

  predicate Legible(line: seq<Cell>) { forall i :: 0 <= i < |line| ==> line[i].Seen? }

  function Plain(bytes: seq<Byte>): (cells: seq<Cell>)
    ensures |cells| == |bytes|
  {
    seq(|bytes|, i requires 0 <= i < |bytes| => Seen(bytes[i]))
  }

  function Bytes(line: seq<Cell>): seq<Byte> {
    seq(|line|, i requires 0 <= i < |line| => if line[i].Seen? then line[i].byte else NEWLINE)
  }

  /** The texts of the rows of which no byte, terminator included, was lost, and whose length is within bounds. */
  function Kept(limit: nat, lines: seq<seq<Cell>>): seq<seq<Byte>> {
    if lines == [] then []
    else
      var text := if lines[0] == [] then [] else lines[0][..|lines[0]| - 1];
      (if Legible(lines[0]) && 1 <= |text| <= limit then [Bytes(text)] else []) + Kept(limit, lines[1..])
  }

  function PlainLines(lines: seq<seq<Byte>>): seq<seq<Cell>> {
    if lines == [] then [] else [Plain(lines[0])] + PlainLines(lines[1..])
  }

  lemma {:induction false} KeptConcat(limit: nat, a: seq<seq<Cell>>, b: seq<seq<Cell>>)
    ensures Kept(limit, a + b) == Kept(limit, a) + Kept(limit, b)
  {
    if a == [] {
      assert a + b == b;
    } else {
      assert (a + b)[1..] == a[1..] + b;
      KeptConcat(limit, a[1..], b);
    }
  }

  /** Where nothing was lost, the kept rows are the rows of the plain split. */
  lemma {:induction false} KeptPlain(limit: nat, lines: seq<seq<Byte>>)
    ensures Kept(limit, PlainLines(lines)) == Rows(limit, lines)
  {
    if lines != [] {
      KeptPlain(limit, lines[1..]);
      assert PlainLines(lines)[1..] == PlainLines(lines[1..]);
      if lines[0] != [] {
        assert Bytes(Plain(lines[0])[..|lines[0]| - 1]) == lines[0][..|lines[0]| - 1];
      }
    }
  }

  lemma {:induction false} SplitPlain(bytes: seq<Byte>)
    ensures Complete(Plain(bytes), EndsRow) == PlainLines(Complete(bytes, IsNewline))
    ensures Tail(Plain(bytes), EndsRow) == Plain(Tail(bytes, IsNewline))
  {
    var i := FirstNewline(bytes);
    FirstLine(bytes);
    if i < 0 {
      SplitOpen(Plain(bytes), [], EndsRow);
      assert Plain(bytes) + [] == Plain(bytes);
    } else {
      SplitPlain(bytes[i + 1..]);
      SplitLine(Plain(bytes[..i]), Seen(NEWLINE), Plain(bytes[i + 1..]), EndsRow);
      assert Plain(bytes[..i]) + [Seen(NEWLINE)] == Plain(bytes[..i + 1]);
      assert Plain(bytes[..i]) + [Seen(NEWLINE)] + Plain(bytes[i + 1..]) == Plain(bytes);
    }
  }

  /** No row that ends later than this tail can be kept. */
  ghost predicate Spoilt(limit: nat, tail: seq<Cell>) { |tail| > limit || !Legible(tail) }

  /** The reader's memory between two reads agrees with the unfinished row. */
  ghost predicate Follows(limit: nat, cells: seq<Cell>, pending: seq<Byte>, skip: bool) {
    && NEWLINE !in pending && |pending| <= limit
    && if skip then Spoilt(limit, Tail(cells, EndsRow)) else Tail(cells, EndsRow) == Plain(pending)
  }

  lemma CompleteConcat(cells: seq<Cell>, more: seq<Cell>)
    ensures Complete(cells + more, EndsRow) == Complete(cells, EndsRow) + Complete(Tail(cells, EndsRow) + more, EndsRow)
    ensures Tail(cells + more, EndsRow) == Tail(Tail(cells, EndsRow) + more, EndsRow)
  {
    SplitConcat(cells, more, EndsRow);
  }

  lemma SplitOpenParts<T>(x: seq<T>, y: seq<T>, ends: T -> bool)
    requires forall i :: 0 <= i < |x| ==> !ends(x[i])
    ensures Complete(y, ends) == [] ==> Complete(x + y, ends) == [] && Tail(x + y, ends) == x + Tail(y, ends)
    ensures Complete(y, ends) != [] ==>
              && Complete(x + y, ends) == [x + Complete(y, ends)[0]] + Complete(y, ends)[1..]
              && Tail(x + y, ends) == Tail(y, ends)
  {
    hide Split;
    SplitOpen(x, y, ends);
  }

  lemma SkipOn(limit: nat, cells: seq<Cell>, pending: seq<Byte>, chunk: seq<Byte>)
    requires Follows(limit, cells, pending, true)
    ensures Kept(limit, Complete(cells + Plain(chunk), EndsRow)) ==
            Kept(limit, Complete(cells, EndsRow)) + Rows(limit, AfterSkip(Complete(pending + chunk, IsNewline), true))
    ensures var tail := Tail(pending + chunk, IsNewline);
            if |tail| > limit then Follows(limit, cells + Plain(chunk), [], true)
            else Follows(limit, cells + Plain(chunk), tail, Complete(pending + chunk, IsNewline) == [])
  {
    hide Split, Complete, Tail, Rows, Kept;
    var tail := Tail(cells, EndsRow);
    CompleteConcat(cells, Plain(chunk));
    KeptConcat(limit, Complete(cells, EndsRow), Complete(tail + Plain(chunk), EndsRow));
    TailShape(pending + chunk, IsNewline);
    TailShape(cells, EndsRow);
    SplitPlain(chunk);
    SplitOpenParts(tail, Plain(chunk), EndsRow);
    SplitOpenParts(pending, chunk, IsNewline);
    var rows := Complete(chunk, IsNewline);
    if rows != [] {
      LinesEnd(chunk, IsNewline);
      assert IsLine(rows[0], IsNewline);
      SpoiltRow(limit, tail, Plain(rows[0]), PlainLines(rows[1..]));
      KeptPlain(limit, rows[1..]);
    } else {
      NoLine(limit, true);
      NoneKept(limit, []);
      StillSpoilt(limit, tail, Plain(Tail(chunk, IsNewline)));
    }
  }

  lemma StillSpoilt(limit: nat, tail: seq<Cell>, more: seq<Cell>)
    requires Spoilt(limit, tail)
    ensures Spoilt(limit, tail + more)
  {
    if !Legible(tail) {
      var i :| 0 <= i < |tail| && !tail[i].Seen?;
      assert (tail + more)[i] == tail[i];
    }
  }

  /** A further read: the rows taken from it are the rows the longer text keeps in addition. */
  lemma ReadOn(limit: nat, cells: seq<Cell>, pending: seq<Byte>, skip: bool, chunk: seq<Byte>)
    requires Follows(limit, cells, pending, skip)
    ensures Kept(limit, Complete(cells + Plain(chunk), EndsRow)) ==
            Kept(limit, Complete(cells, EndsRow)) + Rows(limit, AfterSkip(Complete(pending + chunk, IsNewline), skip))
    ensures var tail := Tail(pending + chunk, IsNewline);
            if |tail| > limit then Follows(limit, cells + Plain(chunk), [], true)
            else Follows(limit, cells + Plain(chunk), tail, skip && Complete(pending + chunk, IsNewline) == [])
  {
    hide Split, Complete, Tail, Rows, Kept;
    if skip {
      SkipOn(limit, cells, pending, chunk);
    } else {
      var tail := Tail(cells, EndsRow);
      CompleteConcat(cells, Plain(chunk));
      KeptConcat(limit, Complete(cells, EndsRow), Complete(tail + Plain(chunk), EndsRow));
      TailShape(pending + chunk, IsNewline);
      assert tail + Plain(chunk) == Plain(pending + chunk);
      SplitPlain(pending + chunk);
      KeptPlain(limit, Complete(pending + chunk, IsNewline));
    }
  }

  lemma SpoiltRow(limit: nat, tail: seq<Cell>, end: seq<Cell>, rest: seq<seq<Cell>>)
    requires Spoilt(limit, tail) && end != []
    ensures Kept(limit, [tail + end] + rest) == Kept(limit, rest)
  {
    assert ([tail + end] + rest)[1..] == rest;
    if !Legible(tail) {
      var i :| 0 <= i < |tail| && !tail[i].Seen?;
      assert (tail + end)[i] == tail[i];
    }
  }

  ghost predicate AllLost(cells: seq<Cell>) { forall i :: 0 <= i < |cells| ==> cells[i].Lost? }

  lemma {:induction false} LostLines(lost: seq<Cell>)
    requires AllLost(lost)
    ensures forall k :: 0 <= k < |Split(lost, EndsRow)| ==> AllLost(Split(lost, EndsRow)[k])
  {
    if lost != [] { LostLines(lost[1..]); }
  }

  lemma {:induction false} NoneKept(limit: nat, lines: seq<seq<Cell>>)
    requires forall k :: 0 <= k < |lines| ==> !Legible(lines[k])
    ensures Kept(limit, lines) == []
  {
    if lines != [] { NoneKept(limit, lines[1..]); }
  }

  lemma BurstKeepsNone(limit: nat, tail: seq<Cell>, lost: seq<Cell>)
    requires AllLost(lost) && forall i :: 0 <= i < |tail| ==> !EndsRow(tail[i])
    ensures Kept(limit, Complete(tail + lost, EndsRow)) == []
  {
    hide Split;
    var lines := Complete(lost, EndsRow);
    LostLines(lost);
    LinesEnd(lost, EndsRow);
    SplitOpenParts(tail, lost, EndsRow);
    var all := Complete(tail + lost, EndsRow);
    forall k | 0 <= k < |all| ensures !Legible(all[k]) {
      assert IsLine(lines[k], EndsRow) && AllLost(lines[k]);
      assert all[k][|all[k]| - 1] == lines[k][|lines[k]| - 1];
    }
    NoneKept(limit, all);
  }

  /** A skipped burst keeps no row; afterwards the reader starts afresh only if the burst is known to end a row. */
  lemma SkipBurst(limit: nat, cells: seq<Cell>, lost: seq<Cell>)
    requires lost != [] && AllLost(lost)
    ensures Kept(limit, Complete(cells + lost, EndsRow)) == Kept(limit, Complete(cells, EndsRow))
    ensures Follows(limit, cells + lost, [], lost[|lost| - 1] == Lost(false))
  {
    hide Split, Complete, Tail, Rows, Kept;
    var tail := Tail(cells, EndsRow);
    CompleteConcat(cells, lost);
    KeptConcat(limit, Complete(cells, EndsRow), Complete(tail + lost, EndsRow));
    TailShape(cells, EndsRow);
    TailShape(tail + lost, EndsRow);
    BurstKeepsNone(limit, tail, lost);
  }
}
