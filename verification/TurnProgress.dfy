/**
  The progress text of one turn: tool calls gathered into lines, their statuses, and a rendering within Telegram's
  limit.
 */
module TurnProgress {
  import opened Wrappers
  import opened OrderedMap

  const MAX_PROGRESS_CHARACTERS := 4096
  /** No JavaScript array is longer. */
  const MAX_ARRAY_LENGTH := 0x1_0000_0000

  type ToolId = nat
  type Text = string  // one char per UTF-16 code unit

  datatype Status = Running | Done | Failed
  datatype Outcome = Stop | StopFailure

  /** command: the preview is a shell command. */
  datatype ProgressStep = ProgressStep(emoji: Text, name: Text, command: bool, connector: Text, preview: Text)

  datatype StepLine = StepLine(step: ProgressStep, tools: OrdMap<ToolId, Status>)

  datatype Verbs = Verbs(active: Text, complete: Text)

  datatype Event =
    | RecordTool(id: ToolId, step: ProgressStep)
    | RecordSuccess(id: ToolId)
    | RecordFailure(id: ToolId)
    | Close(outcome: Outcome)

  // ----- one tool call, seen by itself -----

  function Terminal(outcome: Outcome): Status { if outcome == Stop then Done else Failed }

  predicate Closed(events: seq<Event>) { exists i :: 0 <= i < |events| && events[i].Close? }

  /** What becomes of one tool call, whatever else happens in the turn. */
  function StatusAfter(events: seq<Event>, id: ToolId): Option<Status> {
    if events == [] then None
    else
      var n := |events| - 1;
      var s := StatusAfter(events[..n], id);
      if Closed(events[..n]) then s
      else
        match events[n]
        case RecordTool(other, _) => if other == id && s == None then Some(Running) else s
        case RecordSuccess(other) => if other == id && s == Some(Running) then Some(Done) else s
        case RecordFailure(other) => if other == id && s == Some(Running) then Some(Failed) else s
        case Close(outcome) => if s == Some(Running) then Some(if outcome.Stop? then Done else Failed) else s
  }

  // ----- lines -----

  ghost predicate OnLine(lines: seq<StepLine>, i: nat, id: ToolId)
    requires i < |lines|
  {
    id in lines[i].tools.at
  }

  /** Every recorded tool call is on exactly one line. */
  ghost predicate Partition(lines: seq<StepLine>, seen: set<ToolId>) {
    && (forall i :: 0 <= i < |lines| ==> lines[i].tools.Valid() && lines[i].tools.keys != [])
    && (forall i, id :: 0 <= i < |lines| && OnLine(lines, i, id) ==> id in seen)
    && (forall id :: id in seen ==> exists i :: 0 <= i < |lines| && OnLine(lines, i, id))
    && (forall i, j, id :: 0 <= i < j < |lines| && OnLine(lines, i, id) ==> !OnLine(lines, j, id))
  }

  /** The status shown for a tool call: that of the first line that has it. */
  function StatusOf(lines: seq<StepLine>, id: ToolId): Option<Status> {
    if lines == [] then None
    else if id in lines[0].tools.at then Some(lines[0].tools.at[id])
    else StatusOf(lines[1..], id)
  }

  lemma {:induction false} StatusFirst(lines: seq<StepLine>, i: nat, id: ToolId)
    requires i < |lines| && OnLine(lines, i, id) && forall k :: 0 <= k < i ==> !OnLine(lines, k, id)
    ensures StatusOf(lines, id) == Some(lines[i].tools.at[id])
  {
    if i > 0 {
      assert !OnLine(lines, 0, id);
      assert forall k :: 0 <= k < i - 1 ==> OnLine(lines[1..], k, id) == OnLine(lines, k + 1, id);
      StatusFirst(lines[1..], i - 1, id);
    }
  }

  lemma {:induction false} StatusNone(lines: seq<StepLine>, id: ToolId)
    requires forall i :: 0 <= i < |lines| ==> !OnLine(lines, i, id)
    ensures StatusOf(lines, id) == None
  {
    if lines != [] {
      assert !OnLine(lines, 0, id);
      assert forall i :: 0 <= i < |lines| - 1 ==> OnLine(lines[1..], i, id) == OnLine(lines, i + 1, id);
      StatusNone(lines[1..], id);
    }
  }

  /** A change that leaves this tool call where and as it is. */
  ghost predicate Leaves(before: seq<StepLine>, after: seq<StepLine>, id: ToolId) {
    && |before| <= |after|
    && (forall i :: 0 <= i < |before| ==> OnLine(after, i, id) == OnLine(before, i, id))
    && (forall i :: 0 <= i < |before| && OnLine(before, i, id) ==> after[i].tools.at[id] == before[i].tools.at[id])
    && (forall i :: |before| <= i < |after| ==> !OnLine(after, i, id))
  }

  lemma {:induction false} StatusStays(before: seq<StepLine>, after: seq<StepLine>, id: ToolId)
    requires Leaves(before, after, id)
    ensures StatusOf(after, id) == StatusOf(before, id)
  {
    if before == [] {
      StatusNone(after, id);
    } else {
      assert OnLine(after, 0, id) == OnLine(before, 0, id);
      assert forall i :: 0 <= i < |before| - 1 ==> OnLine(before[1..], i, id) == OnLine(before, i + 1, id);
      assert forall i :: 0 <= i < |after| - 1 ==> OnLine(after[1..], i, id) == OnLine(after, i + 1, id);
      StatusStays(before[1..], after[1..], id);
    }
  }

  /** A tool call joins the last line if that shows the same step, else it opens a line. */
  function Added(lines: seq<StepLine>, id: ToolId, step: ProgressStep): seq<StepLine> {
    var n := |lines| - 1;
    if lines != [] && lines[n].step == step then lines[n := StepLine(step, lines[n].tools.Put(id, Running))]
    else lines + [StepLine(step, Empty<ToolId, Status>().Put(id, Running))]
  }

  lemma AddedJoins(lines: seq<StepLine>, id: ToolId, step: ProgressStep)
    requires lines != [] && lines[|lines| - 1].step == step
    ensures Added(lines, id, step) == lines[|lines| - 1 := StepLine(step, lines[|lines| - 1].tools.Put(id, Running))]
  {
  }

  lemma AddedOpens(lines: seq<StepLine>, id: ToolId, step: ProgressStep)
    requires lines == [] || lines[|lines| - 1].step != step
    ensures Added(lines, id, step) == lines + [StepLine(step, Empty<ToolId, Status>().Put(id, Running))]
  {
  }

  /** after differs from lines in its last line n only, which holds one more tool call. */
  ghost predicate Gains(lines: seq<StepLine>, after: seq<StepLine>, n: nat, id: ToolId) {
    && |after| == n + 1 && n <= |lines| <= n + 1 && after[n].tools.Valid() && after[n].tools.keys != []
    && (forall i :: 0 <= i < n ==> after[i] == lines[i])
    && OnLine(after, n, id) && after[n].tools.at[id] == Running
    && (forall other :: other != id ==> OnLine(after, n, other) == (n < |lines| && OnLine(lines, n, other)))
    && (forall other :: other != id && OnLine(after, n, other) ==> after[n].tools.at[other] == lines[n].tools.at[other])
  }

  lemma JoinGains(lines: seq<StepLine>, id: ToolId)
    requires lines != [] && lines[|lines| - 1].tools.Valid() && id !in lines[|lines| - 1].tools.at
    ensures var n := |lines| - 1;
              Gains(lines, lines[n := StepLine(lines[n].step, lines[n].tools.Put(id, Running))], n, id)
  {
    var n := |lines| - 1;
    PutValid(lines[n].tools, id, Running);
    assert lines[n].tools.Put(id, Running).keys == lines[n].tools.keys + [id];
    hide Distinct;
  }

  lemma OpenGains(lines: seq<StepLine>, id: ToolId, step: ProgressStep)
    ensures Gains(lines, lines + [StepLine(step, Empty<ToolId, Status>().Put(id, Running))], |lines|, id)
  {
    PutValid(Empty<ToolId, Status>(), id, Running);
    assert Empty<ToolId, Status>().Put(id, Running).keys == [id];
    hide Distinct;
  }

  lemma AddedGains(lines: seq<StepLine>, seen: set<ToolId>, id: ToolId, step: ProgressStep)
    requires Partition(lines, seen) && id !in seen
    ensures |Added(lines, id, step)| > 0 && Gains(lines, Added(lines, id, step), |Added(lines, id, step)| - 1, id)
  {
    hide Gains;
    NotOnAny(lines, seen, id);
    var n := |lines| - 1;
    if lines != [] && lines[n].step == step {
      assert !OnLine(lines, n, id);
      JoinGains(lines, id);
    } else {
      OpenGains(lines, id, step);
    }
  }

  lemma GainsPlaces(lines: seq<StepLine>, after: seq<StepLine>, n: nat, id: ToolId)
    requires Gains(lines, after, n, id) && forall i :: 0 <= i < |lines| ==> !OnLine(lines, i, id)
    ensures forall i, other :: 0 <= i <= n ==>
              OnLine(after, i, other) == if other == id then i == n else i < |lines| && OnLine(lines, i, other)
  {
    forall i, other | 0 <= i <= n
      ensures OnLine(after, i, other) == if other == id then i == n else i < |lines| && OnLine(lines, i, other)
    {
      if i < n { assert after[i] == lines[i] && OnLine(after, i, other) == OnLine(lines, i, other); }
    }
  }

  lemma GainsPartition(lines: seq<StepLine>, seen: set<ToolId>, after: seq<StepLine>, n: nat, id: ToolId)
    requires Partition(lines, seen) && id !in seen && Gains(lines, after, n, id)
    ensures Partition(after, seen + {id})
  {
    GainsPlaces(lines, after, n, id);
    assert |after| == n + 1 && (forall i :: 0 <= i < n ==> after[i] == lines[i]) && after[n].tools.Valid() &&
        after[n].tools.keys != [];
    hide Gains, OnLine;
    assert OnLine(after, n, id);
    forall other | other in seen ensures exists i :: 0 <= i < |after| && OnLine(after, i, other) {
      var i :| 0 <= i < |lines| && OnLine(lines, i, other);
      assert OnLine(after, i, other);
    }
  }

  lemma AddedKeeps(lines: seq<StepLine>, seen: set<ToolId>, id: ToolId, step: ProgressStep)
    requires Partition(lines, seen) && id !in seen
    ensures Partition(Added(lines, id, step), seen + {id})
    ensures forall other :: StatusOf(Added(lines, id, step), other) == if other == id then Some(Running)
              else StatusOf(lines, other)
  {
    hide Added, Partition;
    var after := Added(lines, id, step);
    var n := |after| - 1;
    AddedGains(lines, seen, id, step);
    GainsPartition(lines, seen, after, n, id);
    NotOnAny(lines, seen, id);
    assert forall i :: 0 <= i < n ==> OnLine(after, i, id) == OnLine(lines, i, id);
    StatusFirst(after, n, id);
    forall other | other != id ensures StatusOf(after, other) == StatusOf(lines, other) {
      assert Leaves(lines, after, other);
      StatusStays(lines, after, other);
    }
  }

  lemma NotOnAny(lines: seq<StepLine>, seen: set<ToolId>, id: ToolId)
    requires Partition(lines, seen) && id !in seen
    ensures forall i :: 0 <= i < |lines| ==> !OnLine(lines, i, id)
  {
  }

  lemma LineValid(lines: seq<StepLine>, seen: set<ToolId>, i: nat)
    requires Partition(lines, seen) && i < |lines|
    ensures lines[i].tools.Valid()
  {
  }

  function Marked(lines: seq<StepLine>, i: nat, id: ToolId, s: Status): seq<StepLine>
    requires i < |lines|
  {
    lines[i := StepLine(lines[i].step, lines[i].tools.Put(id, s))]
  }

  lemma MarkedKeeps(lines: seq<StepLine>, seen: set<ToolId>, i: nat, id: ToolId, s: Status)
    requires Partition(lines, seen) && i < |lines| && OnLine(lines, i, id)
    ensures Partition(Marked(lines, i, id, s), seen)
    ensures StatusOf(lines, id) == Some(lines[i].tools.at[id]) && StatusOf(Marked(lines, i, id, s), id) == Some(s)
    ensures forall other :: other != id ==> StatusOf(Marked(lines, i, id, s), other) == StatusOf(lines, other)
  {
    var after := Marked(lines, i, id, s);
    PutValid(lines[i].tools, id, s);
    assert SamePlaces(lines, after);
    SamePartition(lines, after, seen);
    StatusFirst(lines, i, id);
    StatusFirst(after, i, id);
    forall other | other != id ensures StatusOf(after, other) == StatusOf(lines, other) {
      assert Leaves(lines, after, other);
      StatusStays(lines, after, other);
    }
  }

  /** close turns every running call of a line terminal. */
  function Settled(at: map<ToolId, Status>, terminal: Status): map<ToolId, Status> {
    map id | id in at :: if at[id] == Running then terminal else at[id]
  }

  function Closing(lines: seq<StepLine>, terminal: Status, n: nat): seq<StepLine>
    requires n <= |lines|
  {
    seq(|lines|, i requires 0 <= i < |lines| =>
      if i < n then StepLine(lines[i].step, OrdMap(lines[i].tools.keys, Settled(lines[i].tools.at, terminal)))
          else lines[i])
  }

  /** Tool calls stay on their lines. */
  ghost predicate SamePlaces(lines: seq<StepLine>, after: seq<StepLine>) {
    && |after| == |lines|
    && (forall i :: 0 <= i < |lines| ==> after[i].tools.Valid() && after[i].tools.keys != [])
    && (forall i, id :: 0 <= i < |lines| ==> OnLine(after, i, id) == OnLine(lines, i, id))
  }

  lemma SamePartition(lines: seq<StepLine>, after: seq<StepLine>, seen: set<ToolId>)
    requires Partition(lines, seen) && SamePlaces(lines, after)
    ensures Partition(after, seen)
  {
    forall id | id in seen ensures exists i :: 0 <= i < |after| && OnLine(after, i, id) {
      var i :| 0 <= i < |lines| && OnLine(lines, i, id);
      assert OnLine(after, i, id);
    }
  }

  lemma ClosingPlaces(lines: seq<StepLine>, seen: set<ToolId>, terminal: Status)
    requires Partition(lines, seen)
    ensures SamePlaces(lines, Closing(lines, terminal, |lines|))
  {
    var after := Closing(lines, terminal, |lines|);
    forall i | 0 <= i < |lines| ensures after[i].tools.Valid() {
      assert lines[i].tools.Valid();
    }
  }

  lemma ClosingKeeps(lines: seq<StepLine>, seen: set<ToolId>, terminal: Status)
    requires Partition(lines, seen)
    ensures Partition(Closing(lines, terminal, |lines|), seen)
    ensures forall id :: StatusOf(Closing(lines, terminal, |lines|), id) ==
                         if StatusOf(lines, id) == Some(Running) then Some(terminal) else StatusOf(lines, id)
  {
    hide Closing, Partition, SamePlaces, StatusOf;
    ClosingPlaces(lines, seen, terminal);
    SamePartition(lines, Closing(lines, terminal, |lines|), seen);
    forall id {
      ClosingStatus(lines, terminal, id);
    }
  }

  lemma {:induction false} ClosingStatus(lines: seq<StepLine>, terminal: Status, id: ToolId)
    ensures StatusOf(Closing(lines, terminal, |lines|), id) ==
            if StatusOf(lines, id) == Some(Running) then Some(terminal) else StatusOf(lines, id)
  {
    if lines != [] {
      ClosingStatus(lines[1..], terminal, id);
      assert Closing(lines, terminal, |lines|)[1..] == Closing(lines[1..], terminal, |lines| - 1);
    }
  }

  // ----- rendering -----

  function Digits(n: nat): (s: Text)
    ensures s != []
  {
    if n < 10 then [(n as char) + '0'] else Digits(n / 10) + [((n % 10) as char) + '0']
  }

  function Power10(k: nat): nat { if k == 0 then 1 else 10 * Power10(k - 1) }

  lemma {:induction false} DigitsBound(n: nat, k: nat)
    requires k >= 1 && n < Power10(k)
    ensures |Digits(n)| <= k
  {
    if n >= 10 { DigitsBound(n / 10, k - 1); }
  }

  function Footer(n: nat): Text { "… +" + Digits(n) + " more steps" }

  predicate HasFailed(line: StepLine) { exists k :: k in line.tools.at && line.tools.at[k] == Failed }

  function Count(n: nat): Text { if n > 1 then " ×" + Digits(n) else "" }

  /** A single call is not counted, and two counts never look alike. */
  lemma CountTells(n: nat, m: nat)
    ensures Count(n) == "" <==> n <= 1
    ensures n != m && (n > 1 || m > 1) ==> Count(n) != Count(m)
  {
    DigitsValue(n);
    DigitsValue(m);
    if n > 1 && m > 1 && Count(n) == Count(m) {
      assert Count(n)[2..] == Digits(n) && Count(m)[2..] == Digits(m);
    }
  }

  /** The line without its mark of failure, for a count text of its own. */
  function Body(step: ProgressStep, count: Text): Text {
    if step.preview == "" then step.emoji + " " + step.name + count
    else if step.command then step.emoji + " " + step.name + count + "\n```shell\n" + step.preview + "\n```"
    else step.emoji + " " + step.name + step.connector + step.preview + count
  }

  function RenderStep(line: StepLine): Text {
    (if HasFailed(line) then "❌ " else "") + Body(line.step, Count(|line.tools.keys|))
  }

  /** header, then each line behind a line break */
  function Joined(header: Text, lines: seq<Text>): Text {
    if lines == [] then header else Joined(header, lines[..|lines| - 1]) + "\n" + lines[|lines| - 1]
  }

  function Rendered(lines: seq<StepLine>): seq<Text> {
    seq(|lines|, i requires 0 <= i < |lines| => RenderStep(lines[i]))
  }

  /** Whether line k still fits behind the lines before it, with room for the count of those after it. */
  predicate Fits(header: Text, lines: seq<Text>, k: nat)
    requires k < |lines|
  {
    var left := |lines| - k - 1;
    |Joined(header, lines[..k + 1])| + (if left > 0 then 1 + |Footer(left)| else 0) <= MAX_PROGRESS_CHARACTERS
  }

  /** The first k lines, and the count of the others if there are any. */
  function Layout(header: Text, lines: seq<Text>, k: nat): Text
    requires k <= |lines|
  {
    Joined(header, lines[..k]) + if k < |lines| then "\n" + Footer(|lines| - k) else ""
  }

  function ShownFrom(header: Text, lines: seq<Text>, k: nat): (n: nat)
    requires k <= |lines|
    ensures k <= n <= |lines|
    ensures (forall j :: k <= j < n ==> Fits(header, lines, j)) && (n < |lines| ==> !Fits(header, lines, n))
    decreases |lines| - k
  {
    if k < |lines| && Fits(header, lines, k) then ShownFrom(header, lines, k + 1) else k
  }

  /** How many lines are shown. */
  function Shown(header: Text, lines: seq<Text>): (n: nat)
    ensures n <= |lines| && (forall j :: 0 <= j < n ==> Fits(header, lines, j)) &&
              (n < |lines| ==> !Fits(header, lines, n))
  {
    ShownFrom(header, lines, 0)
  }

  /** What a reader sees. */
  function TextOf(header: Text, lines: seq<Text>): Text {
    if lines == [] then "" else Layout(header, lines, Shown(header, lines))
  }

  /** As many lines as fit, and no other number, are shown. */
  lemma ShownIs(header: Text, lines: seq<Text>, n: nat)
    requires n <= |lines| && (forall j :: 0 <= j < n ==> Fits(header, lines, j)) &&
               (n < |lines| ==> !Fits(header, lines, n))
    ensures Shown(header, lines) == n
  {
    hide Fits, Shown;
    var m := Shown(header, lines);
    assert m < |lines| ==> !Fits(header, lines, m);
  }

  lemma {:induction false} JoinedLast(header: Text, lines: seq<Text>, line: Text)
    ensures Joined(header, lines + [line]) == Joined(header, lines) + "\n" + line
  {
    assert (lines + [line])[..|lines|] == lines;
  }

  lemma EmptyJoined(header: Text, lines: seq<Text>)
    ensures lines[..0] == [] && Joined(header, []) == header
  {
  }

  lemma FitStep(header: Text, lines: seq<Text>, k: nat)
    requires k < |lines|
    ensures Joined(header, lines[..k + 1]) == Joined(header, lines[..k]) + "\n" + lines[k]
  {
    assert lines[..k + 1] == lines[..k] + [lines[k]];
    JoinedLast(header, lines[..k], lines[k]);
  }

  // ----- what a reader sees of a change -----

  /** What every presentation of a tool promises: no line looks like a count of further lines or like a failed one. */
  predicate Plain(step: ProgressStep) { step.emoji != "" && step.emoji[0] != '…' && step.emoji[0] != '❌' }

  ghost predicate AllPlain(lines: seq<StepLine>) { forall i :: 0 <= i < |lines| ==> Plain(lines[i].step) }

  /** Lines that do not begin as a count of further lines does. */
  ghost predicate Readable(lines: seq<Text>) { forall i :: 0 <= i < |lines| ==> lines[i] != "" && lines[i][0] != '…' }

  lemma RenderedReadable(lines: seq<StepLine>)
    requires AllPlain(lines)
    ensures Readable(Rendered(lines))
  {
    forall i | 0 <= i < |lines| ensures Rendered(lines)[i] != "" && Rendered(lines)[i][0] != '…' {
      assert Plain(lines[i].step);
    }
  }

  /** A layout begins with the lines before the i-th, a line break, and the first character of what comes then. */
  lemma {:induction false} LayoutAt(header: Text, lines: seq<Text>, i: nat, k: nat)
    requires i <= k <= |lines| && Readable(lines) && i < |lines|
    ensures var text, p := Layout(header, lines, k), |Joined(header, lines[..i])|;
      p + 1 < |text| && text[p + 1] == if i < k then lines[i][0] else '…'
    decreases k
  {
    var p := |Joined(header, lines[..i])|;
    if i == k {
      assert Layout(header, lines, k)[p + 1] == Footer(|lines| - k)[0];
    } else {
      JoinedAt(header, lines, i, k);
    }
  }

  lemma {:induction false} JoinedAt(header: Text, lines: seq<Text>, i: nat, k: nat)
    requires i < k <= |lines| && Readable(lines)
    ensures var text, p := Joined(header, lines[..k]), |Joined(header, lines[..i])|;
              p + 1 < |text| && text[p + 1] == lines[i][0]
    decreases k
  {
    FitStep(header, lines, k - 1);
    if i < k - 1 { JoinedAt(header, lines, i, k - 1); }
  }

  /** A longer line in place of line i. */
  ghost predicate Lengthens(lines: seq<Text>, after: seq<Text>, i: nat) {
    i < |lines| == |after| && (forall j :: 0 <= j < |lines| && j != i ==> after[j] == lines[j]) &&
        |after[i]| >= |lines[i]|
  }

  /** Lines before the changed one fit as they did, and if the changed one was hidden, it stays hidden. */
  lemma ShownKept(header: Text, lines: seq<Text>, after: seq<Text>, i: nat)
    requires Lengthens(lines, after, i)
    ensures Shown(header, lines) <= i ==> Shown(header, after) == Shown(header, lines)
    ensures Shown(header, lines) > i ==> Shown(header, after) >= i
  {
    forall j | 0 <= j < i ensures Fits(header, after, j) == Fits(header, lines, j) {
      assert after[..j + 1] == lines[..j + 1];
    }
    FitStep(header, lines, i);
    FitStep(header, after, i);
    assert after[..i] == lines[..i];
    var n := Shown(header, lines);
    if n <= i { ShownIs(header, after, n); }
  }

  /** A longer line is seen exactly if the old one was shown. */
  lemma ChangeShows(header: Text, lines: seq<Text>, after: seq<Text>, i: nat)
    requires Lengthens(lines, after, i) && Readable(lines) && Readable(after)
    requires after[i][0] != lines[i][0] || (i == |lines| - 1 && after[i] != lines[i])
    ensures TextOf(header, after) == TextOf(header, lines) <==> Shown(header, lines) <= i
  {
    hide Shown, Fits, Joined, Layout;
    var n, m := Shown(header, lines), Shown(header, after);
    ShownKept(header, lines, after, i);
    assert after[..i] == lines[..i];
    if n <= i {
      SameLayout(header, lines, after, n);
    } else if m == i || after[i][0] != lines[i][0] {
      LayoutAt(header, lines, i, n);
      LayoutAt(header, after, i, m);
    } else {
      LastDiffers(header, lines, after);
    }
  }

  lemma SameLayout(header: Text, lines: seq<Text>, after: seq<Text>, n: nat)
    requires n <= |lines| == |after| && forall j :: 0 <= j < n ==> after[j] == lines[j]
    ensures Layout(header, after, n) == Layout(header, lines, n)
  {
    assert after[..n] == lines[..n];
  }

  lemma LastDiffers(header: Text, lines: seq<Text>, after: seq<Text>)
    requires |lines| == |after| > 0 && lines[..|lines| - 1] == after[..|lines| - 1] &&
               lines[|lines| - 1] != after[|lines| - 1]
    ensures Layout(header, after, |lines|) != Layout(header, lines, |lines|)
  {
    var i := |lines| - 1;
    FitStep(header, lines, i);
    FitStep(header, after, i);
    SameEnd(Joined(header, lines[..i]) + "\n", lines[i], after[i]);
    assert Layout(header, lines, |lines|) == Joined(header, lines[..i + 1]);
    assert Layout(header, after, |lines|) == Joined(header, after[..i + 1]);
  }

  lemma SameEnd(a: Text, b: Text, c: Text)
    ensures a + b == a + c ==> b == c
  {
    assert (a + b)[|a|..] == b && (a + c)[|a|..] == c;
  }

  lemma SameStart(a: Text, b: Text, c: Text)
    ensures a + c == b + c ==> a == b
  {
    assert |a + c| == |a| + |c| && |b + c| == |b| + |c|;
    assert (a + c)[..|a|] == a && (b + c)[..|b|] == b;
  }

  /** One more line is always seen: shown, or counted. */
  lemma AppendShows(header: Text, lines: seq<Text>, line: Text)
    requires Readable(lines + [line])
    ensures TextOf(header, lines + [line]) != TextOf(header, lines)
  {
    var after := lines + [line];
    hide Shown, Fits, Joined, Layout;
    var n, m := Shown(header, lines), Shown(header, after);
    assert Readable(lines) by {
      forall j | 0 <= j < |lines| ensures lines[j] != "" && lines[j][0] != '…' { assert after[j] == lines[j]; }
    }
    AppendFits(header, lines, line);
    if lines == [] {
      LayoutBegins(header, after, m);
    } else if m < n {
      assert after[..m] == lines[..m];
      LayoutAt(header, lines, m, n);
      LayoutAt(header, after, m, m);
    } else {
      MoreCounted(header, lines, line, n, m);
    }
  }

  lemma MoreCounted(header: Text, lines: seq<Text>, line: Text, n: nat, m: nat)
    requires n <= |lines| && (m == n || (n == |lines| && m == n + 1))
    ensures Layout(header, lines + [line], m) != Layout(header, lines, n)
  {
    hide Joined;
    var after := lines + [line];
    if m == n {
      assert after[..m] == lines[..n];
      if n < |lines| {
        FootersDiffer(|lines| - n);
        SameEnd("\n", Footer(|lines| - n), Footer(|lines| - n + 1));
        SameEnd(Joined(header, lines[..n]), "\n" + Footer(|lines| - n), "\n" + Footer(|lines| - n + 1));
      }
    } else {
      FitStep(header, after, |lines|);
      assert after[..|lines|] == lines == lines[..n];
    }
  }

  /** What fits in front of one line more fitted before. */
  lemma AppendFits(header: Text, lines: seq<Text>, line: Text)
    ensures Shown(header, lines + [line]) <= Shown(header, lines) || Shown(header, lines) == |lines|
  {
    var n := Shown(header, lines);
    if n < |lines| {
      assert (lines + [line])[..n + 1] == lines[..n + 1];
      DigitsGrow(|lines| - n - 1);
      assert !Fits(header, lines + [line], n);
    }
  }

  lemma FootersDiffer(n: nat)
    ensures Footer(n) != Footer(n + 1)
  {
    DigitsValue(n);
    DigitsValue(n + 1);
    hide Digits, Value;
    SameStart(Digits(n), Digits(n + 1), " more steps");
    SameEnd("… +", Digits(n) + " more steps", Digits(n + 1) + " more steps");
    assert forall k: nat :: Footer(k) == "… +" + (Digits(k) + " more steps");
  }

  /** The number written in decimal. */
  function Value(s: Text): int { if s == [] then 0 else 10 * Value(s[..|s| - 1]) + (s[|s| - 1] as int - '0' as int) }

  lemma {:induction false} DigitsValue(n: nat)
    ensures Value(Digits(n)) == n
  {
    if n < 10 {
      assert Digits(n)[..0] == [];
    } else {
      DigitsValue(n / 10);
      assert Digits(n)[..|Digits(n)| - 1] == Digits(n / 10);
    }
  }

  lemma {:induction false} DigitsGrow(n: nat)
    ensures |Digits(n)| <= |Digits(n + 1)|
  {
    if n >= 10 {
      if (n + 1) / 10 == n / 10 + 1 { DigitsGrow(n / 10); } else { assert (n + 1) / 10 == n / 10; }
    }
  }

  lemma CountGrows(n: nat)
    requires n >= 1
    ensures |Count(n)| <= |Count(n + 1)| && Count(n) != Count(n + 1)
  {
    DigitsGrow(n);
    DigitsValue(n);
    DigitsValue(n + 1);
    SameEnd(" ×", Digits(n), Digits(n + 1));
  }

  lemma BodyGrows(step: ProgressStep, a: Text, b: Text)
    requires |a| <= |b| && a != b
    ensures |Body(step, a)| <= |Body(step, b)| && Body(step, a) != Body(step, b)
  {
    if step.preview != "" && step.command {
      var head, tail := step.emoji + " " + step.name, "\n```shell\n" + step.preview + "\n```";
      assert Body(step, a) == head + (a + tail) && Body(step, b) == head + (b + tail);
      SameEnd(head, a + tail, b + tail);
      SameStart(a, b, tail);
    } else {
      var head := if step.preview == "" then step.emoji + " " + step.name
          else step.emoji + " " + step.name + step.connector + step.preview;
      SameEnd(head, a, b);
      assert Body(step, a) == head + a && Body(step, b) == head + b;
    }
  }

  /**
    A settled call changes the rendered lines exactly if it is the first failed one of its line; a
    reader sees that exactly if the line is shown. The generation advances in either case.
   */
  lemma StatusShows(header: Text, lines: seq<StepLine>, i: nat, id: ToolId, s: Status)
    requires i < |lines| && lines[i].tools.Valid() && OnLine(lines, i, id) && lines[i].tools.at[id] == Running &&
               s != Running
    requires AllPlain(lines)
    ensures Rendered(Marked(lines, i, id, s)) == Rendered(lines) <==> s == Done || HasFailed(lines[i])
    ensures TextOf(header, Rendered(Marked(lines, i, id, s))) == TextOf(header, Rendered(lines)) <==>
            s == Done || HasFailed(lines[i]) || Shown(header, Rendered(lines)) <= i
    ensures AllPlain(Marked(lines, i, id, s))
  {
    hide TextOf, Shown, Body, Count;
    var after := Marked(lines, i, id, s);
    assert after[i].tools.keys == lines[i].tools.keys;
    assert HasFailed(after[i]) <==> s == Failed || HasFailed(lines[i]) by {
      assert s == Failed ==> after[i].tools.at[id] == Failed;
      forall k | k in lines[i].tools.at && lines[i].tools.at[k] == Failed ensures after[i].tools.at[k] == Failed {
      }
    }
    var before, now := Rendered(lines), Rendered(after);
    if s == Done || HasFailed(lines[i]) {
      assert RenderStep(after[i]) == RenderStep(lines[i]);
      assert now == before;
    } else {
      assert Plain(lines[i].step) && now[i] == "❌ " + before[i];
      BodyStarts(lines[i].step, Count(|lines[i].tools.keys|));
      RenderedReadable(lines);
      RenderedReadable(after);
      ChangeShows(header, before, now, i);
    }
  }

  lemma BodyStarts(step: ProgressStep, count: Text)
    requires Plain(step)
    ensures Body(step, count) != "" && Body(step, count)[0] == step.emoji[0]
  {
  }

  /** A call is seen unless it joins a last line that is hidden. */
  lemma ToolShows(header: Text, lines: seq<StepLine>, seen: set<ToolId>, id: ToolId, step: ProgressStep)
    requires Partition(lines, seen) && id !in seen && AllPlain(lines) && Plain(step)
    ensures TextOf(header, Rendered(Added(lines, id, step))) == TextOf(header, Rendered(lines)) <==>
            lines != [] && lines[|lines| - 1].step == step && Shown(header, Rendered(lines)) < |lines|
    ensures AllPlain(Added(lines, id, step))
  {
    hide TextOf, Shown, Body, Count;
    NotOnAny(lines, seen, id);
    var after, n := Added(lines, id, step), |lines| - 1;
    RenderedReadable(lines);
    RenderedReadable(after);
    if lines != [] && lines[n].step == step {
      assert !OnLine(lines, n, id);
      var tools := lines[n].tools;
      assert after[n].tools.keys == tools.keys + [id];
      assert HasFailed(after[n]) == HasFailed(lines[n]) by {
        forall k | k in tools.at && tools.at[k] == Failed ensures after[n].tools.at[k] == Failed {
        }
      }
      CountGrows(|tools.keys|);
      BodyGrows(step, Count(|tools.keys|), Count(|tools.keys| + 1));
      var mark := if HasFailed(lines[n]) then "❌ " else "";
      SameEnd(mark, Body(step, Count(|tools.keys|)), Body(step, Count(|tools.keys| + 1)));
      ChangeShows(header, Rendered(lines), Rendered(after), n);
    } else {
      assert Rendered(after) == Rendered(lines) + [RenderStep(after[|lines|])];
      AppendShows(header, Rendered(lines), RenderStep(after[|lines|]));
    }
  }

  ghost predicate OneLine(s: Text) { forall i :: 0 <= i < |s| ==> s[i] != '\n' }

  /** Closing is seen, by its header, exactly if there is anything to see. */
  lemma CloseShows(header: Text, after: Text, lines: seq<Text>, settled: seq<Text>)
    requires OneLine(header) && OneLine(after) && header != after && |settled| == |lines|
    ensures TextOf(after, settled) == TextOf(header, lines) <==> lines == []
  {
    if lines != [] {
      LayoutBegins(header, lines, Shown(header, lines));
      LayoutBegins(after, settled, Shown(after, settled));
      FirstLine(TextOf(header, lines), header, TextOf(after, settled), after);
    }
  }

  /** Equal texts have equal first lines. */
  lemma FirstLine(a: Text, header: Text, b: Text, after: Text)
    requires OneLine(header) && |header| < |a| && a[..|header|] == header && a[|header|] == '\n'
    requires OneLine(after) && |after| < |b| && b[..|after|] == after && b[|after|] == '\n'
    ensures a == b ==> header == after
  {
    assert |header| < |after| ==> b[|header|] == after[|header|] != '\n';
    assert |after| < |header| ==> a[|after|] == header[|after|] != '\n';
  }

  lemma {:induction false} LayoutBegins(header: Text, lines: seq<Text>, k: nat)
    requires k <= |lines| && lines != []
    ensures var text := Layout(header, lines, k);
              |header| < |text| && text[..|header|] == header && text[|header|] == '\n'
    decreases k
  {
    if k > 0 {
      JoinedBegins(header, lines, k);
    } else {
      EmptyJoined(header, lines);
    }
  }

  lemma {:induction false} JoinedBegins(header: Text, lines: seq<Text>, k: nat)
    requires 0 < k <= |lines|
    ensures var text := Joined(header, lines[..k]);
              |header| < |text| && text[..|header|] == header && text[|header|] == '\n'
  {
    FitStep(header, lines, k - 1);
    if k > 1 { JoinedBegins(header, lines, k - 1); } else { EmptyJoined(header, lines); }
  }

  // ----- the turn -----

  class Progress {
    const verbs: Verbs
    var lines: seq<StepLine>
    var seen: set<ToolId>
    var generation: nat
    var outcome: Option<Outcome>

    ghost predicate Valid()
      reads this
    {
      Partition(lines, seen)
    }

    constructor (v: Verbs)
      ensures Valid() && verbs == v && lines == [] && seen == {} && generation == 0 && outcome == None
    {
      verbs, lines, seen, generation, outcome := v, [], {}, 0, None;
    }

    method RecordTool(id: ToolId, step: ProgressStep) returns (accepted: bool)
      requires Valid()
      modifies this
      ensures Valid() && outcome == old(outcome)
      ensures accepted == (old(outcome) == None && id !in old(seen))
      ensures generation == old(generation) + if accepted then 1 else 0
      ensures seen == if accepted then old(seen) + {id} else old(seen)
      ensures lines == if accepted then Added(old(lines), id, step) else old(lines)
      ensures !accepted ==> Reads() == old(Reads())
      ensures accepted && AllPlain(old(lines)) && Plain(step) ==>
                && AllPlain(lines)
                && (Reads() == old(Reads()) <==>
                      old(lines) != [] && old(lines)[|old(lines)| - 1].step == step &&
                          old(Shown(Header(), Rendered(lines))) < |old(lines)|)
    {
      hide Partition, StatusOf, Distinct, OnLine, TextOf, Shown, Rendered, AllPlain, Plain, Fits, Added;
      if outcome.Some? || id in seen { return false; }
      AddedKeeps(lines, seen, id, step);
      if AllPlain(lines) && Plain(step) { ToolShows(Header(), lines, seen, id, step); }
      seen := seen + {id};
      var n := |lines| - 1;
      if lines != [] && lines[n].step == step {
        AddedJoins(lines, id, step);
        lines := lines[n := StepLine(step, lines[n].tools.Put(id, Running))];
      } else {
        AddedOpens(lines, id, step);
        lines := lines + [StepLine(step, Empty<ToolId, Status>().Put(id, Running))];
      }
      generation := generation + 1;
      return true;
    }

    /** recordSuccess and recordFailure. */
    method RecordStatus(id: ToolId, status: Status) returns (accepted: bool, ghost line: nat)
      requires Valid() && status != Running
      modifies this
      ensures Valid() && outcome == old(outcome) && seen == old(seen)
      ensures accepted == (old(outcome) == None && StatusOf(old(lines), id) == Some(Running))
      ensures generation == old(generation) + if accepted then 1 else 0
      ensures if accepted
                then line < |old(lines)| && OnLine(old(lines), line, id) &&
                    lines == Marked(old(lines), line, id, status) else lines == old(lines)
      ensures AllPlain(old(lines)) ==>
                && AllPlain(lines)
                && (Reads() == old(Reads()) <==>
                      !accepted || status == Done || HasFailed(old(lines)[line]) ||
                          old(Shown(Header(), Rendered(lines))) <= line)
      ensures forall other :: StatusOf(lines, other) == if accepted && other == id then Some(status)
                else StatusOf(old(lines), other)
    {
      hide TextOf, Shown, Rendered, HasFailed, AllPlain, Plain, Fits, Partition, StatusOf, Distinct;
      if outcome.Some? { return false, 0; }
      var i := 0;
      while i < |lines| && id !in lines[i].tools.at
        invariant i <= |lines| && forall k :: 0 <= k < i ==> !OnLine(lines, k, id)
      {
        i := i + 1;
      }
      if i == |lines| {
        StatusNone(lines, id);
        return false, 0;
      }
      StatusFirst(lines, i, id);
      if lines[i].tools.at[id] != Running { return false, 0; }
      MarkedKeeps(lines, seen, i, id, status);
      LineValid(lines, seen, i);
      if AllPlain(lines) { StatusShows(Header(), lines, i, id, status); }
      lines := lines[i := StepLine(lines[i].step, lines[i].tools.Put(id, status))];
      generation := generation + 1;
      return true, i;
    }

    method Close(o: Outcome) returns (accepted: bool)
      requires Valid()
      modifies this
      ensures Valid() && seen == old(seen) && accepted == (old(outcome) == None)
      ensures outcome == if accepted then Some(o) else old(outcome)
      ensures generation == old(generation) + if accepted then 1 else 0
      ensures |lines| == |old(lines)|
      ensures forall id :: StatusOf(lines, id) ==
                           if accepted && StatusOf(old(lines), id) == Some(Running) then Some(Terminal(o))
                               else StatusOf(old(lines), id)
      ensures AllPlain(old(lines)) ==> AllPlain(lines)
      ensures Telling(verbs) ==> (Reads() == old(Reads()) <==> !accepted || lines == [])
    {
      hide TextOf, Rendered, OneLine;
      if outcome.Some? { return false; }
      ghost var header, before := Header(), Rendered(lines);
      outcome := Some(o);
      ClosingKeeps(lines, seen, Terminal(o));
      for n := 0 to |lines|
        invariant lines == Closing(old(lines), Terminal(o), n) && seen == old(seen) && outcome == Some(o) &&
                    generation == old(generation)
      {
        var settled := SettleLine(lines[n].tools, Terminal(o));
        lines := lines[n := StepLine(lines[n].step, settled)];
      }
      RenderedLength(old(lines));
      RenderedLength(lines);
      if Telling(verbs) { CloseShows(header, Header(), before, Rendered(lines)); }
      generation := generation + 1;
      return true;
    }

    /** The inner loop of close. */
    method SettleLine(tools: OrdMap<ToolId, Status>, terminal: Status) returns (settled: OrdMap<ToolId, Status>)
      requires tools.Valid() && terminal != Running
      ensures settled == OrdMap(tools.keys, Settled(tools.at, terminal))
    {
      settled := tools;
      for k := 0 to |tools.keys|
        invariant settled.keys == tools.keys && settled.at.Keys == tools.at.Keys
        invariant forall i :: 0 <= i < |tools.keys| ==>
                    settled.at[tools.keys[i]] == if i < k && tools.at[tools.keys[i]] == Running then terminal
                        else tools.at[tools.keys[i]]
      {
        var id := tools.keys[k];
        if settled.at[id] == Running { settled := settled.Put(id, terminal); }
      }
      forall id | id in tools.at ensures settled.at[id] == Settled(tools.at, terminal)[id] {
        assert id in tools.keys;
      }
    }

    function Header(): Text
      reads this
    {
      match outcome
      case None => verbs.active
      case Some(Stop) => verbs.complete
      case Some(StopFailure) => "Failed"
    }

    /** The text of this turn as it stands. */
    function Reads(): Text
      reads this
    {
      TextOf(Header(), Rendered(lines))
    }

    /** Shows as many lines as fit, from the first on, and counts the others. */
    method Render() returns (text: Text, ghost shown: nat)
      ensures text == Reads() && (lines != [] ==> shown == Shown(Header(), Rendered(lines)))
      ensures lines == [] ==> text == ""
      ensures lines != [] ==>
                && shown <= |lines| && text == Layout(Header(), Rendered(lines), shown)
                && (forall j :: 0 <= j < shown ==> Fits(Header(), Rendered(lines), j))
                && (shown < |lines| ==> !Fits(Header(), Rendered(lines), shown))
      ensures |Header()| <= 4000 && |lines| < MAX_ARRAY_LENGTH ==> |text| <= MAX_PROGRESS_CHARACTERS
    {
      hide RenderStep, Digits, Joined, Shown, Footer, Fits, Layout;
      if lines == [] { return "", 0; }
      ghost var all := Rendered(lines);
      var header := Header();
      EmptyJoined(header, all);
      var visible: seq<Text> := [];
      var used := |header|;
      var index := 0;
      while index < |lines|
        invariant index <= |lines| && visible == all[..index] && used == |Joined(header, visible)|
        invariant forall j :: 0 <= j < index ==> Fits(header, all, j)
      {
        var line := RenderStep(lines[index]);
        FitStep(header, all, index);
        FitsWhen(header, all, index);
        var remaining := |lines| - index - 1;
        var footer := if remaining > 0 then Footer(remaining) else "";
        var candidateLength := used + 1 + |line| + if footer != "" then 1 + |footer| else 0;
        if candidateLength > MAX_PROGRESS_CHARACTERS { break; }
        assert all[..index + 1] == all[..index] + [line];
        visible, used, index := visible + [line], used + 1 + |line|, index + 1;
      }
      var overflow := |lines| - |visible|;
      LayoutFits(header, all, index);
      LayoutParts(header, all, index);
      ShownIs(header, all, index);
      if overflow > 0 { return Joined(header, visible) + "\n" + Footer(overflow), index; }
      return Joined(header, visible), index;
    }
  }

  /** Headers that tell a closed turn from an open one. */
  ghost predicate Telling(verbs: Verbs) {
    && OneLine(verbs.active) && OneLine(verbs.complete)
    && verbs.active != verbs.complete && verbs.active != "Failed"
  }

  lemma RenderedLength(lines: seq<StepLine>)
    ensures |Rendered(lines)| == |lines|
  {
  }

  lemma FitsWhen(header: Text, lines: seq<Text>, k: nat)
    requires k < |lines|
    ensures var left := |lines| - k - 1;
      && Fits(header, lines, k) ==
          (|Joined(header, lines[..k + 1])| + (if left > 0 then 1 + |Footer(left)| else 0) <= MAX_PROGRESS_CHARACTERS)
      && Footer(left) != ""
  {
  }

  lemma LayoutParts(header: Text, lines: seq<Text>, k: nat)
    requires k <= |lines|
    ensures Layout(header, lines, k) ==
            if k < |lines| then Joined(header, lines[..k]) + "\n" + Footer(|lines| - k) else Joined(header, lines[..k])
  {
    assert Joined(header, lines[..k]) + "" == Joined(header, lines[..k]);
  }

  /**
    A layout whose last line fitted with the count behind it is within the limit; so is the bare header with its count.
   */
  lemma LayoutFits(header: Text, lines: seq<Text>, k: nat)
    requires k <= |lines| && lines != [] && forall j :: 0 <= j < k ==> Fits(header, lines, j)
    ensures |header| <= 4000 && |lines| < MAX_ARRAY_LENGTH ==> |Layout(header, lines, k)| <= MAX_PROGRESS_CHARACTERS
  {
    if k > 0 {
      assert Fits(header, lines, k - 1);
    } else if |lines| < MAX_ARRAY_LENGTH {
      assert Power10(10) == 10_000_000_000;
      DigitsBound(|lines|, 10);
      EmptyJoined(header, lines);
    }
  }

  // ----- runs -----

  /** A status is settled once, and a closed turn has nothing running. */
  lemma {:induction false} SettledOnce(events: seq<Event>, more: seq<Event>, id: ToolId)
    ensures StatusAfter(events, id) in {Some(Done), Some(Failed)} ==>
              StatusAfter(events + more, id) == StatusAfter(events, id)
    ensures StatusAfter(events, id) == Some(Running) ==> StatusAfter(events + more, id).Some?
    ensures Closed(events) ==>
              StatusAfter(events, id) != Some(Running) && StatusAfter(events + more, id) == StatusAfter(events, id)
    decreases |more| + |events|
  {
    var all := events + more;
    if more == [] {
      assert all == events;
      if events != [] {
        var n := |events| - 1;
        assert events[..n] + [] == events[..n];
        SettledOnce(events[..n], [], id);
        assert Closed(events) == (Closed(events[..n]) || events[n].Close?);
      }
    } else {
      var n := |all| - 1;
      assert all[..n] == events + more[..|more| - 1] && all[n] == more[|more| - 1];
      SettledOnce(events, more[..|more| - 1], id);
      assert Closed(events) ==> Closed(all[..n]) by {
        if i :| 0 <= i < |events| && events[i].Close? { assert all[..n][i].Close?; }
      }
    }
  }

  /**
    Any sequence of hook events: each tool call shows exactly what became of it alone, on one line, and
    the rendered text is within Telegram's limit.
   */
  method Run(verbs: Verbs, events: seq<Event>) returns (progress: Progress, text: Text)
    requires |verbs.active| <= 4000 && |verbs.complete| <= 4000
    ensures progress.Valid()
    ensures forall id :: StatusOf(progress.lines, id) == StatusAfter(events, id) &&
              (id in progress.seen <==> StatusAfter(events, id).Some?)
    ensures progress.outcome.Some? <==> Closed(events)
    ensures progress.outcome.Some? ==> forall id :: StatusOf(progress.lines, id) != Some(Running)
    ensures progress.generation <= |events|
    ensures text == progress.Reads() && (|progress.lines| < MAX_ARRAY_LENGTH ==> |text| <= MAX_PROGRESS_CHARACTERS)
  {
    hide Added, Partition, StatusOf;
    progress := new Progress(verbs);
    NothingShown();
    for i := 0 to |events|
      invariant fresh(progress) && progress.Valid() && progress.verbs == verbs
      invariant forall id :: StatusOf(progress.lines, id) == StatusAfter(events[..i], id) &&
                  (id in progress.seen <==> StatusAfter(events[..i], id).Some?)
      invariant progress.outcome.Some? <==> Closed(events[..i])
      invariant progress.generation <= i
    {
      assert events[..i + 1][..i] == events[..i];
      assert Closed(events[..i + 1]) == (Closed(events[..i]) || events[i].Close?);
      match events[i]
      case RecordTool(id, step) =>
        if progress.outcome == None && id !in progress.seen { AddedKeeps(progress.lines, progress.seen, id, step); }
        var _ := progress.RecordTool(id, step);
      case RecordSuccess(id) => var _, _ := progress.RecordStatus(id, Done);
      case RecordFailure(id) => var _, _ := progress.RecordStatus(id, Failed);
      case Close(outcome) => var _ := progress.Close(outcome);
    }
    assert events[..|events|] == events;
    forall id ensures Closed(events) ==> StatusAfter(events, id) != Some(Running) {
      SettledOnce(events, [], id);
    }
    var rendered, _ := progress.Render();
    text := rendered;
  }

  lemma NothingShown()
    ensures forall id :: StatusOf([], id) == None && StatusAfter([], id) == None
  {
  }
}
