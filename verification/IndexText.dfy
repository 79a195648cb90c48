/** What a committed proposal means for the memory files as their readers see them, line by line. */
module IndexText {
  import opened Wrappers
  import opened ManagedLedger
  import opened ApplyJournal

  const NEWLINE := '\n'

  // ----- lines -----

  /** The length of the first line. */
  function FirstLine(text: Bytes): (n: nat)
    ensures n <= |text| && (n < |text| ==> text[n] == NEWLINE)
    ensures forall i :: 0 <= i < n ==> text[i] != NEWLINE
  {
    if text == [] || text[0] == NEWLINE then 0
    else
      var n := FirstLine(text[1..]);
      assert forall i :: 1 <= i < n + 1 ==> text[i] == text[1..][i - 1];
      n + 1
  }

  /** The lines of a text; the last one may lack its line break. */
  function Lines(text: Bytes): seq<Bytes> {
    if text == [] then []
    else
      var n := FirstLine(text);
      if n < |text| then [text[..n]] + Lines(text[n + 1..]) else [text]
  }

  predicate Ended(text: Bytes) { text == [] || text[|text| - 1] == NEWLINE }

  predicate EndsWith(text: Bytes, end: Bytes) { |end| <= |text| && text[|text| - |end|..] == end }

  lemma FirstLineIs(text: Bytes, n: nat)
    requires n <= |text| && (n < |text| ==> text[n] == NEWLINE) && forall i :: 0 <= i < n ==> text[i] != NEWLINE
    ensures FirstLine(text) == n
  {
  }

  /** A text that ends its last line is continued by the lines of the other. */
  lemma {:induction false} LinesConcat(text: Bytes, more: Bytes)
    requires Ended(text)
    ensures Lines(text + more) == Lines(text) + Lines(more)
    decreases |text|
  {
    if text == [] {
      assert text + more == more;
    } else {
      var n := FirstLine(text);
      assert n < |text|;
      FirstLineIs(text + more, n);
      assert (text + more)[..n] == text[..n] && (text + more)[n + 1..] == text[n + 1..] + more;
      LinesConcat(text[n + 1..], more);
    }
  }

  lemma OneLine(line: Bytes)
    requires NEWLINE !in line
    ensures Lines(line + [NEWLINE]) == [line]
  {
    FirstLineIs(line + [NEWLINE], |line|);
  }

  /** A line break behind an unfinished last line makes no further line. */
  lemma {:induction false} LinesFinished(text: Bytes)
    requires !Ended(text)
    ensures Lines(text + [NEWLINE]) == Lines(text)
    decreases |text|
  {
    var n := FirstLine(text);
    FirstLineIs(text + [NEWLINE], n);
    assert (text + [NEWLINE])[..n] == text[..n];
    if n < |text| {
      assert (text + [NEWLINE])[n + 1..] == text[n + 1..] + [NEWLINE];
      LinesFinished(text[n + 1..]);
    } else {
      assert (text + [NEWLINE])[n + 1..] == [];
    }
  }

  // ----- what a create does to the index -----

  /**
    The new text is the old one with this as a line of its own at the end, and not a unit has changed or
    come in besides, but for the line break that the old last line lacked.
   */
  ghost predicate GainsLine(was: Bytes, text: Bytes, line: Bytes) {
    && |was| <= |text| && text[..|was|] == was
    && Lines(text) == Lines(was) + [line]
    && |text| == |was| + |line| + (if Ended(was) then 1 else 2) && Ended(text)
  }

  lemma AppendGains(was: Bytes, line: Bytes)
    requires NEWLINE !in line
    ensures GainsLine(was, was + (if Ended(was) then [] else [NEWLINE]) + (line + [NEWLINE]), line)
  {
    var start := was + if Ended(was) then [] else [NEWLINE];
    if Ended(was) { assert start == was; } else { LinesFinished(was); }
    LinesConcat(start, line + [NEWLINE]);
    OneLine(line);
  }

  /** The entry of a topic in the index. */
  function EntryOf(topic: string): Bytes { "- [" + topic + "](" + topic + ".md)" }

  lemma EntryIsLine(topic: string)
    requires IsTopic(topic)
    ensures NEWLINE !in EntryOf(topic) && IndexLine(topic) == EntryOf(topic) + [NEWLINE]
  {
    assert NEWLINE !in topic;
  }

  /**
    Proposal c has taken a to b: its topic has the new text and owner, a create has gained its line, all else is as it
    was.
   */
  ghost predicate Took(a: Abstract, b: Abstract, c: Commit) {
    TookText(a, b, c.proposal) && TookOwner(a, b, c)
  }

  ghost predicate TookText(a: Abstract, b: Abstract, p: Proposal) {
    var topic := p.topic + ".md";
    && At(b.contents, topic) == Some(p.content + "\n")
    && (forall q :: q != topic && (q != "MEMORY.md" || p.decision == Patch) ==> At(b.contents, q) == At(a.contents, q))
    && (p.decision == Create ==>
          && topic !in a.contents && "MEMORY.md" in a.contents && "MEMORY.md" in b.contents
          && GainsLine(a.contents["MEMORY.md"], b.contents["MEMORY.md"], EntryOf(p.topic)))
    && (p.decision == Patch ==>
          var owner := Owner(EntriesOf(a.ledger), topic);
          topic in a.contents && owner.Some? && owner.value.sha256 == Sha256(a.contents[topic]))
  }

  ghost predicate TookOwner(a: Abstract, b: Abstract, c: Commit) {
    var p := c.proposal;
    var topic := p.topic + ".md";
    && b.ledger.Some? && ValidLedger(b.ledger.value)
    && Owner(b.ledger.value, topic) == Some(Entry(topic, Sha256(p.content + "\n"), p.key, c.now))
    && forall q :: q != topic ==> Owner(b.ledger.value, q) == Owner(EntriesOf(a.ledger), q)
  }

  /** What the sequential meaning of a proposal is. */
  lemma ExecuteTakes(a: Abstract, c: Commit)
    requires IsTopic(c.proposal.topic) && IsMemoryName(TopicPath(c.proposal.topic))
    requires ValidLedger(EntriesOf(a.ledger)) && Accepts(a, c.proposal)
    ensures Took(a, Effect(a, c), c)
  {
    hide Accepts, Effect, ValidLedger, TookText, TookOwner;
    ExecuteTakesText(a, c);
    ExecuteTakesOwner(a, c);
  }

  lemma AppliedTakes(a: Abstract, b: Abstract, q: Request)
    requires IsTopic(q.proposal.topic) && IsMemoryName(TopicPath(q.proposal.topic)) && ValidLedger(EntriesOf(a.ledger))
    requires Execute(a, Commit(q.proposal, q.now)) == Some(b)
    ensures Took(a, b, Commit(q.proposal, q.now))
  {
    hide Took, Effect, ValidLedger, IsTopic, IsMemoryName;
    ExecuteTakes(a, Commit(q.proposal, q.now));
  }

  lemma ExecuteTakesText(a: Abstract, c: Commit)
    requires IsTopic(c.proposal.topic) && Accepts(a, c.proposal)
    ensures TookText(a, Effect(a, c), c.proposal)
  {
    hide GainsLine, LedgerAfter, IsTopic, Ended, IsMemoryName;
    var p := c.proposal;
    TopicNamesLeaf(p.topic);
    if p.decision == Create {
      EntryIsLine(p.topic);
      AppendGains(a.contents[INDEX], EntryOf(p.topic));
      IndexAfterIs(a.contents[INDEX], p.topic);
    }
  }

  lemma IndexAfterIs(text: Bytes, topic: string)
    requires IsTopic(topic)
    ensures IndexAfter(text, topic) == text + (if Ended(text) then [] else [NEWLINE]) + (EntryOf(topic) + [NEWLINE])
  {
    EntryIsLine(topic);
  }

  lemma ExecuteTakesOwner(a: Abstract, c: Commit)
    requires IsTopic(c.proposal.topic) && IsMemoryName(TopicPath(c.proposal.topic))
    requires ValidLedger(EntriesOf(a.ledger)) && Accepts(a, c.proposal)
    ensures TookOwner(a, Effect(a, c), c)
  {
    hide Accepts, LedgerAfter, ValidLedger, IsTopic, IsMemoryName, Owner;
    var p := c.proposal;
    TopicNamesLeaf(p.topic);
    LedgerAfterSpec(a.ledger, TopicPath(p.topic), Sha256(p.content + "\n"), p.key, c.now);
  }

  // ----- what may be applied -----

  /** A missing topic beside an index, or a topic that another proposal owns and nobody has changed since. */
  ghost predicate Open(files: Files, ledger: Option<Ledger>, p: Proposal) {
    var topic := p.topic + ".md";
    var owner := Owner(EntriesOf(ledger), topic);
    if p.decision == Create then topic !in files && "MEMORY.md" in files
    else
      && topic in files && owner.Some? && owner.value.sha256 == Sha256(files[topic].bytes)
      && owner.value.proposalKey != p.key
  }

  /** Topic and index stay within 64 KiB. */
  ghost predicate Room(contents: Contents, p: Proposal) {
    && |p.content| < 64 * 1024
    && (p.topic + ".md" in contents ==> |contents[p.topic + ".md"]| <= 64 * 1024)
    && ("MEMORY.md" in contents ==> |contents["MEMORY.md"]| + 2 * |p.topic| + 11 <= 64 * 1024)
  }

  lemma MayBeApplied(files: Files, ledger: Option<Ledger>, q: Request)
    requires IsTopic(q.proposal.topic)
    ensures var a := Abstract(ContentsOf(files), ledger);
      Applicable(a, files, q) <==> q.observation == Sha256(files) && Open(files, ledger, q.proposal)
  {
    TopicNamesLeaf(q.proposal.topic);
    hide IsTopic, IsMemoryName, Hyphens, Owner;
  }

  lemma RoomSuffices(files: Files, ledger: Option<Ledger>, p: Proposal)
    requires Room(ContentsOf(files), p) && IsMemoryName(TopicPath(p.topic))
    ensures Readable(files, p) && ResultFits(Abstract(ContentsOf(files), ledger), p)
  {
    hide IsMemoryName;
  }

  // ----- the topic's line in an index -----

  /** Whether the text holds this line somewhere, perhaps as the end of a longer one. */
  ghost predicate Holds(text: Bytes, line: Bytes) { exists l :: l in Lines(text) && EndsWith(l, line) }

  ghost predicate Stands(text: Bytes, part: Bytes, i: nat) { i + |part| <= |text| && text[i..i + |part|] == part }

  ghost predicate Occurs(text: Bytes, part: Bytes) { exists i: nat :: Stands(text, part, i) }

  lemma StandsShifted(text: Bytes, part: Bytes, n: nat, i: nat)
    requires n <= |text|
    ensures Stands(text[n..], part, i) <==> Stands(text, part, n + i)
  {
    if n + i + |part| <= |text| { assert text[n..][i..i + |part|] == text[n + i..n + i + |part|]; }
  }

  /** An occurrence is at the start or behind the first n units. */
  lemma OccursFrom(text: Bytes, part: Bytes, n: nat)
    requires n <= |text|
    ensures Occurs(text, part) <==> Occurs(text[n..], part) || exists i: nat :: i < n && Stands(text, part, i)
  {
    if i: nat :| Stands(text, part, i) {
      if i >= n { StandsShifted(text, part, n, i - n); }
    }
    if i: nat :| Stands(text[n..], part, i) { StandsShifted(text, part, n, i); }
  }

  lemma {:induction false} OccursSomewhere(text: Bytes, part: Bytes)
    requires part != []
    ensures Occurrences(text, part) > 0 <==> Occurs(text, part)
    decreases |text|
  {
    if |text| >= |part| {
      if text[..|part|] == part {
        assert Stands(text, part, 0);
      } else {
        OccursSomewhere(text[1..], part);
        OccursFrom(text, part, 1);
      }
    }
  }

  lemma StandsAtEnd(text: Bytes, line: Bytes, n: nat, i: nat)
    requires n < |text| && text[n] == NEWLINE && forall k :: 0 <= k < n ==> text[k] != NEWLINE
    requires NEWLINE !in line && i <= n && Stands(text, line + [NEWLINE], i)
    ensures EndsWith(text[..n], line)
  {
    var part := line + [NEWLINE];
    var found := text[i..i + |part|];
    assert found[|line|] == text[i + |line|] == NEWLINE;
    forall k | i <= k < i + |line| ensures text[k] != NEWLINE {
      assert text[k] == found[k - i] == line[k - i];
    }
    assert i + |line| == n;
    assert text[..n][n - |line|..] == found[..|line|] == line;
  }

  lemma EndStands(text: Bytes, line: Bytes, n: nat)
    requires n < |text| && text[n] == NEWLINE && EndsWith(text[..n], line)
    ensures Stands(text, line + [NEWLINE], n - |line|)
  {
    var i := n - |line|;
    assert text[i..n + 1] == text[..n][i..] + [text[n]];
  }

  /** A line and its break occur before the end of a text's first line exactly as the end of that line. */
  lemma InFirstLine(text: Bytes, line: Bytes)
    requires text != [] && Ended(text) && NEWLINE !in line
    ensures var n := FirstLine(text);
      n < |text| &&
        (EndsWith(text[..n], line) <==> exists i: nat :: i < n + 1 && Stands(text, line + [NEWLINE], i))
  {
    var n := FirstLine(text);
    assert n < |text|;
    hide Stands, EndsWith, FirstLine;
    if i: nat :| i < n + 1 && Stands(text, line + [NEWLINE], i) { StandsAtEnd(text, line, n, i); }
    if EndsWith(text[..n], line) {
      EndStands(text, line, n);
      EndFits(text[..n], line);
    }
  }

  lemma EndFits(text: Bytes, end: Bytes)
    requires EndsWith(text, end)
    ensures |end| <= |text|
  {
  }

  lemma LinesFrom(text: Bytes)
    requires text != [] && FirstLine(text) < |text|
    ensures Lines(text) == [text[..FirstLine(text)]] + Lines(text[FirstLine(text) + 1..])
  {
    hide FirstLine;
  }

  lemma HoldsFrom(text: Bytes, line: Bytes)
    requires text != [] && FirstLine(text) < |text|
    ensures var n := FirstLine(text); Holds(text, line) <==> EndsWith(text[..n], line) || Holds(text[n + 1..], line)
  {
    hide EndsWith, Lines, FirstLine;
    var n := FirstLine(text);
    LinesFrom(text);
    var rest := Lines(text[n + 1..]);
    assert forall l :: l in [text[..n]] + rest <==> l == text[..n] || l in rest;
  }

  /** In a text that ends its last line, a line and its break occur where one of the lines ends with it. */
  lemma {:induction false} OccursAsLine(text: Bytes, line: Bytes)
    requires Ended(text) && NEWLINE !in line
    ensures Occurs(text, line + [NEWLINE]) <==> Holds(text, line)
    decreases |text|
  {
    if text != [] {
      var n := FirstLine(text);
      InFirstLine(text, line);
      HoldsFrom(text, line);
      OccursFrom(text, line + [NEWLINE], n + 1);
      OccursAsLine(text[n + 1..], line);
    }
  }

  /**
    Applying a committed proposal again is recognised as already applied, for a create exactly when no
    line of the index ended with the topic's line before the first application.
   */
  lemma RetryIsRecognised(a: Abstract, c: Commit)
    requires Accepts(a, c.proposal) && IsTopic(c.proposal.topic) && IsMemoryName(TopicPath(c.proposal.topic))
    requires ValidLedger(EntriesOf(a.ledger))
    ensures AlreadyThere(Effect(a, c), c.proposal) <==>
            c.proposal.decision == Patch || !Holds(a.contents["MEMORY.md"], EntryOf(c.proposal.topic))
  {
    var p := c.proposal;
    RetryCounts(a, c);
    if p.decision == Create {
      EntryIsLine(p.topic);
      var was := a.contents[INDEX];
      var start := was + if Ended(was) then [] else [NEWLINE];
      assert start == was + Separator(was);
      if Ended(was) { assert start == was; } else { LinesFinished(was); }
      OccursSomewhere(start, IndexLine(p.topic));
      OccursAsLine(start, EntryOf(p.topic));
      assert Holds(start, EntryOf(p.topic)) <==> Holds(was, EntryOf(p.topic));
    }
  }

  /**
    An index that already holds just the topic's line: the create goes through, and its repetition is neither recognised
    nor accepted.
   */
  lemma RetryUnrecognised(c: Commit)
    requires c.proposal.decision == Create && IsTopic(c.proposal.topic) && IsMemoryName(TopicPath(c.proposal.topic))
    ensures var a := Abstract(map["MEMORY.md" := EntryOf(c.proposal.topic)], None);
      Accepts(a, c.proposal) && !AlreadyThere(Effect(a, c), c.proposal) && Execute(Effect(a, c), c) == None
  {
    TopicNamesLeaf(c.proposal.topic);
    var line := EntryOf(c.proposal.topic);
    var a := Abstract(map[INDEX := line], None);
    EntryIsLine(c.proposal.topic);
    FirstLineIs(line, |line|);
    assert line != [] && line[..|line|] == line;
    assert line in Lines(line) && EndsWith(line, line);
    RetryIsRecognised(a, c);
  }
}
