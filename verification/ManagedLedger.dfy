/**
  The ownership ledger of the native-memory applier: which topic file was last written by which
  proposal, kept strictly sorted by path.
 */
module ManagedLedger {
  import opened Wrappers

  type Path = string
  type Key = string
  type Bytes = string  // one char per byte

  const INDEX: Path := "MEMORY.md"

  datatype Entry = Entry(path: Path, sha256: Digest<Bytes>, proposalKey: Key, updatedAt: int)
  type Ledger = seq<Entry>

  // ----- file names -----

  predicate Lower(c: char) { 'a' <= c <= 'z' }
  predicate SlugChar(c: char) { Lower(c) || '0' <= c <= '9' }

  /** Number of hyphens in s. */
  function Hyphens(s: string): nat {
    if s == [] then 0 else Hyphens(s[..|s| - 1]) + if s[|s| - 1] == '-' then 1 else 0
  }

  /** TOPIC_RE: lower-case words joined by single hyphens, starting with a letter. */
  predicate IsTopic(t: string) {
    && t != []
    && Lower(t[0])
    && SlugChar(t[|t| - 1])
    && (forall i :: 0 <= i < |t| ==> SlugChar(t[i]) || t[i] == '-')
    && (forall i :: 0 <= i < |t| - 1 ==> t[i] == '-' ==> t[i + 1] != '-')
  }

  function TopicPath(t: string): Path { t + ".md" }

  predicate Word(s: string) { s != [] && forall i :: 0 <= i < |s| ==> SlugChar(s[i]) }

  /** The stem of MEMORY_NAME_RE: a word that starts with a letter, and perhaps a hyphen and a second word. */
  predicate IsStem(s: string) {
    && s != [] && Lower(s[0])
    && (Word(s) || exists i :: 0 < i < |s| && s[i] == '-' && Word(s[..i]) && Word(s[i + 1..]))
  }

  /** MEMORY_NAME_RE */
  predicate IsMemoryName(p: Path) {
    p == INDEX || (|p| > 3 && p[|p| - 3..] == ".md" && IsStem(p[..|p| - 3]))
  }

  lemma {:induction false} HyphensConcat(a: string, b: string)
    ensures Hyphens(a + b) == Hyphens(a) + Hyphens(b)
  {
    if b == [] {
      assert a + b == a;
    } else {
      assert (a + b)[..|a + b| - 1] == a + b[..|b| - 1];
      HyphensConcat(a, b[..|b| - 1]);
    }
  }

  lemma {:induction false} NoHyphens(s: string)
    requires forall i :: 0 <= i < |s| ==> SlugChar(s[i]) || s[i] == '-'
    ensures Hyphens(s) == 0 <==> forall i :: 0 <= i < |s| ==> SlugChar(s[i])
  {
    if s != [] {
      NoHyphens(s[..|s| - 1]);
      assert s == s[..|s| - 1] + [s[|s| - 1]];
    }
  }

  lemma HyphensAround(s: string, i: nat)
    requires i < |s| && s[i] == '-'
    ensures Hyphens(s) == Hyphens(s[..i]) + 1 + Hyphens(s[i + 1..])
  {
    assert s == s[..i] + ["-"[0]] + s[i + 1..];
    HyphensConcat(s[..i] + ["-"[0]], s[i + 1..]);
    HyphensConcat(s[..i], ["-"[0]]);
  }

  lemma {:induction false} StemIsTopic(s: string)
    requires IsStem(s)
    ensures IsTopic(s) && Hyphens(s) <= 1
  {
    if Word(s) {
      NoHyphens(s);
    } else {
      var i :| 0 < i < |s| && s[i] == '-' && Word(s[..i]) && Word(s[i + 1..]);
      HyphensAround(s, i);
      NoHyphens(s[..i]);
      NoHyphens(s[i + 1..]);
      assert forall k :: 0 <= k < i ==> s[k] == s[..i][k];
      assert forall k :: i < k < |s| ==> s[k] == s[i + 1..][k - i - 1];
    }
  }

  lemma ShortTopicIsStem(s: string)
    requires IsTopic(s) && Hyphens(s) <= 1
    ensures IsStem(s)
  {
    if !Word(s) {
      var i :| 0 <= i < |s| && !SlugChar(s[i]);
      HyphensAround(s, i);
      NoHyphens(s[..i]);
      NoHyphens(s[i + 1..]);
      assert s[..i] != [] && s[i + 1..] != [];
    }
  }

  /** The stems of memory names are the topics with at most one hyphen. */
  lemma StemIsShortTopic(s: string)
    ensures IsStem(s) <==> IsTopic(s) && Hyphens(s) <= 1
  {
    if IsStem(s) { StemIsTopic(s); }
    if IsTopic(s) && Hyphens(s) <= 1 { ShortTopicIsStem(s); }
  }

  /** A valid topic names a writable leaf exactly when it has at most one hyphen, and never the index. */
  lemma TopicNamesLeaf(t: string)
    requires IsTopic(t)
    ensures TopicPath(t) != INDEX
    ensures IsMemoryName(TopicPath(t)) <==> Hyphens(t) <= 1
  {
    var p := TopicPath(t);
    assert p[0] == t[0] && p[0] != INDEX[0];
    assert p[..|p| - 3] == t && p[|p| - 3..] == ".md";
    StemIsShortTopic(t);
  }

  /** Conversely, every writable leaf but the index belongs to a valid topic. */
  lemma LeafHasTopic(p: Path)
    requires IsMemoryName(p) && p != INDEX
    ensures IsTopic(p[..|p| - 3]) && TopicPath(p[..|p| - 3]) == p
  {
    StemIsShortTopic(p[..|p| - 3]);
    assert p == p[..|p| - 3] + p[|p| - 3..];
  }

  // ----- order -----

  /** Comparison of strings by code unit. */
  predicate Less(a: string, b: string) {
    b != [] && (a == [] || a[0] < b[0] || (a[0] == b[0] && Less(a[1..], b[1..])))
  }

  lemma {:induction false} LessTotal(a: string, b: string)
    ensures Less(a, b) || a == b || Less(b, a)
  {
    if a != [] && b != [] && a[0] == b[0] {
      LessTotal(a[1..], b[1..]);
      assert a == [a[0]] + a[1..] && b == [b[0]] + b[1..];
    }
  }

  lemma {:induction false} LessTransitive(a: string, b: string, c: string)
    requires Less(a, b) && Less(b, c)
    ensures Less(a, c)
  {
    if a != [] && a[0] == b[0] == c[0] {
      LessTransitive(a[1..], b[1..], c[1..]);
    }
  }

  lemma {:induction false} LessIrreflexive(a: string)
    ensures !Less(a, a)
  {
    if a != [] { LessIrreflexive(a[1..]); }
  }

  // ----- the ledger -----

  /** validateLedger: usable topic names other than the index, strictly increasing paths. */
  predicate ValidLedger(l: Ledger) {
    && (forall i :: 0 <= i < |l| ==> IsMemoryName(l[i].path) && l[i].path != INDEX && l[i].updatedAt >= 0)
    && Ascending(l)
  }

  predicate Ascending(l: Ledger) {
    forall i :: 0 < i < |l| ==> Less(l[i - 1].path, l[i].path)
  }

  function EntriesOf(l: Option<Ledger>): Ledger {
    if l.Some? then l.value else []
  }

  /** The entry find() returns for a path. */
  function Owner(l: Ledger, p: Path): (r: Option<Entry>) {
    if l == [] then None else if l[0].path == p then Some(l[0]) else Owner(l[1..], p)
  }

  function Without(l: Ledger, p: Path): Ledger {
    if l == [] then []
    else (if l[0].path == p then [] else [l[0]]) + Without(l[1..], p)
  }

  /** Stable insertion, as Array.prototype.sort places it. */
  function Insert(e: Entry, l: Ledger): Ledger {
    if l == [] || Less(e.path, l[0].path) then [e] + l else [l[0]] + Insert(e, l[1..])
  }

  function SortByPath(l: Ledger): Ledger {
    if l == [] then [] else Insert(l[|l| - 1], SortByPath(l[..|l| - 1]))
  }

  function LedgerAfter(before: Option<Ledger>, topic: Path, sha256: Digest<Bytes>, key: Key, now: int): Ledger {
    SortByPath(Without(EntriesOf(before), topic) + [Entry(topic, sha256, key, now)])
  }

  // ----- what the update means -----

  lemma {:induction false} AscendingFrom(l: Ledger, i: int)
    requires Ascending(l) && 0 < i < |l|
    ensures Less(l[0].path, l[i].path)
  {
    if i > 1 {
      AscendingFrom(l, i - 1);
      LessTransitive(l[0].path, l[i - 1].path, l[i].path);
    }
  }

  lemma {:induction false} WithoutMembers(l: Ledger, p: Path)
    ensures forall e :: e in Without(l, p) <==> e in l && e.path != p
  {
    if l != [] {
      WithoutMembers(l[1..], p);
      assert l == [l[0]] + l[1..];
    }
  }

  lemma {:induction false} WithoutOwner(l: Ledger, p: Path, q: Path)
    ensures Owner(Without(l, p), q) == if q == p then None else Owner(l, q)
  {
    if l != [] {
      WithoutOwner(l[1..], p, q);
      var w := Without(l[1..], p);
      if l[0].path != p {
        assert ([l[0]] + w)[1..] == w;
      } else {
        assert [] + w == w;
      }
    }
  }

  lemma {:induction false} WithoutAscending(l: Ledger, p: Path)
    requires Ascending(l)
    ensures Ascending(Without(l, p))
  {
    if l != [] {
      WithoutAscending(l[1..], p);
      var w := Without(l[1..], p);
      if l[0].path == p {
        assert [] + w == w;
      } else if w != [] {
        WithoutMembers(l[1..], p);
        assert w[0] in w;
        var k :| 0 <= k < |l[1..]| && l[1..][k] == w[0];
        AscendingFrom(l, k + 1);
      }
    }
  }

  lemma {:induction false} SortAscending(l: Ledger)
    requires Ascending(l)
    ensures SortByPath(l) == l
  {
    if l != [] {
      SortAscending(l[..|l| - 1]);
      InsertLast(l[|l| - 1], l[..|l| - 1]);
      assert l == l[..|l| - 1] + [l[|l| - 1]];
    }
  }

  lemma {:induction false} InsertLast(e: Entry, l: Ledger)
    requires Ascending(l + [e])
    ensures Insert(e, l) == l + [e]
  {
    if l != [] {
      AscendingFrom(l + [e], |l|);
      if Less(e.path, l[0].path) {
        LessTransitive(e.path, l[0].path, e.path);
        LessIrreflexive(e.path);
      }
      assert (l + [e])[1..] == l[1..] + [e];
      InsertLast(e, l[1..]);
    }
  }

  lemma {:induction false} InsertSpec(e: Entry, l: Ledger)
    requires Ascending(l) && Owner(l, e.path) == None
    ensures Ascending(Insert(e, l))
    ensures forall x :: x in Insert(e, l) <==> x == e || x in l
    ensures Owner(Insert(e, l), e.path) == Some(e)
    ensures forall q :: q != e.path ==> Owner(Insert(e, l), q) == Owner(l, q)
  {
    if l == [] || Less(e.path, l[0].path) {
      assert ([e] + l)[1..] == l;
    } else {
      assert l == [l[0]] + l[1..];
      InsertSpec(e, l[1..]);
      LessTotal(e.path, l[0].path);
      var r := Insert(e, l[1..]);
      assert ([l[0]] + r)[1..] == r;
      assert r[0] == e || r[0] == l[1];
    }
  }

  /**
    Updating a valid ledger gives a valid ledger in which the topic is owned by the proposal and
    every other topic keeps its owner; nothing else appears.
   */
  lemma LedgerAfterSpec(before: Option<Ledger>, topic: Path, sha256: Digest<Bytes>, key: Key, now: int)
    requires ValidLedger(EntriesOf(before)) && IsMemoryName(topic) && topic != INDEX && now >= 0
    ensures var after := LedgerAfter(before, topic, sha256, key, now);
      && ValidLedger(after)
      && Owner(after, topic) == Some(Entry(topic, sha256, key, now))
      && (forall q :: q != topic ==> Owner(after, q) == Owner(EntriesOf(before), q))
      && (forall e :: e in after <==>
            e == Entry(topic, sha256, key, now) || (e in EntriesOf(before) && e.path != topic))
  {
    var l := EntriesOf(before);
    var e := Entry(topic, sha256, key, now);
    var w := Without(l, topic);
    var after := LedgerAfter(before, topic, sha256, key, now);
    assert after == Insert(e, w) by {
      WithoutAscending(l, topic);
      SortAscending(w);
      assert (w + [e])[..|w|] == w;
    }
    assert Owner(w, topic) == None by { WithoutOwner(l, topic, topic); }
    WithoutMembers(l, topic);
    WithoutAscending(l, topic);
    InsertSpec(e, w);
    forall q | q != topic
      ensures Owner(after, q) == Owner(l, q)
    {
      WithoutOwner(l, topic, q);
    }
    MembersValid(l, after, e);
  }

  lemma MembersValid(l: Ledger, after: Ledger, e: Entry)
    requires ValidLedger(l) && Ascending(after)
    requires forall x :: x in after ==> x == e || x in l
    requires IsMemoryName(e.path) && e.path != INDEX && e.updatedAt >= 0
    ensures ValidLedger(after)
  {
    forall i | 0 <= i < |after|
      ensures IsMemoryName(after[i].path) && after[i].path != INDEX && after[i].updatedAt >= 0
    {
      assert after[i] in after;
    }
  }
}
