/**
  The directory of review receipts: bounded (to 2048 unless a caller says otherwise), with a retention time, and pruned
  only when it is nearly full.
 */
module ReceiptStore {
  import opened Wrappers

  const RETENTION_MS := 30 * 24 * 60 * 60 * 1000
  const PRUNE_SCAN_MARGIN: nat := 64

  type Key = Digest<(string, string)>

  /** The creation time in each file; None for a file that cannot be read as a receipt. */
  type Entries = map<Key, Option<int>>

  datatype Answer = Created | Duplicate | Capacity | Unreadable

  predicate Expired(e: Option<int>, now: int) { e.Some? && now - e.value > RETENTION_MS }

  /** What a store that prunes everything on every call would hold. */
  function Alive(entries: Entries, now: int): Entries {
    map k | k in entries && !Expired(entries[k], now) :: entries[k]
  }

  ghost function Readable(entries: Entries): set<Key> { set k | k in entries && entries[k].Some? }

  /** The answer of that store. */
  ghost function EagerAnswer(alive: Entries, key: Key, max: nat): Answer {
    if key in alive then (if alive[key] == None then Unreadable else Duplicate)
    else if |Readable(alive)| >= max then Capacity
    else Created
  }

  ghost function EagerStore(alive: Entries, key: Key, now: int, max: nat): Entries {
    if EagerAnswer(alive, key, max) == Created then alive[key := Some(now)] else alive
  }

  class Store {
    var entries: Entries
    /** Whether each unlink to come fails; past the list they succeed. */
    var unlinkFails: seq<bool>

    constructor ()
      ensures entries == map[] && unlinkFails == []
    {
      entries, unlinkFails := map[], [];
    }

    /** Best effort: a failed unlink leaves the file. */
    method Unlink(key: Key) returns (ok: bool)
      modifies this
      ensures entries == if ok then old(entries) - {key} else old(entries)
      ensures old(unlinkFails) == [] ==> ok && unlinkFails == []
    {
      ok := true;
      if unlinkFails != [] {
        ok, unlinkFails := !unlinkFails[0], unlinkFails[1..];
      }
      if ok { entries := entries - {key}; }
    }

    /** pruneExpired: counts the readable receipts that are left. */
    method PruneExpired(now: int) returns (live: nat)
      modifies this
      ensures Pruning(old(entries), entries, {}, live, now)
      ensures old(unlinkFails) == [] ==> entries == Alive(old(entries), now) && unlinkFails == []
    {
      hide Pruning, Swept, Alive;
      live := 0;
      var remaining := entries.Keys;
      PruningStarts(entries, now);
      while remaining != {}
        invariant Pruning(old(entries), entries, remaining, live, now) && remaining <= entries.Keys
        invariant old(unlinkFails) == [] ==> unlinkFails == [] && Swept(entries, remaining, now)
        decreases |remaining|
      {
        var key :| key in remaining;
        var receipt := entries[key];
        PruningStep(old(entries), entries, remaining, live, now, key);
        var kept := true;
        if Expired(receipt, now) {
          var ok := Unlink(key);
          kept := !ok;
        }
        if receipt.Some? && kept { live := live + 1; }
        remaining := remaining - {key};
      }
      if old(unlinkFails) == [] { SweptIsAlive(old(entries), entries, live, now); }
    }

    /**
      createMemoryReviewReceipt. A stale receipt of the same key goes first; the full pruning pass only runs near the
      bound.
     */
    method Create(key: Key, now: int, max: nat) returns (answer: Answer)
      modifies this
      ensures |Readable(old(entries))| <= max ==> |Readable(entries)| <= max
      ensures old(unlinkFails) == [] ==>
                && unlinkFails == [] && answer == EagerAnswer(Alive(old(entries), now), key, max)
                && Alive(entries, now) == EagerStore(Alive(old(entries), now), key, now, max)
    {
      if key in entries {
        if entries[key] == None { return Unreadable; }
        if now - entries[key].value <= RETENTION_MS { return Duplicate; }
        SubsetSize(Readable(entries - {key}), Readable(entries));
        assert Alive(entries - {key}, now) == Alive(entries, now);
        var _ := Unlink(key);
      }
      assert old(unlinkFails) == [] ==> key !in entries && Alive(entries, now) == Alive(old(entries), now);
      answer := CreateNew(key, now, max);
    }

    /** The second half of the creation: the bound, then the exclusive creation of the file. */
    method CreateNew(key: Key, now: int, max: nat) returns (answer: Answer)
      modifies this
      ensures |Readable(old(entries))| <= max ==> |Readable(entries)| <= max
      ensures old(unlinkFails) == [] ==> unlinkFails == []
      ensures old(unlinkFails) == [] && key !in old(entries) ==>
                && answer == EagerAnswer(Alive(old(entries), now), key, max)
                && Alive(entries, now) == EagerStore(Alive(old(entries), now), key, now, max)
    {
      hide Pruning, Readable, Alive;
      var rawCount := |entries.Keys|;
      RawCountBounds(entries, now);
      var live := rawCount;
      if rawCount + PRUNE_SCAN_MARGIN >= max {
        live := PruneExpired(now);
        PruningEnds(old(entries), entries, live, now);
      }
      if live >= max { return Capacity; }
      if key in entries { return Duplicate; }
      NewReceipt(entries, key, now);
      entries := entries[key := Some(now)];
      return Created;
    }
  }

  /** The scan has gone through all but the remaining entries and has counted what it left. */
  ghost predicate Pruning(before: Entries, entries: Entries, remaining: set<Key>, live: nat, now: int) {
    && Alive(entries, now) == Alive(before, now) && entries.Keys <= before.Keys
    && (forall k :: k in entries ==> entries[k] == before[k])
    && live == |Readable(entries) - remaining|
  }

  ghost predicate Swept(entries: Entries, remaining: set<Key>, now: int) {
    forall k :: k in entries && k !in remaining ==> !Expired(entries[k], now)
  }

  lemma PruningStarts(entries: Entries, now: int)
    ensures Pruning(entries, entries, entries.Keys, 0, now) && Swept(entries, entries.Keys, now)
  {
    assert Readable(entries) - entries.Keys == {};
  }

  lemma PruningStep(before: Entries, entries: Entries, remaining: set<Key>, live: nat, now: int, key: Key)
    requires Pruning(before, entries, remaining, live, now) && remaining <= entries.Keys && key in remaining
    ensures Pruning(before, entries, remaining - {key}, live + if entries[key].Some? then 1 else 0, now)
    ensures Expired(entries[key], now) ==> Pruning(before, entries - {key}, remaining - {key}, live, now)
    ensures Swept(entries, remaining, now) ==>
              if Expired(entries[key], now) then Swept(entries - {key}, remaining - {key}, now)
                  else Swept(entries, remaining - {key}, now)
  {
    Counted(entries, entries, remaining, key);
    Counted(entries, entries - {key}, remaining, key);
    if Expired(entries[key], now) {
      assert Alive(entries - {key}, now) == Alive(entries, now);
    }
  }

  lemma SweptIsAlive(before: Entries, entries: Entries, live: nat, now: int)
    requires Pruning(before, entries, {}, live, now) && Swept(entries, {}, now)
    ensures entries == Alive(before, now)
  {
    assert Alive(entries, now) == entries;
  }

  lemma PruningEnds(before: Entries, entries: Entries, live: nat, now: int)
    requires Pruning(before, entries, {}, live, now)
    ensures live == |Readable(entries)| && |Readable(entries)| <= |Readable(before)| &&
              Alive(entries, now) == Alive(before, now)
    ensures entries.Keys <= before.Keys
  {
    assert Readable(entries) - {} == Readable(entries);
    SubsetSize(Readable(entries), Readable(before));
  }

  /** A plain count of the files is at least the count of the receipts still alive. */
  lemma RawCountBounds(entries: Entries, now: int)
    ensures |Readable(entries)| <= |entries.Keys| && |Readable(Alive(entries, now))| <= |entries.Keys|
    ensures Alive(entries, now).Keys <= entries.Keys
  {
    SubsetSize(Readable(entries), entries.Keys);
    SubsetSize(Readable(Alive(entries, now)), entries.Keys);
  }

  lemma NewReceipt(entries: Entries, key: Key, now: int)
    requires key !in entries
    ensures |Readable(entries[key := Some(now)])| == |Readable(entries)| + 1
    ensures Alive(entries[key := Some(now)], now) == Alive(entries, now)[key := Some(now)]
    ensures key !in Alive(entries, now)
  {
    assert Readable(entries[key := Some(now)]) == Readable(entries) + {key};
  }

  lemma Counted(before: Entries, after: Entries, remaining: set<Key>, key: Key)
    requires key in remaining && key in before && (after == before || after == before - {key})
    ensures |Readable(after) - (remaining - {key})| == |Readable(before) - remaining| + if key in after &&
              after[key].Some? then 1 else 0
  {
    if key in after && after[key].Some? {
      assert Readable(after) - (remaining - {key}) == (Readable(before) - remaining) + {key};
    } else {
      assert Readable(after) - (remaining - {key}) == Readable(before) - remaining;
    }
  }

  // ----- runs -----

  /** One enqueue, some milliseconds after the one before it. */
  datatype Enqueue = Enqueue(elapsed: nat, key: Key)

  function Clock(start: int, calls: seq<Enqueue>): int {
    if calls == [] then start else Clock(start, calls[..|calls| - 1]) + calls[|calls| - 1].elapsed
  }

  /** The store that prunes everything on every call. */
  ghost function EagerStoreAfter(initial: Entries, start: int, calls: seq<Enqueue>, max: nat): Entries {
    if calls == [] then initial
    else
      var n := |calls| - 1;
      EagerStore(Alive(EagerStoreAfter(initial, start, calls[..n], max), Clock(start, calls)), calls[n].key,
          Clock(start, calls), max)
  }

  ghost function EagerAnswers(initial: Entries, start: int, calls: seq<Enqueue>, max: nat): seq<Answer> {
    if calls == [] then []
    else
      var n := |calls| - 1;
      EagerAnswers(initial, start, calls[..n], max)
        + [EagerAnswer(Alive(EagerStoreAfter(initial, start, calls[..n], max), Clock(start, calls)), calls[n].key, max)]
  }

  lemma AliveLater(entries: Entries, now: int, later: int)
    requires now <= later
    ensures Alive(Alive(entries, now), later) == Alive(entries, later)
  {
  }

  /**
    With a clock that does not go back and unlinks that work, pruning lazily gives every caller the
    answer that pruning on every call would give, whatever files the directory held at first.
   */
  method Run(initial: Entries, start: int, calls: seq<Enqueue>, max: nat) returns (answers: seq<Answer>, store: Store)
    ensures answers == EagerAnswers(initial, start, calls, max)
    ensures |Readable(initial)| <= max ==> |Readable(store.entries)| <= max
  {
    hide Alive, Readable, EagerAnswer, EagerStore;
    store := new Store();
    store.entries := initial;
    answers := [];
    var now := start;
    for i := 0 to |calls|
      invariant fresh(store) && store.unlinkFails == []
      invariant now == Clock(start, calls[..i]) && answers == EagerAnswers(initial, start, calls[..i], max)
      invariant Alive(store.entries, now) == Alive(EagerStoreAfter(initial, start, calls[..i], max), now)
      invariant |Readable(initial)| <= max ==> |Readable(store.entries)| <= max
    {
      var soFar := calls[..i + 1];
      assert soFar[..i] == calls[..i] && soFar[i] == calls[i];
      AliveLater(store.entries, now, now + calls[i].elapsed);
      AliveLater(EagerStoreAfter(initial, start, calls[..i], max), now, now + calls[i].elapsed);
      now := now + calls[i].elapsed;
      ghost var eager := Alive(store.entries, now);
      AliveLater(store.entries, now, now);
      var answer := store.Create(calls[i].key, now, max);
      answers := answers + [answer];
      EagerStaysAlive(eager, calls[i].key, now, max);
    }
    assert calls[..|calls|] == calls;
  }

  lemma EagerStaysAlive(entries: Entries, key: Key, now: int, max: nat)
    requires entries == Alive(entries, now)
    ensures Alive(EagerStore(entries, key, now, max), now) == EagerStore(entries, key, now, max)
  {
  }
}
