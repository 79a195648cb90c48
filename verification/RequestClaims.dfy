/** The root helper's request receipts: each request id may start one service change, however often it is replayed. */
module RequestClaims {
  import opened Wrappers

  const REQUEST_RETENTION_SECONDS := 30 * 24 * 60 * 60
  const MAX_REQUEST_RECEIPTS := 4_096
  const MAX_REQUEST_SCAN_ENTRIES := 8_192

  datatype Action = Reset | Resume(target: string) | SetModel(target: string)
  datatype Status = InProgress | Complete | Failed
  datatype Receipt = Receipt(chat: string, action: Action, status: Status, updated: int)

  /** A receipt, or the temporary file of an update that did not get to its rename. */
  datatype Name = Final(id: string) | Temp(id: string, nonce: nat)

  /** Torn: the file was created but its content never arrived. */
  datatype Entry = Written(receipt: Receipt) | Torn

  datatype Claim = Claim(claimed: bool, receipt: Receipt)

  predicate Expired(e: Entry, now: int) { e.Written? && now - e.receipt.updated >= REQUEST_RETENTION_SECONDS }

  /** What survives a complete pruning pass. */
  predicate Survives(name: Name, e: Entry, now: int) { name.Final? && !Expired(e, now) }

  ghost function Finals(entries: map<Name, Entry>): set<Name> { set name | name in entries && name.Final? }

  ghost function Live(entries: map<Name, Entry>, now: int): set<Name> {
    set name | name in entries && name.Final? &&
      (entries[name].Written? ==> now - entries[name].receipt.updated < 30 * 24 * 60 * 60)
  }

  /** A receipt whose content never arrived stops every later pruning pass. */
  predicate TornReceipt(name: Name, e: Entry) { name.Final? && e.Torn? }

  /** The pruning pass succeeds and leaves room for one more receipt. */
  ghost predicate Room(entries: map<Name, Entry>, now: int) {
    && (forall name :: name in entries ==> !TornReceipt(name, entries[name]))
    && |entries.Keys| <= MAX_REQUEST_SCAN_ENTRIES && |Live(entries, now)| < MAX_REQUEST_RECEIPTS
  }

  /** A claimed request keeps its receipt until the retention time has passed. */
  ghost predicate Held(entries: map<Name, Entry>, clock: int, id: string, since: int) {
    || clock >= since + REQUEST_RETENTION_SECONDS
    || (Final(id) in entries && entries[Final(id)].Written? && entries[Final(id)].receipt.updated >= since)
  }

  /** claimedAt: when each request was last claimed. */
  ghost predicate Sound(entries: map<Name, Entry>, clock: int, claimedAt: map<string, int>) {
    && |Finals(entries)| <= MAX_REQUEST_RECEIPTS
    && (forall id :: id in claimedAt ==> claimedAt[id] <= clock && Held(entries, clock, id, claimedAt[id]))
  }

  /** Only temporary files and expired receipts are gone. */
  ghost predicate PrunedFrom(before: map<Name, Entry>, after: map<Name, Entry>, now: int) {
    && (forall name :: name in after ==> name in before && after[name] == before[name])
    && (forall name :: name in before && Survives(name, before[name], now) ==> name in after)
  }

  lemma PruneKeepsSound(before: map<Name, Entry>, after: map<Name, Entry>, now: int, claimedAt: map<string, int>)
    requires Sound(before, now, claimedAt) && PrunedFrom(before, after, now)
    ensures Sound(after, now, claimedAt)
  {
    SubsetSize(Finals(after), Finals(before));
    forall id | id in claimedAt ensures Held(after, now, id, claimedAt[id]) {
      assert Held(before, now, id, claimedAt[id]);
    }
  }

  /** The scan after index entries: what it has looked at and left is live, what it has not is as it was. */
  ghost predicate Scanned(
    before: map<Name, Entry>, entries: map<Name, Entry>, remaining: set<Name>, kept: nat, index: nat, now: int) {
    && PrunedFrom(before, entries, now) && remaining <= entries.Keys
    && (forall name :: name in entries && name !in remaining ==> Survives(name, entries[name], now))
    && kept == |entries.Keys - remaining| && index + |remaining| == |before.Keys|
  }

  /** No receipt looked at so far was torn. */
  ghost predicate Whole(before: map<Name, Entry>, remaining: set<Name>) {
    forall name :: name in before && name !in remaining ==> !TornReceipt(name, before[name])
  }

  lemma ScanStarts(entries: map<Name, Entry>, now: int)
    ensures Scanned(entries, entries, entries.Keys, 0, 0, now) && Whole(entries, entries.Keys)
  {
  }

  lemma ScanEnds(before: map<Name, Entry>, entries: map<Name, Entry>, kept: nat, index: nat, now: int)
    requires Scanned(before, entries, {}, kept, index, now)
    ensures PrunedFrom(before, entries, now) && kept == |entries.Keys|
    ensures forall name :: name in entries ==> Survives(name, entries[name], now)
    ensures Whole(before, {}) && index <= MAX_REQUEST_SCAN_ENTRIES ==>
              (Room(before, now) <==> kept < MAX_REQUEST_RECEIPTS)
  {
    assert entries.Keys - {} == entries.Keys;
    assert entries.Keys == Live(before, now);
  }

  lemma ScanStep(
    before: map<Name, Entry>, entries: map<Name, Entry>, remaining: set<Name>, kept: nat, index: nat, now: int,
    name: Name)
    requires Scanned(before, entries, remaining, kept, index, now) && name in remaining
    ensures name in entries && name in before && entries[name] == before[name] && PrunedFrom(before, entries, now)
    ensures !Survives(name, entries[name], now) ==> PrunedFrom(before, entries - {name}, now)
    ensures Survives(name, entries[name], now) ==>
              Scanned(before, entries, remaining - {name}, kept + 1, index + 1, now)
    ensures !Survives(name, entries[name], now) ==>
              Scanned(before, entries - {name}, remaining - {name}, kept, index + 1, now)
  {
    assert entries.Keys - (remaining - {name}) == (entries.Keys - remaining) + {name};
    assert (entries - {name}).Keys - (remaining - {name}) == entries.Keys - remaining;
  }

  /** A torn receipt, or too many entries, leave no room. */
  lemma ScanFails(
    before: map<Name, Entry>, entries: map<Name, Entry>, remaining: set<Name>, kept: nat, index: nat, now: int,
    name: Name)
    requires Scanned(before, entries, remaining, kept, index, now) && name in remaining && name in before
    ensures index >= MAX_REQUEST_SCAN_ENTRIES || TornReceipt(name, before[name]) ==> !Room(before, now)
    ensures !TornReceipt(name, before[name]) && Whole(before, remaining) ==> Whole(before, remaining - {name})
  {
    assert |remaining| > 0;
  }

  lemma PrunedKeeps(before: map<Name, Entry>, after: map<Name, Entry>, now: int)
    requires PrunedFrom(before, after, now)
    ensures after.Keys <= before.Keys && forall name :: name in after ==> after[name] == before[name]
    ensures forall name :: name in before && Survives(name, before[name], now) ==> name in after
  {
  }

  /** A request without a receipt was last claimed the retention time ago or longer. */
  lemma NoReceiptLeft(entries: map<Name, Entry>, clock: int, claimedAt: map<string, int>, id: string)
    requires Sound(entries, clock, claimedAt)
    ensures id in claimedAt && Final(id) !in entries ==> clock >= claimedAt[id] + REQUEST_RETENTION_SECONDS
  {
    assert id in claimedAt ==> Held(entries, clock, id, claimedAt[id]);
  }

  lemma ClaimKeepsSound(entries: map<Name, Entry>, clock: int, claimedAt: map<string, int>, id: string)
    requires Sound(entries, clock, claimedAt)
    requires Final(id) in entries && entries[Final(id)].Written? && entries[Final(id)].receipt.updated == clock
    ensures Sound(entries, clock, claimedAt[id := clock])
  {
    var after := claimedAt[id := clock];
    forall other | other in after ensures Held(entries, clock, other, after[other]) {
      if other != id { assert Held(entries, clock, other, claimedAt[other]); }
    }
  }

  class RequestState {
    var entries: map<Name, Entry>
    var clock: int
    var schedule: seq<Fault>
    ghost var claimedAt: map<string, int>

    constructor (now: int)
      ensures Valid() && entries == map[] && claimedAt == map[] && clock == now
    {
      entries, clock, schedule, claimedAt := map[], now, [], map[];
    }

    ghost predicate Valid()
      reads this
    {
      Sound(entries, clock, claimedAt)
    }

    /** Time passes. */
    method Wait(elapsed: nat)
      requires Valid()
      modifies this`clock
      ensures Valid() && clock == old(clock) + elapsed
    {
      clock := clock + elapsed;
      forall id | id in claimedAt ensures Held(entries, clock, id, claimedAt[id]) {
        assert Held(entries, old(clock), id, claimedAt[id]);
      }
    }

    method Pause() returns (t: Fault)
      modifies this`schedule
      ensures old(schedule) == [] ==> t == Fine && schedule == []
    {
      if schedule == [] { return Fine; }
      t, schedule := schedule[0], schedule[1..];
    }

    /** One entry met by the pruning scan. */
    method PruneEntry(name: Name) returns (r: Flow<bool>)
      requires name in entries
      modifies this`schedule, this`entries
      ensures entries == old(entries) ||
                (!Survives(name, old(entries)[name], clock) && entries == old(entries) - {name})
      ensures r == Return(true) ==>
                entries == old(entries) && Survives(name, entries[name], clock) && entries[name].Written?
      ensures r == Return(false) ==> entries == old(entries) - {name}
      ensures old(schedule) == [] ==> schedule == [] && !r.Die? && (r.Throw? <==> TornReceipt(name, old(entries)[name]))
    {
      var t := Pause();
      if t == Crash { return Die; }
      if t == Fail || (name.Final? && !entries[name].Written?) { return Throw; }
      var live := Survives(name, entries[name], clock);
      if !live { entries := entries - {name}; }
      if t == Late { return Throw; }
      return Return(live);
    }

    /** _prune_request_receipts. The order of the scan is that of the directory. */
    method Prune() returns (r: Flow<()>)
      modifies this`schedule, this`entries
      ensures PrunedFrom(old(entries), entries, clock)
      ensures r.Return? ==>
                && (forall name :: name in entries ==> Survives(name, entries[name], clock))
                && |entries.Keys| < MAX_REQUEST_RECEIPTS
      ensures old(schedule) == [] ==> schedule == [] && !r.Die? && (r.Return? <==> Room(old(entries), clock))
    {
      hide Scanned, PrunedFrom, Survives, TornReceipt, Live, Room, Whole;
      var remaining := entries.Keys;
      ScanStarts(entries, clock);
      var index, kept := 0, 0;
      while remaining != {}
        invariant 0 <= index <= MAX_REQUEST_SCAN_ENTRIES
        invariant Scanned(old(entries), entries, remaining, kept, index, clock)
        invariant old(schedule) == [] ==> schedule == [] && Whole(old(entries), remaining)
        decreases |remaining|
      {
        var name :| name in remaining;
        ScanStep(old(entries), entries, remaining, kept, index, clock, name);
        ScanFails(old(entries), entries, remaining, kept, index, clock, name);
        index := index + 1;
        if index > MAX_REQUEST_SCAN_ENTRIES { return Throw; }
        var live := PruneEntry(name);
        if live.IsFailure() { return live.PropagateFailure(); }
        if live.value { kept := kept + 1; }
        remaining := remaining - {name};
      }
      ScanEnds(old(entries), entries, kept, index, clock);
      var t := Pause();
      if t == Crash { return Die; }
      if t != Fine { return Throw; }
      if kept >= MAX_REQUEST_RECEIPTS { return Throw; }
      return Return(());
    }

    /** The exclusive creation of a receipt, then its content. */
    method CreateReceipt(id: string, payload: Receipt) returns (r: Flow<()>)
      requires Valid() && |entries.Keys| < MAX_REQUEST_RECEIPTS && Final(id) !in entries
      modifies this`schedule, this`entries
      ensures Valid()
      ensures forall name :: name in old(entries) ==> name in entries && entries[name] == old(entries)[name]
      ensures entries.Keys <= old(entries).Keys + {Final(id)}
      ensures r.Return? ==> entries == old(entries)[Final(id) := Written(payload)]
      ensures old(schedule) == [] ==> schedule == [] && r.Return?
    {
      hide Sound;
      var t := Pause();
      if t == Crash { return Die; }
      if t != Fine { return Throw; }
      ghost var kept := entries;
      entries := entries[Final(id) := Torn];
      NewReceiptKeepsSound(kept, entries, clock, claimedAt, id);
      t := Pause();
      if t == Crash { return Die; }
      if t == Fail { return Throw; }
      entries := entries[Final(id) := Written(payload)];
      NewReceiptKeepsSound(kept, entries, clock, claimedAt, id);
      if t == Late { return Throw; }
      return Return(());
    }

    /** The part of claim_request for a request without a receipt. */
    method ClaimNew(id: string, payload: Receipt) returns (r: Flow<()>)
      requires Valid() && Final(id) !in entries && payload.updated == clock
      modifies this`schedule, this`entries, this`claimedAt
      ensures Valid()
      ensures r.Return? ==>
                && (id in old(claimedAt) ==> clock >= old(claimedAt)[id] + REQUEST_RETENTION_SECONDS)
                && claimedAt == old(claimedAt)[id := clock]
                && Final(id) in entries && entries[Final(id)] == Written(payload)
      ensures !r.Return? ==> claimedAt == old(claimedAt)
      ensures old(schedule) == [] ==> schedule == [] && !r.Die? && (r.Return? <==> Room(old(entries), clock))
      ensures entries.Keys <= old(entries).Keys + {Final(id)}
      ensures old(schedule) == [] && r.Throw? ==> entries.Keys <= old(entries).Keys
      ensures forall name :: name in entries && name != Final(id) ==> entries[name] == old(entries)[name]
      ensures forall name :: name in old(entries) && Survives(name, old(entries)[name], clock) ==>
                name in entries && entries[name] == old(entries)[name]
    {
      hide Sound, Room, PrunedFrom, Survives, TornReceipt;
      NoReceiptLeft(entries, clock, claimedAt, id);
      ghost var before := entries;
      var pruned := Prune();
      PruneKeepsSound(before, entries, clock, claimedAt);
      PrunedKeeps(before, entries, clock);
      if pruned.IsFailure() { return pruned; }
      r := CreateReceipt(id, payload);
      if r.IsFailure() { return; }
      ClaimKeepsSound(entries, clock, claimedAt, id);
      claimedAt := claimedAt[id := clock];
    }

    /**
      claim_request, under the helper's lock. Only the run that creates the receipt is told that it holds the claim.
     */
    method ClaimRequest(id: string, chat: string, action: Action) returns (r: Flow<Claim>)
      requires Valid()
      modifies this`schedule, this`entries, this`claimedAt
      ensures Valid()
      ensures r.Return? && r.value.claimed ==>
                && (id in old(claimedAt) ==> clock >= old(claimedAt)[id] + REQUEST_RETENTION_SECONDS)
                && claimedAt == old(claimedAt)[id := clock]
                && r.value.receipt == Receipt(chat, action, InProgress, clock)
                && Final(id) !in old(entries) && Final(id) in entries && entries[Final(id)] == Written(r.value.receipt)
      ensures !(r.Return? && r.value.claimed) ==> claimedAt == old(claimedAt)
      ensures old(schedule) == [] ==> schedule == [] && !r.Die?
      ensures old(schedule) == [] && Final(id) !in old(entries) ==> (r.Return? <==> Room(old(entries), clock))
      ensures old(schedule) == [] && Final(id) in old(entries) ==>
                (r.Return? <==>
                   var e := old(entries)[Final(id)];
                   e.Written? && e.receipt.chat == chat && e.receipt.action == action)
      ensures entries.Keys <= old(entries).Keys + {Final(id)}
      ensures old(schedule) == [] && r.Throw? ==> entries.Keys <= old(entries).Keys
      ensures forall name :: name in entries && name != Final(id) ==> entries[name] == old(entries)[name]
      ensures r.Return? && !r.value.claimed ==>
                && entries == old(entries) && Final(id) in entries && entries[Final(id)] == Written(r.value.receipt)
                && r.value.receipt.chat == chat && r.value.receipt.action == action
      ensures Final(id) in old(entries) ==> entries == old(entries) && !(r.Return? && r.value.claimed)
      ensures forall name :: name in old(entries) && Survives(name, old(entries)[name], clock) ==>
                name in entries && entries[name] == old(entries)[name]
    {
      hide Sound, Room, PrunedFrom, Survives, TornReceipt;
      var t := Pause();
      if t == Crash { return Die; }
      if t != Fine { return Throw; }
      if Final(id) in entries {
        if !entries[Final(id)].Written? { return Throw; }
        var existing := entries[Final(id)].receipt;
        if existing.chat != chat || existing.action != action { return Throw; }
        return Return(Claim(false, existing));
      }
      var payload := Receipt(chat, action, InProgress, clock);
      var created := ClaimNew(id, payload);
      if created.IsFailure() { return created.PropagateFailure(); }
      return Return(Claim(true, payload));
    }

    /** finish_request: the receipt is replaced by way of a temporary file. */
    method FinishRequest(id: string, status: Status, nonce: nat) returns (r: Flow<()>)
      requires Valid() && status != InProgress
      modifies this`schedule, this`entries
      ensures Valid()
      ensures forall name :: name in old(entries) && name != Final(id) && name != Temp(id, nonce) ==>
                name in entries && entries[name] == old(entries)[name]
      ensures r.Return? ==>
                && Final(id) in old(entries) && old(entries)[Final(id)].Written?
                && Final(id) in entries
                && entries[Final(id)] == Written(old(entries)[Final(id)].receipt.(status := status, updated := clock))
      ensures Final(id) in old(entries) ==> Final(id) in entries
      ensures old(schedule) == [] ==>
                && schedule == [] && !r.Die?
                && (r.Return? <==> Final(id) in old(entries) && old(entries)[Final(id)].Written?)
                && entries.Keys <= old(entries).Keys
                && (Final(id) in entries && old(entries)[Final(id)].Written? ==> entries[Final(id)].Written?)
    {
      hide Sound, Finals;
      var t := Pause();
      if t == Crash { return Die; }
      if t != Fine || Final(id) !in entries || !entries[Final(id)].Written? { return Throw; }
      SoundTimes(entries, clock, claimedAt);
      var payload := entries[Final(id)].receipt.(status := status, updated := clock);
      ghost var before := entries;
      UpdateKeepsSound(before, before[Temp(id, nonce) := Torn], clock, claimedAt, id);
      UpdateKeepsSound(before, (before[Temp(id, nonce) := Torn] - {Temp(id, nonce)})[Final(id) := Written(payload)],
          clock, claimedAt, id);
      t := Pause();
      if t == Fail { return Throw; }
      entries := entries[Temp(id, nonce) := Torn];
      if t == Crash { return Die; }
      if t == Late { return Throw; }
      t := Pause();
      if t == Crash { return Die; }
      if t == Fail { return Throw; }
      entries := (entries - {Temp(id, nonce)})[Final(id) := Written(payload)];
      if t == Late { return Throw; }
      return Return(());
    }
  }

  lemma SoundTimes(entries: map<Name, Entry>, clock: int, claimedAt: map<string, int>)
    requires Sound(entries, clock, claimedAt)
    ensures forall id :: id in claimedAt ==> claimedAt[id] <= clock
  {
  }

  /** A receipt brought up to date, and temporary files that come and go, keep every claim. */
  lemma UpdateKeepsSound(
    before: map<Name, Entry>, after: map<Name, Entry>, clock: int, claimedAt: map<string, int>, id: string)
    requires Sound(before, clock, claimedAt)
    requires forall name: Name :: name.Final? ==> (name in after <==> name in before)
    requires forall name: Name :: name.Final? && name in after ==>
               after[name] == before[name] ||
                   (name == Final(id) && after[name].Written? && after[name].receipt.updated == clock)
    ensures Sound(after, clock, claimedAt)
  {
    assert Finals(after) == Finals(before);
    forall other | other in claimedAt ensures Held(after, clock, other, claimedAt[other]) {
      assert Held(before, clock, other, claimedAt[other]);
    }
  }

  lemma NewReceiptKeepsSound(
    before: map<Name, Entry>, after: map<Name, Entry>, now: int, claimedAt: map<string, int>, id: string)
    requires Sound(before, now, claimedAt) && |before.Keys| < MAX_REQUEST_RECEIPTS && Final(id) !in before
    requires after.Keys == before.Keys + {Final(id)} && forall name :: name in before ==> after[name] == before[name]
    ensures Sound(after, now, claimedAt)
  {
    SubsetSize(Finals(after), after.Keys);
    forall other | other in claimedAt ensures Held(after, now, other, claimedAt[other]) {
      assert Held(before, now, other, claimedAt[other]);
    }
  }

  /** A helper run, some seconds after the one before it. */
  datatype Call = Call(
    elapsed: nat, chat: string, id: string, action: Action, schedule: seq<Fault>, result: Option<Status>, nonce: nat)

  /** When the k-th run asked for its claim, and whether it got it. */
  datatype Answer = Answer(time: int, id: string, claimed: bool)

  ghost predicate Apart(answers: seq<Answer>) {
    forall i, j :: 0 <= i < j < |answers| ==>
      answers[i].claimed && answers[j].claimed && answers[i].id == answers[j].id ==>
      answers[j].time - answers[i].time >= REQUEST_RETENTION_SECONDS
  }

  /** The latest claim of every id is the one on record. */
  ghost predicate Recorded(answers: seq<Answer>, claimedAt: map<string, int>) {
    forall i :: 0 <= i < |answers| && answers[i].claimed ==>
        answers[i].id in claimedAt && answers[i].time <= claimedAt[answers[i].id]
  }

  /** Each answer is given its call's seconds after the one before it. */
  ghost predicate OnTime(start: int, calls: seq<Call>, answers: seq<Answer>, i: nat)
    requires i < |answers| <= |calls|
  {
    answers[i].id == calls[i].id && answers[i].time == calls[i].elapsed + if i == 0 then start else answers[i - 1].time
  }

  /**
    The directory before and after one run. Left alone, a run without a receipt gets its claim exactly if there is room.
   */
  ghost predicate Follows(call: Call, answer: Answer, before: map<Name, Entry>, after: map<Name, Entry>) {
    && (answer.claimed ==> Final(call.id) !in before && Final(call.id) in after)
    && (forall name :: name in before && Survives(name, before[name], answer.time) && name != Final(call.id) ==>
          name in after && after[name] == before[name])
    && (call.schedule == [] && Final(call.id) !in before ==> (answer.claimed <==> Room(before, answer.time)))
  }

  function IdsOf(calls: seq<Call>, n: nat): set<string>
    requires n <= |calls|
  {
    set k | 0 <= k < n :: calls[k].id
  }

  ghost predicate Untroubled(calls: seq<Call>, n: nat)
    requires n <= |calls|
  {
    forall k :: 0 <= k < n ==> calls[k].schedule == []
  }

  /** After n untroubled calls: whole receipts only, at most one for each call. */
  ghost predicate Tidy(calls: seq<Call>, n: nat, entries: map<Name, Entry>)
    requires n <= |calls|
  {
    && |entries.Keys| <= n
    && forall name :: name in entries ==> name.Final? && entries[name].Written? && name.id in IdsOf(calls, n)
  }

  lemma TidyHasRoom(calls: seq<Call>, n: nat, entries: map<Name, Entry>, now: int)
    requires n < |calls| && Tidy(calls, n, entries)
    ensures n < MAX_REQUEST_RECEIPTS ==> Room(entries, now)
    ensures calls[n].id !in IdsOf(calls, n) ==> Final(calls[n].id) !in entries
  {
    SubsetSize(Live(entries, now), entries.Keys);
  }

  /** An untroubled run leaves whole receipts only, and no name but its own is new. */
  ghost predicate Neat(call: Call, before: map<Name, Entry>, after: map<Name, Entry>) {
    call.schedule == [] && (forall name :: name in before ==> name.Final? && before[name].Written?) ==>
      && after.Keys <= before.Keys + {Final(call.id)}
      && forall name :: name in after ==> after[name].Written?
  }

  lemma StaysTidy(calls: seq<Call>, n: nat, before: map<Name, Entry>, answer: Answer, after: map<Name, Entry>)
    requires n < |calls| && Neat(calls[n], before, after)
    requires Untroubled(calls, n) ==> Tidy(calls, n, before)
    ensures Untroubled(calls, n + 1) ==> Tidy(calls, n + 1, after)
  {
    if Untroubled(calls, n + 1) {
      assert calls[n].schedule == [] && Untroubled(calls, n);
      SubsetSize(after.Keys, before.Keys + {Final(calls[n].id)});
      assert IdsOf(calls, n + 1) == IdsOf(calls, n) + {calls[n].id};
    }
  }

  /** One helper run's use of the receipts. */
  method Serve(state: RequestState, call: Call) returns (answer: Answer)
    requires state.Valid()
    modifies state
    ensures state.Valid()
    ensures state.clock == old(state.clock) + call.elapsed && answer == Answer(state.clock, call.id, answer.claimed)
    ensures answer.claimed ==>
              && (call.id in old(state.claimedAt) ==>
                    state.clock >= old(state.claimedAt)[call.id] + REQUEST_RETENTION_SECONDS)
              && state.claimedAt == old(state.claimedAt)[call.id := state.clock]
    ensures !answer.claimed ==> state.claimedAt == old(state.claimedAt)
    ensures Follows(call, answer, old(state.entries), state.entries)
    ensures Neat(call, old(state.entries), state.entries)
  {
    state.Wait(call.elapsed);
    state.schedule := call.schedule;
    var r := state.ClaimRequest(call.id, call.chat, call.action);
    answer := Answer(state.clock, call.id, r.Return? && r.value.claimed);
    if answer.claimed && call.result.Some? && call.result.value != InProgress {
      var _ := state.FinishRequest(call.id, call.result.value, call.nonce);
    }
  }

  /**
    Any helper runs, each of which may fail or be killed anywhere: two runs that are both granted the
    same request lie at least the retention time apart, and the receipts never outgrow their bound.
    An untroubled run whose request has no receipt is granted it exactly if there is room, as there is
    for the first 4,096 of untroubled runs.
   */
  method Run(start: int, calls: seq<Call>)
    returns (answers: seq<Answer>, entries: map<Name, Entry>, ghost trail: seq<map<Name, Entry>>)
    ensures |answers| == |calls| && Course(start, calls, answers, trail)
    ensures trail[0] == map[] && trail[|calls|] == entries
    ensures |Finals(entries)| <= MAX_REQUEST_RECEIPTS
  {
    hide Follows, Room, Sound, Recorded, Tidy, Course;
    var state := new RequestState(start);
    answers, trail := [], [state.entries];
    NoAnswers(start, calls, trail, state.claimedAt);
    for i := 0 to |calls|
      invariant fresh(state) && state.Valid()
      invariant |answers| == i && state.clock == if i == 0 then start else answers[i - 1].time
      invariant |trail| == i + 1 && trail[0] == map[] && trail[i] == state.entries
      invariant Course(start, calls, answers, trail) && Recorded(answers, state.claimedAt)
      invariant Untroubled(calls, i) ==> Tidy(calls, i, state.entries)
    {
      ghost var before, claimedAt := state.entries, state.claimedAt;
      CourseParts(start, calls, answers, trail);
      var answer := Serve(state, calls[i]);
      StaysApart(answers, claimedAt, answer, state.claimedAt);
      StaysTidy(calls, i, before, answer, state.entries);
      CourseGoesOn(start, calls, answers, trail, answer, state.entries);
      answers, trail := answers + [answer], trail + [state.entries];
    }
    CourseParts(start, calls, answers, trail);
    SoundBound(state.entries, state.clock, state.claimedAt);
    entries := state.entries;
  }

  ghost predicate FollowsAt(calls: seq<Call>, answers: seq<Answer>, trail: seq<map<Name, Entry>>, i: nat)
    requires i < |answers| <= |calls| && |trail| == |answers| + 1
  {
    Follows(calls[i], answers[i], trail[i], trail[i + 1])
  }

  /** While no run is troubled, the first 4,096 requests of new ids are granted. */
  ghost predicate FirstAt(calls: seq<Call>, answers: seq<Answer>, i: nat)
    requires i < |answers| <= |calls|
  {
    i < MAX_REQUEST_RECEIPTS && Untroubled(calls, i + 1) && calls[i].id !in IdsOf(calls, i) ==> answers[i].claimed
  }

  /** The runs lead along the trail, each at its time, and no request is granted again too early. */
  ghost predicate Course(start: int, calls: seq<Call>, answers: seq<Answer>, trail: seq<map<Name, Entry>>) {
    && |answers| <= |calls| && |trail| == |answers| + 1 && Apart(answers)
    && forall i :: 0 <= i < |answers| ==>
         OnTime(start, calls, answers, i) && FollowsAt(calls, answers, trail, i) && FirstAt(calls, answers, i)
  }

  lemma CourseParts(start: int, calls: seq<Call>, answers: seq<Answer>, trail: seq<map<Name, Entry>>)
    requires Course(start, calls, answers, trail)
    ensures |answers| <= |calls| && |trail| == |answers| + 1 && Apart(answers)
  {
  }

  lemma NoAnswers(start: int, calls: seq<Call>, trail: seq<map<Name, Entry>>, claimedAt: map<string, int>)
    requires |trail| == 1
    ensures Course(start, calls, [], trail) && Recorded([], claimedAt) && Tidy(calls, 0, map[])
  {
  }

  lemma StaysApart(answers: seq<Answer>, was: map<string, int>, answer: Answer, claimedAt: map<string, int>)
    requires Apart(answers) && Recorded(answers, was)
    requires answer.claimed ==>
               && (answer.id in was ==> answer.time >= was[answer.id] + REQUEST_RETENTION_SECONDS)
               && claimedAt == was[answer.id := answer.time]
    requires !answer.claimed ==> claimedAt == was
    ensures Apart(answers + [answer]) && Recorded(answers + [answer], claimedAt)
  {
  }

  lemma CourseGoesOn(
    start: int, calls: seq<Call>, answers: seq<Answer>, trail: seq<map<Name, Entry>>, answer: Answer,
    after: map<Name, Entry>)
    requires Course(start, calls, answers, trail) && |answers| < |calls|
    requires Follows(calls[|answers|], answer, trail[|answers|], after) && answer.id == calls[|answers|].id
    requires answer.time == calls[|answers|].elapsed + if answers == [] then start else answers[|answers| - 1].time
    requires Apart(answers + [answer])
    requires Untroubled(calls, |answers|) ==> Tidy(calls, |answers|, trail[|answers|])
    ensures Course(start, calls, answers + [answer], trail + [after])
  {
    hide Follows, Apart, Tidy, Untroubled, IdsOf;
    var n := |answers|;
    var more, longer := answers + [answer], trail + [after];
    NextGranted(calls, n, answer, trail[n], after);
    forall i | 0 <= i < |more|
      ensures OnTime(start, calls, more, i) && FollowsAt(calls, more, longer, i) && FirstAt(calls, more, i)
    {
      if i < n {
        assert OnTime(start, calls, answers, i) && FollowsAt(calls, answers, trail, i) && FirstAt(calls, answers, i);
      }
    }
  }

  lemma NextGranted(calls: seq<Call>, n: nat, answer: Answer, before: map<Name, Entry>, after: map<Name, Entry>)
    requires n < |calls| && Follows(calls[n], answer, before, after)
    requires Untroubled(calls, n) ==> Tidy(calls, n, before)
    ensures n < MAX_REQUEST_RECEIPTS && Untroubled(calls, n + 1) && calls[n].id !in IdsOf(calls, n) ==> answer.claimed
  {
    if Untroubled(calls, n + 1) {
      assert calls[n].schedule == [] && Untroubled(calls, n);
      TidyHasRoom(calls, n, before, answer.time);
      Granted(calls[n], answer, before, after);
    }
  }

  lemma Granted(call: Call, answer: Answer, before: map<Name, Entry>, after: map<Name, Entry>)
    requires Follows(call, answer, before, after)
    ensures call.schedule == [] && Final(call.id) !in before && Room(before, answer.time) ==> answer.claimed
  {
  }

  lemma SoundBound(entries: map<Name, Entry>, clock: int, claimedAt: map<string, int>)
    requires Sound(entries, clock, claimedAt)
    ensures |Finals(entries)| <= MAX_REQUEST_RECEIPTS
  {
  }
}
