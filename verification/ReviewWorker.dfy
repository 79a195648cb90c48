/**
  The isolated memory reviewer: a worker that may die anywhere, its durable receipt with a bounded
  number of model attempts, and the immutable proposal it stores before the receipt turns reviewed.
 */
module ReviewWorker {
  import opened Wrappers

  const MEMORY_REVIEW_MAX_ATTEMPTS := 2

  datatype Status = Queued | Reviewed | Failed

  /** What the receipt binds: turn, release, assistant message and snapshot. */
  datatype Binding = Binding(
    session: string, prompt: string, release: string, message: Digest<string>, snapshot: Digest<string>)

  /** failed: failure_phase and failure_reason are present. */
  datatype Receipt = Receipt(binding: Binding, status: Status, attempts: nat, failure: bool)

  datatype Proposal = Proposal(noOp: bool, content: string)
  datatype Record = Record(binding: Binding, watermark: Digest<string>, proposal: Proposal)

  datatype Snapshot = Snapshot(binding: Binding, watermark: Digest<string>)

  datatype Claim = Claimed | Busy | Unavailable
  datatype Answer = Proposed(proposal: Proposal) | Retryable | Permanent

  /** corrupt: a proposal-store call meets a permanent error (bad record, conflict, capacity). */
  datatype Tick = Tick(fault: Fault, corrupt: bool)

  datatype Result = Done(proposal: Proposal) | Retry | GaveUp

  class ReviewHost {
    var receipt: Option<Receipt>
    var proposal: Option<Record>
    var schedule: seq<Tick>
    ghost var modelCalls: nat
    ghost var retries: nat

    constructor (b: Binding)
      ensures Valid() && receipt == Some(Receipt(b, Queued, 0, false)) && proposal == None && modelCalls == retries == 0
    {
      receipt, proposal, schedule, modelCalls, retries := Some(Receipt(b, Queued, 0, false)), None, [], 0, 0;
    }

    ghost predicate Valid()
      reads this
    {
      && receipt.Some?
      && modelCalls <= receipt.value.attempts <= MEMORY_REVIEW_MAX_ATTEMPTS
      && retries <= 1
      && (retries == 1 ==> receipt.value.failure)
      && (receipt.value.status == Reviewed ==> proposal.Some? && proposal.value.binding == receipt.value.binding)
    }

    function Now(): Stored
      reads this
      requires receipt.Some?
    {
      Stored(receipt.value, proposal)
    }

    /** What no step of any worker may undo. */
    twostate predicate Advanced()
      requires old(Valid()) && Valid()
      reads this
    {
      && receipt.value.binding == old(receipt.value.binding)
      && receipt.value.attempts >= old(receipt.value.attempts)
      && (old(receipt.value.status) != Queued ==> receipt == old(receipt))
      && (old(receipt.value.failure) ==> receipt.value.failure)
      && (old(proposal).Some? ==> proposal == old(proposal))
    }

    method Pause() returns (t: Tick)
      modifies this`schedule
      ensures t == if old(schedule) == [] then Tick(Fine, false) else old(schedule)[0]
      ensures schedule == if old(schedule) == [] then [] else old(schedule)[1..]
    {
      if schedule == [] { return Tick(Fine, false); }
      t, schedule := schedule[0], schedule[1..];
    }

    // ----- receipt store -----

    method ReadReceipt() returns (r: Flow<Option<Receipt>>)
      modifies this`schedule
      ensures r.Return? ==> r.value == receipt
      ensures old(schedule) == [] ==> schedule == [] && r.Return?
    {
      var t := Pause();
      if t.fault == Crash { return Die; }
      if t.fault != Fine { return Throw; }
      return Return(receipt);
    }

    /** The temporary file, the rename and the readback of one receipt update. */
    method Replace(next: Receipt) returns (r: Flow<()>)
      modifies this`schedule, this`receipt
      ensures receipt == old(receipt) || receipt == Some(next)
      ensures r.Return? ==> receipt == Some(next)
      ensures old(schedule) == [] ==> schedule == [] && r.Return?
    {
      var t := Pause();
      if t.fault == Crash { return Die; }
      if t.fault == Fail { return Throw; }
      receipt := Some(next);
      if t.fault == Late { return Throw; }
      return Return(());
    }

    /** beginMemoryReviewAttempt: spends one attempt, or None if none is left. */
    method BeginAttempt() returns (r: Flow<Option<Receipt>>)
      requires Valid()
      modifies this`schedule, this`receipt
      ensures Valid() && Advanced()
      ensures r.Return? && r.value.Some? ==>
                && old(receipt.value.status) == Queued && old(receipt.value.attempts) < MEMORY_REVIEW_MAX_ATTEMPTS
                && receipt == r.value == Some(old(receipt.value).(attempts := old(receipt.value.attempts) + 1))
      ensures r.Return? && r.value == None ==>
                receipt == old(receipt) &&
                    (receipt.value.status != Queued || receipt.value.attempts == MEMORY_REVIEW_MAX_ATTEMPTS)
      ensures r.Return? && r.value.Some? ==> modelCalls < receipt.value.attempts
      ensures old(schedule) == [] ==> schedule == [] && r.Return?
    {
      var current :- ReadReceipt();
      if current.value.status != Queued || current.value.attempts >= MEMORY_REVIEW_MAX_ATTEMPTS { return Return(None); }
      var next := current.value.(attempts := current.value.attempts + 1);
      var _ :- Replace(next);
      return Return(Some(next));
    }

    /** recordMemoryReviewFailure: telemetry on a queued receipt, made terminal if asked. */
    method RecordFailure(terminal: bool) returns (r: Flow<Option<Receipt>>)
      requires Valid()
      modifies this`schedule, this`receipt
      ensures Valid() && Advanced()
      ensures r.Return? && r.value.Some? ==>
                && old(receipt.value.status) == Queued
                && receipt == r.value ==
                    Some(old(receipt.value).(status := if terminal then Failed else Queued, failure := true))
      ensures r.Return? && r.value == None ==> receipt == old(receipt) && receipt.value.status != Queued
      ensures receipt.value.attempts == old(receipt.value.attempts)
      ensures old(schedule) == [] ==>
                schedule == [] && r.Return? && (r.value == None <==> old(receipt.value.status) != Queued)
    {
      var current :- ReadReceipt();
      if current.value.status != Queued { return Return(None); }
      var next := current.value.(status := if terminal then Failed else Queued, failure := true);
      var _ :- Replace(next);
      return Return(Some(next));
    }

    /** transitionMemoryReviewReceipt to "reviewed": refused unless the receipt is queued. */
    method MarkReviewed() returns (r: Flow<bool>)
      requires Valid() && proposal.Some? && proposal.value.binding == receipt.value.binding
      modifies this`schedule, this`receipt
      ensures Valid() && Advanced()
      ensures r == Return(true) ==> receipt.value.status == Reviewed
      ensures r == Return(false) ==> receipt == old(receipt) && receipt.value.status != Queued
      ensures receipt.value.failure == old(receipt.value.failure) &&
                receipt.value.attempts == old(receipt.value.attempts)
      ensures old(schedule) == [] ==>
                r == Return(old(receipt.value.status) == Queued) &&
                    (r == Return(true) ==> Now() == TurnedReviewed(old(Now())))
    {
      var current :- ReadReceipt();
      if current.value.status != Queued { return Return(false); }
      var _ :- Replace(current.value.(status := Reviewed));
      return Return(true);
    }

    // ----- proposal store -----

    /** A read of the stored proposal; corrupt answers a record that is permanently unreadable. */
    method ReadProposal() returns (r: Flow<Option<Record>>, corrupt: bool)
      modifies this`schedule
      ensures r.Return? ==> r.value == proposal && !corrupt
      ensures r.Die? ==> !corrupt
      ensures old(schedule) == [] ==> schedule == [] && r.Return?
    {
      var t := Pause();
      if t.fault == Crash { return Die, false; }
      if t.fault != Fine || t.corrupt { return Throw, t.corrupt; }
      return Return(proposal), false;
    }

    /** createMemoryReviewProposalRecord: exclusive creation; an existing equal record is returned. */
    method StoreProposal(next: Record) returns (r: Flow<Record>, permanent: bool)
      modifies this`schedule, this`proposal
      ensures old(proposal).Some? ==> proposal == old(proposal)
      ensures proposal == old(proposal) || proposal == Some(next)
      ensures r.Return? ==> proposal == Some(r.value) && r.value == next
      ensures r.Die? ==> !permanent
      ensures old(schedule) == [] && old(proposal) == None ==> schedule == [] && r == Return(next)
    {
      var t := Pause();
      if t.fault == Crash { return Die, false; }
      if t.corrupt { return Throw, true; }
      if t.fault == Fail { return Throw, false; }
      if proposal.Some? {
        if proposal.value == next { return Return(next), false; }
        return Throw, true;
      }
      proposal := Some(next);
      if t.fault == Late { return Throw, false; }
      return Return(next), false;
    }

    // ----- the worker -----

    /** persistFailure: "retry" only if the failure could be recorded as not terminal. */
    method PersistFailure(terminal: bool) returns (r: Flow<Result>)
      requires Valid() && (!terminal ==> retries == 0)
      modifies this`schedule, this`receipt, this`retries
      ensures Valid() && Advanced()
      ensures r == Return(Retry) ==>
                !terminal && retries == old(retries) + 1 && receipt.value.status == Queued && receipt.value.failure
      ensures r != Return(Retry) ==> retries == old(retries)
      ensures r.Return? ==> r.value in {Retry, GaveUp}
      ensures receipt.value.attempts == old(receipt.value.attempts)
      ensures r.Return? && terminal ==> receipt.value.status != Queued
      ensures old(schedule) == [] && old(receipt.value.status) == Queued ==>
                if terminal then r == Return(GaveUp) && Now() == FailedFor(old(Now()))
                else r == Return(Retry) && Now() == FailedOnce(old(Now()))
    {
      var persisted :- RecordFailure(terminal);
      if persisted == None { return Return(GaveUp); }
      if terminal { return Return(GaveUp); }
      retries := retries + 1;
      return Return(Retry);
    }

    /** recoverableFailure: terminal once both attempts are spent or a failure is already on record. */
    method RecoverableFailure(current: Receipt) returns (r: Flow<Result>)
      requires Valid() && UpToDate(current)
      modifies this`schedule, this`receipt, this`retries
      ensures Valid() && Advanced()
      ensures retries == old(retries) + if r == Return(Retry) then 1 else 0
      ensures r.Return? ==> r.value in {Retry, GaveUp}
      ensures r.Return? && (current.attempts >= MEMORY_REVIEW_MAX_ATTEMPTS || current.failure) ==>
                receipt.value.status != Queued
      ensures r == Return(Retry) ==> !current.failure && receipt.value.status == Queued && receipt.value.failure
      ensures !r.Return? ==> UpToDate(current)
      ensures old(schedule) == [] && old(receipt) == Some(current) && current.status == Queued ==>
                (r, Now()) == Failing(old(Now()))
    {
      r := PersistFailure(current.attempts >= MEMORY_REVIEW_MAX_ATTEMPTS || current.failure);
    }

    /**
      The worker's copy is what is stored, unless a terminal status has landed meanwhile, or a failure
      whose recording was reported as failed; a copy without a failure dates from before any retry.
     */
    ghost predicate UpToDate(current: Receipt)
      requires receipt.Some?
      reads this
    {
      && (receipt.value.status == Queued ==> receipt.value == current.(failure := receipt.value.failure))
      && (current.failure ==> receipt.value.failure)
      && (!current.failure ==> retries == 0)
    }

    /** The last step: the receipt turns reviewed only with its proposal in store. */
    method Finish(p: Proposal, current: Receipt) returns (r: Flow<Result>)
      requires Valid() && UpToDate(current)
      requires proposal.Some? && proposal.value.binding == receipt.value.binding && proposal.value.proposal == p
      modifies this`schedule, this`receipt, this`retries
      ensures Valid() && Advanced()
      ensures retries == old(retries) + if r == Return(Retry) then 1 else 0
      ensures r == Return(Retry) ==> !current.failure && receipt.value.status == Queued && receipt.value.failure
      ensures !r.Return? ==> UpToDate(current)
      ensures r.Return? && r.value.Done? ==> r.value.proposal == p && receipt.value.status == Reviewed
      ensures old(schedule) == [] && old(receipt.value.status) == Queued ==>
                r == Return(Done(p)) && Now() == TurnedReviewed(old(Now()))
    {
      var transitioned := MarkReviewed();
      if transitioned.Die? { return Die; }
      if transitioned.Throw? {
        r := RecoverableFailure(current);
        return;
      }
      if !transitioned.value {
        var latest := ReadReceipt();
        if latest.Die? { return Die; }
        if latest.Throw? || latest.value.value.status != Reviewed {
          r := RecoverableFailure(current);
          return;
        }
      }
      return Return(Done(p));
    }

    /**
      A failure that ends the review, reported as such even if it could not be recorded for lack of a queued receipt.
     */
    method GiveUp() returns (r: Flow<Result>)
      requires Valid()
      modifies this`schedule, this`receipt, this`retries
      ensures Valid() && Advanced() && retries == old(retries)
      ensures r.Return? ==> r.value == GaveUp && receipt.value.status != Queued
      ensures old(schedule) == [] && old(receipt.value.status) == Queued ==>
                r == Return(GaveUp) && Now() == FailedFor(old(Now()))
    {
      var _ :- PersistFailure(true);
      return Return(GaveUp);
    }

    /** The stored proposal is taken up again only if it was made for this receipt and this snapshot. */
    method Resume(stored: Record, snapshot: Snapshot, current: Receipt) returns (r: Flow<Result>)
      requires Valid() && UpToDate(current) && current.binding == receipt.value.binding && proposal == Some(stored)
      modifies this`schedule, this`receipt, this`retries
      ensures Valid() && Advanced()
      ensures retries == old(retries) + if r == Return(Retry) then 1 else 0
      ensures r == Return(Retry) ==> !current.failure && receipt.value.status == Queued && receipt.value.failure
      ensures r.Return? && r.value.Done? ==>
                && receipt.value.status == Reviewed && stored.proposal == r.value.proposal
                && stored.binding == current.binding && stored.watermark == snapshot.watermark
      ensures old(schedule) == [] && old(receipt.value.status) == Queued ==>
                (r, Now()) == if stored.binding == current.binding && stored.watermark == snapshot.watermark
                  then (Return(Done(stored.proposal)), TurnedReviewed(old(Now())))
                      else (Return(GaveUp), FailedFor(old(Now())))
    {
      if stored.binding != current.binding || stored.watermark != snapshot.watermark {
        r := GiveUp();
      } else {
        r := Finish(stored.proposal, current);
      }
    }

    /**
      A fresh proposal goes to the store before the receipt turns reviewed. A failure that the last
      step could not record is recorded once more, by the copy it was decided on, so that a retry may
      be answered with the failure already on record.
     */
    method StoreAndFinish(next: Record, current: Receipt) returns (r: Flow<Result>)
      requires Valid() && UpToDate(current) && next.binding == receipt.value.binding
      modifies this`schedule, this`receipt, this`retries, this`proposal
      ensures Valid() && Advanced()
      ensures retries == old(retries) + if r == Return(Retry) then 1 else 0
      ensures r == Return(Retry) ==> !current.failure && receipt.value.status == Queued && receipt.value.failure
      ensures r.Return? && r.value.Done? ==>
                receipt.value.status == Reviewed && proposal == Some(next) && r.value.proposal == next.proposal
      ensures old(schedule) == [] && old(receipt.value.status) == Queued && old(proposal) == None ==>
                r == Return(Done(next.proposal)) && Now() == TurnedReviewed(old(Now())).(proposal := Some(next))
    {
      var stored, permanent := StoreProposal(next);
      if stored.Die? { return Die; }
      if stored.Throw? {
        if permanent { r := GiveUp(); } else { r := RecoverableFailure(current); }
        return;
      }
      var finished := Finish(stored.value.proposal, current);
      if finished.Throw? { r := RecoverableFailure(current); } else { r := finished; }
    }

    /** One attempt is spent durably before the model is called. */
    method Generate(snapshot: Snapshot, answer: Answer) returns (r: Flow<Result>)
      requires Valid() && proposal == None && snapshot.binding == receipt.value.binding
      modifies this
      ensures Valid() && Advanced()
      ensures old(modelCalls) <= modelCalls <= old(modelCalls) + 1
      ensures modelCalls > old(modelCalls) ==> receipt.value.attempts > old(receipt.value.attempts)
      ensures retries == old(retries) + if r == Return(Retry) then 1 else 0
      ensures r == Return(Retry) ==>
                !old(receipt.value.failure) && receipt.value.status == Queued && receipt.value.failure
      ensures r.Return? && r.value.Done? ==>
                && receipt.value.status == Reviewed && proposal.Some? && proposal.value.proposal == r.value.proposal
                && modelCalls == old(modelCalls) + 1 && answer == Proposed(r.value.proposal)
      ensures old(receipt.value.status) != Queued ==> modelCalls == old(modelCalls)
      ensures old(schedule) == [] && old(receipt.value.status) == Queued ==>
                (r, Now()) == Generated(old(Now()), snapshot, answer)
    {
      var attempt :- BeginAttempt();
      if attempt == None {
        r := GiveUp();
        return;
      }
      modelCalls := modelCalls + 1;
      match answer
      case Retryable => r := RecoverableFailure(attempt.value);
      case Permanent => r := PersistFailure(true);
      case Proposed(p) => r := StoreAndFinish(Record(snapshot.binding, snapshot.watermark, p), attempt.value);
    }

    /** The part of the worker that runs with the review claim held. */
    method Review(snapshot: Snapshot, current: Receipt, answer: Answer) returns (r: Flow<Result>)
      requires Valid() && receipt == Some(current) && current.status == Queued
      modifies this
      ensures Valid() && Advanced()
      ensures old(modelCalls) <= modelCalls <= old(modelCalls) + 1
      ensures modelCalls > old(modelCalls) ==>
                receipt.value.attempts > old(receipt.value.attempts) && old(proposal) == None &&
                    snapshot.binding == receipt.value.binding
      ensures retries == old(retries) + if r == Return(Retry) then 1 else 0
      ensures r == Return(Retry) ==> !current.failure && receipt.value.status == Queued && receipt.value.failure
      ensures r.Return? && r.value.Done? ==>
                && receipt.value.status == Reviewed && proposal.Some? && proposal.value.proposal == r.value.proposal
                && (old(proposal) == None ==> modelCalls == old(modelCalls) + 1 && answer == Proposed(r.value.proposal))
      ensures old(schedule) == [] ==> (r, Now()) == Untroubled(old(Now()), snapshot, Claimed, answer)
    {
      if snapshot.binding != current.binding {
        r := GiveUp();
        return;
      }
      var existing, corrupt := ReadProposal();
      if existing.Die? { return Die; }
      if existing.Throw? {
        if corrupt { r := GiveUp(); } else { r := RecoverableFailure(current); }
        return;
      }
      if existing.value.Some? {
        r := Resume(existing.value.value, snapshot, current);
      } else {
        r := Generate(snapshot, answer);
      }
    }

    /** runMemoryReviewWorker. At most one model call, and only after an attempt has been spent on it. */
    method RunWorker(snapshot: Snapshot, claim: Claim, answer: Answer) returns (r: Flow<Result>)
      requires Valid()
      modifies this
      ensures Valid() && Advanced()
      ensures old(modelCalls) <= modelCalls <= old(modelCalls) + 1
      ensures modelCalls > old(modelCalls) ==>
                && old(receipt.value.status) == Queued && old(proposal) == None && claim == Claimed
                && snapshot.binding == receipt.value.binding && receipt.value.attempts > old(receipt.value.attempts)
      ensures retries == old(retries) + if r == Return(Retry) then 1 else 0
      ensures r == Return(Retry) ==>
                !old(receipt.value.failure) && receipt.value.status == Queued && receipt.value.failure
      ensures r.Return? && r.value.Done? ==>
                && receipt.value.status == Reviewed && proposal.Some? && proposal.value.proposal == r.value.proposal
                && (old(proposal) == None ==> modelCalls == old(modelCalls) + 1 && answer == Proposed(r.value.proposal))
      ensures old(receipt.value.status) != Queued ==> !r.Return?
      ensures old(schedule) == [] ==> (r, Now()) == Untroubled(old(Now()), snapshot, claim, answer)
    {
      var read :- ReadReceipt();
      var current := read.value;
      if current.status != Queued { return Throw; }
      match claim
      case Unavailable => r := RecoverableFailure(current);
      case Busy => return Return(GaveUp);
      case Claimed => r := Review(snapshot, current, answer);
    }
  }

  /** What is on disk between two activations. */
  datatype Stored = Stored(receipt: Receipt, proposal: Option<Record>)

  // ----- a worker that nothing fails -----

  function TurnedReviewed(s: Stored): Stored { s.(receipt := s.receipt.(status := Reviewed)) }

  function FailedFor(s: Stored): Stored { s.(receipt := s.receipt.(status := Failed, failure := true)) }

  function FailedOnce(s: Stored): Stored { s.(receipt := s.receipt.(failure := true)) }

  /** A failure that may pass: the first one is worth a retry if an attempt is left. */
  function Failing(s: Stored): (Flow<Result>, Stored) {
    if s.receipt.attempts >= MEMORY_REVIEW_MAX_ATTEMPTS || s.receipt.failure then (Return(GaveUp), FailedFor(s))
    else (Return(Retry), FailedOnce(s))
  }

  /** No proposal is stored: the model is asked at the price of an attempt. */
  function Generated(s: Stored, snapshot: Snapshot, answer: Answer): (Flow<Result>, Stored) {
    if s.receipt.attempts >= MEMORY_REVIEW_MAX_ATTEMPTS then (Return(GaveUp), FailedFor(s))
    else
      var spent := s.(receipt := s.receipt.(attempts := s.receipt.attempts + 1));
      match answer
      case Retryable => Failing(spent)
      case Permanent => (Return(GaveUp), FailedFor(spent))
      case Proposed(p) =>
        (Return(Done(p)), TurnedReviewed(spent).(proposal := Some(Record(snapshot.binding, snapshot.watermark, p))))
  }

  /** What a worker answers and leaves if no call of it fails. */
  function Untroubled(s: Stored, snapshot: Snapshot, claim: Claim, answer: Answer): (Flow<Result>, Stored) {
    if s.receipt.status != Queued then (Throw, s)
    else match claim
      case Busy => (Return(GaveUp), s)
      case Unavailable => Failing(s)
      case Claimed =>
        if snapshot.binding != s.receipt.binding then (Return(GaveUp), FailedFor(s))
        else match s.proposal
          case None => Generated(s, snapshot, answer)
          case Some(stored) =>
            if stored.binding == s.receipt.binding && stored.watermark == snapshot.watermark
            then (Return(Done(stored.proposal)), TurnedReviewed(s)) else (Return(GaveUp), FailedFor(s))
  }

  /**
    A worker that nothing fails is done exactly with a proposal that was stored for its snapshot or that the model
    makes while an attempt is left; it asks for one retry, after the first failure with an attempt left over; and
    only one that finds the receipt final or its claim busy leaves the receipt as it was.
   */
  lemma UntroubledMeans(s: Stored, snapshot: Snapshot, claim: Claim, answer: Answer)
    ensures var (r, after) := Untroubled(s, snapshot, claim, answer);
      var queued, bound := s.receipt.status == Queued, snapshot.binding == s.receipt.binding;
      var asks := queued && claim == Claimed && bound && s.proposal == None && s.receipt.attempts < 2;
      && (r.Return? && r.value.Done? <==>
            || (asks && answer.Proposed?)
            || (queued && claim == Claimed && bound && s.proposal.Some? &&
                s.proposal.value.binding == s.receipt.binding && s.proposal.value.watermark == snapshot.watermark))
      && (r == Return(Retry) <==>
            queued && !s.receipt.failure &&
              ((claim == Unavailable && s.receipt.attempts < 2) ||
               (asks && s.receipt.attempts == 0 && answer == Retryable)))
      && (r == Throw <==> !queued) && (!queued || claim == Busy ==> after == s)
      && after.receipt.attempts == s.receipt.attempts + (if asks then 1 else 0)
      && (asks && answer.Proposed? ==>
            r == Return(Done(answer.proposal)) &&
              after.proposal == Some(Record(s.receipt.binding, snapshot.watermark, answer.proposal)))
      && (!(asks && answer.Proposed?) ==> after.proposal == s.proposal)
      && (queued && claim != Busy ==>
            after.receipt.status == if r == Return(Retry) then Queued else if r == Return(GaveUp) then Failed
                else Reviewed)
  {
  }

  datatype Activation = Activation(snapshot: Snapshot, claim: Claim, answer: Answer, schedule: seq<Tick>)

  /** Terminal receipts and stored proposals are final; attempts never shrink. */
  predicate Absorbs(before: Stored, after: Stored) {
    && (before.receipt.status != Queued ==> after.receipt == before.receipt)
    && (before.proposal.Some? ==> after.proposal == before.proposal)
    && before.receipt.attempts <= after.receipt.attempts
  }

  /** How many activations were told to come back. */
  function RetryCount(results: seq<Flow<Result>>): nat {
    if results == [] then 0
    else RetryCount(results[..|results| - 1]) + if results[|results| - 1] == Return(Retry) then 1 else 0
  }

  function Trues(flags: seq<bool>): nat {
    if flags == [] then 0 else Trues(flags[..|flags| - 1]) + if flags[|flags| - 1] then 1 else 0
  }

  /** One activation, from what it finds stored to what it leaves; called: it called the model. */
  ghost predicate Ran(a: Activation, before: Stored, called: bool, result: Flow<Result>, after: Stored) {
    && (called ==>
          && before.receipt.status == Queued && before.proposal == None && a.claim == Claimed
          && a.snapshot.binding == before.receipt.binding
          && after.receipt.attempts > before.receipt.attempts)
    && (result.Return? ==> before.receipt.status == Queued)
    && (result == Return(Retry) ==> !before.receipt.failure && after.receipt.failure && after.receipt.status == Queued)
    && (result.Return? && result.value.Done? ==>
          && after.receipt.status == Reviewed && after.proposal.Some?
          && after.proposal.value.proposal == result.value.proposal
          && (before.proposal == None ==> called && a.answer == Proposed(result.value.proposal)))
    && (a.schedule == [] ==> (result, after) == Untroubled(before, a.snapshot, a.claim, a.answer))
  }

  /** A reviewed receipt has its stored, matching proposal. */
  predicate Backed(b: Binding, s: Stored) {
    && s.receipt.binding == b
    && (s.receipt.status == Reviewed ==> s.proposal.Some? && s.proposal.value.binding == b)
  }

  /**
    The life of one receipt under workers that run one after another and may die or fail anywhere:
    at most two model calls, at most one retry answer, a terminal receipt and a stored proposal that
    never change again, and a reviewed receipt that always has its stored, matching proposal.
   */
  method Run(b: Binding, activations: seq<Activation>)
    returns (results: seq<Flow<Result>>, last: Stored, ghost called: seq<bool>, ghost trail: seq<Stored>)
    ensures |results| == |activations| && Life(b, activations, results, called, trail) && trail[|activations|] == last
    ensures RetryCount(results) <= 1
    ensures Trues(called) <= last.receipt.attempts <= MEMORY_REVIEW_MAX_ATTEMPTS
  {
    hide Ran, Untroubled, Absorbs, Backed, Life, RetryCount, Trues;
    var h := new ReviewHost(b);
    results, called, trail := [], [], [Stored(h.receipt.value, h.proposal)];
    LifeBegins(b, activations);
    for i := 0 to |activations|
      invariant h.Valid() && fresh(h) && h.receipt.value.binding == b
      invariant |results| == |called| == i && |trail| == i + 1 && trail[i] == Stored(h.receipt.value, h.proposal)
      invariant Life(b, activations, results, called, trail)
      invariant RetryCount(results) == h.retries && Trues(called) == h.modelCalls
    {
      ghost var calls := h.modelCalls;
      var r := Activate(h, activations[i]);
      ghost var c, next := h.modelCalls > calls, Stored(h.receipt.value, h.proposal);
      LifeGoesOn(b, activations, results, called, trail, r, c, next);
      results, called, trail := results + [r], called + [c], trail + [next];
    }
    LifeParts(b, activations, results, called, trail);
    last := Stored(h.receipt.value, h.proposal);
  }

  /** The activations lead from the fresh receipt along the trail, on which nothing final is ever undone. */
  ghost predicate Life(
    b: Binding, activations: seq<Activation>, results: seq<Flow<Result>>, called: seq<bool>, trail: seq<Stored>) {
    && |results| == |called| <= |activations| && |trail| == |results| + 1
    && trail[0] == Stored(Receipt(b, Queued, 0, false), None)
    && (forall i :: 0 <= i < |results| ==> RanAt(activations, results, called, trail, i))
    && (forall i :: 0 <= i < |trail| ==> Backed(b, trail[i]))
    && (forall i, j :: 0 <= i <= j < |trail| ==> Absorbs(trail[i], trail[j]))
  }

  ghost predicate RanAt(
    activations: seq<Activation>, results: seq<Flow<Result>>, called: seq<bool>, trail: seq<Stored>, i: nat)
    requires i < |results| == |called| <= |activations| && |trail| == |results| + 1
  {
    Ran(activations[i], trail[i], called[i], results[i], trail[i + 1])
  }

  lemma LifeBegins(b: Binding, activations: seq<Activation>)
    ensures Life(b, activations, [], [], [Stored(Receipt(b, Queued, 0, false), None)])
    ensures RetryCount([]) == 0 && Trues([]) == 0
  {
  }

  lemma LifeParts(
    b: Binding, activations: seq<Activation>, results: seq<Flow<Result>>, called: seq<bool>, trail: seq<Stored>)
    requires Life(b, activations, results, called, trail)
    ensures |results| == |called| && |trail| == |results| + 1
  {
  }

  lemma LifeGoesOn(
    b: Binding, activations: seq<Activation>, results: seq<Flow<Result>>, called: seq<bool>, trail: seq<Stored>,
    r: Flow<Result>, c: bool, next: Stored)
    requires Life(b, activations, results, called, trail) && |results| < |activations|
    requires Ran(activations[|results|], trail[|results|], c, r, next) && Absorbs(trail[|results|], next) &&
               Backed(b, next)
    ensures Life(b, activations, results + [r], called + [c], trail + [next])
    ensures RetryCount(results + [r]) == RetryCount(results) + if r == Return(Retry) then 1 else 0
    ensures Trues(called + [c]) == Trues(called) + if c then 1 else 0
  {
    hide Ran, Backed, Absorbs;
    assert (results + [r])[..|results|] == results && (called + [c])[..|called|] == called;
    var all := trail + [next];
    forall i | 0 <= i < |results| + 1 ensures RanAt(activations, results + [r], called + [c], all, i) {
      if i < |results| { assert RanAt(activations, results, called, trail, i); }
    }
    forall i | 0 <= i < |all| ensures Backed(b, all[i]) {
      if i < |trail| { assert all[i] == trail[i]; }
    }
    assert Absorbs(next, next) by { AbsorbsItself(next); }
    forall i, j | 0 <= i <= j < |all| ensures Absorbs(all[i], all[j]) {
      if j < |trail| {
        assert all[i] == trail[i] && all[j] == trail[j];
      } else if i < j {
        assert all[i] == trail[i] && Absorbs(trail[i], trail[|trail| - 1]);
        AbsorbsThrough(trail[i], trail[|trail| - 1], next);
      }
    }
  }

  lemma AbsorbsItself(s: Stored)
    ensures Absorbs(s, s)
  {
  }

  lemma AbsorbsThrough(s: Stored, middle: Stored, t: Stored)
    requires Absorbs(s, middle) && Absorbs(middle, t)
    ensures Absorbs(s, t)
  {
  }

  method Activate(h: ReviewHost, a: Activation) returns (r: Flow<Result>)
    requires h.Valid()
    modifies h
    ensures h.Valid() && h.receipt.value.binding == old(h.receipt.value.binding)
    ensures h.modelCalls <= old(h.modelCalls) + 1 && h.modelCalls >= old(h.modelCalls)
    ensures h.retries == old(h.retries) + if r == Return(Retry) then 1 else 0
    ensures var before, after := old(Stored(h.receipt.value, h.proposal)), Stored(h.receipt.value, h.proposal);
      Ran(a, before, h.modelCalls > old(h.modelCalls), r, after) && Absorbs(before, after) &&
          Backed(h.receipt.value.binding, after)
  {
    h.schedule := a.schedule;
    r := h.RunWorker(a.snapshot, a.claim, a.answer);
  }
}
