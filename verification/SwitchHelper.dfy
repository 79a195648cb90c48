/**
  The root helper that moves the service to a fresh session, to an older one, or to another model,
  and puts everything back when a step fails.
 */
module SwitchHelper {
  import opened Wrappers

  /** How the unit file starts Claude Code. Only a steady unit carries exactly one --continue. */
  datatype Start = Continue | Fresh(session: string) | Resume(session: string)

  /** text: all of the unit but the start option; marked: it holds exactly one script output marker. */
  datatype Unit = Unit(text: string, start: Start, marked: bool)

  /** The process booted last: its start option and its ANTHROPIC_MODEL. */
  datatype Process = Process(start: Start, model: Model)

  /** "inherit" is None. */
  type Model = Option<string>

  /**
    ready: every check passes that does not concern the start option or the model; bounced: something
    else restarted the service just before; signalled: the process has reported its start by then.
   */
  datatype Tick = Tick(fault: Fault, ready: bool, bounced: bool, signalled: bool)

  /** Every call arrives: it may report a failure, but only after its effect. */
  ghost predicate Arrives(s: seq<Tick>) { forall i :: 0 <= i < |s| ==> s[i].fault in {Fine, Late} }

  datatype Outcome = Completed | Failed(recovered: bool)

  class Service {
    var unit: Unit
    var loaded: Unit
    var process: Process
    var modelEnv: Model
    var receipts: set<string>
    var schedule: seq<Tick>
    /** The last content that an attempt was made to write to the unit file, and whether it arrived. */
    ghost var lastWrite: Option<(Unit, bool)>
    /** The start option of the process that passed the latest successful health check. */
    ghost var proven: Option<Start>

    constructor (u: Unit, p: Process, env: Model)
      ensures unit == loaded == u && process == p && modelEnv == env && receipts == {} && schedule == [] &&
                lastWrite == None
    {
      unit, loaded, process, modelEnv, receipts, schedule, lastWrite, proven := u, u, p, env, {}, [], None, None;
    }

    /** The unit file holds this text, unless the last attempt to write it back had no effect. */
    ghost predicate Settled(original: Unit)
      reads this`unit, this`lastWrite
    {
      unit == original || lastWrite == Some((original, false))
    }

    /** The next step's fate, after whatever restart of the service came in between. */
    method Pause() returns (t: Tick)
      modifies this`schedule, this`process
      ensures Arrives(old(schedule)) ==> Arrives(schedule) && t.fault in {Fine, Late}
      ensures process == old(process) || process == Process(loaded.start, modelEnv)
      ensures old(schedule) == [] ==> schedule == [] && process == old(process) && t == Tick(Fine, true, false, true)
    {
      if schedule == [] { return Tick(Fine, true, false, true); }
      t, schedule := schedule[0], schedule[1..];
      if t.bounced { process := Process(loaded.start, modelEnv); }
    }

    /** _atomic_write on the unit. */
    method WriteUnit(next: Unit) returns (r: Flow<()>)
      modifies this`schedule, this`process, this`unit, this`lastWrite
      ensures Arrives(old(schedule)) ==> Arrives(schedule) && !r.Die? && unit == next
      ensures lastWrite == Some((next, true)) || lastWrite == Some((next, false))
      ensures if lastWrite == Some((next, true)) then unit == next else unit == old(unit) && !r.Return?
      ensures old(schedule) == [] ==> schedule == [] && process == old(process) && r.Return?
    {
      var t := Pause();
      lastWrite := Some((next, t.fault in {Fine, Late}));
      if t.fault == Crash { return Die; }
      if t.fault == Fail { return Throw; }
      unit := next;
      if t.fault == Late { return Throw; }
      return Return(());
    }

    method Reload() returns (r: Flow<()>)
      modifies this`schedule, this`process, this`loaded
      ensures Arrives(old(schedule)) ==> Arrives(schedule) && !r.Die?
      ensures loaded == old(loaded) || loaded == unit
      ensures r.Return? ==> loaded == unit
      ensures old(schedule) == [] ==> schedule == [] && process == old(process) && r.Return?
    {
      var t := Pause();
      if t.fault == Crash { return Die; }
      if t.fault == Fail { return Throw; }
      loaded := unit;
      if t.fault == Late { return Throw; }
      return Return(());
    }

    method ReloadAndRestart() returns (r: Flow<()>)
      modifies this`schedule, this`process, this`loaded
      ensures Arrives(old(schedule)) ==> Arrives(schedule) && !r.Die?
      ensures loaded == old(loaded) || loaded == unit
      ensures r.Return? ==> loaded == unit && process == Process(unit.start, modelEnv)
      ensures old(schedule) == [] ==> schedule == [] && r.Return?
    {
      var _ :- Reload();
      var t := Pause();
      if t.fault == Crash { return Die; }
      if t.fault == Fail { return Throw; }
      process := Process(loaded.start, modelEnv);
      if t.fault == Late { return Throw; }
      return Return(());
    }

    /** _service_health: never true of a process started otherwise. */
    method ServiceHealth(start: Start) returns (r: Flow<bool>)
      modifies this`schedule, this`process, this`proven
      ensures Arrives(old(schedule)) ==> Arrives(schedule) && !r.Die?
      ensures !r.Throw?
      ensures r == Return(true) ==> process.start == start && proven == Some(start)
      ensures r != Return(true) ==> proven == old(proven)
      ensures old(schedule) == [] ==> schedule == [] && process == old(process) && r == Return(process.start == start)
    {
      var t := Pause();
      if t.fault == Crash { return Die; }
      if t.fault != Fine || !t.ready || process.start != start { return Return(false); }
      proven := Some(start);
      return Return(true);
    }

    /** _service_model_health */
    method ModelHealth(model: Model) returns (r: Flow<bool>)
      modifies this`schedule, this`process
      ensures Arrives(old(schedule)) ==> Arrives(schedule) && !r.Die?
      ensures !r.Throw?
      ensures r == Return(true) ==> process.model == model
      ensures old(schedule) == [] ==> schedule == [] && process == old(process) && r == Return(process.model == model)
    {
      var t := Pause();
      if t.fault == Crash { return Die; }
      return Return(t.fault == Fine && t.ready && process.model == model);
    }

    /** patience: how many polls fit before the deadline. */
    method WaitForResumedSession(session: string, patience: nat) returns (r: Flow<()>)
      modifies this`schedule, this`process, this`proven
      ensures Arrives(old(schedule)) ==> Arrives(schedule) && !r.Die?
      ensures r.Return? ==> process.start == Resume(session)
      ensures old(schedule) == [] && old(process).start == Resume(session) && patience > 0 ==>
                schedule == [] && process == old(process) && r.Return?
    {
      for i := 0 to patience
        invariant old(schedule) == [] && old(process).start == Resume(session) ==>
                    i == 0 && schedule == [] && process == old(process)
        invariant Arrives(old(schedule)) ==> Arrives(schedule)
      {
        var healthy :- ServiceHealth(Resume(session));
        if healthy { return Return(()); }
      }
      return Throw;
    }

    method WaitModelService(model: Model, patience: nat) returns (r: Flow<()>)
      modifies this`schedule, this`process
      ensures Arrives(old(schedule)) ==> Arrives(schedule) && !r.Die?
      ensures r.Return? ==> process.model == model
      ensures old(schedule) == [] && old(process).model == model && patience > 0 ==> r.Return?
    {
      for i := 0 to patience
        invariant old(schedule) == [] && old(process).model == model ==>
                    i == 0 && schedule == [] && process == old(process)
        invariant Arrives(old(schedule)) ==> Arrives(schedule)
      {
        var healthy :- ModelHealth(model);
        if healthy { return Return(()); }
      }
      return Throw;
    }

    // ----- SessionStart receipts -----

    /** Whether the booted session's receipt is there; only a process started for the session writes it. */
    method ReadSessionReceipt(session: string) returns (r: Flow<bool>)
      modifies this`schedule, this`process, this`receipts
      ensures Arrives(old(schedule)) ==> Arrives(schedule) && !r.Die?
      ensures r == Return(true) ==> session in receipts
      ensures session in receipts && session !in old(receipts) ==> process.start == Fresh(session)
      ensures old(schedule) == [] && old(process).start == Fresh(session) ==>
                schedule == [] && process == old(process) && r == Return(true)
    {
      var t := Pause();
      if t.signalled && process.start == Fresh(session) { receipts := receipts + {session}; }
      if t.fault == Crash { return Die; }
      if t.fault != Fine { return Throw; }
      return Return(session in receipts);
    }

    method RemoveSessionReceipt(session: string) returns (r: Flow<()>)
      modifies this`schedule, this`process, this`receipts
      ensures Arrives(old(schedule)) ==> Arrives(schedule) && !r.Die?
      ensures receipts <= old(receipts)
      ensures r.Return? ==> session !in receipts
      ensures old(schedule) == [] ==> schedule == [] && process == old(process) && r.Return?
    {
      var t := Pause();
      if t.fault == Crash { return Die; }
      if t.fault == Fail { return Throw; }
      receipts := receipts - {session};
      if t.fault == Late { return Throw; }
      return Return(());
    }

    method WaitForFreshSession(session: string, patience: nat) returns (r: Flow<()>)
      modifies this`schedule, this`process, this`receipts, this`proven
      ensures Arrives(old(schedule)) ==> Arrives(schedule) && !r.Die?
      ensures r.Return? ==> process.start == Fresh(session) && session in receipts
      ensures old(schedule) == [] && old(process).start == Fresh(session) && patience > 0 ==>
                schedule == [] && process == old(process) && r.Return?
    {
      for i := 0 to patience
        invariant old(schedule) == [] && old(process).start == Fresh(session) ==>
                    i == 0 && schedule == [] && process == old(process)
        invariant Arrives(old(schedule)) ==> Arrives(schedule)
      {
        var reported :- ReadSessionReceipt(session);
        if reported {
          var healthy :- ServiceHealth(Fresh(session));
          if healthy { return Return(()); }
        }
      }
      return Throw;
    }

    // ----- recovery -----

    /**
      One boot into an existing session, after which the original unit is put back: the steps of a resume and of a
      recovery.
     */
    method BootResumed(original: Unit, session: string, patience: nat) returns (r: Flow<()>)
      modifies this`schedule, this`process, this`unit, this`lastWrite, this`loaded, this`proven
      ensures Arrives(old(schedule)) ==> Arrives(schedule) && !r.Die?
      ensures r.Return? ==> unit == loaded == original && process.start == Resume(session)
      ensures lastWrite.Some? && (unit == old(unit) || unit == original.(start := Resume(session)) || unit == original)
      ensures old(schedule) == [] && patience > 0 ==> r.Return?
    {
      var _ :- WriteUnit(original.(start := Resume(session)));
      var _ :- ReloadAndRestart();
      var _ :- WaitForResumedSession(session, patience);
      var _ :- WriteUnit(original);
      var _ :- Reload();
      var healthy :- ServiceHealth(Resume(session));
      return if healthy then Return(()) else Throw;
    }

    /** _recover_old: true only if the old session runs again under the original unit, which is put back in any case. */
    method RecoverOld(original: Unit, session: string, patience: nat) returns (r: Flow<bool>)
      modifies this`schedule, this`process, this`unit, this`lastWrite, this`loaded, this`proven
      ensures Arrives(old(schedule)) ==> Arrives(schedule) && !r.Die? && unit == original
      ensures !r.Throw?
      ensures r.Return? ==> Settled(original)
      ensures r == Return(true) ==> unit == loaded == original && process.start == Resume(session)
      ensures old(schedule) == [] && patience > 0 ==> r == Return(true)
    {
      var done := BootResumed(original, session, patience);
      if done.Die? { return Die; }
      if done.Return? { return Return(true); }
      var written := WriteUnit(original);
      if written.Die? { return Die; }
      if written.Return? {
        var reloaded := Reload();
        if reloaded.Die? { return Die; }
      }
      return Return(false);
    }

    /** _read_canonical_unit */
    method ReadCanonicalUnit() returns (r: Flow<Unit>)
      modifies this`schedule, this`process
      ensures Arrives(old(schedule)) ==> Arrives(schedule) && !r.Die?
      ensures r.Return? ==> r.value == unit && unit.start == Continue
      ensures old(schedule) == [] ==> schedule == [] && !r.Die? && r.Return? == (unit.start == Continue)
    {
      var t := Pause();
      if t.fault == Crash { return Die; }
      if t.fault != Fine || unit.start != Continue { return Throw; }
      return Return(unit);
    }

    // ----- reset -----

    /** The try block of reset_session. */
    method BootFresh(original: Unit, session: string, patience: nat) returns (r: Flow<()>)
      modifies this`schedule, this`process, this`unit, this`lastWrite, this`loaded, this`proven, this`receipts
      ensures Arrives(old(schedule)) ==> Arrives(schedule) && !r.Die?
      ensures r.Return? ==> unit == loaded == original && session !in receipts && proven == Some(Fresh(session))
      ensures old(schedule) == [] && patience > 0 ==> schedule == [] && r.Return? == original.marked && !r.Die?
    {
      var _ :- RemoveSessionReceipt(session);
      if !original.marked { return Throw; }
      var _ :- WriteUnit(original.(start := Fresh(session)));
      var _ :- ReloadAndRestart();
      var _ :- WaitForFreshSession(session, patience);
      var _ :- WriteUnit(original);
      var _ :- Reload();
      var healthy :- ServiceHealth(Fresh(session));
      if !healthy { return Throw; }
      r := RemoveSessionReceipt(session);
    }

    /**
      reset_session, past its request claim. Every failure in the try block, even one before the unit
      was touched, goes through the recovery.
     */
    method ResetSession(current: string, newSession: string, patience: nat, recovery: nat) returns (r: Flow<Outcome>)
      modifies this`schedule, this`process, this`unit, this`lastWrite, this`loaded, this`proven, this`receipts
      ensures Arrives(old(schedule)) ==> Arrives(schedule) && !r.Die? && unit == old(unit)
      ensures r.Throw? ==> unit == old(unit) && loaded == old(loaded)
      ensures r.Return? ==> old(unit).start == Continue && Settled(old(unit))
      ensures r == Return(Completed) ==>
                unit == loaded == old(unit) && proven == Some(Fresh(newSession)) && newSession !in receipts
      ensures r == Return(Failed(true)) ==> unit == loaded == old(unit) && process.start == Resume(current)
      ensures old(schedule) == [] && old(unit).start == Continue && patience > 0 && recovery > 0 ==>
                r == Return(if old(unit).marked then Completed else Failed(true))
    {
      var original :- ReadCanonicalUnit();
      var switched := BootFresh(original, newSession, patience);
      if switched.Die? { return Die; }
      if switched.Return? { return Return(Completed); }
      var removed := RemoveSessionReceipt(newSession);
      if removed.Die? { return Die; }
      var recovered :- RecoverOld(original, current, recovery);
      return Return(Failed(recovered));
    }

    // ----- resume -----

    /**
      resume_session, past its request claim. A failure before the first write counts as recovered: nothing was done.
     */
    method ResumeSession(session: string, current: string, patience: nat, recovery: nat) returns (r: Flow<Outcome>)
      modifies this`schedule, this`process, this`unit, this`lastWrite, this`loaded, this`proven
      ensures Arrives(old(schedule)) ==> Arrives(schedule) && !r.Die? && unit == old(unit)
      ensures !r.Throw?
      ensures r.Return? ==> Settled(old(unit))
      ensures r == Return(Completed) ==>
                unit == loaded == old(unit) && process.start == Resume(session) && session != current
      ensures r == Return(Failed(true)) ==>
                && unit == old(unit)
                && (lastWrite != old(lastWrite) || loaded != old(loaded) ==>
                      loaded == unit && process.start == Resume(current))
      ensures old(unit).start != Continue || session == current ==>
                r != Return(Completed) && unit == old(unit) && loaded == old(loaded) && lastWrite == old(lastWrite)
      ensures old(schedule) == [] && patience > 0 && recovery > 0 ==>
                r == Return(if old(unit).start == Continue && session != current then Completed else Failed(true))
    {
      var original := ReadCanonicalUnit();
      if original.Die? { return Die; }
      if original.Throw? || session == current { return Return(Failed(true)); }
      var switched := BootResumed(original.value, session, patience);
      if switched.Die? { return Die; }
      if switched.Return? { return Return(Completed); }
      var recovered :- RecoverOld(original.value, current, recovery);
      return Return(Failed(recovered));
    }

    // ----- model -----

    method ReadModelEnv() returns (r: Flow<Model>)
      modifies this`schedule, this`process
      ensures Arrives(old(schedule)) ==> Arrives(schedule) && !r.Die?
      ensures r.Return? ==> r.value == modelEnv
      ensures old(schedule) == [] ==> schedule == [] && r.Return?
    {
      var t := Pause();
      if t.fault == Crash { return Die; }
      if t.fault != Fine { return Throw; }
      return Return(modelEnv);
    }

    /** _set_model_env and _restore_model_env: the file is replaced, or removed for None. */
    method WriteModelEnv(model: Model) returns (r: Flow<()>)
      modifies this`schedule, this`process, this`modelEnv
      ensures Arrives(old(schedule)) ==> Arrives(schedule) && !r.Die?
      ensures modelEnv == old(modelEnv) || modelEnv == model
      ensures r.Return? ==> modelEnv == model
      ensures old(schedule) == [] ==> schedule == [] && r.Return?
    {
      var t := Pause();
      if t.fault == Crash { return Die; }
      if t.fault == Fail { return Throw; }
      modelEnv := model;
      if t.fault == Late { return Throw; }
      return Return(());
    }

    /** A model's file, a restart, and the wait for a process under that model: the way there and the way back. */
    method BootModel(model: Model, patience: nat) returns (r: Flow<()>)
      modifies this`schedule, this`process, this`modelEnv, this`loaded
      ensures Arrives(old(schedule)) ==> Arrives(schedule) && !r.Die?
      ensures modelEnv == old(modelEnv) || modelEnv == model
      ensures r.Return? ==> modelEnv == model && process.model == model
      ensures old(schedule) == [] && patience > 0 ==> r.Return?
    {
      var _ :- WriteModelEnv(model);
      var _ :- ReloadAndRestart();
      r := WaitModelService(model, patience);
    }

    /** model_session, past its request claim. */
    method ModelSession(model: Model, patience: nat) returns (r: Flow<Outcome>)
      modifies this`schedule, this`process, this`modelEnv, this`loaded
      ensures Arrives(old(schedule)) ==> Arrives(schedule) && !r.Die?
      ensures !r.Throw?
      ensures modelEnv == old(modelEnv) || modelEnv == model
      ensures r == Return(Completed) ==> modelEnv == model && process.model == model
      ensures r == Return(Failed(true)) ==>
                modelEnv == old(modelEnv) && (loaded == old(loaded) || process.model == modelEnv)
      ensures old(schedule) == [] && patience > 0 ==> r == Return(Completed)
    {
      var previous := ReadModelEnv();
      if previous.Die? { return Die; }
      if previous.Throw? { return Return(Failed(true)); }
      var switched := BootModel(model, patience);
      if switched.Die? { return Die; }
      if switched.Return? { return Return(Completed); }
      var restored := BootModel(previous.value, patience);
      if restored.Die? { return Die; }
      return Return(Failed(restored.Return?));
    }
  }
}
