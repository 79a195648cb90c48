/**
  The root installer: each install backs up what it replaces, so that rollbacks undo the installs last in, first out.
 */
module RootAssets {
  import opened Wrappers

  type Path = string
  datatype File = File(data: string, mode: nat, owner: nat)
  type Files = map<Path, File>

  const ROOT: nat := 0
  const BACKUP_NAME_ATTEMPTS := 8
  const MIN_PRESERVED_BYTES := 2
  const MAX_PRESERVED_BYTES := 64 * 1024

  datatype Asset = Asset(destination: Path, data: string, mode: nat, preserveExisting: bool)

  /** What is written of an asset; preserved: the file already there is kept and only verified. */
  datatype Prepared = Prepared(destination: Path, data: string, mode: nat, preserved: bool)

  datatype Manifest = Manifest(commit: string, backup: nat, assets: seq<(Path, Digest<string>, nat)>)
  datatype World = World(files: Files, installed: Option<Manifest>)

  /** A destination as it was, absent or with its bytes, mode and owner. */
  datatype Record = Record(destination: Path, before: Option<File>)
  datatype Backup = Backup(records: seq<Record>, previous: Option<Manifest>)

  function Lookup(files: Files, p: Path): Option<File> { if p in files then Some(files[p]) else None }

  function Put(files: Files, p: Path, f: Option<File>): Files { if f.Some? then files[p := f.value] else files - {p} }

  // ----- what restoring a backup does -----

  function Restored(files: Files, records: seq<Record>): Files {
    if records == [] then files
    else
      var n := |records| - 1;
      Put(Restored(files, records[..n]), records[n].destination, records[n].before)
  }

  function Covered(records: seq<Record>): set<Path> { set i | 0 <= i < |records| :: records[i].destination }

  /** The records hold what these files hold. */
  ghost predicate Snapshot(records: seq<Record>, files: Files) {
    forall i :: 0 <= i < |records| ==> records[i].before == Lookup(files, records[i].destination)
  }

  ghost predicate AgreeOff(a: Files, b: Files, except: set<Path>) {
    forall p :: p !in except ==> Lookup(a, p) == Lookup(b, p)
  }

  lemma {:induction false} RestoredAt(files: Files, records: seq<Record>, before: Files, p: Path)
    requires Snapshot(records, before)
    ensures Lookup(Restored(files, records), p) == Lookup(if p in Covered(records) then before else files, p)
  {
    if records != [] {
      var n := |records| - 1;
      RestoredAt(files, records[..n], before, p);
      assert p in Covered(records) <==> p in Covered(records[..n]) || p == records[n].destination;
    }
  }

  lemma SameFiles(a: Files, b: Files)
    requires AgreeOff(a, b, {})
    ensures a == b
  {
    forall p ensures p in a <==> p in b {
      assert Lookup(a, p) == Lookup(b, p);
    }
    forall p | p in a ensures a[p] == b[p] {
      assert Lookup(a, p) == Lookup(b, p);
    }
  }

  /** A backup brings back the files it was taken of, whatever has become of the destinations it covers. */
  lemma RestoreUndoes(files: Files, records: seq<Record>, before: Files)
    requires Snapshot(records, before) && AgreeOff(files, before, Covered(records))
    ensures Restored(files, records) == before
  {
    forall p ensures Lookup(Restored(files, records), p) == Lookup(before, p) {
      RestoredAt(files, records, before, p);
    }
    SameFiles(Restored(files, records), before);
  }

  /** Stopping in the middle changes nothing but covered destinations, so that a rerun still restores the same files. */
  lemma RestorePartly(files: Files, records: seq<Record>, n: nat)
    requires n <= |records|
    ensures AgreeOff(Restored(files, records[..n]), files, Covered(records))
    decreases n
  {
    if n > 0 {
      RestorePartly(files, records, n - 1);
      assert records[..n][..n - 1] == records[..n - 1];
      assert records[n - 1].destination in Covered(records);
    }
  }

  // ----- what an install does -----

  function Written(files: Files, assets: seq<Prepared>): Files {
    if assets == [] then files
    else
      var n := |assets| - 1;
      var last := assets[n];
      if last.preserved then Written(files, assets[..n])
      else Written(files, assets[..n])[last.destination := File(last.data, last.mode, ROOT)]
  }

  function Prepare(files: Files, a: Asset): Prepared {
    if a.preserveExisting && a.destination in files
        then Prepared(a.destination, files[a.destination].data, a.mode, true)
    else Prepared(a.destination, a.data, a.mode, false)
  }

  function PrepareAll(files: Files, assets: seq<Asset>): seq<Prepared> {
    seq(|assets|, i requires 0 <= i < |assets| => Prepare(files, assets[i]))
  }

  /** Only a private file of the right mode and a sensible size is preserved. */
  predicate Preservable(files: Files, a: Asset) {
    a.preserveExisting && a.destination in files ==>
      && files[a.destination].owner == ROOT && files[a.destination].mode == a.mode
      && MIN_PRESERVED_BYTES <= |files[a.destination].data| <= MAX_PRESERVED_BYTES
  }

  function ManifestOf(commit: string, backup: nat, assets: seq<Prepared>): Manifest {
    Manifest(commit, backup,
        seq(|assets|, i requires 0 <= i < |assets| => (assets[i].destination, Sha256(assets[i].data), assets[i].mode)))
  }

  function Destinations(assets: seq<Asset>): set<Path> { set i | 0 <= i < |assets| :: assets[i].destination }

  lemma {:induction false} WrittenOff(files: Files, assets: seq<Asset>, prepared: seq<Prepared>, n: nat)
    requires |prepared| == |assets| && n <= |assets| && forall i :: 0 <= i < |assets| ==>
               prepared[i].destination == assets[i].destination
    ensures AgreeOff(Written(files, prepared[..n]), files, Destinations(assets))
  {
    if n > 0 {
      WrittenOff(files, assets, prepared, n - 1);
      assert prepared[..n][..n - 1] == prepared[..n - 1];
      assert assets[n - 1].destination in Destinations(assets);
    }
  }

  /** With distinct destinations, each ends up with its own asset, a preserved one with what it had. */
  lemma {:induction false} InstalledAt(files: Files, assets: seq<Asset>, n: nat, i: nat)
    requires i < n <= |assets| && Preservable(files, assets[i])
    requires forall j :: 0 <= j < |assets| && j != i ==> assets[j].destination != assets[i].destination
    ensures Lookup(Written(files, PrepareAll(files, assets)[..n]), assets[i].destination) ==
            if assets[i].preserveExisting && assets[i].destination in files then Some(files[assets[i].destination])
            else Some(File(assets[i].data, assets[i].mode, ROOT))
    decreases n
  {
    var prepared := PrepareAll(files, assets);
    assert prepared[..n][..n - 1] == prepared[..n - 1] && prepared[..n][n - 1] == Prepare(files, assets[n - 1]);
    if i < n - 1 {
      InstalledAt(files, assets, n - 1, i);
    } else {
      WrittenBefore(files, assets, n - 1, assets[i].destination);
    }
  }

  lemma {:induction false} WrittenBefore(files: Files, assets: seq<Asset>, n: nat, p: Path)
    requires n <= |assets| && forall j :: 0 <= j < n ==> assets[j].destination != p
    ensures Lookup(Written(files, PrepareAll(files, assets)[..n]), p) == Lookup(files, p)
  {
    var prepared := PrepareAll(files, assets);
    if n > 0 {
      assert prepared[..n][..n - 1] == prepared[..n - 1] && prepared[..n][n - 1] == Prepare(files, assets[n - 1]);
      WrittenBefore(files, assets, n - 1, p);
    }
  }

  // ----- the undo stack -----

  /** The backup that the later world names leads back to the earlier one. */
  ghost predicate Undoes(backups: map<nat, Option<Backup>>, later: World, earlier: World) {
    && later.installed.Some? && later.installed.value.backup in backups && backups[later.installed.value.backup].Some?
    && var b := backups[later.installed.value.backup].value;
       && b.previous == earlier.installed && Snapshot(b.records, earlier.files)
       && AgreeOff(later.files, earlier.files, Covered(b.records))
  }

  /** The backup holds this world as far as the destinations of these assets go, in their order. */
  ghost predicate BackedUp(backups: map<nat, Option<Backup>>, name: nat, world: World, assets: seq<Asset>) {
    && name in backups && backups[name].Some?
    && var b := backups[name].value;
       && b.previous == world.installed && Snapshot(b.records, world.files) && |b.records| == |assets|
       && forall i :: 0 <= i < |assets| ==> b.records[i].destination == assets[i].destination
  }

  ghost predicate IsUndoStack(backups: map<nat, Option<Backup>>, stack: seq<World>) {
    && stack != [] && stack[0].installed == None
    && forall i :: 1 <= i < |stack| ==> Undoes(backups, stack[i], stack[i - 1])
  }

  // ----- schedules -----

  ghost predicate Quiet(s: seq<Fault>) { forall i :: 0 <= i < |s| ==> s[i] == Fine }

  /** At most one call fails, and the process survives. */
  ghost predicate Single(s: seq<Fault>) {
    s != [] ==> s[0] != Crash && if s[0] == Fine then Single(s[1..]) else Quiet(s[1..])
  }

  lemma {:induction false} QuietIsSingle(s: seq<Fault>)
    requires Quiet(s)
    ensures Single(s)
  {
    if s != [] { QuietIsSingle(s[1..]); }
  }

  /** A file that is written by way of a temporary file named after it and the process. */
  datatype Target = Destination(path: Path) | InstalledJson

  type Temps = set<(nat, Target)>

  /** Restoring this record has to create a temporary file that is there already. */
  predicate Stuck(temps: Temps, pid: nat, r: Record) { r.before.Some? && (pid, Destination(r.destination)) in temps }

  ghost predicate Free(temps: Temps, pid: nat) { forall t :: t in temps ==> t.0 != pid }

  ghost predicate Distinct(assets: seq<Asset>) {
    forall i, j :: 0 <= i < j < |assets| ==> assets[i].destination != assets[j].destination
  }

  /** The manifest names a complete backup. */
  predicate Named(backups: map<nat, Option<Backup>>, m: Option<Manifest>) {
    m.Some? ==> m.value.backup in backups && backups[m.value.backup].Some?
  }

  ghost predicate AllNamed(backups: map<nat, Option<Backup>>, installed: Option<Manifest>) {
    && Named(backups, installed)
    && forall k :: k in backups && backups[k].Some? ==> Named(backups, backups[k].value.previous)
  }

  class Installer {
    var files: Files
    var installed: Option<Manifest>
    /** The backup directories; None for one without a manifest. */
    var backups: map<nat, Option<Backup>>
    /** The temporary files that writes have left behind. */
    var temps: Temps
    var pid: nat
    var schedule: seq<Fault>
    /** The worlds before each install still in effect, then the present one. */
    ghost var stack: seq<World>
    /** Set once an install could not put back what it had replaced. */
    ghost var broken: bool

    function Here(): World
      reads this`files, this`installed
    {
      World(files, installed)
    }

    ghost predicate Valid()
      reads this
    {
      && AllNamed(backups, installed)
      && (!broken ==> IsUndoStack(backups, stack) && stack[|stack| - 1] == Here())
    }

    constructor (f: Files)
      ensures Valid() && !broken && files == f && installed == None && stack == [World(f, None)]
      ensures backups == map[] && temps == {}
    {
      files, installed, backups, temps, pid, schedule, stack, broken := f, None, map[], {}, 0, [], [World(f, None)],
          false;
    }

    method Pause() returns (t: Fault)
      modifies this`schedule
      ensures Quiet(old(schedule)) ==> Quiet(schedule) && t == Fine
      ensures Single(old(schedule)) ==> t != Crash && if t == Fine then Single(schedule) else Quiet(schedule)
    {
      if schedule == [] { return Fine; }
      t, schedule := schedule[0], schedule[1..];
    }

    /** The exclusive creation of a temporary file. */
    method OpenTemp(target: Target) returns (r: Flow<()>)
      modifies this`schedule, this`temps
      ensures temps == old(temps) || temps == old(temps) + {(pid, target)}
      ensures r.Return? ==> (pid, target) !in old(temps) && temps == old(temps) + {(pid, target)}
      ensures Quiet(old(schedule)) ==> Quiet(schedule) && !r.Die? && (r.Return? <==> (pid, target) !in old(temps))
      ensures Single(old(schedule)) && (pid, target) !in old(temps) ==>
                !r.Die? && if r.Return? then Single(schedule) else Quiet(schedule)
    {
      var t := Pause();
      if t == Crash { return Die; }
      if t == Fail || (pid, target) in temps { return Throw; }
      temps := temps + {(pid, target)};
      if t == Late { return Throw; }
      return Return(());
    }

    /**
      _atomic_write of a destination, or its removal. A write that fails before its rename leaves its
      temporary file, and a later write of the same process finds it and fails.
     */
    method WriteFile(p: Path, f: Option<File>) returns (r: Flow<()>)
      modifies this`schedule, this`files, this`temps
      ensures files == old(files) || files == Put(old(files), p, f)
      ensures r.Return? ==> files == Put(old(files), p, f) && temps == old(temps)
      ensures temps == old(temps) || (files == old(files) && temps == old(temps) + {(pid, Destination(p))})
      ensures Quiet(old(schedule)) ==>
                && Quiet(schedule) && !r.Die? && (r.Return? <==> !Stuck(old(temps), pid, Record(p, f)))
                && (r.Throw? ==> files == old(files) && temps == old(temps))
      ensures Single(old(schedule)) && !Stuck(old(temps), pid, Record(p, f)) ==>
                !r.Die? && if r.Return? then Single(schedule) else Quiet(schedule)
    {
      if f.Some? {
        var _ :- OpenTemp(Destination(p));
      }
      var t := Pause();
      if t == Crash { return Die; }
      if t == Fail { return Throw; }
      files := Put(files, p, f);
      if f.Some? { temps := temps - {(pid, Destination(p))}; }
      if t == Late { return Throw; }
      return Return(());
    }

    method WriteInstalled(m: Option<Manifest>) returns (r: Flow<()>)
      modifies this`schedule, this`installed, this`temps
      ensures installed == old(installed) || installed == m
      ensures r.Return? ==> installed == m && temps == old(temps)
      ensures temps == old(temps) || (installed == old(installed) && temps == old(temps) + {(pid, InstalledJson)})
      ensures Quiet(old(schedule)) ==>
                && Quiet(schedule) && !r.Die? && (r.Return? <==> !(m.Some? && (pid, InstalledJson) in old(temps)))
                && (r.Throw? ==> installed == old(installed) && temps == old(temps))
      ensures Single(old(schedule)) && !(m.Some? && (pid, InstalledJson) in old(temps)) ==>
                !r.Die? && if r.Return? then Single(schedule) else Quiet(schedule)
    {
      if m.Some? {
        var _ :- OpenTemp(InstalledJson);
      }
      var t := Pause();
      if t == Crash { return Die; }
      if t == Fail { return Throw; }
      installed := m;
      if m.Some? { temps := temps - {(pid, InstalledJson)}; }
      if t == Late { return Throw; }
      return Return(());
    }

    method VerifyDestination(a: Prepared) returns (r: Flow<()>)
      modifies this`schedule
      ensures r.Return? ==> Lookup(files, a.destination) == Some(File(a.data, a.mode, ROOT))
      ensures Quiet(old(schedule)) ==>
                Quiet(schedule) && !r.Die? &&
                    (r.Return? <==> Lookup(files, a.destination) == Some(File(a.data, a.mode, ROOT)))
      ensures Single(old(schedule)) && Lookup(files, a.destination) == Some(File(a.data, a.mode, ROOT)) ==>
                !r.Die? && if r.Return? then Single(schedule) else Quiet(schedule)
    {
      var t := Pause();
      if t == Crash { return Die; }
      if t != Fine || Lookup(files, a.destination) != Some(File(a.data, a.mode, ROOT)) { return Throw; }
      return Return(());
    }

    /** _backup. names: the random directory names drawn. */
    method TakeBackup(destinations: seq<Path>, names: seq<nat>) returns (r: Flow<nat>)
      modifies this`schedule, this`backups
      ensures forall k :: k in old(backups) ==> k in backups && backups[k] == old(backups)[k]
      ensures forall k :: k in backups && k !in old(backups) ==>
                k in names && (backups[k] == None || backups[k].value.previous == installed)
      ensures r.Return? ==>
                && r.value !in old(backups) && r.value in backups && backups[r.value].Some?
                && var b := backups[r.value].value;
                   && b.previous == installed && |b.records| == |destinations|
                   && forall i :: 0 <= i < |destinations| ==>
                       b.records[i] == Record(destinations[i], Lookup(files, destinations[i]))
      ensures Quiet(old(schedule)) ==>
                && Quiet(schedule) && !r.Die?
                && (r.Return? <==>
                      exists i :: 0 <= i < |names| && i < BACKUP_NAME_ATTEMPTS && names[i] !in old(backups))
      ensures Single(old(schedule)) ==> !r.Die? && (r.Return? ==> Single(schedule))
    {
      var attempt := 0;
      while attempt < |names| && attempt < BACKUP_NAME_ATTEMPTS && names[attempt] in backups
        invariant attempt <= |names| && attempt <= BACKUP_NAME_ATTEMPTS
        invariant forall i :: 0 <= i < attempt ==> names[i] in backups
      {
        attempt := attempt + 1;
      }
      if attempt >= |names| || attempt >= BACKUP_NAME_ATTEMPTS { return Throw; }
      var name := names[attempt];
      assert name in names && name !in backups;
      backups := backups[name := None];
      var records := [];
      for i := 0 to |destinations|
        invariant backups == old(backups)[name := None]
        invariant |records| == i && forall k :: 0 <= k < i ==>
                    records[k] == Record(destinations[k], Lookup(files, destinations[k]))
        invariant Quiet(old(schedule)) ==> Quiet(schedule)
        invariant Single(old(schedule)) ==> Single(schedule)
      {
        var t := Pause();
        if t == Crash { return Die; }
        if t != Fine { return Throw; }
        records := records + [Record(destinations[i], Lookup(files, destinations[i]))];
      }
      var t := Pause();
      if t == Crash { return Die; }
      if t == Fail { return Throw; }
      backups := backups[name := Some(Backup(records, installed))];
      if t == Late { return Throw; }
      return Return(name);
    }

    /**
      _restore_backup: installed.json comes last. done: how many destinations it has put back. If no
      call fails, only a temporary file in the way stops it.
     */
    method RestoreBackup(name: nat) returns (r: Flow<()>, ghost done: nat)
      modifies this`schedule, this`files, this`installed, this`temps
      ensures name !in backups || backups[name] == None ==>
                files == old(files) && installed == old(installed) && !r.Return?
      ensures Leaves(old(temps), temps, pid)
      ensures name in backups && backups[name].Some? ==>
                var b := backups[name].value;
                && done <= |b.records| && files == Restored(old(files), b.records[..done])
                && (installed == old(installed) || (installed == b.previous && done == |b.records|))
                && (r.Return? ==> installed == b.previous && done == |b.records|)
      ensures Quiet(old(schedule)) && name in backups && backups[name].Some? ==>
                var b := backups[name].value;
                && !r.Die? && (forall i :: 0 <= i < done ==> !Stuck(old(temps), pid, b.records[i]))
                && (r.Throw? ==> installed == old(installed))
                && (done < |b.records| ==> Stuck(old(temps), pid, b.records[done]) && r.Throw?)
                && (done == |b.records| ==> (r.Throw? <==> b.previous.Some? && (pid, InstalledJson) in old(temps)))
    {
      hide Quiet, Single, Stuck;
      done := 0;
      var t := Pause();
      if t == Crash { return Die, 0; }
      if t != Fine || name !in backups || backups[name] == None { return Throw, 0; }
      var b := backups[name].value;
      for i := 0 to |b.records|
        invariant done == i && files == Restored(old(files), b.records[..i]) && installed == old(installed) &&
                    temps == old(temps)
        invariant Quiet(old(schedule)) ==> Quiet(schedule) && forall k :: 0 <= k < i ==>
                    !Stuck(old(temps), pid, b.records[k])
      {
        assert b.records[..i + 1][..i] == b.records[..i];
        assert b.records[i] == Record(b.records[i].destination, b.records[i].before);
        ghost var was := files;
        var put := WriteFile(b.records[i].destination, b.records[i].before);
        done := if put.Return? || files != was then i + 1 else i;
        if put.IsFailure() { return put.PropagateFailure(), done; }
      }
      r := WriteInstalled(b.previous);
    }

    /** The try block of install_release. done: how many assets are in place. */
    method WriteAssets(commit: string, backup: nat, prepared: seq<Prepared>)
      returns (r: Flow<Manifest>, ghost done: nat)
      modifies this`schedule, this`files, this`installed, this`temps
      ensures done <= |prepared| && files == Written(old(files), prepared[..done])
      ensures Leaves(old(temps), temps, pid)
      ensures installed == old(installed) ||
                (installed == Some(ManifestOf(commit, backup, prepared)) && done == |prepared|)
      ensures r.Return? ==>
                done == |prepared| && r.value == ManifestOf(commit, backup, prepared) && installed == Some(r.value)
      ensures Quiet(old(schedule)) && Free(old(temps), pid) && Verifiable(old(files), prepared) ==> r.Return?
      ensures Single(old(schedule)) && Free(old(temps), pid) && Verifiable(old(files), prepared) ==>
                !r.Die? &&
                    (r.Throw? ==>
                        Quiet(schedule) &&
                            LeftOver(old(temps), temps, pid, prepared, done, installed == old(installed)))
    {
      hide Quiet, Single, ManifestOf, Verifiable, Leaves;
      done := 0;
      NothingNew(temps, pid);
      for i := 0 to |prepared|
        invariant done == i && files == Written(old(files), prepared[..i]) && installed == old(installed) &&
                    temps == old(temps)
        invariant Quiet(old(schedule)) && Free(old(temps), pid) && Verifiable(old(files), prepared) ==> Quiet(schedule)
        invariant Single(old(schedule)) && Free(old(temps), pid) && Verifiable(old(files), prepared) ==>
                    Single(schedule)
      {
        var a := prepared[i];
        assert prepared[..i + 1][..i] == prepared[..i] && prepared[..i + 1][i] == a;
        if Verifiable(old(files), prepared) { NextVerifies(old(files), prepared, i); }
        if !a.preserved {
          ghost var was := files;
          var put := WriteFile(a.destination, Some(File(a.data, a.mode, ROOT)));
          done := if files != was || put.Return? then i + 1 else i;
          TempLeft(old(temps), temps, pid, a.destination);
          if put.IsFailure() { return put.PropagateFailure(), done; }
        }
        done := i + 1;
        assert files == Written(old(files), prepared[..i + 1]);
        var verified := VerifyDestination(a);
        if verified.IsFailure() { return verified.PropagateFailure(), done; }
      }
      assert prepared[..|prepared|] == prepared;
      var manifest := ManifestOf(commit, backup, prepared);
      var put := WriteInstalled(Some(manifest));
      ManifestTempLeft(old(temps), temps, pid);
      if put.IsFailure() { return put.PropagateFailure(), done; }
      r := Return(manifest);
    }

    /** The assets to write; an unsafe file to be preserved is refused. */
    method PrepareAssets(assets: seq<Asset>) returns (r: Flow<seq<Prepared>>)
      ensures r.Return? == (forall i :: 0 <= i < |assets| ==> Preservable(files, assets[i])) && !r.Die?
      ensures r.Return? <==>
              forall a :: a in assets && a.preserveExisting && a.destination in files ==>
                var f := files[a.destination];
                f.owner == ROOT && f.mode == a.mode && 2 <= |f.data| <= 64 * 1024
      ensures r.Return? ==> r.value == PrepareAll(files, assets)
    {
      var prepared := [];
      for i := 0 to |assets|
        invariant |prepared| == i && forall k :: 0 <= k < i ==>
                    prepared[k] == Prepare(files, assets[k]) && Preservable(files, assets[k])
      {
        if !Preservable(files, assets[i]) { return Throw; }
        prepared := prepared + [Prepare(files, assets[i])];
      }
      return Return(prepared);
    }

    /**
      The writes, and the restore if one of them fails. If only one call fails, the restore brings back
      the world, although a temporary file in the way may stop it.
     */
    method Replace(commit: string, assets: seq<Asset>, prepared: seq<Prepared>, backup: nat) returns (r: Flow<Manifest>)
      requires prepared == PrepareAll(files, assets) && BackedUp(backups, backup, Here(), assets)
      requires forall i :: 0 <= i < |assets| ==> Preservable(files, assets[i])
      modifies this`schedule, this`files, this`installed, this`temps
      ensures Leaves(old(temps), temps, pid)
      ensures installed == old(installed) || installed == Some(ManifestOf(commit, backup, prepared))
      ensures r.Return? ==>
                && files == Written(old(files), prepared) && r.value == ManifestOf(commit, backup, prepared)
                && installed == Some(r.value)
                && Undoes(backups, Here(), old(Here()))
      ensures Quiet(old(schedule)) && Free(old(temps), pid) && Distinct(assets) ==> r.Return?
      ensures Single(old(schedule)) && Free(old(temps), pid) && Distinct(assets) ==>
                !r.Die? && (r.Throw? ==> Here() == old(Here()))
    {
      hide Quiet, Single, Preservable, ManifestOf, Leaves, Distinct, Restored, Written, BackedUp, Undoes, Stuck;
      hide LeftOver;
      ghost var before := Here();
      BackupThere(backups, backup, before, assets);
      if Distinct(assets) { PreparedVerifies(files, assets); }
      ghost var done: nat;
      r, done := WriteAssets(commit, backup, prepared);
      BackupUndoes(backups, backup, before, commit, assets, prepared, done, files, installed);
      if r.Throw? {
        ghost var torn, left := Here(), temps;
        var restored; ghost var back: nat;
        restored, back := RestoreBackup(backup);
        LeavesTwice(old(temps), left, temps, pid);
        BackupBrings(backups, backup, before, assets, torn.files, Here());
        if Single(old(schedule)) && Free(old(temps), pid) && Distinct(assets) {
          OneFailureUndone(backups, backup, before, assets, prepared, done, torn, old(temps), left, pid, back, Here());
        }
        if restored.Die? { return Die; }
      }
    }

    /**
      install_release, past the checks of its inputs. clean: a failed install has left, or brought back, the world it
      found.
     */
    method Install(commit: string, assets: seq<Asset>, names: seq<nat>) returns (r: Flow<Manifest>, clean: bool)
      requires Valid()
      modifies this`schedule, this`files, this`installed, this`temps, this`backups, this`stack, this`broken
      ensures Valid() && Leaves(old(temps), temps, pid)
      ensures forall k :: k in backups && k !in old(backups) ==> k in names
      ensures r.Return? ==>
                && clean && broken == old(broken) && stack == old(stack) + [Here()] && installed == Some(r.value)
                && r.value == ManifestOf(commit, r.value.backup, PrepareAll(old(files), assets))
                && files == Written(old(files), PrepareAll(old(files), assets))
                && (forall i :: 0 <= i < |assets| ==> Preservable(old(files), assets[i]))
      ensures !r.Return? ==> (clean <==> Here() == old(Here()))
      ensures !r.Return? && clean ==> broken == old(broken) && stack == old(stack)
      ensures !clean ==> broken
      ensures Quiet(old(schedule)) && Free(old(temps), pid) && Distinct(assets) ==>
                && !r.Die?
                && (r.Return? <==>
                      && (forall i :: 0 <= i < |assets| ==> Preservable(old(files), assets[i]))
                      && exists i :: 0 <= i < |names| && i < BACKUP_NAME_ATTEMPTS && names[i] !in old(backups))
      ensures Single(old(schedule)) && Free(old(temps), pid) && Distinct(assets) ==> !r.Die? && clean
    {
      hide Undoes, IsUndoStack, PrepareAll, Written, Destinations, Covered, Snapshot, BackedUp, ManifestOf, AllNamed;
      hide Quiet, Single, Preservable, Distinct, Leaves;
      var before := Here();
      ghost var known := backups;
      NothingNew(temps, pid);
      var prepared := PrepareAssets(assets);
      if !prepared.Return? { return Throw, true; }
      var destinations := seq(|assets|, i requires 0 <= i < |assets| => assets[i].destination);
      var backup := TakeBackup(destinations, names);
      if !broken { StackKept(known, backups, stack); }
      NamesKept(known, backups, installed);
      if backup.IsFailure() { return backup.PropagateFailure(), true; }
      BackupCovers(backups, backup.value, before, assets);
      r := Replace(commit, assets, prepared.value, backup.value);
      ManifestNames(commit, backup.value, prepared.value);
      StillNamed(backups, before.installed, installed, commit, backup.value, prepared.value);
      clean := r.Return? || Here() == before;
      if r.Return? {
        if !broken { StackGrows(backups, stack, before, Here()); }
        stack := stack + [Here()];
      } else if !clean {
        broken := true;
      }
    }

    /**
      rollback_release. One that fails half-way can be run again: the backup named by installed.json stays the same.
     */
    method Rollback() returns (r: Flow<()>)
      requires Valid()
      modifies this`schedule, this`files, this`installed, this`stack, this`temps
      ensures Valid() && Leaves(old(temps), temps, pid)
      ensures old(installed) == None ==> !r.Return? && Here() == old(Here()) && stack == old(stack)
      ensures !broken && old(installed).Some? ==>
                |old(stack)| > 1 && if installed == old(installed) && !r.Return?
                    then stack == old(stack)[..|old(stack)| - 1] + [Here()]
                                    else stack == old(stack)[..|old(stack)| - 1]
      ensures Quiet(old(schedule)) && Free(old(temps), pid) && old(installed).Some? ==> r.Return?
    {
      hide Quiet, Stuck, Undoes, Leaves, IsUndoStack, AllNamed, Restored;
      NothingNew(temps, pid);
      StackShape(backups, stack, installed, broken);
      NamedHere(backups, installed);
      var t := Pause();
      if t == Crash { return Die; }
      if t != Fine || installed == None { return Throw; }
      ghost var now, left := Here(), temps;
      ghost var b := backups[installed.value.backup].value;
      ghost var done: nat;
      r, done := RestoreBackup(installed.value.backup);
      if Free(left, pid) { NothingStuck(left, pid, b.records); }
      NamedPrevious(backups, now.installed, installed);
      if !broken {
        ghost var n := |stack| - 1;
        PoppedOrMoved(backups, stack, now, done, Here());
        if installed == now.installed && !r.Return? {
          stack := stack[..n] + [Here()];
        } else {
          stack := stack[..n];
        }
      }
    }
  }

  /** Only temporary files of this process have been left behind. */
  ghost predicate Leaves(was: Temps, temps: Temps, pid: nat) { forall t :: t in temps ==> t in was || t.0 == pid }

  lemma NothingNew(temps: Temps, pid: nat)
    ensures Leaves(temps, temps, pid)
  {
  }

  lemma LeavesTwice(was: Temps, middle: Temps, temps: Temps, pid: nat)
    requires Leaves(was, middle, pid) && Leaves(middle, temps, pid)
    ensures Leaves(was, temps, pid)
  {
  }

  lemma TempLeft(was: Temps, temps: Temps, pid: nat, p: Path)
    requires temps == was || temps == was + {(pid, Destination(p))}
    ensures Leaves(was, temps, pid)
  {
  }

  lemma ManifestTempLeft(was: Temps, temps: Temps, pid: nat)
    requires temps == was || temps == was + {(pid, InstalledJson)}
    ensures Leaves(was, temps, pid)
  {
  }

  /**
    What a failed try block may leave besides the first done assets: at most the temporary file of the write that
    failed.
   */
  ghost predicate LeftOver(was: Temps, temps: Temps, pid: nat, prepared: seq<Prepared>, done: nat, sameManifest: bool) {
    || temps == was
    || (sameManifest && done < |prepared| && temps == was + {(pid, Destination(prepared[done].destination))})
    || (sameManifest && done == |prepared| && temps == was + {(pid, InstalledJson)})
  }

  /** Each asset passes its verification once it and those before it are written. */
  ghost predicate Verifiable(files: Files, prepared: seq<Prepared>) {
    forall i :: 0 <= i < |prepared| && prepared[i].preserved ==>
      Lookup(Written(files, prepared[..i]), prepared[i].destination) ==
          Some(File(prepared[i].data, prepared[i].mode, ROOT))
  }

  lemma NextVerifies(files: Files, prepared: seq<Prepared>, i: nat)
    requires i < |prepared| && Verifiable(files, prepared)
    ensures Lookup(Written(files, prepared[..i + 1]), prepared[i].destination) ==
              Some(File(prepared[i].data, prepared[i].mode, ROOT))
  {
    assert prepared[..i + 1][..i] == prepared[..i] && prepared[..i + 1][i] == prepared[i];
  }

  lemma PreparedVerifies(files: Files, assets: seq<Asset>)
    requires Distinct(assets) && forall i :: 0 <= i < |assets| ==> Preservable(files, assets[i])
    ensures Verifiable(files, PrepareAll(files, assets))
  {
    var prepared := PrepareAll(files, assets);
    forall i | 0 <= i < |prepared| && prepared[i].preserved
      ensures Lookup(Written(files, prepared[..i]), prepared[i].destination) ==
                Some(File(prepared[i].data, prepared[i].mode, ROOT))
    {
      assert prepared[i] == Prepare(files, assets[i]) && Preservable(files, assets[i]);
      WrittenBefore(files, assets, i, assets[i].destination);
    }
  }

  /** The first n assets change nothing but what the first n records cover. */
  lemma WrittenCovered(backups: map<nat, Option<Backup>>, name: nat, before: World, assets: seq<Asset>, n: nat)
    requires BackedUp(backups, name, before, assets) && n <= |assets|
    ensures var b := backups[name].value;
      AgreeOff(Written(before.files, PrepareAll(before.files, assets)[..n]), before.files, Covered(b.records[..n]))
  {
    var prepared := PrepareAll(before.files, assets);
    var records := backups[name].value.records;
    WrittenOff(before.files, assets[..n], prepared[..n], n);
    assert prepared[..n][..n] == prepared[..n];
    forall p | p in Destinations(assets[..n]) ensures p in Covered(records[..n]) {
      var i :| 0 <= i < n && assets[..n][i].destination == p;
      assert records[..n][i].destination == p;
    }
  }

  lemma BackupUndoes(
    backups: map<nat, Option<Backup>>, name: nat, before: World, commit: string, assets: seq<Asset>,
        prepared: seq<Prepared>, done: nat,
    files: Files, installed: Option<Manifest>)
    requires BackedUp(backups, name, before, assets) && prepared == PrepareAll(before.files, assets) &&
               done <= |prepared|
    requires files == Written(before.files, prepared[..done])
    ensures AgreeOff(files, before.files, Covered(backups[name].value.records))
    ensures done == |prepared| ==> files == Written(before.files, prepared)
    ensures done == |prepared| && installed == Some(ManifestOf(commit, name, prepared)) ==>
              Undoes(backups, World(files, installed), before)
  {
    var records := backups[name].value.records;
    WrittenCovered(backups, name, before, assets, done);
    assert prepared[..|prepared|] == prepared;
    assert Covered(records[..done]) <= Covered(records) by { PrefixCovered(records, done); }
  }

  lemma PrefixCovered(records: seq<Record>, n: nat)
    requires n <= |records|
    ensures Covered(records[..n]) <= Covered(records)
  {
    forall p | p in Covered(records[..n]) ensures p in Covered(records) {
      var i :| 0 <= i < n && records[..n][i].destination == p;
      assert records[i].destination == p;
    }
  }

  /** A complete restore brings back the files the backup was taken of. */
  lemma BackupBrings(
    backups: map<nat, Option<Backup>>, name: nat, before: World, assets: seq<Asset>, torn: Files, after: World)
    requires BackedUp(backups, name, before, assets) &&
               AgreeOff(torn, before.files, Covered(backups[name].value.records))
    ensures var b := backups[name].value;
      after.files == Restored(torn, b.records[..|b.records|]) && after.installed == b.previous ==> after == before
  {
    var records := backups[name].value.records;
    assert records[..|records|] == records;
    RestoreUndoes(torn, records, before.files);
  }

  /**
    A write that failed half-way and left its temporary file stops the restore exactly at the
    destination that the write never reached, so that everything before it is put back and the rest
    was not touched.
   */
  lemma OneFailureUndone(
    backups: map<nat, Option<Backup>>, name: nat, before: World, assets: seq<Asset>, prepared: seq<Prepared>, done: nat,
    torn: World, was: Temps, temps: Temps, pid: nat, back: nat, after: World)
    requires BackedUp(backups, name, before, assets) && prepared == PrepareAll(before.files, assets) &&
               done <= |prepared|
    requires torn.files == Written(before.files, prepared[..done]) && Free(was, pid) && Distinct(assets)
    requires LeftOver(was, temps, pid, prepared, done, torn.installed == before.installed)
    requires back <= |assets| && after.files == Restored(torn.files, backups[name].value.records[..back])
    requires after.installed == torn.installed || (after.installed == before.installed && back == |assets|)
    requires forall i :: 0 <= i < back ==> !Stuck(temps, pid, backups[name].value.records[i])
    requires back < |assets| ==>
               Stuck(temps, pid, backups[name].value.records[back]) && after.installed == torn.installed
    requires back == |assets| ==>
               after.installed == before.installed ||
                   (before.installed.Some? && (pid, InstalledJson) in temps && after.installed == torn.installed)
    ensures after == before
  {
    hide Written, Restored;
    var records := backups[name].value.records;
    assert forall i :: 0 <= i < |records| ==> records[i].destination == assets[i].destination;
    if back < |assets| {
      assert back == done;
      WrittenCovered(backups, name, before, assets, done);
      assert Snapshot(records[..done], before.files);
      RestoreUndoes(torn.files, records[..done], before.files);
    } else {
      WrittenCovered(backups, name, before, assets, done);
      PrefixCovered(records, done);
      assert records[..back] == records;
      RestoreUndoes(torn.files, records, before.files);
    }
  }

  lemma NothingStuck(temps: Temps, pid: nat, records: seq<Record>)
    requires Free(temps, pid)
    ensures forall i :: 0 <= i < |records| ==> !Stuck(temps, pid, records[i])
    ensures (pid, InstalledJson) !in temps
  {
  }

  lemma NamesKept(backups: map<nat, Option<Backup>>, more: map<nat, Option<Backup>>, installed: Option<Manifest>)
    requires AllNamed(backups, installed) && forall k :: k in backups ==> k in more && more[k] == backups[k]
    requires forall k :: k in more && k !in backups ==> more[k] == None || more[k].value.previous == installed
    ensures AllNamed(more, installed)
  {
  }

  lemma StillNamed(
    backups: map<nat, Option<Backup>>, was: Option<Manifest>, installed: Option<Manifest>, commit: string, name: nat,
        prepared: seq<Prepared>)
    requires AllNamed(backups, was) && name in backups && backups[name].Some?
    requires installed == was || installed == Some(ManifestOf(commit, name, prepared))
    ensures AllNamed(backups, installed)
  {
  }

  lemma NamedHere(backups: map<nat, Option<Backup>>, installed: Option<Manifest>)
    requires AllNamed(backups, installed)
    ensures installed.Some? ==> installed.value.backup in backups && backups[installed.value.backup].Some?
  {
  }

  lemma NamedPrevious(backups: map<nat, Option<Backup>>, was: Option<Manifest>, installed: Option<Manifest>)
    requires AllNamed(backups, was) && was.Some?
    requires installed == was || installed == backups[was.value.backup].value.previous
    ensures AllNamed(backups, installed)
  {
  }

  /** Under a manifest there is something to roll back to. */
  lemma StackShape(backups: map<nat, Option<Backup>>, stack: seq<World>, installed: Option<Manifest>, broken: bool)
    requires !broken ==> IsUndoStack(backups, stack) && stack[|stack| - 1].installed == installed
    ensures !broken && installed.Some? ==> |stack| > 1
  {
  }

  /** A rollback from the top of the stack reaches the world below it, or moves covered destinations alone. */
  lemma PoppedOrMoved(backups: map<nat, Option<Backup>>, stack: seq<World>, now: World, done: nat, here: World)
    requires IsUndoStack(backups, stack) && |stack| > 1 && stack[|stack| - 1] == now
    requires now.installed.Some? && now.installed.value.backup in backups && backups[now.installed.value.backup].Some?
    requires var b := backups[now.installed.value.backup].value;
               done <= |b.records| && here.files == Restored(now.files, b.records[..done])
    ensures |stack| - 2 >= 0 && IsUndoStack(backups, stack[..|stack| - 1])
    ensures here.installed == now.installed ==> IsUndoStack(backups, stack[..|stack| - 1] + [here])
    ensures var b := backups[now.installed.value.backup].value;
      done == |b.records| && here.installed == b.previous ==> here == stack[|stack| - 2]
  {
    var b := backups[now.installed.value.backup].value;
    var n := |stack| - 1;
    assert Undoes(backups, stack[n], stack[n - 1]);
    RestorePartly(now.files, b.records, done);
    if here.installed == now.installed { StackTopMoves(backups, stack, here); }
    assert b.records[..|b.records|] == b.records;
    RestoreUndoes(now.files, b.records, stack[n - 1].files);
    forall i | 1 <= i < n ensures Undoes(backups, stack[..n][i], stack[..n][i - 1]) {
      assert Undoes(backups, stack[i], stack[i - 1]);
    }
  }

  lemma BackupCovers(backups: map<nat, Option<Backup>>, name: nat, world: World, assets: seq<Asset>)
    requires name in backups && backups[name].Some?
    requires var b := backups[name].value;
             && b.previous == world.installed && |b.records| == |assets|
             && forall i :: 0 <= i < |assets| ==>
                 b.records[i] == Record(assets[i].destination, Lookup(world.files, assets[i].destination))
    ensures BackedUp(backups, name, world, assets)
  {
  }

  lemma BackupThere(backups: map<nat, Option<Backup>>, name: nat, world: World, assets: seq<Asset>)
    requires BackedUp(backups, name, world, assets)
    ensures name in backups && backups[name].Some?
    ensures backups[name].value.previous == world.installed && |backups[name].value.records| == |assets|
  {
  }

  lemma ManifestNames(commit: string, name: nat, prepared: seq<Prepared>)
    ensures ManifestOf(commit, name, prepared).backup == name
  {
  }

  /** More backups do no harm. */
  lemma StackKept(backups: map<nat, Option<Backup>>, more: map<nat, Option<Backup>>, stack: seq<World>)
    requires IsUndoStack(backups, stack) && forall k :: k in backups ==> k in more && more[k] == backups[k]
    ensures IsUndoStack(more, stack)
  {
    forall i | 1 <= i < |stack| ensures Undoes(more, stack[i], stack[i - 1]) {
      assert Undoes(backups, stack[i], stack[i - 1]);
    }
  }

  lemma StackGrows(backups: map<nat, Option<Backup>>, stack: seq<World>, before: World, after: World)
    requires IsUndoStack(backups, stack) && stack[|stack| - 1] == before && Undoes(backups, after, before)
    ensures IsUndoStack(backups, stack + [after])
  {
  }

  /** A change to covered destinations alone leaves the top of the stack as good as it was. */
  lemma StackTopMoves(backups: map<nat, Option<Backup>>, stack: seq<World>, moved: World)
    requires IsUndoStack(backups, stack) && |stack| > 1 && Undoes(backups, stack[|stack| - 1], stack[|stack| - 2])
    requires var top := stack[|stack| - 1];
             moved.installed == top.installed &&
                 AgreeOff(moved.files, top.files, Covered(backups[top.installed.value.backup].value.records))
    ensures IsUndoStack(backups, stack[..|stack| - 1] + [moved])
  {
    var n := |stack| - 1;
    var b := backups[stack[n].installed.value.backup].value;
    assert Undoes(backups, stack[n], stack[n - 1]);
    forall p | p !in Covered(b.records) ensures Lookup(moved.files, p) == Lookup(stack[n - 1].files, p) {
      assert Lookup(moved.files, p) == Lookup(stack[n].files, p);
    }
    assert Undoes(backups, moved, stack[n - 1]);
    var all := stack[..n] + [moved];
    forall i | 1 <= i < |all| ensures Undoes(backups, all[i], all[i - 1]) {
      if i < n { assert Undoes(backups, stack[i], stack[i - 1]); }
    }
  }

  // ----- runs -----

  datatype Op =
    | Install(commit: string, assets: seq<Asset>, names: seq<nat>, pid: nat, faults: seq<Fault>)
    | Rollback(pid: nat, faults: seq<Fault>)

  /**
    Refused: an install that failed and left the world it found. Halfway: a rollback that failed and
    left the manifest in place. Broken: an install that failed and left another world.
   */
  datatype Result = Installed(world: World) | RolledBack | Refused | Halfway(world: World) | Broken

  function After(stack: seq<World>, result: Result): (next: seq<World>)
    requires stack != []
    ensures next != []
  {
    match result
    case Installed(world) => stack + [world]
    case RolledBack => if |stack| > 1 then stack[..|stack| - 1] else stack
    case Halfway(world) => stack[..|stack| - 1] + [world]
    case _ => stack
  }

  /** All that an operation can do to the world it finds. */
  ghost predicate Does(op: Op, result: Result, before: World, after: World) {
    && op.Rollback? == (result.RolledBack? || result.Halfway?)
    && match result
       case Installed(world) =>
         var prepared := PrepareAll(before.files, op.assets);
         && world == after && after.files == Written(before.files, prepared)
         && after.installed.Some?
         && after.installed.value == ManifestOf(op.commit, after.installed.value.backup, prepared)
         && AllPreservable(before.files, op.assets)
       case RolledBack => before.installed.Some?
       case Refused => after == before
       case Halfway(world) =>
           world == after && after.installed == before.installed && (before.installed == None ==> after == before)
       case Broken => after != before
  }

  ghost predicate AllPreservable(files: Files, assets: seq<Asset>) {
    forall i :: 0 <= i < |assets| ==> Preservable(files, assets[i])
  }

  /** What an operation must do whose process number and backup names are new. */
  ghost predicate Must(op: Op, result: Result, before: World) {
    match op
    case Install(_, assets, names, _, faults) =>
      Distinct(assets) ==>
        && (Quiet(faults) ==>
              if AllPreservable(before.files, assets) && names != [] then result.Installed? else result.Refused?)
        && (Single(faults) ==> result.Installed? || result.Refused?)
    case Rollback(_, faults) =>
      Quiet(faults) ==> if before.installed.Some? then result.RolledBack? else result.Halfway?
  }

  /** What the processes so far have left behind: their temporary files and backups. */
  ghost predicate Known(installer: Installer, pids: set<nat>, names: set<nat>)
    reads installer
  {
    && (forall t :: t in installer.temps ==> t.0 in pids)
    && (forall k :: k in installer.backups ==> k in names)
  }

  function PidsOf(ops: seq<Op>): set<nat> { set i | 0 <= i < |ops| :: ops[i].pid }

  function NamesOf(ops: seq<Op>): set<nat> {
    set i, k | 0 <= i < |ops| && ops[i].Install? && 0 <= k < |ops[i].names| :: ops[i].names[k]
  }

  /** The process number and the first backup name have not been used before. */
  predicate New(op: Op, earlier: seq<Op>) {
    op.pid !in PidsOf(earlier) && (op.Install? && op.names != [] ==> op.names[0] !in NamesOf(earlier))
  }

  method Perform(installer: Installer, op: Op, ghost earlier: seq<Op>) returns (result: Result)
    requires installer.Valid() && Known(installer, PidsOf(earlier), NamesOf(earlier))
    modifies installer
    ensures installer.Valid() && Known(installer, PidsOf(earlier + [op]), NamesOf(earlier + [op]))
    ensures Does(op, result, old(installer.Here()), installer.Here())
    ensures New(op, earlier) ==> Must(op, result, old(installer.Here()))
    ensures installer.broken ==> old(installer.broken) || result == Broken
    ensures !installer.broken && result != Broken ==>
              !old(installer.broken) && old(installer.stack) != [] &&
                  installer.stack == After(old(installer.stack), result)
  {
    hide Undoes, Written, PrepareAll, ManifestOf, Restored, Preservable, Quiet, Single, Distinct, PidsOf, NamesOf;
    hide AllNamed;
    installer.schedule, installer.pid := op.faults, op.pid;
    OneMore(earlier, op);
    match op
    case Install(commit, assets, names, pid, _) =>
      assert New(op, earlier) ==> Free(installer.temps, installer.pid);
      assert New(op, earlier) && names != [] ==> names[0] !in installer.backups;
      if Quiet(op.faults) { QuietIsSingle(op.faults); }
      ghost var known := installer.backups;
      var r, clean := installer.Install(commit, assets, names);
      assert names != [] && names[0] !in known ==>
          exists i :: 0 <= i < |names| && i < BACKUP_NAME_ATTEMPTS && names[i] !in known;
      result := if r.Return? then Installed(installer.Here()) else if clean then Refused else Broken;
    case Rollback(pid, _) =>
      assert New(op, earlier) ==> Free(installer.temps, installer.pid);
      var manifest := installer.installed;
      var r := installer.Rollback();
      result := if r.Return? || installer.installed != manifest then RolledBack else Halfway(installer.Here());
  }

  lemma OneMore(earlier: seq<Op>, op: Op)
    ensures PidsOf(earlier + [op]) == PidsOf(earlier) + {op.pid}
    ensures NamesOf(earlier + [op]) == NamesOf(earlier) + if op.Install? then set k | 0 <= k < |op.names| :: op.names[k]
              else {}
  {
    var ops := earlier + [op];
    assert ops[|earlier|] == op && forall i :: 0 <= i < |earlier| ==> ops[i] == earlier[i];
    assert PidsOf(ops) == PidsOf(earlier) + {op.pid} by {
      assert ops[|earlier|].pid in PidsOf(ops);
      forall p | p in PidsOf(earlier) ensures p in PidsOf(ops) {
        var i :| 0 <= i < |earlier| && earlier[i].pid == p;
        assert ops[i].pid == p;
      }
    }
    var own := if op.Install? then set k | 0 <= k < |op.names| :: op.names[k] else {};
    forall n ensures n in NamesOf(ops) <==> n in NamesOf(earlier) || n in own {
      if n in NamesOf(earlier) {
        var i, k :| 0 <= i < |earlier| && earlier[i].Install? && 0 <= k < |earlier[i].names| &&
            earlier[i].names[k] == n;
        assert ops[i].names[k] == n;
      }
      if n in own {
        var k :| 0 <= k < |op.names| && op.names[k] == n;
        assert ops[|earlier|].names[k] == n;
      }
    }
  }

  /** An ordinary stack of worlds, with the present one on top. */
  function UndoStack(start: World, results: seq<Result>): (stack: seq<World>)
    ensures stack != []
  {
    if results == [] then [start]
    else
      var n := |results| - 1;
      After(UndoStack(start, results[..n]), results[n])
  }

  function Top(stack: seq<World>): World
    requires stack != []
  {
    stack[|stack| - 1]
  }

  ghost predicate LeadsAt(ops: seq<Op>, results: seq<Result>, trail: seq<World>, i: nat)
    requires i < |results| <= |ops| && |trail| == |results| + 1
  {
    Does(ops[i], results[i], trail[i], trail[i + 1]) && (New(ops[i], ops[..i]) ==> Must(ops[i], results[i], trail[i]))
  }

  /** Each operation leads from one world of the trail to the next. */
  ghost predicate Leads(ops: seq<Op>, results: seq<Result>, trail: seq<World>) {
    |results| <= |ops| && |trail| == |results| + 1 && forall i :: 0 <= i < |results| ==> LeadsAt(ops, results, trail, i)
  }

  ghost predicate OnTopAt(results: seq<Result>, trail: seq<World>, i: nat)
    requires i <= |results| && |trail| == |results| + 1
  {
    trail[i] == Top(UndoStack(trail[0], results[..i]))
  }

  /** Each world of the trail is the top of the ordinary stack. */
  ghost predicate OnTop(results: seq<Result>, trail: seq<World>) {
    |trail| == |results| + 1 && forall i :: 0 <= i <= |results| ==> OnTopAt(results, trail, i)
  }

  lemma LeadsOn(ops: seq<Op>, results: seq<Result>, trail: seq<World>, result: Result, world: World)
    requires Leads(ops, results, trail) && |results| < |ops|
    requires var i := |results|;
               Does(ops[i], result, trail[i], world) && (New(ops[i], ops[..i]) ==> Must(ops[i], result, trail[i]))
    ensures Leads(ops, results + [result], trail + [world])
  {
    hide Does, Must, New;
    var more, longer := results + [result], trail + [world];
    forall i | 0 <= i < |more| ensures LeadsAt(ops, more, longer, i) {
      if i < |results| { assert LeadsAt(ops, results, trail, i); }
    }
  }

  lemma StaysOnTop(results: seq<Result>, trail: seq<World>, result: Result, world: World)
    requires OnTop(results, trail) && world == Top(UndoStack(trail[0], results + [result]))
    ensures OnTop(results + [result], trail + [world])
  {
    hide UndoStack;
    var more, longer := results + [result], trail + [world];
    forall i | 0 <= i <= |more| ensures OnTopAt(more, longer, i) {
      if i <= |results| {
        assert more[..i] == results[..i] && OnTopAt(results, trail, i);
      } else {
        assert more[..i] == more;
      }
    }
  }

  /**
    Any installs and rollbacks, failing wherever they may: unless an install has left another world
    than it found, the world is always the top of the ordinary stack. An untroubled operation succeeds,
    and an install with a single failing call changes nothing.
   */
  method Run(files: Files, ops: seq<Op>) returns (results: seq<Result>, trail: seq<World>)
    ensures |results| == |ops| && Leads(ops, results, trail) && trail[0] == World(files, None)
    ensures Broken !in results ==> OnTop(results, trail)
  {
    hide After, Does, Must, New, Known, OnTop, Leads;
    var installer := new Installer(files);
    results, trail := [], [installer.Here()];
    NothingDone(installer, ops, files);
    for i := 0 to |ops|
      invariant fresh(installer) && installer.Valid() && Known(installer, PidsOf(ops[..i]), NamesOf(ops[..i]))
      invariant |results| == i && |trail| == i + 1 && trail[0] == World(files, None) && trail[i] == installer.Here()
      invariant Leads(ops, results, trail)
      invariant installer.broken ==> Broken in results
      invariant Broken !in results ==> installer.stack == UndoStack(trail[0], results) && OnTop(results, trail)
    {
      assert ops[..i + 1] == ops[..i] + [ops[i]];
      var result := Perform(installer, ops[i], ops[..i]);
      LeadsOn(ops, results, trail, result, installer.Here());
      if Broken !in results + [result] {
        assert result != Broken && Broken !in results;
        Grown(trail[0], results, result);
        StaysOnTop(results, trail, result, installer.Here());
      }
      results, trail := results + [result], trail + [installer.Here()];
    }
  }

  lemma Grown(start: World, results: seq<Result>, result: Result)
    ensures UndoStack(start, results + [result]) == After(UndoStack(start, results), result)
  {
    assert (results + [result])[..|results|] == results;
  }

  lemma NothingDone(installer: Installer, ops: seq<Op>, files: Files)
    requires installer.temps == {} && installer.backups == map[]
    ensures Known(installer, PidsOf(ops[..0]), NamesOf(ops[..0]))
    ensures Leads(ops, [], [World(files, None)]) && OnTop([], [World(files, None)])
  {
    var start: seq<World> := [World(files, None)];
    assert OnTopAt([], start, 0);
  }

  // ----- installs, then rollbacks -----

  /** The worlds of the installs that went through. */
  function Worlds(results: seq<Result>): seq<World> {
    if results == [] then []
    else
      var n := |results| - 1;
      Worlds(results[..n]) + if results[n].Installed? then [results[n].world] else []
  }

  /** The stack after k rollbacks; the world before the first install stays. */
  function Popped(stack: seq<World>, k: nat): (r: seq<World>)
    requires stack != []
    ensures r != []
  {
    stack[..if k < |stack| then |stack| - k else 1]
  }

  lemma {:induction false} StackOfInstalls(start: World, results: seq<Result>)
    requires forall i :: 0 <= i < |results| ==> results[i].Installed? || results[i].Refused?
    ensures UndoStack(start, results) == [start] + Worlds(results)
  {
    if results != [] { StackOfInstalls(start, results[..|results| - 1]); }
  }

  lemma DoesAt(ops: seq<Op>, results: seq<Result>, trail: seq<World>, i: nat)
    requires Leads(ops, results, trail) && i < |results|
    ensures results[i].Installed? ==> results[i].world == trail[i + 1] && trail[i + 1].installed.Some?
    ensures ops[i].Install? == (results[i].Installed? || results[i].Refused? || results[i].Broken?)
  {
    assert LeadsAt(ops, results, trail, i);
  }

  lemma {:induction false} WorldsNamed(ops: seq<Op>, results: seq<Result>, trail: seq<World>, n: nat)
    requires Leads(ops, results, trail) && n <= |results|
    ensures forall i :: 0 <= i < |Worlds(results[..n])| ==> Worlds(results[..n])[i].installed.Some?
    ensures (forall i :: 0 <= i < n ==> results[i].Installed?) ==> Worlds(results[..n]) == trail[1..n + 1]
  {
    hide Leads, LeadsAt, Does, Must, New;
    LeadsParts(ops, results, trail);
    if n > 0 {
      WorldsNamed(ops, results, trail, n - 1);
      assert results[..n][..n - 1] == results[..n - 1];
      DoesAt(ops, results, trail, n - 1);
      assert trail[1..n + 1] == trail[1..n] + [trail[n]];
    }
  }

  /** One more untroubled rollback pops the stack, down to the world before the first install. */
  lemma PopOne(start: World, stack: seq<World>, result: Result, op: Op, after: World)
    requires stack != [] && stack[0] == start && start.installed == None && forall i :: 0 < i < |stack| ==>
               stack[i].installed.Some?
    requires op.Rollback? && Quiet(op.faults) && Must(op, result, Top(stack)) && Does(op, result, Top(stack), after)
    ensures After(stack, result) == Popped(stack, 1)
  {
    if |stack| == 1 { assert stack == [start]; }
  }

  lemma {:induction false} Unwound(ops: seq<Op>, results: seq<Result>, trail: seq<World>, n: nat, k: nat)
    requires Leads(ops, results, trail) && OnTop(results, trail) && n + k <= |results|
    requires trail[0].installed == None && Broken !in results
    requires forall i :: 0 <= i < n ==> ops[i].Install?
    requires forall i :: n <= i < n + k ==> ops[i].Rollback? && Quiet(ops[i].faults) && New(ops[i], ops[..i])
    ensures UndoStack(trail[0], results[..n + k]) == Popped([trail[0]] + Worlds(results[..n]), k)
    decreases k
  {
    hide Quiet, New, Must, After, UndoStack, Worlds, Does, LeadsAt, Popped, OnTopAt, Leads;
    LeadsParts(ops, results, trail);
    var stack := [trail[0]] + Worlds(results[..n]);
    if k == 0 {
      forall i | 0 <= i < n ensures results[..n][i].Installed? || results[..n][i].Refused? {
        DoesAt(ops, results, trail, i);
        assert results[i] in results;
      }
      StackOfInstalls(trail[0], results[..n]);
      PoppedTwice(stack, 0);
    } else {
      var i := n + k - 1;
      Unwound(ops, results, trail, n, k - 1);
      WorldsNamed(ops, results, trail, n);
      PoppedTwice(stack, k - 1);
      var below := Popped(stack, k - 1);
      MustAt(ops, results, trail, i);
      PopOne(trail[0], below, results[i], ops[i], trail[i + 1]);
      Grown(trail[0], results[..i], results[i]);
      assert results[..n + k] == results[..i] + [results[i]];
    }
  }

  lemma LeadsParts(ops: seq<Op>, results: seq<Result>, trail: seq<World>)
    requires Leads(ops, results, trail)
    ensures |results| <= |ops| && |trail| == |results| + 1
  {
  }

  lemma MustAt(ops: seq<Op>, results: seq<Result>, trail: seq<World>, i: nat)
    requires Leads(ops, results, trail) && OnTop(results, trail) && i < |results| && New(ops[i], ops[..i])
    ensures var top := Top(UndoStack(trail[0], results[..i]));
              Must(ops[i], results[i], top) && Does(ops[i], results[i], top, trail[i + 1])
  {
    hide Must, Does, New, UndoStack;
    assert LeadsAt(ops, results, trail, i) && OnTopAt(results, trail, i);
  }

  lemma AtTop(results: seq<Result>, trail: seq<World>, i: nat)
    requires OnTop(results, trail) && i <= |results|
    ensures |trail| == |results| + 1 && OnTopAt(results, trail, i)
  {
  }

  lemma PoppedTwice(stack: seq<World>, k: nat)
    requires stack != []
    ensures Popped(stack, k)[0] == stack[0] && Popped(Popped(stack, k), 1) == Popped(stack, k + 1)
    ensures Popped(stack, 0) == stack
    ensures forall m :: 0 < m < |Popped(stack, k)| ==> m < |stack| && Popped(stack, k)[m] == stack[m]
  {
  }

  /**
    Installs, failing wherever they may, and then untroubled rollbacks: k of them lead back to the world
    before the last k installs that went through. After n installs that all did, that is the world the
    installer showed after the first n - k of them.
   */
  method InstallAndRollBack(files: Files, installs: seq<Op>, rollbacks: seq<Op>)
    returns (results: seq<Result>, trail: seq<World>)
    requires forall i :: 0 <= i < |installs| ==> installs[i].Install?
    requires forall i :: 0 <= i < |rollbacks| ==>
               rollbacks[i].Rollback? && Quiet(rollbacks[i].faults) && New(rollbacks[i], installs + rollbacks[..i])
    ensures |results| == |installs| + |rollbacks| && |trail| == |results| + 1 && trail[0] == World(files, None)
    ensures Leads(installs + rollbacks, results, trail)
    ensures Broken !in results ==>
              trail[|results|] == Top(Popped([trail[0]] + Worlds(results[..|installs|]), |rollbacks|))
    ensures (forall i :: 0 <= i < |installs| ==> results[i].Installed?) ==>
              trail[|results|] == trail[if |rollbacks| <= |installs| then |installs| - |rollbacks| else 0]
  {
    hide Quiet, Must, After, UndoStack, Worlds, Does, New, Leads, OnTop;
    var ops := installs + rollbacks;
    var n, k := |installs|, |rollbacks|;
    results, trail := Run(files, ops);
    forall i | n <= i < n + k ensures ops[i].Rollback? && Quiet(ops[i].faults) && New(ops[i], ops[..i]) {
      assert ops[i] == rollbacks[i - n] && ops[..i] == installs + rollbacks[..i - n];
    }
    NoneBroken(ops, results, trail, n);
    if Broken !in results {
      Unwound(ops, results, trail, n, k);
      assert OnTopAt(results, trail, n + k) by { AtTop(results, trail, n + k); }
    }
    WorldsNamed(ops, results, trail, n);
    if forall i :: 0 <= i < n ==> results[i].Installed? {
      assert [trail[0]] + trail[1..n + 1] == trail[..n + 1];
    }
  }

  lemma NoneBroken(ops: seq<Op>, results: seq<Result>, trail: seq<World>, n: nat)
    requires Leads(ops, results, trail) && n <= |results| && forall i :: n <= i < |results| ==> ops[i].Rollback?
    ensures (forall i :: 0 <= i < n ==> results[i].Installed?) ==> Broken !in results
    ensures |trail| == |results| + 1
  {
    if (forall i :: 0 <= i < n ==> results[i].Installed?) && Broken in results {
      var i :| 0 <= i < |results| && results[i] == Broken;
      DoesAt(ops, results, trail, i);
    }
  }
}
