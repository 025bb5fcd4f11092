/** The ledger's file: a save that stages, backs up and renames, and the load that reads either copy.
    The disk is a map from paths to contents; a journal records every state the disk passes through, so that
    a crash at any moment is one of its entries. */
module LedgerFile {
  import opened Bytes
  import opened Extensions
  import opened PermissionLedger
  import opened LedgerSnapshot
  import opened LedgerRestore
  import opened SnapshotTheorems

  type Files = map<Text, seq<byte>>

  datatype Journal = Journal(files: Files, states: seq<Files>)

  function TempPath(path: Text): Text {
    path + Ascii(".tmp")
  }

  function BackupPath(path: Text): Text {
    path + Ascii(".bak")
  }

  lemma PathsDiffer(path: Text)
    ensures TempPath(path) != path && BackupPath(path) != path && TempPath(path) != BackupPath(path)
  {
    assert |TempPath(path)| == |path| + 4;
    assert TempPath(path)[|path| + 1] == 't' as int && BackupPath(path)[|path| + 1] == 'b' as int;
  }

  /** Which of the operations of one save go wrong. */
  datatype Faults = Faults(
    removeTemp: bool,
    openTemp: bool,
    bytesWritten: nat,
    flushTemp: bool,
    probePrimary: bool,
    readPrimary: bool,
    removeBackup: bool,
    moveToBackup: bool,
    removePrimary: bool,
    publish: bool,
    undo: bool,
    cleanUp: bool)

  // Disk operations.

  function Recorded(j: Journal, files: Files): Journal {
    Journal(files, j.states + [files])
  }

  function Removed(j: Journal, path: Text, fails: bool): Journal {
    if fails then j else Recorded(j, j.files - {path})
  }

  predicate CanRename(j: Journal, from: Text, fails: bool) {
    !fails && from in j.files
  }

  function Renamed(j: Journal, from: Text, to: Text, fails: bool): Journal {
    if CanRename(j, from, fails) then Recorded(j, (j.files - {from})[to := j.files[from]]) else j
  }

  /** A truncating write that may stop after any number of bytes; every shorter content is a state. */
  function Written(j: Journal, path: Text, data: seq<byte>, n: nat): Journal
    requires n <= |data|
  {
    if n == 0 then Recorded(j, j.files[path := []])
    else
      var before := Written(j, path, data, n - 1);
      Recorded(before, before.files[path := data[..n]])
  }

  class Disk {
    var files: Files
    ghost var states: seq<Files>

    constructor (files: Files)
      ensures this.files == files && states == []
    {
      this.files := files;
      states := [];
    }

    ghost function Now(): Journal
      reads this
    {
      Journal(files, states)
    }

    method Remove(path: Text, fails: bool) returns (ok: bool)
      modifies this
      ensures Now() == Removed(old(Now()), path, fails) && ok == !fails
    {
      if fails {
        return false;
      }
      files := files - {path};
      states := states + [files];
      return true;
    }

    method Rename(from: Text, to: Text, fails: bool) returns (ok: bool)
      modifies this
      ensures Now() == Renamed(old(Now()), from, to, fails) && ok == CanRename(old(Now()), from, fails)
      ensures !ok ==> Now() == old(Now())
    {
      if fails || from !in files {
        return false;
      }
      files := (files - {from})[to := files[from]];
      states := states + [files];
      return true;
    }

    method Write(path: Text, data: seq<byte>, faults: Faults) returns (ok: bool)
      modifies this
      ensures ok == TempComplete(data, faults)
      ensures Now() == if faults.openTemp then old(Now())
                       else Written(old(Now()), path, data, Min(faults.bytesWritten, |data|))
    {
      if faults.openTemp {
        return false;
      }
      files := files[path := []];
      states := states + [files];
      var n := 0;
      while n < |data| && n < faults.bytesWritten
        invariant 0 <= n <= Min(faults.bytesWritten, |data|)
        invariant Now() == Written(old(Now()), path, data, n)
      {
        n := n + 1;
        files := files[path := data[..n]];
        states := states + [files];
      }
      return n == |data| && !faults.flushTemp;
    }

    /** A whole file, unless it is missing or larger than any snapshot may be. */
    method Read(path: Text) returns (ok: bool, data: seq<byte>)
      ensures ok == Readable(files, path) && (ok ==> data == files[path])
    {
      if path !in files || |files[path]| > MAX_SNAPSHOT_BYTES {
        return false, [];
      }
      return true, files[path];
    }
  }

  predicate TempComplete(data: seq<byte>, faults: Faults) {
    !faults.openTemp && faults.bytesWritten >= |data| && !faults.flushTemp
  }

  predicate Readable(files: Files, path: Text) {
    path in files && |files[path]| <= MAX_SNAPSHOT_BYTES
  }

  // Load.

  /** What one copy of the snapshot yields. */
  ghost function LoadedCopy(files: Files, path: Text, profile: Text, now: u64): RestoreResult {
    if Readable(files, path) then RestoredFrom(files[path], profile, now) else Err(IoError)
  }

  ghost function Loaded(files: Files, path: Text, profile: Text, now: u64): RestoreResult {
    var backup := BackupPath(path);
    if !ValidProfile(profile) then Err(InvalidProfile)
    else if path !in files && backup !in files then Ok(Restored([], 0))
    else
      var first := LoadedCopy(files, path, profile, now);
      var second := LoadedCopy(files, backup, profile, now);
      if path in files && (first.Ok? || backup !in files || second.Err?) then first else second
  }

  method Load(disk: Disk, path: Text, profile: Text, now: u64) returns (r: RestoreResult, fromBackup: bool)
    ensures r == Loaded(disk.files, path, profile, now)
    ensures fromBackup <==>
              && ValidProfile(profile) && r.Ok? && BackupPath(path) in disk.files
              && !(path in disk.files && LoadedCopy(disk.files, path, profile, now).Ok?)
  {
    if !ValidProfile(profile) {
      return Err(InvalidProfile), false;
    }
    hide RestoredFrom, ValidProfile;
    var backup := BackupPath(path);
    var primaryExists := path in disk.files;
    var backupExists := backup in disk.files;
    if !primaryExists && !backupExists {
      return Ok(Restored([], 0)), false;
    }
    var primaryFailure: RestoreResult := Err(IoError);
    if primaryExists {
      var got, bytes := disk.Read(path);
      if got {
        var primary := RestoreSnapshot(bytes, profile, now);
        if primary.Ok? {
          return primary, false;
        }
        primaryFailure := primary;
      }
    }
    if backupExists {
      var got, bytes := disk.Read(backup);
      if got {
        var second := RestoreSnapshot(bytes, profile, now);
        if second.Ok? {
          return second, true;
        }
        if !primaryExists {
          return second, false;
        }
      } else if !primaryExists {
        return Err(IoError), false;
      }
    }
    return primaryFailure, false;
  }

  // Save.

  /** The primary copy is worth backing up. */
  ghost predicate PrimaryValid(files: Files, path: Text, profile: Text, now: u64, f: Faults) {
    && !f.probePrimary && path in files && !f.readPrimary
    && LoadedCopy(files, path, profile, now).Ok?
  }

  /** The journal once the new snapshot is staged. */
  ghost function Staged(j: Journal, path: Text, data: seq<byte>, f: Faults): Journal {
    var cleared := Removed(j, TempPath(path), f.removeTemp);
    if f.openTemp then cleared else Written(cleared, TempPath(path), data, Min(f.bytesWritten, |data|))
  }

  /** The journal once the old primary is out of the way, and whether that worked. */
  ghost function SetAside(j: Journal, path: Text, profile: Text, now: u64, f: Faults): (Journal, bool) {
    if PrimaryValid(j.files, path, profile, now, f) then
      var cleared := Removed(j, BackupPath(path), f.removeBackup);
      (Renamed(cleared, path, BackupPath(path), f.moveToBackup), CanRename(cleared, path, f.moveToBackup))
    else if !f.probePrimary && path in j.files then
      (Removed(j, path, f.removePrimary), !f.removePrimary)
    else (j, true)
  }

  /** The journal of a whole save of an accepted snapshot, and whether it reports success. */
  ghost function SaveRun(j: Journal, path: Text, data: seq<byte>, profile: Text, now: u64, f: Faults): (Journal, bool) {
    var temp := TempPath(path);
    var staged := Staged(j, path, data, f);
    if !TempComplete(data, f) then (Removed(staged, temp, f.cleanUp), false)
    else
      var aside := SetAside(staged, path, profile, now, f);
      if !aside.1 then (Removed(aside.0, temp, f.cleanUp), false)
      else if CanRename(aside.0, temp, f.publish) then (Renamed(aside.0, temp, path, f.publish), true)
      else
        var undone := if PrimaryValid(staged.files, path, profile, now, f)
                      then Renamed(aside.0, BackupPath(path), path, f.undo) else aside.0;
        (Removed(undone, temp, f.cleanUp), false)
  }

  ghost function AfterSave(j: Journal, path: Text, encoded: SnapshotResult, profile: Text, now: u64, f: Faults): (Journal, Outcome<()>) {
    if encoded.Err? then (j, Err(encoded.issue))
    else
      var run := SaveRun(j, path, encoded.value, profile, now, f);
      (run.0, if run.1 then Ok(()) else Err(IoError))
  }

  /** Tests the primary and moves it aside: to the backup when it is valid, away when it is not. */
  method MoveAside(disk: Disk, path: Text, profile: Text, now: u64, f: Faults) returns (ok: bool, primaryValid: bool)
    modifies disk
    ensures (disk.Now(), ok) == SetAside(old(disk.Now()), path, profile, now, f)
    ensures primaryValid == PrimaryValid(old(disk.files), path, profile, now, f)
  {
    hide RestoredFrom, BackupPath;
    var primaryExists := !f.probePrimary && path in disk.files;
    primaryValid := false;
    if primaryExists && !f.readPrimary {
      var got, existing := disk.Read(path);
      if got {
        var restored := RestoreSnapshot(existing, profile, now);
        primaryValid := restored.Ok?;
      }
    }
    ok := true;
    if primaryValid {
      var removed := disk.Remove(BackupPath(path), f.removeBackup);
      ok := disk.Rename(path, BackupPath(path), f.moveToBackup);
    } else if primaryExists {
      ok := disk.Remove(path, f.removePrimary);
    }
  }

  method Save(disk: Disk, path: Text, ledger: ExtensionPermissionLedger, profile: Text, now: u64, f: Faults)
    returns (r: Outcome<()>)
    modifies disk
    ensures ledger.leases == old(ledger.leases)
    ensures (disk.Now(), r) == AfterSave(old(disk.Now()), path, Encoded(old(ledger.leases), profile, now), profile, now, f)
  {
    hide Encoded, RestoredFrom, TempPath, BackupPath, Written, PrimaryValid, SetAside, Removed, Renamed, CanRename, TempComplete;
    var snapshot := EncodeSnapshot(ledger, profile, now);
    if snapshot.Err? {
      return Err(snapshot.issue);
    }
    var temp := TempPath(path);
    var done := disk.Remove(temp, f.removeTemp);
    var written := disk.Write(temp, snapshot.value, f);
    if !written {
      done := disk.Remove(temp, f.cleanUp);
      return Err(IoError);
    }
    var primaryValid;
    done, primaryValid := MoveAside(disk, path, profile, now, f);
    if !done {
      done := disk.Remove(temp, f.cleanUp);
      return Err(IoError);
    }
    done := disk.Rename(temp, path, f.publish);
    if !done {
      if primaryValid {
        done := disk.Rename(BackupPath(path), path, f.undo);
      }
      done := disk.Remove(temp, f.cleanUp);
      return Err(IoError);
    }
    return Ok(());
  }

  // Crash safety.

  /** Both copies are the same in two states. */
  ghost predicate SameCopies(a: Files, b: Files, path: Text) {
    SameAt(a, b, path) && SameAt(a, b, BackupPath(path))
  }

  ghost predicate SameAt(a: Files, b: Files, path: Text) {
    (path in a <==> path in b) && (path in a ==> a[path] == b[path])
  }

  lemma LoadSame(a: Files, b: Files, path: Text, profile: Text, now: u64)
    requires SameCopies(a, b, path)
    ensures Loaded(a, path, profile, now) == Loaded(b, path, profile, now)
  {
    hide RestoredFrom, ValidProfile, BackupPath;
  }

  /** One save: the disk before it, what is being saved, and when a later load happens. */
  datatype Attempt = Attempt(before: Files, path: Text, leases: seq<Lease>, profile: Text, now: u64, later: u64, faults: Faults)
  {
    ghost predicate Fair() {
      now <= later && DistinctIds(leases) && Loaded(before, path, profile, now).Ok?
    }

    /** What a load at the later time may find after a crash: the ledger stored before the save, as it loads at
        that time or as it loaded when the save began less what has expired; or the durable part of the ledger
        being saved. */
    ghost predicate OldOrNew(r: RestoreResult)
      requires Fair()
    {
      || (r.Ok? && r == Loaded(before, path, profile, later))
      || (r.Ok? && r.value.leases == OldLeft())
      || (r.Ok? && r.value.leases == NewLeft())
    }

    /** What is left, at the later time, of the ledger that was stored when the save began, and of the one being saved. */
    ghost function OldLeft(): seq<Lease>
      requires Fair()
    {
      Unexpired(Loaded(before, path, profile, now).value.leases, later)
    }

    ghost function NewLeft(): seq<Lease> {
      Unexpired(Durable(leases, profile, now), later)
    }

    /** The backup restores to the old ledger or to the new one; where there is no backup, one of them is empty by then. */
    ghost predicate BackupStandsIn()
      requires Fair()
    {
      if BackupPath(path) in before then
        var spare := LoadedCopy(before, BackupPath(path), profile, later);
        spare.Ok? && (spare.value.leases == OldLeft() || spare.value.leases == NewLeft() || spare == Loaded(before, path, profile, later))
      else
        OldLeft() == [] || NewLeft() == [] || Loaded(before, path, profile, later) == Ok(Restored([], 0))
    }

    /** Which is to say that without its primary the disk would still load as one of them. */
    lemma SpareLoads()
      requires Fair()
      ensures BackupStandsIn() <==> OldOrNew(Loaded(before - {path}, path, profile, later))
    {
      hide RestoredFrom, Unexpired, Durable, BackupPath, ValidProfile;
      PathsDiffer(path);
    }

    /** Reading the primary back fails although it is there, so that it is taken for damaged and removed,
        and the backup does not stand in for it. */
    ghost predicate DropsPrimary()
      requires Fair()
    {
      faults.readPrimary && !faults.probePrimary && !faults.removePrimary && path in before && !BackupStandsIn()
    }

    /** And the save gets that far. */
    ghost predicate LosesPrimary()
      requires Fair()
    {
      && Encoded(leases, profile, now).Ok? && TempComplete(Encoded(leases, profile, now).value, faults)
      && DropsPrimary()
    }

    ghost predicate Safe(files: Files)
      requires Fair()
    {
      OldOrNew(Loaded(files, path, profile, later))
    }

    /** Every state recorded after the first n, and the current one, is safe. */
    ghost predicate SafeSince(j: Journal, n: nat)
      requires Fair()
    {
      && n <= |j.states| && Safe(j.files)
      && forall i | n <= i < |j.states| :: Safe(j.states[i])
    }

    ghost predicate PrimaryWasValid() {
      PrimaryValid(before, path, profile, now, faults)
    }

    /** The old primary, in its place or as the backup. */
    ghost predicate HoldsOldPrimary(files: Files) {
      && path in before
      && if path in files then files[path] == before[path]
         else BackupPath(path) in files && files[BackupPath(path)] == before[path]
    }

    lemma RecordedSafe(j: Journal, n: nat, files: Files)
      requires Fair() && SafeSince(j, n) && Safe(files)
      ensures SafeSince(Recorded(j, files), n)
    {
    }

    lemma SameIsSafe(files: Files)
      requires Fair() && SameCopies(files, before, path)
      ensures Safe(files)
    {
      hide RestoredFrom, Unexpired, Durable;
      LoadSame(files, before, path, profile, later);
      OldStillLoads();
    }

    /** What loads now still loads later. */
    lemma OldStillLoads()
      requires Fair()
      ensures Loaded(before, path, profile, later).Ok?
    {
      hide RestoredFrom, BackupPath;
      if path in before && LoadedCopy(before, path, profile, now).Ok? {
        RestoreLater(before[path], profile, now, later);
      }
      if BackupPath(path) in before && LoadedCopy(before, BackupPath(path), profile, now).Ok? {
        RestoreLater(before[BackupPath(path)], profile, now, later);
      }
    }

    lemma OldPrimaryIsSafe(files: Files)
      requires Fair() && PrimaryWasValid() && HoldsOldPrimary(files)
      ensures Safe(files)
    {
      hide RestoredFrom, Unexpired, Durable, BackupPath;
      RestoreLater(before[path], profile, now, later);
      OldStillLoads();
    }

    /** The primary was removed because it was missing, damaged or unreadable. */
    lemma OldBackupIsSafe(files: Files)
      requires Fair() && !PrimaryWasValid() && !faults.probePrimary
      requires path !in files && SameAt(files, before, BackupPath(path))
      requires path in before ==> !faults.removePrimary && !DropsPrimary()
      ensures Safe(files)
    {
      hide RestoredFrom, Unexpired, Durable, BackupPath;
      if path !in before {
        SameIsSafe(files);
      } else {
        PathsDiffer(path);
        SpareLoads();
        LoadSame(files, before - {path}, path, profile, later);
        if !faults.readPrimary {
          RestoreLater(before[BackupPath(path)], profile, now, later);
        }
      }
    }

    lemma NewIsSafe(files: Files)
      requires Fair() && Encoded(leases, profile, now).Ok?
      requires path in files && files[path] == Encoded(leases, profile, now).value
      ensures Safe(files)
    {
      hide RestoredFrom, Unexpired, Durable, BackupPath, Encoded, Loaded;
      NewLoads(files, path, leases, profile, now, later);
    }

    lemma {:induction false} WrittenSafe(j: Journal, n: nat, data: seq<byte>, k: nat)
      requires Fair() && SafeSince(j, n) && SameCopies(j.files, before, path) && k <= |data|
      ensures SafeSince(Written(j, TempPath(path), data, k), n)
      ensures SameCopies(Written(j, TempPath(path), data, k).files, before, path)
      ensures Written(j, TempPath(path), data, k).files == j.files[TempPath(path) := data[..k]]
    {
      hide Safe, Fair, TempPath, BackupPath;
      PathsDiffer(path);
      if k == 0 {
        SameIsSafe(j.files[TempPath(path) := []]);
        assert data[..0] == [];
      } else {
        WrittenSafe(j, n, data, k - 1);
        var w := Written(j, TempPath(path), data, k - 1);
        var files := w.files[TempPath(path) := data[..k]];
        SameIsSafe(files);
        RecordedSafe(w, n, files);
      }
    }

    lemma StagedSafe(j: Journal, data: seq<byte>)
      requires Fair() && j.files == before
      ensures var s := Staged(j, path, data, faults);
              && SafeSince(s, |j.states|) && SameCopies(s.files, before, path)
              && (TempComplete(data, faults) ==> TempPath(path) in s.files && s.files[TempPath(path)] == data)
    {
      hide Safe, Fair, TempPath, BackupPath;
      PathsDiffer(path);
      SameIsSafe(before);
      var cleared := Removed(j, TempPath(path), faults.removeTemp);
      SameIsSafe(cleared.files);
      if !faults.openTemp {
        WrittenSafe(cleared, |j.states|, data, Min(faults.bytesWritten, |data|));
        assert data[..|data|] == data;
      }
    }

    /** What the save leaves in place of the primary. */
    ghost predicate AsideFiles(files: Files, ok: bool) {
      if PrimaryWasValid() then HoldsOldPrimary(files) && (ok ==> path !in files)
      else if ok && !faults.probePrimary then
        path !in files && SameAt(files, before, BackupPath(path)) && (path in before ==> !faults.removePrimary)
      else SameCopies(files, before, path)
    }

    lemma AsideFilesSafe(files: Files, ok: bool)
      requires Fair() && AsideFiles(files, ok) && !DropsPrimary()
      ensures Safe(files)
    {
      hide Safe, Fair, BackupPath, PrimaryValid, BackupStandsIn;
      if PrimaryWasValid() {
        OldPrimaryIsSafe(files);
      } else if ok && !faults.probePrimary {
        OldBackupIsSafe(files);
      } else {
        SameIsSafe(files);
      }
    }

    lemma PrimaryValidSame(files: Files)
      requires SameCopies(files, before, path)
      ensures PrimaryValid(files, path, profile, now, faults) == PrimaryWasValid()
    {
      hide RestoredFrom;
    }

    lemma SetAsideSafe(j: Journal, n: nat)
      requires Fair() && SafeSince(j, n) && SameCopies(j.files, before, path) && !DropsPrimary()
      ensures var a := SetAside(j, path, profile, now, faults);
              SafeSince(a.0, n) && AsideFiles(a.0.files, a.1)
              && SameAt(a.0.files, j.files, TempPath(path))
    {
      hide Safe, Fair, TempPath, BackupPath, PrimaryValid;
      PathsDiffer(path);
      PrimaryValidSame(j.files);
      var a := SetAside(j, path, profile, now, faults);
      if PrimaryWasValid() {
        WasValidExists();
        var cleared := Removed(j, BackupPath(path), faults.removeBackup);
        OldPrimaryIsSafe(cleared.files);
      }
      AsideFilesSafe(a.0.files, a.1);
    }

    lemma WasValidExists()
      requires PrimaryWasValid()
      ensures path in before
    {
    }

    lemma SafeUnlessLost(j: Journal)
      requires Fair() && j.files == before && !LosesPrimary()
      ensures SafeSince(AfterSave(j, path, Encoded(leases, profile, now), profile, now, faults).0, |j.states|)
    {
      hide Safe, Fair, TempPath, BackupPath, PrimaryValid, SetAside, Staged, Encoded, AsideFiles, TempComplete, DropsPrimary;
      SameIsSafe(before);
      var encoded := Encoded(leases, profile, now);
      if encoded.Ok? {
        var data := encoded.value;
        PathsDiffer(path);
        StagedSafe(j, data);
        var staged := Staged(j, path, data, faults);
        if !TempComplete(data, faults) {
          CleanUpSafe(staged, |j.states|, false);
        } else {
          SetAsideSafe(staged, |j.states|);
          PrimaryValidSame(staged.files);
          var aside := SetAside(staged, path, profile, now, faults);
          if !aside.1 {
            CleanUpSafe(aside.0, |j.states|, false);
          } else if CanRename(aside.0, TempPath(path), faults.publish) {
            NewIsSafe(Renamed(aside.0, TempPath(path), path, faults.publish).files);
          } else {
            UndoSafe(aside.0, |j.states|);
          }
        }
      }
    }

    /** Once the primary is dropped the disk holds at most the backup, and a crash there loads neither ledger. */
    lemma UnsafeWhenLost(j: Journal)
      requires Fair() && j.files == before && LosesPrimary()
      ensures !SafeSince(AfterSave(j, path, Encoded(leases, profile, now), profile, now, faults).0, |j.states|)
    {
      hide TempPath, BackupPath, RestoredFrom, TempComplete, Encoded, Unexpired, Durable, Loaded, Fair, OldOrNew, Written;
      var data := Encoded(leases, profile, now).value;
      PathsDiffer(path);
      StagedSafe(j, data);
      var staged := Staged(j, path, data, faults);
      var dropped := staged.files - {path};
      SpareLoads();
      LoadSame(dropped, before - {path}, path, profile, later);
      assert !Safe(dropped);
      var run := SaveRun(j, path, data, profile, now, faults).0;
      assert SetAside(staged, path, profile, now, faults).0 == Recorded(staged, dropped);
      assert run.states[|staged.states|] == dropped;
    }

    /** Crash safety: every state the disk passes through during a save, whatever else goes wrong in it, loads as the
        old ledger or the new one, unless the one fault happens that makes the save drop a primary it could not read
        and that no backup stands in for. */
    lemma SaveIsCrashSafe(j: Journal)
      requires Fair() && j.files == before
      ensures SafeSince(AfterSave(j, path, Encoded(leases, profile, now), profile, now, faults).0, |j.states|) <==> !LosesPrimary()
    {
      hide *;
      if LosesPrimary() {
        UnsafeWhenLost(j);
      } else {
        SafeUnlessLost(j);
      }
    }

    lemma CleanUpSafe(j: Journal, n: nat, ok: bool)
      requires Fair() && SafeSince(j, n)
      requires SameCopies(j.files, before, path) || (AsideFiles(j.files, ok) && !DropsPrimary())
      ensures SafeSince(Removed(j, TempPath(path), faults.cleanUp), n)
    {
      hide Safe, Fair, TempPath, BackupPath, PrimaryValid;
      PathsDiffer(path);
      var files := Removed(j, TempPath(path), faults.cleanUp).files;
      if SameCopies(j.files, before, path) {
        SameIsSafe(files);
      } else {
        AsideFilesSafe(files, ok);
      }
    }

    lemma UndoSafe(j: Journal, n: nat)
      requires Fair() && SafeSince(j, n) && AsideFiles(j.files, true) && !DropsPrimary()
      ensures var undone := if PrimaryWasValid() then Renamed(j, BackupPath(path), path, faults.undo) else j;
              SafeSince(Removed(undone, TempPath(path), faults.cleanUp), n)
    {
      hide Safe, Fair, TempPath, BackupPath, PrimaryValid;
      PathsDiffer(path);
      if PrimaryWasValid() && !faults.undo {
        var undone := Renamed(j, BackupPath(path), path, faults.undo);
        OldPrimaryIsSafe(undone.files);
        OldPrimaryIsSafe(Removed(undone, TempPath(path), faults.cleanUp).files);
      } else {
        CleanUpSafe(j, n, true);
      }
    }
  }

  lemma SnapshotFits(ls: seq<Lease>, profile: Text, now: u64)
    requires Encoded(ls, profile, now).Ok?
    ensures |Encoded(ls, profile, now).value| <= MAX_SNAPSHOT_BYTES && ValidProfile(profile)
  {
    hide Collect, ValidProfile, PayloadBytes, WebsitesStorable;
  }

  lemma NewLoads(files: Files, path: Text, leases: seq<Lease>, profile: Text, now: u64, later: u64)
    requires now <= later && DistinctIds(leases) && Encoded(leases, profile, now).Ok?
    requires path in files && files[path] == Encoded(leases, profile, now).value
    ensures Loaded(files, path, profile, later) == Ok(Survivors(Durable(leases, profile, now), later, 0))
  {
    SnapshotRoundTrip(leases, profile, now, later);
    SnapshotFits(leases, profile, now);
    hide RestoredFrom, Unexpired, Durable, BackupPath, Encoded;
  }

  lemma {:induction false} WrittenFiles(j: Journal, path: Text, data: seq<byte>, n: nat)
    requires n <= |data|
    ensures Written(j, path, data, n).files == j.files[path := data[..n]]
  {
    if n == 0 {
      assert data[..0] == [];
    } else {
      WrittenFiles(j, path, data, n - 1);
    }
  }

  /** A complete staged write leaves both copies alone and the whole snapshot in the temporary file. */
  lemma StagedFiles(j: Journal, path: Text, data: seq<byte>, f: Faults)
    requires TempComplete(data, f)
    ensures var s := Staged(j, path, data, f).files;
            SameCopies(s, j.files, path) && TempPath(path) in s && s[TempPath(path)] == data
  {
    PathsDiffer(path);
    hide TempPath, BackupPath;
    var cleared := Removed(j, TempPath(path), f.removeTemp);
    WrittenFiles(cleared, TempPath(path), data, |data|);
    assert data[..|data|] == data;
  }

  lemma SetAsideKeepsTemp(j: Journal, path: Text, profile: Text, now: u64, f: Faults)
    ensures SameAt(SetAside(j, path, profile, now, f).0.files, j.files, TempPath(path))
  {
    PathsDiffer(path);
    hide TempPath, BackupPath, RestoredFrom;
  }

  /** A save that reports success is found by every later load. */
  lemma SavedIsLoaded(j: Journal, path: Text, leases: seq<Lease>, profile: Text, now: u64, later: u64, f: Faults)
    requires now <= later && DistinctIds(leases)
    requires AfterSave(j, path, Encoded(leases, profile, now), profile, now, f).1.Ok?
    ensures var after := AfterSave(j, path, Encoded(leases, profile, now), profile, now, f).0;
            Loaded(after.files, path, profile, later) == Ok(Survivors(Durable(leases, profile, now), later, 0))
  {
    hide Encoded, Staged, SetAside, TempPath, Loaded, Survivors, Durable, PrimaryValid;
    PathsDiffer(path);
    var data := Encoded(leases, profile, now).value;
    StagedFiles(j, path, data, f);
    var staged := Staged(j, path, data, f);
    SetAsideKeepsTemp(staged, path, profile, now, f);
    var after := AfterSave(j, path, Encoded(leases, profile, now), profile, now, f).0;
    assert path in after.files && after.files[path] == data;
    NewLoads(after.files, path, leases, profile, now, later);
  }

  /** The one gap: when the only copy is the primary and reading it back fails, the save removes it before the
      new snapshot is in place, and a crash in between loads as an empty ledger. */
  lemma UnreadablePrimaryIsLost(before: Files, path: Text, data: seq<byte>, profile: Text, now: u64, later: u64, f: Faults)
    requires path in before && BackupPath(path) !in before && ValidProfile(profile)
    requires f.readPrimary && !f.probePrimary && !f.removePrimary && TempComplete(data, f)
    ensures exists i | 0 <= i < |SaveRun(Journal(before, []), path, data, profile, now, f).0.states| ::
              Loaded(SaveRun(Journal(before, []), path, data, profile, now, f).0.states[i], path, profile, later) == Ok(Restored([], 0))
  {
    hide TempPath, BackupPath, Staged, ValidProfile, RestoredFrom, TempComplete;
    PathsDiffer(path);
    var j := Journal(before, []);
    StagedFiles(j, path, data, f);
    var staged := Staged(j, path, data, f);
    var aside := SetAside(staged, path, profile, now, f).0;
    var run := SaveRun(j, path, data, profile, now, f).0;
    assert aside == Recorded(staged, staged.files - {path});
    assert run.states[|staged.states|] == staged.files - {path};
  }

  /** And it does happen: a profile with one permanent lease, and a save of that same ledger. */
  lemma PrimaryCanBeLost(path: Text)
    ensures exists a: Attempt :: a.path == path && a.Fair() && a.LosesPrimary() && a.before.Keys == {path} && a.leases == [Permanent()]
  {
    hide Encoded, RestoredFrom, ValidProfile, BackupPath, TempComplete, Durable, Unexpired, Permanent;
    var profile, ls := Ascii("p"), [Permanent()];
    PermanentIsStored();
    var data := Encoded(ls, profile, 0).value;
    var faults := Faults(false, false, |data|, false, false, true, false, false, false, false, false, false);
    var a := Attempt(map[path := data], path, ls, profile, 0, 0, faults);
    PathsDiffer(path);
    NewLoads(a.before, path, ls, profile, 0, 0);
    AllWritten(data, faults);
    assert a.OldLeft() == ls && a.NewLeft() == ls;
    assert a.Fair() && a.LosesPrimary();
  }

  lemma AllWritten(data: seq<byte>, f: Faults)
    requires !f.openTemp && f.bytesWritten == |data| && !f.flushTemp
    ensures TempComplete(data, f)
  {
  }

  /** A lease that never ends by itself. */
  function Permanent(): Lease {
    Lease(1, Grant(ExtensionStorage, Ascii("p"), Scope.Extension, Always, [], false, true), 0, 0, [], [], false, false)
  }

  lemma PermanentIsStorable()
    ensures Storable(Permanent(), Ascii("p")) && DurableCandidate(Permanent(), Ascii("p"), 0) && !Expired(Permanent(), 0)
    ensures Permanent().grant.lifetime == Always && Permanent().grant.websites == []
    ensures ValidProfile(Ascii("p"))
  {
  }

  lemma PermanentSize(l: Lease)
    requires l.grant.websites == []
    ensures |PayloadBytes([l], Ascii("p"), 0)| == 53
  {
    hide LE, LeaseHead;
    var ls, profile := [l], Ascii("p");
    assert ls[..0] == [] && ls[..|ls| - 1] == [];
    assert LeasesBytes(ls) == LeasesBytes([]) + LeaseBytes(ls[0]);
    assert |LeasesBytes(ls)| == 30;
    assert |Magic()| == 4 && |StringU16(profile)| == 3;
    assert |HeaderBytes(profile, 0, 1)| == 23;
  }

  lemma OneKept(l: Lease, profile: Text, now: u64)
    requires DurableCandidate(l, profile, now) && !Expired(l, now)
    ensures Durable([l], profile, now) == [l] && Unexpired([l], now) == [l] && DistinctIds([l])
  {
    hide DurableCandidate, Expired;
    var ls := [l];
    assert ls[..|ls| - 1] == [];
  }

  lemma PermanentIsStored()
    ensures var ls := [Permanent()];
      && DistinctIds(ls) && Encoded(ls, Ascii("p"), 0).Ok? && Durable(ls, Ascii("p"), 0) == ls && Unexpired(ls, 0) == ls
  {
    hide Encoded, Storable, PayloadBytes, Permanent, ValidProfile, DurableCandidate, Expired, Durable, Unexpired, DistinctIds;
    var ls, profile := [Permanent()], Ascii("p");
    PermanentIsStorable();
    PermanentSize(Permanent());
    OneKept(Permanent(), profile, 0);
    EncodingAccepted(ls, profile, 0);
  }

  // What a save leaves alone.

  /** All but the ledger's file, its .tmp and its .bak. */
  ghost predicate OthersStay(a: Files, b: Files, path: Text) {
    forall p | p != path && p != path + Ascii(".tmp") && p != path + Ascii(".bak") :: (p in a <==> p in b) && (p in a ==> a[p] == b[p])
  }

  ghost predicate StaysSince(a: Files, j: Journal, n: nat, path: Text) {
    && n <= |j.states| && OthersStay(a, j.files, path)
    && forall i | n <= i < |j.states| :: OthersStay(a, j.states[i], path)
  }

  predicate OwnPath(p: Text, path: Text) {
    p == path || p == TempPath(path) || p == BackupPath(path)
  }

  lemma OneStep(a: Files, j: Journal, n: nat, path: Text, files: Files)
    requires StaysSince(a, j, n, path) && OthersStay(a, files, path)
    ensures StaysSince(a, Recorded(j, files), n, path)
  {
    hide OthersStay;
  }

  lemma RemovedStays(a: Files, j: Journal, n: nat, path: Text, p: Text, fails: bool)
    requires StaysSince(a, j, n, path) && OwnPath(p, path)
    ensures StaysSince(a, Removed(j, p, fails), n, path)
  {
    OneStep(a, j, n, path, j.files - {p});
  }

  lemma RenamedStays(a: Files, j: Journal, n: nat, path: Text, from: Text, to: Text, fails: bool)
    requires StaysSince(a, j, n, path) && OwnPath(from, path) && OwnPath(to, path)
    ensures StaysSince(a, Renamed(j, from, to, fails), n, path)
  {
    if CanRename(j, from, fails) {
      OneStep(a, j, n, path, (j.files - {from})[to := j.files[from]]);
    }
  }

  lemma {:induction false} WrittenStays(a: Files, j: Journal, n: nat, path: Text, data: seq<byte>, k: nat)
    requires StaysSince(a, j, n, path) && k <= |data|
    ensures StaysSince(a, Written(j, TempPath(path), data, k), n, path)
  {
    if k == 0 {
      OneStep(a, j, n, path, j.files[TempPath(path) := []]);
    } else {
      WrittenStays(a, j, n, path, data, k - 1);
      var before := Written(j, TempPath(path), data, k - 1);
      OneStep(a, before, n, path, before.files[TempPath(path) := data[..k]]);
    }
  }

  lemma StagedStays(j: Journal, path: Text, data: seq<byte>, f: Faults)
    ensures StaysSince(j.files, Staged(j, path, data, f), |j.states|, path)
  {
    hide Written, Removed, TempPath;
    RemovedStays(j.files, j, |j.states|, path, TempPath(path), f.removeTemp);
    if !f.openTemp {
      WrittenStays(j.files, Removed(j, TempPath(path), f.removeTemp), |j.states|, path, data, Min(f.bytesWritten, |data|));
    }
  }

  lemma AsideStays(a: Files, j: Journal, n: nat, path: Text, profile: Text, now: u64, f: Faults)
    requires StaysSince(a, j, n, path)
    ensures StaysSince(a, SetAside(j, path, profile, now, f).0, n, path)
  {
    hide Removed, Renamed, StaysSince, PrimaryValid;
    RemovedStays(a, j, n, path, BackupPath(path), f.removeBackup);
    RenamedStays(a, Removed(j, BackupPath(path), f.removeBackup), n, path, path, BackupPath(path), f.moveToBackup);
    RemovedStays(a, j, n, path, path, f.removePrimary);
  }

  /** Whatever goes wrong, in no state of a save is another file touched than the ledger's own, and the two beside it that
      end in .tmp and .bak. */
  lemma SaveTouchesNoOther(j: Journal, path: Text, encoded: SnapshotResult, profile: Text, now: u64, f: Faults)
    ensures StaysSince(j.files, AfterSave(j, path, encoded, profile, now, f).0, |j.states|, path)
  {
    hide Staged, SetAside, Removed, Renamed, PrimaryValid, TempComplete, TempPath, BackupPath, OthersStay;
    if encoded.Err? {
      Unchanged(j.files, path);
    } else {
      var a, n, data := j.files, |j.states|, encoded.value;
      var staged := Staged(j, path, data, f);
      var aside := SetAside(staged, path, profile, now, f).0;
      StagedStays(j, path, data, f);
      AsideStays(a, staged, n, path, profile, now, f);
      RemovedStays(a, staged, n, path, TempPath(path), f.cleanUp);
      RemovedStays(a, aside, n, path, TempPath(path), f.cleanUp);
      RenamedStays(a, aside, n, path, TempPath(path), path, f.publish);
      var undone := if PrimaryValid(staged.files, path, profile, now, f) then Renamed(aside, BackupPath(path), path, f.undo) else aside;
      RenamedStays(a, aside, n, path, BackupPath(path), path, f.undo);
      RemovedStays(a, undone, n, path, TempPath(path), f.cleanUp);
    }
  }

  lemma Unchanged(files: Files, path: Text)
    ensures OthersStay(files, files, path)
  {
  }
}
