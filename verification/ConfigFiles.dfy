/** Proxy config files as one transaction: all of a set of changes reach the disk
    and the proxy, or none does. And the manifest that the health check compares
    with the disk. */
module ConfigFiles {
  import opened Rollout

  /** A file `service` + `ext` in a directory. */
  datatype File = File(dir: string, service: string, ext: string)

  const GENERATED := "# Generated by docker-release"

  predicate Managed(content: string) {
    GENERATED <= content
  }

  type Files = map<File, string>

  /** What to write to each file, or nothing to remove it. */
  type Changes = map<File, Option<string>>

  predicate Foreign(files: Files, f: File) {
    f in files && !Managed(files[f])
  }

  /** Some change would overwrite a file that is not ours. */
  predicate Blocked(files: Files, changes: Changes) {
    exists f :: f in changes && changes[f].Some? && Foreign(files, f)
  }

  /** The files a change set is about; a removal passes over files not ours. */
  function Touched(files: Files, changes: Changes): set<File> {
    set f | f in changes && !Foreign(files, f)
  }

  /** `changes` laid over `files`, on the files in `on`. */
  function Laid(files: Files, changes: Changes, on: set<File>): Files {
    map f | f in files.Keys + changes.Keys && (if f in on && f in changes then changes[f].Some? else f in files)
      :: if f in on && f in changes then changes[f].value else files[f]
  }

  function Removed(files: Files, changes: Changes): set<File> {
    set f | f in Touched(files, changes) && changes[f].None?
  }

  function Written(files: Files, changes: Changes): set<File> {
    set f | f in Touched(files, changes) && changes[f].Some?
  }

  /** The manifest after a transaction, when the updates for `missed` are lost. */
  function Noted(manifest: set<File>, removed: set<File>, written: set<File>, missed: set<File>): set<File> {
    manifest - (removed - missed) + (written - missed)
  }

  /** Counts one more failure. */
  function Fault(ok: bool): nat {
    if ok then 0 else 1
  }

  class Disk {
    var files: Files
    var manifest: set<File>
    var scanned: bool

    /** The files as the proxy last loaded them. */
    var loaded: Files

    /** How many reads, writes and reloads have failed, and the files whose manifest
        update was lost since the last transaction began. */
    ghost var faults: nat
    ghost var lost: set<File>

    method ReadFile(f: File) returns (ok: bool, content: Option<string>)
      modifies this`faults
      ensures faults == old(faults) + Fault(ok)
      ensures content == if f in files then Some(files[f]) else None
    {
      ok := *;
      content := if f in files then Some(files[f]) else None;
      faults := faults + Fault(ok);
    }

    /** Writes or removes one file; a failure leaves it as it was. */
    method WriteFile(f: File, content: Option<string>) returns (ok: bool)
      modifies this`files, this`faults
      ensures faults == old(faults) + Fault(ok)
      ensures !ok ==> files == old(files)
      ensures ok && content.Some? ==> files == old(files)[f := content.value]
      ensures ok && content.None? ==> files == old(files) - {f}
    {
      ok := *;
      if ok {
        files := if content.Some? then files[f := content.value] else files - {f};
      }
      faults := faults + Fault(ok);
    }

    /** Makes the proxy load the files; on failure it keeps what it has. */
    method Reload() returns (ok: bool)
      modifies this`loaded, this`faults
      ensures faults == old(faults) + Fault(ok)
      ensures loaded == if ok then files else old(loaded)
    {
      ok := *;
      if ok {
        loaded := files;
      }
      faults := faults + Fault(ok);
    }

    /** Adds a file to the manifest or takes it out. Nobody learns of a failure. */
    method UpdateManifest(f: File, present: bool)
      modifies this`manifest, this`lost
      ensures || (lost == old(lost) && manifest == if present then old(manifest) + {f} else old(manifest) - {f})
              || (lost == old(lost) + {f} && manifest == old(manifest))
    {
      var works: bool := *;
      if works {
        manifest := if present then manifest + {f} else manifest - {f};
      } else {
        lost := lost + {f};
      }
    }

    /** Whether the first scan is over and every file on the manifest is on the disk; a
        manifest that cannot be read counts against it. */
    method IsReady() returns (r: bool)
      modifies this`faults
      ensures r <==> scanned && faults == old(faults) && forall f :: f in manifest ==> f in files
    {
      if !scanned {
        return false;
      }
      var readable: bool := *;
      faults := faults + Fault(readable);
      if !readable {
        return false;
      }
      var todo := manifest;
      while todo != {}
        invariant todo <= manifest && forall f :: f in manifest && f !in todo ==> f in files
        invariant faults == old(faults)
        decreases |todo|
      {
        var f :| f in todo;
        todo := todo - {f};
        if f !in files {
          return false;
        }
      }
      return true;
    }

    /** Puts files back; goes on when one cannot be. */
    method Restore(previous: map<File, Option<string>>)
      modifies this`files, this`faults
      ensures old(faults) <= faults
      ensures forall f :: f !in previous ==>
        (f in files <==> f in old(files)) && (f in files ==> files[f] == old(files)[f])
      ensures faults == old(faults) ==> forall f :: f in previous ==>
        if previous[f].Some? then f in files && files[f] == previous[f].value else f !in files
    {
      var todo := previous.Keys;
      while todo != {}
        invariant todo <= previous.Keys && old(faults) <= faults
        invariant forall f :: f !in previous ==>
          (f in files <==> f in old(files)) && (f in files ==> files[f] == old(files)[f])
        invariant faults == old(faults) ==> forall f :: f in previous && f !in todo ==>
          if previous[f].Some? then f in files && files[f] == previous[f].value else f !in files
        decreases |todo|
      {
        var f :| f in todo;
        var _ := WriteFile(f, previous[f]);
        todo := todo - {f};
      }
    }

    /** Reads what the changes would replace. Fails when a file cannot be read, or
        is not ours and would be overwritten. */
    method ReadPrevious(changes: Changes) returns (ok: bool, previous: map<File, Option<string>>)
      modifies this`faults
      ensures ok ==> faults == old(faults) && !Blocked(files, changes) && previous.Keys == Touched(files, changes)
      ensures ok ==> forall f :: f in previous ==> previous[f] == if f in files then Some(files[f]) else None
      ensures !ok ==> (faults > old(faults) || Blocked(files, changes)) && faults <= old(faults) + 1
    {
      ok, previous := true, map[];
      var todo := changes.Keys;
      while todo != {}
        invariant ok && todo <= changes.Keys && faults == old(faults)
        invariant forall f :: f in changes && f !in todo && changes[f].Some? ==> !Foreign(files, f)
        invariant forall f :: f in previous <==> f in changes && f !in todo && !Foreign(files, f)
        invariant forall f :: f in previous ==> previous[f] == if f in files then Some(files[f]) else None
        decreases |todo|
      {
        var f :| f in todo;
        todo := todo - {f};
        var readable, before := ReadFile(f);
        if !readable {
          return false, previous;
        }
        if before.Some? && !Managed(before.value) {
          if changes[f].None? {
            continue;
          }
          return false, previous;
        }
        previous := previous[f := before];
      }
    }

    /** Applies all changes and has the proxy load them, or puts everything back. The
        order of the files, and which reads, writes and reloads fail, are up to the
        environment. It fails only for a failure of those or a file that is not ours,
        and something stays behind only when the way back meets a second failure. */
    method Apply(changes: Changes) returns (ok: bool)
      modifies this`files, this`manifest, this`loaded, this`faults, this`lost
      ensures ok ==> !Blocked(old(files), changes) && loaded == files
      ensures ok ==> forall f :: f in changes && changes[f].Some? && f in old(files) ==>
        "# Generated by docker-release" <= old(files)[f]
      ensures ok ==> files == Laid(old(files), changes, Touched(old(files), changes))
      ensures ok ==> forall f :: f in changes && !Foreign(old(files), f) ==>
        if changes[f].Some? then f in files && files[f] == changes[f].value else f !in files
      ensures ok ==> manifest == Noted(old(manifest), Removed(old(files), changes), Written(old(files), changes), lost)
      ensures ok ==> forall f :: f in changes && !Foreign(old(files), f) && f !in lost ==>
        (f in manifest <==> changes[f].Some?)
      ensures forall f :: !(f in changes && !Foreign(old(files), f)) ==>
        && (f in files <==> f in old(files)) && (f in files ==> files[f] == old(files)[f])
        && (f in manifest <==> f in old(manifest))
      ensures !ok ==> manifest == old(manifest) && loaded == old(loaded)
      ensures !ok ==> faults > old(faults) || Blocked(old(files), changes)
      ensures !ok && faults <= old(faults) + 1 ==> files == old(files)
    {
      lost := {};
      ghost var disk := files;
      var previous;
      ok, previous := ReadPrevious(changes);
      if !ok {
        return;
      }
      ok := WriteAll(changes, previous, disk);
      if !ok {
        ghost var before := faults;
        Restore(previous);
        Same(files, disk, previous, faults == before);
        return;
      }
      ok := Reload();
      if !ok {
        ghost var before := faults;
        Restore(previous);
        Same(files, disk, previous, faults == before);
        return;
      }
      NoteAll(changes, previous, disk);
    }

    method WriteAll(changes: Changes, previous: map<File, Option<string>>, ghost disk: Files) returns (ok: bool)
      requires files == disk && previous.Keys == Touched(disk, changes)
      modifies this`files, this`faults
      ensures faults == old(faults) + Fault(ok)
      ensures ok ==> files == Laid(disk, changes, previous.Keys)
      ensures forall f :: f !in previous ==> (f in files <==> f in disk) && (f in files ==> files[f] == disk[f])
    {
      hide Laid, Touched;
      ok := true;
      var todo := previous.Keys;
      assert previous.Keys - todo == {};
      LaidNothing(disk, changes);
      while todo != {}
        invariant ok && todo <= previous.Keys && faults == old(faults)
        invariant files == Laid(disk, changes, previous.Keys - todo)
        decreases |todo|
      {
        var f :| f in todo;
        assert f in changes by { TouchedOnly(disk, changes); }
        ghost var done := previous.Keys - todo;
        todo := todo - {f};
        ok := WriteFile(f, changes[f]);
        if !ok {
          LaidElsewhere(disk, changes, done);
          return;
        }
        LaidStep(disk, changes, done, f);
        assert previous.Keys - todo == done + {f};
      }
      assert previous.Keys - todo == previous.Keys;
      LaidElsewhere(disk, changes, previous.Keys);
    }

    method NoteAll(changes: Changes, previous: map<File, Option<string>>, ghost disk: Files)
      requires previous.Keys == Touched(disk, changes) && lost == {}
      modifies this`manifest, this`lost
      ensures manifest == Noted(old(manifest), Removed(disk, changes), Written(disk, changes), lost)
    {
      var todo := previous.Keys;
      while todo != {}
        invariant todo <= previous.Keys && lost <= previous.Keys - todo
        invariant manifest == Noted(old(manifest), Removed(disk, changes) - todo, Written(disk, changes) - todo, lost)
        decreases |todo|
      {
        var f :| f in todo;
        todo := todo - {f};
        UpdateManifest(f, changes[f].Some?);
      }
    }
  }

  lemma TouchedOnly(files: Files, changes: Changes)
    ensures Touched(files, changes) <= changes.Keys
  {
  }

  lemma LaidNothing(files: Files, changes: Changes)
    ensures Laid(files, changes, {}) == files
  {
  }

  lemma LaidStep(files: Files, changes: Changes, on: set<File>, f: File)
    requires f in changes
    ensures Laid(files, changes, on + {f}) ==
      if changes[f].Some? then Laid(files, changes, on)[f := changes[f].value] else Laid(files, changes, on) - {f}
  {
  }

  lemma LaidElsewhere(files: Files, changes: Changes, on: set<File>)
    ensures forall f :: f !in on ==>
      (f in Laid(files, changes, on) <==> f in files) && (f in files ==> Laid(files, changes, on)[f] == files[f])
  {
  }

  lemma Same(files: Files, disk: Files, previous: map<File, Option<string>>, restored: bool)
    requires forall f :: f !in previous ==> (f in files <==> f in disk) && (f in files ==> files[f] == disk[f])
    requires forall f :: f in previous ==> previous[f] == if f in disk then Some(disk[f]) else None
    requires restored ==> forall f :: f in previous ==>
      if previous[f].Some? then f in files && files[f] == previous[f].value else f !in files
    ensures restored ==> files == disk
  {
    if restored {
      assert files.Keys == disk.Keys;
    }
  }

  // -------------------------------------------------------------- stale files

  /** The generated files, of the listed kinds, whose service is gone and may go. */
  function Stale(files: Files, dirs: map<string, set<string>>, active: set<string>, removable: set<string>): set<File> {
    set f | f in files && f.dir != "" && f.dir in dirs && f.ext in dirs[f.dir] && Managed(files[f])
            && f.service !in active && f.service in removable
  }

  method StaleConfigChanges(files: Files, dirs: map<string, set<string>>, active: set<string>, removable: set<string>)
    returns (changes: Changes)
    ensures changes.Keys == Stale(files, dirs, active, removable)
    ensures forall f :: f in changes ==> changes[f].None?
    ensures forall f :: f in changes <==>
      && f in files && "# Generated by docker-release" <= files[f]
      && f.dir != "" && f.dir in dirs && f.ext in dirs[f.dir]
      && f.service !in active && f.service in removable
  {
    changes := map[];
    var todo := files.Keys;
    while todo != {}
      invariant todo <= files.Keys
      invariant changes.Keys == Stale(files, dirs, active, removable) - todo
      invariant forall f :: f in changes ==> changes[f].None?
      decreases |todo|
    {
      var f :| f in todo;
      todo := todo - {f};
      if f.dir == "" || f.dir !in dirs || f.ext !in dirs[f.dir] || !Managed(files[f]) {
        continue;
      }
      if f.service in active || f.service !in removable {
        continue;
      }
      changes := changes[f := None];
    }
  }

  /** Cleaning up is never blocked, and takes away exactly the stale files. */
  lemma CleaningRemovesStaleOnly(files: Files, dirs: map<string, set<string>>, active: set<string>,
                                 removable: set<string>, changes: Changes)
    requires changes.Keys == Stale(files, dirs, active, removable) && forall f :: f in changes ==> changes[f].None?
    ensures !Blocked(files, changes)
    ensures Laid(files, changes, Touched(files, changes)) == files - Stale(files, dirs, active, removable)
  {
    assert Touched(files, changes) == Stale(files, dirs, active, removable);
  }

  // --------------------------------------------------------------- readiness

  /** After a transaction the manifest lists only files on the disk, exactly if no
      update was lost for a listed file that went away. */
  lemma ManifestStaysSound(files: Files, manifest: set<File>, changes: Changes, missed: set<File>)
    requires manifest <= files.Keys
    ensures Noted(manifest, Removed(files, changes), Written(files, changes), missed) <= Laid(files, changes,
      Touched(files, changes)).Keys
       <==> manifest * Removed(files, changes) * missed == {}
  {
    var after := Laid(files, changes, Touched(files, changes));
    var noted := Noted(manifest, Removed(files, changes), Written(files, changes), missed);
    if manifest * Removed(files, changes) * missed == {} {
      forall f | f in noted ensures f in after {
        if f in Removed(files, changes) {
          assert f in missed ==> f in manifest * Removed(files, changes) * missed;
        }
      }
    } else {
      var f :| f in manifest * Removed(files, changes) * missed;
      assert f in noted && f !in after;
    }
  }

  /** One transaction on the disk and the manifest: applied without a lost update,
      or undone. */
  datatype Snapshot = Snapshot(files: Files, manifest: set<File>)

  ghost predicate Transaction(before: Snapshot, after: Snapshot) {
    || after == before
    || exists changes: Changes ::
         && !Blocked(before.files, changes)
         && after.files == Laid(before.files, changes, Touched(before.files, changes))
         && after.manifest == Noted(before.manifest, Removed(before.files, changes), Written(before.files, changes), {})
  }

  /** Over any run of such transactions, cleaning up included, the manifest never
      lists a file that is not there: the controller's own work does not make it
      unhealthy. */
  lemma {:induction false} StaysReady(run: seq<Snapshot>)
    requires |run| > 0 && run[0].manifest <= run[0].files.Keys
    requires forall i :: 0 <= i < |run| - 1 ==> Transaction(run[i], run[i + 1])
    ensures forall i :: 0 <= i < |run| ==> run[i].manifest <= run[i].files.Keys
  {
    if |run| > 1 {
      StaysReady(run[..|run| - 1]);
      var before, after := run[|run| - 2], run[|run| - 1];
      assert run[..|run| - 1][|run| - 2] == before;
      assert Transaction(run[|run| - 2], run[|run| - 2 + 1]);
      if after != before {
        var changes: Changes :|
          && !Blocked(before.files, changes)
          && after.files == Laid(before.files, changes, Touched(before.files, changes))
          && after.manifest == Noted(before.manifest, Removed(before.files, changes), Written(before.files, changes),
            {});
        ManifestStaysSound(before.files, before.manifest, changes, {});
      }
    }
  }
}
