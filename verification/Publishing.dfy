/**
  Publishing one new owner-only file: write a temporary file, sync it, hard-link it to its
  final name, unlink the temporary name. Every call may fail, and the machine may stop
  between any two calls.
 */
module Publishing {
  import opened Texts

  type Name = Text
  type Inode = nat

  const OWNER_ONLY: nat := 0x180  // 0o600
  const SOCKET_MODE: nat := 0x1C0  // 0o700, what bind leaves under umask 0o077
  const RECORD_PREFIX: Name := U(".gh238-record-")
  const RECEIPT_PREFIX: Name := U(".gh229-receipt-")

  /** A name mkstemp may draw: the prefix and eight characters of its alphabet. */
  predicate IsTemporary(prefix: Name, n: Name) {
    && prefix <= n && |n| == |prefix| + 8
    && forall i :: |prefix| <= i < |n| ==> 'a' as int <= n[i] <= 'z' as int || IsDigit(n[i]) || n[i] == '_' as int
  }

  /** Content as processes see it and as it would survive a crash. */
  datatype File = File(content: Bytes, durable: Bytes, permissions: nat)

  /** One directory. `recent` holds every entry that existed since the directory was last
      synced: after a crash a name leads to one of its recent entries, or to nothing. */
  datatype Disk = Disk(names: map<Name, Inode>, files: map<Inode, File>, recent: set<(Name, Inode)>)

  /** What lstat and fstat report here; the caller is the owner of every file. */
  datatype Stat = Stat(inode: Inode, permissions: nat, links: nat)

  ghost predicate WellFormed(d: Disk) {
    && (forall n :: n in d.names ==> d.names[n] in d.files && (n, d.names[n]) in d.recent)
    && (forall e :: e in d.recent ==> e.1 in d.files)
  }

  function LinkNames(d: Disk, i: Inode): (s: set<Name>) {
    set n | n in d.names && d.names[n] == i
  }

  function StatOf(d: Disk, i: Inode): (s: Stat)
    requires i in d.files
  {
    Stat(i, d.files[i].permissions, |LinkNames(d, i)|)
  }

  /** The whole blob, in memory and on disk. */
  predicate Complete(f: File, blob: Bytes) {
    f.content == blob && f.durable == blob
  }

  /** Every earlier entry, a taken path included, leads where it led before, to a file that has not
      changed; a path that was free leads nowhere or to the complete blob, seen now or after a crash
      at this moment. */
  ghost predicate NeverPartial(d: Disk, before: Disk, path: Name, blob: Bytes) {
    && WellFormed(d)
    && (forall n :: n in before.names ==> n in d.names && d.names[n] == before.names[n])
    && (path in d.names && path !in before.names ==> Complete(d.files[d.names[path]], blob))
    && (forall i :: (path, i) in d.recent && (path, i) !in before.recent ==> Complete(d.files[i], blob))
    && (forall i :: i in before.files ==> i in d.files && d.files[i] == before.files[i])
  }

  /** Names other than the two the protocol uses are never touched. */
  ghost predicate OthersKept(d: Disk, before: Disk, path: Name, temporary: Name) {
    forall n :: n != path && n != temporary ==>
      (n in d.names <==> n in before.names) && (n in d.names ==> d.names[n] == before.names[n])
  }

  /** mkstemp may make this name lead to this new inode. */
  predicate CanMake(d: Disk, prefix: Name, name: Name, inode: Inode) {
    IsTemporary(prefix, name) && name !in d.names && inode !in d.files
  }

  function MadeDisk(d: Disk, name: Name, inode: Inode): Disk {
    Disk(d.names[name := inode], d.files[inode := File([], [], OWNER_ONLY)], d.recent + {(name, inode)})
  }

  class FileSystem {
    var disk: Disk
    ghost var history: seq<Disk>
    /** How many calls have failed of themselves, writes of nothing included. */
    ghost var faults: nat

    constructor (d: Disk)
      ensures disk == d && history == [] && faults == 0
    {
      disk := d;
      history := [];
      faults := 0;
    }

    // ----- system calls: each may fail without effect, and each ends in a recorded state -----

    /** mkstemp in the directory: a new empty file under a new name with the prefix. */
    method MakeTemporary(prefix: Name) returns (r: Option<(Name, Inode)>)
      requires WellFormed(disk)
      modifies this
      ensures history == old(history) + [disk]
      ensures faults == old(faults) + if r.Some? then 0 else 1
      ensures r.None? ==> disk == old(disk)
      ensures r.Some? ==>
        CanMake(old(disk), prefix, r.value.0, r.value.1) && disk == MadeDisk(old(disk), r.value.0, r.value.1)
    {
      var fault: bool := *;
      var name: Name, inode: Inode := *, *;
      if !fault && CanMake(disk, prefix, name, inode) {
        disk := MadeDisk(disk, name, inode);
        r := Some((name, inode));
      } else {
        r := None;
      }
      faults := faults + if r.Some? then 0 else 1;
      history := history + [disk];
    }

    method Fchmod(i: Inode, permissions: nat) returns (ok: bool)
      requires i in disk.files
      modifies this
      ensures history == old(history) + [disk]
      ensures faults == old(faults) + if ok then 0 else 1
      ensures disk == if ok then WithMode(old(disk), i, permissions) else old(disk)
    {
      ok := *;
      if ok {
        disk := WithMode(disk, i, permissions);
      }
      faults := faults + if ok then 0 else 1;
      history := history + [disk];
    }

    method Fstat(i: Inode) returns (r: Option<Stat>)
      requires i in disk.files
      modifies this`history, this`faults
      ensures history == old(history) + [disk]
      ensures faults == old(faults) + if r.Some? then 0 else 1
      ensures r.Some? ==> r.value == StatOf(disk, i)
    {
      var fault: bool := *;
      r := if fault then None else Some(StatOf(disk, i));
      faults := faults + if r.Some? then 0 else 1;
      history := history + [disk];
    }

    /** write: some prefix of the bytes, possibly none, or an error. */
    method Write(i: Inode, bytes: Bytes) returns (written: Option<nat>)
      requires i in disk.files
      modifies this
      ensures history == old(history) + [disk]
      ensures faults == old(faults) + if written.Some? && (written.value > 0 || bytes == []) then 0 else 1
      ensures written.Some? ==> written.value <= |bytes|
      ensures disk == old(disk).(files := old(disk).files[i := old(disk).files[i].(
                content := old(disk).files[i].content + (if written.Some? then bytes[..written.value] else []))])
    {
      var fault: bool := *;
      var k: nat :| k <= |bytes|;
      if fault {
        written := None;
        assert disk.files[i].content + [] == disk.files[i].content;
      } else {
        written := Some(k);
        disk := disk.(files := disk.files[i := disk.files[i].(content := disk.files[i].content + bytes[..k])]);
      }
      faults := faults + if written.Some? && (written.value > 0 || bytes == []) then 0 else 1;
      history := history + [disk];
    }

    /** write on a regular file with room: at least one byte of a non-empty buffer, or an error. */
    method WriteSome(i: Inode, bytes: Bytes) returns (written: Option<nat>)
      requires i in disk.files && bytes != []
      modifies this
      ensures history == old(history) + [disk]
      ensures faults == old(faults) + if written.Some? && (written.value > 0 || bytes == []) then 0 else 1
      ensures written.Some? ==> 1 <= written.value <= |bytes|
      ensures disk == old(disk).(files := old(disk).files[i := old(disk).files[i].(
                content := old(disk).files[i].content + (if written.Some? then bytes[..written.value] else []))])
    {
      var fault: bool := *;
      var k: nat :| 1 <= k <= |bytes|;
      if fault {
        written := None;
        assert disk.files[i].content + [] == disk.files[i].content;
      } else {
        written := Some(k);
        disk := disk.(files := disk.files[i := disk.files[i].(content := disk.files[i].content + bytes[..k])]);
      }
      faults := faults + if written.Some? && (written.value > 0 || bytes == []) then 0 else 1;
      history := history + [disk];
    }

    method Fsync(i: Inode) returns (ok: bool)
      requires i in disk.files
      modifies this
      ensures history == old(history) + [disk]
      ensures faults == old(faults) + if ok then 0 else 1
      ensures disk == if ok then old(disk).(files := old(disk).files[i := old(disk).files[i].(durable := old(disk).files[i].content)]) else old(disk)
    {
      ok := *;
      if ok {
        disk := disk.(files := disk.files[i := disk.files[i].(durable := disk.files[i].content)]);
      }
      faults := faults + if ok then 0 else 1;
      history := history + [disk];
    }

    /** link: refuses an existing target. */
    method Link(source: Name, target: Name) returns (ok: bool)
      requires source in disk.names
      modifies this
      ensures history == old(history) + [disk]
      ensures faults == old(faults) + if ok || target in old(disk).names then 0 else 1
      ensures ok ==> target !in old(disk).names
      ensures disk == if ok then LinkedDisk(old(disk), source, target) else old(disk)
    {
      ok := *;
      ok := ok && target !in disk.names;
      if ok {
        disk := LinkedDisk(disk, source, target);
      }
      faults := faults + if ok || target in old(disk).names then 0 else 1;
      history := history + [disk];
    }

    method Lstat(n: Name) returns (r: Option<Stat>)
      requires WellFormed(disk)
      modifies this`history, this`faults
      ensures history == old(history) + [disk]
      ensures faults == old(faults) + if r.Some? || n !in disk.names then 0 else 1
      ensures r.Some? ==> n in disk.names && r.value == StatOf(disk, disk.names[n])
    {
      var fault: bool := *;
      r := if fault || n !in disk.names then None else Some(StatOf(disk, disk.names[n]));
      faults := faults + if r.Some? || n !in disk.names then 0 else 1;
      history := history + [disk];
    }

    method Unlink(n: Name) returns (ok: bool)
      modifies this
      ensures history == old(history) + [disk]
      ensures faults == old(faults) + if ok || n !in old(disk).names then 0 else 1
      ensures ok ==> n in old(disk).names
      ensures disk == if ok then old(disk).(names := old(disk).names - {n}) else old(disk)
    {
      ok := *;
      ok := ok && n in disk.names;
      if ok {
        disk := disk.(names := disk.names - {n});
      }
      faults := faults + if ok || n !in old(disk).names then 0 else 1;
      history := history + [disk];
    }

    /** Open the directory, compare its identity, fsync it: afterwards only current entries are recent. */
    method SyncDirectory() returns (ok: bool)
      modifies this
      ensures history == old(history) + [disk]
      ensures faults == old(faults) + if ok then 0 else 1
      ensures disk == if ok then SyncedDisk(old(disk)) else old(disk)
    {
      ok := *;
      if ok {
        disk := SyncedDisk(disk);
      }
      faults := faults + if ok then 0 else 1;
      history := history + [disk];
    }

    /** bind on a Unix socket under umask 0o077: a new entry, an inode like any other here; refuses a taken name. */
    method Bind(n: Name) returns (ok: bool)
      modifies this
      ensures history == old(history) + [disk]
      ensures faults == old(faults) + if ok || n in old(disk).names then 0 else 1
      ensures !ok ==> disk == old(disk)
      ensures ok ==>
        && n !in old(disk).names && n in disk.names && disk.names[n] !in old(disk).files
        && disk == BoundDisk(old(disk), n, disk.names[n], SOCKET_MODE)
    {
      var inode: Inode := *;
      ok := *;
      ok := ok && n !in disk.names && inode !in disk.files;
      if ok {
        disk := BoundDisk(disk, n, inode, SOCKET_MODE);
      }
      faults := faults + if ok || n in old(disk).names then 0 else 1;
      history := history + [disk];
    }

    /** chmod by name. */
    method Chmod(n: Name, permissions: nat) returns (ok: bool)
      requires n in disk.names && disk.names[n] in disk.files
      modifies this
      ensures history == old(history) + [disk]
      ensures faults == old(faults) + if ok then 0 else 1
      ensures disk == if ok then WithMode(old(disk), old(disk).names[n], permissions) else old(disk)
    {
      ok := Fchmod(disk.names[n], permissions);
    }

    // ----- the protocol -----

    /** The write loop and the sync, on a freshly made temporary file. With the guard a write of
        nothing is a failure; without it the call is taken to make progress. */
    method WriteAndSync(inode: Inode, blob: Bytes, guarded: bool, ghost n: nat, ghost before: Disk, ghost path: Name, ghost name: Name)
      returns (ok: bool)
      requires WellFormed(before)
      requires Staged(disk, before, path, name, inode) && HistorySafe(history, n, before, path, blob)
      requires inode in disk.files && disk.files[inode] == File([], [], OWNER_ONLY)
      modifies this
      ensures Staged(disk, before, path, name, inode) && inode in disk.files
      ensures old(history) <= history && HistorySafe(history, n, before, path, blob)
      ensures ok ==> disk.files[inode] == File(blob, blob, OWNER_ONLY)
      ensures faults == old(faults) + if ok then 0 else 1
    {
      hide NeverPartial;
      hide HistorySafe;
      hide Staged;
      ok := false;
      var view := blob;
      assert blob[|blob| - |view|..] == view && blob[..|blob| - |view|] == [];
      while view != []
        invariant |view| <= |blob| && view == blob[|blob| - |view|..]
        invariant old(history) <= history && HistorySafe(history, n, before, path, blob)
        invariant Staged(disk, before, path, name, inode) && faults == old(faults)
        invariant inode in disk.files && disk.files[inode] == File(blob[..|blob| - |view|], [], OWNER_ONLY)
        decreases |view|
      {
        ghost var d, h := disk, history;
        var written: Option<nat>;
        if guarded {
          written := Write(inode, view);
        } else {
          written := WriteSome(inode, view);
        }
        StagedStep(d, before, path, name, inode, disk.files[inode], h, n, blob);
        if written.None? || written.value == 0 {
          return;
        }
        assert blob[..|blob| - |view|] + view[..written.value] == blob[..|blob| - |view| + written.value];
        view := view[written.value..];
      }
      assert blob[..|blob|] == blob;
      ghost var d, h := disk, history;
      ok := Fsync(inode);
      assert disk == d.(files := d.files[inode := disk.files[inode]]);
      StagedStep(d, before, path, name, inode, disk.files[inode], h, n, blob);
    }

    /** fchmod and fstat on the new file: its identity, once it is seen to have one link. */
    method Identify(inode: Inode, ghost blob: Bytes, ghost n: nat, ghost before: Disk, ghost path: Name, ghost name: Name)
      returns (identity: Option<Inode>, alone: bool)
      requires WellFormed(before)
      requires Staged(disk, before, path, name, inode) && HistorySafe(history, n, before, path, blob)
      requires inode in disk.files && disk.files[inode] == File([], [], OWNER_ONLY)
      modifies this
      ensures Staged(disk, before, path, name, inode) && inode in disk.files
      ensures old(history) <= history && HistorySafe(history, n, before, path, blob) && |history| <= |old(history)| + 2
      ensures disk.files[inode] == File([], [], OWNER_ONLY)
      ensures identity.Some? ==> identity.value == inode
      ensures alone == identity.Some? && faults == old(faults) + if alone then 0 else 1
    {
      hide NeverPartial;
      hide HistorySafe;
      hide Staged;
      identity, alone := None, false;
      ghost var d, h := disk, history;
      var changed := Fchmod(inode, OWNER_ONLY);
      assert disk == d.(files := d.files[inode := disk.files[inode]]);
      StagedStep(d, before, path, name, inode, disk.files[inode], h, n, blob);
      if !changed {
        return;
      }
      h := history;
      var metadata := Fstat(inode);
      StagedIsSafe(disk, before, path, name, inode, blob);
      HistoryGrows(h, n, disk, before, path, blob);
      if metadata.None? {
        return;
      }
      StagedLinks(disk, before, path, name, inode);
      identity, alone := Some(metadata.value.inode), metadata.value.links == 1;
    }

    /** Everything from mkstemp to the synced, closed temporary file. */
    method Stage(prefix: Name, ghost path: Name, blob: Bytes, guarded: bool)
      returns (temporary: Option<Name>, identity: Option<Inode>, ok: bool)
      requires WellFormed(disk) && !IsTemporary(prefix, path)
      modifies this
      ensures old(history) <= history && HistorySafe(history, |old(history)|, old(disk), path, blob)
      ensures temporary.None? ==> !ok && identity.None? && disk == old(disk)
      ensures temporary.Some? ==> IsTemporary(prefix, temporary.value)
      ensures temporary.Some? ==> temporary.value in disk.names && Staged(disk, old(disk), path, temporary.value, disk.names[temporary.value])
      ensures identity.Some? ==> temporary.Some? && identity.value == disk.names[temporary.value]
      ensures ok ==> identity.Some? && identity.value in disk.files && disk.files[identity.value] == File(blob, blob, OWNER_ONLY)
      ensures faults == old(faults) + if ok then 0 else 1
      ensures identity.None? ==> |history| <= |old(history)| + 3
    {
      hide NeverPartial;
      hide HistorySafe;
      ghost var before, n := disk, |history|;
      HistoryStarts(history, before, path, blob);
      temporary, identity, ok := None, None, false;
      var made := MakeTemporary(prefix);
      if made.None? {
        BeforeIsSafe(before, path, blob);
        HistoryGrows(old(history), n, disk, before, path, blob);
        return;
      }
      var (name, inode) := made.value;
      temporary := Some(name);
      assert Staged(disk, before, path, name, inode);
      StagedIsSafe(disk, before, path, name, inode, blob);
      HistoryGrows(old(history), n, disk, before, path, blob);
      hide Staged;
      var found, alone := Identify(inode, blob, n, before, path, name);
      identity := found;
      StagedName(disk, before, path, name, inode);
      if !alone {
        return;
      }
      ok := WriteAndSync(inode, blob, guarded, n, before, path, name);
      StagedName(disk, before, path, name, inode);
    }

    /** From link to the last check: returns which names the protocol now holds. */
    method PublishLink(path: Name, temporary: Name, identity: Inode, blob: Bytes, strict: bool,
                       ghost n: nat, ghost before: Disk)
      returns (published: bool, temporaryLeft: bool, completed: bool)
      requires Live(disk, before, path, temporary, identity, blob) && HistorySafe(history, n, before, path, blob)
      requires WellFormed(before) && WellFormed(disk) && temporary in disk.names
      requires path in disk.names <==> path in before.names
      requires identity in disk.files && disk.files[identity] == File(blob, blob, OWNER_ONLY)
      requires disk.names[temporary] == identity
      modifies this
      ensures Live(disk, before, path, temporary, identity, blob)
      ensures old(history) <= history && HistorySafe(history, n, before, path, blob)
      ensures published == (path in disk.names && path !in before.names) && temporaryLeft == (temporary in disk.names)
      ensures identity in disk.files && disk.files[identity] == File(blob, blob, OWNER_ONLY)
      ensures completed ==> published && !temporaryLeft
      ensures completed && strict ==> disk == SyncedDisk(disk)
      ensures faults == old(faults) + if completed || path in before.names then 0 else 1
    {
      hide NeverPartial;
      hide HistorySafe;
      hide Live;
      published, temporaryLeft, completed := false, true, false;
      ghost var d, h := disk, history;
      var linked := Link(temporary, path);
      if !linked {
        LiveStep(disk, before, path, temporary, identity, blob, h, n);
        return;
      }
      LiveLink(d, before, path, temporary, identity, blob);
      LiveStep(disk, before, path, temporary, identity, blob, h, n);
      published := true;
      h := history;
      var metadata := Lstat(path);
      LiveStep(disk, before, path, temporary, identity, blob, h, n);
      LiveNames(disk, before, path, temporary, identity, blob);
      if metadata.None? || (strict && metadata.value.permissions != OWNER_ONLY) || metadata.value.inode != identity {
        return;
      }
      d, h := disk, history;
      var unlinked := Unlink(temporary);
      if !unlinked {
        LiveStep(disk, before, path, temporary, identity, blob, h, n);
        return;
      }
      LiveUnlink(d, before, path, temporary, identity, blob, temporary);
      LiveStep(disk, before, path, temporary, identity, blob, h, n);
      temporaryLeft := false;
      completed := Settle(path, temporary, identity, blob, strict, n, before);
    }

    /** The last look at the published file, and the directory sync of a strict run. */
    method Settle(path: Name, ghost temporary: Name, ghost identity: Inode, ghost blob: Bytes, strict: bool,
                  ghost n: nat, ghost before: Disk)
      returns (completed: bool)
      requires Live(disk, before, path, temporary, identity, blob) && HistorySafe(history, n, before, path, blob)
      requires WellFormed(before) && WellFormed(disk)
      requires path !in before.names && path in disk.names && temporary !in disk.names
      requires identity in disk.files && disk.files[identity] == File(blob, blob, OWNER_ONLY)
      modifies this
      ensures Live(disk, before, path, temporary, identity, blob)
      ensures old(history) <= history && HistorySafe(history, n, before, path, blob)
      ensures disk.names == old(disk).names && disk.files == old(disk).files
      ensures completed && strict ==> disk == SyncedDisk(disk)
      ensures faults == old(faults) + if completed then 0 else 1
    {
      hide NeverPartial;
      hide HistorySafe;
      hide Live;
      completed := false;
      ghost var d, h := disk, history;
      var final := Lstat(path);
      LiveStep(disk, before, path, temporary, identity, blob, h, n);
      LiveNames(disk, before, path, temporary, identity, blob);
      LiveCompletes(disk, before, path, temporary, identity, blob);
      if final.None? || final.value.links != 1 {
        return;
      }
      if strict {
        h := history;
        var synced := SyncDirectory();
        if synced {
          LiveSync(d, before, path, temporary, identity, blob);
        }
        LiveStep(disk, before, path, temporary, identity, blob, h, n);
        completed := synced;
      } else {
        completed := true;
      }
    }

    /** Remove a name if it still leads to the recorded inode; report whether the calls worked. */
    method RemoveIfOurs(name: Name, identity: Inode, ghost n: nat, ghost before: Disk, ghost path: Name,
                        ghost temporary: Name, ghost blob: Bytes)
      returns (ghost removed: bool)
      requires (name == path && path !in before.names) || name == temporary
      requires WellFormed(before) && WellFormed(disk)
      requires Live(disk, before, path, temporary, identity, blob) && HistorySafe(history, n, before, path, blob)
      modifies this
      ensures Live(disk, before, path, temporary, identity, blob) && WellFormed(disk)
      ensures old(history) <= history && HistorySafe(history, n, before, path, blob)
      ensures disk == if removed then old(disk).(names := old(disk).names - {name}) else old(disk)
      ensures removed ==> name in old(disk).names
      ensures faults == old(faults) + if removed || name !in old(disk).names then 0 else 1
    {
      hide NeverPartial;
      hide HistorySafe;
      hide Live;
      LiveNames(disk, before, path, temporary, identity, blob);
      removed := false;
      ghost var d, h := disk, history;
      var metadata := Lstat(name);
      LiveStep(disk, before, path, temporary, identity, blob, h, n);
      if metadata.Some? && metadata.value.inode == identity {
        d, h := disk, history;
        var unlinked := Unlink(name);
        if unlinked {
          LiveUnlink(d, before, path, temporary, identity, blob, name);
        }
        LiveStep(disk, before, path, temporary, identity, blob, h, n);
        removed := unlinked;
      }
    }

    /**
      Both protocols from the temporary file on, whether the path is free or taken: an existing
      target is refused by the link alone. `strict` is write_record, which guards the write, checks the mode
      and syncs the directory; without it this is write_receipt. `recorded` says that the
      temporary inode was identified, which takes the first three calls, and `cleaned` that
      every cleanup call made did its work, which only a further fault can prevent.

      It succeeds exactly when the path is free and no call fails. Success leaves the path naming one complete, synced, owner-only, single-link file and
      no temporary name. Failure leaves the directory as it was, provided the inode was
      recorded and the cleanup calls worked; before that point the one thing that can stay
      behind is the temporary file. At every step, seen live or after a crash, a taken path is
      untouched and a free one is still free or the complete blob.
     */
    method Publish(prefix: Name, path: Name, blob: Bytes, strict: bool)
      returns (ok: bool, ghost recorded: bool, ghost cleaned: bool, ghost left: Option<Name>)
      requires WellFormed(disk) && !IsTemporary(prefix, path)
      modifies this
      ensures old(history) <= history && HistorySafe(history, |old(history)|, old(disk), path, blob)
      ensures NeverPartial(disk, old(disk), path, blob)
      ensures ok ==> PublishedAlone(disk, old(disk), path, blob)
      ensures ok && strict ==> disk == SyncedDisk(disk)
      ensures !ok && recorded && cleaned ==> disk.names == old(disk).names
      ensures !ok && !recorded ==> disk.names == old(disk).names || OnlyLeft(disk, old(disk), left, prefix)
      ensures ok <==> path !in old(disk).names && faults == old(faults)
      ensures !ok && !recorded ==> |history| <= |old(history)| + 3
      ensures !cleaned ==> faults >= old(faults) + if path in old(disk).names then 1 else 2
      ensures faults >= old(faults) + if ok || (recorded && path in old(disk).names) then 0 else 1
    {
      hide NeverPartial;
      hide HistorySafe;
      hide IsTemporary;
      hide PublishedAlone;
      ghost var before, n := disk, |history|;
      ok, recorded, cleaned, left := false, false, true, None;
      HistoryStarts(history, before, path, blob);
      BeforeIsSafe(before, path, blob);
      var temporary, identity, staged := Stage(prefix, path, blob, strict);
      if temporary.None? {
        return;
      }
      left := temporary;
      StagedIsSafe(disk, before, path, temporary.value, disk.names[temporary.value], blob);
      if identity.None? {
        return;
      }
      recorded := true;
      var name, inode := temporary.value, identity.value;
      StagedIsLive(disk, before, path, name, inode, blob);
      hide Staged;
      var published, temporaryLeft, completed := false, true, false;
      if staged {
        published, temporaryLeft, completed := PublishLink(path, name, inode, blob, strict, n, before);
      }
      LiveIsWellFormed(disk, before, path, name, inode, blob);
      hide Live;
      cleaned := Withdraw(path, name, inode, published && !completed, temporaryLeft, n, before, blob);
      ok := completed;
      LiveIsSafe(disk, before, path, name, inode, blob);
      if completed {
        LiveCompletes(disk, before, path, name, inode, blob);
      } else if cleaned {
        LiveRestores(disk, before, path, name, inode, blob);
      }
    }

    /** The cleanup: the names that are still ours are removed, the target's first. */
    method Withdraw(path: Name, temporary: Name, identity: Inode, ofPath: bool, ofTemporary: bool,
                    ghost n: nat, ghost before: Disk, ghost blob: Bytes)
      returns (ghost cleaned: bool)
      requires WellFormed(before) && WellFormed(disk) && path != temporary
      requires Live(disk, before, path, temporary, identity, blob) && HistorySafe(history, n, before, path, blob)
      requires (ofPath ==> path in disk.names && path !in before.names) && (ofTemporary ==> temporary in disk.names)
      modifies this
      ensures Live(disk, before, path, temporary, identity, blob) && WellFormed(disk)
      ensures old(history) <= history && HistorySafe(history, n, before, path, blob)
      ensures !ofPath && !ofTemporary ==> cleaned && disk == old(disk)
      ensures cleaned ==> disk.names == old(disk).names - (if ofPath then {path} else {}) - (if ofTemporary then {temporary} else {})
      ensures if cleaned then faults == old(faults) else faults > old(faults)
    {
      hide NeverPartial;
      hide HistorySafe;
      hide Live;
      cleaned := true;
      if ofPath {
        cleaned := RemoveIfOurs(path, identity, n, before, path, temporary, blob);
      }
      if ofTemporary {
        ghost var removed := RemoveIfOurs(temporary, identity, n, before, path, temporary, blob);
        cleaned := cleaned && removed;
      }
    }

    /** write_record: refuses an unsuitable parent or an existing target before touching anything. */
    method WriteRecord(parentOk: bool, path: Name, blob: Bytes)
      returns (ok: bool, ghost recorded: bool, ghost cleaned: bool, ghost left: Option<Name>)
      requires WellFormed(disk) && !IsTemporary(RECORD_PREFIX, path)
      modifies this
      ensures old(history) <= history && HistorySafe(history, |old(history)|, old(disk), path, blob)
      ensures path in old(disk).names || !parentOk ==> !ok && disk == old(disk)
      ensures ok ==> PublishedAlone(disk, old(disk), path, blob) && disk == SyncedDisk(disk)
      ensures !ok && recorded && cleaned ==> disk.names == old(disk).names
      ensures !ok && !recorded ==> disk.names == old(disk).names || OnlyLeft(disk, old(disk), left, RECORD_PREFIX)
      ensures ok <==> parentOk && path !in old(disk).names && faults == old(faults)
      ensures !ok && !recorded ==> |history| <= |old(history)| + 3
      ensures !cleaned ==> faults >= old(faults) + 2
    {
      ok, recorded, cleaned, left := false, false, true, None;
      if !parentOk || path in disk.names {
        return;
      }
      ok, recorded, cleaned, left := Publish(RECORD_PREFIX, path, blob, true);
    }

    /** write_receipt: the same protocol without the write guard, the mode check and the
        directory sync. It does not look at the path first: the link refuses a taken one. */
    method WriteReceipt(path: Name, blob: Bytes)
      returns (ok: bool, ghost recorded: bool, ghost cleaned: bool, ghost left: Option<Name>)
      requires WellFormed(disk) && !IsTemporary(RECEIPT_PREFIX, path)
      modifies this
      ensures old(history) <= history && HistorySafe(history, |old(history)|, old(disk), path, blob)
      ensures NeverPartial(disk, old(disk), path, blob)
      ensures ok ==> PublishedAlone(disk, old(disk), path, blob)
      ensures !ok && recorded && cleaned ==> disk.names == old(disk).names
      ensures !ok && !recorded ==> disk.names == old(disk).names || OnlyLeft(disk, old(disk), left, RECEIPT_PREFIX)
      ensures ok <==> path !in old(disk).names && faults == old(faults)
      ensures !ok && !recorded ==> |history| <= |old(history)| + 3
      ensures !cleaned ==> faults >= old(faults) + if path in old(disk).names then 1 else 2
      ensures faults >= old(faults) + if ok || (recorded && path in old(disk).names) then 0 else 1
    {
      ok, recorded, cleaned, left := Publish(RECEIPT_PREFIX, path, blob, false);
    }
  }

  /** One temporary name stayed behind and nothing else changed. */
  ghost predicate OnlyLeft(d: Disk, before: Disk, left: Option<Name>, prefix: Name) {
    && left.Some? && left.value !in before.names && IsTemporary(prefix, left.value) && left.value in d.names
    && d.names == before.names[left.value := d.names[left.value]]
  }

  /** The path names one file that did not exist before, complete and owner-only, under no
      other name; every other entry is as it was. */
  ghost predicate PublishedAlone(d: Disk, before: Disk, path: Name, blob: Bytes) {
    && path !in before.names && path in d.names && d.names == before.names[path := d.names[path]]
    && d.names[path] !in before.files && d.names[path] in d.files
    && d.files[d.names[path]] == File(blob, blob, OWNER_ONLY)
    && StatOf(d, d.names[path]).links == 1
  }

  /** Every state the protocol can be in once its inode exists. */
  ghost predicate Live(d: Disk, before: Disk, path: Name, temporary: Name, inode: Inode, blob: Bytes) {
    && temporary !in before.names && temporary != path && inode !in before.files
    && d.files.Keys == before.files.Keys + {inode}
    && (forall i :: i in before.files ==> d.files[i] == before.files[i])
    && OthersKept(d, before, path, temporary)
    && (path in before.names ==> path in d.names && d.names[path] == before.names[path] && (path, inode) !in d.recent)
    && (path in d.names && path !in before.names ==> d.names[path] == inode)
    && (temporary in d.names ==> d.names[temporary] == inode)
    && d.recent <= before.recent + {(temporary, inode), (path, inode)}
    && (forall n :: n in d.names ==> (n, d.names[n]) in d.recent)
    && ((path in d.names && path !in before.names) || (path, inode) in d.recent ==> Complete(d.files[inode], blob))
  }

  lemma LiveIsWellFormed(d: Disk, before: Disk, path: Name, temporary: Name, inode: Inode, blob: Bytes)
    requires WellFormed(before) && Live(d, before, path, temporary, inode, blob)
    ensures WellFormed(d)
  {
    forall n | n in d.names ensures d.names[n] in d.files {
      if n != path && n != temporary {
        assert before.names[n] in before.files;
      }
    }
  }

  lemma LiveIsSafe(d: Disk, before: Disk, path: Name, temporary: Name, inode: Inode, blob: Bytes)
    requires WellFormed(before) && Live(d, before, path, temporary, inode, blob)
    ensures NeverPartial(d, before, path, blob)
  {
    LiveIsWellFormed(d, before, path, temporary, inode, blob);
  }

  lemma LiveStep(d: Disk, before: Disk, path: Name, temporary: Name, inode: Inode, blob: Bytes, h: seq<Disk>, n: nat)
    requires WellFormed(before) && Live(d, before, path, temporary, inode, blob) && HistorySafe(h, n, before, path, blob)
    ensures HistorySafe(h + [d], n, before, path, blob) && WellFormed(d)
  {
    hide NeverPartial;
    hide HistorySafe;
    LiveIsWellFormed(d, before, path, temporary, inode, blob);
    LiveIsSafe(d, before, path, temporary, inode, blob);
    HistoryGrows(h, n, d, before, path, blob);
  }

  lemma StagedIsLive(d: Disk, before: Disk, path: Name, temporary: Name, inode: Inode, blob: Bytes)
    requires WellFormed(before) && Staged(d, before, path, temporary, inode)
    ensures Live(d, before, path, temporary, inode, blob) && (path in d.names <==> path in before.names)
    ensures WellFormed(d) && temporary in d.names && d.names[temporary] == inode && inode in d.files
  {
    assert (path, inode) !in before.recent;
    LiveIsWellFormed(d, before, path, temporary, inode, blob);
  }

  /** The link is made only once the file is complete on disk. */
  lemma LiveLink(d: Disk, before: Disk, path: Name, temporary: Name, inode: Inode, blob: Bytes)
    requires Live(d, before, path, temporary, inode, blob) && temporary in d.names && Complete(d.files[inode], blob)
    requires path !in before.names
    ensures Live(LinkedDisk(d, temporary, path), before, path, temporary, inode, blob)
  {
  }

  lemma LiveUnlink(d: Disk, before: Disk, path: Name, temporary: Name, inode: Inode, blob: Bytes, name: Name)
    requires Live(d, before, path, temporary, inode, blob) && ((name == path && path !in before.names) || name == temporary)
    ensures Live(d.(names := d.names - {name}), before, path, temporary, inode, blob)
  {
  }

  lemma LiveSync(d: Disk, before: Disk, path: Name, temporary: Name, inode: Inode, blob: Bytes)
    requires Live(d, before, path, temporary, inode, blob)
    ensures Live(SyncedDisk(d), before, path, temporary, inode, blob)
    ensures SyncedDisk(SyncedDisk(d)) == SyncedDisk(d)
  {
    var s := SyncedDisk(d);
    assert s.recent <= d.recent;
  }

  lemma LiveCompletes(d: Disk, before: Disk, path: Name, temporary: Name, inode: Inode, blob: Bytes)
    requires WellFormed(before) && Live(d, before, path, temporary, inode, blob)
    requires path !in before.names && path in d.names && temporary !in d.names
    requires d.files[inode] == File(blob, blob, OWNER_ONLY)
    ensures PublishedAlone(d, before, path, blob)
  {
    assert d.names == before.names[path := inode];
    assert LinkNames(d, inode) == {path};
  }

  /** A name the protocol made leads to its inode. */
  lemma LiveNames(d: Disk, before: Disk, path: Name, temporary: Name, inode: Inode, blob: Bytes)
    requires Live(d, before, path, temporary, inode, blob)
    ensures path in d.names && path !in before.names ==> d.names[path] == inode
    ensures temporary in d.names ==> d.names[temporary] == inode
  {
  }

  lemma LiveRestores(d: Disk, before: Disk, path: Name, temporary: Name, inode: Inode, blob: Bytes)
    requires Live(d, before, path, temporary, inode, blob) && temporary !in d.names
    requires path in d.names ==> path in before.names
    ensures d.names == before.names
  {
  }

  ghost predicate HistorySafe(h: seq<Disk>, n: nat, before: Disk, path: Name, blob: Bytes) {
    n <= |h| && forall k :: n <= k < |h| ==> NeverPartial(h[k], before, path, blob)
  }

  lemma HistoryStarts(h: seq<Disk>, before: Disk, path: Name, blob: Bytes)
    ensures HistorySafe(h, |h|, before, path, blob)
  {
  }

  lemma HistoryGrows(h: seq<Disk>, n: nat, d: Disk, before: Disk, path: Name, blob: Bytes)
    requires HistorySafe(h, n, before, path, blob) && NeverPartial(d, before, path, blob)
    ensures HistorySafe(h + [d], n, before, path, blob)
  {
  }

  lemma BeforeIsSafe(before: Disk, path: Name, blob: Bytes)
    requires WellFormed(before)
    ensures NeverPartial(before, before, path, blob)
  {
  }

  /** A disk that differs from the earlier one only by a new file under a temporary name. */
  ghost predicate Staged(d: Disk, before: Disk, path: Name, temporary: Name, inode: Inode) {
    && temporary !in before.names && temporary != path && inode !in before.files
    && d.names == before.names[temporary := inode]
    && d.files.Keys == before.files.Keys + {inode}
    && (forall i :: i in before.files ==> d.files[i] == before.files[i])
    && d.recent == before.recent + {(temporary, inode)}
  }

  lemma StagedIsSafe(d: Disk, before: Disk, path: Name, temporary: Name, inode: Inode, blob: Bytes)
    requires WellFormed(before) && Staged(d, before, path, temporary, inode)
    ensures NeverPartial(d, before, path, blob)
  {
  }

  lemma StagedName(d: Disk, before: Disk, path: Name, temporary: Name, inode: Inode)
    requires Staged(d, before, path, temporary, inode)
    ensures temporary in d.names && d.names[temporary] == inode && inode in d.files
  {
  }

  /** The new file has the temporary name and no other. */
  lemma StagedLinks(d: Disk, before: Disk, path: Name, temporary: Name, inode: Inode)
    requires WellFormed(before) && Staged(d, before, path, temporary, inode)
    ensures inode in d.files && StatOf(d, inode).links == 1
  {
    assert LinkNames(d, inode) == {temporary};
  }

  /** Changing only the new file keeps everything staged and the history safe. */
  lemma StagedStep(d: Disk, before: Disk, path: Name, temporary: Name, inode: Inode, f: File,
                   h: seq<Disk>, n: nat, blob: Bytes)
    requires WellFormed(before) && Staged(d, before, path, temporary, inode)
    requires HistorySafe(h, n, before, path, blob)
    ensures var d' := d.(files := d.files[inode := f]);
      Staged(d', before, path, temporary, inode) && HistorySafe(h + [d'], n, before, path, blob)
  {
    hide NeverPartial;
    hide HistorySafe;
    var d' := d.(files := d.files[inode := f]);
    StagedIsSafe(d', before, path, temporary, inode, blob);
    HistoryGrows(h, n, d', before, path, blob);
  }

  function LinkedDisk(d: Disk, source: Name, target: Name): Disk
    requires source in d.names
  {
    d.(names := d.names[target := d.names[source]], recent := d.recent + {(target, d.names[source])})
  }

  function BoundDisk(d: Disk, n: Name, i: Inode, permissions: nat): Disk {
    Disk(d.names[n := i], d.files[i := File([], [], permissions)], d.recent + {(n, i)})
  }

  function WithMode(d: Disk, i: Inode, permissions: nat): Disk
    requires i in d.files
  {
    d.(files := d.files[i := d.files[i].(permissions := permissions)])
  }

  function SyncedDisk(d: Disk): Disk {
    d.(recent := set n | n in d.names :: (n, d.names[n]))
  }

  // ----- targets that mkstemp may draw itself -----

  lemma {:induction false} FreshInode(files: set<Inode>) returns (i: Inode)
    ensures forall j :: j in files ==> j < i
    decreases |files|
  {
    i := 0;
    if j :| j in files {
      var k := FreshInode(files - {j});
      i := if j < k then k else j + 1;
      assert files == (files - {j}) + {j};
    }
  }

  /** The first call already breaks the promise about the target exactly for a free target that mkstemp
      may draw as its own temporary name. */
  lemma TargetMayBeDrawn(d: Disk, prefix: Name, path: Name, blob: Bytes)
    requires WellFormed(d) && blob != []
    ensures (exists name, inode :: CanMake(d, prefix, name, inode) && !NeverPartial(MadeDisk(d, name, inode), d, path, blob)) <==>
      IsTemporary(prefix, path) && path !in d.names
  {
    hide IsTemporary;
    if IsTemporary(prefix, path) && path !in d.names {
      var inode := FreshInode(d.files.Keys);
      assert CanMake(d, prefix, path, inode) && MadeDisk(d, path, inode).names[path] == inode;
    }
  }
}
