/** The two-file atomic write: the target is replaced by rename and its old value
    is kept beside it. Every system call is a crash point. */
module AtomicFile {
  import opened Wrappers

  datatype Name =
    | File(path: string)
    | PreviousGood(path: string)
    | Temp(n: nat)

  /** File contents; only synced data is known to survive a crash. */
  datatype Blob<+C> = Partial | Whole(data: C, synced: bool)

  type Directory<C> = map<Name, Blob<C>>

  /** What a reader finds after a crash. */
  datatype Seen<+C> = Missing | Data(data: C) | Torn

  function Slot<C>(d: Directory<C>, n: Name): Option<Blob<C>> {
    if n in d then Some(d[n]) else None
  }

  function Read<C>(d: Directory<C>, n: Name): Option<C> {
    if n in d && d[n].Whole? then Some(d[n].data) else None
  }

  ghost predicate Shows<C>(slot: Option<Blob<C>>, v: Seen<C>) {
    match slot
    case None => v == Missing
    case Some(Partial) => v == Torn
    case Some(Whole(data, synced)) => v == Data(data) || (!synced && v == Torn)
  }

  /** After a crash each name refers either to what it named when the directory
      was last synced or to what it named at the crash. */
  ghost predicate MaySee<C>(cur: Directory<C>, durable: Directory<C>, n: Name, v: Seen<C>) {
    Shows(Slot(cur, n), v) || Shows(Slot(durable, n), v)
  }

  // ------------------------------------------------- the states of one Write

  function Kept<C>(target: Option<C>, backup: Option<C>): Option<C> {
    if target.Some? then target else backup
  }

  predicate WriteDone<C(==)>(t0: Option<C>, b0: Option<C>, data: C, t: Option<C>, b: Option<C>) {
    t == Some(data) && b == Kept(t0, b0)
  }

  /** The only contents an interrupted or finished Write may leave. */
  predicate WriteOutcome<C(==)>(t0: Option<C>, b0: Option<C>, data: C, t: Option<C>, b: Option<C>) {
    || (t == t0 && (b == b0 || b == Kept(t0, b0)))
    || WriteDone(t0, b0, data, t, b)
  }

  /** States writeReplace may pass through: only `name` changes, only to `data`,
      and it never names unsynced contents. */
  ghost predicate Replacing<C>(name: Name, data: C, cur0: Directory<C>, dur0: Directory<C>, cur: Directory<C>, dur: Directory<C>) {
    && (Slot(cur, name) == Slot(cur0, name) || Slot(cur, name) == Some(Whole(data, true)))
    && (Slot(dur, name) == Slot(dur0, name) || Slot(dur, name) == Slot(cur0, name) || Slot(dur, name) == Some(Whole(data, true)))
    && (forall n: Name :: !n.Temp? && n != name ==>
          Slot(cur, n) == Slot(cur0, n) && (Slot(dur, n) == Slot(dur0, n) || Slot(dur, n) == Slot(cur0, n)))
  }

  /** Only temporary names differ. */
  ghost predicate Staging<C>(cur0: Directory<C>, cur: Directory<C>) {
    forall n: Name :: !n.Temp? ==> Slot(cur, n) == Slot(cur0, n)
  }

  /** The log was extended, and every new state is one of writeReplace's. */
  ghost predicate AllReplacing<C>(name: Name, data: C, cur0: Directory<C>, dur0: Directory<C>,
                                  log0: seq<(Directory<C>, Directory<C>)>, log: seq<(Directory<C>, Directory<C>)>) {
    log0 <= log && forall i :: |log0| <= i < |log| ==> Replacing(name, data, cur0, dur0, log[i].0, log[i].1)
  }

  /** What a crash may expose while `data` is written to `path`: an earlier target
      beside an earlier or freshly kept backup, or the new target, and then the
      backup of the value it replaced is already durable. */
  ghost predicate SafePoint<C(!new)>(path: string, data: C, cur0: Directory<C>, dur0: Directory<C>, cur: Directory<C>, dur: Directory<C>) {
    forall t, b :: MaySee(cur, dur, File(path), t) && MaySee(cur, dur, PreviousGood(path), b) ==>
      || (&& MaySee(cur0, dur0, File(path), t)
          && (MaySee(cur0, dur0, PreviousGood(path), b) || (File(path) in cur0 && Shows(Slot(cur0, File(path)), b))))
      || (&& t == Data(data)
          && (if File(path) in cur0 then Shows(Slot(cur0, File(path)), b) else MaySee(cur0, dur0, PreviousGood(path), b)))
  }

  ghost predicate AllSafe<C(!new)>(path: string, data: C, cur0: Directory<C>, dur0: Directory<C>,
                                   log0: seq<(Directory<C>, Directory<C>)>, log: seq<(Directory<C>, Directory<C>)>) {
    log0 <= log && forall i :: |log0| <= i < |log| ==> SafePoint(path, data, cur0, dur0, log[i].0, log[i].1)
  }

  /** What another process finds: one of the WriteOutcome states, whatever had
      reached the disk before. */
  ghost predicate OutcomePoint<C(!new)>(path: string, data: C, cur0: Directory<C>, cur: Directory<C>) {
    WriteOutcome(Read(cur0, File(path)), Read(cur0, PreviousGood(path)), data, Read(cur, File(path)), Read(cur, PreviousGood(path)))
  }

  ghost predicate AllOutcomes<C(!new)>(path: string, data: C, cur0: Directory<C>,
                                       log0: seq<(Directory<C>, Directory<C>)>, log: seq<(Directory<C>, Directory<C>)>) {
    log0 <= log && forall i :: |log0| <= i < |log| ==> OutcomePoint(path, data, cur0, log[i].0)
  }

  class FileSystem<C(!new, ==)> {
    var cur: Directory<C>
    ghost var durable: Directory<C>
    // Every state the disk has been in, one per system call.
    ghost var log: seq<(Directory<C>, Directory<C>)>

    ghost predicate Valid()
      reads this
    {
      && (forall n :: n in cur && !n.Temp? ==> cur[n].Whole? && cur[n].synced)
      && (forall n :: n in durable && !n.Temp? ==> durable[n].Whole? && durable[n].synced)
    }

    constructor (files: map<Name, C>)
      ensures Valid() && durable == cur && log == []
      ensures forall n :: Read(cur, n) == if n in files then Some(files[n]) else None
    {
      var start := map n | n in files :: Whole(files[n], true);
      cur := start;
      durable := start;
      log := [];
    }

    /** One system call on a temporary file. */
    method SetTemp(tmp: Name, blob: Blob<C>)
      requires Valid() && tmp.Temp?
      modifies this
      ensures Valid() && cur == old(cur)[tmp := blob] && durable == old(durable)
      ensures log == old(log) + [(cur, durable)]
    {
      cur := cur[tmp := blob];
      log := log + [(cur, durable)];
    }

    method RemoveTemp(tmp: Name)
      requires Valid() && tmp.Temp?
      modifies this
      ensures Valid() && (cur == old(cur) || cur == old(cur) - {tmp}) && durable == old(durable)
      ensures log == old(log) + [(cur, durable)]
    {
      if * {
        cur := cur - {tmp};
      }
      log := log + [(cur, durable)];
    }

    method RenameOver(tmp: Name, name: Name)
      requires Valid() && tmp.Temp? && tmp in cur && cur[tmp].Whole? && cur[tmp].synced && !name.Temp?
      modifies this
      ensures Valid() && cur == (old(cur) - {tmp})[name := old(cur)[tmp]] && durable == old(durable)
      ensures log == old(log) + [(cur, durable)]
    {
      cur := (cur - {tmp})[name := cur[tmp]];
      log := log + [(cur, durable)];
    }

    method SyncDirectory()
      requires Valid()
      modifies this
      ensures Valid() && cur == old(cur) && durable == cur
      ensures log == old(log) + [(cur, durable)]
    {
      durable := cur;
      log := log + [(cur, durable)];
    }

    /** Creates, fills and syncs a temporary file. */
    method StageTemp(data: C) returns (ok: bool, tmp: Name)
      requires Valid()
      modifies this
      ensures Valid() && tmp.Temp? && durable == old(durable) && old(log) <= log
      ensures forall i :: |old(log)| <= i < |log| ==> Staging(old(cur), log[i].0) && log[i].1 == old(durable)
      ensures Staging(old(cur), cur)
      ensures ok ==> tmp !in old(cur) && cur == old(cur)[tmp := Whole(data, true)]
    {
      ok := false;
      var free := FreshTemp();
      tmp := Temp(free);
      if * {
        return; // CreateTemp
      }
      SetTemp(tmp, Partial);
      if * {
        RemoveTemp(tmp);
        return; // Chmod, or Write after part of the data
      }
      SetTemp(tmp, Whole(data, false));
      if * {
        RemoveTemp(tmp);
        return; // Sync
      }
      SetTemp(tmp, Whole(data, true));
      if * {
        RemoveTemp(tmp);
        return; // Close
      }
      ok := true;
    }

    /** Writes a synced temporary file and renames it over `name`. */
    method WriteReplace(name: Name, data: C) returns (ok: bool)
      requires Valid() && !name.Temp?
      modifies this
      ensures Valid()
      ensures AllReplacing(name, data, old(cur), old(durable), old(log), log)
      ensures Replacing(name, data, old(cur), old(durable), cur, durable)
      ensures ok ==> durable == cur && cur == old(cur)[name := Whole(data, true)]
    {
      var staged, tmp := StageTemp(data);
      if !staged {
        return false;
      }
      if * {
        RemoveTemp(tmp);
        return false; // rename
      }
      RenameOver(tmp, name);
      assert cur == old(cur)[name := Whole(data, true)];
      if * {
        return false; // syncDirectory: the rename has already happened
      }
      SyncDirectory();
      return true;
    }

    /** A name CreateTemp would accept. */
    method FreshTemp() returns (n: nat)
      ensures Temp(n) !in cur
    {
      n := 0;
      var left := cur.Keys;
      while Temp(n) in cur
        invariant left <= cur.Keys
        invariant forall m: nat :: m < n ==> Temp(m) !in left
        invariant forall m: nat :: m >= n && Temp(m) in cur ==> Temp(m) in left
        decreases left
      {
        left := left - {Temp(n)};
        n := n + 1;
      }
    }

    method Write(path: string, data: C) returns (ok: bool)
      requires Valid()
      modifies this
      ensures Valid()
      ensures path == "" ==> !ok && cur == old(cur)
      ensures AllSafe(path, data, old(cur), old(durable), old(log), log)
      ensures SafePoint(path, data, old(cur), old(durable), cur, durable)
      ensures AllOutcomes(path, data, old(cur), old(log), log) && OutcomePoint(path, data, old(cur), cur)
      ensures ok ==> durable == cur
      ensures ok ==> WriteDone(old(Read(cur, File(path))), old(Read(cur, PreviousGood(path))), data,
                               Read(cur, File(path)), Read(cur, PreviousGood(path)))
      ensures ok ==> cur.Keys == old(cur.Keys) + {File(path)} + (if File(path) in old(cur) then {PreviousGood(path)} else {})
      ensures forall n: Name :: !n.Temp? && n != File(path) && n != PreviousGood(path) ==> Slot(cur, n) == old(Slot(cur, n))
    {
      if path == "" {
        return false;
      }
      if * {
        return false; // MkdirAll, or an unreadable target
      }
      if File(path) in cur {
        var kept := WriteReplace(PreviousGood(path), cur[File(path)].data);
        BackupPointsAreSafe(path, data, old(cur), old(durable), old(log), log, cur, durable);
        BackupPointsAreOutcomes(path, data, old(cur), old(durable), old(log), log, cur, durable);
        if !kept {
          return false;
        }
      }
      ghost var cur1, dur1, log1 := cur, durable, log;
      ok := WriteReplace(File(path), data);
      TargetPointsAreSafe(path, data, old(cur), old(durable), cur1, dur1, log1, log, cur, durable);
      TargetPointsAreOutcomes(path, data, old(cur), cur1, dur1, log1, log, cur, durable);
    }

    /** The same replacement without a kept value. */
    method WriteDirect(path: string, data: C) returns (ok: bool)
      requires Valid()
      modifies this
      ensures Valid()
      ensures path == "" ==> !ok && cur == old(cur)
      ensures AllReplacing(File(path), data, old(cur), old(durable), old(log), log)
      ensures Replacing(File(path), data, old(cur), old(durable), cur, durable)
      ensures ok ==> durable == cur && cur == old(cur)[File(path) := Whole(data, true)]
    {
      if path == "" {
        return false;
      }
      if * {
        return false; // MkdirAll
      }
      ok := WriteReplace(File(path), data);
    }
  }

  lemma BackupPointsAreSafe<C(!new)>(path: string, data: C, cur0: Directory<C>, dur0: Directory<C>,
                                     log0: seq<(Directory<C>, Directory<C>)>, log: seq<(Directory<C>, Directory<C>)>,
                                     cur: Directory<C>, dur: Directory<C>)
    requires File(path) in cur0 && cur0[File(path)].Whole? && cur0[File(path)].synced
    requires AllReplacing(PreviousGood(path), cur0[File(path)].data, cur0, dur0, log0, log)
    requires Replacing(PreviousGood(path), cur0[File(path)].data, cur0, dur0, cur, dur)
    ensures AllSafe(path, data, cur0, dur0, log0, log) && SafePoint(path, data, cur0, dur0, cur, dur)
  {
  }

  lemma TargetPointsAreSafe<C(!new)>(path: string, data: C, cur0: Directory<C>, dur0: Directory<C>,
                                     cur1: Directory<C>, dur1: Directory<C>,
                                     log1: seq<(Directory<C>, Directory<C>)>, log: seq<(Directory<C>, Directory<C>)>,
                                     cur: Directory<C>, dur: Directory<C>)
    requires if File(path) in cur0
             then && cur0[File(path)].Whole? && cur0[File(path)].synced && dur1 == cur1
                  && cur1 == cur0[PreviousGood(path) := cur0[File(path)]]
             else cur1 == cur0 && dur1 == dur0
    requires AllReplacing(File(path), data, cur1, dur1, log1, log)
    requires Replacing(File(path), data, cur1, dur1, cur, dur)
    ensures AllSafe(path, data, cur0, dur0, log1, log) && SafePoint(path, data, cur0, dur0, cur, dur)
  {
  }

  lemma BackupPointsAreOutcomes<C(!new)>(path: string, data: C, cur0: Directory<C>, dur0: Directory<C>,
                                         log0: seq<(Directory<C>, Directory<C>)>, log: seq<(Directory<C>, Directory<C>)>,
                                         cur: Directory<C>, dur: Directory<C>)
    requires File(path) in cur0 && cur0[File(path)].Whole?
    requires AllReplacing(PreviousGood(path), cur0[File(path)].data, cur0, dur0, log0, log)
    requires Replacing(PreviousGood(path), cur0[File(path)].data, cur0, dur0, cur, dur)
    ensures AllOutcomes(path, data, cur0, log0, log) && OutcomePoint(path, data, cur0, cur)
  {
    forall i | |log0| <= i < |log| ensures OutcomePoint(path, data, cur0, log[i].0) {
      KeptIsAnOutcome(path, data, cur0, dur0, log[i].0, log[i].1);
    }
    KeptIsAnOutcome(path, data, cur0, dur0, cur, dur);
  }

  lemma KeptIsAnOutcome<C(!new)>(path: string, data: C, cur0: Directory<C>, dur0: Directory<C>, cur: Directory<C>, dur: Directory<C>)
    requires File(path) in cur0 && cur0[File(path)].Whole?
    requires Replacing(PreviousGood(path), cur0[File(path)].data, cur0, dur0, cur, dur)
    ensures OutcomePoint(path, data, cur0, cur)
  {
    assert Slot(cur, File(path)) == Slot(cur0, File(path));
  }

  lemma TargetPointsAreOutcomes<C(!new)>(path: string, data: C, cur0: Directory<C>, cur1: Directory<C>, dur1: Directory<C>,
                                         log1: seq<(Directory<C>, Directory<C>)>, log: seq<(Directory<C>, Directory<C>)>,
                                         cur: Directory<C>, dur: Directory<C>)
    requires if File(path) in cur0 then cur0[File(path)].Whole? && cur1 == cur0[PreviousGood(path) := cur0[File(path)]] else cur1 == cur0
    requires AllReplacing(File(path), data, cur1, dur1, log1, log)
    requires Replacing(File(path), data, cur1, dur1, cur, dur)
    ensures AllOutcomes(path, data, cur0, log1, log) && OutcomePoint(path, data, cur0, cur)
  {
    forall i | |log1| <= i < |log| ensures OutcomePoint(path, data, cur0, log[i].0) {
      ReplacedIsAnOutcome(path, data, cur0, cur1, dur1, log[i].0, log[i].1);
    }
    ReplacedIsAnOutcome(path, data, cur0, cur1, dur1, cur, dur);
  }

  lemma ReplacedIsAnOutcome<C(!new)>(path: string, data: C, cur0: Directory<C>, cur1: Directory<C>, dur1: Directory<C>, cur: Directory<C>, dur: Directory<C>)
    requires if File(path) in cur0 then cur0[File(path)].Whole? && cur1 == cur0[PreviousGood(path) := cur0[File(path)]] else cur1 == cur0
    requires Replacing(File(path), data, cur1, dur1, cur, dur)
    ensures OutcomePoint(path, data, cur0, cur)
  {
    assert Slot(cur, PreviousGood(path)) == Slot(cur1, PreviousGood(path));
  }

  ghost predicate Settled<C>(d: Directory<C>, path: string) {
    forall n :: n in [File(path), PreviousGood(path)] && n in d ==> d[n].Whole? && d[n].synced
  }

  /** Loss of power, whatever had reached the disk before: both files are whole; each
      is one of its earlier values, or the target is new and the value it replaced,
      if there was one, is in the backup. */
  lemma PowerLossLeavesOldOrNew<C(!new)>(path: string, data: C, cur0: Directory<C>, dur0: Directory<C>,
                                         cur: Directory<C>, dur: Directory<C>, t: Seen<C>, b: Seen<C>)
    requires Settled(cur0, path) && Settled(dur0, path)
    requires SafePoint(path, data, cur0, dur0, cur, dur)
    requires MaySee(cur, dur, File(path), t) && MaySee(cur, dur, PreviousGood(path), b)
    ensures t != Torn && b != Torn
    ensures var target, kept := Read(cur0, File(path)), [Read(cur0, PreviousGood(path)), Read(dur0, PreviousGood(path))];
            || (Found(t) in [target, Read(dur0, File(path))] && (Found(b) in kept || (target.Some? && Found(b) == target)))
            || (Found(t) == Some(data) && if target.Some? then Found(b) == target else Found(b) in kept)
  {
    assert File(path) in [File(path), PreviousGood(path)] && PreviousGood(path) in [File(path), PreviousGood(path)];
  }

  /** If the directory had been synced, those are the WriteOutcome states. */
  lemma CrashLeavesAWriteOutcome<C(!new)>(path: string, data: C, d0: Directory<C>, cur: Directory<C>, dur: Directory<C>, t: Seen<C>, b: Seen<C>)
    requires Settled(d0, path)
    requires SafePoint(path, data, d0, d0, cur, dur)
    requires MaySee(cur, dur, File(path), t) && MaySee(cur, dur, PreviousGood(path), b)
    ensures t != Torn && b != Torn
    ensures WriteOutcome(Read(d0, File(path)), Read(d0, PreviousGood(path)), data, Found(t), Found(b))
  {
    assert File(path) in [File(path), PreviousGood(path)] && PreviousGood(path) in [File(path), PreviousGood(path)];
  }

  function Found<C>(v: Seen<C>): Option<C> {
    if v.Data? then Some(v.data) else None
  }
}
