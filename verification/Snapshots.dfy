/**
 The published snapshot and its history: the live file, the history index and the backup files,
 as the compiler and the snapshot manager write them, with any of the writes failing.
 */
module Snapshots {
  import opened Wrappers

  /** `stamp` stands for the compile time and the checksum; `services` is missing when null was committed. */
  datatype Snapshot<P> = Snapshot(buildNumber: nat, version: string, services: Option<P>, stamp: nat)

  datatype Entry = Entry(buildNumber: nat, version: string, stamp: nat, file: nat)

  datatype Disk<P> = Disk(live: Option<Snapshot<P>>, index: seq<Entry>, backups: map<nat, Snapshot<P>>)

  /**
   Which of the things that come after the checks go through: writing the live file, writing the
   runtime manifest, writing the backup, writing the index, and publishing the event.
   */
  datatype Writes = Writes(live: bool, manifest: bool, backup: bool, index: bool, notify: bool)

  const ALL := Writes(true, true, true, true, true)

  function OrDefault(version: string): string {
    if version == "" then "1.0.0" else version
  }

  function EntryOf<P>(s: Snapshot<P>): Entry {
    Entry(s.buildNumber, OrDefault(s.version), s.stamp, s.buildNumber)
  }

  /** `findIndex` by build number. */
  function Find(index: seq<Entry>, b: nat): (k: nat)
    ensures k <= |index|
    ensures k < |index| ==> index[k].buildNumber == b
    ensures forall i :: 0 <= i < k ==> index[i].buildNumber != b
  {
    if index == [] || index[0].buildNumber == b then 0 else Find(index[1..], b) + 1
  }

  function Indexed<P>(index: seq<Entry>, s: Snapshot<P>): seq<Entry> {
    var k := Find(index, s.buildNumber);
    if k < |index| then index[k := EntryOf(s)] else index + [EntryOf(s)]
  }

  /** `SnapshotHistory.addEntry`: the index is not reached when the backup fails. */
  function AddEntry<P>(d: Disk<P>, s: Snapshot<P>, w: Writes): Disk<P> {
    if !w.backup then d
    else d.(backups := d.backups[s.buildNumber := s], index := if w.index then Indexed(d.index, s) else d.index)
  }

  function NextBuild<P>(d: Disk<P>): nat {
    if d.live.None? then 1 else d.live.value.buildNumber + 1
  }

  datatype Op<P> =
    | Compile(services: P, stamp: nat, writes: Writes)
    | Commit(payload: Option<P>, version: string, stamp: nat, writes: Writes)
    | Rollback(build: nat, writes: Writes)

  datatype Result<P> = Result(disk: Disk<P>, ok: bool)

  /** All of a publication. */
  function Publish<P>(d: Disk<P>, s: Snapshot<P>): Disk<P> {
    AddEntry(d.(live := Some(s)), s, ALL)
  }

  function Compiled<P>(d: Disk<P>, services: P, stamp: nat): Snapshot<P> {
    Snapshot(NextBuild(d), if d.live.None? then "1.0.0" else OrDefault(d.live.value.version), Some(services), stamp)
  }

  function Committed<P>(d: Disk<P>, payload: Option<P>, version: string, stamp: nat): Snapshot<P> {
    Snapshot(NextBuild(d), version, payload, stamp)
  }

  /**
   `ok` is the reported outcome. `addEntry` is asynchronous and nobody waits for it, so its failure
   is not reported; a manifest that cannot be written or an event that cannot be published is.
   */
  function Step<P>(d: Disk<P>, op: Op<P>): Result<P> {
    match op
    case Compile(services, stamp, w) =>
      var s := Compiled(d, services, stamp);
      if !w.live then Result(d, false)
      else if !w.manifest then Result(d.(live := Some(s)), false)
      else Result(AddEntry(d.(live := Some(s)), s, w), w.notify)
    case Commit(payload, version, stamp, w) =>
      var s := Committed(d, payload, version, stamp);
      if payload.None? || !w.live then Result(d, false) else Result(AddEntry(d.(live := Some(s)), s, w), true)
    case Rollback(b, w) =>
      var k := Find(d.index, b);
      if k == |d.index| || d.index[k].file !in d.backups then Result(d, false)
      else
        var s := d.backups[d.index[k].file];
        if s.services.None? || !w.live then Result(d, false) else Result(d.(live := Some(s)), w.notify)
  }

  function Run<P>(d: Disk<P>, ops: seq<Op<P>>): Disk<P>
    decreases |ops|
  {
    if ops == [] then d else Run(Step(d, ops[0]).disk, ops[1..])
  }

  /** The live file, the index file and the backup files, written in place. */
  class SnapshotStore<P> {
    var live: Option<Snapshot<P>>
    var index: seq<Entry>
    var backups: map<nat, Snapshot<P>>

    ghost function View(): Disk<P>
      reads this
    {
      Disk(live, index, backups)
    }

    constructor ()
      ensures View() == Disk(None, [], map[])
    {
      live, index, backups := None, [], map[];
    }

    method FindIndex(b: nat) returns (k: nat)
      ensures k == Find(index, b)
    {
      k := 0;
      while k < |index| && index[k].buildNumber != b
        invariant 0 <= k <= |index|
        invariant k + Find(index[k..], b) == Find(index, b)
      {
        assert index[k..][1..] == index[k + 1..];
        k := k + 1;
      }
    }

    method Record(s: Snapshot<P>, w: Writes)
      modifies this`index, this`backups
      ensures View() == AddEntry(old(View()), s, w)
    {
      if !w.backup {
        return;
      }
      backups := backups[s.buildNumber := s];
      var existing := FindIndex(s.buildNumber);
      if !w.index {
        return;
      }
      if existing < |index| {
        index := index[existing := EntryOf(s)];
      } else {
        index := index + [EntryOf(s)];
      }
    }

    /** The publishing half of `SnapshotCompiler.compile`. */
    method PublishCompiled(services: P, stamp: nat, w: Writes) returns (ok: bool)
      modifies this
      ensures Result(View(), ok) == Step(old(View()), Compile(services, stamp, w))
    {
      var buildNumber, version := 1, "1.0.0";
      if live.Some? {
        buildNumber := live.value.buildNumber + 1;
        version := if live.value.version == "" then "1.0.0" else live.value.version;
      }
      var s := Snapshot(buildNumber, version, Some(services), stamp);
      if !w.live {
        return false;
      }
      live := Some(s);
      if !w.manifest {
        return false;
      }
      Record(s, w);
      ok := w.notify;
    }

    /** `SnapshotManager.commit`; `ok` is false where the validator or the live write throws, with nothing changed. */
    method CommitServices(payload: Option<P>, version: string, stamp: nat, w: Writes) returns (ok: bool)
      modifies this
      ensures Result(View(), ok) == Step(old(View()), Commit(payload, version, stamp, w))
    {
      var previous := 0;
      if live.Some? {
        previous := live.value.buildNumber;
      }
      if payload.None? || !w.live {
        return false;
      }
      var s := Snapshot(previous + 1, version, payload, stamp);
      live := Some(s);
      Record(s, w);
      ok := true;
    }

    /** `SnapshotManager.rollback`. */
    method RollbackTo(b: nat, w: Writes) returns (ok: bool)
      modifies this`live
      ensures Result(View(), ok) == Step(old(View()), Rollback(b, w))
    {
      var k := FindIndex(b);
      if k == |index| {
        return false;
      }
      if index[k].file !in backups {
        return false;
      }
      var s := backups[index[k].file];
      if s.services.None? || !w.live {
        return false;
      }
      live := Some(s);
      ok := w.notify;
    }
  }

  // ---------------------------------------------------------------- the history invariant

  ghost predicate Consistent<P>(d: Disk<P>) {
    && (forall i :: 0 <= i < |d.index| ==> d.index[i].buildNumber == i + 1)
    && (forall b :: b in d.backups <==> 1 <= b <= |d.index|)
    && (forall b :: 1 <= b <= |d.index| ==>
          d.backups[b].buildNumber == b && d.backups[b].services.Some? && d.index[b - 1] == EntryOf(d.backups[b]))
    && (d.live.None? <==> d.index == [])
    && (d.live.Some? ==> d.live.value.buildNumber in d.backups
                         && d.backups[d.live.value.buildNumber] == d.live.value)
  }

  /**
   Publishing number `n` on a consistent history replaces entry `n` if there is one and appends it
   otherwise; every other entry and backup stays.
   */
  lemma PublishTouchesOneEntry<P>(d: Disk<P>, s: Snapshot<P>)
    requires Consistent(d) && s.services.Some? && s.buildNumber == NextBuild(d)
    ensures var e, n := Publish(d, s), s.buildNumber;
            && Consistent(e) && e.live == Some(s)
            && 1 <= n <= |d.index| + 1
            && e.index == (if n <= |d.index| then d.index[n - 1 := EntryOf(s)] else d.index + [EntryOf(s)])
            && e.backups == d.backups[n := s]
  {
    FoundAt(d, s.buildNumber);
    assert d.live.Some? ==> 1 <= d.live.value.buildNumber <= |d.index|;
  }

  lemma FoundAt<P>(d: Disk<P>, b: nat)
    requires Consistent(d)
    ensures Find(d.index, b) == if 1 <= b <= |d.index| then b - 1 else |d.index|
  {
    var k := Find(d.index, b);
    assert k < |d.index| ==> d.index[k].buildNumber == k + 1;
    assert 1 <= b <= |d.index| ==> d.index[b - 1].buildNumber == b;
  }

  /** Rolling back succeeds exactly for the builds in the history, if its writes do, and only moves the live file. */
  lemma RollbackIff<P>(d: Disk<P>, b: nat, w: Writes)
    requires Consistent(d)
    ensures var r := Step(d, Rollback(b, w));
            && Consistent(r.disk)
            && (r.ok <==> 1 <= b <= |d.index| && w.live && w.notify)
            && r.disk == if 1 <= b <= |d.index| && w.live then d.(live := Some(d.backups[b])) else d
  {
    FoundAt(d, b);
    if 1 <= b <= |d.index| {
      assert d.index[b - 1] == EntryOf(d.backups[b]);
    }
  }

  /** A compile after a rollback to `b` publishes number `b + 1`, in place of the old entry if there was one. */
  lemma CompileAfterRollback<P>(d: Disk<P>, b: nat, services: P, stamp: nat, w: Writes, x: Writes)
    requires Consistent(d) && 1 <= b <= |d.index|
    requires w.live && x.live && x.manifest && x.backup && x.index
    ensures var back := Step(d, Rollback(b, w)).disk;
            var e := Step(back, Compile(services, stamp, x)).disk;
            && e.live.Some? && e.live.value.buildNumber == b + 1 && e.live.value.services == Some(services)
            && e.backups == d.backups[b + 1 := e.live.value]
            && |e.index| == (if b < |d.index| then |d.index| else b + 1)
            && forall i :: 0 <= i < |d.index| && i != b ==> e.index[i] == d.index[i]
  {
    RollbackIff(d, b, w);
    var back := Step(d, Rollback(b, w)).disk;
    PublishTouchesOneEntry(back, Compiled(back, services, stamp));
  }

  /** The index describes the backups: number, version with `1.0.0` for none, stamp and file. */
  lemma IndexDescribesBackups<P>(d: Disk<P>, i: nat)
    requires Consistent(d) && i < |d.index|
    ensures i + 1 in d.backups
    ensures var b := d.backups[i + 1];
            && b.buildNumber == i + 1
            && d.index[i] == Entry(i + 1, if b.version == "" then "1.0.0" else b.version, b.stamp, i + 1)
  {
  }

  /** What a commit and a compile publish when every write goes through. */
  lemma PublishedSnapshots<P>(d: Disk<P>, payload: P, version: string, stamp: nat)
    ensures var n := if d.live.None? then 1 else d.live.value.buildNumber + 1;
            var c, k := Step(d, Commit(Some(payload), version, stamp, ALL)), Step(d, Compile(payload, stamp, ALL));
            && c.ok && c.disk.live == Some(Snapshot(n, version, Some(payload), stamp))
            && k.ok && k.disk.live
               == Some(Snapshot(n, if d.live.None? || d.live.value.version == "" then "1.0.0" else d.live.value.version,
                                Some(payload), stamp))
            && c.disk.backups == d.backups[n := c.disk.live.value]
            && k.disk.backups == d.backups[n := k.disk.live.value]
  {
  }

  // ---------------------------------------------------------------- failing writes

  ghost predicate AlreadyIndexed<P>(d: Disk<P>, s: Snapshot<P>) {
    Find(d.index, s.buildNumber) < |d.index| && d.index[Find(d.index, s.buildNumber)] == EntryOf(s)
  }

  ghost predicate AlreadyBackedUp<P>(d: Disk<P>, s: Snapshot<P>) {
    s.buildNumber in d.backups && d.backups[s.buildNumber] == s
  }

  /** Backup and index entry of a snapshot are written, or were there before. */
  ghost predicate Recorded<P>(d: Disk<P>, s: Snapshot<P>, w: Writes) {
    (w.backup || AlreadyBackedUp(d, s)) && ((w.backup && w.index) || AlreadyIndexed(d, s))
  }

  lemma RecordedIff<P>(d: Disk<P>, s: Snapshot<P>, w: Writes)
    ensures AddEntry(d, s, w) == AddEntry(d, s, ALL) <==> Recorded(d, s, w)
  {
    var k := Find(d.index, s.buildNumber);
    if AlreadyIndexed(d, s) {
      assert Indexed(d.index, s) == d.index;
    }
    if Indexed(d.index, s) == d.index && k < |d.index| {
      assert Indexed(d.index, s)[k] == EntryOf(s);
    }
    if AlreadyBackedUp(d, s) {
      assert d.backups[s.buildNumber := s] == d.backups;
    }
    if d.backups[s.buildNumber := s] == d.backups {
      assert s.buildNumber in d.backups[s.buildNumber := s];
    }
  }

  /** The writes of a compile that reach the history. */
  function Reaching(w: Writes): Writes {
    w.(backup := w.manifest && w.backup)
  }

  /** Either nothing is written, or all of the live file, the backup and the index entry. */
  ghost predicate Whole<P>(d: Disk<P>, op: Op<P>) {
    match op
    case Compile(services, stamp, w) => !w.live || Recorded(d, Compiled(d, services, stamp), Reaching(w))
    case Commit(payload, version, stamp, w) =>
      payload.None? || !w.live || Recorded(d, Committed(d, payload, version, stamp), w)
    case Rollback(_, _) => true
  }

  lemma PartialPublish<P>(d: Disk<P>, s: Snapshot<P>, w: Writes)
    requires Consistent(d) && s.services.Some? && s.buildNumber == NextBuild(d)
    ensures Consistent(AddEntry(d.(live := Some(s)), s, w)) <==> Recorded(d, s, w)
  {
    var live := d.(live := Some(s));
    var e := AddEntry(live, s, w);
    RecordedIff(live, s, w);
    PublishTouchesOneEntry(d, s);
    FoundAt(d, s.buildNumber);
    if Consistent(e) {
      assert s.buildNumber in e.backups && e.backups[s.buildNumber] == s;
      assert e.index[s.buildNumber - 1] == EntryOf(s);
    }
  }

  /** An operation keeps the history consistent exactly when it is written whole or not at all. */
  lemma StepConsistentIff<P>(d: Disk<P>, op: Op<P>)
    requires Consistent(d)
    ensures Consistent(Step(d, op).disk) <==> Whole(d, op)
  {
    match op {
      case Compile(services, stamp, w) => PartialPublish(d, Compiled(d, services, stamp), Reaching(w));
      case Commit(payload, version, stamp, w) =>
        if payload.Some? {
          PartialPublish(d, Committed(d, payload, version, stamp), w);
        }
      case Rollback(b, w) => RollbackIff(d, b, w);
    }
  }

  ghost predicate AlwaysConsistent<P>(d: Disk<P>, ops: seq<Op<P>>)
    decreases |ops|
  {
    Consistent(d) && (ops == [] || AlwaysConsistent(Step(d, ops[0]).disk, ops[1..]))
  }

  ghost predicate AllWhole<P>(d: Disk<P>, ops: seq<Op<P>>)
    decreases |ops|
  {
    ops == [] || (Whole(d, ops[0]) && AllWhole(Step(d, ops[0]).disk, ops[1..]))
  }

  /** Over every run: the history stays consistent exactly when each operation is written whole or not at all. */
  lemma {:induction false} AlwaysConsistentIff<P>(d: Disk<P>, ops: seq<Op<P>>)
    requires Consistent(d)
    ensures AlwaysConsistent(d, ops) <==> AllWhole(d, ops)
    decreases |ops|
  {
    if ops == [] {
    } else {
      StepConsistentIff(d, ops[0]);
      if Whole(d, ops[0]) {
        AlwaysConsistentIff(Step(d, ops[0]).disk, ops[1..]);
      }
    }
  }

  /**
   Publish or nothing: a compile reports success with everything published, or failure with nothing
   changed, exactly when nothing fails or the first write does.
   */
  lemma PublishOrNothingIff<P>(d: Disk<P>, services: P, stamp: nat, w: Writes)
    ensures var s := Compiled(d, services, stamp);
            var r := Step(d, Compile(services, stamp, w));
            && ((r.ok && r.disk == Publish(d, s)) || (!r.ok && r.disk == d)
                <==> !w.live || (w.manifest && w.notify && Recorded(d, s, w)))
  {
    var s := Compiled(d, services, stamp);
    RecordedIff(d.(live := Some(s)), s, w);
    assert d.live != Some(s);
  }

  /** A commit whose backup cannot be written reports success, and its build can never be rolled back to. */
  lemma CommittedWithoutBackup<P>(payload: P, version: string, stamp: nat, w: Writes)
    requires w.live && !w.backup
    ensures var r := Step(Disk<P>.Disk(None, [], map[]), Commit(Some(payload), version, stamp, w));
            && r.ok && r.disk.live.Some? && r.disk.live.value.buildNumber == 1
            && !Step(r.disk, Rollback(1, ALL)).ok
  {
  }

  // ---------------------------------------------------------------- what a rollback brings back

  /** The snapshot one operation writes to the history: as a backup, and as an index entry if `listed`. */
  function WrittenBy<P>(d: Disk<P>, op: Op<P>, listed: bool): seq<Snapshot<P>> {
    match op
    case Compile(services, stamp, w) =>
      if w.live && w.manifest && w.backup && (listed ==> w.index) then [Compiled(d, services, stamp)] else []
    case Commit(payload, version, stamp, w) =>
      if payload.Some? && w.live && w.backup && (listed ==> w.index)
      then [Committed(d, payload, version, stamp)] else []
    case Rollback(_, _) => []
  }

  /** The snapshots that a run writes to the history, in order. */
  function Written<P>(d: Disk<P>, ops: seq<Op<P>>, listed: bool): seq<Snapshot<P>>
    decreases |ops|
  {
    if ops == [] then [] else WrittenBy(d, ops[0], listed) + Written(Step(d, ops[0]).disk, ops[1..], listed)
  }

  /** The newest snapshot with number `b`, if there is one. */
  function Newest<P>(written: seq<Snapshot<P>>, b: nat): Option<Snapshot<P>>
    decreases |written|
  {
    if written == [] then None
    else if written[|written| - 1].buildNumber == b then Some(written[|written| - 1])
    else Newest(written[..|written| - 1], b)
  }

  lemma {:induction false} NewestConcat<P>(a: seq<Snapshot<P>>, c: seq<Snapshot<P>>, b: nat)
    ensures Newest(a + c, b) == if Newest(c, b).Some? then Newest(c, b) else Newest(a, b)
    decreases |c|
  {
    if c == [] {
      assert a + c == a;
    } else {
      assert (a + c)[..|a + c| - 1] == a + c[..|c| - 1];
      NewestConcat(a, c[..|c| - 1], b);
    }
  }

  lemma NewestAppend<P>(a: seq<Snapshot<P>>, s: Snapshot<P>, b: nat)
    ensures Newest(a + [s], b) == if s.buildNumber == b then Some(s) else Newest(a, b)
  {
    assert (a + [s])[..|a + [s]| - 1] == a;
  }

  /** The backups are the newest snapshots written, the index lists those whose entry was written too. */
  ghost predicate Holds<P>(d: Disk<P>, backedUp: seq<Snapshot<P>>, listed: seq<Snapshot<P>>) {
    && (forall b :: Newest(backedUp, b) == if b in d.backups then Some(d.backups[b]) else None)
    && (forall b :: b in d.backups ==> d.backups[b].services.Some?)
    && (forall b :: Newest(listed, b).Some? <==> Find(d.index, b) < |d.index|)
    && (forall i :: 0 <= i < |d.index| ==> d.index[i].file == d.index[i].buildNumber && d.index[i].file in d.backups)
  }

  lemma IndexedFind<P>(index: seq<Entry>, s: Snapshot<P>, b: nat)
    ensures Find(Indexed(index, s), b) < |Indexed(index, s)| <==> b == s.buildNumber || Find(index, b) < |index|
  {
    var x, k := Indexed(index, s), Find(index, s.buildNumber);
    assert x[k] == EntryOf(s);
    if Find(index, b) < |index| && b != s.buildNumber {
      assert x[Find(index, b)].buildNumber == b;
    }
    if Find(x, b) < |x| && b != s.buildNumber {
      assert index[Find(x, b)].buildNumber == b;
    }
  }

  lemma AddEntryHolds<P>(d: Disk<P>, backedUp: seq<Snapshot<P>>, listed: seq<Snapshot<P>>, s: Snapshot<P>, w: Writes)
    requires Holds(d, backedUp, listed) && s.services.Some? && w.backup
    ensures Holds(AddEntry(d, s, w), backedUp + [s], if w.index then listed + [s] else listed)
  {
    var e := AddEntry(d, s, w);
    forall b ensures Newest(backedUp + [s], b) == if b in e.backups then Some(e.backups[b]) else None {
      NewestAppend(backedUp, s, b);
    }
    if w.index {
      forall b ensures Newest(listed + [s], b).Some? <==> Find(e.index, b) < |e.index| {
        NewestAppend(listed, s, b);
        IndexedFind(d.index, s, b);
      }
    }
  }

  lemma StepHolds<P>(d: Disk<P>, backedUp: seq<Snapshot<P>>, listed: seq<Snapshot<P>>, op: Op<P>)
    requires Holds(d, backedUp, listed)
    ensures Holds(Step(d, op).disk, backedUp + WrittenBy(d, op, false), listed + WrittenBy(d, op, true))
  {
    assert backedUp + [] == backedUp && listed + [] == listed;
    match op {
      case Compile(services, stamp, w) =>
        if w.live && w.manifest && w.backup {
          var s := Compiled(d, services, stamp);
          AddEntryHolds(d.(live := Some(s)), backedUp, listed, s, w);
        }
      case Commit(payload, version, stamp, w) =>
        if payload.Some? && w.live && w.backup {
          var s := Committed(d, payload, version, stamp);
          AddEntryHolds(d.(live := Some(s)), backedUp, listed, s, w);
        }
      case Rollback(_, _) =>
    }
  }

  lemma Assoc<T>(a: seq<T>, b: seq<T>, c: seq<T>)
    ensures a + b + c == a + (b + c)
  {
  }

  lemma {:induction false} RunHolds<P>(d: Disk<P>, backedUp: seq<Snapshot<P>>, listed: seq<Snapshot<P>>,
                                       ops: seq<Op<P>>)
    requires Holds(d, backedUp, listed)
    ensures Holds(Run(d, ops), backedUp + Written(d, ops, false), listed + Written(d, ops, true))
    decreases |ops|
  {
    if ops == [] {
      assert backedUp + [] == backedUp && listed + [] == listed;
    } else {
      var next, x, y := Step(d, ops[0]).disk, WrittenBy(d, ops[0], false), WrittenBy(d, ops[0], true);
      StepHolds(d, backedUp, listed, ops[0]);
      RunHolds(next, backedUp + x, listed + y, ops[1..]);
      Assoc(backedUp, x, Written(next, ops[1..], false));
      Assoc(listed, y, Written(next, ops[1..], true));
    }
  }

  lemma RollbackFinds<P>(d: Disk<P>, backedUp: seq<Snapshot<P>>, listed: seq<Snapshot<P>>, b: nat, w: Writes)
    requires Holds(d, backedUp, listed)
    ensures var r := Step(d, Rollback(b, w));
            var found := Newest(listed, b).Some?;
            && (r.ok <==> found && w.live && w.notify)
            && r.disk == (if found && w.live then d.(live := Newest(backedUp, b)) else d)
  {
    var k := Find(d.index, b);
    if k < |d.index| {
      assert d.index[k].file == b && Newest(backedUp, b) == Some(d.backups[b]);
    }
  }

  /**
   The history over every run of compiles, commits and rollbacks from empty directories, whichever
   writes fail: a rollback to `b` brings back the newest snapshot ever backed up with that number if
   one was ever listed, and fails otherwise. When every operation was written whole or not at all,
   entry `i` carries build number `i + 1` and the live file is the backup stored under its own number.
   */
  lemma HistoryOverRuns<P>(ops: seq<Op<P>>, b: nat, w: Writes)
    ensures var empty := Disk<P>.Disk(None, [], map[]);
            var d := Run(empty, ops);
            var r := Step(d, Rollback(b, w));
            var found := Newest(Written(empty, ops, true), b).Some?;
            && (r.ok <==> found && w.live && w.notify)
            && r.disk == (if found && w.live then d.(live := Newest(Written(empty, ops, false), b)) else d)
            && (AllWhole(empty, ops) ==> Consistent(d))
  {
    var empty := Disk<P>.Disk(None, [], map[]);
    var backedUp, listed := Written(empty, ops, false), Written(empty, ops, true);
    RunHolds(empty, [], [], ops);
    assert [] + backedUp == backedUp && [] + listed == listed;
    RollbackFinds(Run(empty, ops), backedUp, listed, b, w);
    if AllWhole(empty, ops) {
      AlwaysConsistentIff(empty, ops);
      LastConsistent(empty, ops);
    }
  }

  lemma {:induction false} LastConsistent<P>(d: Disk<P>, ops: seq<Op<P>>)
    requires AlwaysConsistent(d, ops)
    ensures Consistent(Run(d, ops))
    decreases |ops|
  {
    if ops == [] {
    } else {
      LastConsistent(Step(d, ops[0]).disk, ops[1..]);
    }
  }
}
