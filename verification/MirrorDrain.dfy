/** Consequences of the protocol invariant: telling own writes from foreign ones, what happens to
    objects the controller does not manage, and the work queue running empty. */
module MirrorDrain {
  import opened Text
  import opened Kube
  import opened ConfigMirror
  import opened MirrorProtocol

  // ---------------------------------------------------------------- own writes and foreign writes

  /** In every run: the recorded last generation of a managed object is never its own version, the
      event of an update the controller wrote is filtered out, and the event of a foreign edit,
      of an own create and of an own delete comes through. */
  lemma EventsTellWritersApart(envs: seq<string>, run: seq<System>, name: string, s: Step)
    requires envs != [] && IsRun(envs, run) && name in run[|run| - 1].cells
    requires Enabled(run[|run| - 1].cells[name], s) && (s.ForeignEdit? || s.Finish?)
    ensures var now := run[|run| - 1];
            var c := now.cells[name];
            var d := Next(envs, now.clocks, c, s).1;
            var before, after := LocalView(c.local), LocalView(d.local);
            && (before.Some? ==> Lookup(before.value.annotations, LAST_GENERATION) != VersionString(before.value.rv))
            && (c.local != d.local && (before.Some? || after.Some?) ==>
                  (LocalPasses(before, after) <==> !(s.Finish? && before.Some? && after.Some?)))
  {
    RunKeepsInv(envs, run);
    var now := run[|run| - 1];
    var c := now.cells[name];
    assert Inv(envs, now.clocks, c);
    var before := LocalView(c.local);
    if before.Some? {
      assert before == LocalChain(c)[|c.localWatch|];
      assert LocalVersionOk(now.clocks, c, before.value);
    }
    if s.Finish? {
      OwnEvents(envs, now.clocks, c);
    } else if before.Some? || LocalView(s.next).Some? {
      ForeignEditIsSeen(now.clocks, c, s.next);
    }
  }

  /** The one kind of foreign edit that the protocol has to exclude: from any quiet name, an edit that
      leaves a managed object without annotations, as putting the label on a bare object does,
      is never noticed, and the clusters always disagree afterwards. */
  lemma BareEditIsLost(envs: seq<string>, k: Clocks, c: Cell, next: Version)
    requires envs != [] && Inv(envs, k, c) && Quiet(c) && IsBare(next)
    ensures var d := StoreLocal(c, AtVersion(next, k.local));
            && Enabled(d, DeliverLocal)
            && var e := Next(envs, k.(local := k.local + 1), d, DeliverLocal).1;
               Quiet(e) && !Agree(RemoteView(envs, e.remote), LocalView(e.local))
  {
    var d := StoreLocal(c, AtVersion(next, k.local));
    assert LocalChain(c)[0] == LocalView(c.local);
    assert d.localWatch == [LocalView(AtVersion(next, k.local))];
    KeysDiffer();
    if RemoteView(envs, c.remote).Some? {
      var r := c.remote.value;
      assert LAST_REMOTE_GENERATION in r.annotations[LAST_REMOTE_GENERATION := VersionString(r.rv)] - {LAST_GENERATION};
    }
  }

  /** What the filter makes of the controller's own writes. */
  lemma OwnEvents(envs: seq<string>, k: Clocks, c: Cell)
    requires envs != [] && WorkerOk(envs, k, c) && c.worker.GotBoth?
    ensures var d := Next(envs, k, c, Finish).1;
            var before, after := LocalView(c.local), LocalView(d.local);
            c.local != d.local && (before.Some? || after.Some?) ==>
              (LocalPasses(before, after) <==> before.None? || after.None?)
  {
    var d := Next(envs, k, c, Finish).1;
    FinishCases(envs, k, c);
    if c.local != d.local && d.local.Some? {
      var dst := if c.local.None? then BLANK else c.worker.local.value;
      WritesMirror(c.worker.remote.value, dst);
      OwnWriteEvents(c.worker.remote.value, LocalView(c.local), dst, k.local);
    }
  }

  // ---------------------------------------------------------------- objects that are not managed

  /** In every run: whatever Finish stores is managed; an object without the managed label is
      touched exactly when the reconcile read no remote object but a local one, which is then out of
      date. Creates and updates never touch it, however late they come. */
  lemma UnmanagedObjects(envs: seq<string>, run: seq<System>, name: string)
    requires envs != [] && IsRun(envs, run) && name in run[|run| - 1].cells
    requires run[|run| - 1].cells[name].worker.GotBoth?
    ensures var now := run[|run| - 1];
            var c := now.cells[name];
            var d := Next(envs, now.clocks, c, Finish).1;
            && (d.local != c.local && d.local.Some? ==> IsManaged(d.local.value.labels))
            && (c.local.Some? && !IsManaged(c.local.value.labels) ==>
                  && (d.local != c.local <==> c.worker.remote.None? && c.worker.local.Some?)
                  && (d.local != c.local ==> c.worker.local != LocalView(c.local)))
  {
    RunKeepsInv(envs, run);
    var now := run[|run| - 1];
    var c := now.cells[name];
    assert Inv(envs, now.clocks, c);
    FinishCases(envs, now.clocks, c);
    var d := Next(envs, now.clocks, c, Finish).1;
    if d.local != c.local && d.local.Some? {
      WritesMirror(c.worker.remote.value, if c.local.None? then BLANK else c.worker.local.value);
    }
  }

  function Follow(envs: seq<string>, k: Clocks, c: Cell, steps: seq<Step>): Option<(Clocks, Cell)>
    decreases |steps|
  {
    if steps == [] then Some((k, c))
    else if !Enabled(c, steps[0]) then None
    else var (k', d) := Next(envs, k, c, steps[0]); Follow(envs, k', d, steps[1..])
  }

  lemma {:induction false} FollowOneMore(envs: seq<string>, k: Clocks, c: Cell, steps: seq<Step>, s: Step)
    requires Follow(envs, k, c, steps).Some? && Enabled(Follow(envs, k, c, steps).value.1, s)
    ensures var (k', d) := Follow(envs, k, c, steps).value;
            Follow(envs, k, c, steps + [s]) == Some(Next(envs, k', d, s))
    decreases |steps|
  {
    if steps == [] {
      assert [s][1..] == [];
    } else {
      var (k', d) := Next(envs, k, c, steps[0]);
      FollowOneMore(envs, k', d, steps[1..], s);
      assert (steps + [s])[1..] == steps[1..] + [s];
    }
  }

  lemma {:induction false} FollowBoth(envs: seq<string>, k: Clocks, c: Cell, first: seq<Step>, second: seq<Step>)
    requires Follow(envs, k, c, first).Some?
    ensures var (k', d) := Follow(envs, k, c, first).value;
            Follow(envs, k, c, first + second) == Follow(envs, k', d, second)
    decreases |first|
  {
    if first == [] {
      assert first + second == second;
    } else {
      var (k', d) := Next(envs, k, c, first[0]);
      FollowBoth(envs, k', d, first[1..], second);
      assert (first + second)[1..] == first[1..] + second;
    }
  }

  const READING: seq<Step> := [Take, ReadRemote, ReadLocal]

  lemma ReadsCaches(envs: seq<string>, k: Clocks, c: Cell)
    requires c.queued && c.worker.Idle?
    ensures Follow(envs, k, c, READING) ==
            Some((k, c.(queued := false, worker := GotBoth(c.remoteCache, c.localCache))))
  {
    FollowOneMore(envs, k, c, [], Take);
    FollowOneMore(envs, k, c, [] + [Take], ReadRemote);
    FollowOneMore(envs, k, c, [] + [Take] + [ReadRemote], ReadLocal);
    assert [] + [Take] + [ReadRemote] + [ReadLocal] == READING;
  }

  lemma EditIsDelivered(envs: seq<string>, k: Clocks, c: Cell, next: Version)
    requires Quiet(c) && c.remoteCache == RemoteView(envs, c.remote) && c.remoteCache.Some?
    requires c.remoteCache.value.rv < k.remote
    ensures var n := AtVersion(next, k.remote);
            Follow(envs, k, c, [RemoteEdit(next), DeliverRemote]) ==
            Some((k.(remote := k.remote + 1), c.(remote := n, remoteCache := RemoteView(envs, n), queued := true)))
  {
    var n := AtVersion(next, k.remote);
    var (k1, c1) := Next(envs, k, c, RemoteEdit(next));
    assert c1 == c.(remote := n, remoteWatch := [RemoteView(envs, n)]);
    assert RemotePasses(envs, c1.remoteCache, RemoteView(envs, n));
    var (k2, c2) := Next(envs, k1, c1, DeliverRemote);
    assert [RemoteView(envs, n)][1..] == [] == c.remoteWatch;
    assert c2 == c.(remote := n, remoteCache := RemoteView(envs, n), queued := true);
    FollowOneMore(envs, k, c, [], RemoteEdit(next));
    FollowOneMore(envs, k, c, [] + [RemoteEdit(next)], DeliverRemote);
    assert [] + [RemoteEdit(next)] + [DeliverRemote] == [RemoteEdit(next), DeliverRemote];
  }

  /** After a remote edit the worker of a quiet mirrored name gets to hold the edited object. */
  lemma EditIsRead(envs: seq<string>, k: Clocks, c: Cell, next: Version)
    requires envs != [] && Inv(envs, k, c) && Quiet(c) && RemoteView(envs, c.remote).Some?
    ensures var n := AtVersion(next, k.remote);
            Follow(envs, k, c, [RemoteEdit(next), DeliverRemote] + READING) ==
            Some((k.(remote := k.remote + 1),
                  c.(remote := n, remoteCache := RemoteView(envs, n),
                     worker := GotBoth(RemoteView(envs, n), LocalView(c.local)))))
  {
    assert c.remoteCache == RemoteChain(c)[0] && c.localCache == LocalChain(c)[0];
    EditIsDelivered(envs, k, c, next);
    var (k2, c2) := Follow(envs, k, c, [RemoteEdit(next), DeliverRemote]).value;
    ReadsCaches(envs, k2, c2);
    FollowBoth(envs, k, c, [RemoteEdit(next), DeliverRemote], READING);
  }

  const REMOTE_DELETED: seq<Step> := [RemoteEdit(None), DeliverRemote] + READING

  /** A reconcile that read a local object, but no remote one, deletes whatever is there now. */
  lemma DeletesWhatItFinds(envs: seq<string>, k: Clocks, c: Cell)
    requires c.worker.GotBoth? && c.worker.remote.None? && c.worker.local.Some?
    ensures Next(envs, k, c, Finish).1.local == None
  {
  }

  /** The delete without a version does reach such an object: from any quiet mirrored name, take
      the managed label off after the reconcile that follows a remote delete has read the object. */
  lemma LabelTakenOffTooLate(envs: seq<string>, k: Clocks, c: Cell, unlabelled: ConfigMap)
    requires envs != [] && Inv(envs, k, c) && Quiet(c)
    requires RemoteView(envs, c.remote).Some?
    requires !IsManaged(unlabelled.labels) && LeavesVersionsAlone(c.local, Some(unlabelled))
    ensures var before := REMOTE_DELETED + [ForeignEdit(Some(unlabelled))];
            && Follow(envs, k, c, before).Some?
            && Follow(envs, k, c, before).value.1.local == AtVersion(Some(unlabelled), k.local)
            && Follow(envs, k, c, before + [Finish]).Some?
            && Follow(envs, k, c, before + [Finish]).value.1.local == None
  {
    EditIsRead(envs, k, c, None);
    assert Agree(RemoteView(envs, c.remote), LocalView(c.local));
    var (k4, c4) := Follow(envs, k, c, REMOTE_DELETED).value;
    var s := ForeignEdit(Some(unlabelled));
    assert Enabled(c4, s);
    FollowOneMore(envs, k, c, REMOTE_DELETED, s);
    var (k5, c5) := Next(envs, k4, c4, s);
    assert c5.worker == c4.worker && c5.local == AtVersion(Some(unlabelled), k.local);
    FollowOneMore(envs, k, c, REMOTE_DELETED + [s], Finish);
    DeletesWhatItFinds(envs, k5, c5);
  }

  // ---------------------------------------------------------------- the queue runs empty

  /** An object of the same name that is not managed stands where the mirror should go. */
  predicate Blocked(envs: seq<string>, c: Cell) {
    c.local.Some? && !IsManaged(c.local.value.labels) && RemoteView(envs, c.remote).Some?
  }

  /** How often the local object can still come and go, given what is left to see of the remote. */
  function Flips(present: bool, remotes: seq<Version>): nat
    decreases |remotes|
  {
    if remotes == [] then 0
    else (if present != remotes[0].Some? then 1 else 0) + Flips(remotes[0].Some?, remotes[1..])
  }

  function RemotesAhead(c: Cell): seq<Version> {
    (if HasRemote(c.worker) then [c.worker.remote] else []) + RemoteChain(c)
  }

  function EventWork(before: Version, after: Version): nat {
    if LocalPasses(before, after) then 14 else 5
  }

  function WatchWork(before: Version, watch: seq<Version>): nat
    decreases |watch|
  {
    if watch == [] then 0 else EventWork(before, watch[0]) + WatchWork(watch[0], watch[1..])
  }

  function WorkerWork(c: Cell): nat {
    match c.worker
    case Idle => 0
    case Taken => 8
    case GotRemote(_) => 7
    case GotBoth(_, _) => 6
  }

  /** No event is on its way, so the caches have caught up. */
  predicate IsDelivered(c: Cell) {
    c.remoteWatch == [] && c.localWatch == []
  }

  /** The worker holds something that is not what the API servers store. */
  predicate IsOutdated(envs: seq<string>, c: Cell) {
    match c.worker
    case Idle => false
    case Taken => false
    case GotRemote(r) => r != RemoteView(envs, c.remote)
    case GotBoth(r, l) => r != RemoteView(envs, c.remote) || l != LocalView(c.local)
  }

  /** What is left to do on one name if nobody else interferes. Every event pays for a reconcile that
      it may turn out to have overtaken. */
  function Work(envs: seq<string>, c: Cell): nat {
    9 * Flips(c.local.Some?, RemotesAhead(c)) + 14 * |c.remoteWatch| + WatchWork(c.localCache, c.localWatch)
    + (if c.queued then 9 else 0) + WorkerWork(c) + (if IsDelivered(c) && IsOutdated(envs, c) then 4 else 0)
  }

  lemma {:induction false} WatchWorkAppend(before: Version, watch: seq<Version>, after: Version)
    ensures WatchWork(before, watch + [after]) ==
            WatchWork(before, watch) + EventWork(([before] + watch)[|watch|], after)
    decreases |watch|
  {
    if watch == [] {
      assert [after][1..] == [];
    } else {
      WatchWorkAppend(watch[0], watch[1..], after);
      assert (watch + [after])[1..] == watch[1..] + [after];
      assert ([watch[0]] + watch[1..])[|watch| - 1] == ([before] + watch)[|watch|];
    }
  }

  /** A step of the controller or of its caches. */
  predicate ControllerStep(c: Cell, s: Step) {
    Enabled(c, s) && (s.DeliverRemote? || s.DeliverLocal? || s.Take? || s.ReadRemote? || s.ReadLocal? || s.Finish?)
  }

  /** A reconcile that ends in a failed write, and is retried, while an event is on its way. */
  predicate IsStarved(envs: seq<string>, k: Clocks, c: Cell, s: Step) {
    && s.Finish? && c.worker.GotBoth?
    && !IsDelivered(c)
    && var action := Decide(Some(envs), c.worker.remote, c.worker.local);
       Retried(action, Apply(c.local, k.local, action).2)
  }

  lemma DropSecondFlip(present: bool, a: Version, rest: seq<Version>)
    requires rest != []
    ensures Flips(present, [a] + rest) >= Flips(present, rest)
  {
    assert ([a] + rest)[1..] == rest;
  }

  /** Unless something stands in the way, only a reconcile that holds outdated objects fails. */
  lemma FailsOnlyOutdated(envs: seq<string>, k: Clocks, c: Cell)
    requires envs != [] && WorkerOk(envs, k, c) && c.worker.GotBoth? && !Blocked(envs, c)
    ensures var action := Decide(Some(envs), c.worker.remote, c.worker.local);
            Retried(action, Apply(c.local, k.local, action).2) ==> IsOutdated(envs, c)
  {
    FinishCases(envs, k, c);
  }

  lemma FinishWithoutWriteWorks(envs: seq<string>, k: Clocks, c: Cell)
    requires envs != [] && WorkerOk(envs, k, c) && c.worker.GotBoth? && !Blocked(envs, c)
    requires Next(envs, k, c, Finish).1.local == c.local
    ensures Work(envs, Next(envs, k, c, Finish).1) < Work(envs, c) + if IsStarved(envs, k, c, Finish) then 4 else 0
  {
    var d := Next(envs, k, c, Finish).1;
    FinishCases(envs, k, c);
    FailsOnlyOutdated(envs, k, c);
    assert d == c.(worker := Idle, queued := d.queued);
    assert RemotesAhead(c) == [c.worker.remote] + RemoteChain(c) && RemotesAhead(d) == RemoteChain(c);
    DropSecondFlip(c.local.Some?, c.worker.remote, RemoteChain(c));
  }

  lemma FinishWithWriteWorks(envs: seq<string>, k: Clocks, c: Cell)
    requires envs != [] && LocalOk(k, c) && WorkerOk(envs, k, c) && c.worker.GotBoth?
    requires Next(envs, k, c, Finish).1.local != c.local
    ensures Work(envs, Next(envs, k, c, Finish).1) < Work(envs, c)
  {
    var d := Next(envs, k, c, Finish).1;
    var r, l := c.worker.remote, c.worker.local;
    FinishCases(envs, k, c);
    var before, after := LocalView(c.local), LocalView(d.local);
    assert d.queued == c.queued && |d.remoteWatch| == |c.remoteWatch|;
    assert WatchWork(d.localCache, d.localWatch) <=
           WatchWork(c.localCache, c.localWatch) + if d.local.Some? && c.local.Some? then 5 else 14 by {
      assert before == LocalChain(c)[|c.localWatch|];
      WatchWorkAppend(c.localCache, c.localWatch, after);
      if d.local.Some? {
        var dst := if c.local.None? then BLANK else l.value;
        WritesMirror(r.value, dst);
        OwnWriteEvents(r.value, before, dst, k.local);
      }
    }
    assert Flips(d.local.Some?, RemotesAhead(d)) <=
           Flips(c.local.Some?, RemotesAhead(c)) - if d.local.Some? && c.local.Some? then 0 else 1 by {
      assert RemotesAhead(c) == [r] + RemoteChain(c) && RemotesAhead(d) == RemoteChain(c);
      assert RemotesAhead(c)[1..] == RemoteChain(c);
    }
  }

  lemma DeliverRemoteWorks(envs: seq<string>, k: Clocks, c: Cell)
    requires c.remoteWatch != []
    ensures Work(envs, Next(envs, k, c, DeliverRemote).1) < Work(envs, c)
  {
    var d := Next(envs, k, c, DeliverRemote).1;
    var w := c.remoteWatch;
    assert Flips(d.local.Some?, RemotesAhead(d)) <= Flips(c.local.Some?, RemotesAhead(c)) by {
      assert RemoteChain(c) == [c.remoteCache] + w && RemoteChain(d) == w;
      if !HasRemote(c.worker) {
        DropSecondFlip(c.local.Some?, c.remoteCache, w);
        assert RemotesAhead(c) == [c.remoteCache] + w && RemotesAhead(d) == w;
      } else {
        DropSecondFlip(c.worker.remote.Some?, c.remoteCache, w);
        assert RemotesAhead(c)[1..] == [c.remoteCache] + w && RemotesAhead(d)[1..] == w;
      }
    }
  }

  lemma DeliverLocalWorks(envs: seq<string>, k: Clocks, c: Cell)
    requires c.localWatch != []
    ensures Work(envs, Next(envs, k, c, DeliverLocal).1) < Work(envs, c)
  {
    var d := Next(envs, k, c, DeliverLocal).1;
    assert RemotesAhead(d) == RemotesAhead(c);
  }

  lemma TakeWorks(envs: seq<string>, k: Clocks, c: Cell)
    requires Enabled(c, Take)
    ensures Work(envs, Next(envs, k, c, Take).1) < Work(envs, c)
  {
    assert RemotesAhead(Next(envs, k, c, Take).1) == RemotesAhead(c);
  }

  lemma CachesCatchUp(envs: seq<string>, k: Clocks, c: Cell)
    requires RemoteOk(envs, k, c) && LocalOk(k, c)
    ensures c.remoteWatch == [] ==> c.remoteCache == RemoteView(envs, c.remote)
    ensures c.localWatch == [] ==> c.localCache == LocalView(c.local)
  {
    assert RemoteChain(c)[|c.remoteWatch|] == RemoteView(envs, c.remote);
    assert LocalChain(c)[|c.localWatch|] == LocalView(c.local);
  }

  lemma ReadRemoteWorks(envs: seq<string>, k: Clocks, c: Cell)
    requires Enabled(c, ReadRemote)
    requires c.remoteWatch == [] ==> c.remoteCache == RemoteView(envs, c.remote)
    ensures Work(envs, Next(envs, k, c, ReadRemote).1) < Work(envs, c)
  {
    var d := Next(envs, k, c, ReadRemote).1;
    assert RemotesAhead(d) == [c.remoteCache] + RemotesAhead(c) && RemotesAhead(c)[0] == c.remoteCache;
    ReadTwice(c.local.Some?, RemotesAhead(c));
  }

  lemma ReadLocalWorks(envs: seq<string>, k: Clocks, c: Cell)
    requires Enabled(c, ReadLocal)
    requires c.localWatch == [] ==> c.localCache == LocalView(c.local)
    ensures Work(envs, Next(envs, k, c, ReadLocal).1) < Work(envs, c)
  {
    assert RemotesAhead(Next(envs, k, c, ReadLocal).1) == RemotesAhead(c);
  }

  lemma ReadTwice(present: bool, remotes: seq<Version>)
    requires remotes != []
    ensures Flips(present, [remotes[0]] + remotes) == Flips(present, remotes)
  {
    var twice := [remotes[0]] + remotes;
    assert twice[1..] == remotes;
    assert Flips(present, twice) == (if present != remotes[0].Some? then 1 else 0) + Flips(remotes[0].Some?, remotes);
    assert Flips(remotes[0].Some?, remotes) == Flips(remotes[0].Some?, remotes[1..]);
  }

  /** Every step does some of the work, but for the reconciles that fail while an event is on its
      way: these give back what taking the name and reading the two objects had done, and no more. */
  lemma StepDoesWork(envs: seq<string>, k: Clocks, c: Cell, s: Step)
    requires envs != [] && Inv(envs, k, c) && ControllerStep(c, s) && !Blocked(envs, c)
    ensures Work(envs, Next(envs, k, c, s).1) < Work(envs, c) + if IsStarved(envs, k, c, s) then 4 else 0
  {
    CachesCatchUp(envs, k, c);
    match s {
      case DeliverRemote => DeliverRemoteWorks(envs, k, c);
      case DeliverLocal => DeliverLocalWorks(envs, k, c);
      case Take => TakeWorks(envs, k, c);
      case ReadRemote => ReadRemoteWorks(envs, k, c);
      case ReadLocal => ReadLocalWorks(envs, k, c);
      case Finish =>
        if Next(envs, k, c, s).1.local == c.local {
          FinishWithoutWriteWorks(envs, k, c);
        } else {
          FinishWithWriteWorks(envs, k, c);
        }
    }
  }

  /** The controller's own steps never put something in its way. */
  lemma NeverBecomesBlocked(envs: seq<string>, k: Clocks, c: Cell, s: Step)
    requires envs != [] && Inv(envs, k, c) && ControllerStep(c, s) && !Blocked(envs, c)
    ensures !Blocked(envs, Next(envs, k, c, s).1)
  {
    if s.Finish? {
      FinishCases(envs, k, c);
      var d := Next(envs, k, c, s).1;
      if d.local != c.local && d.local.Some? {
        WritesMirror(c.worker.remote.value, if c.local.None? then BLANK else c.worker.local.value);
      }
    }
  }

  predicate ControllerRun(envs: seq<string>, k: Clocks, c: Cell, steps: seq<Step>)
    decreases |steps|
  {
    steps == [] ||
    (ControllerStep(c, steps[0]) && var (k', d) := Next(envs, k, c, steps[0]); ControllerRun(envs, k', d, steps[1..]))
  }

  /** How many of its reconciles fail while an event is on its way. */
  function Starved(envs: seq<string>, k: Clocks, c: Cell, steps: seq<Step>): nat
    requires ControllerRun(envs, k, c, steps)
    decreases |steps|
  {
    if steps == [] then 0
    else
      var (k', d) := Next(envs, k, c, steps[0]);
      (if IsStarved(envs, k, c, steps[0]) then 1 else 0) + Starved(envs, k', d, steps[1..])
  }

  /** Whatever the controller reads and in whatever order it goes on, all its steps but the four of
      each starved reconcile are bounded by the work there is. So a schedule can only go on for ever
      by retrying while an event is never delivered. */
  lemma {:induction false} SchedulesAreFinite(envs: seq<string>, k: Clocks, c: Cell, steps: seq<Step>)
    requires envs != [] && Inv(envs, k, c) && !Blocked(envs, c) && ControllerRun(envs, k, c, steps)
    ensures |steps| <= Work(envs, c) + 4 * Starved(envs, k, c, steps)
    decreases |steps|
  {
    if steps != [] {
      var (k', d) := Next(envs, k, c, steps[0]);
      StepKeepsInv(envs, k, c, steps[0]);
      StepDoesWork(envs, k, c, steps[0]);
      NeverBecomesBlocked(envs, k, c, steps[0]);
      SchedulesAreFinite(envs, k', d, steps[1..]);
    }
  }

  /** Deliver what is on its way, then go on with the reconcile. */
  function NextStep(c: Cell): (s: Step)
    requires !Quiet(c)
    ensures ControllerStep(c, s)
    ensures s.Finish? ==> IsDelivered(c)
  {
    if c.remoteWatch != [] then DeliverRemote
    else if c.localWatch != [] then DeliverLocal
    else if c.worker.Taken? then ReadRemote
    else if c.worker.GotRemote? then ReadLocal
    else if c.worker.GotBoth? then Finish
    else Take
  }

  lemma {:induction false} Drains(envs: seq<string>, k: Clocks, c: Cell) returns (steps: seq<Step>)
    requires envs != [] && Inv(envs, k, c) && !Blocked(envs, c)
    ensures ControllerRun(envs, k, c, steps) && Starved(envs, k, c, steps) == 0
    ensures Follow(envs, k, c, steps).Some?
    ensures var d := Follow(envs, k, c, steps).value.1;
            Quiet(d) && d.remote == c.remote && Agree(RemoteView(envs, d.remote), LocalView(d.local))
    decreases Work(envs, c)
  {
    if Quiet(c) {
      steps := [];
    } else {
      var s := NextStep(c);
      var (k', d) := Next(envs, k, c, s);
      StepKeepsInv(envs, k, c, s);
      StepDoesWork(envs, k, c, s);
      NeverBecomesBlocked(envs, k, c, s);
      var rest := Drains(envs, k', d);
      steps := [s] + rest;
      assert steps[1..] == rest;
    }
  }

  /** The drain theorem. At every moment of every run, if everybody else stops, the controller can
      finish its work on a name: it ends with the name quiet and the two clusters in agreement. Any
      schedule of its steps, on caches however late, takes no longer than the work there is, not
      counting the reconciles that fail while an event is on its way. The condition is that no
      unmanaged object stands in the way; while one does, the name is never quiet. */
  lemma WorkRunsOut(envs: seq<string>, run: seq<System>, name: string) returns (steps: seq<Step>)
    requires envs != [] && IsRun(envs, run) && name in run[|run| - 1].cells
    ensures var now := run[|run| - 1];
            var c := now.cells[name];
            if Blocked(envs, c) then !Quiet(c)
            else
              && ControllerRun(envs, now.clocks, c, steps)
              && Follow(envs, now.clocks, c, steps).Some?
              && (var d := Follow(envs, now.clocks, c, steps).value.1;
                  Quiet(d) && d.remote == c.remote && Agree(RemoteView(envs, d.remote), LocalView(d.local)))
              && forall other :: ControllerRun(envs, now.clocks, c, other) ==>
                   |other| <= Work(envs, c) + 4 * Starved(envs, now.clocks, c, other)
  {
    RunKeepsInv(envs, run);
    var now := run[|run| - 1];
    var c := now.cells[name];
    assert Inv(envs, now.clocks, c);
    steps := [];
    if !Blocked(envs, c) {
      steps := Drains(envs, now.clocks, c);
      forall other | ControllerRun(envs, now.clocks, c, other)
        ensures |other| <= Work(envs, c) + 4 * Starved(envs, now.clocks, c, other)
      {
        SchedulesAreFinite(envs, now.clocks, c, other);
      }
    }
  }
}
