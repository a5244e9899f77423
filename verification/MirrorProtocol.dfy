/** The mirroring controller as a distributed protocol. For every name there are two API servers,
    two caches that lag behind them, the watch events still on their way, the work queue and the
    worker. The remote edits, the foreign local edits, the event deliveries and the four phases of
    a reconcile interleave freely; Reconcile decides on what the lagging caches say. */
module MirrorProtocol {
  import opened Text
  import opened Kube
  import opened ConfigMirror

  type Version = Option<ConfigMap>

  /** The worker between two API calls of Reconcile. */
  datatype Worker = Idle | Taken | GotRemote(remote: Version) | GotBoth(remote: Version, local: Version)

  datatype Cell = Cell(
    remote: Version, local: Version,                        // what the API servers store
    remoteCache: Version, localCache: Version,              // what the label-filtered clients answer
    remoteWatch: seq<Version>, localWatch: seq<Version>,    // events not delivered yet, oldest first
    queued: bool, worker: Worker)

  /** The next resource version of either server. */
  datatype Clocks = Clocks(remote: nat, local: nat)

  datatype Step =
    | RemoteEdit(next: Version)   // anybody creates, updates or deletes the remote object
    | ForeignEdit(next: Version)  // somebody else does so to the local object
    | DeliverRemote | DeliverLocal
    | Take                        // take the name off the queue
    | ReadRemote | ReadLocal
    | Finish                      // decide and write
    | Abort                       // an API call fails; the name is queued again
    | Restart                     // the controller restarts and lists both clusters

  // ---------------------------------------------------------------- filters

  function RemoteView(envs: seq<string>, o: Version): Version {
    if o.Some? && EnvSelected(o.value.labels, envs) then o else None
  }

  function LocalView(o: Version): Version {
    if o.Some? && IsManaged(o.value.labels) then o else None
  }

  /** HasEdgeSyncLabelPredicate and ResourceVersionChangedPredicate on the remote watch. */
  predicate RemotePasses(envs: seq<string>, before: Version, after: Version) {
    match (before, after)
    case (None, None) => false
    case (None, Some(n)) => EnvSelected(n.labels, envs)
    case (Some(o), None) => EnvSelected(o.labels, envs)
    case (Some(o), Some(n)) => (EnvSelected(o.labels, envs) || EnvSelected(n.labels, envs)) && o.rv != n.rv
  }

  /** IsManagedByEdgeControllers and NotChangedByEdgeControllers on the local watch. */
  predicate LocalPasses(before: Version, after: Version) {
    match (before, after)
    case (None, None) => false
    case (None, Some(n)) => IsManaged(n.labels) && CreatePasses(n.annotations)
    case (Some(o), None) => IsManaged(o.labels)
    case (Some(o), Some(n)) => IsManaged(n.labels) && UpdatePasses(o.rv, n.annotations)
  }

  /** A filtered watch reports a write when the object is, or was, in the view. */
  function Emit(watch: seq<Version>, before: Version, after: Version): seq<Version> {
    if before.None? && after.None? then watch else watch + [after]
  }

  // ---------------------------------------------------------------- steps

  /** The edit leaves each of the two version annotations as it is, or takes it off; a new object has
      neither. The managed label may be put on and taken off. */
  predicate LeavesVersionsAlone(before: Version, after: Version) {
    after.Some? ==>
      && Keeps(before, after.value.annotations, LAST_GENERATION)
      && Keeps(before, after.value.annotations, LAST_REMOTE_GENERATION)
  }

  predicate Keeps(before: Version, annotations: Meta, key: string) {
    key in annotations ==>
      before.Some? && key in before.value.annotations && annotations[key] == before.value.annotations[key]
  }

  /** A managed object that has no annotations at all: the filter drops its events. */
  predicate IsBare(o: Version) {
    LocalView(o).Some? && o.value.annotations == map[]
  }

  /** What the protocol asks of everybody else who edits a local object. */
  predicate ForeignEditAllowed(before: Version, after: Version) {
    LeavesVersionsAlone(before, after) && !IsBare(after)
  }

  predicate Enabled(c: Cell, s: Step) {
    match s
    case RemoteEdit(_) => true
    case ForeignEdit(next) => ForeignEditAllowed(c.local, next)
    case DeliverRemote => c.remoteWatch != []
    case DeliverLocal => c.localWatch != []
    case Take => c.queued && c.worker.Idle?
    case ReadRemote => c.worker.Taken?
    case ReadLocal => c.worker.GotRemote?
    case Finish => c.worker.GotBoth?
    case Abort => !c.worker.Idle?
    case Restart => true
  }

  function AtVersion(o: Version, rv: nat): Version {
    if o.None? then None else Some(o.value.(rv := rv))
  }

  function Next(envs: seq<string>, k: Clocks, c: Cell, s: Step): (Clocks, Cell)
    requires Enabled(c, s)
  {
    match s
    case RemoteEdit(next) =>
      var n := AtVersion(next, k.remote);
      (k.(remote := k.remote + 1),
       c.(remote := n, remoteWatch := Emit(c.remoteWatch, RemoteView(envs, c.remote), RemoteView(envs, n))))
    case ForeignEdit(next) =>
      var n := AtVersion(next, k.local);
      (k.(local := k.local + 1), StoreLocal(c, n))
    case DeliverRemote =>
      (k, c.(remoteCache := c.remoteWatch[0], remoteWatch := c.remoteWatch[1..],
             queued := c.queued || RemotePasses(envs, c.remoteCache, c.remoteWatch[0])))
    case DeliverLocal =>
      (k, c.(localCache := c.localWatch[0], localWatch := c.localWatch[1..],
             queued := c.queued || LocalPasses(c.localCache, c.localWatch[0])))
    case Take => (k, c.(queued := false, worker := Taken))
    case ReadRemote => (k, c.(worker := GotRemote(c.remoteCache)))
    case ReadLocal => (k, c.(worker := GotBoth(c.worker.remote, c.localCache)))
    case Finish =>
      var action := Decide(Some(envs), c.worker.remote, c.worker.local);
      var (stored, clock, outcome) := Apply(c.local, k.local, action);
      var d := if action.Nothing? || !outcome.Done? then c else StoreLocal(c, stored);
      (k.(local := clock), d.(worker := Idle, queued := c.queued || Retried(action, outcome)))
    case Abort => (k, c.(worker := Idle, queued := true))
    case Restart =>
      (k, Cell(c.remote, c.local, None, None, Emit([], None, RemoteView(envs, c.remote)),
               Emit([], None, LocalView(c.local)), false, Idle))
  }

  function StoreLocal(c: Cell, n: Version): Cell {
    c.(local := n, localWatch := Emit(c.localWatch, LocalView(c.local), LocalView(n)))
  }

  // ---------------------------------------------------------------- the invariant

  /** All versions of the object from the cached one to the stored one, as the view shows them. */
  function RemoteChain(c: Cell): seq<Version> { [c.remoteCache] + c.remoteWatch }

  function LocalChain(c: Cell): seq<Version> { [c.localCache] + c.localWatch }

  ghost predicate Increasing(chain: seq<Version>) {
    forall i, j :: 0 <= i < j < |chain| && chain[i].Some? && chain[j].Some? ==> chain[i].value.rv < chain[j].value.rv
  }

  /** The remote version a local object says it was copied from. */
  predicate Seeing(o: ConfigMap) { LAST_REMOTE_GENERATION in o.annotations }

  function Seen(o: ConfigMap): nat { VersionNumber(Lookup(o.annotations, LAST_REMOTE_GENERATION)) }

  /** The recorded last generation is not the object's own version, nor any later one. */
  ghost predicate LastGenerationIsOld(o: ConfigMap) {
    && Lookup(o.annotations, LAST_GENERATION) != "0"
    && forall m: nat :: m >= o.rv ==> Lookup(o.annotations, LAST_GENERATION) != VersionString(m)
  }

  ghost predicate SeenGrows(chain: seq<Version>) {
    forall i, j | 0 <= i < j < |chain| && chain[i].Some? && chain[j].Some? ::
      Seeing(chain[i].value) && Seeing(chain[j].value) ==> Seen(chain[i].value) <= Seen(chain[j].value)
  }

  /** The object mirrors the version it says it was copied from, if that is still around. */
  ghost predicate MirrorsSeen(remotes: seq<Version>, o: ConfigMap) {
    && Seeing(o)
    && forall r :: r in remotes && r.Some? && r.value.rv == Seen(o) ==> Mirrors(r.value, o)
  }

  ghost predicate RemoteOk(envs: seq<string>, k: Clocks, c: Cell) {
    var chain := RemoteChain(c);
    && chain[|chain| - 1] == RemoteView(envs, c.remote)
    && Increasing(chain)
    && (c.remote.Some? ==> c.remote.value.rv < k.remote)
    && (forall r :: r in chain && r.Some? ==> r.value.rv < k.remote && EnvSelected(r.value.labels, envs))
    && (forall i :: 0 <= i < |c.remoteWatch| ==> chain[i].Some? || chain[i + 1].Some?)
  }

  ghost predicate LocalVersionOk(k: Clocks, c: Cell, o: ConfigMap) {
    && o.rv < k.local
    && IsManaged(o.labels)
    && o.annotations != map[]
    && LastGenerationIsOld(o)
    && (c.local.Some? ==> o.rv <= c.local.value.rv)
    && (c.local.Some? && o.rv == c.local.value.rv ==> o == c.local.value)
    && (Seeing(o) ==> Seen(o) < k.remote)
    && (Seeing(o) ==> forall r :: r in RemoteChain(c) && r.Some? ==> Seen(o) <= r.value.rv)
  }

  /** The stored object, managed or not: its version annotations are of the past. */
  ghost predicate StoredOk(k: Clocks, c: Cell, o: ConfigMap) {
    && 0 < o.rv < k.local
    && LastGenerationIsOld(o)
    && (Seeing(o) ==>
          && Seen(o) < k.remote
          && (forall r :: r in RemoteChain(c) && r.Some? ==> Seen(o) <= r.value.rv)
          && (forall v :: v in LocalChain(c) && v.Some? && Seeing(v.value) ==> Seen(v.value) <= Seen(o)))
  }

  ghost predicate LocalOk(k: Clocks, c: Cell) {
    var chain := LocalChain(c);
    && chain[|chain| - 1] == LocalView(c.local)
    && 0 < k.local
    && (c.local.Some? ==> StoredOk(k, c, c.local.value))
    && Increasing(chain)
    && (forall v :: v in chain && v.Some? ==> LocalVersionOk(k, c, v.value))
    && SeenGrows(chain)
    && (forall i :: 0 <= i < |c.localWatch| ==> EventOk(c, chain[i], chain[i + 1]))
  }

  /** An event either wakes the controller up or is a copy of a known remote version. */
  ghost predicate EventOk(c: Cell, before: Version, after: Version) {
    || LocalPasses(before, after)
    || (before.Some? && after.Some? && MirrorsSeen(RemoteChain(c), after.value))
  }

  predicate HasRemote(w: Worker) { w.GotRemote? || w.GotBoth? }

  ghost predicate WorkerOk(envs: seq<string>, k: Clocks, c: Cell) {
    && (HasRemote(c.worker) && c.worker.remote.Some? ==>
          var r := c.worker.remote.value;
          && r.rv < k.remote
          && EnvSelected(r.labels, envs)
          && (forall x :: x in RemoteChain(c) && x.Some? ==>
                r.rv <= x.value.rv && (r.rv == x.value.rv ==> r == x.value))
          && (c.local.Some? && Seeing(c.local.value) ==> Seen(c.local.value) <= r.rv)
          && (forall v :: v in LocalChain(c) && v.Some? && Seeing(v.value) ==> Seen(v.value) <= r.rv))
    && (c.worker.GotBoth? && c.worker.local.Some? ==>
          var l := c.worker.local.value;
          && l.rv < k.local
          && IsManaged(l.labels)
          && (c.local.Some? ==> l.rv <= c.local.value.rv)
          && (c.local.Some? && l.rv == c.local.value.rv ==> l == c.local.value)
          && (Seeing(l) && c.local.Some? && Seeing(c.local.value) ==> Seen(l) <= Seen(c.local.value))
          && (Seeing(l) ==> forall v :: v in LocalChain(c) && v.Some? && Seeing(v.value) ==> Seen(l) <= Seen(v.value)))
  }

  /** The name is on the queue, or a local event will put it there. */
  ghost predicate Wakes(c: Cell) {
    || c.queued
    || exists i :: 0 <= i < |c.localWatch| && LocalPasses(LocalChain(c)[i], LocalChain(c)[i + 1])
  }

  /** As far as the cached remote object goes, nothing is left to do, or the worker is about to do it. */
  ghost predicate OnTrack(c: Cell) {
    match c.worker
    case Idle => Agree(c.remoteCache, LocalView(c.local))
    case Taken => true
    case GotRemote(r) => r == c.remoteCache
    case GotBoth(r, l) =>
      && r == c.remoteCache
      && (l == LocalView(c.local) ||
          (l.Some? && LocalView(c.local).Some? && MirrorsSeen(RemoteChain(c), LocalView(c.local).value)))
  }

  ghost predicate ProgressOk(c: Cell) {
    Wakes(c) || OnTrack(c)
  }

  ghost predicate Inv(envs: seq<string>, k: Clocks, c: Cell) {
    RemoteOk(envs, k, c) && LocalOk(k, c) && WorkerOk(envs, k, c) && ProgressOk(c)
  }

  // ---------------------------------------------------------------- every step keeps it

  lemma AppendStaysOrdered(chain: seq<Version>, n: Version)
    requires Increasing(chain) && SeenGrows(chain)
    requires n.Some? ==> forall v :: v in chain && v.Some? ==>
               && v.value.rv < n.value.rv
               && (Seeing(v.value) && Seeing(n.value) ==> Seen(v.value) <= Seen(n.value))
    ensures Increasing(chain + [n]) && SeenGrows(chain + [n])
  {
  }

  lemma EventsAfterStore(c: Cell, d: Cell, i: nat)
    requires RemoteChain(d) == RemoteChain(c) && LocalChain(c) <= LocalChain(d)
    requires i < |c.localWatch| && EventOk(c, LocalChain(c)[i], LocalChain(c)[i + 1])
    ensures EventOk(d, LocalChain(d)[i], LocalChain(d)[i + 1])
  {
  }

  lemma OldVersionStaysOk(k: Clocks, c: Cell, n: Version, o: ConfigMap)
    requires LocalVersionOk(k, c, o) && (n.Some? ==> n.value.rv == k.local)
    ensures LocalVersionOk(k.(local := k.local + 1), StoreLocal(c, n), o)
  {
    assert RemoteChain(StoreLocal(c, n)) == RemoteChain(c);
  }

  /** What a write to the local object has to satisfy, whoever makes it. */
  ghost predicate MayStore(k: Clocks, c: Cell, n: ConfigMap) {
    && n.rv == k.local
    && LastGenerationIsOld(n)
    && (Seeing(n) ==>
          && Seen(n) < k.remote
          && (forall r :: r in RemoteChain(c) && r.Some? ==> Seen(n) <= r.value.rv)
          && (forall v :: v in LocalChain(c) && v.Some? && Seeing(v.value) ==> Seen(v.value) <= Seen(n)))
  }

  lemma StoredIsOk(k: Clocks, c: Cell, n: ConfigMap)
    requires MayStore(k, c, n) && 0 < k.local
    ensures StoredOk(k.(local := k.local + 1), StoreLocal(c, Some(n)), n)
    ensures IsManaged(n.labels) && n.annotations != map[] ==>
              LocalVersionOk(k.(local := k.local + 1), StoreLocal(c, Some(n)), n)
  {
    var d := StoreLocal(c, Some(n));
    assert RemoteChain(d) == RemoteChain(c);
    forall v | v in LocalChain(d) ensures v in LocalChain(c) || v == LocalView(Some(n)) {}
  }

  lemma StoreKeepsLocalOk(k: Clocks, c: Cell, n: Version)
    requires LocalOk(k, c) && !IsBare(n) && (n.Some? ==> MayStore(k, c, n.value))
    requires LocalView(c.local).Some? || LocalView(n).Some? ==> EventOk(c, LocalView(c.local), LocalView(n))
    ensures LocalOk(k.(local := k.local + 1), StoreLocal(c, n))
  {
    var d, chain := StoreLocal(c, n), LocalChain(c);
    assert RemoteChain(d) == RemoteChain(c);
    StoreExtendsChain(k, c, n);
    if n.Some? {
      StoredIsOk(k, c, n.value);
    }
    forall v | v in LocalChain(d) && v.Some? ensures LocalVersionOk(k.(local := k.local + 1), d, v.value) {
      if v in chain {
        OldVersionStaysOk(k, c, n, v.value);
      } else {
        assert v == n;
      }
    }
    forall i | 0 <= i < |d.localWatch| ensures EventOk(d, LocalChain(d)[i], LocalChain(d)[i + 1]) {
      if i < |c.localWatch| {
        EventsAfterStore(c, d, i);
      }
    }
  }

  lemma StoreExtendsChain(k: Clocks, c: Cell, n: Version)
    requires LocalOk(k, c) && (n.Some? ==> n.value.rv == k.local)
    requires LocalView(n).Some? && Seeing(n.value) ==>
               forall v :: v in LocalChain(c) && v.Some? && Seeing(v.value) ==> Seen(v.value) <= Seen(n.value)
    ensures var before, after := LocalChain(c), LocalChain(StoreLocal(c, n));
            && after == (if LocalView(c.local).Some? || LocalView(n).Some? then before + [LocalView(n)] else before)
            && before <= after && Increasing(after) && SeenGrows(after) && after[|after| - 1] == LocalView(n)
  {
    var chain := LocalChain(c);
    assert forall v :: v in chain && v.Some? ==> LocalVersionOk(k, c, v.value);
    if LocalView(c.local).Some? || LocalView(n).Some? {
      assert LocalChain(StoreLocal(c, n)) == chain + [LocalView(n)];
      AppendStaysOrdered(chain, LocalView(n));
    }
  }

  /** A write that changes the view either leaves an event behind that wakes the controller up, or
      its event is filtered out. */
  lemma StoreWakes(c: Cell, n: Version)
    ensures Wakes(c) ==> Wakes(StoreLocal(c, n))
    ensures LocalChain(c)[|c.localWatch|] == LocalView(c.local) && LocalPasses(LocalView(c.local), LocalView(n)) ==>
              Wakes(StoreLocal(c, n))
  {
    var d := StoreLocal(c, n);
    forall i | 0 <= i <= |c.localWatch| ensures LocalChain(d)[i] == LocalChain(c)[i] {}
    if LocalChain(c)[|c.localWatch|] == LocalView(c.local) && LocalPasses(LocalView(c.local), LocalView(n)) {
      assert LocalChain(d)[|c.localWatch| + 1] == LocalView(n);
    }
  }

  /** The event of a foreign edit that leaves the version annotations alone passes the filter exactly
      if it does not leave a managed object without annotations. */
  lemma ForeignEditIsSeen(k: Clocks, c: Cell, next: Version)
    requires LocalOk(k, c) && LeavesVersionsAlone(c.local, next)
    requires LocalView(c.local).Some? || LocalView(next).Some?
    ensures LocalPasses(LocalView(c.local), LocalView(AtVersion(next, k.local))) <==> !IsBare(next)
  {
    var before := LocalView(c.local);
    if before.Some? {
      VersionRoundTrip(before.value.rv);
      assert LastGenerationIsOld(c.local.value);
    }
  }

  lemma ForeignEditMayStore(k: Clocks, c: Cell, next: Version)
    requires LocalOk(k, c) && LeavesVersionsAlone(c.local, next) && next.Some?
    ensures MayStore(k, c, AtVersion(next, k.local).value)
  {
    var n := AtVersion(next, k.local).value;
    if LAST_GENERATION !in n.annotations {
      forall m: nat | m >= n.rv ensures VersionString(m) != "" { VersionRoundTrip(m); }
    }
    assert Seeing(n) ==> Seen(n) == Seen(c.local.value);
  }

  lemma ForeignEditKeepsLocalOk(k: Clocks, c: Cell, next: Version)
    requires LocalOk(k, c) && ForeignEditAllowed(c.local, next)
    ensures LocalOk(k.(local := k.local + 1), StoreLocal(c, AtVersion(next, k.local)))
  {
    if next.Some? {
      ForeignEditMayStore(k, c, next);
    }
    if LocalView(c.local).Some? || LocalView(next).Some? {
      ForeignEditIsSeen(k, c, next);
    }
    StoreKeepsLocalOk(k, c, AtVersion(next, k.local));
  }

  lemma ForeignEditKeepsWorkerOk(envs: seq<string>, k: Clocks, c: Cell, next: Version)
    requires WorkerOk(envs, k, c) && LocalOk(k, c) && ForeignEditAllowed(c.local, next)
    ensures WorkerOk(envs, k.(local := k.local + 1), StoreLocal(c, AtVersion(next, k.local)))
  {
    var n := AtVersion(next, k.local);
    var d := StoreLocal(c, n);
    assert RemoteChain(d) == RemoteChain(c);
    assert n.Some? && Seeing(n.value) ==>
             c.local.Some? && Seeing(c.local.value) && Seen(n.value) == Seen(c.local.value);
    forall v | v in LocalChain(d) && v.Some? && Seeing(v.value) && v !in LocalChain(c)
      ensures c.local.Some? && Seeing(c.local.value) && Seen(v.value) == Seen(c.local.value)
    {
      assert v == n;
    }
  }

  lemma ForeignEditKeeps(envs: seq<string>, k: Clocks, c: Cell, next: Version)
    requires Inv(envs, k, c) && ForeignEditAllowed(c.local, next)
    ensures var (k', c') := Next(envs, k, c, ForeignEdit(next)); Inv(envs, k', c')
  {
    var n := AtVersion(next, k.local);
    var before, after := LocalView(c.local), LocalView(n);
    var d := StoreLocal(c, n);
    ForeignEditKeepsLocalOk(k, c, next);
    assert RemoteChain(d) == RemoteChain(c);
    ForeignEditKeepsWorkerOk(envs, k, c, next);
    assert ProgressOk(d) by {
      StoreWakes(c, n);
      if before.Some? || after.Some? {
        ForeignEditIsSeen(k, c, next);
      }
    }
  }

  /** What the worker holds stays older than what is in the chains, when these only lose versions
      or gain newer remote ones. */
  lemma WorkerOkCarries(envs: seq<string>, k: Clocks, c: Cell, k': Clocks, d: Cell)
    requires WorkerOk(envs, k, c) && k'.local == k.local && k'.remote >= k.remote
    requires d.local == c.local && d.worker == c.worker
    requires forall r :: r in RemoteChain(d) && r.Some? ==> r in RemoteChain(c) || r.value.rv >= k.remote
    requires forall v :: v in LocalChain(d) ==> v in LocalChain(c)
    ensures WorkerOk(envs, k', d)
  {
  }

  lemma RemoteEditKeepsRemoteOk(envs: seq<string>, k: Clocks, c: Cell, n: Version)
    requires RemoteOk(envs, k, c) && (n.Some? ==> n.value.rv == k.remote)
    ensures RemoteOk(envs, k.(remote := k.remote + 1),
                     c.(remote := n, remoteWatch :=
                           Emit(c.remoteWatch, RemoteView(envs, c.remote), RemoteView(envs, n))))
  {
    var after := RemoteView(envs, n);
    var d := c.(remote := n, remoteWatch := Emit(c.remoteWatch, RemoteView(envs, c.remote), after));
    var chain := RemoteChain(c);
    if RemoteView(envs, c.remote).Some? || after.Some? {
      assert RemoteChain(d) == chain + [after];
      forall i | 0 <= i < |d.remoteWatch| ensures RemoteChain(d)[i].Some? || RemoteChain(d)[i + 1].Some? {
        assert i < |c.remoteWatch| ==> chain[i].Some? || chain[i + 1].Some?;
      }
    } else {
      assert RemoteChain(d) == chain;
    }
  }

  lemma RemoteEditGrows(envs: seq<string>, k: Clocks, c: Cell, next: Version)
    ensures var (k', d) := Next(envs, k, c, RemoteEdit(next));
            && k' == k.(remote := k.remote + 1)
            && d == c.(remote := d.remote, remoteWatch := d.remoteWatch)
            && LocalChain(d) == LocalChain(c)
            && forall r :: r in RemoteChain(d) && r.Some? ==> r in RemoteChain(c) || r.value.rv >= k.remote
  {
    var d, after := Next(envs, k, c, RemoteEdit(next)).1, RemoteView(envs, AtVersion(next, k.remote));
    assert RemoteChain(d) == RemoteChain(c) || RemoteChain(d) == RemoteChain(c) + [after];
  }

  lemma RemoteEditKeeps(envs: seq<string>, k: Clocks, c: Cell, next: Version)
    requires Inv(envs, k, c)
    ensures var (k', c') := Next(envs, k, c, RemoteEdit(next)); Inv(envs, k', c')
  {
    var (k', d) := Next(envs, k, c, RemoteEdit(next));
    RemoteEditKeepsRemoteOk(envs, k, c, AtVersion(next, k.remote));
    RemoteEditGrows(envs, k, c, next);
    RemoteGrowthKeepsLocalOk(k, c, k', d);
    WorkerOkCarries(envs, k, c, k', d);
    assert Wakes(c) ==> Wakes(d);
    if OnTrack(c) {
      OnTrackCarries(k, c, d);
    }
  }

  /** What is stored, cached and on its way is judged without the worker and the queue. */
  lemma SameStores(envs: seq<string>, k: Clocks, c: Cell, d: Cell)
    requires d == c.(worker := d.worker, queued := d.queued)
    ensures RemoteChain(d) == RemoteChain(c) && LocalChain(d) == LocalChain(c)
    ensures RemoteOk(envs, k, c) ==> RemoteOk(envs, k, d)
    ensures LocalOk(k, c) ==> LocalOk(k, d)
    ensures Wakes(c) && (c.queued ==> d.queued) ==> Wakes(d)
  {
    assert RemoteChain(d) == RemoteChain(c) && LocalChain(d) == LocalChain(c);
    if LocalOk(k, c) {
      RemoteGrowthKeepsLocalOk(k, c, k, d);
    }
  }

  /** Newer remote versions, and the loss of older ones behind the cache, do not matter. */
  lemma OnTrackCarries(k: Clocks, c: Cell, d: Cell)
    requires LocalOk(k, c) && OnTrack(c)
    requires d.local == c.local && d.worker == c.worker && d.remoteCache == c.remoteCache
    requires forall r :: r in RemoteChain(d) && r.Some? ==> r in RemoteChain(c) || r.value.rv >= k.remote
    ensures OnTrack(d)
  {
    assert LocalView(c.local).Some? ==> StoredOk(k, c, c.local.value);
  }

  /** New remote versions are newer than anything a local object has been copied from. */
  lemma RemoteGrowthKeepsLocalOk(k: Clocks, c: Cell, k': Clocks, d: Cell)
    requires LocalOk(k, c) && k'.local == k.local && k'.remote >= k.remote
    requires d.local == c.local && d.localCache == c.localCache && d.localWatch == c.localWatch
    requires forall r :: r in RemoteChain(d) && r.Some? ==> r in RemoteChain(c) || r.value.rv >= k.remote
    ensures LocalOk(k', d)
  {
    assert LocalChain(d) == LocalChain(c);
    forall v | v in LocalChain(d) && v.Some? ensures LocalVersionOk(k', d, v.value) {
      assert LocalVersionOk(k, c, v.value);
    }
    forall i | 0 <= i < |d.localWatch| ensures EventOk(d, LocalChain(d)[i], LocalChain(d)[i + 1]) {
      assert EventOk(c, LocalChain(c)[i], LocalChain(c)[i + 1]);
      var after := LocalChain(c)[i + 1];
      assert after in LocalChain(c);
      assert after.Some? ==> LocalVersionOk(k, c, after.value);
    }
  }

  /** Every remote event that reaches the controller queues the name. */
  lemma DeliverRemoteQueues(envs: seq<string>, k: Clocks, c: Cell)
    requires RemoteOk(envs, k, c) && c.remoteWatch != []
    ensures RemotePasses(envs, c.remoteCache, c.remoteWatch[0])
  {
    var chain := RemoteChain(c);
    assert chain[0].Some? || chain[1].Some?;
    assert chain[0] in chain && chain[1] in chain;
  }

  lemma DeliverRemoteKeepsRemoteOk(envs: seq<string>, k: Clocks, c: Cell, d: Cell)
    requires RemoteOk(envs, k, c) && c.remoteWatch != []
    requires d.remote == c.remote && d.remoteCache == c.remoteWatch[0] && d.remoteWatch == c.remoteWatch[1..]
    ensures RemoteOk(envs, k, d) && RemoteChain(d) == RemoteChain(c)[1..]
  {
    var chain := RemoteChain(c);
    assert RemoteChain(d) == chain[1..];
    forall i | 0 <= i < |d.remoteWatch| ensures RemoteChain(d)[i].Some? || RemoteChain(d)[i + 1].Some? {
      assert chain[i + 1].Some? || chain[i + 1 + 1].Some?;
    }
  }

  lemma DeliverRemoteKeeps(envs: seq<string>, k: Clocks, c: Cell)
    requires Inv(envs, k, c) && c.remoteWatch != []
    ensures Inv(envs, k, Next(envs, k, c, DeliverRemote).1)
  {
    var d := Next(envs, k, c, DeliverRemote).1;
    DeliverRemoteQueues(envs, k, c);
    assert d.queued;
    DeliverRemoteKeepsRemoteOk(envs, k, c, d);
    assert LocalChain(d) == LocalChain(c);
    RemoteGrowthKeepsLocalOk(k, c, k, d);
    WorkerOkCarries(envs, k, c, k, d);
  }

  lemma TailStaysOrdered(chain: seq<Version>)
    requires chain != [] && Increasing(chain) && SeenGrows(chain)
    ensures Increasing(chain[1..]) && SeenGrows(chain[1..])
  {
    forall i, j | 0 <= i < j < |chain| - 1 && chain[1..][i].Some? && chain[1..][j].Some?
      ensures chain[1..][i].value.rv < chain[1..][j].value.rv
      ensures Seeing(chain[1..][i].value) && Seeing(chain[1..][j].value) ==>
                Seen(chain[1..][i].value) <= Seen(chain[1..][j].value)
    {
      assert chain[1..][i] == chain[i + 1] && chain[1..][j] == chain[j + 1];
    }
  }

  lemma TailOfEvents(c: Cell, d: Cell, i: nat)
    requires c.localWatch != [] && d.localCache == c.localWatch[0] && d.localWatch == c.localWatch[1..]
    requires d.remoteCache == c.remoteCache && d.remoteWatch == c.remoteWatch
    requires i + 1 < |c.localWatch| && EventOk(c, LocalChain(c)[i + 1], LocalChain(c)[i + 2])
    ensures EventOk(d, LocalChain(d)[i], LocalChain(d)[i + 1])
  {
    assert RemoteChain(d) == RemoteChain(c);
  }

  lemma DeliverLocalKeepsLocalOk(k: Clocks, c: Cell, d: Cell)
    requires LocalOk(k, c) && c.localWatch != []
    requires d.local == c.local && d.localCache == c.localWatch[0] && d.localWatch == c.localWatch[1..]
    requires d.remoteCache == c.remoteCache && d.remoteWatch == c.remoteWatch
    ensures LocalOk(k, d)
  {
    var chain := LocalChain(c);
    assert LocalChain(d) == chain[1..];
    TailStaysOrdered(chain);
    forall v | v in LocalChain(d) && v.Some? ensures LocalVersionOk(k, d, v.value) {
      assert v in chain;
      assert LocalVersionOk(k, c, v.value);
      assert RemoteChain(d) == RemoteChain(c);
    }
    forall i | 0 <= i < |d.localWatch| ensures EventOk(d, LocalChain(d)[i], LocalChain(d)[i + 1]) {
      var j := i + 1;
      assert EventOk(c, chain[j], chain[j + 1]);
      TailOfEvents(c, d, i);
    }
  }

  lemma DeliverLocalWakes(c: Cell, d: Cell)
    requires Wakes(c) && c.localWatch != [] && d.remoteWatch == c.remoteWatch
    requires d.localCache == c.localWatch[0] && d.localWatch == c.localWatch[1..]
    requires d.queued == (c.queued || LocalPasses(c.localCache, c.localWatch[0]))
    ensures Wakes(d)
  {
    var chain := LocalChain(c);
    assert LocalChain(d) == chain[1..];
    if !d.queued && d.remoteWatch == [] {
      var i :| 0 <= i < |c.localWatch| && LocalPasses(chain[i], chain[i + 1]);
      assert LocalPasses(LocalChain(d)[i - 1], LocalChain(d)[i]);
    }
  }

  lemma DeliverLocalKeeps(envs: seq<string>, k: Clocks, c: Cell)
    requires Inv(envs, k, c) && c.localWatch != []
    ensures Inv(envs, k, Next(envs, k, c, DeliverLocal).1)
  {
    var d := Next(envs, k, c, DeliverLocal).1;
    DeliverLocalKeepsLocalOk(k, c, d);
    assert LocalChain(d) == LocalChain(c)[1..] && RemoteChain(d) == RemoteChain(c);
    assert RemoteOk(envs, k, d);
    WorkerOkCarries(envs, k, c, k, d);
    if Wakes(c) {
      DeliverLocalWakes(c, d);
    }
  }

  lemma TakeKeeps(envs: seq<string>, k: Clocks, c: Cell)
    requires Inv(envs, k, c) && Enabled(c, Take)
    ensures Inv(envs, k, Next(envs, k, c, Take).1)
  {
    SameStores(envs, k, c, Next(envs, k, c, Take).1);
  }

  lemma ReadRemoteKeepsWorkerOk(envs: seq<string>, k: Clocks, c: Cell)
    requires RemoteOk(envs, k, c) && LocalOk(k, c) && Enabled(c, ReadRemote)
    ensures WorkerOk(envs, k, Next(envs, k, c, ReadRemote).1)
  {
    var d := Next(envs, k, c, ReadRemote).1;
    assert RemoteChain(d) == RemoteChain(c) && LocalChain(d) == LocalChain(c);
    assert c.remoteCache == RemoteChain(c)[0];
    assert forall v :: v in LocalChain(c) && v.Some? ==> LocalVersionOk(k, c, v.value);
  }

  lemma ReadRemoteKeeps(envs: seq<string>, k: Clocks, c: Cell)
    requires Inv(envs, k, c) && Enabled(c, ReadRemote)
    ensures Inv(envs, k, Next(envs, k, c, ReadRemote).1)
  {
    SameStores(envs, k, c, Next(envs, k, c, ReadRemote).1);
    ReadRemoteKeepsWorkerOk(envs, k, c);
  }

  lemma ReadLocalKeepsWorkerOk(envs: seq<string>, k: Clocks, c: Cell)
    requires LocalOk(k, c) && WorkerOk(envs, k, c) && Enabled(c, ReadLocal)
    ensures WorkerOk(envs, k, Next(envs, k, c, ReadLocal).1)
  {
    var d := Next(envs, k, c, ReadLocal).1;
    assert RemoteChain(d) == RemoteChain(c) && LocalChain(d) == LocalChain(c);
    assert c.localCache == LocalChain(c)[0];
    assert c.localCache.Some? ==> LocalVersionOk(k, c, c.localCache.value);
  }

  /** If no event wakes the controller, the cached local object is outdated by own updates only. */
  lemma CacheIsAsGood(k: Clocks, c: Cell)
    requires LocalOk(k, c) && !Wakes(c)
    ensures c.localCache == LocalView(c.local) ||
            (c.localCache.Some? && LocalView(c.local).Some? && MirrorsSeen(RemoteChain(c), LocalView(c.local).value))
  {
    assert LocalChain(c)[|c.localWatch|] == LocalView(c.local);
    if c.localWatch != [] {
      CacheIsPresent(k, c, |c.localWatch| - 1);
      assert EventOk(c, LocalChain(c)[|c.localWatch| - 1], LocalChain(c)[|c.localWatch|]);
    }
  }

  lemma ReadLocalKeeps(envs: seq<string>, k: Clocks, c: Cell)
    requires Inv(envs, k, c) && Enabled(c, ReadLocal)
    ensures Inv(envs, k, Next(envs, k, c, ReadLocal).1)
  {
    SameStores(envs, k, c, Next(envs, k, c, ReadLocal).1);
    ReadLocalKeepsWorkerOk(envs, k, c);
    if !Wakes(c) {
      CacheIsAsGood(k, c);
    }
  }

  lemma AbortKeeps(envs: seq<string>, k: Clocks, c: Cell)
    requires Inv(envs, k, c) && Enabled(c, Abort)
    ensures Inv(envs, k, Next(envs, k, c, Abort).1)
  {
    SameStores(envs, k, c, Next(envs, k, c, Abort).1);
  }

  /** Own updates neither create nor delete: if no event wakes, the cached object is there. */
  lemma {:induction false} CacheIsPresent(k: Clocks, c: Cell, i: nat)
    requires LocalOk(k, c) && !Wakes(c) && i < |c.localWatch|
    ensures c.localCache.Some? && LocalChain(c)[i + 1].Some?
  {
    assert EventOk(c, LocalChain(c)[i], LocalChain(c)[i + 1]);
    if i > 0 {
      CacheIsPresent(k, c, i - 1);
    }
  }

  lemma RestartKeepsRemoteOk(envs: seq<string>, k: Clocks, c: Cell, d: Cell)
    requires RemoteOk(envs, k, c) && d.remote == c.remote && d.remoteCache == None
    requires d.remoteWatch == Emit([], None, RemoteView(envs, c.remote))
    ensures RemoteOk(envs, k, d)
  {
    var now := RemoteView(envs, c.remote);
    assert RemoteChain(c)[|c.remoteWatch|] == now;
    assert RemoteChain(d) == if now.Some? then [None, now] else [None];
  }

  lemma RestartKeepsLocalOk(k: Clocks, c: Cell, d: Cell)
    requires LocalOk(k, c) && d.local == c.local && d.localCache == None
    requires d.localWatch == Emit([], None, LocalView(c.local))
    requires forall r :: r in RemoteChain(d) && r.Some? ==> r in RemoteChain(c)
    ensures LocalOk(k, d)
  {
    var now := LocalView(c.local);
    assert LocalChain(c)[|c.localWatch|] == now;
    assert LocalChain(d) == if now.Some? then [None, now] else [None];
    if now.Some? {
      assert LocalVersionOk(k, c, now.value);
      assert LocalPasses(None, now);
      assert EventOk(d, None, now);
    }
  }

  lemma RestartWakes(k: Clocks, c: Cell, d: Cell)
    requires LocalOk(k, c) && d.local == c.local && d.localCache == None
    requires d.localWatch == Emit([], None, LocalView(c.local))
    ensures LocalView(c.local).Some? ==> Wakes(d)
  {
    var now := LocalView(c.local);
    assert LocalChain(c)[|c.localWatch|] == now;
    if now.Some? {
      assert LocalVersionOk(k, c, now.value);
      assert LocalChain(d) == [None, now];
      assert LocalPasses(LocalChain(d)[0], LocalChain(d)[1]);
    }
  }

  lemma RestartKeeps(envs: seq<string>, k: Clocks, c: Cell)
    requires Inv(envs, k, c)
    ensures Inv(envs, k, Next(envs, k, c, Restart).1)
  {
    var d := Next(envs, k, c, Restart).1;
    RestartKeepsRemoteOk(envs, k, c, d);
    assert RemoteChain(c)[|c.remoteWatch|] == RemoteView(envs, c.remote);
    RestartKeepsLocalOk(k, c, d);
    RestartWakes(k, c, d);
  }

  // ---------------------------------------------------------------- the write

  /** The object a create (over the blank object) or an update stores. */
  function Written(r: ConfigMap, dst: ConfigMap, rv: nat): ConfigMap {
    Stamped(Mirrored(r, dst)).(rv := rv)
  }

  lemma WrittenIsOld(r: ConfigMap, dst: ConfigMap, rv: nat)
    requires dst.rv < rv
    ensures LastGenerationIsOld(Written(r, dst, rv)) && Seeing(Written(r, dst, rv)) && Seen(Written(r, dst, rv)) == r.rv
  {
    WritesMirror(r, dst);
    VersionRoundTrip(r.rv);
    VersionRoundTrip(dst.rv);
    forall m: nat | m >= rv ensures VersionString(dst.rv) != VersionString(m) {
      VersionRoundTrip(m);
    }
  }

  /** The event of an own create or delete passes the filter; that of an own update never does. */
  lemma OwnWriteEvents(r: ConfigMap, before: Version, dst: ConfigMap, rv: nat)
    requires before.Some? ==> before.value.rv == dst.rv
    ensures LocalPasses(before, Some(Written(r, dst, rv))) <==> before.None?
  {
    WritesMirror(r, dst);
    VersionRoundTrip(dst.rv);
  }

  lemma WriteKeepsLocalOk(envs: seq<string>, k: Clocks, c: Cell, dst: ConfigMap)
    requires LocalOk(k, c) && WorkerOk(envs, k, c)
    requires c.worker.GotBoth? && c.worker.remote.Some?
    requires match c.local
             case None => dst == BLANK
             case Some(o) => c.worker.local == Some(dst) && dst.rv == o.rv
    ensures LocalOk(k.(local := k.local + 1), StoreLocal(c, Some(Written(c.worker.remote.value, dst, k.local))))
  {
    var r := c.worker.remote.value;
    var n := Written(r, dst, k.local);
    WritesMirror(r, dst);
    WrittenIsOld(r, dst, k.local);
    OwnWriteEvents(r, LocalView(c.local), dst, k.local);
    assert EventOk(c, LocalView(c.local), LocalView(Some(n))) by {
      forall x | x in RemoteChain(c) && x.Some? && x.value.rv == Seen(n) ensures Mirrors(x.value, n) {
        assert x.value == r;
      }
    }
    StoreKeepsLocalOk(k, c, Some(n));
  }

  lemma DeleteKeepsLocalOk(k: Clocks, c: Cell)
    requires LocalOk(k, c)
    ensures LocalOk(k.(local := k.local + 1), StoreLocal(c, None))
  {
    StoreKeepsLocalOk(k, c, None);
  }

  /** A reconcile that writes nothing because its (perhaps outdated) local object is a mirror is
      right: whatever own update overtook it was copied from the same remote version. */
  lemma StaleNothingIsHarmless(envs: seq<string>, k: Clocks, c: Cell)
    requires Inv(envs, k, c) && c.worker.GotBoth? && !Wakes(c)
    requires Decide(Some(envs), c.worker.remote, c.worker.local).Nothing?
    ensures Agree(c.remoteCache, LocalView(c.local))
  {
    var r, l, now := c.worker.remote, c.worker.local, LocalView(c.local);
    NothingMeansAgreement(Some(envs), r, l);
    if l != now {
      VersionRoundTrip(r.value.rv);
      assert now == LocalChain(c)[|c.localWatch|];
      assert LocalVersionOk(k, c, now.value);
      assert r == RemoteChain(c)[0];
      assert Seen(l.value) == r.value.rv == Seen(now.value);
    }
  }

  /** The versions the worker holds never lead to anything but a create over nothing, an update of
      the very version it read, or a delete. */
  lemma FinishCases(envs: seq<string>, k: Clocks, c: Cell)
    requires envs != [] && WorkerOk(envs, k, c) && c.worker.GotBoth?
    ensures var action := Decide(Some(envs), c.worker.remote, c.worker.local);
            var d := Next(envs, k, c, Finish).1;
            var r, l := c.worker.remote, c.worker.local;
            && (action.Create? ==> r.Some? && l.None?)
            && (action.Update? ==> r.Some? && l.Some?)
            && (action.Delete? ==> r.None? && l.Some?)
            && (d.local == c.local ==> d == c.(worker := Idle, queued := d.queued))
            && (d.local != c.local ==>
                  d == StoreLocal(c, d.local).(worker := Idle) &&
                  match action
                  case Nothing => false
                  case Create(_) => c.local.None? && d.local == Some(Written(r.value, BLANK, k.local))
                  case Update(_) => c.local.Some? && c.local.value.rv == l.value.rv &&
                                    d.local == Some(Written(r.value, l.value, k.local))
                  case Delete => d.local.None?)
  {
  }

  /** If such a reconcile is not retried, and no local event will wake the controller, the local object
      agrees with the cached remote one. */
  lemma FinishWithoutWriteAgrees(envs: seq<string>, k: Clocks, c: Cell)
    requires envs != [] && Inv(envs, k, c) && c.worker.GotBoth? && !Wakes(c)
    requires Next(envs, k, c, Finish).1.local == c.local && !Next(envs, k, c, Finish).1.queued
    ensures Agree(c.remoteCache, LocalView(c.local))
  {
    if Decide(Some(envs), c.worker.remote, c.worker.local).Nothing? {
      StaleNothingIsHarmless(envs, k, c);
    }
  }

  /** Putting the worker back to idle keeps the invariant, if it leaves nothing undone. */
  lemma IdleKeepsInv(envs: seq<string>, k: Clocks, c: Cell, queued: bool)
    requires RemoteOk(envs, k, c) && LocalOk(k, c)
    requires ProgressOk(c.(worker := Idle, queued := queued))
    ensures Inv(envs, k, c.(worker := Idle, queued := queued))
  {
    SameStores(envs, k, c, c.(worker := Idle, queued := queued));
  }

  lemma FinishWithoutWriteProgresses(envs: seq<string>, k: Clocks, c: Cell)
    requires envs != [] && Inv(envs, k, c) && c.worker.GotBoth?
    requires Next(envs, k, c, Finish).1.local == c.local
    ensures ProgressOk(Next(envs, k, c, Finish).1)
  {
    var d := Next(envs, k, c, Finish).1;
    FinishCases(envs, k, c);
    assert c.queued ==> d.queued;
    SameStores(envs, k, c, d);
    if !Wakes(d) {
      FinishWithoutWriteAgrees(envs, k, c);
    }
  }

  lemma FinishWithoutWriteIdles(envs: seq<string>, k: Clocks, c: Cell)
    requires envs != [] && WorkerOk(envs, k, c) && c.worker.GotBoth?
    requires Next(envs, k, c, Finish).1.local == c.local
    ensures var (k', d) := Next(envs, k, c, Finish); k' == k && d == c.(worker := Idle, queued := d.queued)
  {
    FinishCases(envs, k, c);
  }

  lemma FinishWithoutWriteKeeps(envs: seq<string>, k: Clocks, c: Cell)
    requires envs != [] && Inv(envs, k, c) && c.worker.GotBoth?
    requires Next(envs, k, c, Finish).1.local == c.local
    ensures Inv(envs, k, Next(envs, k, c, Finish).1)
    ensures Next(envs, k, c, Finish).0 == k
  {
    var queued := Next(envs, k, c, Finish).1.queued;
    FinishWithoutWriteIdles(envs, k, c);
    FinishWithoutWriteProgresses(envs, k, c);
    IdleKeepsInv(envs, k, c, queued);
  }

  lemma FinishWithWriteKeepsLocalOk(envs: seq<string>, k: Clocks, c: Cell)
    requires envs != [] && LocalOk(k, c) && WorkerOk(envs, k, c) && c.worker.GotBoth?
    requires Next(envs, k, c, Finish).1.local != c.local
    ensures LocalOk(k.(local := k.local + 1), StoreLocal(c, Next(envs, k, c, Finish).1.local))
  {
    FinishCases(envs, k, c);
    if Next(envs, k, c, Finish).1.local.None? {
      DeleteKeepsLocalOk(k, c);
    } else if c.local.None? {
      WriteKeepsLocalOk(envs, k, c, BLANK);
    } else {
      WriteKeepsLocalOk(envs, k, c, c.worker.local.value);
    }
  }

  /** A create or a delete wakes the controller; an update is a mirror of the cached remote object,
      unless something else wakes it. */
  lemma FinishWithWriteProgresses(envs: seq<string>, k: Clocks, c: Cell)
    requires envs != [] && Inv(envs, k, c) && c.worker.GotBoth?
    requires Next(envs, k, c, Finish).1.local != c.local
    ensures ProgressOk(Next(envs, k, c, Finish).1)
  {
    var d, r := Next(envs, k, c, Finish).1, c.worker.remote;
    FinishCases(envs, k, c);
    StoreWakes(c, d.local);
    assert c.queued ==> d.queued;
    SameStores(envs, k, StoreLocal(c, d.local), d);
    if d.local.Some? {
      WritesMirror(r.value, if c.local.None? then BLANK else c.worker.local.value);
      if c.local.None? {
        OwnWriteEvents(r.value, None, BLANK, k.local);
      }
    }
  }

  lemma StoreKeepsRemoteOk(envs: seq<string>, k: Clocks, c: Cell, n: Version)
    requires RemoteOk(envs, k, c)
    ensures RemoteOk(envs, k.(local := k.local + 1), StoreLocal(c, n))
  {
    assert RemoteChain(StoreLocal(c, n)) == RemoteChain(c);
  }

  lemma FinishWithWriteKeeps(envs: seq<string>, k: Clocks, c: Cell)
    requires envs != [] && Inv(envs, k, c) && c.worker.GotBoth?
    requires Next(envs, k, c, Finish).1.local != c.local
    ensures var (k', c') := Next(envs, k, c, Finish); k' == k.(local := k.local + 1) && Inv(envs, k', c')
  {
    var (k', d) := Next(envs, k, c, Finish);
    FinishCases(envs, k, c);
    assert k' == k.(local := k.local + 1);
    FinishWithWriteKeepsLocalOk(envs, k, c);
    FinishWithWriteProgresses(envs, k, c);
    var w := StoreLocal(c, d.local);
    assert d == w.(worker := Idle, queued := d.queued);
    StoreKeepsRemoteOk(envs, k, c, d.local);
    IdleKeepsInv(envs, k', w, d.queued);
  }

  /** The inductive step: whatever happens next, the invariant survives. */
  lemma StepKeepsInv(envs: seq<string>, k: Clocks, c: Cell, s: Step)
    requires envs != [] && Inv(envs, k, c) && Enabled(c, s)
    ensures var (k', c') := Next(envs, k, c, s); Inv(envs, k', c') && k'.remote >= k.remote && k'.local >= k.local
  {
    match s
    case RemoteEdit(next) => RemoteEditKeeps(envs, k, c, next);
    case ForeignEdit(next) => ForeignEditKeeps(envs, k, c, next);
    case DeliverRemote => DeliverRemoteKeeps(envs, k, c);
    case DeliverLocal => DeliverLocalKeeps(envs, k, c);
    case Take => TakeKeeps(envs, k, c);
    case ReadRemote => ReadRemoteKeeps(envs, k, c);
    case ReadLocal => ReadLocalKeeps(envs, k, c);
    case Abort => AbortKeeps(envs, k, c);
    case Restart => RestartKeeps(envs, k, c);
    case Finish =>
      if Next(envs, k, c, Finish).1.local == c.local {
        FinishWithoutWriteKeeps(envs, k, c);
      } else {
        FinishWithWriteKeeps(envs, k, c);
      }
  }

  /** Steps on other names only move the clocks. */
  lemma LaterClocksKeepInv(envs: seq<string>, k: Clocks, k': Clocks, c: Cell)
    requires Inv(envs, k, c) && k'.remote >= k.remote && k'.local >= k.local
    ensures Inv(envs, k', c)
  {
    assert forall v | v in LocalChain(c) && v.Some? :: LocalVersionOk(k, c, v.value) ==> LocalVersionOk(k', c, v.value);
  }

  // ---------------------------------------------------------------- whole systems, whole runs

  datatype System = System(clocks: Clocks, cells: map<string, Cell>)

  /** Before the controller has started: nothing mirrored, nothing cached; remote objects and unmanaged
      local objects may exist, the latter with version annotations of an earlier life. */
  ghost predicate Initial(envs: seq<string>, s: System) {
    && 0 < s.clocks.local
    && forall n :: n in s.cells ==> InitialCell(envs, s.clocks, s.cells[n])
  }

  ghost predicate InitialCell(envs: seq<string>, k: Clocks, c: Cell) {
    && (c.remote.Some? ==> c.remote.value.rv < k.remote)
    && (c.local.Some? ==> StoredOk(k, c, c.local.value) && !IsManaged(c.local.value.labels))
    && c == Cell(c.remote, c.local, None, None, Emit([], None, RemoteView(envs, c.remote)), [], false, Idle)
  }

  ghost predicate SystemStep(envs: seq<string>, s: System, t: System, name: string, step: Step) {
    && name in s.cells
    && Enabled(s.cells[name], step)
    && var (k, c) := Next(envs, s.clocks, s.cells[name], step);
       t == System(k, s.cells[name := c])
  }

  /** A run: any number of steps by anybody on any names, in any order. */
  ghost predicate IsRun(envs: seq<string>, run: seq<System>) {
    && run != []
    && if |run| == 1 then Initial(envs, run[0])
       else IsRun(envs, run[..|run| - 1]) && Moves(envs, run[|run| - 2], run[|run| - 1])
  }

  ghost predicate Moves(envs: seq<string>, s: System, t: System) {
    exists name, step :: SystemStep(envs, s, t, name, step)
  }

  ghost predicate SystemInv(envs: seq<string>, s: System) {
    forall n :: n in s.cells ==> Inv(envs, s.clocks, s.cells[n])
  }

  lemma InitialInv(envs: seq<string>, k: Clocks, c: Cell)
    requires 0 < k.local && InitialCell(envs, k, c)
    ensures Inv(envs, k, c)
  {
    var rv := RemoteView(envs, c.remote);
    assert RemoteChain(c) == if rv.Some? then [None, rv] else [None];
    assert LocalChain(c) == [None];
  }

  lemma SystemStepKeepsInv(envs: seq<string>, s: System, t: System, name: string, step: Step)
    requires envs != [] && SystemInv(envs, s) && SystemStep(envs, s, t, name, step)
    ensures SystemInv(envs, t)
  {
    StepKeepsInv(envs, s.clocks, s.cells[name], step);
    forall n | n in t.cells ensures Inv(envs, t.clocks, t.cells[n]) {
      if n != name {
        LaterClocksKeepInv(envs, s.clocks, t.clocks, s.cells[n]);
      }
    }
  }

  lemma {:induction false} RunKeepsInv(envs: seq<string>, run: seq<System>)
    requires envs != [] && IsRun(envs, run)
    ensures SystemInv(envs, run[|run| - 1])
  {
    var t := run[|run| - 1];
    if |run| == 1 {
      forall n | n in t.cells ensures Inv(envs, t.clocks, t.cells[n]) {
        InitialInv(envs, t.clocks, t.cells[n]);
      }
    } else {
      var s := run[|run| - 2];
      assert run[..|run| - 1][|run| - 2] == s;
      RunKeepsInv(envs, run[..|run| - 1]);
      var name, step :| SystemStep(envs, s, t, name, step);
      SystemStepKeepsInv(envs, s, t, name, step);
    }
  }

  /** No event on its way, nothing queued, nobody working on the name. */
  predicate Quiet(c: Cell) {
    !c.queued && c.worker.Idle? && c.remoteWatch == [] && c.localWatch == []
  }

  /** The mirroring theorem: at every moment of every run, each name that is quiet has a managed
      local object exactly when a selected remote object exists, and then the one mirrors the
      other. */
  lemma QuietNamesAgree(envs: seq<string>, run: seq<System>, name: string)
    requires envs != [] && IsRun(envs, run) && name in run[|run| - 1].cells
    requires Quiet(run[|run| - 1].cells[name])
    ensures var c := run[|run| - 1].cells[name];
            && Agree(RemoteView(envs, c.remote), LocalView(c.local))
            && (RemoteView(envs, c.remote).Some? ==> CarriesLabels(c.remote.value.labels, c.local.value.labels))
  {
    var c := run[|run| - 1].cells[name];
    RunKeepsInv(envs, run);
    assert Inv(envs, run[|run| - 1].clocks, c);
    assert Agree(RemoteView(envs, c.remote), LocalView(c.local));
    if RemoteView(envs, c.remote).Some? {
      ManagedLabelsMean(c.remote.value.labels, c.local.value.labels);
    }
  }
}
