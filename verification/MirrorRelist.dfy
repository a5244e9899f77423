/** The mirroring protocol without its assumption that every event is delivered: a local watch that
    breaks off and lists again hands over one event for all those missed, from the version in the
    cache to the newest. When the filter for own writes then drops an edit of somebody else's. */
module MirrorRelist {
  import opened Text
  import opened Kube
  import opened ConfigMirror
  import opened MirrorProtocol
  import opened MirrorDrain

  /** The pending local events are lost, and one takes their place. */
  function Relisted(c: Cell): Cell {
    c.(localCache := LocalView(c.local), localWatch := [],
       queued := c.queued || LocalPasses(c.localCache, LocalView(c.local)))
  }

  // ---------------------------------------------------------------- which events are dropped

  function Stamp(o: ConfigMap): string {
    Lookup(o.annotations, LAST_GENERATION)
  }

  /** A version stamped with the one it replaces, as the controller does it. */
  predicate IsOwnWrite(before: ConfigMap, after: ConfigMap) {
    Stamp(after) == VersionString(before.rv)
  }

  /** A version with the stamp it had, as everybody else leaves it. */
  predicate IsForeignWrite(before: ConfigMap, after: ConfigMap) {
    Stamp(after) == Stamp(before)
  }

  predicate IsOwnAt(versions: seq<ConfigMap>, i: nat)
    requires 0 < i < |versions|
  {
    IsOwnWrite(versions[i - 1], versions[i])
  }

  predicate IsForeignAt(versions: seq<ConfigMap>, i: nat)
    requires 0 < i < |versions|
  {
    IsForeignWrite(versions[i - 1], versions[i])
  }

  /** Versions of one managed object, from the one in the cache to the newest, without gaps. */
  ghost predicate IsChain(versions: seq<ConfigMap>) {
    && versions != []
    && LastGenerationIsOld(versions[0])
    && (forall i, j :: 0 <= i < j < |versions| ==> versions[i].rv < versions[j].rv)
    && (forall i :: 0 < i < |versions| ==> IsOwnAt(versions, i) || IsForeignAt(versions, i))
  }

  /** The last of the versions up to n that the controller wrote, or 0 if it wrote none of them. */
  function LastOwnWrite(versions: seq<ConfigMap>, n: nat): (k: nat)
    requires n < |versions|
    ensures k <= n && (k > 0 ==> IsOwnAt(versions, k))
    ensures forall i :: k < i <= n ==> !IsOwnAt(versions, i)
  {
    if n == 0 || IsOwnAt(versions, n) then n else LastOwnWrite(versions, n - 1)
  }

  /** The stamp is the one that the last own write left. */
  lemma {:induction false} StampOfNewest(versions: seq<ConfigMap>, n: nat)
    requires n < |versions| && forall i :: 0 < i < |versions| ==> IsOwnAt(versions, i) || IsForeignAt(versions, i)
    ensures Stamp(versions[n]) == Stamp(versions[LastOwnWrite(versions, n)])
  {
    if n > 0 && !IsOwnAt(versions, n) {
      assert IsForeignAt(versions, n);
      StampOfNewest(versions, n - 1);
    }
  }

  /** The one event for all versions is dropped exactly if the first write was the controller's and
      all others were not. With a single write that is as it should be; with more, edits are lost. */
  lemma RelistDrops(versions: seq<ConfigMap>)
    requires IsChain(versions) && |versions| > 1
    requires IsManaged(versions[|versions| - 1].labels) && versions[|versions| - 1].annotations != map[]
    ensures !LocalPasses(Some(versions[0]), Some(versions[|versions| - 1])) <==>
            IsOwnAt(versions, 1) && forall i :: 1 < i < |versions| ==> !IsOwnAt(versions, i)
  {
    var n := |versions| - 1;
    var k := LastOwnWrite(versions, n);
    StampOfNewest(versions, n);
    if k > 0 {
      VersionRoundTrip(versions[0].rv);
      VersionRoundTrip(versions[k - 1].rv);
    }
  }

  // ---------------------------------------------------------------- what becomes of the protocol

  lemma RelistKeepsLocalOk(k: Clocks, c: Cell)
    requires LocalOk(k, c)
    ensures LocalOk(k, Relisted(c))
  {
    var d, now := Relisted(c), LocalView(c.local);
    assert now == LocalChain(c)[|c.localWatch|];
    assert LocalChain(d) == [now] && RemoteChain(d) == RemoteChain(c);
    assert now.Some? ==> LocalVersionOk(k, c, now.value);
  }

  /** Listing the local objects anew keeps the protocol invariant exactly if the one event passes the
      filter, or the name is queued already, or nothing is left to do that the worker, busy or
      idle, is not about to do. */
  lemma RelistKeepsInv(envs: seq<string>, k: Clocks, c: Cell)
    requires Inv(envs, k, c)
    ensures Inv(envs, k, Relisted(c)) <==>
            c.queued || LocalPasses(c.localCache, LocalView(c.local)) || OnTrack(c)
  {
    var d := Relisted(c);
    assert LocalView(c.local) == LocalChain(c)[|c.localWatch|];
    assert LocalChain(d) == [LocalView(c.local)] && RemoteChain(d) == RemoteChain(c);
    RelistKeepsLocalOk(k, c);
    WorkerOkCarries(envs, k, c, k, d);
    assert RemoteOk(envs, k, d);
    assert Wakes(d) <==> d.queued;
    assert OnTrack(d) <==> OnTrack(c);
  }

  /** The same for the remote watch. */
  function RemoteRelisted(envs: seq<string>, c: Cell): Cell {
    c.(remoteCache := RemoteView(envs, c.remote), remoteWatch := [],
       queued := c.queued || RemotePasses(envs, c.remoteCache, RemoteView(envs, c.remote)))
  }

  /** Listing the remote objects anew loses nothing: every change of version passes the filter. */
  lemma RemoteRelistKeepsInv(envs: seq<string>, k: Clocks, c: Cell)
    requires Inv(envs, k, c)
    ensures RemotePasses(envs, c.remoteCache, RemoteView(envs, c.remote)) <==>
            c.remoteCache != RemoteView(envs, c.remote)
    ensures Inv(envs, k, RemoteRelisted(envs, c))
  {
    var d, chain := RemoteRelisted(envs, c), RemoteChain(c);
    assert chain[0] == c.remoteCache && chain[|c.remoteWatch|] == RemoteView(envs, c.remote);
    assert RemoteChain(d) == [chain[|c.remoteWatch|]] && LocalChain(d) == LocalChain(c);
    RemoteGrowthKeepsLocalOk(k, c, k, d);
    WorkerOkCarries(envs, k, c, k, d);
    assert Wakes(c) ==> Wakes(d);
    if OnTrack(c) && d.remoteCache == c.remoteCache {
      OnTrackCarries(k, c, d);
    }
  }

  /** On a quiet name a newer remote version makes the controller update the copy. */
  lemma MovedIsUpdated(envs: seq<string>, k: Clocks, c: Cell, n: ConfigMap)
    requires envs != [] && Inv(envs, k, c) && Quiet(c) && RemoteView(envs, c.remote).Some?
    requires EnvSelected(n.labels, envs) && n.rv == k.remote
    ensures LocalView(c.local).Some? && c.localCache == c.local
    ensures Decide(Some(envs), Some(n), c.local) == Update(Stamped(Mirrored(n, c.local.value)))
  {
    assert c.localCache == LocalChain(c)[|c.localWatch|] == LocalView(c.local);
    assert Agree(RemoteView(envs, c.remote), LocalView(c.local));
    var l, r := c.local.value, c.remote.value;
    KeysDiffer();
    assert LAST_REMOTE_GENERATION in l.annotations - {LAST_GENERATION};
    assert l.annotations[LAST_REMOTE_GENERATION] == VersionString(r.rv);
    VersionRoundTrip(r.rv);
    VersionRoundTrip(n.rv);
  }

  /** A remote edit mirrored by the controller. */
  lemma MirrorsAnEdit(envs: seq<string>, k: Clocks, c: Cell, edited: ConfigMap) returns (k': Clocks, d: Cell)
    requires envs != [] && Inv(envs, k, c) && Quiet(c) && RemoteView(envs, c.remote).Some?
    requires EnvSelected(edited.labels, envs)
    ensures var steps := [RemoteEdit(Some(edited)), DeliverRemote] + READING + [Finish];
            Follow(envs, k, c, steps) == Some((k', d))
    ensures c.local.Some? && k'.local == k.local + 1 && c.localCache == c.local
    ensures d.remote == Some(edited.(rv := k.remote)) && d.remoteWatch == [] && !d.queued && d.worker.Idle?
    ensures d.local == Some(Written(d.remote.value, c.local.value, k.local))
    ensures d.localCache == c.localCache && d.localWatch == [d.local]
  {
    var n := edited.(rv := k.remote);
    var read := [RemoteEdit(Some(edited)), DeliverRemote] + READING;
    EditIsRead(envs, k, c, Some(edited));
    var (k4, c4) := Follow(envs, k, c, read).value;
    MovedIsUpdated(envs, k, c, n);
    FollowOneMore(envs, k, c, read, Finish);
    k', d := Follow(envs, k, c, read + [Finish]).value.0, Follow(envs, k, c, read + [Finish]).value.1;
    WritesMirror(n, c.local.value);
  }

  /** An edit that is lost: from any quiet mirrored name, the controller mirrors a remote edit, then
      somebody overwrites the copy, leaving the annotations alone; listing anew before either event
      is delivered leaves the name quiet, with the clusters in disagreement. */
  lemma EditLostInRelist(envs: seq<string>, k: Clocks, c: Cell, edited: ConfigMap, data: Meta)
    requires envs != [] && Inv(envs, k, c) && Quiet(c) && RemoteView(envs, c.remote).Some?
    requires EnvSelected(edited.labels, envs) && data != edited.data
    ensures var steps := [RemoteEdit(Some(edited)), DeliverRemote] + READING + [Finish];
            && Follow(envs, k, c, steps).Some?
            && var (k', d) := Follow(envs, k, c, steps).value;
               && d.local.Some?
               && var s := ForeignEdit(Some(d.local.value.(data := data)));
                  && Enabled(d, s)
                  && var e := Relisted(Next(envs, k', d, s).1);
                     Quiet(e) && !Agree(RemoteView(envs, e.remote), LocalView(e.local))
  {
    var k', d := MirrorsAnEdit(envs, k, c, edited);
    WritesMirror(d.remote.value, c.local.value);
  }
}
