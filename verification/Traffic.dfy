/** The traffic list of a service: finding, removing and building the target of the edge proxy
    (pkg/controllers/utils/controllers.go, pkg/controllers/edge/kservice_reconciler.go). */
module Traffic {
  import opened Text

  /** A Knative traffic target; the two optional fields are pointers. */
  datatype Target = Target(tag: string, revisionName: string, latestRevision: Option<bool>, percent: Option<int>)

  predicate IsProxy(t: Target) {
    HasPrefix(t.tag, EDGE_PROXY_PREFIX)
  }

  predicate IsLatest(t: Target) {
    t.latestRevision == Some(true)
  }

  function EdgeProxyTarget(ts: seq<Target>): Option<Target> {
    if ts == [] then None else if IsProxy(ts[0]) then Some(ts[0]) else EdgeProxyTarget(ts[1..])
  }

  function LatestRevisionTarget(ts: seq<Target>): Option<Target> {
    if ts == [] then None else if IsLatest(ts[0]) then Some(ts[0]) else LatestRevisionTarget(ts[1..])
  }

  lemma {:induction false} TargetSearch(ts: seq<Target>)
    ensures EdgeProxyTarget(ts).None? <==> forall t :: t in ts ==> !IsProxy(t)
    ensures EdgeProxyTarget(ts).Some? ==> EdgeProxyTarget(ts).value in ts && IsProxy(EdgeProxyTarget(ts).value)
    ensures LatestRevisionTarget(ts).None? <==> forall t :: t in ts ==> !IsLatest(t)
    ensures LatestRevisionTarget(ts).Some? ==>
              LatestRevisionTarget(ts).value in ts && IsLatest(LatestRevisionTarget(ts).value)
  {
    if ts != [] {
      TargetSearch(ts[1..]);
      assert forall t :: t in ts <==> t == ts[0] || t in ts[1..];
    }
  }

  /** The target at k is the first with a proxy tag. */
  ghost predicate FirstProxy(ts: seq<Target>, k: nat) {
    k < |ts| && "edge-proxy-" <= ts[k].tag && forall j :: 0 <= j < k ==> !("edge-proxy-" <= ts[j].tag)
  }

  /** The target at k is the first that is marked as the latest. */
  ghost predicate FirstLatest(ts: seq<Target>, k: nat) {
    k < |ts| && ts[k].latestRevision == Some(true) && forall j :: 0 <= j < k ==> ts[j].latestRevision != Some(true)
  }

  /** What the searches find is the first of its kind. */
  lemma {:induction false} FirstTarget(ts: seq<Target>, k: nat)
    ensures FirstProxy(ts, k) ==> EdgeProxyTarget(ts) == Some(ts[k])
    ensures FirstLatest(ts, k) ==> LatestRevisionTarget(ts) == Some(ts[k])
  {
    if 0 < k < |ts| {
      FirstTarget(ts[1..], k - 1);
      assert FirstProxy(ts, k) ==> FirstProxy(ts[1..], k - 1);
      assert FirstLatest(ts, k) ==> FirstLatest(ts[1..], k - 1);
    }
  }

  // ---------------------------------------------------------------- removing

  /** RemoveEdgeProxyTarget: the targets that are kept. */
  function WithoutProxy(ts: seq<Target>): seq<Target> {
    if ts == [] then [] else (if IsProxy(ts[0]) then [] else [ts[0]]) + WithoutProxy(ts[1..])
  }

  function PercentSum(ts: seq<Target>): int {
    if ts == [] then 0 else (if ts[0].percent.Some? then ts[0].percent.value else 0) + PercentSum(ts[1..])
  }

  function ProxyPercentSum(ts: seq<Target>): int {
    if ts == [] then 0
    else (if IsProxy(ts[0]) && ts[0].percent.Some? then ts[0].percent.value else 0) + ProxyPercentSum(ts[1..])
  }

  lemma {:induction false} WithoutProxySnoc(ts: seq<Target>, t: Target)
    ensures WithoutProxy(ts + [t]) == WithoutProxy(ts) + if IsProxy(t) then [] else [t]
  {
    if ts == [] {
      assert ts + [t] == [t] && [t][1..] == [];
    } else {
      WithoutProxySnoc(ts[1..], t);
      assert (ts + [t])[0] == ts[0] && (ts + [t])[1..] == ts[1..] + [t];
    }
  }

  /** Removal works target by target, so the order of those kept is the order they had. */
  lemma {:induction false} RemovalKeepsOrder(ts: seq<Target>, us: seq<Target>)
    ensures WithoutProxy(ts + us) == WithoutProxy(ts) + WithoutProxy(us)
  {
    if us == [] {
      assert ts + us == ts && WithoutProxy(ts) + [] == WithoutProxy(ts);
    } else {
      var n := |us| - 1;
      var last := if IsProxy(us[n]) then [] else [us[n]];
      assert us == us[..n] + [us[n]] && ts + us == (ts + us[..n]) + [us[n]];
      WithoutProxySnoc(us[..n], us[n]);
      WithoutProxySnoc(ts + us[..n], us[n]);
      RemovalKeepsOrder(ts, us[..n]);
      assert (WithoutProxy(ts) + WithoutProxy(us[..n])) + last == WithoutProxy(ts) + (WithoutProxy(us[..n]) + last);
    }
  }

  lemma {:induction false} RemovalCounts(ts: seq<Target>, t: Target)
    ensures multiset(WithoutProxy(ts))[t] == if IsProxy(t) then 0 else multiset(ts)[t]
  {
    if ts != [] {
      RemovalCounts(ts[1..], t);
      assert ts == [ts[0]] + ts[1..];
    }
  }

  lemma {:induction false} RemovalSums(ts: seq<Target>)
    ensures PercentSum(WithoutProxy(ts)) == PercentSum(ts) - ProxyPercentSum(ts)
  {
    if ts != [] {
      RemovalSums(ts[1..]);
      var rest := WithoutProxy(ts[1..]);
      if IsProxy(ts[0]) {
        assert WithoutProxy(ts) == rest;
      } else {
        assert WithoutProxy(ts)[0] == ts[0] && WithoutProxy(ts)[1..] == rest;
      }
    }
  }

  lemma {:induction false} RemovalIsComplete(ts: seq<Target>)
    ensures EdgeProxyTarget(WithoutProxy(ts)).None?
    ensures WithoutProxy(WithoutProxy(ts)) == WithoutProxy(ts)
  {
    if ts != [] {
      RemovalIsComplete(ts[1..]);
      var rest := WithoutProxy(ts[1..]);
      if IsProxy(ts[0]) {
        assert WithoutProxy(ts) == rest;
      } else {
        assert WithoutProxy(ts)[0] == ts[0] && WithoutProxy(ts)[1..] == rest;
      }
    }
  }

  /** Removal keeps exactly the other targets, how often each occurs, and takes exactly the proxy
      percentages off the sum; nothing is left to find, and a second removal changes nothing. */
  lemma RemovalIsAFilter(ts: seq<Target>, t: Target)
    ensures multiset(WithoutProxy(ts))[t] == if IsProxy(t) then 0 else multiset(ts)[t]
    ensures PercentSum(WithoutProxy(ts)) == PercentSum(ts) - ProxyPercentSum(ts)
    ensures EdgeProxyTarget(WithoutProxy(ts)).None?
    ensures WithoutProxy(WithoutProxy(ts)) == WithoutProxy(ts)
  {
    RemovalCounts(ts, t);
    RemovalSums(ts);
    RemovalIsComplete(ts);
  }

  // ---------------------------------------------------------------- building

  /** 100 - split in 64-bit arithmetic. */
  function Remainder(split: int): int {
    Wrap64(100 - split)
  }

  function LatestEntry(ts: seq<Target>, split: int): Target {
    match LatestRevisionTarget(ts)
    case Some(t) => t.(percent := Some(Remainder(split)))
    case None => Target("", "", Some(true), Some(Remainder(split)))
  }

  function ProxyEntry(ts: seq<Target>, split: int, ready: string, generation: int): Target {
    match EdgeProxyTarget(ts)
    case Some(t) => t.(revisionName := ready, tag := TargetTag(generation), percent := Some(split))
    case None => Target(TargetTag(generation), ready, None, Some(split))
  }

  /** Whether reconcileKService gets as far as writing the traffic: the proxy configuration has a
      ready revision, or there was a proxy target before. */
  predicate CanRoute(ts: seq<Target>, ready: string) {
    EdgeProxyTarget(ts).Some? || ready != ""
  }

  /** The list reconcileKService writes. */
  function BuildTraffic(ts: seq<Target>, split: int, ready: string, generation: int): seq<Target> {
    [LatestEntry(ts, split), ProxyEntry(ts, split, ready, generation)]
  }

  ghost predicate NoneIsBoth(ts: seq<Target>) {
    forall t :: t in ts ==> !(IsProxy(t) && IsLatest(t))
  }

  /** The list always starts with a latest target and ends with a proxy target. These are its only
      ones exactly when the first latest target was not proxy-tagged and the first proxy target was
      not latest; the percentages add up to 100 exactly when the subtraction did not wrap around. */
  lemma TrafficShape(ts: seq<Target>, split: int, ready: string, generation: nat)
    requires IsInt64(split)
    ensures var r := BuildTraffic(ts, split, ready, generation);
            && IsLatest(r[0]) && IsProxy(r[1])
            && r[1].revisionName == ready && r[1].tag == TargetTag(generation) && r[1].percent == Some(split)
            && (PercentSum(r) == 100 <==> split >= 100 - MAX_INT64)
            && (NoneIsBoth(r) <==>
                  (LatestRevisionTarget(ts).Some? ==> !IsProxy(LatestRevisionTarget(ts).value)) &&
                  (EdgeProxyTarget(ts).Some? ==> !IsLatest(EdgeProxyTarget(ts).value)))
            && (NoneIsBoth(ts) ==> NoneIsBoth(r))
  {
    TargetSearch(ts);
    TagsAreDistinct(generation, generation);
    var r := BuildTraffic(ts, split, ready, generation);
    assert !HasPrefix("", EDGE_PROXY_PREFIX);
    assert PercentSum(r) == r[0].percent.value + r[1].percent.value by {
      assert PercentSum(r[1..]) == r[1].percent.value + PercentSum(r[1..][1..]);
    }
    assert r[0] in r && r[1] in r;
    assert forall t :: t in r ==> t == r[0] || t == r[1];
  }

  /** The two entries of a built list, field by field: the first latest target keeps its tag, its revision
      name and the mark, and gets what is left of 100 percent; the first proxy target keeps
      its mark, and gets the ready revision, the tag of the generation and the split. */
  lemma EntriesKeep(ts: seq<Target>, split: int, ready: string, generation: int, k: nat)
    requires IsInt64(split)
    ensures var r := BuildTraffic(ts, split, ready, generation);
            && |r| == 2
            && (FirstLatest(ts, k) ==> (r[0].tag, r[0].revisionName) == (ts[k].tag, ts[k].revisionName))
            && ((forall t :: t in ts ==> t.latestRevision != Some(true)) ==> r[0].tag == r[0].revisionName == "")
            && r[0].latestRevision == Some(true)
            && r[0].percent.Some?
            && r[0].percent.value + split == (if 100 - split <= MAX_INT64 then 100 else 100 - 0x1_0000_0000_0000_0000)
            && (FirstProxy(ts, k) ==> r[1].latestRevision == ts[k].latestRevision)
            && ((forall t :: t in ts ==> !("edge-proxy-" <= t.tag)) ==> r[1].latestRevision == None)
            && r[1].percent == Some(split) && r[1].revisionName == ready && r[1].tag == TargetTag(generation)
  {
    FirstTarget(ts, k);
    TargetSearch(ts);
  }

  /** There is something to route to if the proxy is ready, or a proxy target is in the list. */
  lemma CanRouteMeans(ts: seq<Target>, ready: string)
    ensures CanRoute(ts, ready) <==> ready != "" || exists t :: t in ts && "edge-proxy-" <= t.tag
  {
    TargetSearch(ts);
  }

  /** The shape every built list has. */
  predicate IsPair(ts: seq<Target>) {
    |ts| == 2 && IsLatest(ts[0]) && IsProxy(ts[1])
  }

  lemma BuiltIsPair(ts: seq<Target>, split: int, ready: string, generation: nat)
    ensures IsPair(BuildTraffic(ts, split, ready, generation))
    ensures EdgeProxyTarget(BuildTraffic(ts, split, ready, generation)).Some?
  {
    TargetSearch(ts);
    TargetSearch(BuildTraffic(ts, split, ready, generation));
    TagsAreDistinct(generation, generation);
  }

  /** The build turns a proxy target into the latest entry and keeps a plain one as the proxy entry. */
  predicate CrossesOver(ts: seq<Target>) {
    && LatestRevisionTarget(ts).Some? && IsProxy(LatestRevisionTarget(ts).value)
    && EdgeProxyTarget(ts).Some? && !IsLatest(EdgeProxyTarget(ts).value)
  }

  /** What the two searches find in a list that has just been built. */
  lemma SearchBuilt(ts: seq<Target>, split: int, ready: string, generation: nat)
    ensures var r := BuildTraffic(ts, split, ready, generation);
            && LatestRevisionTarget(r) == Some(r[0])
            && EdgeProxyTarget(r) == Some(if IsProxy(r[0]) then r[0] else r[1])
            && IsLatest(r[0]) && IsProxy(r[1])
            && (IsProxy(r[0]) <==> LatestRevisionTarget(ts).Some? && IsProxy(LatestRevisionTarget(ts).value))
            && (IsLatest(r[1]) <==> EdgeProxyTarget(ts).Some? && IsLatest(EdgeProxyTarget(ts).value))
  {
    TargetSearch(ts);
    TagsAreDistinct(generation, generation);
    assert !HasPrefix("", EDGE_PROXY_PREFIX);
    var r := BuildTraffic(ts, split, ready, generation);
    assert r[1..][0] == r[1];
  }

  /** Rebuilding a list just built, with the same inputs, leaves it alone exactly if the list it was
      built from does not cross over: not both a proxy-tagged latest target and a proxy target that
      is not latest are found in it. */
  lemma TrafficIsStable(ts: seq<Target>, split: int, ready: string, generation: nat)
    ensures var r := BuildTraffic(ts, split, ready, generation);
            BuildTraffic(r, split, ready, generation) == r <==> !CrossesOver(ts)
  {
    SearchBuilt(ts, split, ready, generation);
    TargetSearch(ts);
    var r := BuildTraffic(ts, split, ready, generation);
    var again := BuildTraffic(r, split, ready, generation);
    assert again == [again[0], again[1]] && r == [r[0], r[1]];
    assert again[0] == r[0];
    if IsProxy(r[0]) {
      assert again[1] == r[0].(revisionName := ready, tag := TargetTag(generation), percent := Some(split));
      assert IsLatest(again[1]);
      assert IsLatest(r[1]) ==> again[1] == r[1];
    } else {
      assert again[1] == r[1];
    }
  }

  /** A list built before, perhaps with other inputs, never crosses over, nor does one in which no
      entry is both latest and proxy. */
  lemma NothingToCross(ts: seq<Target>)
    requires IsPair(ts) || NoneIsBoth(ts)
    ensures !CrossesOver(ts)
  {
    TargetSearch(ts);
    if IsPair(ts) {
      assert ts[1..][0] == ts[1];
    }
  }

  /** So two builds always suffice. */
  lemma TwoBuildsSuffice(ts: seq<Target>, split: int, ready: string, generation: nat)
    ensures var twice := BuildTraffic(BuildTraffic(ts, split, ready, generation), split, ready, generation);
            BuildTraffic(twice, split, ready, generation) == twice
  {
    var once := BuildTraffic(ts, split, ready, generation);
    BuiltIsPair(ts, split, ready, generation);
    NothingToCross(once);
    TrafficIsStable(once, split, ready, generation);
  }

  /** And one is not always enough. */
  lemma BothKindsNeedTwoBuilds()
    ensures var both := Target(EDGE_PROXY_PREFIX + "x", "", Some(true), None);
            var plain := Target(EDGE_PROXY_PREFIX + "y", "", None, None);
            var once := BuildTraffic([plain, both], 0, "ready", 1);
            BuildTraffic(once, 0, "ready", 1) != once
  {
    var both := Target(EDGE_PROXY_PREFIX + "x", "", Some(true), None);
    var plain := Target(EDGE_PROXY_PREFIX + "y", "", None, None);
    assert [plain, both][1..] == [both];
    assert LatestRevisionTarget([plain, both]) == Some(both);
    assert EdgeProxyTarget([plain, both]) == Some(plain);
    TrafficIsStable([plain, both], 0, "ready", 1);
  }
}
