/** Convergence of the offload state machine: with the remote Service, the stored split and the
    readiness of the proxy fixed, repeated reconciles stop writing. */
module OffloadSettles {
  import opened Text
  import opened Kube
  import opened Traffic
  import opened Offload

  // ---------------------------------------------------------------- keys and annotations

  lemma KeysApart()
    ensures LAST_GENERATION != LAST_REMOTE_GENERATION && LAST_GENERATION != PROXY_TRAFFIC
    ensures LAST_GENERATION != FIXED_TRAFFIC && LAST_GENERATION != REMOTE_URL && LAST_GENERATION != REMOTE_HOST
    ensures LAST_REMOTE_GENERATION != PROXY_TRAFFIC && LAST_REMOTE_GENERATION != FIXED_TRAFFIC
    ensures LAST_REMOTE_GENERATION != REMOTE_URL && LAST_REMOTE_GENERATION != REMOTE_HOST
    ensures PROXY_TRAFFIC != FIXED_TRAFFIC && PROXY_TRAFFIC != REMOTE_URL && PROXY_TRAFFIC != REMOTE_HOST
    ensures FIXED_TRAFFIC != REMOTE_URL && FIXED_TRAFFIC != REMOTE_HOST && REMOTE_URL != REMOTE_HOST
  {
    assert |LAST_GENERATION| == 38 && |LAST_REMOTE_GENERATION| == 45 && |PROXY_TRAFFIC| == 32;
    assert |FIXED_TRAFFIC| == 40 && |REMOTE_URL| == 24 && |REMOTE_HOST| == 25;
  }

  /** Every merged annotation is in place, except perhaps the traffic annotation. */
  ghost predicate Carries(a: Meta, merged: Meta) {
    forall k :: k in merged && k != PROXY_TRAFFIC && k != LAST_REMOTE_GENERATION ==> k in a && a[k] == merged[k]
  }

  lemma SplitIsInt64(stored: Option<int>, a: Meta)
    requires stored.Some? ==> IsInt64(stored.value)
    ensures IsInt64(Split(stored, a))
  {
  }

  /** The split may change once, when an unparsable traffic annotation is replaced. */
  lemma SplitIsStable(stored: Option<int>, merged: Meta, a: Meta, b: Meta)
    requires stored.Some? ==> IsInt64(stored.value)
    requires stored.None? && PROXY_TRAFFIC !in merged ==> !ParseInt(Lookup(a, PROXY_TRAFFIC)).failed
    requires FIXED_TRAFFIC in b <==> FIXED_TRAFFIC in a + merged
    requires Lookup(b, FIXED_TRAFFIC) == Lookup(a + merged, FIXED_TRAFFIC)
    requires Carries(b, merged)
    requires PROXY_TRAFFIC in b && b[PROXY_TRAFFIC] == Sprint(Split(stored, a + merged))
    ensures Split(stored, b + merged) == Split(stored, a + merged)
  {
    KeysApart();
    var s := Split(stored, a + merged);
    SplitIsInt64(stored, a + merged);
    PrintParse(s);
    assert Lookup(b + merged, FIXED_TRAFFIC) == Lookup(b, FIXED_TRAFFIC);
    assert Lookup(b + merged, PROXY_TRAFFIC) == if PROXY_TRAFFIC in merged then merged[PROXY_TRAFFIC] else Sprint(s);
  }

  // ---------------------------------------------------------------- the situation

  /** The remote Service is mirrored and offloaded, and does not itself carry the annotation that
      the mirror uses to recognise its own writes. */
  predicate Offloads(p: Settings, r: Service, stored: Option<int>) {
    && HasEdgeSyncLabel(r.labels, p.envs)
    && IsOffloaded(r.labels)
    && LAST_GENERATION !in r.annotations
    && (stored.Some? ==> IsInt64(stored.value))
  }

  predicate InView(st: Store) {
    ServiceView(st.service).Some? && ConfigurationView(st.configuration).Some?
  }

  function Recon(p: Settings, r: Service, stored: Option<int>, st: Store): Store {
    Reconcile(p, Some(r), stored, st).0
  }

  function Routed(st: Store): bool
    requires InView(st)
  {
    CanRoute(Targets(st.service.value.traffic), st.configuration.value.ready)
  }

  ghost predicate ServiceMerged(p: Settings, r: Service, l: Service) {
    && l.labels == WithManagedLabels(r.labels)
    && l.templateLabels == r.templateLabels[LOCAL_LABEL := "true"]
    && l.podSpec == r.podSpec
    && l.traffic != Some([])
    && Carries(l.annotations, MergedAnnotations(p, r))
    && LAST_REMOTE_GENERATION in l.annotations
    && l.annotations[LAST_REMOTE_GENERATION] == VersionString(r.rv)
  }

  /** The Configuration is what buildConfiguration makes of it, but for the generation recorded. */
  ghost predicate ConfigurationBuilt(p: Settings, l: Service, c: Configuration) {
    && BuildConfiguration(p, c, l) == c.(annotations := c.annotations[LAST_GENERATION := Sprint(l.generation)])
  }

  /** After one reconcile: both objects have the right contents; the traffic list has its two
      entries if it can have them. */
  ghost predicate Merged(p: Settings, r: Service, stored: Option<int>, st: Store) {
    && InView(st)
    && var l, c, merged := st.service.value, st.configuration.value, MergedAnnotations(p, r);
       && ServiceMerged(p, r, l)
       && ConfigurationBuilt(p, l, c)
       && (!Routed(st) && PROXY_TRAFFIC in merged ==>
             PROXY_TRAFFIC in l.annotations && l.annotations[PROXY_TRAFFIC] == merged[PROXY_TRAFFIC])
       && (Routed(st) ==>
             && IsPair(Targets(l.traffic))
             && (stored.None? && PROXY_TRAFFIC !in merged ==> !ParseInt(Lookup(l.annotations, PROXY_TRAFFIC)).failed))
  }

  /** After two: the traffic list is the one reconcileKService would write again. */
  ghost predicate TrafficSet(p: Settings, r: Service, stored: Option<int>, st: Store) {
    && Merged(p, r, stored, st)
    && var l, c := st.service.value, st.configuration.value;
       var split := Split(stored, l.annotations + MergedAnnotations(p, r));
       Routed(st) ==>
         && Targets(l.traffic) == BuildTraffic(Targets(l.traffic), split, c.ready, c.generation)
         && PROXY_TRAFFIC in l.annotations && l.annotations[PROXY_TRAFFIC] == Sprint(split)
  }

  /** After three: the Configuration has recorded the generation that the traffic write produced. */
  ghost predicate GenerationRecorded(st: Store) {
    && InView(st)
    && LAST_GENERATION in st.configuration.value.annotations
    && st.configuration.value.annotations[LAST_GENERATION] == Sprint(st.service.value.generation)
  }

  lemma MergedAnnotationsFacts(p: Settings, r: Service, stored: Option<int>)
    requires Offloads(p, r, stored)
    ensures LAST_GENERATION !in MergedAnnotations(p, r)
  {
    KeysApart();
  }

  // ---------------------------------------------------------------- one reconcile, taken apart

  /** The Configuration after one reconcile of a Service that is in view. */
  function ConfigurationAfter(p: Settings, copy: Service, st: Store): Configuration
    requires ConfigurationView(st.configuration).Some? || st.configuration.None?
  {
    var seen := ConfigurationView(st.configuration);
    var built := BuildConfiguration(p, if seen.None? then BLANK_CONFIGURATION else seen.value, copy);
    if seen.Some? && seen.value == built then built
    else StoreConfiguration(seen, StampConfiguration(built, copy), st.clock)
  }

  /** The Service as it would be written, before the last generation is stamped. */
  function ServiceAfter(p: Settings, r: Service, stored: Option<int>, l: Service, c: Configuration): Service {
    var copy := MergeService(p, r, l);
    var ts := Targets(copy.traffic);
    Finalized(r,
      if !CanRoute(ts, c.ready) then copy
      else
        var split := Split(stored, copy.annotations);
        copy.(traffic := Some(BuildTraffic(ts, split, c.ready, c.generation)),
              annotations := copy.annotations[PROXY_TRAFFIC := Sprint(split)]))
  }

  lemma BuiltIsInView(p: Settings, c: Configuration, l: Service)
    ensures ConfigurationInView(BuildConfiguration(p, c, l).labels)
  {
    assert |LOCAL_LABEL| == 19 && |MANAGED_LABEL| == 21 && |CREATED_BY_LABEL| == 24 && |MANAGED_BY_LABEL| == 24;
  }

  lemma ConfigurationStep(p: Settings, r: Service, l: Service, st: Store)
    requires IsOffloaded(r.labels) && l.rv != 0
    requires ConfigurationView(st.configuration).Some? || st.configuration.None?
    ensures var copy := MergeService(p, r, l);
            var (st1, _, failed) := ReconcileConfiguration(p, copy, st);
            && !failed
            && st1.service == st.service
            && st1.configuration == Some(ConfigurationAfter(p, copy, st))
            && ConfigurationView(st1.configuration) == st1.configuration
            && (st1.configuration == st.configuration ==> st1 == st)
            && (st1.configuration != st.configuration ==> st1.clock == st.clock + 1)
  {
    var seen := ConfigurationView(st.configuration);
    BuiltIsInView(p, if seen.None? then BLANK_CONFIGURATION else seen.value, MergeService(p, r, l));
  }

  lemma TrafficStep(p: Settings, r: Service, stored: Option<int>, l: Service, st: Store)
    requires IsOffloaded(r.labels) && ConfigurationView(st.configuration).Some?
    ensures var (copy, st2, _) := ReconcileTraffic(MergeService(p, r, l), stored, st);
            st2 == st && Finalized(r, copy) == ServiceAfter(p, r, stored, l, st.configuration.value)
  {
  }

  lemma CommitStep(r: Service, st: Store, final: Service)
    requires ServiceView(st.service).Some? && IsManaged(final.labels)
    requires LAST_REMOTE_GENERATION in final.annotations &&
             final.annotations[LAST_REMOTE_GENERATION] == VersionString(r.rv)
    ensures var (st', failed) := Commit(r, st.service, final, st);
            && !failed && st'.configuration == st.configuration && ServiceView(st'.service).Some?
            && (st.service.value == final ==> st' == st)
            && (st.service.value != final ==>
                  st'.service == Some(StoreService(st.service, final, st.clock)) && st'.clock > st.clock)
  {
  }

  lemma FinalFacts(p: Settings, r: Service, stored: Option<int>, l: Service, c: Configuration)
    ensures var final := ServiceAfter(p, r, stored, l, c);
            && final.labels == WithManagedLabels(r.labels) && IsManaged(final.labels)
            && LAST_REMOTE_GENERATION in final.annotations
            && final.annotations[LAST_REMOTE_GENERATION] == VersionString(r.rv)
  {
    KeysDiffer();
  }

  /** What one reconcile does to a Service in view whose Configuration is not hidden. */
  lemma OneReconcile(p: Settings, r: Service, stored: Option<int>, st: Store)
    returns (c: Configuration, final: Service, clock: nat)
    requires HasEdgeSyncLabel(r.labels, p.envs) && IsOffloaded(r.labels)
    requires ServiceView(st.service).Some? && st.service.value.rv != 0
    requires ConfigurationView(st.configuration).Some? || st.configuration.None?
    ensures c == ConfigurationAfter(p, MergeService(p, r, st.service.value), st)
    ensures final == ServiceAfter(p, r, stored, st.service.value, c)
    ensures InView(Recon(p, r, stored, st))
    ensures Recon(p, r, stored, st).configuration == Some(c)
    ensures Recon(p, r, stored, st).service ==
            if st.service.value == final then st.service else Some(StoreService(st.service, final, clock))
    ensures st.configuration == Some(c) && st.service.value == final ==> Recon(p, r, stored, st) == st
    ensures clock >= st.clock && Recon(p, r, stored, st).clock >= st.clock
    ensures st.service.value != final ==> Recon(p, r, stored, st).clock > clock
    ensures st.configuration == Some(c) ==>
              clock == st.clock && (st.service.value != final ==> Recon(p, r, stored, st).clock == st.clock + 1)
  {
    var l := st.service.value;
    ConfigurationStep(p, r, l, st);
    var st1 := ReconcileConfiguration(p, MergeService(p, r, l), st).0;
    c, clock := st1.configuration.value, st1.clock;
    TrafficStep(p, r, stored, l, st1);
    FinalFacts(p, r, stored, l, c);
    final := ServiceAfter(p, r, stored, l, c);
    CommitStep(r, st1, final);
    assert Reconcile(p, Some(r), stored, st) == Mirror(p, r, stored, Some(l), st);
    assert Recon(p, r, stored, st) == Commit(r, Some(l), final, st1).0;
  }

  // ---------------------------------------------------------------- the first reconcile

  /** What an API server stores has a version, and no empty traffic list. */
  predicate Stored(st: Store) {
    && 0 < st.clock
    && (st.service.Some? ==> 0 < st.service.value.rv < st.clock && st.service.value.traffic != Some([]))
  }

  lemma WriteKeepsStored(st: Store, st': Store, final: Service, clock: nat)
    requires Stored(st) && st.service.Some? && clock >= st.clock && st'.clock >= st.clock
    requires st'.service ==
             if st.service.value == final then st.service else Some(StoreService(st.service, final, clock))
    requires st.service.value != final ==> st'.clock > clock
    ensures Stored(st')
  {
  }

  lemma ReconKeepsStored(p: Settings, r: Service, stored: Option<int>, st: Store)
    requires HasEdgeSyncLabel(r.labels, p.envs) && IsOffloaded(r.labels) && Stored(st) && ServiceView(st.service).Some?
    requires ConfigurationView(st.configuration).Some? || st.configuration.None?
    ensures Stored(Recon(p, r, stored, st))
  {
    var c, final, clock := OneReconcile(p, r, stored, st);
    WriteKeepsStored(st, Recon(p, r, stored, st), final, clock);
  }

  lemma BuildAgain(p: Settings, c: Configuration, a: Service, b: Service)
    requires Lookup(a.annotations, REMOTE_URL) == Lookup(b.annotations, REMOTE_URL)
    requires Lookup(a.annotations, REMOTE_HOST) == Lookup(b.annotations, REMOTE_HOST)
    ensures BuildSpec(p, BuildSpec(p, c.spec, a), b) == BuildSpec(p, c.spec, a)
    ensures var built := BuildConfiguration(p, c, a);
            BuildConfiguration(p, built, b) ==
            built.(annotations := built.annotations[LAST_GENERATION := Sprint(b.generation)])
  {
    assert |LOCAL_LABEL| == 19 && |MANAGED_LABEL| == 21 && |CREATED_BY_LABEL| == 24 && |MANAGED_BY_LABEL| == 24;
    assert CREATED_BY_LABEL[14] != MANAGED_BY_LABEL[14];
    var built := BuildConfiguration(p, c, a);
    assert BuildConfiguration(p, built, b).labels == built.labels;
    var once := BuildSpec(p, c.spec, a);
    var twice := BuildSpec(p, once, b);
    assert twice.containers == once.containers;
    assert |"autoscaling.knative.dev/min-scale"| == |"autoscaling.knative.dev/max-scale"|;
    assert "autoscaling.knative.dev/min-scale"[25] != "autoscaling.knative.dev/max-scale"[25];
    assert twice.templateAnnotations == once.templateAnnotations;
    assert twice.templateLabels == once.templateLabels;
  }

  /** The Service left behind is the final one, stored or found in place. */
  ghost predicate LeavesBehind(l: Service, final: Service, l': Service) {
    (l == final && l' == l) || exists clock :: l' == StoreService(Some(l), final, clock)
  }

  /** The annotations after the traffic annotation, the remote version and the stamp of the write
      have been put over those merged. */
  function Over(merged: Meta, traffic: Option<string>, remote: string, own: Option<string>): Meta {
    var m := (if traffic.Some? then merged[PROXY_TRAFFIC := traffic.value] else merged)
             [LAST_REMOTE_GENERATION := remote];
    if own.Some? then m[LAST_GENERATION := own.value] else m
  }

  lemma OverFrames(merged: Meta, traffic: Option<string>, remote: string, own: Option<string>, k: string)
    ensures var b := Over(merged, traffic, remote, own);
            && LAST_REMOTE_GENERATION in b && b[LAST_REMOTE_GENERATION] == remote
            && (traffic.Some? ==> PROXY_TRAFFIC in b && b[PROXY_TRAFFIC] == traffic.value)
            && (k != LAST_REMOTE_GENERATION && k != LAST_GENERATION && (k == PROXY_TRAFFIC ==> traffic.None?) ==>
                  (k in b <==> k in merged) && Lookup(b, k) == Lookup(merged, k))
  {
    KeysApart();
  }

  lemma FinalAnnotations(p: Settings, r: Service, stored: Option<int>, l: Service, c: Configuration)
    ensures var a := l.annotations + MergedAnnotations(p, r);
            ServiceAfter(p, r, stored, l, c).annotations ==
            Over(a, if CanRoute(Targets(l.traffic), c.ready) then Some(Sprint(Split(stored, a))) else None,
                 VersionString(r.rv), None)
  {
  }

  /** It carries what was merged, and a traffic annotation if it was routed. */
  lemma AnnotationsAfter(p: Settings, r: Service, stored: Option<int>, l: Service, c: Configuration, l': Service)
    requires LAST_GENERATION !in MergedAnnotations(p, r)
    requires LeavesBehind(l, ServiceAfter(p, r, stored, l, c), l')
    ensures var merged := MergedAnnotations(p, r);
            var a, b := l.annotations + merged, l'.annotations;
            && Carries(b, merged)
            && Lookup(b, REMOTE_URL) == Lookup(a, REMOTE_URL) && Lookup(b, REMOTE_HOST) == Lookup(a, REMOTE_HOST)
            && (FIXED_TRAFFIC in b <==> FIXED_TRAFFIC in a) && Lookup(b, FIXED_TRAFFIC) == Lookup(a, FIXED_TRAFFIC)
            && LAST_REMOTE_GENERATION in b && b[LAST_REMOTE_GENERATION] == VersionString(r.rv)
            && (CanRoute(Targets(l.traffic), c.ready) ==>
                  PROXY_TRAFFIC in b && b[PROXY_TRAFFIC] == Sprint(Split(stored, a)))
            && (!CanRoute(Targets(l.traffic), c.ready) && PROXY_TRAFFIC in merged ==>
                  PROXY_TRAFFIC in b && b[PROXY_TRAFFIC] == merged[PROXY_TRAFFIC])
  {
    KeysApart();
    var merged := MergedAnnotations(p, r);
    var a, b := l.annotations + merged, l'.annotations;
    var traffic := if CanRoute(Targets(l.traffic), c.ready) then Some(Sprint(Split(stored, a))) else None;
    FinalAnnotations(p, r, stored, l, c);
    var own := if b == Over(a, traffic, VersionString(r.rv), None) then None else Some(VersionString(l.rv));
    assert b == Over(a, traffic, VersionString(r.rv), own);
    OverFrames(a, traffic, VersionString(r.rv), own, REMOTE_URL);
    OverFrames(a, traffic, VersionString(r.rv), own, REMOTE_HOST);
    OverFrames(a, traffic, VersionString(r.rv), own, FIXED_TRAFFIC);
    OverFrames(a, traffic, VersionString(r.rv), own, PROXY_TRAFFIC);
    forall k | k in merged && k != PROXY_TRAFFIC && k != LAST_REMOTE_GENERATION ensures k in b && b[k] == merged[k] {
      OverFrames(a, traffic, VersionString(r.rv), own, k);
    }
  }

  lemma ContentsAfter(p: Settings, r: Service, stored: Option<int>, l: Service, c: Configuration, l': Service)
    requires l.traffic != Some([])
    requires LeavesBehind(l, ServiceAfter(p, r, stored, l, c), l')
    ensures l'.labels == WithManagedLabels(r.labels)
    ensures l'.templateLabels == r.templateLabels[LOCAL_LABEL := "true"] && l'.podSpec == r.podSpec
    ensures l'.traffic != Some([])
    ensures CanRoute(Targets(l.traffic), c.ready) ==>
              Targets(l'.traffic) ==
                BuildTraffic(Targets(l.traffic), Split(stored, l.annotations + MergedAnnotations(p, r)),
                                                  c.ready, c.generation)
    ensures !CanRoute(Targets(l.traffic), c.ready) ==> l'.traffic == l.traffic
  {
  }

  lemma ConfigurationIsBuilt(p: Settings, copy: Service, l': Service, st: Store)
    requires ConfigurationView(st.configuration).Some? || st.configuration.None?
    requires Lookup(copy.annotations, REMOTE_URL) == Lookup(l'.annotations, REMOTE_URL)
    requires Lookup(copy.annotations, REMOTE_HOST) == Lookup(l'.annotations, REMOTE_HOST)
    ensures ConfigurationBuilt(p, l', ConfigurationAfter(p, copy, st))
  {
    var seen := ConfigurationView(st.configuration);
    var base := if seen.None? then BLANK_CONFIGURATION else seen.value;
    var built := BuildConfiguration(p, base, copy);
    BuildAgain(p, base, copy, l');
    var c := ConfigurationAfter(p, copy, st);
    assert c.labels == built.labels && c.spec == built.spec;
    assert BuildConfiguration(p, c, l').labels == BuildConfiguration(p, built, l').labels;
    assert BuildConfiguration(p, c, l').spec == BuildConfiguration(p, built, l').spec;
  }

  /** The routing part of Merged, for a Service left behind by a reconcile. */
  lemma TrafficAfter(p: Settings, r: Service, stored: Option<int>, l: Service, c: Configuration, l': Service)
    requires Offloads(p, r, stored) && l.traffic != Some([])
    requires LeavesBehind(l, ServiceAfter(p, r, stored, l, c), l')
    ensures CanRoute(Targets(l'.traffic), c.ready) <==> CanRoute(Targets(l.traffic), c.ready)
    ensures CanRoute(Targets(l.traffic), c.ready) ==>
              IsPair(Targets(l'.traffic)) && !ParseInt(Lookup(l'.annotations, PROXY_TRAFFIC)).failed
  {
    MergedAnnotationsFacts(p, r, stored);
    AnnotationsAfter(p, r, stored, l, c, l');
    ContentsAfter(p, r, stored, l, c, l');
    if CanRoute(Targets(l.traffic), c.ready) {
      var split := Split(stored, l.annotations + MergedAnnotations(p, r));
      BuiltIsPair(Targets(l.traffic), split, c.ready, c.generation);
      SplitIsInt64(stored, l.annotations + MergedAnnotations(p, r));
      PrintParse(split);
      assert Targets(l'.traffic) == BuildTraffic(Targets(l.traffic), split, c.ready, c.generation);
    } else {
      assert l'.traffic == l.traffic;
    }
  }

  /** A store in which a reconcile leaves the final Service and Configuration behind. */
  ghost predicate ReconciledTo(p: Settings, r: Service, stored: Option<int>, st: Store, st': Store) {
    && ServiceView(st.service).Some?
    && (ConfigurationView(st.configuration).Some? || st.configuration.None?)
    && InView(st')
    && var l := st.service.value;
       var c := ConfigurationAfter(p, MergeService(p, r, l), st);
       st'.configuration == Some(c) && LeavesBehind(l, ServiceAfter(p, r, stored, l, c), st'.service.value)
  }

  lemma ReconIsReconciled(p: Settings, r: Service, stored: Option<int>, st: Store)
    requires Offloads(p, r, stored) && Stored(st) && ServiceView(st.service).Some?
    requires ConfigurationView(st.configuration).Some? || st.configuration.None?
    ensures ReconciledTo(p, r, stored, st, Recon(p, r, stored, st))
  {
    var c, final, clock := OneReconcile(p, r, stored, st);
    var l' := Recon(p, r, stored, st).service.value;
    assert st.service.value != final ==> l' == StoreService(Some(st.service.value), final, clock);
  }

  lemma MergedAfter(p: Settings, r: Service, stored: Option<int>, st: Store, st': Store)
    requires Offloads(p, r, stored) && Stored(st) && ReconciledTo(p, r, stored, st, st')
    ensures Merged(p, r, stored, st')
  {
    var l, c, l' := st.service.value, st'.configuration.value, st'.service.value;
    MergedAnnotationsFacts(p, r, stored);
    AnnotationsAfter(p, r, stored, l, c, l');
    ContentsAfter(p, r, stored, l, c, l');
    TrafficAfter(p, r, stored, l, c, l');
    ConfigurationIsBuilt(p, MergeService(p, r, l), l', st);
  }

  /** One reconcile puts both objects in shape. */
  lemma FirstReconcile(p: Settings, r: Service, stored: Option<int>, st: Store)
    requires Offloads(p, r, stored) && Stored(st) && ServiceView(st.service).Some?
    requires ConfigurationView(st.configuration).Some? || st.configuration.None?
    ensures Merged(p, r, stored, Recon(p, r, stored, st))
  {
    ReconIsReconciled(p, r, stored, st);
    MergedAfter(p, r, stored, st, Recon(p, r, stored, st));
  }

  // ---------------------------------------------------------------- the later reconciles

  lemma CopyReadsTheSame(p: Settings, r: Service, l: Service)
    requires ServiceMerged(p, r, l)
    ensures var copy := MergeService(p, r, l);
            && Lookup(copy.annotations, REMOTE_URL) == Lookup(l.annotations, REMOTE_URL)
            && Lookup(copy.annotations, REMOTE_HOST) == Lookup(l.annotations, REMOTE_HOST)
  {
    KeysApart();
  }

  /** From now on the Configuration only records generations. */
  lemma ConfigurationOnlyRecords(p: Settings, r: Service, l: Service, st: Store)
    requires ServiceMerged(p, r, l) && ConfigurationView(st.configuration).Some?
    requires ConfigurationBuilt(p, l, st.configuration.value)
    ensures var c, c' := st.configuration.value, ConfigurationAfter(p, MergeService(p, r, l), st);
            && (c'.labels, c'.spec, c'.ready, c'.generation) == (c.labels, c.spec, c.ready, c.generation)
            && LAST_GENERATION in c'.annotations && c'.annotations[LAST_GENERATION] == Sprint(l.generation)
            && (LAST_GENERATION in c.annotations && c.annotations[LAST_GENERATION] == Sprint(l.generation) ==> c' == c)
  {
    CopyReadsTheSame(p, r, l);
    KeysApart();
    var c := st.configuration.value;
    var built := BuildConfiguration(p, c, MergeService(p, r, l));
    assert BuildConfiguration(p, c, l).spec == built.spec;
    if LAST_GENERATION in c.annotations && c.annotations[LAST_GENERATION] == Sprint(l.generation) {
      assert built == c;
    }
  }

  lemma TrafficSetAfter(p: Settings, r: Service, stored: Option<int>, st: Store, st': Store)
    requires Offloads(p, r, stored) && Stored(st) && Merged(p, r, stored, st) && ReconciledTo(p, r, stored, st, st')
    ensures TrafficSet(p, r, stored, st')
  {
    MergedAfter(p, r, stored, st, st');
    var l, c, l', merged := st.service.value, st'.configuration.value, st'.service.value, MergedAnnotations(p, r);
    ConfigurationOnlyRecords(p, r, l, st);
    MergedAnnotationsFacts(p, r, stored);
    AnnotationsAfter(p, r, stored, l, c, l');
    ContentsAfter(p, r, stored, l, c, l');
    TrafficAfter(p, r, stored, l, c, l');
    if Routed(st') {
      SplitIsStable(stored, merged, l.annotations, l'.annotations);
      NothingToCross(Targets(l.traffic));
      TrafficIsStable(Targets(l.traffic), Split(stored, l.annotations + merged), c.ready, c.generation);
    }
  }

  lemma SecondReconcile(p: Settings, r: Service, stored: Option<int>, st: Store)
    requires Offloads(p, r, stored) && Stored(st) && Merged(p, r, stored, st)
    ensures TrafficSet(p, r, stored, Recon(p, r, stored, st))
  {
    ReconIsReconciled(p, r, stored, st);
    TrafficSetAfter(p, r, stored, st, Recon(p, r, stored, st));
  }

  /** Once the traffic is set, the Service is not written again. */
  lemma ServiceIsFinal(p: Settings, r: Service, stored: Option<int>, l: Service, c: Configuration)
    requires LAST_GENERATION !in MergedAnnotations(p, r) && ServiceMerged(p, r, l)
    requires var merged := MergedAnnotations(p, r);
             var split := Split(stored, l.annotations + merged);
             if CanRoute(Targets(l.traffic), c.ready) then
               && l.traffic.Some?
               && l.traffic.value == BuildTraffic(l.traffic.value, split, c.ready, c.generation)
               && PROXY_TRAFFIC in l.annotations && l.annotations[PROXY_TRAFFIC] == Sprint(split)
             else
               PROXY_TRAFFIC in merged ==>
                 PROXY_TRAFFIC in l.annotations && l.annotations[PROXY_TRAFFIC] == merged[PROXY_TRAFFIC]
    ensures ServiceAfter(p, r, stored, l, c) == l
  {
    KeysApart();
    var final := ServiceAfter(p, r, stored, l, c);
    assert final.annotations == l.annotations;
  }

  lemma RecordedAfter(p: Settings, r: Service, stored: Option<int>, st: Store, st': Store)
    requires Offloads(p, r, stored) && Stored(st) && TrafficSet(p, r, stored, st) && ReconciledTo(p, r, stored, st, st')
    ensures TrafficSet(p, r, stored, st') && GenerationRecorded(st')
    ensures ServiceAfter(p, r, stored, st.service.value, st'.configuration.value) == st.service.value
    ensures GenerationRecorded(st) ==> st'.configuration == st.configuration
  {
    var l := st.service.value;
    TrafficSetAfter(p, r, stored, st, st');
    ConfigurationOnlyRecords(p, r, l, st);
    MergedAnnotationsFacts(p, r, stored);
    ServiceIsFinal(p, r, stored, l, st'.configuration.value);
    assert st'.service.value.generation == l.generation;
  }

  lemma ThirdReconcile(p: Settings, r: Service, stored: Option<int>, st: Store)
    requires Offloads(p, r, stored) && Stored(st) && TrafficSet(p, r, stored, st)
    ensures var st' := Recon(p, r, stored, st);
            && st'.service == st.service && TrafficSet(p, r, stored, st') && GenerationRecorded(st')
            && (GenerationRecorded(st) ==> st' == st)
  {
    ReconIsReconciled(p, r, stored, st);
    RecordedAfter(p, r, stored, st, Recon(p, r, stored, st));
    var c, final, clock := OneReconcile(p, r, stored, st);
  }

  // ---------------------------------------------------------------- the theorem

  function Repeat(p: Settings, r: Service, stored: Option<int>, st: Store, n: nat): Store
    decreases n
  {
    if n == 0 then st else Repeat(p, r, stored, Recon(p, r, stored, st), n - 1)
  }

  /** A Configuration of that name which is not the controller's own stops every reconcile. */
  lemma HiddenConfigurationStops(p: Settings, r: Service, stored: Option<int>, st: Store)
    requires Offloads(p, r, stored) && Stored(st) && ServiceView(st.service).Some?
    requires st.configuration.Some? && ConfigurationView(st.configuration).None?
    ensures Recon(p, r, stored, st) == st
  {
    assert Reconcile(p, Some(r), stored, st) == Mirror(p, r, stored, st.service, st);
  }

  /** The first reconcile without a local Service creates it, unless an unmanaged one is there. */
  lemma CreatingReconcile(p: Settings, r: Service, stored: Option<int>, st: Store)
    requires Offloads(p, r, stored) && Stored(st) && ServiceView(st.service).None?
    ensures var st' := Recon(p, r, stored, st);
            && (st.service.Some? ==> st' == st)
            && (st.service.None? ==>
                  ServiceView(st'.service).Some? && Stored(st') && st'.configuration == st.configuration)
  {
    var copy := MergeService(p, r, BLANK_SERVICE);
    var (copy', st2, _) := ReconcileTraffic(copy, stored, st);
    assert copy'.labels == r.labels && st2 == st;
    KeysDiffer();
    assert Reconcile(p, Some(r), stored, st) == Mirror(p, r, stored, None, st);
    assert Recon(p, r, stored, st) == Commit(r, None, Finalized(r, copy'), st).0;
  }

  lemma ThreeReconcilesSettle(p: Settings, r: Service, stored: Option<int>, st: Store)
    requires Offloads(p, r, stored) && Stored(st) && ServiceView(st.service).Some?
    requires ConfigurationView(st.configuration).Some? || st.configuration.None?
    ensures var st3 := Repeat(p, r, stored, st, 3);
            Recon(p, r, stored, st3) == st3 && TrafficSet(p, r, stored, st3) && GenerationRecorded(st3)
  {
    var st1 := Recon(p, r, stored, st);
    var st2 := Recon(p, r, stored, st1);
    var st3 := Recon(p, r, stored, st2);
    FirstReconcile(p, r, stored, st);
    ReconKeepsStored(p, r, stored, st);
    SecondReconcile(p, r, stored, st1);
    ReconKeepsStored(p, r, stored, st1);
    ThirdReconcile(p, r, stored, st2);
    ReconKeepsStored(p, r, stored, st2);
    ThirdReconcile(p, r, stored, st3);
    assert Repeat(p, r, stored, st, 3) == Repeat(p, r, stored, st1, 2) ==
           Repeat(p, r, stored, st2, 1) == Repeat(p, r, stored, st3, 0);
  }

  lemma {:induction false} FixedStays(p: Settings, r: Service, stored: Option<int>, st: Store, n: nat)
    requires Recon(p, r, stored, st) == st
    ensures Repeat(p, r, stored, st, n) == st
  {
    if n > 0 {
      FixedStays(p, r, stored, st, n - 1);
    }
  }

  /** From every state of the two local objects, four reconciles of an offloaded Service reach a
      state in which reconciling writes nothing, although the traffic write bumps the very
      generation that the Configuration records. */
  lemma FourReconcilesSettle(p: Settings, r: Service, stored: Option<int>, st: Store)
    requires Offloads(p, r, stored) && Stored(st)
    ensures var st4 := Repeat(p, r, stored, st, 4); Recon(p, r, stored, st4) == st4
  {
    var st1 := Recon(p, r, stored, st);
    assert Repeat(p, r, stored, st, 4) == Repeat(p, r, stored, st1, 3);
    if st.configuration.Some? && ConfigurationView(st.configuration).None? && ServiceView(st.service).Some? {
      HiddenConfigurationStops(p, r, stored, st);
      FixedStays(p, r, stored, st, 3);
    } else if ServiceView(st.service).Some? {
      FirstReconcile(p, r, stored, st);
      ReconKeepsStored(p, r, stored, st);
      ThreeReconcilesSettle(p, r, stored, st1);
    } else {
      CreatingReconcile(p, r, stored, st);
      if st.service.Some? {
        FixedStays(p, r, stored, st, 3);
      } else if st.configuration.Some? && ConfigurationView(st.configuration).None? {
        HiddenConfigurationStops(p, r, stored, st1);
        FixedStays(p, r, stored, st1, 3);
      } else {
        ThreeReconcilesSettle(p, r, stored, st1);
      }
    }
  }

  /** What it means to have settled: exactly that the Service mirrors the remote one, the
      Configuration is built and has recorded the Service's generation, and the traffic, if there
      is a ready proxy or was a proxy target, is the list that the split asks for. */
  lemma SettledMeans(p: Settings, r: Service, stored: Option<int>, st: Store)
    requires Offloads(p, r, stored) && Stored(st) && InView(st)
    ensures Recon(p, r, stored, st) == st <==> TrafficSet(p, r, stored, st) && GenerationRecorded(st)
  {
    if Recon(p, r, stored, st) == st {
      FirstReconcile(p, r, stored, st);
      SecondReconcile(p, r, stored, st);
      ThirdReconcile(p, r, stored, st);
    } else if TrafficSet(p, r, stored, st) && GenerationRecorded(st) {
      ThirdReconcile(p, r, stored, st);
    }
  }

  lemma TrafficKeysArePrefixed()
    ensures IsPrefixed(FIXED_TRAFFIC) && IsPrefixed(PROXY_TRAFFIC)
  {
  }

  /** What the merge makes of the two annotations that decide the split. */
  lemma TrafficAnnotations(p: Settings, r: Service, l: Meta)
    requires Carries(l, MergedAnnotations(p, r))
    ensures var a := l + MergedAnnotations(p, r);
            && (FIXED_TRAFFIC in r.annotations ==>
                  FIXED_TRAFFIC in l && l[FIXED_TRAFFIC] == r.annotations[FIXED_TRAFFIC])
            && (FIXED_TRAFFIC in a <==> FIXED_TRAFFIC in l)
            && (FIXED_TRAFFIC in a ==> a[FIXED_TRAFFIC] == l[FIXED_TRAFFIC])
            && (PROXY_TRAFFIC in a <==> PROXY_TRAFFIC in l || PROXY_TRAFFIC in r.annotations)
            && (PROXY_TRAFFIC in a ==>
                  a[PROXY_TRAFFIC] ==
                  if PROXY_TRAFFIC in r.annotations then r.annotations[PROXY_TRAFFIC] else l[PROXY_TRAFFIC])
  {
    KeysApart();
    TrafficKeysArePrefixed();
    MergedFrames(p, r, FIXED_TRAFFIC);
    MergedFrames(p, r, PROXY_TRAFFIC);
  }

  lemma SettledSplit(p: Settings, r: Service, stored: Option<int>, l: Service)
    requires stored.Some? ==> IsInt64(stored.value)
    requires Carries(l.annotations, MergedAnnotations(p, r))
    requires PROXY_TRAFFIC in l.annotations &&
             l.annotations[PROXY_TRAFFIC] == Sprint(Split(stored, l.annotations + MergedAnnotations(p, r)))
    ensures IsSplitFor(Annotation(l.annotations, FIXED_TRAFFIC), stored, Annotation(r.annotations, PROXY_TRAFFIC),
                       Split(stored, l.annotations + MergedAnnotations(p, r)))
  {
    var a := l.annotations + MergedAnnotations(p, r);
    TrafficAnnotations(p, r, l.annotations);
    SplitMeans(stored, a);
    SplitIsInt64(stored, a);
    PrintedOutOfRange(Split(stored, a));
  }

  /** In particular, in a settled state with a ready proxy the traffic is split between exactly two
      entries: the latest revision, and the ready revision of the proxy under the tag of its current
      generation with the split that is asked for. Together they make 100 percent exactly if the
      subtraction did not wrap around. */
  lemma SettledTraffic(p: Settings, r: Service, stored: Option<int>, st: Store)
    requires Offloads(p, r, stored) && Stored(st) && InView(st)
    requires st.configuration.value.ready != ""
    ensures Recon(p, r, stored, st) == st ==>
            var ts, c, a := Targets(st.service.value.traffic), st.configuration.value, st.service.value.annotations;
            && |ts| == 2 && IsLatest(ts[0]) && IsProxy(ts[1])
            && ts[0].percent.Some? && ts[1].percent.Some?
            && IsSplitFor(Annotation(a, FIXED_TRAFFIC), stored, Annotation(r.annotations, PROXY_TRAFFIC),
                          ts[1].percent.value)
            && (FIXED_TRAFFIC in r.annotations ==> Annotation(a, FIXED_TRAFFIC) == Some(r.annotations[FIXED_TRAFFIC]))
            && ts[1].revisionName == c.ready && ts[1].tag == TargetTag(c.generation)
            && (ts[0].percent.value + ts[1].percent.value == 100 <==> ts[1].percent.value >= 100 - MAX_INT64)
            && PROXY_TRAFFIC in a && a[PROXY_TRAFFIC] == Sprint(ts[1].percent.value)
  {
    if Recon(p, r, stored, st) == st {
      SettledMeans(p, r, stored, st);
      var l, c := st.service.value, st.configuration.value;
      var ts := Targets(l.traffic);
      var split := Split(stored, l.annotations + MergedAnnotations(p, r));
      SplitIsInt64(stored, l.annotations + MergedAnnotations(p, r));
      assert ts == BuildTraffic(ts, split, c.ready, c.generation);
      TrafficShape(ts, split, c.ready, c.generation);
      EntriesKeep(ts, split, c.ready, c.generation, 0);
      SettledSplit(p, r, stored, l);
      TrafficAnnotations(p, r, l.annotations);
    }
  }

  /** The combined result of the preprocessors. */
  lemma PreprocessResult(p: Settings, copy: Service, stored: Option<int>, st: Store)
    requires IsOffloaded(copy.labels)
    ensures var seen := ConfigurationView(st.configuration);
            var (_, st', result, failed) := Preprocess(p, copy, stored, st);
            && (failed <==> copy.rv != 0 && seen.None? && st.configuration.Some?)
            && (!failed ==>
                  && !result.requeue
                  && result.requeueAfter ==
                     if copy.rv == 0 || st'.clock != st.clock then 1
                     else if seen.Some? && CanRoute(Targets(copy.traffic), seen.value.ready) then 60
                     else 5)
  {
  }

  /** A reconcile of an offloaded Service ends with the result of the preprocessors. */
  lemma MirrorResult(p: Settings, r: Service, stored: Option<int>, st: Store)
    requires Offloads(p, r, stored)
    ensures var local := ServiceView(st.service);
            var (_, st1, result, failed) :=
              Preprocess(p, MergeService(p, r, if local.None? then BLANK_SERVICE else local.value), stored, st);
            var (st', result', failed') := Reconcile(p, Some(r), stored, st);
            && result' == result
            && st'.configuration == st1.configuration
            && (failed' <==> failed || (local.None? && st1.service.Some?))
  {
    assert Reconcile(p, Some(r), stored, st) == Mirror(p, r, stored, ServiceView(st.service), st);
  }

  /** When an offloaded Service is looked at again: with an error exactly if an object that is not
      the controller's own stands in the way; otherwise after a second if the Service was created
      or the Configuration written, after a minute once the traffic is split, so that the split can
      follow the traffic loop, and after five seconds while the proxy is not ready. */
  lemma LookedAtAgain(p: Settings, r: Service, stored: Option<int>, st: Store)
    requires Offloads(p, r, stored) && Stored(st)
    ensures var (st', result, failed) := Reconcile(p, Some(r), stored, st);
            && (failed <==> if ServiceView(st.service).None? then st.service.Some?
                            else st.configuration.Some? && ConfigurationView(st.configuration).None?)
            && (!failed ==>
                  && !result.requeue
                  && result.requeueAfter ==
                     if ServiceView(st.service).None? || st'.configuration != st.configuration then 1
                     else if Routed(st) then 60 else 5)
  {
    var local := ServiceView(st.service);
    var copy := MergeService(p, r, if local.None? then BLANK_SERVICE else local.value);
    MirrorResult(p, r, stored, st);
    PreprocessResult(p, copy, stored, st);
    PreprocessorsKeepService(p, copy, stored, st);
    if local.Some? && (ConfigurationView(st.configuration).Some? || st.configuration.None?) {
      ConfigurationStep(p, r, local.value, st);
      TrafficStep(p, r, stored, local.value, ReconcileConfiguration(p, copy, st).0);
    }
  }

  // ---------------------------------------------------------------- where it does not settle

  function PlainAfter(p: Settings, r: Service, l: Service): Service {
    var copy := MergeService(p, r, l);
    Finalized(r, copy.(traffic := Some(WithoutProxy(Targets(l.traffic)))))
  }

  lemma PlainReconcile(p: Settings, r: Service, stored: Option<int>, st: Store)
    requires HasEdgeSyncLabel(r.labels, p.envs) && !IsOffloaded(r.labels)
    requires Stored(st) && ServiceView(st.service).Some?
    ensures var l, st1 := st.service.value, Recon(p, r, stored, st);
            && ServiceView(st1.service).Some? && ConfigurationView(st1.configuration).None? && Stored(st1)
            && (st1.service == if l == PlainAfter(p, r, l) then st.service
                               else Some(StoreService(st.service, PlainAfter(p, r, l), st1.clock - 1)))
            && (ConfigurationView(st.configuration).None? && l == PlainAfter(p, r, l) ==> st1 == st)
            && (l != PlainAfter(p, r, l) ==> st1.clock > st.clock)
  {
    var l := st.service.value;
    KeysDiffer();
    var copy := MergeService(p, r, l);
    var (st1, _, failed) := ReconcileConfiguration(p, copy, st);
    var (copy', st2, _) := ReconcileTraffic(copy, stored, st1);
    assert !failed && st2 == st1 && Finalized(r, copy') == PlainAfter(p, r, l);
    CommitStep(r, st2, PlainAfter(p, r, l));
    assert Reconcile(p, Some(r), stored, st) == Mirror(p, r, stored, Some(l), st);
    assert Recon(p, r, stored, st) == Commit(r, Some(l), PlainAfter(p, r, l), st2).0;
  }

  /** Merging over a stamped result of the same merge changes nothing. */
  lemma MergeOverStamp(a: Meta, merged: Meta, own: string, remote: string, v: string, w: string)
    requires own != remote && own !in merged
    ensures var b := (a + merged)[remote := v];
            (b + merged)[remote := v] == b && (b[own := w] + merged)[remote := v] == b[own := w]
  {
  }

  lemma PlainAnnotations(p: Settings, r: Service, l: Service)
    ensures PlainAfter(p, r, l).annotations ==
            (l.annotations + MergedAnnotations(p, r))[LAST_REMOTE_GENERATION := VersionString(r.rv)]
  {
  }

  lemma PlainKeepsTheRest(p: Settings, r: Service, l: Service, l1: Service)
    requires LAST_GENERATION !in MergedAnnotations(p, r)
    requires LeavesBehind(l, PlainAfter(p, r, l), l1)
    ensures PlainAfter(p, r, l1) == l1.(traffic := Some(WithoutProxy(Targets(l1.traffic))))
  {
    KeysApart();
    PlainAnnotations(p, r, l);
    PlainAnnotations(p, r, l1);
    MergeOverStamp(l.annotations, MergedAnnotations(p, r), LAST_GENERATION, LAST_REMOTE_GENERATION,
                   VersionString(r.rv), VersionString(l.rv));
    assert PlainAfter(p, r, l1).annotations == l1.annotations;
  }

  lemma PlainTwice(p: Settings, r: Service, l: Service, l1: Service)
    requires LAST_GENERATION !in MergedAnnotations(p, r) && l.traffic != Some([])
    requires LeavesBehind(l, PlainAfter(p, r, l), l1)
    ensures l1 == PlainAfter(p, r, l1) <==> WithoutProxy(Targets(l.traffic)) != []
    ensures Targets(l1.traffic) == WithoutProxy(Targets(l.traffic))
  {
    var kept := WithoutProxy(Targets(l.traffic));
    RemovalIsAFilter(Targets(l.traffic), Target("", "", None, None));
    PlainKeepsTheRest(p, r, l, l1);
    assert PlainAfter(p, r, l).traffic == Some(kept);
    assert l1.traffic == if kept == [] then None else Some(kept);
  }

  /** Without the offload label the proxy and its target go away in one reconcile. The mirror then
      settles exactly if a target is left over; otherwise the empty list it builds never equals
      the missing list it reads back, and every reconcile writes. */
  lemma WithoutOffloading(p: Settings, r: Service, stored: Option<int>, st: Store)
    requires HasEdgeSyncLabel(r.labels, p.envs) && !IsOffloaded(r.labels) && LAST_GENERATION !in r.annotations
    requires Stored(st) && ServiceView(st.service).Some?
    ensures var st1 := Recon(p, r, stored, st);
            && ServiceView(st1.service).Some? && ConfigurationView(st1.configuration).None?
            && Targets(st1.service.value.traffic) == WithoutProxy(Targets(st.service.value.traffic))
            && (Recon(p, r, stored, st1) == st1 <==> WithoutProxy(Targets(st.service.value.traffic)) != [])
  {
    var st1 := Recon(p, r, stored, st);
    var l := st.service.value;
    PlainReconcile(p, r, stored, st);
    assert LeavesBehind(l, PlainAfter(p, r, l), st1.service.value) by {
      assert l != PlainAfter(p, r, l) ==>
        st1.service.value == StoreService(Some(l), PlainAfter(p, r, l), st1.clock - 1);
    }
    KeysApart();
    PlainTwice(p, r, l, st1.service.value);
    PlainReconcile(p, r, stored, st1);
  }
}
