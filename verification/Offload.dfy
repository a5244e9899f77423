/** The Service mirror and its two preprocessors, which run a proxy Configuration next to each
    offloaded Service and split the traffic between the two (pkg/controllers/edge/kservice_controller.go,
    kconfiguration_reconciler.go, kservice_reconciler.go). Here: what one reconcile does to the
    stored objects, as functions. Reads are up to date; the namespaced name is the key. */
module Offload {
  import opened Text
  import opened Kube
  import opened Traffic

  const REMOTE_URL := "edge.jevv.dev/remote-url"
  const REMOTE_HOST := "edge.jevv.dev/remote-host"
  const PROXY_TRAFFIC := "edge.jevv.dev/edge-proxy-traffic"
  const FIXED_TRAFFIC := "edge.jevv.dev/edge-offload-fixed-traffic"
  const EDGE_PREFIX := "edge.jevv.dev/"
  const STRATEGY_PREFIX := "strategy.edge.jevv.dev/"

  /** A stored Service. podSpec stands for the rest of the configuration spec; the traffic is a Go
      slice, so nil and empty are different; host is the host of the status URL. */
  datatype Service = Service(
    labels: Meta, annotations: Meta,
    templateLabels: Meta, podSpec: string, traffic: Option<seq<Target>>,
    host: Option<string>, generation: nat, rv: nat)

  const BLANK_SERVICE := Service(map[], map[], map[], "", None, None, 0, 0)

  datatype Container = Container(name: string, image: string, env: seq<(string, string)>, rest: string)

  datatype ConfigurationSpec = ConfigurationSpec(
    containers: seq<Container>, concurrency: Option<int>, templateLabels: Meta, templateAnnotations: Meta, rest: string)

  /** A stored Configuration; ready is the latest ready revision name of its status. */
  datatype Configuration = Configuration(
    labels: Meta, annotations: Meta, spec: ConfigurationSpec, ready: string, generation: nat, rv: nat)

  const BLANK_CONFIGURATION :=
    Configuration(map[], map[], ConfigurationSpec([], None, map[], map[], ""), "", 0, 0)

  const BLANK_CONTAINER := Container("", "", [], "")

  /** The settings of the controller. */
  datatype Settings = Settings(remoteUrl: string, proxyImage: string, httpProxy: string, envs: Option<seq<string>>)

  /** One name on the local API server: the Service and its proxy Configuration. */
  datatype Store = Store(service: Option<Service>, configuration: Option<Configuration>, clock: nat)

  /** ctrl.Result, with the delay in seconds. */
  datatype Result = Result(requeue: bool, requeueAfter: nat)

  const NO_RESULT := Result(false, 0)

  function Targets(t: Option<seq<Target>>): seq<Target> {
    if t.Some? then t.value else []
  }

  predicate IsOffloaded(labels: Meta) {
    OFFLOAD_LABEL in labels && ToLower(labels[OFFLOAD_LABEL]) == "true"
  }

  /** The label reads "true" in whatever case. */
  lemma OffloadLabelMeans(labels: Meta, value: string)
    ensures IsOffloaded(labels[OFFLOAD_LABEL := value]) <==>
            |value| == 4 && value[0] in "tT" && value[1] in "rR" && value[2] in "uU" && value[3] in "eE"
    ensures !IsOffloaded(labels - {OFFLOAD_LABEL})
  {
    LowerCase(value);
    var lower := ToLower(value);
    assert lower == "true" <==>
           |lower| == 4 && lower[0] == 't' && lower[1] == 'r' && lower[2] == 'u' && lower[3] == 'e';
  }

  // ---------------------------------------------------------------- merging the remote Service

  predicate IsPrefixed(key: string) {
    HasPrefix(key, EDGE_PREFIX) || HasPrefix(key, STRATEGY_PREFIX)
  }

  function Prefixed(m: Meta): Meta {
    map k | k in m && IsPrefixed(k) :: m[k]
  }

  /** The annotations a merge writes, whatever was there before. */
  function MergedAnnotations(p: Settings, src: Service): Meta {
    (if src.host.Some? then map[REMOTE_HOST := src.host.value] else map[])
      + map[REMOTE_URL := p.remoteUrl] + Prefixed(src.annotations)
  }

  /** kindMerger for Services. */
  function MergeService(p: Settings, src: Service, dst: Service): Service {
    dst.(labels := src.labels,
         templateLabels := src.templateLabels[LOCAL_LABEL := "true"],
         podSpec := src.podSpec,
         annotations := dst.annotations + MergedAnnotations(p, src))
  }

  /** The copy after both preprocessors, the remote version annotation and the managed labels. */
  function Finalized(remote: Service, copy: Service): Service {
    copy.(annotations := copy.annotations[LAST_REMOTE_GENERATION := VersionString(remote.rv)],
          labels := WithManagedLabels(copy.labels))
  }

  /** Merging the same remote Service again changes nothing. */
  lemma MergeIsIdempotent(p: Settings, src: Service, dst: Service)
    ensures var once := Finalized(src, MergeService(p, src, dst));
            Finalized(src, MergeService(p, src, once)) == once
  {
    var once := Finalized(src, MergeService(p, src, dst));
    var merged := MergedAnnotations(p, src);
    assert (once.annotations + merged)[LAST_REMOTE_GENERATION := VersionString(src.rv)] == once.annotations;
  }

  /** Where an annotation of the local Service comes from. */
  predicate ComesFrom(p: Settings, remote: Service, before: Meta, after: Meta, k: string) {
    if k in remote.annotations && ("edge.jevv.dev/" <= k || "strategy.edge.jevv.dev/" <= k) then
      k in after && after[k] == remote.annotations[k]
    else if k == REMOTE_URL then k in after && after[k] == p.remoteUrl
    else if k == REMOTE_HOST && remote.host.Some? then k in after && after[k] == remote.host.value
    else (k in after <==> k in before) && (k in after ==> after[k] == before[k])
  }

  lemma MergedFrames(p: Settings, src: Service, k: string)
    ensures var m := MergedAnnotations(p, src);
            if k in src.annotations && IsPrefixed(k) then k in m && m[k] == src.annotations[k]
            else if k == REMOTE_URL then k in m && m[k] == p.remoteUrl
            else if k == REMOTE_HOST && src.host.Some? then k in m && m[k] == src.host.value
            else k !in m
  {
    assert |REMOTE_URL| != |REMOTE_HOST|;
  }

  /** Where each annotation of the merged Service comes from: prefixed remote ones win, then the
      address of the remote cluster, and every other local annotation is left as it was. */
  lemma MergeFrames(p: Settings, src: Service, dst: Service, k: string)
    requires k != LAST_REMOTE_GENERATION
    ensures var a := Finalized(src, MergeService(p, src, dst)).annotations;
            ComesFrom(p, src, dst.annotations, a, k)
  {
    MergedFrames(p, src, k);
    assert |REMOTE_URL| != |REMOTE_HOST|;
  }

  /** Labels, template labels and the rest of the configuration spec are the remote ones, but for the
      labels of the controllers; everything else is the local one. */
  ghost predicate CarriesSpec(remote: Service, s: Service) {
    && CarriesLabels(remote.labels, s.labels)
    && s.podSpec == remote.podSpec
    && LOCAL_LABEL in s.templateLabels && s.templateLabels[LOCAL_LABEL] == "true"
    && s.templateLabels - {LOCAL_LABEL} == remote.templateLabels - {LOCAL_LABEL}
  }

  lemma MergedContents(p: Settings, src: Service, dst: Service)
    ensures var s := Finalized(src, MergeService(p, src, dst));
            && CarriesSpec(src, s)
            && LAST_REMOTE_GENERATION in s.annotations
            && s.annotations[LAST_REMOTE_GENERATION] == VersionString(src.rv)
            && (s.traffic, s.host, s.generation, s.rv) == (dst.traffic, dst.host, dst.generation, dst.rv)
  {
    ManagedLabelsMean(src.labels, WithManagedLabels(src.labels));
  }

  // ---------------------------------------------------------------- the proxy Configuration

  predicate ConfigurationInView(labels: Meta) {
    IsManaged(labels) && LOCAL_LABEL in labels && labels[LOCAL_LABEL] == "true"
  }

  /** What the cached client shows of Configurations: the managed, local ones. */
  function ConfigurationView(c: Option<Configuration>): Option<Configuration> {
    if c.Some? && ConfigurationInView(c.value.labels) then c else None
  }

  /** Both labels are needed, with the value "true". */
  lemma ConfigurationViewMeans(c: Configuration, managed: string, local: string)
    ensures var labels := c.labels[MANAGED_LABEL := managed][LOCAL_LABEL := local];
            ConfigurationView(Some(c.(labels := labels))).Some? <==> managed == local == "true"
    ensures ConfigurationView(Some(c.(labels := c.labels - {MANAGED_LABEL}))).None?
    ensures ConfigurationView(Some(c.(labels := c.labels - {LOCAL_LABEL}))).None?
    ensures ConfigurationView(Some(c)).Some? ==> ConfigurationView(Some(c)).value == c
  {
    assert |LOCAL_LABEL| != |MANAGED_LABEL|;
  }

  function BuildSpec(p: Settings, spec: ConfigurationSpec, service: Service): ConfigurationSpec {
    var containers := if spec.containers == [] then [BLANK_CONTAINER] else spec.containers;
    var proxy := containers[0].(
      name := "edge-proxy", image := p.proxyImage,
      env := [("REMOTE_URL", Lookup(service.annotations, REMOTE_URL)),
              ("REMOTE_HOST", Lookup(service.annotations, REMOTE_HOST)),
              ("REMOTE_PROXY", p.httpProxy)]);
    spec.(containers := containers[0 := proxy],
          concurrency := Some(8),
          templateLabels := spec.templateLabels[LOCAL_LABEL := "true"][MANAGED_LABEL := "true"],
          templateAnnotations := spec.templateAnnotations["autoscaling.knative.dev/min-scale" := "3"]
                                                         ["autoscaling.knative.dev/max-scale" := "5"])
  }

  /** buildConfiguration: the last generation recorded is the Service's. */
  function BuildConfiguration(p: Settings, c: Configuration, service: Service): Configuration {
    c.(labels := c.labels[LOCAL_LABEL := "true"][MANAGED_LABEL := "true"]
                         [CREATED_BY_LABEL := "knative-edge"][MANAGED_BY_LABEL := "knative-edge"],
       annotations := c.annotations[LAST_GENERATION := Sprint(service.generation)],
       spec := BuildSpec(p, c.spec, service))
  }

  lemma BuiltLabels(p: Settings, c: Configuration, service: Service, k: string)
    ensures var b := BuildConfiguration(p, c, service);
            && (k in b.labels && k !in c.labels ==> HasPrefix(k, EDGE_PREFIX))
            && (k in c.labels && !HasPrefix(k, EDGE_PREFIX) ==> k in b.labels && b.labels[k] == c.labels[k])
            && ConfigurationInView(b.labels)
  {
    assert LOCAL_LABEL[..|EDGE_PREFIX|] == EDGE_PREFIX && MANAGED_LABEL[..|EDGE_PREFIX|] == EDGE_PREFIX;
    assert CREATED_BY_LABEL[..|EDGE_PREFIX|] == EDGE_PREFIX && MANAGED_BY_LABEL[..|EDGE_PREFIX|] == EDGE_PREFIX;
    assert |LOCAL_LABEL| == 19 && |MANAGED_LABEL| == 21 && |CREATED_BY_LABEL| == 24 && |MANAGED_BY_LABEL| == 24;
  }

  lemma BuiltContainers(p: Settings, c: Configuration, service: Service)
    ensures var b, containers := BuildConfiguration(p, c, service), c.spec.containers;
            && |b.spec.containers| == (if containers == [] then 1 else |containers|)
            && b.spec.containers[0].rest == (if containers == [] then "" else containers[0].rest)
            && (containers != [] ==> b.spec.containers[1..] == containers[1..])
            && b.spec.containers[0].image == p.proxyImage
            && ("REMOTE_URL", Lookup(service.annotations, REMOTE_URL)) in b.spec.containers[0].env
            && ("REMOTE_HOST", Lookup(service.annotations, REMOTE_HOST)) in b.spec.containers[0].env
            && ("REMOTE_PROXY", p.httpProxy) in b.spec.containers[0].env
  {
    var env := BuildSpec(p, c.spec, service).containers[0].env;
    assert env[0].0 == "REMOTE_URL" && env[1].0 == "REMOTE_HOST" && env[2].0 == "REMOTE_PROXY";
  }

  /** buildConfiguration keeps what it must not override: further containers, what else the first
      container and the spec hold, and all other labels and annotations. */
  lemma BuildKeepsTheRest(p: Settings, c: Configuration, service: Service, k: string)
    ensures var b := BuildConfiguration(p, c, service);
            && |b.spec.containers| == (if c.spec.containers == [] then 1 else |c.spec.containers|)
            && b.spec.containers[0].rest == (if c.spec.containers == [] then "" else c.spec.containers[0].rest)
            && (c.spec.containers != [] ==> b.spec.containers[1..] == c.spec.containers[1..])
            && b.spec.rest == c.spec.rest
            && (b.ready, b.generation, b.rv) == (c.ready, c.generation, c.rv)
            && (k != LAST_GENERATION && k in c.annotations ==>
                  k in b.annotations && b.annotations[k] == c.annotations[k])
            && (k in b.labels && k !in c.labels ==> HasPrefix(k, EDGE_PREFIX))
            && (k in c.labels && !HasPrefix(k, EDGE_PREFIX) ==> k in b.labels && b.labels[k] == c.labels[k])
            && b.spec.containers[0].image == p.proxyImage
            && ("REMOTE_URL", Lookup(service.annotations, REMOTE_URL)) in b.spec.containers[0].env
            && ("REMOTE_HOST", Lookup(service.annotations, REMOTE_HOST)) in b.spec.containers[0].env
            && ("REMOTE_PROXY", p.httpProxy) in b.spec.containers[0].env
            && ConfigurationInView(b.labels)
  {
    BuiltLabels(p, c, service, k);
    BuiltContainers(p, c, service);
  }

  /** What it sets, key by key: the scale of the proxy, its labels, and the generation of the Service. */
  lemma BuildSets(p: Settings, c: Configuration, service: Service, k: string)
    ensures var b := BuildConfiguration(p, c, service);
            var proxy, a := b.spec.containers[0], b.spec.templateAnnotations;
            && proxy.name == "edge-proxy" && |proxy.env| == 3 && b.spec.concurrency == Some(8)
            && proxy.env[0] == ("REMOTE_URL", if Annotation(service.annotations, REMOTE_URL).None? then ""
                                              else service.annotations[REMOTE_URL])
            && proxy.env[1] == ("REMOTE_HOST", if Annotation(service.annotations, REMOTE_HOST).None? then ""
                                               else service.annotations[REMOTE_HOST])
            && proxy.env[2] == ("REMOTE_PROXY", p.httpProxy)
            && "autoscaling.knative.dev/min-scale" in a && a["autoscaling.knative.dev/min-scale"] == "3"
            && "autoscaling.knative.dev/max-scale" in a && a["autoscaling.knative.dev/max-scale"] == "5"
            && (k != "autoscaling.knative.dev/min-scale" && k != "autoscaling.knative.dev/max-scale" ==>
                  (k in a <==> k in c.spec.templateAnnotations) &&
                  (k in a ==> a[k] == c.spec.templateAnnotations[k]))
    ensures var b := BuildConfiguration(p, c, service);
            && Marked(b.spec.templateLabels)
            && b.spec.templateLabels - {LOCAL_LABEL, MANAGED_LABEL} ==
               c.spec.templateLabels - {LOCAL_LABEL, MANAGED_LABEL}
            && Marked(b.labels)
            && CREATED_BY_LABEL in b.labels && b.labels[CREATED_BY_LABEL] == "knative-edge"
            && MANAGED_BY_LABEL in b.labels && b.labels[MANAGED_BY_LABEL] == "knative-edge"
            && LAST_GENERATION in b.annotations && b.annotations[LAST_GENERATION] == Sprint(service.generation)
            && (LAST_GENERATION != k ==> (k in b.annotations <==> k in c.annotations))
  {
    assert |LOCAL_LABEL| == 19 && |MANAGED_LABEL| == 21 && |CREATED_BY_LABEL| == 24 && |MANAGED_BY_LABEL| == 24;
    assert CREATED_BY_LABEL[14] != MANAGED_BY_LABEL[14];
    assert "autoscaling.knative.dev/min-scale"[25] != "autoscaling.knative.dev/max-scale"[25];
  }

  predicate Marked(labels: Meta) {
    && LOCAL_LABEL in labels && labels[LOCAL_LABEL] == "true"
    && MANAGED_LABEL in labels && labels[MANAGED_LABEL] == "true"
  }

  /** UpdateLastRemoteGenerationAnnotation with the local Service as the remote object. */
  function StampConfiguration(c: Configuration, service: Service): Configuration {
    c.(annotations := c.annotations[LAST_REMOTE_GENERATION := VersionString(service.rv)])
  }

  /** The API server bumps the generation when the spec changes, and only then. */
  function StoreConfiguration(prior: Option<Configuration>, c: Configuration, clock: nat): Configuration {
    c.(rv := clock,
       generation := if prior.None? then 1 else if prior.value.spec == c.spec then prior.value.generation
                     else prior.value.generation + 1,
       ready := if prior.None? then "" else prior.value.ready)
  }

  /** reconcileKConfiguration on the merged copy of the Service: the new store, the result, and
      whether an API call failed (creating over a Configuration the client does not show). */
  function ReconcileConfiguration(p: Settings, service: Service, st: Store): (Store, Result, bool) {
    var seen := ConfigurationView(st.configuration);
    if service.rv == 0 then (st, Result(false, 1), false)
    else if !IsOffloaded(service.labels) then
      (if seen.None? then st else st.(configuration := None, clock := st.clock + 1), NO_RESULT, false)
    else
      var built := BuildConfiguration(p, if seen.None? then BLANK_CONFIGURATION else seen.value, service);
      var next := StoreConfiguration(seen, StampConfiguration(built, service), st.clock);
      if seen.None? && st.configuration.Some? then (st, NO_RESULT, true)
      else if seen.None? || seen.value != built then
        (st.(configuration := Some(next), clock := st.clock + 1), Result(false, 1), false)
      else (st, NO_RESULT, false)
  }

  /** A Configuration of that name which the client does not show. */
  predicate IsHidden(st: Store) {
    st.configuration.Some? && ConfigurationView(st.configuration).None?
  }

  /** What becomes of the Configuration: nothing before the Service is stored; deleted without offloading,
      if it is visible; else in view, with the generation of the Service on record, and with its
      version if it was written; or an error, if a hidden one stands in the way. */
  lemma ConfigurationMeans(p: Settings, service: Service, st: Store)
    ensures var (st', result, failed) := ReconcileConfiguration(p, service, st);
            && st'.service == st.service
            && (failed <==> service.rv != 0 && IsOffloaded(service.labels) && IsHidden(st))
            && (service.rv == 0 || failed ==> st' == st)
            && (service.rv != 0 && !IsOffloaded(service.labels) ==>
                  st'.configuration == if IsHidden(st) then st.configuration else None)
            && (service.rv != 0 && IsOffloaded(service.labels) && !failed ==>
                  && st'.configuration.Some? && ConfigurationView(st'.configuration).Some?
                  && var a := st'.configuration.value.annotations;
                     && LAST_GENERATION in a && a[LAST_GENERATION] == Sprint(service.generation)
                     && (st' != st ==>
                           LAST_REMOTE_GENERATION in a && a[LAST_REMOTE_GENERATION] == VersionString(service.rv)))
            && !result.requeue
            && result.requeueAfter == (
                 if service.rv == 0 || (IsOffloaded(service.labels) && st' != st) then 1 else 0)
  {
    var seen := ConfigurationView(st.configuration);
    var base := if seen.None? then BLANK_CONFIGURATION else seen.value;
    BuiltLabels(p, base, service, "");
    KeysDiffer();
  }

  // ---------------------------------------------------------------- the traffic split

  /** The split reconcileKService applies: the stored one, or else what the error path of parsing
      the annotation leaves behind; a fixed split overrides both. */
  function Split(stored: Option<int>, annotations: Meta): int {
    var fixedSplit := ParseInt(Lookup(annotations, FIXED_TRAFFIC));
    if FIXED_TRAFFIC in annotations && !fixedSplit.failed then fixedSplit.value
    else if stored.Some? then stored.value
    else Recovered(Lookup(annotations, PROXY_TRAFFIC))
  }

  function Annotation(annotations: Meta, key: string): Option<string> {
    if key in annotations then Some(annotations[key]) else None
  }

  /** The split to apply, from the text of a fixed split, the stored split, and the text of the last
      one: a fixed split that is a number counts, whatever is stored; without one the stored
      split does, and without that, 0 or the extreme of a text out of range. */
  ghost predicate IsSplitFor(fixed: Option<string>, stored: Option<int>, last: Option<string>, split: int) {
    && (forall v :: IsInt64(v) && fixed == Some(Sprint(v)) ==> split == v)
    && (fixed.Some? && IsNumber(fixed.value) ==>
          var n := Natural(Unsigned(fixed.value)); split == if IsNegative(fixed.value) then 0 - n else n)
    && (fixed.None? || !IsNumber(fixed.value) ==>
          split ==
          match stored
          case Some(v) => v
          case None =>
            if last.None? || !OutOfRange(last.value) then 0
            else if IsNegative(last.value) then MIN_INT64 else MAX_INT64)
  }

  lemma SplitMeans(stored: Option<int>, annotations: Meta)
    ensures IsSplitFor(Annotation(annotations, FIXED_TRAFFIC), stored, Annotation(annotations, PROXY_TRAFFIC),
                       Split(stored, annotations))
  {
    if FIXED_TRAFFIC in annotations {
      ParseMeans(annotations[FIXED_TRAFFIC]);
    }
    RecoveredRange(Lookup(annotations, PROXY_TRAFFIC));
    assert !OutOfRange("") by {
      ScanMeans("");
    }
  }

  /** reconcileKService: the Service it leaves behind, the new store and the result. */
  function ReconcileTraffic(service: Service, stored: Option<int>, st: Store): (Service, Store, Result) {
    var seen := ConfigurationView(st.configuration);
    var ts := Targets(service.traffic);
    if !IsOffloaded(service.labels) then
      (service.(traffic := Some(WithoutProxy(ts))),
       if seen.None? then st else st.(configuration := None, clock := st.clock + 1), NO_RESULT)
    else if seen.None? || !CanRoute(ts, seen.value.ready) then (service, st, Result(false, 5))
    else
      var split := Split(stored, service.annotations);
      (service.(traffic := Some(BuildTraffic(ts, split, seen.value.ready, seen.value.generation)),
                annotations := service.annotations[PROXY_TRAFFIC := Sprint(split)]),
       st, Result(false, 60))
  }

  /** Without offloading the proxy targets go, and so does the visible Configuration. */
  lemma PlainTraffic(service: Service, stored: Option<int>, st: Store, t: Target)
    requires !IsOffloaded(service.labels)
    ensures var (s, st', result) := ReconcileTraffic(service, stored, st);
            && s.(traffic := service.traffic) == service
            && st'.service == st.service
            && st'.configuration == (if IsHidden(st) then st.configuration else None)
            && s.traffic.Some?
            && multiset(s.traffic.value)[t] == (
                 if "edge-proxy-" <= t.tag then 0 else multiset(Targets(service.traffic))[t])
            && result == Result(false, 0)
  {
    RemovalCounts(Targets(service.traffic), t);
  }

  /** With it, nothing happens for five seconds if there is no visible Configuration, or neither a ready
      revision nor a proxy target; else the Service shows the split, and is looked at a minute later. */
  lemma OffloadedTraffic(service: Service, stored: Option<int>, st: Store)
    requires IsOffloaded(service.labels)
    ensures var (s, st', result) := ReconcileTraffic(service, stored, st);
            var seen, ts := ConfigurationView(st.configuration), Targets(service.traffic);
            && st' == st && !result.requeue
            && if seen.None? || (seen.value.ready == "" && forall t :: t in ts ==> !("edge-proxy-" <= t.tag)) then
                 s == service && result.requeueAfter == 5
               else
                 ShowsSplit(service, stored, s) && result.requeueAfter == 60
  {
    var seen := ConfigurationView(st.configuration);
    if seen.Some? {
      CanRouteMeans(Targets(service.traffic), seen.value.ready);
      if CanRoute(Targets(service.traffic), seen.value.ready) {
        RoutedTraffic(service, stored, seen.value);
      }
    }
  }

  /** Two entries, the proxy's with the split to apply, and the annotation that tells it. */
  ghost predicate ShowsSplit(before: Service, stored: Option<int>, after: Service) {
    && after.(traffic := before.traffic, annotations := before.annotations) == before
    && after.traffic.Some? && |after.traffic.value| == 2 && after.traffic.value[1].percent.Some?
    && var split := after.traffic.value[1].percent.value;
       && IsSplitFor(Annotation(before.annotations, FIXED_TRAFFIC), stored,
                     Annotation(before.annotations, PROXY_TRAFFIC), split)
       && Annotation(after.annotations, PROXY_TRAFFIC) == Some(Sprint(split))
       && after.annotations - {PROXY_TRAFFIC} == before.annotations - {PROXY_TRAFFIC}
  }

  lemma RoutedTraffic(service: Service, stored: Option<int>, c: Configuration)
    ensures var split := Split(stored, service.annotations);
            ShowsSplit(service, stored,
              service.(traffic := Some(BuildTraffic(Targets(service.traffic), split, c.ready, c.generation)),
                       annotations := service.annotations[PROXY_TRAFFIC := Sprint(split)]))
  {
    SplitMeans(stored, service.annotations);
  }

  // ---------------------------------------------------------------- one reconcile of a Service

  function ServiceView(s: Option<Service>): Option<Service> {
    if s.Some? && IsManaged(s.value.labels) then s else None
  }

  /** The fold over the preprocessor results: the shortest delay asked for. */
  function Combine(a: Result, b: Result): Result {
    Result(a.requeue || b.requeue,
           if b.requeueAfter > 0 && (b.requeueAfter < a.requeueAfter || a.requeueAfter == 0) then b.requeueAfter
           else a.requeueAfter)
  }

  /** A requeue if either asks for one, after the shorter of the delays that are not 0. */
  lemma CombineMeans(a: Result, b: Result)
    ensures Combine(a, b).requeue <==> a.requeue || b.requeue
    ensures Combine(a, b).requeueAfter in {a.requeueAfter, b.requeueAfter}
    ensures Combine(a, b).requeueAfter == 0 <==> a.requeueAfter == b.requeueAfter == 0
    ensures forall r :: (r == a || r == b) && r.requeueAfter > 0 ==> Combine(a, b).requeueAfter <= r.requeueAfter
  {
  }

  /** The preprocessors in turn: what they make of the copy, the new store, the combined result, and
      whether one of them failed. */
  function Preprocess(p: Settings, copy: Service, stored: Option<int>, st: Store): (Service, Store, Result, bool) {
    var (st1, result1, failed) := ReconcileConfiguration(p, copy, st);
    if failed then (copy, st1, result1, true)
    else
      var (copy', st2, result2) := ReconcileTraffic(copy, stored, st1);
      (copy', st2, Combine(Combine(NO_RESULT, result1), result2), false)
  }

  /** They never touch the stored Service. */
  lemma PreprocessorsKeepService(p: Settings, copy: Service, stored: Option<int>, st: Store)
    ensures Preprocess(p, copy, stored, st).1.service == st.service
  {
    assert ReconcileConfiguration(p, copy, st).0.service == st.service;
  }

  lemma TrafficKeepsTheRest(copy: Service, stored: Option<int>, st: Store)
    ensures var copy' := ReconcileTraffic(copy, stored, st).0;
            && copy'.(traffic := copy.traffic, annotations := copy.annotations) == copy
            && copy'.annotations - {PROXY_TRAFFIC} == copy.annotations - {PROXY_TRAFFIC}
  {
  }

  /** Of the copy they change the traffic, and the annotation that tells it. */
  lemma PreprocessorsKeepTheRest(p: Settings, copy: Service, stored: Option<int>, st: Store)
    ensures var copy' := Preprocess(p, copy, stored, st).0;
            && copy'.(traffic := copy.traffic, annotations := copy.annotations) == copy
            && copy'.annotations - {PROXY_TRAFFIC} == copy.annotations - {PROXY_TRAFFIC}
  {
    TrafficKeepsTheRest(copy, stored, ReconcileConfiguration(p, copy, st).0);
  }

  /** What the API server stores: an empty list is not kept, and the generation counts spec changes. */
  function StoreService(prior: Option<Service>, s: Service, clock: nat): Service {
    var n := s.(rv := clock, annotations := s.annotations[LAST_GENERATION := VersionString(s.rv)],
                traffic := if Targets(s.traffic) == [] then None else s.traffic);
    n.(generation := if prior.None? then 1
                     else if (prior.value.templateLabels, prior.value.podSpec, prior.value.traffic) ==
                             (n.templateLabels, n.podSpec, n.traffic) then prior.value.generation
                     else prior.value.generation + 1)
  }

  /** The write at the end of a reconcile that does not delete: the new store, and whether it
      failed because an unmanaged Service stands in the way. */
  function Commit(remote: Service, local: Option<Service>, final: Service, st: Store): (Store, bool) {
    if local.None? then
      if st.service.Some? then (st, true)
      else (st.(service := Some(StoreService(None, final, st.clock)), clock := st.clock + 1), false)
    else
      var moved := LAST_REMOTE_GENERATION in local.value.annotations &&
                   local.value.annotations[LAST_REMOTE_GENERATION] != VersionString(remote.rv);
      if moved || local.value != final then
        (st.(service := Some(StoreService(local, final, st.clock)), clock := st.clock + 1), false)
      else (st, false)
  }

  /** Creating or updating the mirror: merge, the two preprocessors, the annotations, the write. */
  function Mirror(p: Settings, remote: Service, stored: Option<int>, local: Option<Service>, st: Store):
    (Store, Result, bool) {
    var copy := MergeService(p, remote, if local.None? then BLANK_SERVICE else local.value);
    var (copy', st', result, failed) := Preprocess(p, copy, stored, st);
    if failed then (st', result, true)
    else
      var (st'', failed') := Commit(remote, local, Finalized(remote, copy'), st');
      (st'', result, failed')
  }

  /** MirroringReconciler.Reconcile with the two preprocessors: the new store, the result, and
      whether it ended with an error. */
  function Reconcile(p: Settings, remote: Option<Service>, stored: Option<int>, st: Store): (Store, Result, bool) {
    var local := ServiceView(st.service);
    if remote.None? && local.None? then (st, NO_RESULT, false)
    else if local.Some? &&
            (remote.None? || (IsManaged(local.value.labels) && !HasEdgeSyncLabel(remote.value.labels, p.envs))) then
      (st.(service := None, clock := st.clock + 1), NO_RESULT, false)
    else
      Mirror(p, remote.value, stored, local, st)
  }

  /** Whether the remote object is there and selected by the environments. */
  predicate IsWanted(remote: Option<Service>, envs: Option<seq<string>>) {
    remote.Some? && HasEdgeSyncLabel(remote.value.labels, envs)
  }

  /** What becomes of the Service. A managed one is removed exactly if the remote one is gone or no
      longer selected, without touching the Configuration and without an error. One that is not
      managed stays as it is, and stands in the way of a remote one. */
  lemma ReconcileMeans(p: Settings, remote: Option<Service>, stored: Option<int>, st: Store)
    ensures var (st', result, failed) := Reconcile(p, remote, stored, st);
            && (ServiceView(st.service).Some? ==>
                  && (st'.service.None? <==> !IsWanted(remote, p.envs))
                  && (st'.service.None? ==>
                        st'.configuration == st.configuration && !failed && result == Result(false, 0)))
            && (ServiceView(st.service).None? && st.service.Some? ==>
                  st'.service == st.service && (failed <==> remote.Some?))
            && (st.service.None? ==>
                  && (st'.service.Some? <==> remote.Some?) && !failed
                  && (remote.None? ==> st' == st && result == Result(false, 0)))
  {
    var local := ServiceView(st.service);
    if remote.Some? && (local.None? || IsWanted(remote, p.envs)) {
      var copy := MergeService(p, remote.value, if local.None? then BLANK_SERVICE else local.value);
      PreprocessorsKeepService(p, copy, stored, st);
      assert Reconcile(p, remote, stored, st) == Mirror(p, remote.value, stored, local, st);
    }
  }

  /** An annotation that is the controller's own business. */
  predicate IsBookkeeping(k: string) {
    k in {PROXY_TRAFFIC, LAST_GENERATION, LAST_REMOTE_GENERATION}
  }

  /** The contents of the remote Service, mirrored over a local one; k is any annotation. */
  ghost predicate HasContents(p: Settings, remote: Service, before: Service, s: Service, k: string) {
    && CarriesSpec(remote, s)
    && Annotation(s.annotations, LAST_REMOTE_GENERATION) == Some(VersionString(remote.rv))
    && (!IsBookkeeping(k) ==> ComesFrom(p, remote, before.annotations, s.annotations, k))
  }

  lemma FinalContents(p: Settings, remote: Service, dst: Service, stored: Option<int>, st: Store, k: string)
    ensures var s := Finalized(remote, Preprocess(p, MergeService(p, remote, dst), stored, st).0);
            HasContents(p, remote, dst, s, k) && s.rv == dst.rv
  {
    var copy := MergeService(p, remote, dst);
    var s, t := Finalized(remote, Preprocess(p, copy, stored, st).0), Finalized(remote, copy);
    PreprocessorsKeepTheRest(p, copy, stored, st);
    MergedContents(p, remote, dst);
    if !IsBookkeeping(k) {
      MergeFrames(p, remote, dst, k);
      var plain := copy.annotations - {PROXY_TRAFFIC};
      assert (k in s.annotations <==> k in plain) && (k in s.annotations ==> s.annotations[k] == plain[k]);
    }
  }

  lemma StoredContents(
    p: Settings, remote: Service, before: Service, prior: Option<Service>, s: Service, clock: nat, k: string)
    requires HasContents(p, remote, before, s, k)
    ensures var n := StoreService(prior, s, clock);
            && HasContents(p, remote, before, n, k)
            && Annotation(n.annotations, LAST_GENERATION) == Some(VersionString(s.rv))
  {
    KeysDiffer();
  }

  /** A reconcile that does not fail leaves a Service with the contents of the remote one, offloaded or
      not; if it wrote it, the Service names the version replaced. */
  lemma ReconcileContents(p: Settings, remote: Service, stored: Option<int>, st: Store, k: string)
    requires st.service.None? || (ServiceView(st.service).Some? && IsWanted(Some(remote), p.envs))
    ensures var (st', _, failed) := Reconcile(p, Some(remote), stored, st);
            !failed ==>
              && st'.service.Some?
              && var l, s := if st.service.None? then BLANK_SERVICE else st.service.value, st'.service.value;
                 && HasContents(p, remote, l, s, k)
                 && (st'.service != st.service ==>
                       Annotation(s.annotations, LAST_GENERATION) == Some(VersionString(l.rv)))
  {
    var local := ServiceView(st.service);
    var l := if local.None? then BLANK_SERVICE else local.value;
    var copy := MergeService(p, remote, l);
    var (copy', st1, _, failed) := Preprocess(p, copy, stored, st);
    var final := Finalized(remote, copy');
    PreprocessorsKeepService(p, copy, stored, st);
    FinalContents(p, remote, l, stored, st, k);
    StoredContents(p, remote, l, local, final, st1.clock, k);
    assert Reconcile(p, Some(remote), stored, st) == Mirror(p, remote, stored, local, st);
    if !failed {
      assert Reconcile(p, Some(remote), stored, st).0 == Commit(remote, local, final, st1).0;
    }
  }
}
