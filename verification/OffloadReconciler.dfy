/** The Service controller as it runs: objects edited in place, an API server written to, and the
    reconcile methods. Each is proved to do what the function of the same purpose in Offload says. */
module OffloadReconciler {
  import opened Text
  import opened Kube
  import opened Traffic
  import opened Offload

  /** A Service as the controller holds it. The labels, the annotations and the template labels are
      references to maps. */
  class ServiceObject {
    var labels: MetaMap
    var annotations: MetaMap
    var templateLabels: MetaMap
    var podSpec: string
    var traffic: Option<seq<Target>>
    var host: Option<string>
    var generation: nat
    var rv: nat

    function Value(): Service
      reads this, labels, annotations, templateLabels
    {
      Service(labels.entries, annotations.entries, templateLabels.entries, podSpec, traffic, host, generation, rv)
    }

    ghost function Maps(): set<MetaMap>
      reads this
    {
      {labels, annotations, templateLabels}
    }

    ghost predicate Valid()
      reads this
    {
      labels != annotations && labels != templateLabels && annotations != templateLabels
    }

    constructor (v: Service)
      ensures Valid() && fresh(Maps()) && Value() == v
    {
      podSpec, traffic, host, generation, rv := v.podSpec, v.traffic, v.host, v.generation, v.rv;
      labels := new MetaMap(v.labels);
      annotations := new MetaMap(v.annotations);
      templateLabels := new MetaMap(v.templateLabels);
    }

    method DeepCopy() returns (copy: ServiceObject)
      ensures fresh(copy) && copy.Valid() && fresh(copy.Maps()) && copy.Value() == Value()
    {
      copy := new ServiceObject(Value());
    }

    method UpdateLabels()
      requires Valid()
      modifies labels
      ensures Value() == old(Value()).(labels := WithManagedLabels(old(labels.entries)))
    {
      labels.Set(APP_LABEL, "knative-edge");
      labels.Set(MANAGED_LABEL, "true");
      labels.Set(MANAGED_BY_LABEL, "knative-edge");
      labels.Set(CREATED_BY_LABEL, "knative-edge-controller");
    }

    /** RemoveEdgeProxyTarget: the list is rebuilt without the proxy targets, and is never nil after. */
    method RemoveEdgeProxyTarget() returns (hasEdgeProxyTarget: bool)
      modifies this`traffic
      ensures traffic == Some(WithoutProxy(Targets(old(traffic))))
      ensures hasEdgeProxyTarget <==> EdgeProxyTarget(Targets(old(traffic))).Some?
    {
      hasEdgeProxyTarget := false;
      var targets := Targets(traffic);
      var kept: seq<Target> := [];
      TargetSearch(targets);
      for i := 0 to |targets|
        invariant kept == WithoutProxy(targets[..i])
        invariant hasEdgeProxyTarget <==> exists j :: 0 <= j < i && IsProxy(targets[j])
      {
        WithoutProxySnoc(targets[..i], targets[i]);
        assert targets[..i + 1] == targets[..i] + [targets[i]];
        if IsProxy(targets[i]) {
          hasEdgeProxyTarget := true;
        } else {
          kept := kept + [targets[i]];
        }
      }
      assert targets[..|targets|] == targets;
      traffic := Some(kept);
    }
  }

  class ConfigurationObject {
    var labels: Meta
    var annotations: Meta
    var spec: ConfigurationSpec
    var ready: string
    var generation: nat
    var rv: nat

    function Value(): Configuration
      reads this
    {
      Configuration(labels, annotations, spec, ready, generation, rv)
    }

    constructor (v: Configuration)
      ensures Value() == v
    {
      labels, annotations, spec := v.labels, v.annotations, v.spec;
      ready, generation, rv := v.ready, v.generation, v.rv;
    }
  }

  /** The local API server, as far as Services and Configurations go. */
  class EdgeServer {
    var services: map<string, Service>
    var configurations: map<string, Configuration>
    var clock: nat

    function StoreOf(name: string): Store
      reads this
    {
      var c := ConfigurationName(name);
      Store(if name in services then Some(services[name]) else None,
            if c in configurations then Some(configurations[c]) else None,
            clock)
    }

    /** Nothing else has been touched. */
    twostate predicate OnlyTouched(name: string)
      reads this
    {
      services - {name} == old(services) - {name} &&
      configurations - {ConfigurationName(name)} == old(configurations) - {ConfigurationName(name)}
    }

    method PutService(name: string, prior: Option<Service>, s: ServiceObject)
      modifies this
      ensures StoreOf(name) == old(StoreOf(name)).(
                service := Some(StoreService(prior, old(s.Value()), old(clock))), clock := old(clock) + 1)
      ensures OnlyTouched(name)
    {
      services := services[name := StoreService(prior, s.Value(), clock)];
      clock := clock + 1;
    }

    method DeleteService(name: string)
      modifies this
      ensures StoreOf(name) == old(StoreOf(name)).(service := None, clock := old(clock) + 1)
      ensures OnlyTouched(name)
    {
      services := services - {name};
      clock := clock + 1;
    }

    method PutConfiguration(name: string, prior: Option<Configuration>, c: ConfigurationObject)
      modifies this
      ensures StoreOf(name) == old(StoreOf(name)).(
                configuration := Some(StoreConfiguration(prior, old(c.Value()), old(clock))), clock := old(clock) + 1)
      ensures OnlyTouched(name)
    {
      configurations := configurations[ConfigurationName(name) := StoreConfiguration(prior, c.Value(), clock)];
      clock := clock + 1;
    }

    method DeleteConfiguration(name: string)
      modifies this
      ensures StoreOf(name) == old(StoreOf(name)).(configuration := None, clock := old(clock) + 1)
      ensures OnlyTouched(name)
    {
      configurations := configurations - {ConfigurationName(name)};
      clock := clock + 1;
    }
  }

  class KServiceReconciler {
    const settings: Settings
    const server: EdgeServer

    constructor (settings: Settings, server: EdgeServer)
      ensures this.settings == settings && this.server == server
    {
      this.settings := settings;
      this.server := server;
    }

    /** The loop of kindMerger over the remote annotations. */
    static method CopyPrefixed(src: Meta, dst: MetaMap)
      modifies dst
      ensures dst.entries == old(dst.entries) + Prefixed(src)
    {
      var keys := src.Keys;
      while keys != {}
        invariant keys <= src.Keys
        invariant dst.entries == old(dst.entries) + map k | k in Prefixed(src) && k !in keys :: src[k]
        decreases keys
      {
        var key :| key in keys;
        if IsPrefixed(key) {
          dst.Set(key, src[key]);
        }
        keys := keys - {key};
      }
      assert (map k | k in Prefixed(src) && k !in keys :: src[k]) == Prefixed(src);
    }

    static lemma MergedInSteps(p: Settings, src: Service, a: Meta)
      ensures (if src.host.Some? then a[REMOTE_HOST := src.host.value] else a)[REMOTE_URL := p.remoteUrl]
                + Prefixed(src.annotations) == a + MergedAnnotations(p, src)
    {
    }

    /** The address of the remote cluster and the prefixed annotations, in this order. */
    method AddAnnotations(src: ServiceObject, annotations: MetaMap)
      requires annotations !in src.Maps()
      modifies annotations
      ensures annotations.entries == old(annotations.entries) + MergedAnnotations(settings, src.Value())
    {
      if src.host.Some? {
        annotations.Set(REMOTE_HOST, src.host.value);
      }
      annotations.Set(REMOTE_URL, settings.remoteUrl);
      CopyPrefixed(src.annotations.entries, annotations);
      MergedInSteps(settings, src.Value(), old(annotations.entries));
    }

    /** kindMerger: the labels and the template labels are assigned, those of a deep copy, and then
        written into; the annotations are written where they are. Unless these belong to the source
        already, it does not change, nor do its maps, and the objects share none afterwards. */
    method KindMerger(src: ServiceObject, dst: ServiceObject)
      modifies dst, dst.annotations
      ensures dst.Value() == MergeService(settings, old(src.Value()), old(dst.Value()))
      ensures dst.Valid() && dst.annotations == old(dst.annotations)
      ensures fresh(dst.labels) && fresh(dst.templateLabels)
      ensures src != dst && dst.annotations !in src.Maps() ==>
                src.Value() == old(src.Value()) && dst.Maps() !! src.Maps()
    {
      var copied := src.DeepCopy();
      dst.labels := copied.labels;
      dst.podSpec := copied.podSpec;
      dst.templateLabels := copied.templateLabels;
      AddAnnotations(copied, dst.annotations);
      dst.templateLabels.Set(LOCAL_LABEL, "true");
    }

    method BuildConfiguration(configuration: ConfigurationObject, service: ServiceObject)
      modifies configuration
      ensures configuration.Value() ==
              Offload.BuildConfiguration(settings, old(configuration.Value()), old(service.Value()))
    {
      var labels := configuration.labels;
      labels := labels[LOCAL_LABEL := "true"];
      labels := labels[MANAGED_LABEL := "true"];
      labels := labels[CREATED_BY_LABEL := "knative-edge"];
      labels := labels[MANAGED_BY_LABEL := "knative-edge"];
      configuration.labels := labels;
      configuration.annotations := configuration.annotations[LAST_GENERATION := Sprint(service.generation)];

      var containers := configuration.spec.containers;
      if |containers| == 0 {
        containers := containers + [BLANK_CONTAINER];
      }
      var container := containers[0].(
        name := "edge-proxy", image := settings.proxyImage,
        env := [("REMOTE_URL", Lookup(service.annotations.entries, REMOTE_URL)),
                ("REMOTE_HOST", Lookup(service.annotations.entries, REMOTE_HOST)),
                ("REMOTE_PROXY", settings.httpProxy)]);
      configuration.spec := configuration.spec.(containers := containers[0 := container], concurrency := Some(8));

      var specLabels := configuration.spec.templateLabels;
      specLabels := specLabels[LOCAL_LABEL := "true"];
      specLabels := specLabels[MANAGED_LABEL := "true"];
      var specAnnotations := configuration.spec.templateAnnotations;
      specAnnotations := specAnnotations["autoscaling.knative.dev/min-scale" := "3"];
      specAnnotations := specAnnotations["autoscaling.knative.dev/max-scale" := "5"];
      configuration.spec := configuration.spec.(templateLabels := specLabels, templateAnnotations := specAnnotations);
    }

    /** Builds the Configuration and tells whether that is a change; the version of the Service, which
        is put on afterwards, does not count as one. */
    method PrepareConfiguration(configuration: ConfigurationObject, service: ServiceObject) returns (shouldUpdate: bool)
      modifies configuration
      ensures var built := Offload.BuildConfiguration(settings, old(configuration.Value()), service.Value());
              configuration.Value() == StampConfiguration(built, service.Value()) &&
              (shouldUpdate <==> old(configuration.Value()) != built)
    {
      var localConfiguration := configuration.Value();
      BuildConfiguration(configuration, service);
      shouldUpdate := localConfiguration != configuration.Value();
      configuration.annotations := configuration.annotations[LAST_REMOTE_GENERATION := VersionString(service.rv)];
    }

    method ReconcileKConfiguration(name: string, service: ServiceObject) returns (result: Result, failed: bool)
      modifies server
      ensures (server.StoreOf(name), result, failed) ==
              ReconcileConfiguration(settings, service.Value(), old(server.StoreOf(name)))
      ensures server.OnlyTouched(name)
    {
      if service.rv == 0 {
        return Result(false, 1), false;
      }
      var shouldCreate, shouldUpdate, shouldDelete := false, false, false;
      var seen := ConfigurationView(server.StoreOf(name).configuration);
      if seen.None? {
        shouldCreate := true;
      }
      var localConfiguration := if seen.Some? then seen.value else BLANK_CONFIGURATION;
      var configuration := new ConfigurationObject(localConfiguration);

      if !IsOffloaded(service.labels.entries) {
        if shouldCreate {
          return NO_RESULT, false;
        }
        shouldDelete := true;
        shouldCreate := false;
      }
      if !shouldDelete {
        shouldUpdate := PrepareConfiguration(configuration, service);
      }
      if shouldCreate {
        if ConfigurationName(name) in server.configurations {
          return NO_RESULT, true;
        }
        server.PutConfiguration(name, None, configuration);
      } else if shouldUpdate {
        server.PutConfiguration(name, seen, configuration);
      } else if shouldDelete {
        server.DeleteConfiguration(name);
      }
      if shouldCreate || shouldUpdate {
        return Result(false, 1), false;
      }
      return NO_RESULT, false;
    }

    /** The split to apply; stored is what the split store answers for the service. */
    method TrafficSplit(annotations: Meta, stored: Option<int>) returns (trafficSplit: int)
      ensures trafficSplit == Split(stored, annotations)
      ensures IsSplitFor(Annotation(annotations, FIXED_TRAFFIC), stored, Annotation(annotations, PROXY_TRAFFIC),
                         trafficSplit)
    {
      SplitMeans(stored, annotations);
      trafficSplit := 0;
      if stored.Some? {
        trafficSplit := stored.value;
      } else {
        var previous := ParseInt(Lookup(annotations, PROXY_TRAFFIC));
        if previous.failed {
          trafficSplit := previous.value;
        }
      }
      if FIXED_TRAFFIC in annotations {
        var parsed := ParseInt(annotations[FIXED_TRAFFIC]);
        if !parsed.failed {
          trafficSplit := parsed.value;
        }
      }
    }

    /** The list of targets, None if there is nothing to route to yet. */
    method SplitTraffic(targets: seq<Target>, trafficSplit: int, seen: Option<Configuration>)
      returns (traffic: Option<seq<Target>>)
      ensures traffic == if seen.None? || !CanRoute(targets, seen.value.ready) then None
                         else Some(BuildTraffic(targets, trafficSplit, seen.value.ready, seen.value.generation))
    {
      var entries: seq<Target> := [];
      var percent := Remainder(trafficSplit);
      var latest := LatestRevisionTarget(targets);
      if latest.Some? {
        entries := entries + [latest.value.(percent := Some(percent))];
      } else {
        entries := entries + [Target("", "", Some(true), Some(percent))];
      }

      var target := EdgeProxyTarget(targets);
      if target.Some? {
        if seen.None? {
          return None;
        }
        entries := entries + [target.value.(revisionName := seen.value.ready,
                                            tag := TargetTag(seen.value.generation), percent := Some(trafficSplit))];
      } else {
        if seen.None? {
          return None;
        }
        if seen.value.ready == "" {
          return None;
        }
        entries := entries + [Target(TargetTag(seen.value.generation), seen.value.ready, None, Some(trafficSplit))];
      }
      assert entries == BuildTraffic(targets, trafficSplit, seen.value.ready, seen.value.generation);
      return Some(entries);
    }

    /** The Service is edited in place: the field of the traffic, and the map of the annotations. */
    method ReconcileKService(name: string, service: ServiceObject, stored: Option<int>) returns (result: Result)
      requires service.Valid()
      modifies server, service`traffic, service.annotations
      ensures (service.Value(), server.StoreOf(name), result) ==
              ReconcileTraffic(old(service.Value()), stored, old(server.StoreOf(name)))
      ensures server.OnlyTouched(name)
    {
      var seen := ConfigurationView(server.StoreOf(name).configuration);
      if !IsOffloaded(service.labels.entries) {
        if seen.Some? {
          server.DeleteConfiguration(name);
        }
        var _ := service.RemoveEdgeProxyTarget();
        return NO_RESULT;
      }
      var trafficSplit := TrafficSplit(service.annotations.entries, stored);
      var traffic := SplitTraffic(Targets(service.traffic), trafficSplit, seen);
      if traffic.None? {
        return Result(false, 5);
      }
      service.traffic := traffic;
      service.annotations.Set(PROXY_TRAFFIC, Sprint(trafficSplit));
      return Result(false, 60);
    }

    /** The loop over the two preprocessors. */
    method Preprocess(name: string, localKindCopy: ServiceObject, stored: Option<int>)
      returns (result: Result, failed: bool)
      requires localKindCopy.Valid()
      modifies server, localKindCopy`traffic, localKindCopy.annotations
      ensures (localKindCopy.Value(), server.StoreOf(name), result, failed) ==
              Offload.Preprocess(settings, old(localKindCopy.Value()), stored, old(server.StoreOf(name)))
      ensures server.OnlyTouched(name)
    {
      result := NO_RESULT;
      var res: Result;
      res, failed := ReconcileKConfiguration(name, localKindCopy);
      if failed {
        return res, true;
      }
      result := Combine(result, res);
      res := ReconcileKService(name, localKindCopy, stored);
      result := Combine(result, res);
    }

    method FinalizeCopy(remoteKind: ServiceObject, localKindCopy: ServiceObject)
      requires localKindCopy.Valid()
      modifies localKindCopy.annotations, localKindCopy.labels
      ensures localKindCopy.Value() == Finalized(old(remoteKind.Value()), old(localKindCopy.Value()))
    {
      localKindCopy.annotations.Set(LAST_REMOTE_GENERATION, VersionString(remoteKind.rv));
      localKindCopy.UpdateLabels();
    }

    /** The write that ends a reconcile. */
    method WriteBack(name: string, remoteKind: ServiceObject, localGet: Option<Service>, localKindCopy: ServiceObject)
      returns (failed: bool)
      requires localGet == ServiceView(server.StoreOf(name).service)
      modifies server
      ensures (server.StoreOf(name), failed) ==
              Commit(old(remoteKind.Value()), localGet, old(localKindCopy.Value()), old(server.StoreOf(name)))
      ensures server.OnlyTouched(name)
    {
      failed := false;
      if localGet.None? {
        if name in server.services {
          return true;
        }
        server.PutService(name, None, localKindCopy);
      } else {
        var annotations := localGet.value.annotations;
        var shouldUpdate := VersionString(remoteKind.rv) != Lookup(annotations, LAST_REMOTE_GENERATION) &&
                            LAST_REMOTE_GENERATION in annotations;
        shouldUpdate := shouldUpdate || localGet.value != localKindCopy.Value();
        if shouldUpdate {
          server.PutService(name, localGet, localKindCopy);
        }
      }
    }

    /** A copy of what the local client gave out, in maps of its own, with the remote object merged in. */
    method MergedCopy(remoteKind: ServiceObject, localGet: Option<Service>) returns (localKindCopy: ServiceObject)
      ensures fresh(localKindCopy) && localKindCopy.Valid() && fresh(localKindCopy.Maps())
      ensures localKindCopy.Value() ==
              MergeService(settings, remoteKind.Value(), if localGet.None? then BLANK_SERVICE else localGet.value)
    {
      localKindCopy := new ServiceObject(if localGet.Some? then localGet.value else BLANK_SERVICE);
      KindMerger(remoteKind, localKindCopy);
    }

    /** Creating or updating: the merge, the preprocessors in turn, the annotations, the write. The
        object the remote client gave out, and its maps, are not among what is modified. */
    method MirrorService(name: string, remoteKind: ServiceObject, localGet: Option<Service>, stored: Option<int>)
      returns (result: Result, failed: bool)
      requires localGet == ServiceView(server.StoreOf(name).service)
      modifies server
      ensures (server.StoreOf(name), result, failed) ==
              Mirror(settings, old(remoteKind.Value()), stored, localGet, old(server.StoreOf(name)))
      ensures server.OnlyTouched(name)
    {
      var localKindCopy := MergedCopy(remoteKind, localGet);
      PreprocessorsKeepService(settings, localKindCopy.Value(), stored, server.StoreOf(name));
      result, failed := Preprocess(name, localKindCopy, stored);
      if failed {
        return;
      }
      FinalizeCopy(remoteKind, localKindCopy);
      failed := WriteBack(name, remoteKind, localGet, localKindCopy);
    }

    /** One reconcile of a Service; remoteGet is what the remote client answers. */
    method Reconcile(name: string, remoteGet: Option<Service>, stored: Option<int>)
      returns (result: Result, failed: bool)
      modifies server
      ensures (server.StoreOf(name), result, failed) ==
              Offload.Reconcile(settings, remoteGet, stored, old(server.StoreOf(name)))
      ensures server.OnlyTouched(name)
    {
      var shouldDelete := false;
      var localGet := ServiceView(server.StoreOf(name).service);
      if remoteGet.None? {
        shouldDelete := true;
      }
      if localGet.None? {
        if shouldDelete {
          return NO_RESULT, false;
        }
      } else if !shouldDelete && IsManaged(localGet.value.labels) &&
                !HasEdgeSyncLabel(remoteGet.value.labels, settings.envs) {
        shouldDelete := true;
      }
      if shouldDelete {
        server.DeleteService(name);
        return NO_RESULT, false;
      }
      var remoteKind := new ServiceObject(remoteGet.value);
      result, failed := MirrorService(name, remoteKind, localGet, stored);
    }
  }
}
