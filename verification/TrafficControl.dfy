/** The traffic control loop: the split store with its clean-up, the results of the strategy, and
    one run of the loop over the listed services (pkg/workoffload/store/store.go,
    pkg/workoffload/prometheus/strategy.go, pkg/workoffload/runnable.go). Times are in seconds. */
module TrafficControl {
  import opened Text
  import opened Latency
  import opened Smoothing
  import opened Usage

  // ---------------------------------------------------------------- the split store

  const CLEANUP_PERIOD := 1800
  const MAX_ITEM_TTL := 3600

  datatype Item = Item(timestamp: int, key: string, value: int)

  type Splits = map<string, Item>

  /** What a clean-up keeps. */
  function Young(data: Splits, now: int): Splits {
    map k | k in data && data[k].timestamp + MAX_ITEM_TTL > now :: data[k]
  }

  class SplitStore {
    var data: Splits

    constructor ()
      ensures data == map[]
    {
      data := map[];
    }

    method Set(key: string, value: int, now: int)
      modifies this
      ensures data == old(data)[key := Item(now, key, value)]
    {
      data := data[key := Item(now, key, value)];
    }

    method Get(key: string) returns (value: int, exists_: bool)
      ensures exists_ <==> key in data
      ensures value == if key in data then data[key].value else 0
    {
      if key !in data {
        return 0, false;
      }
      return data[key].value, true;
    }

    method CleanUp(now: int)
      modifies this
      ensures data == Young(old(data), now)
      ensures forall k :: k in data <==> k in old(data) && now - old(data)[k].timestamp < 3600
      ensures forall k :: k in data ==> data[k] == old(data)[k]
    {
      var keysToRemove: seq<string> := [];
      var keys := data.Keys;
      while keys != {}
        invariant keys <= data.Keys && data == old(data)
        invariant forall k :: k in keysToRemove <==> k in data.Keys - keys && data[k].timestamp + MAX_ITEM_TTL <= now
        decreases keys
      {
        var key :| key in keys;
        if data[key].timestamp + MAX_ITEM_TTL <= now {
          keysToRemove := keysToRemove + [key];
        }
        keys := keys - {key};
      }
      for i := 0 to |keysToRemove|
        invariant data == old(data) - set k | k in keysToRemove[..i]
      {
        assert keysToRemove[..i + 1] == keysToRemove[..i] + [keysToRemove[i]];
        data := data - {keysToRemove[i]};
      }
      assert keysToRemove[..|keysToRemove|] == keysToRemove;
    }
  }

  // ---------------------------------------------------------------- how old an item can get

  datatype StoreEvent = Put(key: string, value: int) | Clean

  /** The store, the time, and when it was last cleaned up (or started). */
  datatype Timed = Timed(data: Splits, now: int, cleaned: int)

  function After(s: Timed, at: int, e: StoreEvent): Timed {
    match e
    case Put(key, value) => Timed(s.data[key := Item(at, key, value)], at, s.cleaned)
    case Clean => Timed(Young(s.data, at), at, at)
  }

  /** Time moves on, and the clean-up timer fires at most one period after the last clean-up. */
  ghost predicate IsHistory(states: seq<Timed>) {
    && states != []
    && if |states| == 1 then states[0].data == map[] && states[0].now == states[0].cleaned
       else
         var s, t := states[|states| - 2], states[|states| - 1];
         && IsHistory(states[..|states| - 1])
         && s.now <= t.now <= s.cleaned + CLEANUP_PERIOD
         && exists e :: t == After(s, t.now, e)
  }

  /** In every history no item is ever as old as the time to live plus one period. */
  lemma {:induction false} NothingGetsStale(states: seq<Timed>)
    requires IsHistory(states)
    ensures var t := states[|states| - 1];
            && t.cleaned <= t.now <= t.cleaned + CLEANUP_PERIOD
            && forall k :: k in t.data ==>
                 && t.cleaned - MAX_ITEM_TTL < t.data[k].timestamp <= t.now
                 && t.now - t.data[k].timestamp < MAX_ITEM_TTL + CLEANUP_PERIOD
  {
    if |states| > 1 {
      var s, t := states[|states| - 2], states[|states| - 1];
      assert states[..|states| - 1][|states| - 2] == s;
      NothingGetsStale(states[..|states| - 1]);
      var e :| t == After(s, t.now, e);
      forall k | k in t.data ensures t.cleaned - MAX_ITEM_TTL < t.data[k].timestamp <= t.now {
        if e.Put? && k == e.key {
        } else {
          assert k in s.data;
        }
      }
    }
  }

  /** The step to the n-th state puts nothing under the key. */
  ghost predicate LeavesKey(states: seq<Timed>, n: nat, key: string)
    requires 0 < n < |states|
  {
    forall value :: states[n] != After(states[n - 1], states[n].now, Put(key, value))
  }

  lemma {:induction false} TimeGoesOn(states: seq<Timed>, i: nat)
    requires IsHistory(states) && i < |states|
    ensures states[i].now <= states[|states| - 1].now
  {
    var n := |states| - 1;
    if i < n {
      TimeGoesOn(states[..n], i);
    }
  }

  /** And no item is lost early: in every history, one that was put less than the time to live ago, and not
      put again since, is there as it was put. */
  lemma {:induction false} YoungItemsStay(states: seq<Timed>, i: nat, key: string, value: int)
    requires IsHistory(states) && 0 < i < |states|
    requires states[i] == After(states[i - 1], states[i].now, Put(key, value))
    requires forall n :: i < n < |states| ==> LeavesKey(states, n, key)
    requires states[|states| - 1].now - states[i].now < 3600
    ensures var data := states[|states| - 1].data; key in data && data[key] == Item(states[i].now, key, value)
  {
    var n := |states| - 1;
    if i < n {
      var before := states[..n];
      TimeGoesOn(before, i);
      forall m | i < m < n ensures LeavesKey(before, m, key) {
        assert LeavesKey(states, m, key);
      }
      YoungItemsStay(before, i, key, value);
      assert LeavesKey(states, n, key);
      var e :| states[n] == After(states[n - 1], states[n].now, e);
    }
  }

  // ---------------------------------------------------------------- the strategy's results

  /** What the loop reads of a listed service. */
  datatype KService = KService(name: string, trafficAnnotation: string, tuning: Tuning)

  const NO_SERVICE := KService("", "", Tuning(None, None, None, None, None))

  datatype Action = PreserveTraffic | IncreaseTraffic | DecreaseTraffic | SetTraffic

  /** The variable of a Go range loop: one cell for all rounds. */
  class LoopVariable {
    var service: KService

    constructor (service: KService)
      ensures this.service == service
    {
      this.service := service;
    }
  }

  datatype ServiceResult = ServiceResult(name: string, service: LoopVariable, action: Action, desired: int)

  /** The traffic a service should offload, from its filled samples (or the latency it had). */
  function DesiredTraffic(latencies: Option<seq<real>>, latency: real, tuning: Tuning): int {
    Desired(if latencies.Some? then Average(latencies.value, Or(tuning.decay, DECAY_DEFAULT)) else latency,
            Or(tuning.softLimit, SOFT_LIMIT_DEFAULT), Or(tuning.hardLimit, HARD_LIMIT_DEFAULT))
  }

  /** It is what the limits of the service ask for, each setting being the annotation's or the default:
      of the weighted latency of the samples, or of the latency it had. */
  lemma DesiredTrafficMeans(latencies: Option<seq<real>>, latency: real, tuning: Tuning, n: int)
    ensures var decay := match tuning.decay case Some(v) => v case None => 0.75;
            var soft := match tuning.softLimit case Some(v) => v case None => 1.75;
            var hard := match tuning.hardLimit case Some(v) => v case None => 4.0;
            var current := match latencies case Some(xs) => Average(xs, decay) case None => latency;
            DesiredTraffic(latencies, latency, tuning) == n <==> IsDesired(current, soft, hard, n)
  {
    var current := if latencies.Some? then Average(latencies.value, Or(tuning.decay, DECAY_DEFAULT)) else latency;
    DesiredMeans(current, Or(tuning.softLimit, SOFT_LIMIT_DEFAULT), Or(tuning.hardLimit, HARD_LIMIT_DEFAULT), n);
  }

  /** Every listed service gets a result under its own name, computed from its own samples and its
      own limits; but all results share one Service pointer, which ends up at the last service. */
  method GetResults(cluster: ClusterUsage, services: seq<KService>) returns (ret: seq<ServiceResult>)
    requires cluster.Valid()
    modifies cluster.services.Values`decay, cluster.services.Values`target
    modifies cluster.services.Values`softLimit, cluster.services.Values`hardLimit
    modifies cluster.services.Values`requestLatency
    ensures |ret| == |services|
    ensures forall i :: 0 <= i < |services| ==>
              && ret[i].name == services[i].name
              && (services[i].name in cluster.services ==>
                    && ret[i].action == SetTraffic
                    && ret[i].desired == old(DesiredTraffic(cluster.services[services[i].name].requestLatencies,
                                                            cluster.services[services[i].name].requestLatency,
                                                            services[i].tuning)))
              && (services[i].name !in cluster.services ==> ret[i].action == PreserveTraffic && ret[i].desired == -1)
    ensures forall i :: 0 <= i < |services| ==>
              ret[i].service == ret[0].service && fresh(ret[i].service) &&
              ret[i].service.service == services[|services| - 1]
  {
    ret := [];
    var service := new LoopVariable(NO_SERVICE);
    for i := 0 to |services|
      invariant |ret| == i
      invariant i > 0 ==> service.service == services[i - 1]
      invariant forall u :: u in cluster.services.Values && u.requestLatencies.None? ==>
                  u.requestLatency == old(u.requestLatency)
      invariant forall j :: 0 <= j < i ==>
                  && ret[j].name == services[j].name
                  && ret[j].service == service
                  && (services[j].name in cluster.services ==>
                        && ret[j].action == SetTraffic
                        && ret[j].desired == old(DesiredTraffic(cluster.services[services[j].name].requestLatencies,
                                                                cluster.services[services[j].name].requestLatency,
                                                                services[j].tuning)))
                  && (services[j].name !in cluster.services ==>
                        ret[j].action == PreserveTraffic && ret[j].desired == -1)
    {
      service.service := services[i];
      var action, desiredTraffic := PreserveTraffic, -1;
      var name := service.service.name;
      if name in cluster.services {
        var serviceUsage := cluster.services[name];
        serviceUsage.UpdateWithKService(service.service.tuning);
        serviceUsage.FinalizeKServiceMetrics();
        action := SetTraffic;
        if serviceUsage.requestLatency < serviceUsage.softLimit {
          desiredTraffic := 0;
        } else if serviceUsage.requestLatency >= serviceUsage.hardLimit {
          desiredTraffic := 100;
        } else {
          var limitDiff := serviceUsage.hardLimit - serviceUsage.softLimit;
          var overSoftLimit := (serviceUsage.requestLatency - serviceUsage.softLimit) / limitDiff;
          DesiredIsPercentage(serviceUsage.requestLatency, serviceUsage.softLimit, serviceUsage.hardLimit);
          desiredTraffic := Truncate(100.0 * overSoftLimit);
        }
      }
      ret := ret + [ServiceResult(name, service, action, desiredTraffic)];
    }
  }

  // ---------------------------------------------------------------- one run

  function ValueOf(data: Splits, key: string): int {
    if key in data then data[key].value else 0
  }

  /** The first loop of run: services the store does not know get what their annotation recovers. */
  function Recover(data: Splits, services: seq<KService>, now: int): Splits {
    if services == [] then data
    else
      var n := |services| - 1;
      var before := Recover(data, services[..n], now);
      var s := services[n];
      if s.name in before then before else before[s.name := Item(now, s.name, Recovered(s.trafficAnnotation))]
  }

  datatype Verdict = Verdict(name: string, action: Action, desired: int)

  /** The new split under one verdict, clamped to a percentage. */
  function NewSplit(split: int, v: Verdict, inertia: Option<real>): int
    requires v.action != PreserveTraffic
  {
    var raw := match v.action
      case SetTraffic => Smooth(split, v.desired, Or(inertia, DEFAULT_INERTIA))
      case IncreaseTraffic => Wrap64(split + 10)
      case DecreaseTraffic => Wrap64(split - 2)
      case PreserveTraffic => split;
    Clamp(raw)
  }

  /** Ten percent up, two down, or a smoothing step, cut to a percentage after 64-bit arithmetic; the step
      is that of the default inertia, three parts old and one part new, if there is no other. */
  lemma NewSplitMeans(split: int, v: Verdict)
    requires IsInt64(split)
    ensures v.action == IncreaseTraffic ==>
              NewSplit(split, v, None) ==
              if split < -10 || split > MAX_INT64 - 10 then 0 else if split > 90 then 100 else split + 10
    ensures v.action == DecreaseTraffic ==>
              NewSplit(split, v, None) ==
              if split > 102 || split < MIN_INT64 + 2 then 100 else if split < 2 then 0 else split - 2
    ensures v.action == SetTraffic && IsPercentage(split) && IsPercentage(v.desired) ==>
              NewSplit(split, v, None) == (3 * split + v.desired) / 4 && NewSplit(split, v, Some(0.0)) == v.desired
  {
    if v.action == SetTraffic && IsPercentage(split) && IsPercentage(v.desired) {
      DefaultStep(split, v.desired);
    }
  }

  /** Whatever the inertia, the action alone decides the other two; a step is a smoothing step. */
  lemma InertiaOnlySmooths(split: int, v: Verdict, inertia: real)
    ensures v.action == IncreaseTraffic || v.action == DecreaseTraffic ==>
              NewSplit(split, v, Some(inertia)) == NewSplit(split, v, None)
    ensures v.action == SetTraffic ==> NewSplit(split, v, Some(inertia)) == ClampedStep(split, v.desired, inertia)
    ensures v.action == SetTraffic ==> NewSplit(split, v, None) == ClampedStep(split, v.desired, 0.75)
  {
  }

  /** The second loop of run. */
  function Judge(data: Splits, verdicts: seq<Verdict>, inertia: Option<real>, now: int): Splits {
    if verdicts == [] then data
    else
      var n := |verdicts| - 1;
      var before := Judge(data, verdicts[..n], inertia, now);
      var v := verdicts[n];
      if v.action == PreserveTraffic then before
      else before[v.name := Item(now, v.name, NewSplit(ValueOf(before, v.name), v, inertia))]
  }

  function VerdictOf(r: ServiceResult): Verdict {
    Verdict(r.name, r.action, r.desired)
  }

  function Verdicts(results: seq<ServiceResult>): (verdicts: seq<Verdict>)
    ensures |verdicts| == |results| && forall i :: 0 <= i < |results| ==> verdicts[i] == VerdictOf(results[i])
  {
    seq(|results|, i requires 0 <= i < |results| => VerdictOf(results[i]))
  }

  class EdgeWorkOffload {
    const store: SplitStore

    constructor (store: SplitStore)
      ensures this.store == store
    {
      this.store := store;
    }

    /** Recovers what the last traffic was set to, for services the store does not know. */
    method RecoverTraffic(services: seq<KService>, now: int)
      modifies store
      ensures store.data == Recover(old(store.data), services, now)
    {
      for i := 0 to |services|
        invariant store.data == Recover(old(store.data), services[..i], now)
      {
        assert services[..i + 1][..i] == services[..i];
        var service := services[i];
        var _, known := store.Get(service.name);
        if known {
          continue;
        }
        var traffic := 0;
        var previous := ParseInt(service.trafficAnnotation);
        if previous.failed {
          traffic := previous.value;
        }
        store.Set(service.name, traffic, now);
      }
      assert services[..|services|] == services;
    }

    /** The switch over the action, and the clamp. The inertia is read through the pointer that the
        result holds. */
    static method NextTraffic(split: int, result: ServiceResult) returns (traffic: int)
      requires result.action != PreserveTraffic
      ensures traffic == NewSplit(split, VerdictOf(result), result.service.service.tuning.inertia)
    {
      traffic := split;
      match result.action {
        case SetTraffic =>
          var inertia := DEFAULT_INERTIA;
          if result.service.service.tuning.inertia.Some? {
            inertia := result.service.service.tuning.inertia.value;
          }
          traffic := Smooth(traffic, result.desired, inertia);
        case IncreaseTraffic =>
          traffic := Wrap64(traffic + 10);
        case DecreaseTraffic =>
          traffic := Wrap64(traffic - 2);
        case PreserveTraffic =>
      }
      if traffic > 100 {
        traffic := 100;
      } else if traffic < 0 {
        traffic := 0;
      }
    }

    /** Applies the results in turn. */
    method ApplyResults(results: seq<ServiceResult>, ghost last: KService, now: int)
      requires forall i :: 0 <= i < |results| ==> results[i].service.service == last
      modifies store
      ensures store.data == Judge(old(store.data), Verdicts(results), last.tuning.inertia, now)
    {
      ghost var verdicts := Verdicts(results);
      for i := 0 to |results|
        invariant store.data == Judge(old(store.data), verdicts[..i], last.tuning.inertia, now)
      {
        assert verdicts[..i + 1][..i] == verdicts[..i];
        var result := results[i];
        var traffic, _ := store.Get(result.name);
        if result.action == PreserveTraffic {
          continue;
        }
        traffic := NextTraffic(traffic, result);
        store.Set(result.name, traffic, now);
      }
      assert verdicts[..|verdicts|] == verdicts;
    }

    /** One run, after the strategy has filled the cluster usage. The inertia of every service is
        that of the last one listed. */
    method Run(cluster: ClusterUsage, services: seq<KService>, now: int) returns (ghost verdicts: seq<Verdict>)
      requires cluster.Valid()
      modifies store, cluster.services.Values`decay, cluster.services.Values`target
      modifies cluster.services.Values`softLimit, cluster.services.Values`hardLimit
      modifies cluster.services.Values`requestLatency
      ensures |verdicts| == |services|
      ensures forall i :: 0 <= i < |services| ==>
                && verdicts[i].name == services[i].name
                && verdicts[i].action == (if services[i].name in cluster.services then SetTraffic else PreserveTraffic)
                && (services[i].name in cluster.services ==>
                      verdicts[i].desired == old(DesiredTraffic(cluster.services[services[i].name].requestLatencies,
                                                                cluster.services[services[i].name].requestLatency,
                                                                services[i].tuning)))
      ensures store.data == if services == [] then old(store.data)
                            else Judge(Recover(old(store.data), services, now), verdicts,
                                       services[|services| - 1].tuning.inertia, now)
    {
      verdicts := [];
      if |services| == 0 {
        return;
      }
      RecoverTraffic(services, now);
      var results := GetResults(cluster, services);
      verdicts := Verdicts(results);
      ApplyResults(results, services[|services| - 1], now);
    }
  }

  // ---------------------------------------------------------------- the range of the splits

  ghost predicate AllPercentages(data: Splits) {
    forall k :: k in data ==> IsPercentage(data[k].value)
  }

  /** The listed service that decides what is recovered under its name: the first one the store
      does not know. */
  predicate Recovers(data: Splits, services: seq<KService>, i: nat)
    requires i < |services|
  {
    services[i].name !in data && forall j :: 0 <= j < i ==> services[j].name != services[i].name
  }

  /** The recovery touches only listed services the store did not know. */
  lemma {:induction false} RecoverFacts(data: Splits, services: seq<KService>, now: int, k: string)
    ensures var r := Recover(data, services, now);
            && (k in r <==> k in data || exists i :: 0 <= i < |services| && services[i].name == k)
            && (k in data ==> r[k] == data[k])
            && (k in r && k !in data ==>
                  exists i :: 0 <= i < |services| && services[i].name == k && Recovers(data, services, i) &&
                              r[k] == Item(now, k, Recovered(services[i].trafficAnnotation)))
  {
    if services != [] {
      var n := |services| - 1;
      var before := Recover(data, services[..n], now);
      RecoverFacts(data, services[..n], now, k);
      assert forall i :: 0 <= i < n ==> services[..n][i] == services[i];
      if k in before && k !in data {
        var i :| 0 <= i < n && services[..n][i].name == k && Recovers(data, services[..n], i) &&
                 before[k] == Item(now, k, Recovered(services[..n][i].trafficAnnotation));
        assert Recovers(data, services, i);
      } else if k !in before && services[n].name == k {
        assert Recovers(data, services, n);
      }
      assert services[n].name == k || k != services[n].name;
    }
  }

  lemma RecoverValue(data: Splits, services: seq<KService>, now: int, i: nat)
    requires i < |services| && Recovers(data, services, i)
    ensures var r := Recover(data, services, now);
            services[i].name in r && r[services[i].name].value == Recovered(services[i].trafficAnnotation)
  {
    RecoverFacts(data, services, now, services[i].name);
  }

  /** Some verdict sets the split of the service. */
  predicate IsSet(verdicts: seq<Verdict>, k: string) {
    exists i :: 0 <= i < |verdicts| && verdicts[i].name == k && verdicts[i].action != PreserveTraffic
  }

  /** The verdicts touch only the services they set; whatever they write is a percentage. */
  lemma {:induction false} JudgeFacts(data: Splits, verdicts: seq<Verdict>, inertia: Option<real>, now: int, k: string)
    ensures var r := Judge(data, verdicts, inertia, now);
            && (IsSet(verdicts, k) ==> k in r && IsPercentage(r[k].value) && r[k].timestamp == now && r[k].key == k)
            && (!IsSet(verdicts, k) ==> (k in r <==> k in data) && (k in r ==> r[k] == data[k]))
  {
    if verdicts != [] {
      var n := |verdicts| - 1;
      JudgeFacts(data, verdicts[..n], inertia, now, k);
      assert forall i :: 0 <= i < n ==> verdicts[..n][i] == verdicts[i];
      assert IsSet(verdicts, k) <==>
             IsSet(verdicts[..n], k) || (verdicts[n].name == k && verdicts[n].action != PreserveTraffic);
    }
  }

  lemma JudgedRange(recovered: Splits, verdicts: seq<Verdict>, inertia: Option<real>, now: int)
    ensures AllPercentages(Judge(recovered, verdicts, inertia, now)) <==>
            forall k :: k in recovered && !IsPercentage(recovered[k].value) ==> IsSet(verdicts, k)
  {
    var final := Judge(recovered, verdicts, inertia, now);
    forall k ensures IsSet(verdicts, k) ==> k in final && IsPercentage(final[k].value)
             ensures !IsSet(verdicts, k) ==>
                       (k in final <==> k in recovered) && (k in final ==> final[k] == recovered[k])
    {
      JudgeFacts(recovered, verdicts, inertia, now, k);
    }
  }

  /** Every service whose annotation is recovered and out of range gets a verdict that sets it. */
  ghost predicate IsSafeRun(data: Splits, services: seq<KService>, verdicts: seq<Verdict>) {
    forall i :: 0 <= i < |services| && Recovers(data, services, i) && OutOfRange(services[i].trafficAnnotation) ==>
                  IsSet(verdicts, services[i].name)
  }

  /** After a run every split is a percentage exactly if the run sets each service whose split was
      not a percentage before, and each one whose out-of-range annotation it recovers. */
  lemma RunRange(data: Splits, services: seq<KService>, verdicts: seq<Verdict>, inertia: Option<real>, now: int)
    ensures AllPercentages(Judge(Recover(data, services, now), verdicts, inertia, now)) <==>
            && (forall k :: k in data && !IsPercentage(data[k].value) ==> IsSet(verdicts, k))
            && IsSafeRun(data, services, verdicts)
  {
    var r := Recover(data, services, now);
    JudgedRange(r, verdicts, inertia, now);
    forall k ensures k in data ==> k in r && r[k] == data[k] {
      RecoverFacts(data, services, now, k);
    }
    forall i | 0 <= i < |services| && Recovers(data, services, i)
      ensures services[i].name in r &&
              (IsPercentage(r[services[i].name].value) <==> !OutOfRange(services[i].trafficAnnotation))
    {
      RecoverValue(data, services, now, i);
      RecoveredRange(services[i].trafficAnnotation);
    }
    forall k | k in r && k !in data && !IsPercentage(r[k].value)
      ensures exists i :: 0 <= i < |services| && services[i].name == k && Recovers(data, services, i) &&
                          OutOfRange(services[i].trafficAnnotation)
    {
      RecoverFacts(data, services, now, k);
    }
  }

  /** A run leaves every service that it does not list as it was. */
  lemma RunFrame(data: Splits, services: seq<KService>, verdicts: seq<Verdict>,
    inertia: Option<real>, now: int, k: string)
    requires |verdicts| == |services| && forall i :: 0 <= i < |services| ==> verdicts[i].name == services[i].name
    requires forall i :: 0 <= i < |services| ==> services[i].name != k
    ensures var final := Judge(Recover(data, services, now), verdicts, inertia, now);
            (k in final <==> k in data) && (k in data ==> final[k] == data[k])
  {
    RecoverFacts(data, services, now, k);
    JudgeFacts(Recover(data, services, now), verdicts, inertia, now, k);
  }

  /** A run or a clean-up. */
  datatype LoopEvent =
    | RunEvent(services: seq<KService>, verdicts: seq<Verdict>, inertia: Option<real>, now: int)
    | CleanEvent(now: int)

  function Loop(data: Splits, events: seq<LoopEvent>): Splits {
    if events == [] then data
    else
      var before := Loop(data, events[..|events| - 1]);
      match events[|events| - 1]
      case RunEvent(services, verdicts, inertia, now) => Judge(Recover(before, services, now), verdicts, inertia, now)
      case CleanEvent(now) => Young(before, now)
  }

  /** No run ever lists a service whose annotation is out of the 64-bit range. */
  ghost predicate AnnotationsInRange(events: seq<LoopEvent>) {
    forall e, s :: e in events && e.RunEvent? && s in e.services ==> !OutOfRange(s.trafficAnnotation)
  }

  ghost predicate IsSafeEvent(data: Splits, e: LoopEvent) {
    e.RunEvent? ==> IsSafeRun(data, e.services, e.verdicts)
  }

  ghost predicate InRangeAfter(events: seq<LoopEvent>, n: nat)
    requires n <= |events|
  {
    AllPercentages(Loop(map[], events[..n]))
  }

  ghost predicate IsSafeAt(events: seq<LoopEvent>, n: nat)
    requires n < |events|
  {
    IsSafeEvent(Loop(map[], events[..n]), events[n])
  }

  lemma LoopStep(events: seq<LoopEvent>, n: nat)
    requires n < |events| && InRangeAfter(events, n)
    ensures InRangeAfter(events, n + 1) <==> IsSafeAt(events, n)
  {
    var e := events[n];
    assert events[..n + 1][..n] == events[..n];
    if e.RunEvent? {
      RunRange(Loop(map[], events[..n]), e.services, e.verdicts, e.inertia, e.now);
    }
  }

  /** Over any history of runs and clean-ups, with any actions, desired values and inertias: the
      stored splits are percentages all along exactly if each run sets every service that it lists,
      that the store does not know at that moment, and whose annotation is out of range. */
  lemma {:induction false} SplitsArePercentagesIf(events: seq<LoopEvent>, n: nat)
    requires n <= |events|
    ensures (forall m :: 0 <= m <= n ==> InRangeAfter(events, m)) <==> (forall m :: 0 <= m < n ==> IsSafeAt(events, m))
  {
    if n == 0 {
      assert events[..0] == [];
    } else {
      SplitsArePercentagesIf(events, n - 1);
      if InRangeAfter(events, n - 1) {
        LoopStep(events, n - 1);
      }
    }
  }

  /** In particular they always are if no annotation is out of range. */
  lemma SplitsStayPercentages(events: seq<LoopEvent>)
    requires AnnotationsInRange(events)
    ensures AllPercentages(Loop(map[], events))
  {
    SplitsArePercentagesIf(events, |events|);
    forall n | 0 <= n < |events| ensures IsSafeAt(events, n) {
      assert events[n] in events;
    }
    assert InRangeAfter(events, |events|) && events[..|events|] == events;
  }

  /** A single service without samples breaks it exactly if its annotation is out of range; one that
      does is the number after the largest 64-bit integer. */
  lemma OutOfRangeAnnotationIsStored(annotation: string, tuning: Tuning, now: int)
    ensures var s := KService("ns/name", annotation, tuning);
            var data := Judge(Recover(map[], [s], now), [Verdict(s.name, PreserveTraffic, -1)], None, now);
            AllPercentages(data) <==> !OutOfRange(annotation)
    ensures OutOfRange(Sprint(MAX_INT64 + 1)) && !OutOfRange(Sprint(MAX_INT64))
  {
    var s := KService("ns/name", annotation, tuning);
    var v := [Verdict(s.name, PreserveTraffic, -1)];
    RunRange(map[], [s], v, None, now);
    assert Recovers(map[], [s], 0) && [s][0] == s;
    assert !IsSet(v, s.name);
    PrintedOutOfRange(MAX_INT64 + 1);
    PrintedOutOfRange(MAX_INT64);
  }

  // ---------------------------------------------------------------- whose inertia

  /** The second loop of run if each result held a pointer to its own service. */
  function JudgeOwn(data: Splits, services: seq<KService>, verdicts: seq<Verdict>, now: int): Splits
    requires |services| == |verdicts|
  {
    if verdicts == [] then data
    else
      var n := |verdicts| - 1;
      var before := JudgeOwn(data, services[..n], verdicts[..n], now);
      var v := verdicts[n];
      if v.action == PreserveTraffic then before
      else before[v.name := Item(now, v.name, NewSplit(ValueOf(before, v.name), v, services[n].tuning.inertia))]
  }

  /** The shared pointer does no harm if each service that is smoothed has the inertia, given or
      default, of the last one listed. */
  lemma {:induction false} SharedInertiaIsHarmless(
    data: Splits, services: seq<KService>, verdicts: seq<Verdict>, inertia: Option<real>, now: int)
    requires |services| == |verdicts|
    requires forall i :: 0 <= i < |verdicts| && verdicts[i].action == SetTraffic ==>
               Or(services[i].tuning.inertia, DEFAULT_INERTIA) == Or(inertia, DEFAULT_INERTIA)
    ensures Judge(data, verdicts, inertia, now) == JudgeOwn(data, services, verdicts, now)
  {
    if verdicts != [] {
      SharedInertiaIsHarmless(data, services[..|verdicts| - 1], verdicts[..|verdicts| - 1], inertia, now);
    }
  }

  /** Otherwise it can: a service that asks for no inertia at all, listed before one that says
      nothing about it, gets a quarter of the traffic it should offload instead of all of it. */
  lemma SharedInertiaHarms(now: int)
    ensures var a := KService("ns/a", "", Tuning(None, None, None, None, Some(0.0)));
            var b := KService("ns/b", "", Tuning(None, None, None, None, None));
            var data: Splits := map[a.name := Item(now, a.name, 0), b.name := Item(now, b.name, 0)];
            var verdicts := [Verdict(a.name, SetTraffic, 100), Verdict(b.name, SetTraffic, 0)];
            var shared := Judge(data, verdicts, b.tuning.inertia, now);
            var own := JudgeOwn(data, [a, b], verdicts, now);
            && a.name in shared && shared[a.name].value == 25
            && a.name in own && own[a.name].value == 100
  {
    var a := KService("ns/a", "", Tuning(None, None, None, None, Some(0.0)));
    var b := KService("ns/b", "", Tuning(None, None, None, None, None));
    var data: Splits := map[a.name := Item(now, a.name, 0), b.name := Item(now, b.name, 0)];
    var v, w := Verdict(a.name, SetTraffic, 100), Verdict(b.name, SetTraffic, 0);
    assert a.name[3] != b.name[3];
    assert [v, w][..1] == [v] && [a, b][..1] == [a] && [v][..0] == [] && [a][..0] == [];
    assert NewSplit(0, v, b.tuning.inertia) == 25 && NewSplit(0, v, a.tuning.inertia) == 100;
    assert Judge(data, [v], b.tuning.inertia, now)[a.name].value == 25;
    assert JudgeOwn(data, [a], [v], now)[a.name].value == 100;
  }

  // ---------------------------------------------------------------- where the splits go

  /** A run that asks for the traffic d for one service, under the inertia given. */
  predicate AsksFor(e: LoopEvent, name: string, d: int, inertia: real) {
    && e.RunEvent?
    && Or(e.inertia, DEFAULT_INERTIA) == inertia
    && exists j :: 0 <= j < |e.verdicts| && IsOnlyVerdict(e.verdicts, j, name, d)
  }

  predicate IsOnlyVerdict(verdicts: seq<Verdict>, j: nat, name: string, d: int)
    requires j < |verdicts|
  {
    verdicts[j] == Verdict(name, SetTraffic, d) &&
    forall i :: 0 <= i < |verdicts| && i != j ==> verdicts[i].name != name
  }

  /** The only verdict on a service decides its new split, wherever it stands in the list. */
  lemma {:induction false} OnlyVerdictDecides(
    data: Splits, verdicts: seq<Verdict>, inertia: Option<real>, now: int, j: nat, name: string, d: int)
    requires j < |verdicts| && IsOnlyVerdict(verdicts, j, name, d)
    ensures var r := Judge(data, verdicts, inertia, now);
            name in r && r[name].value == NewSplit(ValueOf(data, name), verdicts[j], inertia)
  {
    var n := |verdicts| - 1;
    if j == n {
      JudgeFacts(data, verdicts[..n], inertia, now, name);
      assert !IsSet(verdicts[..n], name);
    } else {
      assert IsOnlyVerdict(verdicts[..n], j, name, d);
      OnlyVerdictDecides(data, verdicts[..n], inertia, now, j, name, d);
    }
  }

  /** One run takes the split of a service, the stored one, or 0 if it is new and its annotation not out of
      range, to the new one. */
  lemma OneRun(data: Splits, services: seq<KService>, verdicts: seq<Verdict>,
    inertia: Option<real>, now: int, i: nat, j: nat, d: int)
    requires i < |services| && j < |verdicts| && IsOnlyVerdict(verdicts, j, services[i].name, d)
    requires forall k :: 0 <= k < |services| && services[k].name == services[i].name ==>
               !OutOfRange(services[k].trafficAnnotation)
    ensures var name, r := services[i].name, Judge(Recover(data, services, now), verdicts, inertia, now);
            && name in r
            && r[name] == Item(now, name, NewSplit(if name in data then data[name].value else 0, verdicts[j], inertia))
  {
    var name, recovered := services[i].name, Recover(data, services, now);
    RecoverFacts(data, services, now, name);
    forall k | 0 <= k < |services| && services[k].name == name ensures Recovered(services[k].trafficAnnotation) == 0 {
      RecoveredRange(services[k].trafficAnnotation);
    }
    OnlyVerdictDecides(recovered, verdicts, inertia, now, j, name, d);
    JudgeFacts(recovered, verdicts, inertia, now, name);
    assert IsSet(verdicts, name);
  }

  /** n runs are n clamped steps of the smoothing, under any inertia. */
  lemma {:induction false} RunsAreSteps(data: Splits, runs: seq<LoopEvent>, name: string, d: int, inertia: real)
    requires name in data
    requires forall e :: e in runs ==> AsksFor(e, name, d, inertia)
    ensures var r := Loop(data, runs);
            name in r && r[name].value == ClampedIterate(data[name].value, d, inertia, |runs|)
  {
    if runs != [] {
      var n := |runs| - 1;
      var e := runs[n];
      RunsAreSteps(data, runs[..n], name, d, inertia);
      var before := Loop(data, runs[..n]);
      assert AsksFor(e, name, d, inertia);
      var j :| 0 <= j < |e.verdicts| && IsOnlyVerdict(e.verdicts, j, name, d);
      RecoverFacts(before, e.services, e.now, name);
      OnlyVerdictDecides(Recover(before, e.services, e.now), e.verdicts, e.inertia, e.now, j, name, d);
      OneMoreClampedStep(data[name].value, d, inertia, n);
    }
  }

  /** The loop as a whole: when a hundred runs in a row ask for the same traffic under the default
      inertia, the split of the service ends on it if it started above, and otherwise 3 percent
      below it (or where it was, if it started closer). No service can be brought from 0 to more
      than 97 percent. */
  lemma HundredRunsComeToRest(data: Splits, runs: seq<LoopEvent>, name: string, d: int)
    requires name in data && IsPercentage(data[name].value) && IsPercentage(d) && |runs| >= 100
    requires forall e :: e in runs ==> AsksFor(e, name, d, DEFAULT_INERTIA)
    ensures var t, r := data[name].value, Loop(data, runs);
            name in r && r[name].value == if t >= d then d else if t + 3 <= d then d - 3 else t
  {
    RunsAreSteps(data, runs, name, d, DEFAULT_INERTIA);
    ClampCutsNothing(data[name].value, d, DEFAULT_INERTIA, |runs|);
    DefaultComesToRest(data[name].value, d, |runs|);
  }
}
