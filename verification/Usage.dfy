/** The usage aggregation: pods, the services they are listed under, and the latency series of a
    service, as objects shared between maps and lists (pkg/workoffload/prometheus/usage). */
module Usage {
  import opened Text
  import opened Latency

  const DECAY_DEFAULT: real := 0.75
  const TARGET_DEFAULT: real := 1.0
  const SOFT_LIMIT_DEFAULT: real := 1.75
  const HARD_LIMIT_DEFAULT: real := 4.0

  /** The numeric annotations of a service, None when missing or not a number. Those that are infinite or
      NaN, which the code would take over, are excluded. */
  datatype Tuning = Tuning(
    decay: Option<real>, target: Option<real>, softLimit: Option<real>, hardLimit: Option<real>, inertia: Option<real>)

  function Or(value: Option<real>, default: real): real {
    if value.Some? then value.value else default
  }

  // ---------------------------------------------------------------- sums over finite collections

  ghost function SumSet<K>(keys: set<K>, m: map<K, int>): int
    requires keys <= m.Keys
  {
    if keys == {} then 0 else
      var k :| k in keys; m[k] + SumSet(keys - {k}, m)
  }

  lemma {:induction false} SumWithout<K>(keys: set<K>, m: map<K, int>, k: K)
    requires k in keys && keys <= m.Keys
    ensures SumSet(keys, m) == m[k] + SumSet(keys - {k}, m)
  {
    var j :| j in keys && SumSet(keys, m) == m[j] + SumSet(keys - {j}, m);
    if j != k {
      SumWithout(keys - {j}, m, k);
      SumWithout(keys - {k}, m, j);
      assert keys - {j} - {k} == keys - {k} - {j};
    }
  }

  lemma {:induction false} SumOfUnion<K>(a: set<K>, b: set<K>, m: map<K, int>)
    requires a <= m.Keys && b <= m.Keys && a !! b
    ensures SumSet(a + b, m) == SumSet(a, m) + SumSet(b, m)
  {
    if b == {} {
      assert a + b == a;
    } else {
      var k :| k in b;
      SumWithout(a + b, m, k);
      SumWithout(b, m, k);
      assert a + b - {k} == a + (b - {k});
      SumOfUnion(a, b - {k}, m);
    }
  }

  lemma OneMoreSummed<K>(keys: set<K>, left: set<K>, k: K, m: map<K, int>)
    requires k in left && left <= keys == m.Keys
    ensures SumSet(keys - (left - {k}), m) == SumSet(keys - left, m) + m[k]
  {
    SumWithout(keys - (left - {k}), m, k);
    assert keys - (left - {k}) - {k} == keys - left;
  }

  /** The loop over one list. */
  function SumOver<K>(keys: seq<K>, m: map<K, int>): int
    requires Elements(keys) <= m.Keys
  {
    if keys == [] then 0 else SumOver(keys[..|keys| - 1], m) + m[keys[|keys| - 1]]
  }

  function Elements<K(==)>(keys: seq<K>): set<K> {
    set k | k in keys
  }

  lemma {:induction false} SumOfList<K>(keys: seq<K>, m: map<K, int>)
    requires Elements(keys) <= m.Keys
    requires forall i, j :: 0 <= i < j < |keys| ==> keys[i] != keys[j]
    ensures SumSet(Elements(keys), m) == SumOver(keys, m)
  {
    if keys != [] {
      var n := |keys| - 1;
      assert keys == keys[..n] + [keys[n]];
      assert Elements(keys) - {keys[n]} == Elements(keys[..n]);
      SumWithout(Elements(keys), m, keys[n]);
      SumOfList(keys[..n], m);
    }
  }

  /** No key is in two lists, or twice in one. */
  ghost predicate NoDoubles<K>(lists: map<string, seq<K>>) {
    forall s, t, i, j | s in lists && t in lists && 0 <= i < |lists[s]| && 0 <= j < |lists[t]| ::
      lists[s][i] == lists[t][j] ==> s == t && i == j
  }

  /** Every listed key is known and listed once. */
  ghost predicate ListsKnown<K>(lists: map<string, seq<K>>, known: set<K>) {
    NoDoubles(lists) && forall s, i :: s in lists && 0 <= i < |lists[s]| ==> lists[s][i] in known
  }

  ghost function Listed<K>(names: set<string>, lists: map<string, seq<K>>): set<K>
    requires names <= lists.Keys
  {
    set s, k | s in names && k in lists[s] :: k
  }

  lemma ListedAppend<K>(lists: map<string, seq<K>>, s: string, x: K)
    ensures var lists' := lists[s := (if s in lists then lists[s] else []) + [x]];
            Listed(lists'.Keys, lists') == Listed(lists.Keys, lists) + {x}
  {
    var list := if s in lists then lists[s] else [];
    var lists' := lists[s := list + [x]];
    forall k | k in Listed(lists.Keys, lists) ensures k in Listed(lists'.Keys, lists') {
      var t :| t in lists && k in lists[t];
      assert k in lists'[t];
    }
    assert x in lists'[s];
    forall k | k in Listed(lists'.Keys, lists') && k != x ensures k in Listed(lists.Keys, lists) {
      var t :| t in lists' && k in lists'[t];
      assert k in lists[t];
    }
  }

  lemma NoDoublesAppend<K>(lists: map<string, seq<K>>, known: set<K>, s: string, x: K)
    requires ListsKnown(lists, known) && s in lists && x in known && forall t :: t in lists ==> x !in lists[t]
    ensures ListsKnown(lists[s := lists[s] + [x]], known)
  {
  }

  /** Conservation: without doubles, the sums per list add up to the sum over all listed keys, each
      counted once. */
  lemma {:induction false} ListSumsAddUp<K>(
    names: set<string>, lists: map<string, seq<K>>, m: map<K, int>, sums: map<string, int>)
    requires NoDoubles(lists) && names <= lists.Keys && names <= sums.Keys
    requires forall s :: s in names ==> Elements(lists[s]) <= m.Keys && sums[s] == SumOver(lists[s], m)
    ensures Listed(names, lists) <= m.Keys
    ensures SumSet(names, sums) == SumSet(Listed(names, lists), m)
  {
    if names == {} {
      assert Listed(names, lists) == {};
    } else {
      var s :| s in names;
      SumWithout(names, sums, s);
      ListSumsAddUp(names - {s}, lists, m, sums);
      SumOfList(lists[s], m);
      var others := Listed(names - {s}, lists);
      forall k | k in others ensures k !in lists[s] {
        var t :| t in names - {s} && k in lists[t];
        var j :| 0 <= j < |lists[t]| && lists[t][j] == k;
      }
      assert Listed(names, lists) == others + Elements(lists[s]) by {
        forall k | k in Listed(names, lists) ensures k in others + Elements(lists[s]) {
          var t :| t in names && k in lists[t];
        }
      }
      SumOfUnion(others, Elements(lists[s]), m);
    }
  }

  // ---------------------------------------------------------------- the objects

  class PodUsage {
    var cpu: int
    var memory: int

    constructor ()
      ensures cpu == 0 && memory == 0
    {
      cpu, memory := 0, 0;
    }

    /** The metrics of the containers, pairs of cpu and memory, come on top. */
    method Update(containers: seq<(int, int)>)
      modifies this
      ensures cpu == old(cpu) + Total(containers, true) && memory == old(memory) + Total(containers, false)
    {
      for i := 0 to |containers|
        invariant cpu == old(cpu) + Total(containers[..i], true) &&
                  memory == old(memory) + Total(containers[..i], false)
      {
        assert containers[..i + 1][..i] == containers[..i];
        cpu := cpu + containers[i].0;
        memory := memory + containers[i].1;
      }
      assert containers[..|containers|] == containers;
    }
  }

  function Total(containers: seq<(int, int)>, cpu: bool): int {
    if containers == [] then 0
    else
      var last := containers[|containers| - 1];
      Total(containers[..|containers| - 1], cpu) + if cpu then last.0 else last.1
  }

  /** The sums over the containers, cpu apart from memory. */
  lemma {:induction false} TotalsAdd(a: seq<(int, int)>, b: seq<(int, int)>, cpu: int, memory: int)
    ensures Total([(cpu, memory)], true) == cpu && Total([(cpu, memory)], false) == memory
    ensures Total(a + b, true) == Total(a, true) + Total(b, true)
    ensures Total(a + b, false) == Total(a, false) + Total(b, false)
  {
    assert [(cpu, memory)][..0] == [];
    if b == [] {
      assert a + b == a;
    } else {
      var n := |b| - 1;
      TotalsAdd(a, b[..n], cpu, memory);
      assert (a + b)[..|a + b| - 1] == a + b[..n] && (a + b)[|a + b| - 1] == b[n];
    }
  }

  class KServiceUsage {
    var pods: seq<PodUsage>
    var cpu: int
    var memory: int
    var requestLatencies: Option<seq<real>>
    var decay: real
    var target: real
    var softLimit: real
    var hardLimit: real
    var requestLatency: real

    constructor ()
      ensures pods == [] && requestLatencies == None && requestLatency == 0.0 && cpu == memory == 0
    {
      pods, cpu, memory := [], 0, 0;
      requestLatencies, requestLatency := None, 0.0;
      decay, target, softLimit, hardLimit := 0.0, 0.0, 0.0, 0.0;
    }

    method UpdateWithKService(tuning: Tuning)
      modifies this`decay, this`target, this`softLimit, this`hardLimit
      ensures decay == match tuning.decay case Some(v) => v case None => 0.75
      ensures target == match tuning.target case Some(v) => v case None => 1.0
      ensures softLimit == match tuning.softLimit case Some(v) => v case None => 1.75
      ensures hardLimit == match tuning.hardLimit case Some(v) => v case None => 4.0
    {
      decay, target := DECAY_DEFAULT, TARGET_DEFAULT;
      softLimit, hardLimit := SOFT_LIMIT_DEFAULT, HARD_LIMIT_DEFAULT;
      if tuning.decay.Some? {
        decay := tuning.decay.value;
      }
      if tuning.target.Some? {
        target := tuning.target.value;
      }
      if tuning.softLimit.Some? {
        softLimit := tuning.softLimit.value;
      }
      if tuning.hardLimit.Some? {
        hardLimit := tuning.hardLimit.value;
      }
    }

    method UpdateWithPercentileRatio(data: seq<Option<real>>)
      modifies this`requestLatencies
      ensures requestLatencies == Some(Fill(data))
    {
      var lastValue: Option<real> := None;
      var latencies: seq<real> := [];
      for i := 0 to |data|
        invariant latencies == Fill(data[..i])
        invariant lastValue == if latencies == [] then None else Some(latencies[|latencies| - 1])
      {
        assert data[..i + 1][..i] == data[..i];
        if data[i].None? {
          if lastValue.Some? {
            latencies := latencies + [lastValue.value];
          }
        } else {
          latencies := latencies + [data[i].value];
          lastValue := data[i];
        }
      }
      assert data[..|data|] == data;
      requestLatencies := Some(latencies);
    }

    /** The usage is that of the listed pods; the maps name the cpu and the memory of each. */
    ghost predicate HasSums(cpus: map<PodUsage, int>, memories: map<PodUsage, int>)
      reads this
    {
      && Elements(pods) <= cpus.Keys && cpu == SumOver(pods, cpus)
      && Elements(pods) <= memories.Keys && memory == SumOver(pods, memories)
    }

    method SumPods(ghost cpus: map<PodUsage, int>, ghost memories: map<PodUsage, int>)
      requires forall p :: p in pods ==> p in cpus && cpus[p] == p.cpu && p in memories && memories[p] == p.memory
      modifies this`cpu, this`memory
      ensures HasSums(cpus, memories)
    {
      var cpuUsage, memoryUsage := 0, 0;
      for i := 0 to |pods|
        invariant Elements(pods[..i]) <= cpus.Keys && cpuUsage == SumOver(pods[..i], cpus)
        invariant Elements(pods[..i]) <= memories.Keys && memoryUsage == SumOver(pods[..i], memories)
      {
        assert pods[..i + 1][..i] == pods[..i];
        cpuUsage := cpuUsage + pods[i].cpu;
        memoryUsage := memoryUsage + pods[i].memory;
      }
      assert pods[..|pods|] == pods;
      cpu, memory := cpuUsage, memoryUsage;
    }

    /** The latency after the decay has been applied; without samples it is left alone. */
    method FinalizeKServiceMetrics()
      modifies this`requestLatency
      ensures requestLatency ==
              if requestLatencies.Some? then Average(requestLatencies.value, decay) else old(requestLatency)
    {
      if requestLatencies.None? {
        return;
      }
      var xs := requestLatencies.value;
      var latency, weights, weight := 0.0, 0.0, 1.0;
      var i := |xs|;
      while i > 0
        invariant 0 <= i <= |xs|
        invariant weight == Power(decay, |xs| - i)
        invariant weights == TotalWeight(decay, |xs| - i)
        invariant latency == WeightedSum(xs, decay, |xs| - i)
      {
        i := i - 1;
        latency := latency + weight * xs[i];
        weights := weights + weight;
        weight := weight * decay;
      }
      if weights > 0.0 {
        latency := latency / weights;
      }
      requestLatency := latency;
    }
  }

  // ---------------------------------------------------------------- the pods and the services

  class ClusterUsage {
    var pods: map<string, PodUsage>
    var services: map<string, KServiceUsage>

    constructor ()
      ensures Valid() && pods == map[] && services == map[]
    {
      pods, services := map[], map[];
    }

    ghost function PodLists(): map<string, seq<PodUsage>>
      reads this, services.Values
    {
      map s | s in services :: services[s].pods
    }

    /** Different keys have different objects; every listed pod is a known pod, and is listed once. */
    ghost predicate Valid()
      reads this, services.Values
    {
      && (forall j, k :: j in pods && k in pods && j != k ==> pods[j] != pods[k])
      && (forall j, k :: j in services && k in services && j != k ==> services[j] != services[k])
      && ListsKnown(PodLists(), pods.Values)
    }

    method AddKService(key: string) returns (usage: KServiceUsage)
      requires Valid()
      modifies this`services
      ensures Valid() && key in services && usage == services[key]
      ensures key in old(services) ==> services == old(services)
      ensures key !in old(services) ==> fresh(usage) && services == old(services)[key := usage]
      ensures PodLists() == old(PodLists())[key := ListOf(old(PodLists()), key)]
    {
      if key in services {
        assert PodLists() == PodLists()[key := ListOf(PodLists(), key)];
        return services[key];
      }
      usage := new KServiceUsage();
      services := services[key := usage];
      assert PodLists() == old(PodLists())[key := []];
    }

    /** The pods that count for some service. */
    ghost function ListedPods(): set<PodUsage>
      reads this, services.Values
    {
      var lists := PodLists();
      Listed(lists.Keys, lists)
    }

    ghost function CpuOfPods(): map<PodUsage, int>
      reads this, pods.Values
    {
      map p | p in pods.Values :: p.cpu
    }

    ghost function CpuOfServices(): map<string, int>
      reads this, services.Values
    {
      map s | s in services :: services[s].cpu
    }

    static function ListOf(lists: map<string, seq<PodUsage>>, service: string): seq<PodUsage> {
      if service in lists then lists[service] else []
    }

    /** Puts a pod that is not listed yet at the end of the list of a known service. */
    method AppendPod(service: string, s: KServiceUsage, usage: PodUsage)
      requires Valid() && service in services && services[service] == s && usage in pods.Values
      requires forall t :: t in PodLists() ==> usage !in PodLists()[t]
      modifies s`pods
      ensures Valid()
      ensures PodLists() == old(PodLists())[service := old(PodLists()[service]) + [usage]]
    {
      ghost var lists := PodLists();
      NoDoublesAppend(lists, pods.Values, service, usage);
      s.pods := s.pods + [usage];
      assert PodLists() == lists[service := lists[service] + [usage]];
    }

    /** The same for a service that may be new. */
    method AddToService(service: string, usage: PodUsage)
      requires Valid() && usage in pods.Values && forall t :: t in PodLists() ==> usage !in PodLists()[t]
      modifies this`services, services.Values`pods
      ensures Valid()
      ensures PodLists() == old(PodLists())[service := ListOf(old(PodLists()), service) + [usage]]
      ensures forall s :: s in services ==>
                if s in old(services) then services[s] == old(services[s]) else fresh(services[s])
    {
      ghost var before := PodLists();
      var s := AddKService(service);
      ghost var lists := PodLists();
      assert forall t :: t in lists ==> usage !in lists[t];
      AppendPod(service, s, usage);
      assert PodLists() == before[service := ListOf(before, service)][service := ListOf(before, service) + [usage]];
    }

    /** service is the service a pod is labelled with, None for an absent or empty label. A pod is
        listed when it is seen first, under the label it has then, and never again. */
    method AddPod(key: string, service: Option<string>) returns (usage: PodUsage)
      requires Valid()
      modifies this, services.Values`pods
      ensures Valid() && key in pods && usage == pods[key]
      ensures key in old(pods) ==> pods == old(pods)
      ensures key !in old(pods) ==> fresh(usage) && usage.cpu == usage.memory == 0 && pods == old(pods)[key := usage]
      ensures PodLists() == if key in old(pods) || service.None? then old(PodLists())
                            else old(PodLists())[service.value := ListOf(old(PodLists()), service.value) + [usage]]
      ensures ListedPods() == old(ListedPods()) + if key !in old(pods) && service.Some? then {usage} else {}
      ensures forall s :: s in services ==>
                if s in old(services) then services[s] == old(services[s]) else fresh(services[s])
    {
      if key in pods {
        return pods[key];
      }
      usage := new PodUsage();
      pods := pods[key := usage];
      forall p | p in old(pods.Values) ensures p in pods.Values {
        var k :| k in old(pods) && old(pods)[k] == p;
        assert pods[k] == p;
      }
      assert PodLists() == old(PodLists());
      if service.Some? {
        assert pods[key] == usage;
        AddToService(service.value, usage);
        ListedAppend(old(PodLists()), service.value, usage);
      }
    }

    /** The metrics of a pod, one pair of cpu and memory per container. A pod that is not known yet
        is added without a label, so it will not count for any service. */
    method UpdatePodMetrics(key: string, containers: seq<(int, int)>)
      requires Valid()
      modifies this, services.Values`pods, pods.Values
      ensures Valid() && key in pods
      ensures key in old(pods) ==> pods == old(pods)
      ensures key !in old(pods) ==> fresh(pods[key]) && pods == old(pods)[key := pods[key]]
      ensures services == old(services) && PodLists() == old(PodLists())
      ensures pods[key].cpu == (if key in old(pods) then old(pods[key].cpu) else 0) + Total(containers, true)
      ensures pods[key].memory == (if key in old(pods) then old(pods[key].memory) else 0) + Total(containers, false)
      ensures forall k :: k in old(pods) && k != key ==>
                pods[k].cpu == old(pods[k].cpu) && pods[k].memory == old(pods[k].memory)
    {
      var pod := AddPod(key, None);
      assert PodLists().Keys == services.Keys;
      pod.Update(containers);
      assert PodLists() == old(PodLists());
    }

    ghost function MemoryOfPods(): map<PodUsage, int>
      reads this, pods.Values
    {
      map p | p in pods.Values :: p.memory
    }

    ghost function MemoryOfServices(): map<string, int>
      reads this, services.Values
    {
      map s | s in services :: services[s].memory
    }

    lemma ServicesAddUp(m: map<PodUsage, int>, sums: map<string, int>)
      requires Valid() && m.Keys == pods.Values && sums.Keys == services.Keys
      requires forall s :: s in services ==>
                 Elements(services[s].pods) <= m.Keys && sums[s] == SumOver(services[s].pods, m)
      ensures ListedPods() <= m.Keys
      ensures SumSet(services.Keys, sums) == SumSet(ListedPods(), m)
    {
      assert PodLists().Keys == services.Keys;
      ListSumsAddUp(services.Keys, PodLists(), m, sums);
    }

    /** The loop over the services. */
    method SumServices(ghost cpus: map<PodUsage, int>, ghost memories: map<PodUsage, int>)
      requires Valid() && cpus == CpuOfPods() && memories == MemoryOfPods()
      modifies services.Values`cpu, services.Values`memory
      ensures forall s :: s in services ==> services[s].HasSums(cpus, memories)
    {
      forall s, p | s in services && p in services[s].pods ensures p in cpus && p in memories {
        assert p in PodLists()[s];
      }
      var keys := services.Keys;
      while keys != {}
        invariant keys <= services.Keys
        invariant forall s :: s in services && s !in keys ==> services[s].HasSums(cpus, memories)
        decreases keys
      {
        var key :| key in keys;
        services[key].SumPods(cpus, memories);
        keys := keys - {key};
      }
    }

    /** No double counting: after the services have been finalized, their cpu adds up to the cpu of
        the listed pods, each counted once, whatever was added and in whatever order; so does
        their memory. */
    method FinalizeKServiceMetrics()
      requires Valid()
      modifies services.Values`cpu, services.Values`memory
      ensures Valid() && PodLists() == old(PodLists()) && ListedPods() <= pods.Values
      ensures SumSet(services.Keys, CpuOfServices()) == SumSet(ListedPods(), CpuOfPods())
      ensures SumSet(services.Keys, MemoryOfServices()) == SumSet(ListedPods(), MemoryOfPods())
      ensures forall s :: s in services ==> services[s].HasSums(CpuOfPods(), MemoryOfPods())
    {
      ghost var lists, cpus, memories := PodLists(), CpuOfPods(), MemoryOfPods();
      SumServices(cpus, memories);
      assert PodLists() == lists && CpuOfPods() == cpus && MemoryOfPods() == memories;
      ServicesAddUp(cpus, CpuOfServices());
      ServicesAddUp(memories, MemoryOfServices());
    }

  }

  // ---------------------------------------------------------------- the nodes

  datatype Metric = Cpu | CpuCapacity | Memory | MemoryCapacity

  class NodeUsage {
    var cpu: int
    var cpuCapacity: int
    var memory: int
    var memoryCapacity: int

    constructor (cpuCapacity: int, memoryCapacity: int)
      ensures cpu == memory == 0 && this.cpuCapacity == cpuCapacity && this.memoryCapacity == memoryCapacity
    {
      cpu, memory := 0, 0;
      this.cpuCapacity, this.memoryCapacity := cpuCapacity, memoryCapacity;
    }

    function Read(metric: Metric): int
      reads this
    {
      match metric
      case Cpu => cpu
      case CpuCapacity => cpuCapacity
      case Memory => memory
      case MemoryCapacity => memoryCapacity
    }
  }

  /** Usage and capacity, of cpu and of memory. */
  datatype Totals = Totals(cpu: int, cpuCapacity: int, memory: int, memoryCapacity: int)

  /** The node part of the cluster usage, which shares nothing with the pod part. */
  class ClusterNodes {
    var nodes: map<string, NodeUsage>
    var totals: Totals

    constructor ()
      ensures Valid() && nodes == map[]
    {
      nodes, totals := map[], Totals(0, 0, 0, 0);
    }

    ghost predicate Valid()
      reads this
    {
      forall j, k :: j in nodes && k in nodes && j != k ==> nodes[j] != nodes[k]
    }

    /** The capacity of a node is the one it had when it was seen first. */
    method AddNode(name: string, cpuCapacity: int, memoryCapacity: int) returns (usage: NodeUsage)
      requires Valid()
      modifies this`nodes
      ensures Valid() && name in nodes && usage == nodes[name]
      ensures name in old(nodes) ==> nodes == old(nodes)
      ensures name !in old(nodes) ==>
                && fresh(usage) && nodes == old(nodes)[name := usage]
                && usage.cpu == usage.memory == 0
                && usage.cpuCapacity == cpuCapacity && usage.memoryCapacity == memoryCapacity
    {
      if name in nodes {
        return nodes[name];
      }
      usage := new NodeUsage(cpuCapacity, memoryCapacity);
      nodes := nodes[name := usage];
    }

    /** The last metrics of a node replace those before; a node not known yet has no capacity. */
    method UpdateNodeMetrics(name: string, cpu: int, memory: int)
      requires Valid()
      modifies this`nodes, nodes.Values`cpu, nodes.Values`memory
      ensures Valid() && nodes.Keys == old(nodes).Keys + {name}
      ensures nodes[name].cpu == cpu && nodes[name].memory == memory
      ensures name !in old(nodes) ==> nodes[name].cpuCapacity == nodes[name].memoryCapacity == 0
      ensures forall n :: n in old(nodes) ==> nodes[n] == old(nodes[n])
      ensures forall n :: n in old(nodes) && n != name ==>
                nodes[n].cpu == old(nodes[n].cpu) && nodes[n].memory == old(nodes[n].memory)
    {
      var node := AddNode(name, 0, 0);
      node.cpu := cpu;
      node.memory := memory;
    }

    ghost function OfNodes(metric: Metric): (m: map<string, int>)
      reads this`nodes, nodes.Values
      ensures m.Keys == nodes.Keys
      ensures metric == Cpu ==> forall n :: n in nodes ==> m[n] == nodes[n].cpu
      ensures metric == CpuCapacity ==> forall n :: n in nodes ==> m[n] == nodes[n].cpuCapacity
      ensures metric == Memory ==> forall n :: n in nodes ==> m[n] == nodes[n].memory
      ensures metric == MemoryCapacity ==> forall n :: n in nodes ==> m[n] == nodes[n].memoryCapacity
    {
      map n | n in nodes :: nodes[n].Read(metric)
    }

    /** The totals are the sums over all nodes, each counted once. */
    method FinalizeClusterMetrics()
      modifies this`totals
      ensures totals.cpu == SumSet(nodes.Keys, OfNodes(Cpu))
      ensures totals.cpuCapacity == SumSet(nodes.Keys, OfNodes(CpuCapacity))
      ensures totals.memory == SumSet(nodes.Keys, OfNodes(Memory))
      ensures totals.memoryCapacity == SumSet(nodes.Keys, OfNodes(MemoryCapacity))
    {
      ghost var cpus, memories := OfNodes(Cpu), OfNodes(Memory);
      ghost var cpuCapacities, memoryCapacities := OfNodes(CpuCapacity), OfNodes(MemoryCapacity);
      var cpu, memory, cpuCapacity, memoryCapacity := 0, 0, 0, 0;
      var keys := nodes.Keys;
      while keys != {}
        invariant keys <= nodes.Keys
        invariant cpu == SumSet(nodes.Keys - keys, cpus)
        invariant cpuCapacity == SumSet(nodes.Keys - keys, cpuCapacities)
        invariant memory == SumSet(nodes.Keys - keys, memories)
        invariant memoryCapacity == SumSet(nodes.Keys - keys, memoryCapacities)
        decreases keys
      {
        var key :| key in keys;
        var node := nodes[key];
        OneMoreSummed(nodes.Keys, keys, key, cpus);
        OneMoreSummed(nodes.Keys, keys, key, cpuCapacities);
        OneMoreSummed(nodes.Keys, keys, key, memories);
        OneMoreSummed(nodes.Keys, keys, key, memoryCapacities);
        cpu, memory := cpu + node.cpu, memory + node.memory;
        cpuCapacity, memoryCapacity := cpuCapacity + node.cpuCapacity, memoryCapacity + node.memoryCapacity;
        keys := keys - {key};
      }
      assert nodes.Keys - keys == nodes.Keys;
      totals := Totals(cpu, cpuCapacity, memory, memoryCapacity);
    }
  }
}
