/** The offload state machine in a world that changes: between reconciles the proxy becomes ready,
    the traffic loop asks for another split, the remote Service is edited, somebody edits or
    removes the local objects. How often the controller then writes. */
module OffloadDisturbed {
  import opened Text
  import opened Offload
  import opened OffloadSettles

  /** All that a reconcile of one Service depends on. */
  datatype World = World(remote: Service, split: Option<int>, store: Store)

  datatype Event =
    | Reconciled
    | Ready(revision: string)                                             // status of the Configuration
    | SplitChanged(split: Option<int>)                                    // the split store
    | RemoteEdited(remote: Service)
    | LocalEdited(service: Option<Service>, configuration: Option<Configuration>)

  /** What stays true throughout: the Service stays mirrored and offloaded. */
  predicate Ordinary(p: Settings, w: World) {
    Offloads(p, w.remote, w.split) && Stored(w.store)
  }

  predicate Allowed(p: Settings, w: World, e: Event) {
    match e
    case Reconciled => true
    case Ready(_) => w.store.configuration.Some?
    case SplitChanged(split) => Offloads(p, w.remote, split)
    case RemoteEdited(remote) => Offloads(p, remote, w.split)
    case LocalEdited(service, _) => service.Some? ==> service.value.traffic != Some([])
  }

  function After(p: Settings, w: World, e: Event): World
    requires Allowed(p, w, e)
  {
    var st := w.store;
    match e
    case Reconciled => w.(store := Recon(p, w.remote, w.split, st))
    case Ready(revision) =>
      w.(store := st.(configuration := Some(st.configuration.value.(ready := revision, rv := st.clock)),
                         clock := st.clock + 1))
    case SplitChanged(split) => w.(split := split)
    case RemoteEdited(remote) => w.(remote := remote)
    case LocalEdited(service, configuration) =>
      w.(store := Store(if service.None? then None else Some(service.value.(rv := st.clock)),
                        if configuration.None? then None else Some(configuration.value.(rv := st.clock)),
                        st.clock + 1))
  }

  predicate IsHistory(p: Settings, w: World, events: seq<Event>)
    decreases |events|
  {
    events == [] || (Allowed(p, w, events[0]) && IsHistory(p, After(p, w, events[0]), events[1..]))
  }

  /** The reconciles of a history that write something. */
  function Writes(p: Settings, w: World, events: seq<Event>): nat
    requires IsHistory(p, w, events)
    decreases |events|
  {
    if events == [] then 0
    else
      var next := After(p, w, events[0]);
      (if events[0].Reconciled? && next.store != w.store then 1 else 0) + Writes(p, next, events[1..])
  }

  function Disturbances(events: seq<Event>): nat {
    if events == [] then 0 else (if events[0].Reconciled? then 0 else 1) + Disturbances(events[1..])
  }

  /** Reconciling keeps what an API server guarantees, in every situation. */
  lemma ReconciledStaysOrdinary(p: Settings, w: World)
    requires Ordinary(p, w)
    ensures Ordinary(p, After(p, w, Reconciled))
  {
    var st := w.store;
    if ServiceView(st.service).None? {
      CreatingReconcile(p, w.remote, w.split, st);
    } else if st.configuration.Some? && ConfigurationView(st.configuration).None? {
      HiddenConfigurationStops(p, w.remote, w.split, st);
    } else {
      ReconKeepsStored(p, w.remote, w.split, st);
    }
  }

  /** n reconciles without a disturbance lead to a state in which reconciling writes nothing. */
  predicate IsSettledAfter(p: Settings, w: World, n: nat) {
    var st := Repeat(p, w.remote, w.split, w.store, n);
    Recon(p, w.remote, w.split, st) == st
  }

  /** A reconcile that writes is one of those that are left. */
  lemma OneLeftLess(p: Settings, w: World, n: nat)
    requires IsSettledAfter(p, w, n)
    ensures var next := After(p, w, Reconciled);
            if next.store == w.store then next == w else n > 0 && IsSettledAfter(p, next, n - 1)
  {
  }

  lemma DisturbedStaysOrdinary(p: Settings, w: World, e: Event)
    requires Ordinary(p, w) && !e.Reconciled? && Allowed(p, w, e)
    ensures Ordinary(p, After(p, w, e))
  {
  }

  lemma SettledAfterFour(p: Settings, w: World)
    requires Ordinary(p, w)
    ensures IsSettledAfter(p, w, 4)
  {
    FourReconcilesSettle(p, w.remote, w.split, w.store);
  }

  lemma FirstWrite(p: Settings, w: World, events: seq<Event>)
    requires IsHistory(p, w, events) && events != []
    ensures var next := After(p, w, events[0]);
            && IsHistory(p, next, events[1..])
            && Writes(p, w, events) ==
               (if events[0].Reconciled? && next.store != w.store then 1 else 0) + Writes(p, next, events[1..])
  {
  }

  lemma {:induction false} WritesLeft(p: Settings, w: World, events: seq<Event>, n: nat)
    requires Ordinary(p, w) && IsHistory(p, w, events)
    requires n <= 4
    ensures IsSettledAfter(p, w, n) ==> Writes(p, w, events) <= n + 4 * Disturbances(events)
    decreases |events|
  {
    if events != [] && IsSettledAfter(p, w, n) {
      var next := After(p, w, events[0]);
      FirstWrite(p, w, events);
      if events[0].Reconciled? {
        OneLeftLess(p, w, n);
        ReconciledStaysOrdinary(p, w);
        WritesLeft(p, next, events[1..], if next.store == w.store then n else n - 1);
      } else {
        DisturbedStaysOrdinary(p, w, events[0]);
        SettledAfterFour(p, next);
        WritesLeft(p, next, events[1..], 4);
      }
    }
  }

  /** Convergence: in every history of reconciles and disturbances, of any kinds and in any order,
      at most four reconciles to begin with and four per disturbance write anything; all others
      write nothing, although its own writes bump versions and generations. */
  lemma FourWritesPerDisturbance(p: Settings, w: World, events: seq<Event>)
    requires Ordinary(p, w) && IsHistory(p, w, events)
    ensures Writes(p, w, events) <= 4 * (1 + Disturbances(events))
  {
    SettledAfterFour(p, w);
    WritesLeft(p, w, events, 4);
  }
}
