/** The mirroring reconciler in its simplest instance, the ConfigMap controller
    (pkg/controllers/edge/mirroring_reconciler.go, pkg/controllers/edge/configmap_controller.go).
    An object's namespaced name is the key it is stored under. */
module ConfigMirror {
  import opened Text
  import opened Kube

  /** A version of a ConfigMap as an API server stores it; rv is 0 until it is stored. */
  datatype ConfigMap = ConfigMap(labels: Meta, annotations: Meta, data: Meta, binaryData: Meta, rv: nat)

  const BLANK := ConfigMap(map[], map[], map[], map[], 0)

  // ---------------------------------------------------------------- what one reconcile decides

  datatype Action = Nothing | Create(obj: ConfigMap) | Update(obj: ConfigMap) | Delete

  /** kindMerger: the binary data is not copied. */
  function Merge(src: ConfigMap, dst: ConfigMap): ConfigMap {
    dst.(annotations := src.annotations, labels := src.labels, data := src.data)
  }

  /** The local copy after the merge, the remote version annotation and the managed labels. */
  function Mirrored(src: ConfigMap, dst: ConfigMap): ConfigMap {
    var merged := Merge(src, dst);
    merged.(annotations := merged.annotations[LAST_REMOTE_GENERATION := VersionString(src.rv)],
            labels := WithManagedLabels(merged.labels))
  }

  /** UpdateLastGenerationAnnotation: records the version the write replaces. */
  function Stamped(o: ConfigMap): ConfigMap {
    o.(annotations := o.annotations[LAST_GENERATION := VersionString(o.rv)])
  }

  /** The create/update/delete decision of MirroringReconciler.Reconcile, from what the two
      filtered clients return. */
  function Decide(envs: Option<seq<string>>, remote: Option<ConfigMap>, local: Option<ConfigMap>): Action {
    if local.None? then
      if remote.None? then Nothing else Create(Stamped(Mirrored(remote.value, BLANK)))
    else if remote.None? || (IsManaged(local.value.labels) && !HasEdgeSyncLabel(remote.value.labels, envs)) then
      Delete
    else
      var copy := Mirrored(remote.value, local.value);
      var moved := LAST_REMOTE_GENERATION in local.value.annotations &&
                   local.value.annotations[LAST_REMOTE_GENERATION] != VersionString(remote.value.rv);
      if moved || local.value != copy then Update(Stamped(copy)) else Nothing
  }

  // ---------------------------------------------------------------- what a mirror is

  /** The local object is a mirror of the remote one: equal data, the remote labels plus the four
      managed ones, the remote annotations plus the two version annotations. */
  ghost predicate Mirrors(remote: ConfigMap, local: ConfigMap) {
    && local.data == remote.data
    && local.labels == WithManagedLabels(remote.labels)
    && local.annotations - {LAST_GENERATION} ==
       remote.annotations[LAST_REMOTE_GENERATION := VersionString(remote.rv)] - {LAST_GENERATION}
  }

  ghost predicate Agree(remote: Option<ConfigMap>, local: Option<ConfigMap>) {
    (remote.None? <==> local.None?) && (remote.Some? ==> Mirrors(remote.value, local.value))
  }

  /** Whatever Reconcile writes is a mirror, is managed, and names the version it replaces. */
  lemma WritesMirror(src: ConfigMap, dst: ConfigMap)
    ensures var o := Stamped(Mirrored(src, dst));
            && Mirrors(src, o) && IsManaged(o.labels) && o.rv == dst.rv && o.binaryData == dst.binaryData
            && o.annotations != map[]
            && Lookup(o.annotations, LAST_GENERATION) == VersionString(dst.rv)
            && LAST_REMOTE_GENERATION in o.annotations
            && o.annotations[LAST_REMOTE_GENERATION] == VersionString(src.rv)
  {
    KeysDiffer();
    var o := Stamped(Mirrored(src, dst));
    assert LAST_GENERATION in o.annotations;
  }

  /** When a reconcile writes, and what: nothing exactly if there is nothing on either side, or the local
      object already has every label, annotation and datum that it should have. */
  lemma DecisionMeans(envs: Option<seq<string>>, remote: Option<ConfigMap>, local: Option<ConfigMap>)
    ensures var action := Decide(envs, remote, local);
            && (action.Create? <==> local.None? && remote.Some?)
            && (action.Delete? <==>
                  local.Some? &&
                  (remote.None? || (IsManaged(local.value.labels) && !HasEdgeSyncLabel(remote.value.labels, envs))))
            && (action.Nothing? && local.Some? ==> remote.Some?)
            && (local.Some? && remote.Some? && !action.Delete? ==>
                  (action.Nothing? <==>
                    && local.value.data == remote.value.data
                    && CarriesLabels(remote.value.labels, local.value.labels)
                    && local.value.annotations ==
                       remote.value.annotations[LAST_REMOTE_GENERATION := VersionString(remote.value.rv)]))
  {
    if local.Some? && remote.Some? {
      ManagedLabelsMean(remote.value.labels, local.value.labels);
    }
  }

  /** The object a reconcile creates or updates, key by key: the data, the labels but for the four
      managed ones, and the annotations but for the two versions are those of the remote object. */
  lemma WrittenContents(envs: Option<seq<string>>, remote: Option<ConfigMap>, local: Option<ConfigMap>, k: string)
    ensures var action := Decide(envs, remote, local);
            action.Create? || action.Update? ==>
              && remote.Some?
              && var r, o := remote.value, action.obj;
                 && o.data == r.data && CarriesLabels(r.labels, o.labels)
                 && (k != LAST_GENERATION && k != LAST_REMOTE_GENERATION ==>
                       (k in o.annotations <==> k in r.annotations) &&
                       (k in o.annotations ==> o.annotations[k] == r.annotations[k]))
                 && LAST_REMOTE_GENERATION in o.annotations
                 && o.annotations[LAST_REMOTE_GENERATION] == VersionString(r.rv)
                 && LAST_GENERATION in o.annotations
                 && o.annotations[LAST_GENERATION] == VersionString(if local.Some? then local.value.rv else 0)
                 && o.rv == (if local.Some? then local.value.rv else 0)
                 && o.binaryData == (if local.Some? then local.value.binaryData else map[])
  {
    KeysDiffer();
    if remote.Some? {
      ManagedLabelsMean(remote.value.labels, WithManagedLabels(remote.value.labels));
    }
  }

  /** Reconcile leaves things alone only when there is nothing to mirror or the local copy already
      is a mirror of this very remote version. */
  lemma NothingMeansAgreement(envs: Option<seq<string>>, remote: Option<ConfigMap>, local: Option<ConfigMap>)
    requires Decide(envs, remote, local).Nothing?
    ensures Agree(remote, local)
    ensures local.Some? ==> LAST_REMOTE_GENERATION in local.value.annotations &&
                            local.value.annotations[LAST_REMOTE_GENERATION] == VersionString(remote.value.rv)
  {
    KeysDiffer();
  }

  /** The ConfigMap mirror has no fixed point without writes: right after an update the next
      reconcile updates again, unless the remote object itself carries the version that the
      first update replaced. */
  lemma RewritesItsOwnUpdate(envs: seq<string>, remote: ConfigMap, local: ConfigMap, rv: nat)
    requires HasEdgeSyncLabel(remote.labels, Some(envs))
    ensures var written := Stamped(Mirrored(remote, local)).(rv := rv);
            Decide(Some(envs), Some(remote), Some(written)).Nothing? <==>
            LAST_GENERATION in remote.annotations && remote.annotations[LAST_GENERATION] == VersionString(local.rv)
  {
    KeysDiffer();
    var written := Stamped(Mirrored(remote, local)).(rv := rv);
    var copy := Mirrored(remote, written);
    assert written.annotations[LAST_GENERATION] == VersionString(local.rv);
    if LAST_GENERATION in remote.annotations && remote.annotations[LAST_GENERATION] == VersionString(local.rv) {
      assert copy.annotations == written.annotations;
    } else {
      assert LAST_GENERATION !in copy.annotations || copy.annotations[LAST_GENERATION] != VersionString(local.rv);
      assert copy.annotations != written.annotations;
    }
  }

  /** With an empty (but not nil) environment list every labelled object passes the filters, yet
      Reconcile deletes the copy it has just created: such an installation never settles. */
  lemma EmptyEnvironmentsFlap(remote: ConfigMap, rv: nat)
    requires EnvSelected(remote.labels, [])
    ensures var first := Decide(Some([]), Some(remote), None);
            first.Create? && Decide(Some([]), Some(remote), Some(first.obj.(rv := rv))).Delete?
  {
    WritesMirror(remote, BLANK);
  }

  // ---------------------------------------------------------------- the local API server

  datatype Outcome = Done | NotFound | Conflict | AlreadyExists

  /** What an API server does with a write to one name. A delete names no version. */
  function Apply(stored: Option<ConfigMap>, clock: nat, action: Action): (Option<ConfigMap>, nat, Outcome) {
    match action
    case Nothing => (stored, clock, Done)
    case Create(o) =>
      if stored.Some? then (stored, clock, AlreadyExists) else (Some(o.(rv := clock)), clock + 1, Done)
    case Update(o) =>
      if stored.None? then (stored, clock, NotFound)
      else if stored.value.rv != o.rv then (stored, clock, Conflict)
      else (Some(o.(rv := clock)), clock + 1, Done)
    case Delete =>
      if stored.None? then (stored, clock, NotFound) else (None, clock + 1, Done)
  }

  /** Whether controller-runtime puts the name back: on an error or a requeue result. A delete
      that finds nothing is a success. */
  predicate Retried(action: Action, outcome: Outcome) {
    outcome.Conflict? || outcome.AlreadyExists? || (outcome.NotFound? && !action.Delete?)
  }

  function Find(objects: map<string, ConfigMap>, name: string): Option<ConfigMap> {
    if name in objects then Some(objects[name]) else None
  }

  class Server {
    var objects: map<string, ConfigMap>
    var clock: nat

    constructor ()
      ensures objects == map[] && clock == 1
    {
      objects := map[];
      clock := 1;
    }

    twostate predicate Wrote(name: string, action: Action, outcome: Outcome)
      reads this
    {
      && (Find(objects, name), clock, outcome) == Apply(old(Find(objects, name)), old(clock), action)
      && objects - {name} == old(objects) - {name}
    }

    method Create(name: string, o: ConfigMapObject) returns (outcome: Outcome)
      modifies this
      ensures Wrote(name, Action.Create(o.Value()), outcome)
    {
      if name in objects {
        return AlreadyExists;
      }
      objects := objects[name := o.Value().(rv := clock)];
      clock := clock + 1;
      outcome := Done;
    }

    method Update(name: string, o: ConfigMapObject) returns (outcome: Outcome)
      modifies this
      ensures Wrote(name, Action.Update(o.Value()), outcome)
    {
      if name !in objects {
        return NotFound;
      }
      if objects[name].rv != o.rv {
        return Conflict;
      }
      objects := objects[name := o.Value().(rv := clock)];
      clock := clock + 1;
      outcome := Done;
    }

    method Delete(name: string) returns (outcome: Outcome)
      modifies this
      ensures Wrote(name, Action.Delete, outcome)
    {
      if name !in objects {
        return NotFound;
      }
      objects := objects - {name};
      clock := clock + 1;
      outcome := Done;
    }
  }

  // ---------------------------------------------------------------- the reconciler

  /** The Go object a client fills in and the reconciler edits in place. */
  class ConfigMapObject {
    var labels: MetaMap
    var annotations: MetaMap
    var data: MetaMap
    var binaryData: Meta
    var rv: nat

    function Value(): ConfigMap
      reads this, labels, annotations, data
    {
      ConfigMap(labels.entries, annotations.entries, data.entries, binaryData, rv)
    }

    /** The maps the object refers to. */
    ghost function Maps(): set<MetaMap>
      reads this
    {
      {labels, annotations, data}
    }

    ghost predicate Valid()
      reads this
    {
      labels != annotations && labels != data && annotations != data
    }

    /** A stored version, or the zero object, in maps of its own. */
    constructor (v: ConfigMap)
      ensures Valid() && fresh(Maps()) && Value() == v
    {
      binaryData, rv := v.binaryData, v.rv;
      labels := new MetaMap(v.labels);
      annotations := new MetaMap(v.annotations);
      data := new MetaMap(v.data);
    }

    method DeepCopy() returns (copy: ConfigMapObject)
      ensures fresh(copy) && copy.Valid() && fresh(copy.Maps()) && copy.Value() == Value()
    {
      copy := new ConfigMapObject(Value());
    }

    method UpdateLastGenerationAnnotation()
      requires Valid()
      modifies annotations
      ensures Value() == Stamped(old(Value()))
    {
      annotations.Set(LAST_GENERATION, VersionString(rv));
    }

    method UpdateLastRemoteGenerationAnnotation(remote: ConfigMapObject)
      requires Valid()
      modifies annotations
      ensures Value() == old(Value()).(annotations :=
                           old(annotations.entries)[LAST_REMOTE_GENERATION := VersionString(remote.rv)])
    {
      annotations.Set(LAST_REMOTE_GENERATION, VersionString(remote.rv));
    }

    method UpdateLabels()
      requires Valid()
      modifies labels
      ensures Value() == old(Value()).(labels := WithManagedLabels(old(labels.entries)))
    {
      labels.Set(APP_LABEL, "knative-edge");
      labels.Set(MANAGED_LABEL, "true");
      labels.Set(MANAGED_BY_LABEL, "knative-edge");
      labels.Set(CREATED_BY_LABEL, "knative-edge-controller");
    }
  }

  class Reconciler {
    const envs: Option<seq<string>>
    const local: Server

    constructor (envs: Option<seq<string>>, local: Server)
      ensures this.envs == envs && this.local == local
    {
      this.envs := envs;
      this.local := local;
    }

    /** The maps are assigned from one object to the other. They are those of a deep copy, so that the
        two objects share none. */
    method KindMerger(src: ConfigMapObject, dst: ConfigMapObject)
      modifies dst
      ensures dst.Value() == Merge(old(src.Value()), old(dst.Value()))
      ensures dst.Valid() && fresh(dst.Maps())
    {
      var copied := src.DeepCopy();
      dst.annotations, dst.labels, dst.data := copied.annotations, copied.labels, copied.data;
    }

    /** The merge, the remote version and the labels, into maps that no other object refers to. */
    method MirrorInto(remoteKind: ConfigMapObject, localKindCopy: ConfigMapObject)
      requires localKindCopy != remoteKind
      modifies localKindCopy
      ensures localKindCopy.Valid() && fresh(localKindCopy.Maps())
      ensures localKindCopy.Value() == Mirrored(old(remoteKind.Value()), old(localKindCopy.Value()))
      ensures CarriesLabels(old(remoteKind.labels.entries), localKindCopy.labels.entries)
    {
      ManagedLabelsMean(remoteKind.labels.entries, WithManagedLabels(remoteKind.labels.entries));
      KindMerger(remoteKind, localKindCopy);
      localKindCopy.UpdateLastRemoteGenerationAnnotation(remoteKind);
      localKindCopy.UpdateLabels();
    }

    /** Makes the copy a mirror, and tells whether that is a change. Neither of the other two objects
        changes, nor do their maps, although the version annotations and the labels are written
        into maps that came from the remote object; and no map is shared afterwards. */
    method PrepareCopy(remoteKind: ConfigMapObject, localKind: ConfigMapObject, localKindCopy: ConfigMapObject)
      returns (shouldUpdate: bool)
      requires localKindCopy != remoteKind && localKindCopy != localKind && localKindCopy.Value() == localKind.Value()
      modifies localKindCopy
      ensures remoteKind.Value() == old(remoteKind.Value()) && localKind.Value() == old(localKind.Value())
      ensures localKindCopy.Maps() !! remoteKind.Maps() && localKindCopy.Maps() !! localKind.Maps()
      ensures localKindCopy.Value() == Stamped(Mirrored(remoteKind.Value(), localKind.Value()))
      ensures CarriesLabels(remoteKind.labels.entries, localKindCopy.labels.entries)
      ensures shouldUpdate <==>
              || localKind.Value() != Mirrored(remoteKind.Value(), localKind.Value())
              || (LAST_REMOTE_GENERATION in localKind.annotations.entries &&
                  localKind.annotations.entries[LAST_REMOTE_GENERATION] != VersionString(remoteKind.rv))
    {
      shouldUpdate := false;
      var remoteGeneration := VersionString(remoteKind.rv);
      var lastRemoteGeneration := Lookup(localKind.annotations.entries, LAST_REMOTE_GENERATION);
      if remoteGeneration != lastRemoteGeneration {
        shouldUpdate := LAST_REMOTE_GENERATION in localKind.annotations.entries;
      }
      MirrorInto(remoteKind, localKindCopy);
      shouldUpdate := shouldUpdate || localKind.Value() != localKindCopy.Value();
      localKindCopy.UpdateLastGenerationAnnotation();
    }

    /** The write that the flags ask for, in this order, and whether the name has to be queued again. */
    method WriteBack(name: string, copy: ConfigMapObject, shouldCreate: bool, shouldDelete: bool, shouldUpdate: bool)
      returns (requeue: bool, outcome: Outcome)
      modifies local
      ensures var action := if shouldCreate then Action.Create(old(copy.Value())) else if shouldDelete then Delete
                            else if shouldUpdate then Action.Update(old(copy.Value())) else Nothing;
              local.Wrote(name, action, outcome) && requeue == Retried(action, outcome)
    {
      if shouldCreate {
        outcome := local.Create(name, copy);
        requeue := outcome != Done;
      } else if shouldDelete {
        outcome := local.Delete(name);
        requeue := outcome != Done && outcome != NotFound;
      } else if shouldUpdate {
        outcome := local.Update(name, copy);
        requeue := outcome != Done;
      } else {
        requeue, outcome := false, Done;
      }
    }

    /** One reconcile of a name. The two arguments after the name are what the label-filtered
        clients answer; they may be older than what the servers store. */
    method Reconcile(name: string, remoteGet: Option<ConfigMap>, localGet: Option<ConfigMap>)
      returns (requeue: bool, outcome: Outcome)
      modifies local
      ensures local.Wrote(name, Decide(envs, remoteGet, localGet), outcome)
      ensures requeue == Retried(Decide(envs, remoteGet, localGet), outcome)
    {
      var shouldCreate, shouldUpdate, shouldDelete := false, false, false;
      var localKind := new ConfigMapObject(BLANK);
      var remoteKind := new ConfigMapObject(BLANK);

      if remoteGet.None? {
        shouldDelete := true;
      } else {
        remoteKind := new ConfigMapObject(remoteGet.value);
      }

      if localGet.None? {
        if shouldDelete {
          return false, Done;
        }
        shouldCreate := true;
      } else {
        localKind := new ConfigMapObject(localGet.value);
        if !shouldDelete && IsManaged(localKind.labels.entries) && !HasEdgeSyncLabel(remoteKind.labels.entries, envs) {
          shouldDelete := true;
        }
      }

      var localKindCopy := localKind.DeepCopy();

      if !shouldDelete {
        shouldUpdate := PrepareCopy(remoteKind, localKind, localKindCopy);
      }

      requeue, outcome := WriteBack(name, localKindCopy, shouldCreate, shouldDelete, shouldUpdate);
    }
  }
}
