/** Object metadata: the labels and annotations the controllers write, and the selectors and
    watch predicates that read them (pkg/controllers/constants.go, pkg/controllers/edge/predicate.go,
    pkg/controllers/edge/cache.go, pkg/controllers/utils/annotations.go). */
module Kube {
  import opened Text

  type Meta = map<string, string>

  const ENVIRONMENT_LABEL := "edge.jevv.dev/environment"
  const MANAGED_LABEL := "edge.jevv.dev/managed"
  const LOCAL_LABEL := "edge.jevv.dev/local"
  const MANAGED_BY_LABEL := "edge.jevv.dev/managed-by"
  const CREATED_BY_LABEL := "edge.jevv.dev/created-by"
  const OFFLOAD_LABEL := "edge.jevv.dev/edge-offload"
  const APP_LABEL := "app"

  const LAST_GENERATION := "edge.jevv.dev/last-observed-generation"
  const LAST_REMOTE_GENERATION := "edge.jevv.dev/last-observed-remote-generation"

  /** A Go map read: the zero value for a missing key. */
  function Lookup(m: Meta, key: string): string {
    if key in m then m[key] else ""
  }

  /** A Go map as the objects hold it: a reference, which two of them may share. A map that is nil or
      empty has no entries. */
  class MetaMap {
    var entries: Meta

    constructor (entries: Meta)
      ensures this.entries == entries
    {
      this.entries := entries;
    }

    method Set(key: string, value: string)
      modifies this
      ensures entries == old(entries)[key := value]
    {
      entries := entries[key := value];
    }
  }

  /** UpdateLabels: the four labels every mirrored object carries. */
  function WithManagedLabels(labels: Meta): Meta {
    labels[APP_LABEL := "knative-edge"]
          [MANAGED_LABEL := "true"]
          [MANAGED_BY_LABEL := "knative-edge"]
          [CREATED_BY_LABEL := "knative-edge-controller"]
  }

  const MANAGED_LABELS := {APP_LABEL, MANAGED_LABEL, MANAGED_BY_LABEL, CREATED_BY_LABEL}

  /** The labels of a mirror: four have a value of their own, all others are those of the remote object. */
  ghost predicate CarriesLabels(labels: Meta, mirrored: Meta) {
    && APP_LABEL in mirrored && mirrored[APP_LABEL] == "knative-edge"
    && MANAGED_LABEL in mirrored && mirrored[MANAGED_LABEL] == "true"
    && MANAGED_BY_LABEL in mirrored && mirrored[MANAGED_BY_LABEL] == "knative-edge"
    && CREATED_BY_LABEL in mirrored && mirrored[CREATED_BY_LABEL] == "knative-edge-controller"
    && forall k :: k !in MANAGED_LABELS ==>
         (k in mirrored <==> k in labels) && (k in mirrored ==> mirrored[k] == labels[k])
  }

  /** That is what UpdateLabels makes of them, and nothing else is. */
  lemma ManagedLabelsMean(labels: Meta, mirrored: Meta)
    ensures mirrored == WithManagedLabels(labels) <==> CarriesLabels(labels, mirrored)
  {
    assert |APP_LABEL| == 3 && |MANAGED_LABEL| == 21 && |MANAGED_BY_LABEL| == 24 && |CREATED_BY_LABEL| == 24;
    assert MANAGED_BY_LABEL[14] != CREATED_BY_LABEL[14];
    var managed := WithManagedLabels(labels);
    if CarriesLabels(labels, mirrored) {
      forall k ensures (k in mirrored <==> k in managed) && (k in mirrored ==> mirrored[k] == managed[k]) {
        assert k in MANAGED_LABELS || k !in MANAGED_LABELS;
      }
      assert mirrored == managed;
    }
  }

  predicate IsManaged(labels: Meta) {
    MANAGED_LABEL in labels && labels[MANAGED_LABEL] == "true"
  }

  /** The selector built both by the remote cache and by the watch predicate. */
  predicate EnvSelected(labels: Meta, envs: seq<string>) {
    ENVIRONMENT_LABEL in labels && (envs == [] || labels[ENVIRONMENT_LABEL] in envs)
  }

  /** The test Reconcile itself makes; a nil list is None. */
  predicate HasEdgeSyncLabel(labels: Meta, envs: Option<seq<string>>) {
    envs.Some? && ENVIRONMENT_LABEL in labels && labels[ENVIRONMENT_LABEL] in envs.value
  }

  /** Reconcile and the two filters in front of it agree on every label map exactly when the
      environment list is not empty; otherwise they disagree on every labelled object. */
  lemma EnvMembershipAgrees(envs: seq<string>)
    ensures (forall labels: Meta :: HasEdgeSyncLabel(labels, Some(envs)) <==> EnvSelected(labels, envs)) <==> envs != []
    ensures forall labels: Meta :: envs == [] && ENVIRONMENT_LABEL in labels ==>
              EnvSelected(labels, envs) && !HasEdgeSyncLabel(labels, Some(envs))
  {
    if envs == [] {
      var labels: Meta := map[ENVIRONMENT_LABEL := ""];
      assert EnvSelected(labels, envs) && !HasEdgeSyncLabel(labels, Some(envs));
    }
  }

  /** Each of the three tests reads one label: it fails without it, and what counts is its value. */
  lemma SelectorsReadOneLabel(labels: Meta, envs: seq<string>, value: string)
    ensures !IsManaged(labels - {MANAGED_LABEL}) && !EnvSelected(labels - {ENVIRONMENT_LABEL}, envs)
    ensures !HasEdgeSyncLabel(labels, None) && !HasEdgeSyncLabel(labels - {ENVIRONMENT_LABEL}, Some(envs))
    ensures IsManaged(labels[MANAGED_LABEL := value]) <==> value == "true"
    ensures EnvSelected(labels[ENVIRONMENT_LABEL := value], envs) <==>
            envs == [] || exists i :: 0 <= i < |envs| && envs[i] == value
    ensures HasEdgeSyncLabel(labels[ENVIRONMENT_LABEL := value], Some(envs)) <==>
            exists i :: 0 <= i < |envs| && envs[i] == value
  {
  }

  /** NotChangedByEdgeControllers.Create. The controller's own creates carry "" here, not the "0"
      the filter looks for. */
  predicate CreatePasses(annotations: Meta) {
    annotations != map[] && Lookup(annotations, LAST_GENERATION) != "0"
  }

  /** NotChangedByEdgeControllers.Update. */
  predicate UpdatePasses(oldVersion: nat, annotations: Meta) {
    annotations != map[] && VersionString(oldVersion) != Lookup(annotations, LAST_GENERATION)
  }

  /** With the annotation that marks own writes a create passes unless it says "0", an update unless it
      says the version before; without it, whatever has other annotations passes, but for an update
      of an object that was never stored. */
  lemma EventFilters(annotations: Meta, value: string, oldVersion: nat)
    ensures CreatePasses(annotations[LAST_GENERATION := value]) <==> value != "0"
    ensures UpdatePasses(oldVersion, annotations[LAST_GENERATION := value]) <==> value != VersionString(oldVersion)
    ensures var others := annotations - {LAST_GENERATION};
            && (CreatePasses(others) <==> others != map[])
            && (UpdatePasses(oldVersion, others) <==> others != map[] && oldVersion != 0)
  {
    assert LAST_GENERATION in annotations[LAST_GENERATION := value];
    VersionRoundTrip(oldVersion);
  }

  lemma KeysDiffer()
    ensures LAST_GENERATION != LAST_REMOTE_GENERATION
    ensures forall m: Meta :: IsManaged(WithManagedLabels(m))
  {
    assert |LAST_GENERATION| != |LAST_REMOTE_GENERATION|;
    forall m: Meta ensures IsManaged(WithManagedLabels(m)) {
      assert |MANAGED_BY_LABEL| != |MANAGED_LABEL| && |CREATED_BY_LABEL| != |MANAGED_LABEL|;
    }
  }
}
