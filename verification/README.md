# Knative Edge: a verified model of the edge controllers and the traffic control loop

Knative Edge mirrors objects from a remote cluster to an edge cluster, runs a proxy Configuration next to each
offloaded Service, and lets a control loop move traffic between the Service and the proxy. This project models
that behaviour in Dafny and proves what it promises over whole runs. `dafny verify dfyconfig.toml` checks everything.

The files follow the program:

| file | content |
|---|---|
| `Text.dfy`, `Kube.dfy` | decimal printing and `strconv.ParseInt`, names and tags, labels, annotations, selectors, watch filters |
| `ConfigMirror.dfy` | one reconcile of the mirror (ConfigMap instance): the decision as a function, the objects and methods edited in place |
| `MirrorProtocol.dfy`, `MirrorDrain.dfy` | the mirror as a protocol: two API servers, two lagging caches, events on their way, a queue, a worker; any interleaving |
| `MirrorRelist.dfy` | what happens when a local watch breaks off and several events come as one |
| `Traffic.dfy`, `Offload.dfy` | the traffic list and one reconcile of a Service with its two preprocessors, as functions |
| `OffloadReconciler.dfy` | the same as methods over objects and the maps they refer to, each proved to do what the function does |
| `OffloadSettles.dfy`, `OffloadDisturbed.dfy` | convergence of the offload state machine, alone and in a world that changes |
| `OffloadStamped.dfy` | the same when the remote Service carries the annotation that marks own writes: exactly when it settles |
| `Latency.dfy`, `Smoothing.dfy` | latency samples to desired traffic; the inertia step and where it comes to rest |
| `Usage.dfy`, `TrafficControl.dfy` | the usage objects shared between maps and lists; the split store, the results, one run of the loop, histories of runs |
| `Listing.dfy` | the paginated producer/consumer that lists the services |

## Main results

- **Mirroring** (`QuietNamesAgree`): at every moment of every run, each name with nothing queued, on its way or being
  worked on has a managed local copy exactly when a selected remote object exists, and the copy mirrors it. Remote and
  foreign local edits, lagging reads, failed calls and restarts interleave freely.
- **Drain** (`WorkRunsOut`): once the others stop, the controller reaches such a state. A measure bounds every schedule of
  its steps, on caches however late, up to the reconciles that fail while an event is still on its way.
- **Offloading** (`FourReconcilesSettle`, `FourWritesPerDisturbance`, `SettledMeans`, `SettledTraffic`): from every state
  four reconciles reach one where nothing is written again, although the traffic write bumps the generation that the
  Configuration records. Over any history of reconciles, readiness changes, new splits and edits at most four
  reconciles write to begin with, and four more per disturbance. The settled states are characterised exactly, and so is
  when the annotation that marks own writes keeps a mirror from settling (`StampedSettledMeans`, `SettlesFromAnywhere`).
  What a reconcile keeps, removes and leaves behind is stated for every state (`ReconcileMeans`, `ReconcileContents`).
- **Traffic loop** (`RaisingLatencyNeverLowersTraffic`, `ComesToRest`, `AlwaysRestsIf`, `HundredRunsComeToRest`,
  `SplitsStayPercentages`): monotone from samples to desired traffic exactly if the decay is not negative; convergence
  for every inertia from 0 to below 1 with the exact resting point; rest on or below every target exactly for an inertia
  between -1 and 1; and the exact condition on annotations under which the stored splits stay percentages.
- **Shared objects** (`Usage.ClusterUsage.FinalizeKServiceMetrics`): no pod is counted twice.
- **Listing** (`WhatIsListed`, `OnePageOnly`, `ListErrorsDeadlock`): what every interleaving returns.

## What the code does where its comments or its purpose suggest otherwise

The model follows the code. Each point is stated by a lemma.

- The recovery of a split from the annotation uses the parsed value only if parsing *failed*
  (`pkg/workoffload/runnable.go:231`, `pkg/controllers/edge/kservice_reconciler.go:82`). So a split that was written
  down is recovered exactly if it is 0 (`RecoveryForgets`), and an annotation out of the 64-bit range, the first being
  `9223372036854775808`, puts an extreme value into the store (`RecoveredRange`, `PrintedOutOfRange`). All splits stay
  percentages exactly if every run sets each service whose out-of-range annotation it recovers (`SplitsArePercentagesIf`).
- The create filter looks for the version "0" (`pkg/controllers/edge/predicate.go:32-33`), but an object that was never stored
  has the version "". Events of own creates therefore do pass (`OwnWriteEvents`); this costs one more reconcile.
- The filter drops every event of a managed object that has no annotations (`pkg/controllers/edge/predicate.go:28-30,47-49`). A foreign
  edit is noticed exactly if it does not leave such an object (`ForeignEditIsSeen`); otherwise, as when the label is put on
  a bare object, the clusters are left in disagreement with nothing to do (`BareEditIsLost`).
- Deletes carry no version. A reconcile that read the managed object before its label was taken off still deletes it
  (`LabelTakenOffTooLate`); creates and updates never touch an unmanaged object (`UnmanagedObjects`).
- With an empty environment list the selectors take every labelled object, while Reconcile takes none
  (`EnvMembershipAgrees`), so it deletes what it has just created (`EmptyEnvironmentsFlap`). `strings.Split` in
  `cmd/controller/main.go:116` never gives an empty list.
- The ConfigMap merge replaces all annotations, so the reconcile after an update updates again (`RewritesItsOwnUpdate`); only the event
  filter makes the mirror quiet. It does not copy the binary data.
- If the remote Service carries the annotation that marks own writes, the Service mirror takes it over and does not settle
  unless the local Service carries the same (`StampedSettledMeans`). With an annotation that names no version from
  the local one on it writes for ever (`ForeignStampNeverSettles`); `SettlesFromAnywhere` says exactly when it stops.
- A Service that is not offloaded and has no other traffic target is written by every reconcile: the empty list the
  code builds is never equal to the nil list it reads back (`WithoutOffloading`).
- An entry that is both latest and proxy-tagged can make a second traffic write necessary (`BothKindsNeedTwoBuilds`).
  `TrafficIsStable` gives the exact condition on the list before; two builds always suffice (`TwoBuildsSuffice`).
- All results of the strategy point to one loop variable (`pkg/workoffload/prometheus/strategy.go:221,250`, Go 1.19), so every
  service is smoothed with the inertia of the last one listed (`GetResults`, `Run`). One that asks for no inertia can get 25
  instead of 100 percent (`SharedInertiaHarms`); nothing is lost if all have the inertia of the last (`SharedInertiaIsHarmless`).
- The filter for own writes looks at one event at a time. If a broken watch is listed anew, one event stands for several, and an
  edit that follows an own update is dropped with it (`RelistDrops`, `EditLostInRelist`).
- All pages are listed into one `ServiceList`, and the consumer keeps pointers to it: the answer is the last page, as often as
  there are pages. It is the list of all services exactly if there is one page, or there are no services (`OnePageOnly`). The
  three parties are stuck exactly if a list call has failed and the caller's context is not cancelled (`ListErrorsDeadlock`); a
  cancellation releases them without an error (`CancellationReleases`).
- A comment announces a new look at the split every 5 minutes (`pkg/controllers/edge/kservice_reconciler.go:189`); the code
  asks for 60 seconds (`LookedAtAgain`).
- The inertia annotation may be any number. Every split comes to rest on or below its target exactly if it is between -1 and 1
  (`AlwaysRestsIf`): at 1 or more a split of 100 percent never falls to 0, at -1 or less every split but 50 swings around a
  target of 50 for ever.
- From below, the smoothing stops short of its target: with the default inertia at 97 of 100 percent (`DefaultComesToRest`).

## Modelling assumptions

- Kubernetes: an API server gives every write a new, larger version; versions are decimal numbers to the model, opaque
  strings to the code. Every event of a filtered watch is delivered, in order, possibly late. A name is worked on by one
  worker at a time. Defaulting, validation and admission do not happen; an empty traffic list is stored as none. Nil and
  empty maps are the same. A namespaced name is the key an object is stored under; objects of different kinds or names do not interact.
- Mirror protocol (`ForeignEditAllowed`): whoever else edits a local object, managed or not, leaves each of the two version
  annotations as it is or takes it off, creates no object with them, and does not leave a managed object without any
  annotation. The managed label may be put on and taken off. Unmanaged objects that exist before the start may carry
  version annotations of the past.
- Offloading: reads of Services and Configurations are up to date, and a write that is not refused succeeds.
- Numbers: float32 is modelled by real. With the default inertia the smoothing of percentages is exact in float32.
  Numeric annotations that are NaN or infinite are excluded; samples that are so count as missing, as in the code.
- Time is a parameter and never runs backwards. The clean-up timer fires at most one period after the last clean-up.

## Model

| member | source | states |
|---|---|---|
| `Text.PrintParse` | pkg/workoffload/runnable.go:229 | parsing a printed 64-bit number gives it back without an error |
| `Text.PrintsInBaseTen` | pkg/controllers/edge/kservice_reconciler.go:185 | the last digit printed is the remainder by ten, what precedes it prints the quotient; a minus sign precedes negative numbers |
| `Text.ParseMeans` | pkg/workoffload/runnable.go:229 | exactly an optional sign with digits within the signed 64-bit range is parsed without an error, as the number denoted |
| `Text.RecoveryForgets` | pkg/workoffload/runnable.go:224-234 | a split written to the annotation is recovered if and only if it is 0 |
| `Text.RecoveredRange` | pkg/controllers/edge/kservice_reconciler.go:73-86 | what is recovered, from the text of the annotation: 0, and so a percentage, iff its digits are not out of the 64-bit range, else the extreme value of its sign |
| `Text.PrintedOutOfRange` | pkg/workoffload/runnable.go:227-236 | a printed number is out of range iff it is not a 64-bit integer, and what is then recovered |
| `Text.VersionRoundTrip` | pkg/controllers/utils/annotations.go:11-31 | a recorded version determines the version; an unstored object has the empty one, never "0" |
| `Text.ConfigurationNameRoundTrip` | pkg/controllers/utils/controllers.go:17-49 | service and configuration names round-trip both ways |
| `Text.TagsAreDistinct` | pkg/controllers/utils/controllers.go:116-124 | proxy tags carry the prefix, and differ for different generations |
| `Text.TagText` | pkg/controllers/utils/controllers.go:116-124 | the tag is "edge-proxy-" and the generation in five digits, or in more if it needs them |
| `Kube.EnvMembershipAgrees` | pkg/controllers/edge/predicate.go:57-137 | the test in Reconcile, the watch predicate and the remote cache agree on all labels iff the environment list is not empty |
| `Kube.ManagedLabelsMean` | pkg/controllers/utils/annotations.go:33-45 | the labels of a mirror are exactly those of the source, key by key, but for the four of the controllers, each of which has its own value |
| `Kube.SelectorsReadOneLabel` | pkg/controllers/edge/predicate.go:57-137 | each selector fails without its label, and passes on its value alone: "true", or one of the environments |
| `Kube.EventFilters` | pkg/controllers/edge/predicate.go:21-55 | on which value of the own-write annotation a create and an update are dropped, and what happens without it |
| `ConfigMirror.WritesMirror` | pkg/controllers/edge/mirroring_reconciler.go:117-151 | what a reconcile writes mirrors the remote object, is managed, and names the version replaced and the version copied |
| `ConfigMirror.WrittenContents` | pkg/controllers/edge/configmap_controller.go:39-57 | every label, annotation and datum of the object that a reconcile creates or updates: the remote one's, but for the four managed labels and the two versions |
| `ConfigMirror.DecisionMeans` | pkg/controllers/edge/mirroring_reconciler.go:59-142 | when a reconcile creates, deletes, updates or does nothing; the last iff the local object has all it should have |
| `ConfigMirror.NothingMeansAgreement` | pkg/controllers/edge/mirroring_reconciler.go:103-142 | no write is decided only when the local copy already mirrors this very remote version, or both are absent |
| `ConfigMirror.RewritesItsOwnUpdate` | pkg/controllers/edge/configmap_controller.go:39-57 | the reconcile after an update writes again unless the remote object carries the version replaced (iff) |
| `ConfigMirror.EmptyEnvironmentsFlap` | pkg/controllers/edge/mirroring_reconciler.go:86-89 | with an empty environment list the second reconcile deletes what the first created |
| `ConfigMirror.Reconciler.KindMerger` | pkg/controllers/edge/configmap_controller.go:39-57 | annotations, labels and data are the source's, all else stays; the maps assigned are new ones, so the objects share none |
| `ConfigMirror.Reconciler.PrepareCopy` | pkg/controllers/edge/mirroring_reconciler.go:103-152 | the copy becomes the stamped mirror; whether that is a change; the remote and the cached local object and their maps are unchanged, and none is shared |
| `ConfigMirror.Reconciler.Reconcile` | pkg/controllers/edge/mirroring_reconciler.go:45-189 | the write is the one decided from the two reads, applied to this name only; the name is requeued on conflicts and errors |
| `MirrorProtocol.ForeignEditIsSeen` | pkg/controllers/edge/predicate.go:21-55 | the event of a foreign edit that leaves the version annotations alone passes the filter iff it does not leave a managed object without annotations |
| `MirrorProtocol.OwnWriteEvents` | pkg/controllers/edge/predicate.go:21-55 | the event of an own write passes iff it was a create |
| `MirrorProtocol.StaleNothingIsHarmless` | pkg/controllers/edge/mirroring_reconciler.go:103-142 | not writing on an outdated read is right when no event is left to wake the controller |
| `MirrorProtocol.FinishCases` | pkg/controllers/edge/mirroring_reconciler.go:159-186 | a create happens only over nothing, an update only over the version read, a delete only if no remote object was read |
| `MirrorProtocol.StepKeepsInv` | pkg/controllers/edge/mirroring_reconciler.go:45-210 | every step of anybody keeps the protocol invariant |
| `MirrorProtocol.RunKeepsInv` | pkg/controllers/edge/mirroring_reconciler.go:45-210 | the invariant holds for all names at every moment of every run |
| `MirrorProtocol.QuietNamesAgree` | pkg/controllers/edge/mirroring_reconciler.go:45-210 | every quiet name has a managed local copy iff there is a selected remote object, and the copy mirrors it, label by label |
| `MirrorDrain.BareEditIsLost` | pkg/controllers/edge/predicate.go:28-49 | from every quiet name, an edit that leaves a managed object without annotations leaves the name quiet and the clusters in disagreement |
| `MirrorDrain.EventsTellWritersApart` | pkg/controllers/edge/predicate.go:36-55 | in every run the recorded version is never the object's own; exactly the own updates are filtered out |
| `MirrorDrain.UnmanagedObjects` | pkg/controllers/edge/cache.go:54-59 | in every run all writes store managed objects; an unmanaged one is touched iff no remote but a local object was read, and then the read was stale |
| `MirrorDrain.LabelTakenOffTooLate` | pkg/controllers/edge/mirroring_reconciler.go:168-176 | from every quiet mirrored name, a run in which an object without the label is deleted |
| `MirrorDrain.StepDoesWork` | pkg/controllers/edge/mirroring_reconciler.go:159-210 | every step of the controller lowers the work left, but for a reconcile that fails while an event is on its way, which gives back at most what taking the name and its reads did |
| `MirrorDrain.SchedulesAreFinite` | pkg/controllers/edge/mirroring_reconciler.go:159-210 | in every schedule of controller steps, all but four steps per such failed reconcile are bounded by the work left |
| `MirrorDrain.WorkRunsOut` | pkg/controllers/edge/mirroring_reconciler.go:159-210 | from every reachable state, without further edits, the name becomes quiet and agrees, and every schedule is bounded as above, unless an unmanaged object blocks it; then it is never quiet |
| `MirrorRelist.RelistDrops` | pkg/controllers/edge/predicate.go:36-55 | one event for several writes is dropped iff the first was the controller's and all others were not |
| `MirrorRelist.RelistKeepsInv` | pkg/controllers/edge/predicate.go:36-55 | listing the local objects anew keeps the protocol invariant iff the event passes, the name is queued, or the worker, busy or idle, is on track |
| `MirrorRelist.RemoteRelistKeepsInv` | pkg/controllers/edge/predicate.go:101-153 | listing the remote objects anew always keeps it: the one event passes iff the cache was outdated |
| `MirrorRelist.EditLostInRelist` | pkg/controllers/edge/predicate.go:36-55 | from every quiet mirrored name, a run that ends quiet and in disagreement |
| `Traffic.TargetSearch` | pkg/controllers/utils/controllers.go:51-99 | each search finds a fitting target iff there is one |
| `Traffic.FirstTarget` | pkg/controllers/utils/controllers.go:51-99 | what is found is the first target with a proxy tag, and the first marked as the latest |
| `Traffic.RemovalIsAFilter` | pkg/controllers/utils/controllers.go:65-85 | removal keeps the other targets as often as they occur, takes exactly the proxy percentages off, and is idempotent |
| `Traffic.RemovalKeepsOrder` | pkg/controllers/utils/controllers.go:73-80 | removal from a concatenation is the concatenation of the removals, so the order is kept |
| `Traffic.TrafficShape` | pkg/controllers/edge/kservice_reconciler.go:97-175 | one latest and one proxy entry with the split and the remainder; when they sum to 100 and when no entry is both (iff) |
| `Traffic.EntriesKeep` | pkg/controllers/edge/kservice_reconciler.go:97-172 | which fields of the first latest and the first proxy target the two entries keep, and the values of the others; the percentages make 100, or 100 less 2^64 |
| `Traffic.CanRouteMeans` | pkg/controllers/edge/kservice_reconciler.go:113-166 | there is something to route to iff the proxy is ready or a proxy target is listed |
| `Traffic.TrafficIsStable` | pkg/controllers/edge/kservice_reconciler.go:97-175 | rebuilding a built list with the same inputs changes nothing iff, in the list before, not both a proxy-tagged latest target and a proxy target that is not latest were found |
| `Traffic.TwoBuildsSuffice` | pkg/controllers/edge/kservice_reconciler.go:97-175 | after two builds it never does |
| `Traffic.BothKindsNeedTwoBuilds` | pkg/controllers/edge/kservice_reconciler.go:100-138 | a list for which one build is not enough |
| `Offload.MergeIsIdempotent` | pkg/controllers/edge/kservice_controller.go:72-125 | merging the same remote Service, with the version annotation and the labels, twice equals once |
| `Offload.MergeFrames` | pkg/controllers/edge/kservice_controller.go:88-113 | where every annotation comes from: remote ones with one of the two prefixes win, then the remote address, other local ones are untouched |
| `Offload.MergedContents` | pkg/controllers/edge/kservice_controller.go:79-123 | the labels, template labels and spec of the merged Service are the remote ones, but for those of the controllers; its traffic is the local one |
| `Offload.OffloadLabelMeans` | pkg/controllers/edge/kservice_controller.go:54-66 | a Service is offloaded iff its label reads "true" in whatever case |
| `Offload.BuildKeepsTheRest` | pkg/controllers/edge/kconfiguration_reconciler.go:140-225 | building a Configuration keeps what it must not override, points the proxy at the remote, and makes it visible to the filtered client |
| `Offload.BuildSets` | pkg/controllers/edge/kconfiguration_reconciler.go:166-225 | all that it sets: the name, environment, concurrency and scale of the proxy, labels, template labels, and the generation of the Service |
| `Offload.ConfigurationViewMeans` | pkg/controllers/edge/cache.go:68-74 | the client shows a Configuration iff both the managed and the local label read "true" |
| `Offload.ConfigurationMeans` | pkg/controllers/edge/kconfiguration_reconciler.go:23-138 | what becomes of the Configuration in every state: nothing yet, deleted, in view with the generation on record, or an error iff a hidden one is there |
| `Offload.SplitMeans` | pkg/controllers/edge/kservice_reconciler.go:70-95 | the split: a fixed one that is a number whatever is stored, else the stored one, else 0 or the extreme of a text out of range |
| `Offload.PlainTraffic` | pkg/controllers/edge/kservice_reconciler.go:41-66 | without offloading the proxy targets and the visible Configuration go, all else stays |
| `Offload.OffloadedTraffic` | pkg/controllers/edge/kservice_reconciler.go:68-191 | with it, either nothing for five seconds, or two entries, the split as above, the annotation that tells it, and a new look after a minute |
| `Offload.CombineMeans` | pkg/controllers/edge/mirroring_reconciler.go:129-133 | the combined result requeues if either does, after the shorter positive delay |
| `Offload.PreprocessorsKeepService` | pkg/controllers/edge/kconfiguration_reconciler.go:23-138 | the preprocessors never write the stored Service |
| `Offload.ReconcileMeans` | pkg/controllers/edge/mirroring_reconciler.go:65-186 | a managed Service is removed iff the remote one is gone or not selected, with no error and no change to the Configuration; one that is not managed stays and stands in the way; a missing one is created iff there is a remote one |
| `Offload.ReconcileContents` | pkg/controllers/edge/mirroring_reconciler.go:117-186 | a reconcile that does not fail, offloaded or not, leaves the remote labels, template labels, spec and prefixed annotations; a write names the version it replaced |
| `OffloadReconciler.ServiceObject.RemoveEdgeProxyTarget` | pkg/controllers/utils/controllers.go:65-85 | the loop filters the list in place, and tells whether there was a proxy target |
| `OffloadReconciler.KServiceReconciler.CopyPrefixed` | pkg/controllers/edge/kservice_controller.go:107-113 | the loop writes exactly the prefixed source annotations into the target's map, in any order of the keys |
| `OffloadReconciler.KServiceReconciler.KindMerger` | pkg/controllers/edge/kservice_controller.go:72-125 | the target becomes the merge; labels and template labels are put into new maps, the annotations are written in place; the source and its maps are unchanged and none is shared afterwards, unless the annotations were shared before |
| `OffloadReconciler.KServiceReconciler.BuildConfiguration` | pkg/controllers/edge/kconfiguration_reconciler.go:140-225 | the Configuration is edited in place into the built one |
| `OffloadReconciler.KServiceReconciler.ReconcileKConfiguration` | pkg/controllers/edge/kconfiguration_reconciler.go:23-138 | the new store, the result and the error are those specified; no other name is touched |
| `OffloadReconciler.KServiceReconciler.TrafficSplit` | pkg/controllers/edge/kservice_reconciler.go:70-95 | the split applied: a fixed one that is a number whatever is stored, else the stored one, else the recovered one |
| `OffloadReconciler.KServiceReconciler.SplitTraffic` | pkg/controllers/edge/kservice_reconciler.go:97-172 | the list appended to step by step is the one specified, or there is nothing to route to |
| `OffloadReconciler.KServiceReconciler.ReconcileKService` | pkg/controllers/edge/kservice_reconciler.go:20-191 | the Service edited in place, the new store and the result are those specified; no other name is touched |
| `OffloadReconciler.KServiceReconciler.Preprocess` | pkg/controllers/edge/mirroring_reconciler.go:119-137 | the fold over the preprocessors: first failure stops, the shortest delay wins |
| `OffloadReconciler.KServiceReconciler.Reconcile` | pkg/controllers/edge/mirroring_reconciler.go:45-189 | one whole reconcile of a Service is the specified function of the reads and the store; no other name is touched |
| `OffloadSettles.FirstReconcile` | pkg/controllers/edge/kservice_controller.go:72-125 | after one reconcile both objects have the right contents |
| `OffloadSettles.SecondReconcile` | pkg/controllers/edge/kservice_reconciler.go:70-185 | after a second the traffic list is final |
| `OffloadSettles.ThirdReconcile` | pkg/controllers/edge/kconfiguration_reconciler.go:63-118 | a third only records the generation that the traffic write produced |
| `OffloadSettles.FourReconcilesSettle` | pkg/controllers/edge/mirroring_reconciler.go:45-189 | from every state of both objects, after four reconciles another one writes nothing |
| `OffloadSettles.SettledMeans` | pkg/controllers/edge/mirroring_reconciler.go:142-186 | a reconcile writes nothing iff the Service mirrors the remote one, the Configuration is built and up to date, and the traffic is the list asked for |
| `OffloadSettles.SettledTraffic` | pkg/controllers/edge/kservice_reconciler.go:97-185 | in a settled state with a ready proxy: exactly two entries, with revision, tag and annotation; the proxy has the fixed split whatever is stored, else the stored one, else 0 or an extreme; they sum to 100 iff the subtraction did not wrap |
| `OffloadSettles.LookedAtAgain` | pkg/controllers/edge/mirroring_reconciler.go:119-137 | which reconciles of an offloaded Service fail (iff), and after how many seconds the others are repeated: 1 while something is built, 5 until the proxy is ready, 60 from then on |
| `OffloadSettles.HiddenConfigurationStops` | pkg/controllers/edge/kconfiguration_reconciler.go:98-109 | a Configuration of that name that is not the controller's own stops every reconcile |
| `OffloadStamped.StampedSettledMeans` | pkg/controllers/edge/kservice_controller.go:107-113 | with the own-write annotation on the remote Service a reconcile writes nothing iff it would write nothing without, and the local Service carries the same |
| `OffloadStamped.ForeignStampNeverSettles` | pkg/controllers/edge/kservice_controller.go:107-113 | if the annotation is not there and names no version from the local one on, every reconcile, however late, writes the Service |
| `OffloadStamped.SettlesIfItWillCarry` | pkg/controllers/edge/mirroring_reconciler.go:142-151 | once only the annotation keeps the mirror writing, it stops some time iff the annotation is there, names the version replaced next, or one yet to come |
| `OffloadStamped.ThreeReconcilesSettleTheRest` | pkg/controllers/edge/mirroring_reconciler.go:45-189 | three reconciles lead from every running state to one in which only the annotation is left to write |
| `OffloadStamped.SettlesFromAnywhere` | pkg/controllers/edge/mirroring_reconciler.go:45-189 | so, from every running state, the mirror settles some time iff that condition holds after three reconciles |
| `OffloadSettles.WithoutOffloading` | pkg/controllers/edge/kservice_reconciler.go:41-66 | without the label the proxy and its target go in one reconcile; the mirror then settles iff a target is left |
| `OffloadDisturbed.FourWritesPerDisturbance` | pkg/controllers/edge/mirroring_reconciler.go:45-189 | in every history of reconciles and disturbances at most four reconciles write, and four more per disturbance |
| `Latency.FillMeaning` | pkg/workoffload/prometheus/usage/kservice.go:128-159 | the filled series starts at the first sample and repeats the most recent one in each gap |
| `Latency.SumIsDiscounted` | pkg/workoffload/prometheus/usage/kservice.go:173-194 | the backward loop sums the samples discounted by age |
| `Latency.AverageMeans` | pkg/workoffload/prometheus/usage/kservice.go:173-200 | the latency is the discounted sum over the sum of the weights, if that is positive, as it is when the decay is not negative |
| `Latency.TotalIsGeometric` | pkg/workoffload/prometheus/usage/kservice.go:173-194 | the sum of the weights is the geometric one; with decay 1 it is the number of samples |
| `Latency.AverageIsConvex` | pkg/workoffload/prometheus/usage/kservice.go:161-201 | with decay at least 0 the latency lies between any bounds of the samples |
| `Latency.DesiredMeans` | pkg/workoffload/prometheus/strategy.go:236-245 | nothing below the soft limit, all from the hard limit on, in between n percent iff the latency is n to n + 1 hundredths of the way |
| `Latency.DesiredIsMonotone` | pkg/workoffload/prometheus/strategy.go:236-245 | the desired traffic is a percentage and grows with latency, for all limits |
| `Latency.RaisingLatencyNeverLowersTraffic` | pkg/workoffload/prometheus/strategy.go:229-245 | raising samples never lowers the desired traffic, through fill, average and map |
| `Latency.NegativeDecayReverses` | pkg/workoffload/prometheus/usage/kservice.go:111-113 | with every negative decay it can: raised samples that take the desired traffic from 100 to 0 |
| `Latency.MonotoneIfDecayIsNotNegative` | pkg/workoffload/prometheus/usage/kservice.go:161-201 | raising samples never lowers the desired traffic iff the decay is not negative |
| `Smoothing.DefaultStep` | pkg/workoffload/runnable.go:252-266 | with the default inertia a step is three parts old and one part new, rounded down |
| `Smoothing.SmoothMeans` | pkg/workoffload/runnable.go:266 | for every inertia in [0,1]: the weighted mean of split and target, rounded down |
| `Smoothing.StepDown` | pkg/workoffload/runnable.go:266 | from above a step goes down and not past the target |
| `Smoothing.StepUp` | pkg/workoffload/runnable.go:266 | from below a step goes up and not past the target; it is stuck iff the gap is below 1/(1-inertia) |
| `Smoothing.ComesToRest` | pkg/workoffload/runnable.go:252-281 | for every inertia in [0,1): rest within the initial gap's number of steps, on the target from above, the largest stuck gap below it from below |
| `Smoothing.DefaultComesToRest` | pkg/workoffload/strategy/constants.go:8 | with the default inertia: on the target, or 3 below it, or unmoved if it started closer |
| `Smoothing.StepAcross` | pkg/workoffload/runnable.go:266-277 | with an inertia between -1 and 0 a clamped step from above lands on or below the target, not further away, and one from below on or above it, closer |
| `Smoothing.AlwaysRestsIf` | pkg/workoffload/runnable.go:253-277 | clamped steps bring every percentage to rest on or below every target iff the inertia is between -1 and 1 |
| `Usage.ListSumsAddUp` | pkg/workoffload/prometheus/usage/kservice.go:225-241 | sums per list add up to the sum over the listed keys if no key is listed twice |
| `Usage.KServiceUsage.UpdateWithKService` | pkg/workoffload/prometheus/usage/kservice.go:99-126 | each setting is the annotation's value or the default |
| `Usage.KServiceUsage.UpdateWithPercentileRatio` | pkg/workoffload/prometheus/usage/kservice.go:128-159 | the series is the filled one |
| `Usage.KServiceUsage.FinalizeKServiceMetrics` | pkg/workoffload/prometheus/usage/kservice.go:161-201 | the latency is the weighted average; without a series it is left alone |
| `Usage.ClusterUsage.AddKService` | pkg/workoffload/prometheus/usage/kservice.go:203-223 | one usage object per key, the same on every call, with an empty list when new |
| `Usage.ClusterUsage.AddPod` | pkg/workoffload/prometheus/usage/pod.go:72-106 | a pod is listed once, under the label it had when first seen, and the sharing invariant is kept |
| `Usage.ClusterUsage.UpdatePodMetrics` | pkg/workoffload/prometheus/usage/pod.go:108-116 | the containers' usage comes on top for this pod only; no list changes |
| `Usage.TotalsAdd` | pkg/workoffload/prometheus/usage/pod.go:108-116 | the totals add up over the containers, cpu and memory each on its own |
| `Usage.ClusterUsage.FinalizeKServiceMetrics` | pkg/workoffload/prometheus/usage/kservice.go:225-251 | every service has the cpu and the memory of its own pods, and over all services they equal those over the listed pods, each counted once |
| `Usage.ClusterNodes.UpdateNodeMetrics` | pkg/workoffload/prometheus/usage/node.go:76-97 | the last metrics of a node replace those before; capacities and other nodes stay |
| `Usage.ClusterNodes.FinalizeClusterMetrics` | pkg/workoffload/prometheus/usage/cluster.go:24-41 | the cluster totals are the sums over all nodes |
| `TrafficControl.SplitStore.Get` | pkg/workoffload/store/store.go:106-117 | the stored split, or 0 and the news that there is none |
| `TrafficControl.SplitStore.CleanUp` | pkg/workoffload/store/store.go:39-63 | exactly the items less than 3600 seconds old are kept, unchanged |
| `TrafficControl.NothingGetsStale` | pkg/workoffload/store/store.go:13-17 | in every history no item is as old as the time to live plus one period |
| `TrafficControl.YoungItemsStay` | pkg/workoffload/store/store.go:13-17 | in every history an item put less than 3600 seconds ago, and not since, is there as it was put |
| `TrafficControl.DesiredTrafficMeans` | pkg/workoffload/prometheus/strategy.go:231-245 | the desired traffic is what the limits ask for, each setting the annotation's or its default, of the weighted latency |
| `TrafficControl.GetResults` | pkg/workoffload/prometheus/strategy.go:215-264 | each service gets its own name and desired traffic, all share the pointer to the last service |
| `TrafficControl.EdgeWorkOffload.RecoverTraffic` | pkg/workoffload/runnable.go:213-237 | services the store does not know get what their annotation recovers |
| `TrafficControl.EdgeWorkOffload.NextTraffic` | pkg/workoffload/runnable.go:249-277 | the new split under one result, wrapped and clamped |
| `TrafficControl.NewSplitMeans` | pkg/workoffload/runnable.go:249-277 | ten up, two down, or a quarter of the way, within the percentages, from every 64-bit split |
| `TrafficControl.InertiaOnlySmooths` | pkg/workoffload/runnable.go:249-277 | the inertia matters for smoothing only, and is 0.75 if there is none |
| `TrafficControl.EdgeWorkOffload.Run` | pkg/workoffload/runnable.go:201-284 | the store after a run, from the samples of each service and the inertia of the last |
| `TrafficControl.RecoverFacts` | pkg/workoffload/runnable.go:213-237 | the recovery adds exactly the unknown listed services, each with what the first one of its name recovers and the time of the run, and changes no known one |
| `TrafficControl.JudgeFacts` | pkg/workoffload/runnable.go:239-281 | the verdicts write percentages and the time of the run, and only for services they set |
| `TrafficControl.RunRange` | pkg/workoffload/runnable.go:201-284 | after a run all splits are percentages iff it sets each service whose split was none before and each one whose out-of-range annotation it recovers |
| `TrafficControl.RunFrame` | pkg/workoffload/runnable.go:201-284 | a run changes only the services it lists |
| `TrafficControl.SplitsArePercentagesIf` | pkg/workoffload/runnable.go:201-284 | over every history of runs and clean-ups the splits are percentages all along iff each run sets the unknown services it lists with an out-of-range annotation |
| `TrafficControl.SplitsStayPercentages` | pkg/workoffload/runnable.go:201-284 | so they always are if no annotation is out of range |
| `TrafficControl.OutOfRangeAnnotationIsStored` | pkg/workoffload/runnable.go:227-236 | a single service without samples breaks it iff its annotation is out of range, as the number after the largest 64-bit integer is |
| `TrafficControl.SharedInertiaIsHarmless` | pkg/workoffload/prometheus/strategy.go:248-253 | one shared Service pointer has the effect of one pointer per service if each smoothed service has the inertia of the last |
| `TrafficControl.SharedInertiaHarms` | pkg/workoffload/prometheus/strategy.go:248-253 | two services for which it has not: 25 instead of 100 percent |
| `TrafficControl.OnlyVerdictDecides` | pkg/workoffload/runnable.go:239-279 | the only result for a service decides its new split, wherever it stands |
| `TrafficControl.OneRun` | pkg/workoffload/runnable.go:201-284 | one run takes the split of a listed service, stored or 0, to the new one at the time of the run |
| `TrafficControl.RunsAreSteps` | pkg/workoffload/runnable.go:201-284 | n runs asking for the same traffic are n clamped smoothing steps, under any inertia |
| `TrafficControl.HundredRunsComeToRest` | pkg/workoffload/runnable.go:201-284 | where the split of a service ends after a hundred such runs |
| `Listing.RunKeepsInv` | pkg/workoffload/runnable.go:109-199 | the invariant of the two goroutines and the caller holds in every interleaving |
| `Listing.WhatIsListed` | pkg/workoffload/runnable.go:109-199 | pages are received in order without gaps, all of them without failure or cancellation; what is then returned |
| `Listing.OnePageOnly` | pkg/workoffload/runnable.go:123-181 | the returned list is the list of all services iff there is one page, or no services at all |
| `Listing.ListErrorsDeadlock` | pkg/workoffload/runnable.go:136-189 | in every reachable state: nothing but a cancellation or another failure is possible before the answer iff a list call has failed and the caller's context is not cancelled |
| `Listing.CancellationReleases` | pkg/workoffload/runnable.go:182-198 | after a cancellation the answer is at most three steps away, of which one is always possible |
| `Listing.ListingTerminates` | pkg/workoffload/runnable.go:109-199 | otherwise the goroutines never get stuck, and each step brings the answer closer |
| `Listing.Copy` | pkg/workoffload/runnable.go:171 | what is copied fits, lands at the position, and leaves the rest of the array alone |
| `Listing.CopyAll` | pkg/workoffload/runnable.go:161-172 | the two loops build the concatenation of the pages |
| `Listing.FlattenAdds` | pkg/workoffload/runnable.go:161-172 | that concatenation has the services of all pages, in their order |

## Left out

- The Secret and Namespace mirrors differ from the ConfigMap mirror only in the data field.
- The operator, the command-line programs, the HTTP proxy, the Prometheus client and its queries are I/O around the core.
- `RemoteResourceChangedPredicate`, `IsEdgeProxyRevisionName` and `GetConfigurationGenerationFromTarget` are used nowhere; `LatestReadyRevisionChangedPredicate` only decides when a Service is reconciled.
- QuietNamesAgree: is proved for the ConfigMap instance; the Service instance is covered by the convergence results, whose reads are up to date.
- QuietNamesAgree and WorkRunsOut are about watches that deliver every event; MirrorRelist states what is lost otherwise.
- WorkRunsOut: does not bound reconciles that fail while an event is on its way; the code retries them without a bound, too.
- FourReconcilesSettle: assumes that the remote Service does not itself carry the own-write annotation; OffloadStamped states exactly what happens if it does.
- SplitsStayPercentages: is about the store; a fixed-traffic annotation is never clamped by the code, so no range is claimed for the traffic list.
- UpdateWithKService: takes the annotations parsed; the syntax of floating-point numbers is not modelled.
- RunsAreSteps: is over exact arithmetic; float32 rounding for other inertias than the default is not modelled, nor is the conversion of floats beyond the 64-bit range.
- Configurations stay behind when a remote Service is deleted, because the code skips the preprocessors then (`ReconcileMeans`); nothing is claimed about what becomes of them later.
- Pressure votes, usage percentages, storage metrics, and the Node name of a pod, which the traffic decision does not use.
- The data race between the page being listed and the copy loops after an outer cancellation; the pages are copied as they are at one moment.
- The locks of the split store: its operations are atomic steps.
- The maps of a Configuration, a ConfigMap's binary data and the rest of a Service's configuration spec are values, so their sharing is not modelled; the code assigns the last from the same deep copy as the labels.
- Logging, timing, JSON output and API server defaulting.
