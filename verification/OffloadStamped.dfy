/** The offload state machine when the remote Service itself carries the annotation by which the mirror
    recognises its own writes: when reconciling settles, and when it goes on writing for ever. */
module OffloadStamped {
  import opened Text
  import opened Kube
  import opened Traffic
  import opened Offload
  import opened OffloadSettles

  /** A mirrored, offloaded remote Service that carries the annotation. */
  predicate IsStamped(p: Settings, r: Service) {
    HasEdgeSyncLabel(r.labels, p.envs) && IsOffloaded(r.labels) && LAST_GENERATION in r.annotations
  }

  /** A stored Service in view, and no Configuration of somebody else's in the way. */
  predicate IsRunning(st: Store) {
    && Stored(st)
    && ServiceView(st.service).Some?
    && (ConfigurationView(st.configuration).Some? || st.configuration.None?)
  }

  predicate CarriesStamp(l: Service, stamp: string) {
    LAST_GENERATION in l.annotations && l.annotations[LAST_GENERATION] == stamp
  }

  function WithoutStamp(r: Service): Service {
    r.(annotations := r.annotations - {LAST_GENERATION})
  }

  // ---------------------------------------------------------------- what the annotation changes

  lemma MergedWithStamp(p: Settings, r: Service)
    requires LAST_GENERATION in r.annotations
    ensures LAST_GENERATION !in MergedAnnotations(p, WithoutStamp(r))
    ensures MergedAnnotations(p, r) ==
            MergedAnnotations(p, WithoutStamp(r))[LAST_GENERATION := r.annotations[LAST_GENERATION]]
  {
    KeysApart();
    assert LAST_GENERATION[..|EDGE_PREFIX|] == EDGE_PREFIX;
    var plain := WithoutStamp(r).annotations;
    assert Prefixed(r.annotations) == Prefixed(plain)[LAST_GENERATION := r.annotations[LAST_GENERATION]];
  }

  lemma SplitIgnoresStamp(stored: Option<int>, a: Meta, stamp: string)
    ensures Split(stored, a[LAST_GENERATION := stamp]) == Split(stored, a)
  {
    KeysApart();
  }

  lemma OverWithStamp(merged: Meta, traffic: Option<string>, remote: string, stamp: string)
    ensures Over(merged[LAST_GENERATION := stamp], traffic, remote, None) ==
            Over(merged, traffic, remote, None)[LAST_GENERATION := stamp]
  {
    KeysApart();
  }

  /** The Service that would be written differs by the remote annotation, and by nothing else. */
  lemma ServiceWithStamp(p: Settings, r: Service, stored: Option<int>, l: Service, c: Configuration)
    requires LAST_GENERATION in r.annotations
    ensures var plain := ServiceAfter(p, WithoutStamp(r), stored, l, c);
            ServiceAfter(p, r, stored, l, c) ==
            plain.(annotations := plain.annotations[LAST_GENERATION := r.annotations[LAST_GENERATION]])
  {
    var stamp, a := r.annotations[LAST_GENERATION], l.annotations + MergedAnnotations(p, WithoutStamp(r));
    MergedWithStamp(p, r);
    assert l.annotations + MergedAnnotations(p, r) == a[LAST_GENERATION := stamp];
    SplitIgnoresStamp(stored, a, stamp);
    FinalAnnotations(p, r, stored, l, c);
    FinalAnnotations(p, WithoutStamp(r), stored, l, c);
    OverWithStamp(a, if CanRoute(Targets(l.traffic), c.ready) then Some(Sprint(Split(stored, a))) else None,
                  VersionString(r.rv), stamp);
  }

  /** All that building a Configuration reads of a Service. */
  predicate ReadTheSame(a: Service, b: Service) {
    && Lookup(a.annotations, REMOTE_URL) == Lookup(b.annotations, REMOTE_URL)
    && Lookup(a.annotations, REMOTE_HOST) == Lookup(b.annotations, REMOTE_HOST)
    && a.generation == b.generation
  }

  lemma BuildsTheSame(p: Settings, c: Configuration, a: Service, b: Service)
    requires ReadTheSame(a, b)
    ensures BuildConfiguration(p, c, a) == BuildConfiguration(p, c, b)
  {
  }

  lemma LookupOther(a: Meta, merged: Meta, own: string, stamp: string, key: string)
    requires key != own
    ensures Lookup(a + merged[own := stamp], key) == Lookup(a + merged, key)
  {
  }

  lemma CopiesReadTheSame(p: Settings, r: Service, l: Service)
    requires LAST_GENERATION in r.annotations
    ensures ReadTheSame(MergeService(p, r, l), MergeService(p, WithoutStamp(r), l))
  {
    var stamp, plain := r.annotations[LAST_GENERATION], MergedAnnotations(p, WithoutStamp(r));
    MergedWithStamp(p, r);
    KeysApart();
    LookupOther(l.annotations, plain, LAST_GENERATION, stamp, REMOTE_URL);
    LookupOther(l.annotations, plain, LAST_GENERATION, stamp, REMOTE_HOST);
  }

  /** The Configuration does not depend on it. */
  lemma ConfigurationWithStamp(p: Settings, r: Service, l: Service, st: Store)
    requires LAST_GENERATION in r.annotations
    requires ConfigurationView(st.configuration).Some? || st.configuration.None?
    ensures ConfigurationAfter(p, MergeService(p, r, l), st) ==
            ConfigurationAfter(p, MergeService(p, WithoutStamp(r), l), st)
  {
    CopiesReadTheSame(p, r, l);
    var seen := ConfigurationView(st.configuration);
    BuildsTheSame(p, if seen.None? then BLANK_CONFIGURATION else seen.value, MergeService(p, r, l),
                  MergeService(p, WithoutStamp(r), l));
  }

  // ---------------------------------------------------------------- the settled states

  /** Without a remote one, the local annotation is left as it is. */
  lemma StampStaysWithout(p: Settings, r: Service, stored: Option<int>, l: Service, c: Configuration)
    requires LAST_GENERATION !in r.annotations
    ensures var final := ServiceAfter(p, r, stored, l, c);
            && (LAST_GENERATION in final.annotations <==> LAST_GENERATION in l.annotations)
            && (LAST_GENERATION in l.annotations ==>
                  final.annotations[LAST_GENERATION] == l.annotations[LAST_GENERATION])
  {
    KeysApart();
    assert LAST_GENERATION !in MergedAnnotations(p, r);
    FinalAnnotations(p, r, stored, l, c);
  }

  /** A reconcile changes nothing exactly if it finds both objects as it would leave them. */
  lemma FixedMeans(p: Settings, r: Service, stored: Option<int>, st: Store)
    requires HasEdgeSyncLabel(r.labels, p.envs) && IsOffloaded(r.labels) && IsRunning(st)
    ensures var c := ConfigurationAfter(p, MergeService(p, r, st.service.value), st);
            Recon(p, r, stored, st) == st <==>
            st.configuration == Some(c) && st.service.value == ServiceAfter(p, r, stored, st.service.value, c)
  {
    var c, final, clock := OneReconcile(p, r, stored, st);
  }

  lemma FinalWithStamp(p: Settings, r: Service, stored: Option<int>, l: Service, c: Configuration)
    requires LAST_GENERATION in r.annotations
    ensures l == ServiceAfter(p, r, stored, l, c) <==>
            l == ServiceAfter(p, WithoutStamp(r), stored, l, c) && CarriesStamp(l, r.annotations[LAST_GENERATION])
  {
    var stamp, plain := r.annotations[LAST_GENERATION], ServiceAfter(p, WithoutStamp(r), stored, l, c);
    ServiceWithStamp(p, r, stored, l, c);
    StampStaysWithout(p, WithoutStamp(r), stored, l, c);
    if CarriesStamp(plain, stamp) {
      assert plain.annotations[LAST_GENERATION := stamp] == plain.annotations;
    }
  }

  /** Exactly when a reconcile writes nothing: it would write nothing if the remote Service did not
      carry the annotation, and the local Service happens to carry the same. (When the first of the
      two holds is what SettledMeans says.) */
  lemma StampedSettledMeans(p: Settings, r: Service, stored: Option<int>, st: Store)
    requires IsStamped(p, r) && IsRunning(st)
    ensures Recon(p, r, stored, st) == st <==>
            Recon(p, WithoutStamp(r), stored, st) == st &&
            CarriesStamp(st.service.value, r.annotations[LAST_GENERATION])
  {
    var l := st.service.value;
    FixedMeans(p, r, stored, st);
    FixedMeans(p, WithoutStamp(r), stored, st);
    ConfigurationWithStamp(p, r, l, st);
    FinalWithStamp(p, r, stored, l, ConfigurationAfter(p, MergeService(p, r, l), st));
  }

  // ---------------------------------------------------------------- repeating a step

  function Times(f: Store -> Store, st: Store, n: nat): Store
    decreases n
  {
    if n == 0 then st else Times(f, f(st), n - 1)
  }

  predicate IsFixedAfter(f: Store -> Store, st: Store, n: nat) {
    f(Times(f, st, n)) == Times(f, st, n)
  }

  function Reconciling(p: Settings, r: Service, stored: Option<int>): Store -> Store {
    st => Recon(p, r, stored, st)
  }

  lemma {:induction false} RepeatIsTimes(p: Settings, r: Service, stored: Option<int>, st: Store, n: nat)
    ensures Repeat(p, r, stored, st, n) == Times(Reconciling(p, r, stored), st, n)
    decreases n
  {
    if n > 0 {
      RepeatIsTimes(p, r, stored, Recon(p, r, stored, st), n - 1);
    }
  }

  /** If every state of a kind is written, and is of that kind afterwards, writing never ends. */
  lemma {:induction false} AlwaysWritten(f: Store -> Store, kind: iset<Store>, st: Store, n: nat)
    requires st in kind && forall s {:trigger f(s)} :: s in kind ==> f(s) in kind && f(s).service != s.service
    ensures f(Times(f, st, n)).service != Times(f, st, n).service
    decreases n
  {
    if n > 0 {
      AlwaysWritten(f, kind, f(st), n - 1);
    }
  }

  // ---------------------------------------------------------------- writing for ever

  /** The remote annotation is not on the local Service, and names neither the version of the local
      Service nor any later one. */
  ghost predicate IsForeignStamp(l: Service, stamp: string) {
    !CarriesStamp(l, stamp) && forall m: nat :: m >= l.rv ==> stamp != VersionString(m)
  }

  lemma ForeignStampStays(p: Settings, r: Service, stored: Option<int>, st: Store)
    requires IsStamped(p, r) && IsRunning(st) && IsForeignStamp(st.service.value, r.annotations[LAST_GENERATION])
    ensures var st1 := Recon(p, r, stored, st);
            && IsRunning(st1) && st1.service != st.service
            && IsForeignStamp(st1.service.value, r.annotations[LAST_GENERATION])
  {
    var l, stamp := st.service.value, r.annotations[LAST_GENERATION];
    var c, final, clock := OneReconcile(p, r, stored, st);
    ServiceWithStamp(p, r, stored, l, c);
    assert CarriesStamp(final, stamp);
    ReconKeepsStored(p, r, stored, st);
    WrittenStamp(st.service, final, clock);
    FinalKeepsVersion(p, r, stored, l, c);
    assert stamp != VersionString(l.rv);
  }

  lemma WrittenStamp(prior: Option<Service>, final: Service, clock: nat)
    ensures StoreService(prior, final, clock).rv == clock
    ensures CarriesStamp(StoreService(prior, final, clock), VersionString(final.rv))
  {
  }

  lemma FinalKeepsVersion(p: Settings, r: Service, stored: Option<int>, l: Service, c: Configuration)
    ensures ServiceAfter(p, r, stored, l, c).rv == l.rv
  {
  }

  /** Then no reconcile, however many there have been, leaves the Service alone. */
  lemma ForeignStampNeverSettles(p: Settings, r: Service, stored: Option<int>, st: Store, n: nat)
    requires IsStamped(p, r) && IsRunning(st) && IsForeignStamp(st.service.value, r.annotations[LAST_GENERATION])
    ensures var later := Repeat(p, r, stored, st, n); Recon(p, r, stored, later).service != later.service
  {
    var f, stamp := Reconciling(p, r, stored), r.annotations[LAST_GENERATION];
    var kind := iset s | IsRunning(s) && IsForeignStamp(s.service.value, stamp);
    forall s | s in kind ensures f(s) in kind && f(s).service != s.service {
      ForeignStampStays(p, r, stored, s);
    }
    AlwaysWritten(f, kind, st, n);
    RepeatIsTimes(p, r, stored, st, n);
  }

  // ---------------------------------------------------------------- exactly when it settles

  /** A state in which only the annotation keeps the mirror writing. */
  predicate IsSettledButForStamp(p: Settings, r: Service, stored: Option<int>, st: Store) {
    Stored(st) && InView(st) && Recon(p, WithoutStamp(r), stored, st) == st
  }

  /** What a write does to a Service when nothing but the annotation has changed. */
  function Restamped(l: Service, clock: nat): Service {
    l.(rv := clock, annotations := l.annotations[LAST_GENERATION := VersionString(l.rv)])
  }

  lemma RestampedIsFinal(p: Settings, r: Service, stored: Option<int>, l: Service, c: Configuration, clock: nat)
    requires LAST_GENERATION !in MergedAnnotations(p, r) && ServiceAfter(p, r, stored, l, c) == l
    ensures ServiceAfter(p, r, stored, Restamped(l, clock), c) == Restamped(l, clock)
  {
    var merged, stamp := MergedAnnotations(p, r), VersionString(l.rv);
    var a, next := l.annotations + merged, Restamped(l, clock);
    assert next.annotations + merged == a[LAST_GENERATION := stamp];
    SplitIgnoresStamp(stored, a, stamp);
    FinalAnnotations(p, r, stored, l, c);
    FinalAnnotations(p, r, stored, next, c);
    OverWithStamp(a, if CanRoute(Targets(l.traffic), c.ready) then Some(Sprint(Split(stored, a))) else None,
                  VersionString(r.rv), stamp);
  }

  lemma RestampedIsStored(l: Service, stamp: string, clock: nat)
    requires l.traffic != Some([])
    ensures StoreService(Some(l), l.(annotations := l.annotations[LAST_GENERATION := stamp]), clock) ==
            Restamped(l, clock)
  {
    var m := l.annotations;
    assert m[LAST_GENERATION := stamp][LAST_GENERATION := VersionString(l.rv)] ==
           m[LAST_GENERATION := VersionString(l.rv)];
  }

  lemma RestampedReadsTheSame(p: Settings, r: Service, l: Service, clock: nat)
    requires LAST_GENERATION !in MergedAnnotations(p, r)
    ensures ReadTheSame(MergeService(p, r, l), MergeService(p, r, Restamped(l, clock)))
  {
    KeysApart();
  }

  lemma BuiltIsLeftAlone(p: Settings, copy: Service, st: Store)
    requires ConfigurationView(st.configuration).Some?
    ensures ConfigurationAfter(p, copy, st) == st.configuration.value <==>
            BuildConfiguration(p, st.configuration.value, copy) == st.configuration.value
  {
    KeysApart();
  }

  lemma RestampedCopies(p: Settings, r: Service, l: Service, clock: nat, st: Store, st1: Store)
    requires LAST_GENERATION !in MergedAnnotations(p, r)
    requires st1.configuration == st.configuration && ConfigurationView(st.configuration).Some?
    requires ConfigurationAfter(p, MergeService(p, r, l), st) == st.configuration.value
    ensures ConfigurationAfter(p, MergeService(p, r, Restamped(l, clock)), st1) == st.configuration.value
  {
    RestampedReadsTheSame(p, r, l, clock);
    BuildsTheSame(p, st.configuration.value, MergeService(p, r, l), MergeService(p, r, Restamped(l, clock)));
    BuiltIsLeftAlone(p, MergeService(p, r, l), st);
    BuiltIsLeftAlone(p, MergeService(p, r, Restamped(l, clock)), st1);
  }

  function RestampedStore(st: Store): Store
    requires st.service.Some?
  {
    st.(service := Some(Restamped(st.service.value, st.clock)), clock := st.clock + 1)
  }

  lemma SettledParts(p: Settings, r: Service, stored: Option<int>, st: Store)
    requires IsStamped(p, r) && Stored(st) && InView(st)
    ensures IsSettledButForStamp(p, r, stored, st) ==>
            var l, c, plain := st.service.value, st.configuration.value, WithoutStamp(r);
            && LAST_GENERATION !in MergedAnnotations(p, plain)
            && ConfigurationAfter(p, MergeService(p, plain, l), st) == c
            && ServiceAfter(p, plain, stored, l, c) == l
  {
    MergedWithStamp(p, r);
    var c, final, clock := OneReconcile(p, WithoutStamp(r), stored, st);
  }

  /** From such a state a reconcile writes a new stamp, unless the Service carries the remote one. */
  lemma OnlyRestamps(p: Settings, r: Service, stored: Option<int>, st: Store)
    requires IsStamped(p, r) && Stored(st) && InView(st)
    ensures IsSettledButForStamp(p, r, stored, st) ==>
            Recon(p, r, stored, st) ==
            if CarriesStamp(st.service.value, r.annotations[LAST_GENERATION]) then st else RestampedStore(st)
  {
    var l, stamp := st.service.value, r.annotations[LAST_GENERATION];
    StampedSettledMeans(p, r, stored, st);
    SettledParts(p, r, stored, st);
    if IsSettledButForStamp(p, r, stored, st) && !CarriesStamp(l, stamp) {
      ConfigurationWithStamp(p, r, l, st);
      ServiceWithStamp(p, r, stored, l, st.configuration.value);
      RestampedIsStored(l, stamp, st.clock);
      var c, final, clock := OneReconcile(p, r, stored, st);
      assert c == st.configuration.value && final == l.(annotations := l.annotations[LAST_GENERATION := stamp]);
      assert CarriesStamp(final, stamp);
    }
  }

  lemma StaysSettledButForStamp(p: Settings, r: Service, stored: Option<int>, st: Store)
    requires IsStamped(p, r) && Stored(st) && InView(st)
    ensures IsSettledButForStamp(p, r, stored, st) ==> IsSettledButForStamp(p, r, stored, RestampedStore(st))
  {
    if !IsSettledButForStamp(p, r, stored, st) {
      return;
    }
    var l, plain, st1 := st.service.value, WithoutStamp(r), RestampedStore(st);
    SettledParts(p, r, stored, st);
    RestampedCopies(p, plain, l, st.clock, st, st1);
    RestampedIsFinal(p, plain, stored, l, st.configuration.value, st.clock);
    var c, final, clock := OneReconcile(p, plain, stored, st1);
  }

  /** The annotation names a version that a coming write is going to replace, or is there already. */
  ghost predicate WillCarry(st: Store, stamp: string)
    requires st.service.Some?
  {
    || CarriesStamp(st.service.value, stamp)
    || stamp == VersionString(st.service.value.rv)
    || exists m: nat :: m >= st.clock && stamp == VersionString(m)
  }

  /** All states of the kind carry the stamp and are fixed, or are restamped. */
  ghost predicate OnlyRestamped(f: Store -> Store, kind: iset<Store>, stamp: string) {
    forall s {:trigger f(s)} :: s in kind ==>
      && s.service.Some?
      && f(s) in kind
      && f(s) == if CarriesStamp(s.service.value, stamp) then s else RestampedStore(s)
  }

  lemma {:induction false} FixedOnlyIfItWillCarry(f: Store -> Store, kind: iset<Store>, stamp: string,
    st: Store, n: nat)
    requires OnlyRestamped(f, kind, stamp) && st in kind && st.service.Some?
    requires IsFixedAfter(f, st, n)
    ensures WillCarry(st, stamp)
    decreases n
  {
    if !CarriesStamp(st.service.value, stamp) {
      assert f(st) == RestampedStore(st) && st.clock != f(st).clock;
      if n > 0 {
        FixedOnlyIfItWillCarry(f, kind, stamp, f(st), n - 1);
        assert f(st).service.value.rv == st.clock;
      }
    }
  }

  /** k is how many writes it takes until the version that the stamp names is replaced. */
  lemma {:induction false} FixedWhenReplaced(f: Store -> Store, kind: iset<Store>, stamp: string, st: Store, k: nat)
    returns (n: nat)
    requires OnlyRestamped(f, kind, stamp) && st in kind && st.service.Some?
    requires stamp == if k == 0 then VersionString(st.service.value.rv) else VersionString(st.clock + k - 1)
    ensures IsFixedAfter(f, st, n)
    decreases k
  {
    if CarriesStamp(st.service.value, stamp) {
      n := 0;
      assert f(st) == st;
    } else {
      assert f(st) == RestampedStore(st);
      if k == 0 {
        assert CarriesStamp(f(st).service.value, stamp);
        n := 0;
      } else {
        n := FixedWhenReplaced(f, kind, stamp, f(st), k - 1);
      }
      n := n + 1;
    }
  }

  lemma FixedIfItWillCarry(f: Store -> Store, kind: iset<Store>, stamp: string, st: Store)
    requires OnlyRestamped(f, kind, stamp) && st in kind && st.service.Some?
    ensures (exists n: nat :: IsFixedAfter(f, st, n)) <==> WillCarry(st, stamp)
  {
    forall n: nat | IsFixedAfter(f, st, n) ensures WillCarry(st, stamp) {
      FixedOnlyIfItWillCarry(f, kind, stamp, st, n);
    }
    if WillCarry(st, stamp) {
      var n := FixesItself(f, kind, stamp, st);
    }
  }

  lemma FixesItself(f: Store -> Store, kind: iset<Store>, stamp: string, st: Store) returns (n: nat)
    requires OnlyRestamped(f, kind, stamp) && st in kind && st.service.Some? && WillCarry(st, stamp)
    ensures IsFixedAfter(f, st, n)
  {
    if CarriesStamp(st.service.value, stamp) {
      n := 0;
      assert f(st) == st;
    } else if stamp == VersionString(st.service.value.rv) {
      n := FixedWhenReplaced(f, kind, stamp, st, 0);
    } else {
      var m: nat :| m >= st.clock && stamp == VersionString(m);
      n := FixedWhenReplaced(f, kind, stamp, st, m - st.clock + 1);
    }
  }

  /** Reconciling, the state settles after n rounds. */
  predicate SettlesAfter(p: Settings, r: Service, stored: Option<int>, st: Store, n: nat) {
    var later := Repeat(p, r, stored, st, n);
    Recon(p, r, stored, later) == later
  }

  lemma SettlesAfterTimes(p: Settings, r: Service, stored: Option<int>, st: Store, n: nat)
    ensures SettlesAfter(p, r, stored, st, n) <==>
            IsFixedAfter(Reconciling(p, r, stored), st, n)
  {
    RepeatIsTimes(p, r, stored, st, n);
  }

  lemma SettlesSomeTime(p: Settings, r: Service, stored: Option<int>, st: Store)
    ensures (exists n: nat :: SettlesAfter(p, r, stored, st, n)) <==>
            (exists n: nat :: IsFixedAfter(Reconciling(p, r, stored), st, n))
  {
    var f := Reconciling(p, r, stored);
    forall n: nat ensures SettlesAfter(p, r, stored, st, n) <==> IsFixedAfter(f, st, n) {
      SettlesAfterTimes(p, r, stored, st, n);
    }
  }

  ghost function SettledButForStamp(p: Settings, r: Service, stored: Option<int>): iset<Store> {
    iset st | IsSettledButForStamp(p, r, stored, st)
  }

  lemma ReconcilingRestamps(p: Settings, r: Service, stored: Option<int>, st: Store)
    requires IsStamped(p, r) && Stored(st) && InView(st)
    ensures st in SettledButForStamp(p, r, stored) ==>
            var f := Reconciling(p, r, stored);
            && f(st) in SettledButForStamp(p, r, stored)
            && f(st) ==
               if CarriesStamp(st.service.value, r.annotations[LAST_GENERATION]) then st else RestampedStore(st)
  {
    OnlyRestamps(p, r, stored, st);
    StaysSettledButForStamp(p, r, stored, st);
  }

  lemma ReconcilingOnlyRestamps(p: Settings, r: Service, stored: Option<int>)
    requires IsStamped(p, r)
    ensures OnlyRestamped(Reconciling(p, r, stored), SettledButForStamp(p, r, stored), r.annotations[LAST_GENERATION])
  {
    forall st | IsSettledButForStamp(p, r, stored, st)
      ensures var f := Reconciling(p, r, stored);
              && f(st) in SettledButForStamp(p, r, stored)
              && f(st) ==
                    if CarriesStamp(st.service.value, r.annotations[LAST_GENERATION]) then st else RestampedStore(st)
    {
      ReconcilingRestamps(p, r, stored, st);
    }
  }

  /** Once only the annotation keeps the mirror writing, it settles some time exactly if the remote
      annotation is there already, names the version the next write replaces, or names one that the
      server has yet to give out. */
  lemma SettlesIfItWillCarry(p: Settings, r: Service, stored: Option<int>, st: Store)
    requires IsStamped(p, r) && Stored(st) && InView(st)
    ensures IsSettledButForStamp(p, r, stored, st) ==>
              ((exists n: nat :: SettlesAfter(p, r, stored, st, n)) <==> WillCarry(st, r.annotations[LAST_GENERATION]))
  {
    if IsSettledButForStamp(p, r, stored, st) {
      ReconcilingOnlyRestamps(p, r, stored);
      FixedIfItWillCarry(Reconciling(p, r, stored), SettledButForStamp(p, r, stored),
                         r.annotations[LAST_GENERATION], st);
      SettlesSomeTime(p, r, stored, st);
    }
  }

  // ---------------------------------------------------------------- from every start

  lemma StampIsReplaced(l: Service, final: Service, stamp: string, clock: nat)
    ensures StoreService(Some(l), final.(annotations := final.annotations[LAST_GENERATION := stamp]), clock) ==
            StoreService(Some(l), final, clock)
  {
    var m, own := final.annotations, VersionString(final.rv);
    assert m[LAST_GENERATION := stamp][LAST_GENERATION := own] == m[LAST_GENERATION := own];
  }

  /** What is stored is the same as if the remote Service did not carry the annotation. */
  lemma StampedIsReconciled(p: Settings, r: Service, stored: Option<int>, st: Store)
    requires IsStamped(p, r) && IsRunning(st)
    ensures ReconciledTo(p, WithoutStamp(r), stored, st, Recon(p, r, stored, st))
    ensures IsRunning(Recon(p, r, stored, st))
  {
    var l, stamp := st.service.value, r.annotations[LAST_GENERATION];
    var c, final, clock := OneReconcile(p, r, stored, st);
    var plain := ServiceAfter(p, WithoutStamp(r), stored, l, c);
    ConfigurationWithStamp(p, r, l, st);
    ServiceWithStamp(p, r, stored, l, c);
    FinalWithStamp(p, r, stored, l, c);
    StampIsReplaced(l, plain, stamp, clock);
    assert l != final ==> Recon(p, r, stored, st).service.value == StoreService(Some(l), plain, clock);
    ReconKeepsStored(p, r, stored, st);
  }

  lemma PlainOffloads(p: Settings, r: Service, stored: Option<int>)
    requires IsStamped(p, r) && (stored.Some? ==> IsInt64(stored.value))
    ensures Offloads(p, WithoutStamp(r), stored)
  {
  }

  /** Three reconciles lead from every running state to one in which only the annotation is left to
      write. */
  lemma ThreeReconcilesSettleTheRest(p: Settings, r: Service, stored: Option<int>, st: Store)
    requires IsStamped(p, r) && IsRunning(st) && (stored.Some? ==> IsInt64(stored.value))
    ensures IsSettledButForStamp(p, r, stored, Repeat(p, r, stored, st, 3))
  {
    var plain := WithoutStamp(r);
    PlainOffloads(p, r, stored);
    var st1 := Recon(p, r, stored, st);
    StampedIsReconciled(p, r, stored, st);
    MergedAfter(p, plain, stored, st, st1);
    var st2 := Recon(p, r, stored, st1);
    StampedIsReconciled(p, r, stored, st1);
    TrafficSetAfter(p, plain, stored, st1, st2);
    var st3 := Recon(p, r, stored, st2);
    StampedIsReconciled(p, r, stored, st2);
    RecordedAfter(p, plain, stored, st2, st3);
    SettledMeans(p, plain, stored, st3);
    assert Repeat(p, r, stored, st, 3) == Repeat(p, r, stored, st1, 2) == Repeat(p, r, stored, st2, 1) ==
           Repeat(p, r, stored, st3, 0);
  }

  lemma {:induction false} TimesAdds(f: Store -> Store, st: Store, m: nat, n: nat)
    ensures Times(f, st, m + n) == Times(f, Times(f, st, m), n)
    decreases m
  {
    if m > 0 {
      TimesAdds(f, f(st), m - 1, n);
    }
  }

  lemma {:induction false} TimesStays(f: Store -> Store, st: Store, n: nat)
    requires f(st) == st
    ensures Times(f, st, n) == st
    decreases n
  {
    if n > 0 {
      TimesStays(f, st, n - 1);
    }
  }

  lemma FixedLater(f: Store -> Store, st: Store, m: nat, n: nat) returns (k: nat)
    requires IsFixedAfter(f, st, n)
    ensures IsFixedAfter(f, Times(f, st, m), k)
  {
    if n >= m {
      k := n - m;
      TimesAdds(f, st, m, k);
    } else {
      k := 0;
      TimesAdds(f, st, n, m - n);
      TimesStays(f, Times(f, st, n), m - n);
    }
  }

  lemma FixedEarlier(f: Store -> Store, st: Store, m: nat, n: nat)
    requires IsFixedAfter(f, Times(f, st, m), n)
    ensures IsFixedAfter(f, st, m + n)
  {
    TimesAdds(f, st, m, n);
  }

  ghost predicate GetsFixed(f: Store -> Store, st: Store) {
    exists n: nat :: IsFixedAfter(f, st, n)
  }

  /** A start m steps later makes no difference to whether a fixed state is reached. */
  lemma FixedFromLater(f: Store -> Store, st: Store, m: nat)
    ensures GetsFixed(f, st) <==> GetsFixed(f, Times(f, st, m))
  {
    if GetsFixed(f, st) {
      var n: nat :| IsFixedAfter(f, st, n);
      var k := FixedLater(f, st, m, n);
    } else if GetsFixed(f, Times(f, st, m)) {
      var n: nat :| IsFixedAfter(f, Times(f, st, m), n);
      FixedEarlier(f, st, m, n);
      assert false;
    }
  }

  /** From every running state: reconciling settles some time exactly if, after three reconciles, the
      remote annotation is on the local Service, names the version replaced next, or names one that
      the server has yet to give out. */
  lemma SettlesFromAnywhere(p: Settings, r: Service, stored: Option<int>, st: Store)
    requires IsStamped(p, r) && IsRunning(st) && (stored.Some? ==> IsInt64(stored.value))
    ensures Repeat(p, r, stored, st, 3).service.Some?
    ensures (exists n: nat :: SettlesAfter(p, r, stored, st, n)) <==>
            WillCarry(Repeat(p, r, stored, st, 3), r.annotations[LAST_GENERATION])
  {
    var st3 := Repeat(p, r, stored, st, 3);
    ThreeReconcilesSettleTheRest(p, r, stored, st);
    SettlesIfItWillCarry(p, r, stored, st3);
    SettlesSomeTime(p, r, stored, st);
    SettlesSomeTime(p, r, stored, st3);
    RepeatIsTimes(p, r, stored, st, 3);
    FixedFromLater(Reconciling(p, r, stored), st, 3);
  }
}
