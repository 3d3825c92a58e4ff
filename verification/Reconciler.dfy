// One reconcile of a binding: fetch, delete, finalizer, compute, conflict phase
// and apply.

module Reconciler {
  import opened Types
  import opened Statuses
  import opened Store
  import opened Changes
  import opened Environment
  import opened Calls
  import opened Client
  import opened Ownership
  import opened Output
  import opened StatusWriter
  import opened Conflicts
  import opened Peers
  import opened Quiet
  import opened Boundary
  import opened Settling
  import Manifest
  import Render
  import Selection
  import Text

  // ------------------------------------------------------------ phases

  lemma JustRead(r: Rules, f: Focus, s: State, v: Stored)
    requires Inv(r, s) && v in s.past && (r.current ==> v.key in s.bindings && s.bindings[v.key] == v)
    requires f == Reading(v.key, v.spec)
    ensures Follows(r, f, s, v) && (Covering(r) ==> StoredRecord(s, v.key) == RecordOf(v.status))
  {
    hide Safe, Covered, Exclusive, Fenced, Unshared, RecordOf, FenceOf;
    if Fencing(r) {
      forall n | Made(s, n) && Faces(s, v.key, n, v.spec) ensures AtHome(s, n) { assert Berthed(s, MakerOf(s, n), FenceOf(s.objects[n].spec)); }
    }
  }

  // Deletes the output and, once it is confirmed absent, the finalizer.
  method ReconcileDelete(api: Cluster, b: Binding) returns (requeue: bool, err: Option<Err>)
    requires api.Valid() && b.Good(api)
    modifies api, b
    ensures api.Valid() && api.focus == old(api.focus)
    ensures requeue ==> err.None?
    ensures b.finalizer || (err.Some? && api.losses == old(api.losses)) ==> Anchored(old(api.s), api.s)
    ensures err.Some? && b.finalizer && api.losses == old(api.losses) ==> Retained(old(StoredRecord(api.s, b.key)), StoredRecord(api.s, b.key))
    ensures Retained(old(StoredRecord(api.s, b.key)), StoredRecord(api.s, b.key)) || StoredRecord(api.s, b.key).Unclaimed?
    ensures old(b.finalizer) && !b.finalizer ==> b.Record().Unclaimed?
    ensures old(api.Calm() && Fresh(api, b) && b.finalizer && Unheld(api.s, b.Record())) ==> err.None? && !requeue && Released(api.s, b.key)
  {
    hide GoodTrace, Inv, Frame, Steady, Follows, Local, SameView, RecordedName, Unheld, Anchored;
    requeue := false;
    ghost var start := api.s;
    FrameReflexive(api.rules, api.s);
    FrameAnchors(start, api.s);
    if !b.finalizer { return false, None; }
    var remaining;
    remaining, err := CleanupThenList(api, b);
    ghost var mid := api.s;
    FrameAnchors(start, mid);
    if err.Some? {
      var cause := PatchApplyFailure(api, b, err.value);
      FrameTransitive(start, mid, api.s);
      FrameAnchors(start, api.s);
      return false, Some(cause);
    }
    if |remaining| > 0 { return true, None; }
    DecodesHere(api, b);
    RecordedNameMeaning(b.status);
    if RecordedName(b.status) != "" { assert false; }
    RecordInMemory(b);
    b.finalizer := false;
    var r := api.UpdateFinalizer(b.origin, b.key, b.rv, false);
    if r.Err? {
      if api.losses == old(api.losses) { FrameTransitive(start, mid, api.s); FrameAnchors(start, api.s); }
      return false, Some(Api(r.err));
    }
    return false, None;
  }

  lemma FrameAnchors(a: State, b: State)
    requires Frame(a, b)
    ensures Anchored(a, b)
  {
  }

  // The controller has let go of the binding: its finalizer and record are gone.
  predicate Released(s: State, k: Key) {
    k in s.bindings ==> !s.bindings[k].finalizer && StoredRecord(s, k).Unclaimed?
  }

  // Withdraws output that the failure no longer supports and reports it.
  method ApplyStateError(api: Cluster, b: Binding, e: StateError) returns (err: Option<Err>)
    requires api.Valid() && b.Good(api) && FailureReason(e.cond, e.reason) && !e.cond.Conflict?
    modifies api, b
    ensures api.Valid() && api.focus == old(api.focus)
    ensures err.None? ==> StatusOK(b.status) && !Holds(b.status, Conflict) && Holds(b.status, e.cond)
    ensures b.generation == old(b.generation)
    ensures old(api.Calm() && Fresh(api, b) && Unheld(api.s, b.Record())) ==>
              && err.None? && api.Calm() && Local(old(api.s), api.s, b.key) && Unowned(api.s, b.key) && b.status.pending.None? && b.status.owned.None?
              && b.status == FailureStatus(b.status, b.generation, e)
  {
    hide GoodTrace, Inv, Frame, Steady, Follows, Local, SameView, Consistent, Unheld;
    DecodesHere(api, b);
    if e.cond.InvalidRef? || e.cond.UnsafeSelector? || e.cond.RenderFailure? {
      var remaining;
      remaining, err := CleanupThenList(api, b);
      if err.Some? { return; }
      if |remaining| == 0 {
        err := ClearOwnership(api, b);
        if err.Some? { return; }
        DecodesHere(api, b);
      }
    }
    FailureStands(b.status, b.generation, e);
    hide FailureStatus, Holds, FailureReason;
    ApplyFailure(b, e);
    ConsistentIsOK(b.status);
    return None;
  }

  lemma FailureStands(s: Status, gen: nat, e: StateError)
    ensures var f := FailureStatus(s, gen, e);
            f == FailureStatus(f, gen, e) && Holds(f, e.cond) && f.pending == s.pending && f.owned == s.owned
  {
  }

  // The stored version of k holds no record.
  predicate Unowned(s: State, k: Key) {
    k in s.bindings && s.bindings[k].key == k && s.bindings[k].status.pending.None? && s.bindings[k].status.owned.None?
  }

  lemma HeldInView(a: Status, b: Status, t: CondType)
    requires SameView(a, b)
    ensures Holds(a, t) == Holds(b, t)
  {
  }

  // Reports a state error: status first, then a requeue if the cause may resolve itself.
  method ReportStateError(api: Cluster, b: Binding, e: StateError) returns (requeue: bool, err: Option<Err>)
    requires api.Valid() && b.Good(api) && FailureReason(e.cond, e.reason) && !e.cond.Conflict?
    modifies api, b
    ensures api.Valid() && api.focus == old(api.focus)
    ensures requeue <==> err.None? && (e.reason.InferencePoolCRDMissing? || e.reason.ClusterSPIFFEIDCRDMissing?)
    ensures err.None? ==> Persisted(api.s, b.key, b.status) && Holds(b.status, e.cond)
    ensures old(api.Calm() && Fresh(api, b) && Unheld(api.s, b.Record())) ==>
              && err.None? && Local(old(api.s), api.s, b.key) && Unowned(api.s, b.key)
              && api.s.bindings[b.key].status == FailureStatus(api.s.bindings[b.key].status, old(b.generation), e)
  {
    hide GoodTrace, Inv, Frame, Steady, Follows, FailureReason, StatusOK, Local, Unheld, FailureStatus, OnlyBinding, Published, Persisted, SameView, Holds;
    requeue := false;
    ghost var start := api.s;
    ghost var calm := api.Calm() && Fresh(api, b) && Unheld(api.s, b.Record());
    err := ApplyStateError(api, b, e);
    if err.Some? {
      var cause := PatchApplyFailure(api, b, err.value);
      return false, Some(cause);
    }
    ghost var mid, status := api.s, b.status;
    if calm { PublishedIs(mid, b.key, b.status); }
    err := PatchStatus(api, b);
    HeldInView(b.status, status, e.cond);
    if calm { LocalThenOnly(start, mid, api.s, b.key); }
    if err.Some? { return; }
    requeue := e.reason.InferencePoolCRDMissing? || e.reason.ClusterSPIFFEIDCRDMissing?;
  }

  method ComputeDesiredState(api: Cluster, config: Config, b: Binding) returns (r: Rendering)
    requires api.Valid() && b.Good(api)
    modifies api
    ensures api.Valid() && api.focus == old(api.focus) && Rely(api.rules, api.focus, old(api.s), api.s) && b.Good(api)
    ensures SoundRendering(b.key, b.spec, r)
    ensures old(api.Served() && api.script != []) && Render.VariantError(b.spec.variant).None? && PoolRefOK(b.spec) ==>
              && !api.stopped && api.script == old(api.script)[1..] && r == RenderingOf(config, api.s, b.key, b.spec)
              && api.s == Played(api.rules, api.focus, old(api.s), old(api.script)[0].before)
    ensures old(api.Calm()) ==> api.Calm() && api.s == old(api.s)
    ensures old(api.Calm()) ==> r == OwnRendering(config, api.s, b.key, b.spec)
  {
    hide GoodTrace, Inv, Rely, Follows, Selection.Bounds, Render.VariantError, PoolRefOK, RenderingOf;
    ghost var start := api.s;
    RelyReflexive(api.rules, api.focus, api.s);
    Render.VariantErrorMeaning(b.spec.variant);
    var invalid := Render.VariantError(b.spec.variant);
    if invalid.Some? { return Fails(invalid.value); }
    if !PoolRefOK(b.spec) { return Fails(StateError(InvalidRef, InvalidPoolRef, "unusable poolRef")); }
    r := ResolveIdentity(api, config, b.key, b.spec);
    FollowsOn(api.rules, api.focus, start, api.s, b.origin);
  }

  method EnsureFinalizer(api: Cluster, b: Binding) returns (err: Option<Err>)
    requires api.Valid() && b.Good(api) && (Covering(api.rules) ==> b.Synced(api)) && api.focus == Reading(b.key, b.spec)
    modifies api, b
    ensures api.Valid() && api.focus == old(api.focus)
    ensures old(b.finalizer) ==> err.None? && api.s == old(api.s) && api.script == old(api.script) && api.stopped == old(api.stopped) && b.origin == old(b.origin)
    ensures err.None? ==> b.Good(api) && b.finalizer && (Covering(api.rules) ==> b.Synced(api))
    ensures old(b.status == b.origin.status) ==> b.status == b.origin.status
    ensures b.spec == old(b.spec) && b.status == old(b.status) && b.generation == old(b.generation) && b.deleting == old(b.deleting)
    ensures old(api.Calm()) ==> api.Calm()
    ensures old(api.Calm() && Fresh(api, b)) ==>
              err.None? && Fresh(api, b) && api.s == (if old(b.finalizer) then old(api.s) else Put(old(api.s), old(b.origin).(finalizer := true)))
  {
    hide GoodTrace, Inv, Rely;
    if b.finalizer { return None; }
    DecodesHere(api, b);
    var r := api.UpdateFinalizer(b.origin, b.key, b.rv, true);
    if r.Err? { return Some(Api(r.err)); }
    b.finalizer, b.rv, b.origin := true, r.value.rv, r.value;
    JustRead(api.rules, api.focus, api.s, r.value);
    return None;
  }

  // The conflict phase and, if it leaves the binding alone, name replacement and apply.
  method ReconcilePlanned(api: Cluster, config: Config, b: Binding, plan: Plan, digest: string -> string) returns (requeue: bool, err: Option<Err>)
    requires api.Valid() && b.Good(api) && !b.deleting && b.finalizer && api.focus == Reading(b.key, b.spec)
    requires Covering(api.rules) ==> b.Synced(api)
    requires SoundRendering(b.key, b.spec, Plans(plan)) && Manifest.IsDigest(digest(plan.spiffeID))
    modifies api, b
    ensures api.Valid()
    ensures old(api.Calm() && Resuming(config, api.s, b, plan, digest)) ==>
              Resumed(old(api.s), api.s, b.key, old(b.Record()), DesiredOutput(config, b.key, plan, digest).spec)
    ensures old(api.Calm() && Fresh(api, b) && Configured(b.status, config) && Ripe(config, api.s, b.key, digest))
            && plan == PlanOf(config, old(api.s), b.key) ==>
              && err.None? && !requeue && api.Calm() && Settled(config, api.s, b.key, digest)
              && (old(PeersResting(config, api.s, b.key)) ==> Local(old(api.s), api.s, b.key))
              && (old(Opening(api.s, b.key, DesiredName(b.key, plan, digest))) ==>
                    Spawned(old(api.s), api.s, b.key, DesiredName(b.key, plan, digest), DesiredOutput(config, b.key, plan, digest).spec))
    ensures old(api.Calm() && Fresh(api, b) && Configured(b.status, config) && Settled(config, api.s, b.key, digest))
            && plan == PlanOf(config, old(api.s), b.key) ==>
              err.None? && api.s == old(api.s)
    ensures var self := VariantRecordOf(b.key, old(b.spec), plan);
            old(api.Calm() && Fresh(api, b)) && Contested(config, old(api.s), self, plan) ==>
              err.None? && !requeue && ClashReported(config, old(api.s), api.s, self, plan, old(b.generation))
  {
    hide GoodTrace, Inv, Frame, Follows, Selection.Bounds, PeersHarmless, PeersResting, Uneventful, VariantRecordOf, Contested, ClashReported,
         WorkingCopy, RecordOf, Sole, Unlodged, Eligible, PlanOf, InForce, InPlace, Reported, DesiredOutput, DesiredName, Local, Slot, Unheld,
         Spawned, Booked, NoOrphans, Resuming, Resumed, Overlooked, Passed, AllCalm, SoundRendering, Opening;
    RecordInMemory(b);
    ghost var record := b.Record();
    ghost var resuming := api.Calm() && Resuming(config, api.s, b, plan, digest);
    if resuming { ResumingIs(config, api.s, b, plan, digest); }
    ghost var start := api.s;
    ghost var quiet := api.Calm() && Fresh(api, b) && Configured(b.status, config);
    ghost var ripe := quiet && Ripe(config, api.s, b.key, digest) && plan == PlanOf(config, api.s, b.key);
    ghost var settled := quiet && Settled(config, api.s, b.key, digest) && plan == PlanOf(config, api.s, b.key);
    if ripe { RipeFacts(config, start, b.key, digest); }
    if settled { SettledFacts(config, start, b.key, digest); }
    SoundVariant(b.key, b.spec, plan);
    var handled;
    handled, requeue, err := ReconcileConflictState(api, config, b, plan);
    if handled { return; }
    ghost var mid, stored := api.s, Fresh(api, b);
    FreshRecord(api, b);
    if resuming || ripe { ComparedPasses(config, start, mid, b.key, plan); }
    if ripe { StillRipe(config, start, mid, b.key, digest); RipeFacts(config, mid, b.key, digest); OpeningIs(start, mid, b.key, DesiredName(b.key, plan, digest)); }
    if settled { SettledUntouched(config, start, mid, b.key, digest); }
    requeue, err := ReplaceAndApply(api, config, b, plan, digest);
    if ripe { SettledAtLast(config, api.rules, mid, api.s, b.key, digest); }
    if ripe && Opening(start, b.key, DesiredName(b.key, plan, digest)) {
      PassedThenSpawned(start, mid, api.s, b.key, DesiredName(b.key, plan, digest), DesiredOutput(config, b.key, plan, digest).spec);
    }
    if resuming { OrphanIff(api.rules, start, mid, api.s, b.key, record, DesiredOutput(config, b.key, plan, digest).spec, stored); }
  }

  lemma SoundVariant(key: Key, spec: BindingSpec, plan: Plan)
    requires SoundRendering(key, spec, Plans(plan))
    ensures plan.variant == spec.variant
  {
  }

  lemma ResumingIs(config: Config, s: State, b: Binding, plan: Plan, digest: string -> string)
    requires Resuming(config, s, b, plan, digest)
    ensures b.Record().Pending? && b.Record().name == DesiredName(b.key, plan, digest) && b.Record().name !in s.objects
    ensures b.key in s.bindings
    ensures PeersHarmless(config, s, VariantRecordOf(b.key, s.bindings[b.key].spec, plan)) || Overlooked(config, s, b.key, plan)
  {
  }

  lemma ComparedPasses(config: Config, a: State, b: State, key: Key, plan: Plan)
    requires key in a.bindings
    requires Passed(a, b, key) || Uneventful(config, a, b, VariantRecordOf(key, a.bindings[key].spec, plan))
    ensures Passed(a, b, key) && a.objects == b.objects
  {
    hide Live, NoOrphans, Tidy, PeersHarmless, PeersResting;
  }

  // The desired name is free and no incarnation is recorded.
  predicate Opening(s: State, k: Key, name: string) {
    name !in s.objects && !StoredRecord(s, k).Confirmed? && Aligned(StoredRecord(s, k), name)
  }

  lemma OpeningIs(a: State, b: State, k: Key, name: string)
    requires a.objects == b.objects && StoredRecord(a, k) == StoredRecord(b, k)
    ensures Opening(a, k, name) ==> name !in b.objects && !StoredRecord(b, k).Confirmed? && Aligned(StoredRecord(b, k), name)
  {
  }

  lemma PassedThenSpawned(a: State, m: State, b: State, k: Key, n: string, spec: ObjectSpec)
    requires Passed(a, m, k) && Spawned(m, b, k, n, spec)
    ensures Spawned(a, b, k, n, spec)
  {
    hide Live, NoOrphans, Tidy;
  }

  // What going on from a claim to a free name leads to: one object is created; nothing is
  // orphaned exactly when the claim is stored in a version that is not being deleted; and
  // live outputs are exclusive exactly when they were and no rival has one.
  ghost predicate Resumed(a: State, b: State, k: Key, record: Record, spec: ObjectSpec) {
    && record.Pending? && Spawned(a, b, k, record.name, spec)
    && (NoOrphans(a) ==> (NoOrphans(b) <==> Vouched(a, k, record)))
    && (Exclusive(b) <==> Exclusive(a) && RivalsAmong(a, k, {}))
    && (Marked(a, k) && !Live(a, StoredRecord(a, k)) ==> StoredRecord(b, k).Unclaimed?)
  }

  // The new output of k is exclusive exactly when all others were and none is a rival of k.
  lemma SpawnedExclusiveIff(r: Rules, a: State, b: State, k: Key, n: string, spec: ObjectSpec)
    requires Inv(r, a) && Spawned(a, b, k, n, spec) && k in a.bindings
    ensures Exclusive(b) <==> Exclusive(a) && RivalsAmong(a, k, {})
  {
    hide Inv, Spawned;
    SpawnedMade(r, a, b, k, n, spec);
    SpawnedRivals(a, b, k, n, spec);
    hide Rivals;
    if Exclusive(b) {
      forall m | Made(a, m) && MakerOf(a, m) != k ensures !Rivals(a, k, MakerOf(a, m)) { assert Made(b, m); }
      forall l, m | Made(a, l) && Made(a, m) && Rivals(a, MakerOf(a, l), MakerOf(a, m)) ensures MakerOf(a, l) == MakerOf(a, m) {
        assert Made(b, l) && Made(b, m);
      }
    }
    if Exclusive(a) && RivalsAmong(a, k, {}) {
      forall l, m | Made(b, l) && Made(b, m) && Rivals(b, MakerOf(b, l), MakerOf(b, m)) ensures MakerOf(b, l) == MakerOf(b, m) {
        if l == n && m != n { assert Made(a, m); }
        if m == n && l != n { assert Made(a, l) && Rivals(a, k, MakerOf(a, l)); }
      }
    }
  }

  lemma SpawnedRivals(a: State, b: State, k: Key, n: string, spec: ObjectSpec)
    requires Spawned(a, b, k, n, spec)
    ensures forall i, j :: Rivals(a, i, j) <==> Rivals(b, i, j)
    ensures forall i, j :: Rivals(a, i, j) <==> Rivals(a, j, i)
  {
  }

  // The created objects are those of before and the new one.
  lemma SpawnedMade(r: Rules, a: State, b: State, k: Key, n: string, spec: ObjectSpec)
    requires Inv(r, a) && Spawned(a, b, k, n, spec)
    ensures Made(b, n) && MakerOf(b, n) == k && !Made(a, n)
    ensures forall m | Made(b, m) && m != n :: Made(a, m) && MakerOf(b, m) == MakerOf(a, m) && b.objects[m] == a.objects[m]
    ensures forall m | Made(a, m) :: Made(b, m) && m != n && MakerOf(b, m) == MakerOf(a, m) && b.objects[m] == a.objects[m]
  {
    hide VersionsOK, EffectsOK, Covered, Walled, Exclusive, ClaimsOK, SameBounds;
    assert ObjectsOK(a);
  }

  // A created output is the only one that can be uncovered.
  lemma CoveredIff(r: Rules, a: State, b: State, k: Key, n: string, spec: ObjectSpec)
    requires Inv(r, a) && NoOrphans(a) && Spawned(a, b, k, n, spec) && SameRecordsBut(a, b, k) && !Live(a, StoredRecord(a, k))
    ensures NoOrphans(b) <==> Covers(StoredRecord(b, k), b.objects[n])
  {
    hide RecordOf, VersionsOK, EffectsOK, SameBounds, Exclusive, Walled, Covered, ClaimsOK;
    assert ObjectsOK(a);
    SpawnedMade(r, a, b, k, n, spec);
    forall m | Made(a, m) ensures MakerOf(a, m) != k {
      assert Covers(StoredRecord(a, MakerOf(a, m)), a.objects[m]);
    }
  }

  // No record but the claim itself covers the object created with it.
  lemma CoversOnlyClaim(r: Rules, s: State, k: Key, o: Object)
    requires Inv(r, s) && o.uid == s.nextUid
    ensures Covers(StoredRecord(s, k), o) ==> StoredRecord(s, k) == Pending(o.name, o.claim)
  {
    hide Covered, Exclusive, Walled, ObjectsOK, EffectsOK, StatusOK, Decode;
    if k in s.bindings { assert Attributed(s, s.bindings[k]); }
    hide RecordOf;
  }

  // The outcome of the comparison and the Create after it, read off the state before both.
  lemma OrphanIff(r: Rules, a: State, m: State, b: State, k: Key, record: Record, spec: ObjectSpec, stored: bool)
    requires Inv(r, m) && Passed(a, m, k) && record.Pending? && record.name !in a.objects && k in a.bindings
    requires Spawned(m, b, k, record.name, spec) && Booked(m, b, k, record.name, record.claim, stored)
    requires stored ==> StoredRecord(m, k) == record
    ensures Resumed(a, b, k, record, spec)
  {
    hide Inv, RecordOf, NoOrphans, Exclusive, RivalsAmong, SameBounds;
    PassedThenSpawned(a, m, b, k, record.name, spec);
    SpawnedExclusiveIff(r, m, b, k, record.name, spec);
    PassedRivals(a, m, k);
    if !stored { CoversOnlyClaim(r, m, k, b.objects[record.name]); }
    SpawnedMade(r, m, b, k, record.name, spec);
    hide Spawned;
    if NoOrphans(a) {
      if Vouched(a, k, record) { CoveredIff(r, m, b, k, record.name, spec); } else { UncoveredIsOrphan(b, record.name); }
    }
  }

  lemma PassedRivals(a: State, m: State, k: Key)
    requires Passed(a, m, k)
    ensures (Exclusive(a) <==> Exclusive(m)) && (RivalsAmong(a, k, {}) <==> RivalsAmong(m, k, {}))
  {
    hide NoOrphans, Live, Tidy, RecordOf;
    forall i, j ensures Rivals(a, i, j) <==> Rivals(m, i, j) {}
    forall n ensures Made(a, n) <==> Made(m, n) {}
    hide Rivals;
  }

  lemma UncoveredIsOrphan(s: State, n: string)
    requires Made(s, n) && !Covers(StoredRecord(s, MakerOf(s, n)), s.objects[n])
    ensures !NoOrphans(s)
  {
  }

  // The version in memory holds a claim to the desired name, which is free, and the
  // comparison lets it pass: no peer stands in the way, or the binding is left out.
  ghost predicate Resuming(config: Config, s: State, b: Binding, plan: Plan, digest: string -> string)
    reads b
  {
    && b.Record().Pending? && b.Record().name == DesiredName(b.key, plan, digest) && b.Record().name !in s.objects
    && b.key in s.bindings
    && (PeersHarmless(config, s, VariantRecordOf(b.key, s.bindings[b.key].spec, plan)) || Overlooked(config, s, b.key, plan))
  }

  // The stored version holds this record and is not being deleted.
  predicate Vouched(s: State, k: Key, r: Record) {
    StoredRecord(s, k) == r && !Marked(s, k)
  }

  // Gives up an old output name, then applies.
  method ReplaceAndApply(api: Cluster, config: Config, b: Binding, plan: Plan, digest: string -> string) returns (requeue: bool, err: Option<Err>)
    requires api.Valid() && b.Good(api) && b.finalizer
    requires SoundRendering(b.key, b.spec, Plans(plan)) && Manifest.IsDigest(digest(plan.spiffeID))
    requires Covering(api.rules) && b.Record().Pending? ==> b.Synced(api)
    requires Excluding(api.rules) ==> Sole(api.focus, api.s, b)
    requires Fencing(api.rules) ==> Unlodged(api.focus, api.s, b)
    requires Reservable(api.focus, b.origin)
    modifies api, b
    ensures api.Valid() && api.focus == old(api.focus)
    ensures old(api.Calm() && Spawning(api, b, DesiredName(b.key, plan, digest)) && Aligned(b.Record(), DesiredName(b.key, plan, digest))) ==>
              && Spawned(old(api.s), api.s, b.key, DesiredName(b.key, plan, digest), DesiredOutput(config, b.key, plan, digest).spec)
              && Booked(old(api.s), api.s, b.key, DesiredName(b.key, plan, digest), old(ClaimOf(b.Record())), old(Fresh(api, b)))
    ensures old(api.Calm() && b.Record().Unclaimed? && Outdated(api.s, b.origin)) ==> OnlyBinding(old(api.s), api.s, b.key)
    ensures var desired := DesiredOutput(config, b.key, plan, digest);
            && old(api.Calm() && Fresh(api, b) && Configured(b.status, config))
            && old(Slot(api.s, b.Record(), desired.name) && Unheld(api.s, b.Record())) ==>
              && err.None? && !requeue && api.Calm() && Local(old(api.s), api.s, b.key)
              && InForce(config, api.s, b.key, old(b.generation), plan, desired)
    ensures var desired := DesiredOutput(config, b.key, plan, digest);
            && old(api.Calm() && Fresh(api, b) && Configured(b.status, config))
            && old(InForce(config, api.s, b.key, b.generation, plan, desired)) ==>
              err.None? && api.s == old(api.s)
  {
    hide GoodTrace, Inv, Frame, Follows, Selection.Bounds, Local, Sole, Unlodged, AllCalm, DesiredName, SameView, Slot, Unheld, InForce,
         RecordOf, WorkingCopy, Spawned, Booked, OnlyBinding;
    RecordInMemory(b);
    requeue := false;
    var desired := DesiredOutput(config, b.key, plan, digest);
    DesiredIsNamed(config, b.key, plan, digest);
    ghost var start, record := api.s, b.Record();
    ghost var calm := api.Calm() && Fresh(api, b) && Slot(api.s, b.Record(), desired.name) && Unheld(api.s, b.Record())
                      && Configured(b.status, config);
    if Fresh(api, b) && InForce(config, api.s, b.key, b.generation, plan, desired) {
      InForceNamed(config, api.s, b.key, b.generation, plan, desired);
    }
    var ready;
    ready, requeue, err := GiveUpName(api, b, desired.name);
    if !ready { return; }
    ghost var mid := api.s;
    requeue, err := Apply(api, config, b, plan, desired);
    if calm { LocalTransitive(start, mid, api.s, b.key); }
  }

  // Gives up output under another name, and waits for it to go.
  method GiveUpName(api: Cluster, b: Binding, name: string) returns (ready: bool, requeue: bool, err: Option<Err>)
    requires api.Valid() && b.Good(api) && Reservable(api.focus, b.origin)
    requires Covering(api.rules) && b.Record().Pending? ==> b.Synced(api)
    requires Excluding(api.rules) ==> Sole(api.focus, api.s, b)
    requires Fencing(api.rules) ==> Unlodged(api.focus, api.s, b)
    modifies api, b
    ensures api.Valid() && api.focus == old(api.focus)
    ensures ready ==> b.Good(api) && b.spec == old(b.spec) && b.finalizer == old(b.finalizer) && b.generation == old(b.generation)
    ensures ready ==> SameSettings(b.status, old(b.status)) && Aligned(b.Record(), name) && Reservable(api.focus, b.origin)
    ensures ready && Covering(api.rules) && b.Record().Pending? ==> b.Synced(api)
    ensures ready && Excluding(api.rules) ==> Sole(api.focus, api.s, b)
    ensures ready && Fencing(api.rules) ==> Unlodged(api.focus, api.s, b)
    ensures old(Aligned(b.Record(), name)) ==> ready && api.s == old(api.s) && b.status == old(b.status) && b.origin == old(b.origin)
    ensures old(api.Calm()) && ready ==> api.Calm()
    ensures old(api.Calm() && Fresh(api, b) && Unheld(api.s, b.Record())) ==>
              ready && Fresh(api, b) && Local(old(api.s), api.s, b.key) && (old(Slot(api.s, b.Record(), name)) ==> Slot(api.s, b.Record(), name))
  {
    hide GoodTrace, Inv, Frame, Follows, Local, Extinct, Outdated, Vacant, AllCalm, SameView, Slot, Unheld, RecordOf, WorkingCopy;
    ready, requeue := false, false;
    ghost var start, record := api.s, b.Record();
    ghost var slot := Slot(start, record, name);
    var pending;
    pending, err := CleanupChangedName(api, b, name);
    if err.Some? {
      var cause := PatchApplyFailure(api, b, err.value);
      return false, false, Some(cause);
    }
    if pending {
      ApplyWaiting(b, WaitingForReplacement, false);
      ConsistentIsOK(b.status);
      err := PatchStatus(api, b);
      return false, err.None?, err;
    }
    if Excluding(api.rules) { SoleThen(api.focus, start, api.s, b, old(b.origin), record); }
    if Fencing(api.rules) { UnlodgedThen(api.focus, start, api.s, b, old(b.origin), record); }
    ViewSettings(b.status, old(b.status));
    if slot && Local(start, api.s, b.key) && !record.Unclaimed? && record.name != name {
      SlotKept(api.rules, start, api.s, b.key, record, b.Record(), name);
    }
    ready := true;
  }

  // Apply would not have to give up another name first.
  predicate Aligned(r: Record, name: string) {
    r.Unclaimed? || r.name == name
  }

  // Giving up the old name leaves the binding alone among its rivals.
  lemma SoleThen(f: Focus, a: State, c: State, b: Binding, o: Stored, record: Record)
    requires Frame(a, c) && ((f.key == Some(b.key) && f.listed && Extinct(a, f.rivals)) || (Outdated(a, o) && !record.Pending?))
    requires Outdated(a, o) ==> b.origin == o && b.Record() == record
    ensures Sole(f, c, b)
  {
    if Extinct(a, f.rivals) { ExtinctIn(a, c, f.rivals); }
    if Outdated(a, o) { OutdatedStable(a, c, o); }
  }

  lemma UnlodgedThen(f: Focus, a: State, c: State, b: Binding, o: Stored, record: Record)
    requires Frame(a, c) && f.key == Some(b.key) && f.listed && Coincide(f.seen, b.spec)
    requires !Vacant(a, b.key) || record.Pending? || !Outdated(a, o) ==> Extinct(a, f.lodgers)
    requires (Outdated(a, o) ==> b.origin == o) && (b.Record().Pending? ==> record.Pending?)
    ensures Unlodged(f, c, b)
  {
    StaysVacant(a, c, b.key);
    if Extinct(a, f.lodgers) { ExtinctIn(a, c, f.lodgers); }
    if Outdated(a, o) { OutdatedStable(a, c, o); }
  }

  // Applies the desired output and publishes the result.
  method Apply(api: Cluster, config: Config, b: Binding, plan: Plan, desired: Object) returns (requeue: bool, err: Option<Err>)
    requires api.Valid() && b.Good(api) && b.finalizer && !Text.Blank(desired.name) && desired.spec.Rendered?
    requires Selection.Spells(desired.spec, b.key.namespace, b.spec.serviceAccount, b.spec.variant)
    requires Aligned(b.Record(), desired.name)
    requires Covering(api.rules) && b.Record().Pending? ==> b.Synced(api)
    requires Excluding(api.rules) ==> Sole(api.focus, api.s, b)
    requires Fencing(api.rules) ==> Unlodged(api.focus, api.s, b)
    requires Reservable(api.focus, b.origin)
    modifies api, b
    ensures api.Valid() && api.focus == old(api.focus)
    ensures old(api.Calm() && Spawning(api, b, desired.name)) ==>
              && Spawned(old(api.s), api.s, b.key, desired.name, desired.spec)
              && Booked(old(api.s), api.s, b.key, desired.name, old(ClaimOf(b.Record())), old(Fresh(api, b)))
    ensures old(api.Calm() && b.Record().Unclaimed? && Outdated(api.s, b.origin)) ==> OnlyBinding(old(api.s), api.s, b.key)
    ensures old(api.Calm() && Fresh(api, b) && Slot(api.s, b.Record(), desired.name) && Configured(b.status, config)) ==>
              && err.None? && !requeue && api.Calm() && Local(old(api.s), api.s, b.key)
              && InForce(config, api.s, b.key, old(b.generation), plan, desired)
    ensures old(api.Calm() && Fresh(api, b) && Configured(b.status, config))
            && old(InForce(config, api.s, b.key, b.generation, plan, desired)) ==>
              err.None? && api.s == old(api.s)
  {
    hide GoodTrace, Inv, Frame, Follows, Selection.Spells, Local, Sole, Unlodged, AllCalm, InForce, InPlace, Applied, OnlyBinding, RecordOf, WorkingCopy, Slot,
         Spawned, Booked, Outdated;
    RecordInMemory(b);
    requeue := false;
    ghost var start := api.s;
    ghost var calm := api.Calm() && Fresh(api, b) && Slot(api.s, b.Record(), desired.name) && Configured(b.status, config);
    ghost var done := api.Calm() && Fresh(api, b) && Configured(b.status, config)
                      && InForce(config, api.s, b.key, b.generation, plan, desired);
    ghost var spawning, stored, claim := api.Calm() && Spawning(api, b, desired.name), Fresh(api, b), ClaimOf(b.Record());
    ObjectNamed(api.rules, api.s, desired.name);
    if done { InForceHasSlot(config, api.s, b.key, b.generation, plan, desired); }
    var out;
    out, err := ReconcileOutput(api, b, plan, desired);
    ghost var mid := api.s;
    if err.Some? {
      requeue, err := ReportUnapplied(api, b, err.value);
      if spawning { SpawnedThen(start, mid, api.s, b.key, desired.name, desired.spec, claim, stored); }
      OnlyTransitive(start, mid, api.s, b.key);
      return;
    }
    err := PublishSuccess(api, config, b, plan, desired, out);
    if spawning { SpawnedThen(start, mid, api.s, b.key, desired.name, desired.spec, claim, stored); }
    if calm { LocalThenOnly(start, mid, api.s, b.key); }
  }

  // Reports that the output could not be applied.
  method ReportUnapplied(api: Cluster, b: Binding, cause: Err) returns (requeue: bool, err: Option<Err>)
    requires api.Valid() && b.Good(api)
    modifies api, b
    ensures api.Valid() && api.focus == old(api.focus)
    ensures old(api.Calm()) && cause != Api(NoMatch) ==> OnlyBinding(old(api.s), api.s, b.key) && StoredRecord(api.s, b.key) == old(StoredRecord(api.s, b.key))
  {
    hide GoodTrace, Inv, Frame, Follows, OnlyBinding, RecordOf, WorkingCopy, AllCalm, SameView, FailureStatus;
    if cause == Api(NoMatch) {
      requeue, err := ReportStateError(api, b, StateError(RenderFailure, ClusterSPIFFEIDCRDMissing, "ClusterSPIFFEID CRD is not installed"));
      return;
    }
    var failed := PatchApplyFailure(api, b, cause);
    return false, Some(failed);
  }

  lemma RecordInMemory(b: Binding)
    requires b.Tied()
    ensures RecordOf(b.origin.status) == b.Record()
  {
  }

  method PublishSuccess(api: Cluster, config: Config, b: Binding, plan: Plan, ghost desired: Object, out: RenderedOutput) returns (err: Option<Err>)
    requires api.Valid() && b.Tied()
    modifies api, b
    ensures api.Valid() && api.focus == old(api.focus) && SameRecords(old(api.s), api.s)
    ensures old(api.Calm()) ==> OnlyBinding(old(api.s), api.s, b.key)
    ensures old(api.Calm() && Fresh(api, b) && Configured(b.status, config) && Applied(api.s, b.Record(), plan, desired, out)) ==>
              && err.None? && api.Calm() && OnlyBinding(old(api.s), api.s, b.key)
              && InForce(config, api.s, b.key, old(b.generation), plan, desired)
              && (InForce(config, old(api.s), b.key, old(b.generation), plan, desired) ==> api.s == old(api.s))
  {
    hide GoodTrace, Inv, Frame, SuccessStatus, Consistent, InForce, Applied, Published, OnlyBinding, RecordOf;
    if Fresh(api, b) && Configured(b.status, config) && Applied(api.s, b.Record(), plan, desired, out) {
      ReadyToPublish(config, api.s, b.key, b.status, b.generation, plan, desired, out);
    }
    ghost var start := api.s;
    OnlyReflexive(start, b.key);
    if b.key in start.bindings { StoredVersion(api.rules, start, b.key); }
    ApplySuccess(b, plan, out);
    ConsistentIsOK(b.status);
    if b.key in start.bindings { PublishedOnly(start, b.key, b.status); }
    err := PatchStatus(api, b);
  }

  // What an undisturbed reconcile does, by the state it starts from: a ripe binding
  // settles, a settled one is left alone, a deleting one is released, a failing one
  // reports its failure, and a clashing one settles its conflict.
  ghost predicate Expected(config: Config, a: State, b: State, key: Key, digest: string -> string, requeue: bool, err: Option<Err>) {
    && (Ripe(config, a, key, digest) ==> err.None? && !requeue && Ripens(config, a, b, key, digest))
    && (Settled(config, a, key, digest) ==> err.None? && b == a)
    && (Leaving(a, key) ==> err.None? && !requeue && Released(b, key))
    && (Failing(config, a, key) ==> err.None? && Reports(config, a, b, key))
    && (Clashing(config, a, key) ==> err.None? && !requeue && Settles(config, a, b, key))
  }

  // From a to b the binding settled. If its peers were at rest, nothing else changed; if
  // it had no output at the desired name, exactly the desired one was created.
  ghost predicate Ripens(config: Config, a: State, b: State, key: Key, digest: string -> string) {
    && Eligible(config, a, key) && Settled(config, b, key, digest) && (PeersResting(config, a, key) ==> Private(a, b, key))
    && var desired := DesiredOutput(config, key, PlanOf(config, a, key), digest);
       Opening(a, key, desired.name) ==> Spawned(a, b, key, desired.name, desired.spec)
  }

  lemma RipensBefore(config: Config, a: State, b: State, key: Key, digest: string -> string)
    requires Ripe(config, a, key, digest) && a.bindings[key].key == key
    ensures Ripens(config, Put(a, a.bindings[key].(finalizer := true)), b, key, digest) ==> Ripens(config, a, b, key, digest)
  {
    hide Settled, PeersResting, Private, DesiredOutput, RenderingOf, Spawned;
    var v := a.bindings[key].(finalizer := true);
    RipeFacts(config, a, key, digest);
    EligibleKept(config, a, Put(a, v), key);
    if Ripens(config, Put(a, v), b, key, digest) {
      if PeersResting(config, a, key) { RestingWithFinalizer(config, a, key); PrivateBefore(a, v, b); }
      var desired := DesiredOutput(config, key, PlanOf(config, a, key), digest);
      if Opening(a, key, desired.name) { SpawnedBefore(a, v, b, desired.name, desired.spec); }
    }
  }

  lemma SpawnedBefore(a: State, v: Stored, b: State, n: string, spec: ObjectSpec)
    requires v.key in a.bindings && v == a.bindings[v.key].(finalizer := v.finalizer) && Spawned(Put(a, v), b, v.key, n, spec)
    ensures Spawned(a, b, v.key, n, spec)
  {
  }

  // From a to b only the metadata and status of binding k and the objects created
  // for it changed.
  ghost predicate Private(a: State, b: State, k: Key) {
    && a.pools == b.pools
    && (forall j | j != k :: (j in a.bindings <==> j in b.bindings) && (j in a.bindings ==> a.bindings[j] == b.bindings[j]))
    && (k in a.bindings ==> k in b.bindings && b.bindings[k].spec == a.bindings[k].spec && b.bindings[k].deleting == a.bindings[k].deleting)
    && (forall u | u in a.created :: u in b.created && b.created[u] == a.created[u])
    && (forall n | n in a.objects && !Owns(b, k, a.objects[n].uid) :: n in b.objects && b.objects[n] == a.objects[n])
    && (forall n | n in b.objects && !Owns(b, k, b.objects[n].uid) :: n in a.objects && b.objects[n] == a.objects[n])
  }

  lemma LocalIsPrivate(a: State, b: State, k: Key)
    requires Local(a, b, k)
    ensures Private(a, b, k)
  {
  }

  lemma PrivateBefore(a: State, v: Stored, b: State)
    requires v.key in a.bindings && v == a.bindings[v.key].(finalizer := v.finalizer) && Private(Put(a, v), b, v.key)
    ensures Private(a, b, v.key)
  {
  }

  lemma ExpectedOfNothing(config: Config, a: State, b: State, key: Key, digest: string -> string, requeue: bool, err: Option<Err>)
    requires key !in a.bindings
    ensures Expected(config, a, b, key, digest, requeue, err)
  {
  }

  lemma ExpectedOfDeleting(config: Config, a: State, b: State, key: Key, digest: string -> string, requeue: bool, err: Option<Err>)
    requires key in a.bindings && a.bindings[key].deleting
    requires a.bindings[key].finalizer && Unheld(a, StoredRecord(a, key)) ==> err.None? && !requeue && Released(b, key)
    ensures Expected(config, a, b, key, digest, requeue, err)
  {
    hide Unheld, Released, StoredRecord;
  }

  // One reconcile. It keeps the run safe under any interference, and does what is
  // expected when undisturbed.
  method Reconcile(api: Cluster, config: Config, key: Key, digest: string -> string) returns (requeue: bool, err: Option<Err>)
    requires api.Valid() && forall s: string :: Manifest.IsDigest(digest(s))
    modifies api
    ensures api.Valid()
    ensures old(api.Calm()) ==> Expected(config, old(api.s), api.s, key, digest, requeue, err)
    ensures old(api.Calm() && Ripe(config, api.s, key, digest)) ==> api.Calm()
    ensures old(Overtaken(api)) ==>
              var read := old(AfterTurn(api.rules, NO_FOCUS, api.s, api.script[0]));
              var r := Cached(api.rules, read, old(api.script)[0].cached, key);
              r.Ok? ==> Raced(config, r.value, AfterTurn(api.rules, Reading(key, r.value.spec), read, old(api.script)[1]), api.s, digest)
  {
    hide GoodTrace, Inv, Frame, Steady, Follows, Manifest.IsDigest, Ripe, Rely, Expected, Raced, Reading, AllCalm, Played, Cached;
    ghost var start, calm := api.s, api.Calm();
    ghost var racing, turns := Overtaken(api), api.script;
    api.focus := NO_FOCUS;
    var r := api.GetBinding(key);
    assert racing ==> turns[1..][1..] == turns[2..];
    if calm && Ripe(config, start, key, digest) { RipeFacts(config, start, key, digest); EligibleIs(config, start, key); }
    if r.Err? {
      if calm { ExpectedOfNothing(config, start, api.s, key, digest, false, None); }
      return false, if r.err.NotFound? then None else Some(Api(r.err));
    }
    api.focus := Reading(key, r.value.spec);
    requeue, err := ReconcileRead(api, config, r.value, digest);
  }

  // Goes on from the version v that was read first.
  method ReconcileRead(api: Cluster, config: Config, v: Stored, digest: string -> string) returns (requeue: bool, err: Option<Err>)
    requires api.Valid() && v in api.s.past && (api.rules.current ==> v.key in api.s.bindings && api.s.bindings[v.key] == v)
    requires api.focus == Reading(v.key, v.spec) && forall s: string :: Manifest.IsDigest(digest(s))
    modifies api
    ensures api.Valid()
    ensures old(api.Calm() && v.key in api.s.bindings && api.s.bindings[v.key] == v) ==> Expected(config, old(api.s), api.s, v.key, digest, requeue, err)
    ensures old(api.Calm() && v.key in api.s.bindings && api.s.bindings[v.key] == v && Ripe(config, api.s, v.key, digest)) ==> api.Calm()
    ensures old(Interrupted(api)) ==> Raced(config, v, old(AfterTurn(api.rules, api.focus, api.s, api.script[0])), api.s, digest)
  {
    hide GoodTrace, Inv, Frame, Steady, Follows, Manifest.IsDigest, Ripe, Expected, RecordOf, WorkingCopy, Raced, Reading, AllCalm, Played;
    var b := new Binding(v);
    JustRead(api.rules, api.focus, api.s, v);
    RecordInMemory(b);
    if b.deleting {
      requeue, err := ReconcileDeleting(api, config, b, digest);
    } else {
      requeue, err := ReconcileLive(api, config, b, digest);
    }
  }

  // A binding that is being deleted.
  method ReconcileDeleting(api: Cluster, config: Config, b: Binding, digest: string -> string) returns (requeue: bool, err: Option<Err>)
    requires api.Valid() && b.Good(api) && b.deleting
    modifies api, b
    ensures api.Valid()
    ensures old(api.Calm() && Fresh(api, b)) ==>
              Expected(config, old(api.s), api.s, b.key, digest, requeue, err) && !Ripe(config, old(api.s), b.key, digest)
    ensures old(Interrupted(api)) ==> Raced(config, old(b.origin), old(AfterTurn(api.rules, api.focus, api.s, api.script[0])), api.s, digest)
  {
    hide GoodTrace, Inv, Frame, Steady, Follows, Ripe, Expected, Released, Unheld, RecordOf, WorkingCopy, Raced, AllCalm, Played, Anchored, Retained;
    ghost var start, v := api.s, b.origin;
    ghost var calm, racing := api.Calm() && Fresh(api, b), Interrupted(api);
    ghost var raced := if racing then AfterTurn(api.rules, api.focus, start, api.script[0]) else start;
    FreshRecord(api, b);
    requeue, err := ReconcileDelete(api, b);
    if calm {
      ExpectedOfDeleting(config, start, api.s, b.key, digest, requeue, err);
      if Ripe(config, start, b.key, digest) { RipeFacts(config, start, b.key, digest); EligibleIs(config, start, b.key); }
    }
    if racing { DeletingIsNoRace(config, v, raced, digest); NoRace(config, v, raced, api.s, digest); }
  }

  // Others act before the next two calls, which are served, and not after them.
  predicate Overtaken(api: Cluster)
    reads api
  {
    && !api.stopped && |api.script| >= 2 && api.script[0].fault.Fine? && !api.script[0].stops
    && api.script[1].fault.Fine? && !api.script[1].stops && AllCalm(api.script[2..])
  }

  lemma EligibleIs(config: Config, s: State, key: Key)
    requires Eligible(config, s, key)
    ensures key in s.bindings && !s.bindings[key].deleting
  {
  }

  // A deleting binding whose output no foreign finalizer holds.
  predicate Leaving(s: State, key: Key) {
    key in s.bindings && s.bindings[key].deleting && s.bindings[key].finalizer && Unheld(s, StoredRecord(s, key))
  }

  // A binding that cannot be rendered.
  ghost predicate Failing(config: Config, s: State, key: Key) {
    key in s.bindings && !s.bindings[key].deleting && Unheld(s, StoredRecord(s, key))
    && OwnRendering(config, s, key, s.bindings[key].spec).Fails?
  }

  // From a to b the failure became the status and the output was given up.
  ghost predicate Reports(config: Config, a: State, b: State, key: Key) {
    && key in a.bindings && OwnRendering(config, a, key, a.bindings[key].spec).Fails? && Unowned(b, key)
    && b.bindings[key].status
       == FailureStatus(b.bindings[key].status, a.bindings[key].generation, OwnRendering(config, a, key, a.bindings[key].spec).error)
  }

  // A binding that renders but is not exclusive with all its peers.
  ghost predicate Clashing(config: Config, s: State, key: Key) {
    Eligible(config, s, key) && Contested(config, s, SelfOf(config, s, key), PlanOf(config, s, key))
  }

  // From a to b the conflict of `key` was settled and names exactly its rivals.
  ghost predicate Settles(config: Config, a: State, b: State, key: Key) {
    Eligible(config, a, key)
    && ClashReported(config, a, b, SelfOf(config, a, key), PlanOf(config, a, key), a.bindings[key].generation)
  }

  lemma ClashingNow(config: Config, s: State, key: Key)
    requires Clashing(config, s, key)
    ensures Eligible(config, s, key) && Contested(config, s, SelfOf(config, s, key), PlanOf(config, s, key))
    ensures SelfOf(config, s, key) == VariantRecordOf(key, s.bindings[key].spec, PlanOf(config, s, key))
  {
    hide Contested, RenderingOf;
  }

  // Adding the finalizer changes neither the conflict nor who takes part in it.
  ghost predicate SamePeers(a: State, b: State, key: Key) {
    && a.pools == b.pools && a.objects == b.objects && a.created == b.created
    && (forall j :: j in a.bindings <==> j in b.bindings) && (forall j | j in a.bindings && j != key :: b.bindings[j] == a.bindings[j])
    && (key in a.bindings ==> b.bindings[key].spec == a.bindings[key].spec && b.bindings[key].deleting == a.bindings[key].deleting
                              && b.bindings[key].generation == a.bindings[key].generation && b.bindings[key].key == a.bindings[key].key)
  }

  lemma SameClash(config: Config, a: State, b: State, self: VariantRecord, plan: Plan, j: Key)
    requires SamePeers(a, b, self.ref) && j in a.bindings && j != self.ref
    ensures ClashWith(config, a, self, plan, j) == ClashWith(config, b, self, plan, j)
    ensures StandingIn(config, a, self.ref, plan, a.bindings[j]) == StandingIn(config, b, self.ref, plan, b.bindings[j])
  {
    StandingFrom(config, a, b, self.ref, plan, a.bindings[j]);
    hide StandingIn;
  }

  lemma ClashingKept(config: Config, s: State, key: Key)
    requires Clashing(config, s, key) && s.bindings[key].key == key
    ensures var t := Put(s, s.bindings[key].(finalizer := true)); Clashing(config, t, key) && SamePeers(s, t, key)
    ensures SamePeers(s, s, key)
  {
    hide RenderingOf, VariantRecordOf, ClashWith;
    var t := Put(s, s.bindings[key].(finalizer := true));
    EligibleKept(config, s, t, key);
    SelfRef(config, s, key);
    var self, plan := SelfOf(config, s, key), PlanOf(config, s, key);
    NothingHeldKept(s, t, key.namespace);
    forall j | j in t.bindings && j.namespace == key.namespace && j != key
      ensures ClashWith(config, t, self, plan, j) == ClashWith(config, s, self, plan, j)
      ensures StandingIn(config, t, key, plan, t.bindings[j]) == StandingIn(config, s, key, plan, s.bindings[j])
    {
      SameClash(config, s, t, self, plan, j);
    }
    var j :| IsPeer(s, key, j) && ClashWith(config, s, self, plan, j).Some?;
    assert IsPeer(t, key, j);
  }

  lemma SettlesNow(config: Config, a: State, m: State, b: State, key: Key)
    requires Eligible(config, a, key) && SamePeers(a, m, key) && Eligible(config, m, key)
    requires ClashReported(config, m, b, SelfOf(config, m, key), PlanOf(config, m, key), m.bindings[key].generation)
    ensures Settles(config, a, b, key)
  {
    hide RenderingOf, VariantRecordOf, ClashWith, ConflictStatus, StoredRecord;
    EligibleKept(config, a, m, key);
    SelfRef(config, a, key);
    var self, plan := SelfOf(config, a, key), PlanOf(config, a, key);
    forall j | IsPeer(a, key, j) ensures IsPeer(m, key, j) && ClashWith(config, m, self, plan, j) == ClashWith(config, a, self, plan, j) {
      SameClash(config, a, m, self, plan, j);
    }
    forall j | IsPeer(m, key, j) ensures IsPeer(a, key, j) {}
    forall e ensures (exists j :: IsPeer(m, key, j) && ClashEntry(config, m, self, plan, j) == Some(e))
                     <==> exists j :: IsPeer(a, key, j) && ClashEntry(config, a, self, plan, j) == Some(e)
    {
      SameEntries(config, a, m, self, plan, e);
    }
  }

  lemma SameEntries(config: Config, a: State, m: State, self: VariantRecord, plan: Plan, e: ConflictEntry)
    requires forall j :: IsPeer(a, self.ref, j) <==> IsPeer(m, self.ref, j)
    requires forall j | IsPeer(a, self.ref, j) && IsPeer(m, self.ref, j) :: ClashWith(config, m, self, plan, j) == ClashWith(config, a, self, plan, j)
    ensures (exists j :: IsPeer(m, self.ref, j) && ClashEntry(config, m, self, plan, j) == Some(e))
            <==> exists j :: IsPeer(a, self.ref, j) && ClashEntry(config, a, self, plan, j) == Some(e)
  {
    hide ClashWith;
    if exists j :: IsPeer(m, self.ref, j) && ClashEntry(config, m, self, plan, j) == Some(e) {
      var j :| IsPeer(m, self.ref, j) && ClashEntry(config, m, self, plan, j) == Some(e);
      assert IsPeer(a, self.ref, j) && ClashEntry(config, a, self, plan, j) == Some(e);
    }
    if exists j :: IsPeer(a, self.ref, j) && ClashEntry(config, a, self, plan, j) == Some(e) {
      var j :| IsPeer(a, self.ref, j) && ClashEntry(config, a, self, plan, j) == Some(e);
      assert IsPeer(m, self.ref, j) && ClashEntry(config, m, self, plan, j) == Some(e);
    }
  }

  // A binding that is not being deleted.
  method ReconcileLive(api: Cluster, config: Config, b: Binding, digest: string -> string) returns (requeue: bool, err: Option<Err>)
    requires api.Valid() && b.Good(api) && !b.deleting && b.status == b.origin.status && api.focus == Reading(b.key, b.spec)
    requires (Covering(api.rules) ==> b.Synced(api)) && forall s: string :: Manifest.IsDigest(digest(s))
    modifies api, b
    ensures api.Valid()
    ensures old(api.Calm() && Fresh(api, b)) ==> Expected(config, old(api.s), api.s, b.key, digest, requeue, err)
    ensures old(api.Calm() && Fresh(api, b) && Ripe(config, api.s, b.key, digest)) ==> api.Calm()
    ensures old(Interrupted(api)) ==> Raced(config, old(b.origin), old(AfterTurn(api.rules, api.focus, api.s, api.script[0])), api.s, digest)
  {
    hide GoodTrace, Inv, Frame, Steady, Follows, Manifest.IsDigest, Ripe, Expected, Put, Raced, Played, Reading, RecordOf, WorkingCopy;
    requeue := false;
    ghost var start, focus := api.s, api.focus;
    ghost var calm := api.Calm() && Fresh(api, b);
    ghost var racing, v := Interrupted(api), b.origin;
    ghost var raced := if racing then AfterTurn(api.rules, focus, start, api.script[0]) else start;
    DecodesHere(api, b);
    if racing && !b.finalizer { UnclaimedIsNoRace(api.rules, config, start, v, raced, digest); }
    var had := b.finalizer;
    err := EnsureFinalizer(api, b);
    if err.Some? {
      if racing { NoRace(config, v, raced, api.s, digest); }
      return;
    }
    if calm && Ripe(config, start, b.key, digest) { RipeWithFinalizer(config, start, b.key, digest); }
    requeue, err := ReconcileComputed(api, config, b, digest);
    if calm && !had { ExpectedBefore(config, start, api.s, b.key, digest, requeue, err); }
    if racing && !had { NoRace(config, v, raced, api.s, digest); }
  }

  lemma DeletingIsNoRace(config: Config, v: Stored, m: State, digest: string -> string)
    requires v.deleting
    ensures !Resumable(config, v, m, digest)
  {
  }

  // Without a finalizer there is no claim to resume.
  lemma UnclaimedIsNoRace(r: Rules, config: Config, s: State, v: Stored, m: State, digest: string -> string)
    requires Inv(r, s) && v in s.past && !v.finalizer
    ensures !Resumable(config, v, m, digest)
  {
    hide Covered, Exclusive, Walled, ObjectsOK, ClaimsOK, EffectsOK, RecordOf, RenderingOf, PeersHarmless, DesiredName;
  }

  lemma NoRace(config: Config, v: Stored, m: State, b: State, digest: string -> string)
    requires !Resumable(config, v, m, digest)
    ensures Raced(config, v, m, b, digest)
  {
    hide Resumable;
  }

  // What is expected of the binding with its finalizer is expected of it before.
  lemma ExpectedBefore(config: Config, a: State, b: State, key: Key, digest: string -> string, requeue: bool, err: Option<Err>)
    requires key in a.bindings && a.bindings[key].key == key && !a.bindings[key].deleting && !a.bindings[key].finalizer
    requires Expected(config, Put(a, a.bindings[key].(finalizer := true)), b, key, digest, requeue, err)
    ensures Expected(config, a, b, key, digest, requeue, err)
  {
    hide Ripe, Ripens, Settled, Failing, Clashing, Settles, Put, Reports;
    var m := Put(a, a.bindings[key].(finalizer := true));
    if Settled(config, a, key, digest) { SettledHasFinalizer(config, a, key, digest); }
    if Ripe(config, a, key, digest) {
      RipeWithFinalizer(config, a, key, digest);
      RipensBefore(config, a, b, key, digest);
    }
    if Failing(config, a, key) { FailingKept(config, a, key); ReportsBefore(config, a, b, key); }
    if Clashing(config, a, key) { ClashingKept(config, a, key); SettlesBefore(config, a, b, key); }
  }

  lemma RestingWithFinalizer(config: Config, s: State, key: Key)
    requires key in s.bindings && s.bindings[key].key == key && PeersResting(config, s, key)
    ensures PeersResting(config, Put(s, s.bindings[key].(finalizer := true)), key)
  {
    hide Resting, Harmless;
    var t, self := Put(s, s.bindings[key].(finalizer := true)), VariantRecord(key, "", "", "");
    forall j | IsPeer(t, key, j) ensures Resting(config, t, j) {
      assert IsPeer(s, key, j);
      SameForPeer(config, s, t, self, j);
    }
  }

  lemma ReportsBefore(config: Config, a: State, b: State, key: Key)
    requires Failing(config, a, key) && a.bindings[key].key == key
    ensures Reports(config, Put(a, a.bindings[key].(finalizer := true)), b, key) ==> Reports(config, a, b, key)
  {
    hide FailureStatus, Unowned, Unheld, OwnRendering;
    FailingKept(config, a, key);
  }

  lemma SettlesBefore(config: Config, a: State, b: State, key: Key)
    requires Clashing(config, a, key) && a.bindings[key].key == key
    ensures Settles(config, Put(a, a.bindings[key].(finalizer := true)), b, key) ==> Settles(config, a, b, key)
  {
    hide ClashReported, Contested, RenderingOf, SelfOf, PlanOf, SamePeers;
    var m := Put(a, a.bindings[key].(finalizer := true));
    ClashingKept(config, a, key);
    hide Put;
    if Settles(config, m, b, key) { SettlesNow(config, a, m, b, key); }
  }

  // Renders the binding and goes on to the conflict phase, or reports why not.
  method ReconcileComputed(api: Cluster, config: Config, b: Binding, digest: string -> string) returns (requeue: bool, err: Option<Err>)
    requires api.Valid() && b.Good(api) && !b.deleting && b.finalizer && b.status == b.origin.status && api.focus == Reading(b.key, b.spec)
    requires (Covering(api.rules) ==> b.Synced(api)) && forall s: string :: Manifest.IsDigest(digest(s))
    modifies api, b
    ensures api.Valid()
    ensures old(api.Calm() && Fresh(api, b)) ==> Expected(config, old(api.s), api.s, b.key, digest, requeue, err)
    ensures old(api.Calm() && Fresh(api, b) && Ripe(config, api.s, b.key, digest)) ==> api.Calm()
    ensures old(Interrupted(api)) ==> Raced(config, old(b.origin), old(AfterTurn(api.rules, api.focus, api.s, api.script[0])), api.s, digest)
  {
    hide GoodTrace, Inv, Frame, Steady, Follows, Manifest.IsDigest, Initialized, Ripe, Expected, OwnRendering, RenderingOf, Resumable, Resumed, Played, NoOrphans,
         Resuming, AllCalm, SoundRendering, WorkingCopy, RecordOf;
    ghost var start, v := api.s, b.origin;
    ghost var racing := Interrupted(api);
    ghost var raced := if racing then AfterTurn(api.rules, api.focus, start, api.script[0]) else start;
    RecordInMemory(b);
    Prepare(b, config);
    RecordInMemory(b);
    var rendering := ComputeDesiredState(api, config, b);
    if racing && Resumable(config, v, raced, digest) { ResumableRenders(config, v, raced, digest); ResumableIs(config, v, raced, b, rendering, digest); }
    requeue, err := ReconcileRendered(api, config, b, rendering, digest);
  }

  // Goes on with what was rendered: the conflict phase and apply, or a report.
  method ReconcileRendered(api: Cluster, config: Config, b: Binding, rendering: Rendering, digest: string -> string) returns (requeue: bool, err: Option<Err>)
    requires api.Valid() && b.Good(api) && !b.deleting && b.finalizer && api.focus == Reading(b.key, b.spec) && SoundRendering(b.key, b.spec, rendering)
    requires (Covering(api.rules) ==> b.Synced(api)) && forall s: string :: Manifest.IsDigest(digest(s))
    modifies api, b
    ensures api.Valid()
    ensures old(api.Calm() && Fresh(api, b) && Configured(b.status, config)) && rendering == OwnRendering(config, old(api.s), b.key, old(b.spec)) ==>
              && Expected(config, old(api.s), api.s, b.key, digest, requeue, err)
              && (Ripe(config, old(api.s), b.key, digest) ==> api.Calm())
    ensures rendering.Plans? && old(api.Calm() && Resuming(config, api.s, b, rendering.plan, digest)) ==>
              Resumed(old(api.s), api.s, b.key, old(b.Record()), DesiredOutput(config, b.key, rendering.plan, digest).spec)
  {
    hide GoodTrace, Inv, Frame, Steady, Follows, Selection.Bounds, Manifest.IsDigest, Ripe, Settled, PlanOf, RenderingOf, DesiredOutput, Spawned,
         Clashing, Settles, Contested, ClashReported, SelfOf, VariantRecordOf, PeersResting, Private, Local, Resumed, Resuming, AllCalm, Opening, RecordOf, Eligible,
         Ripens, WorkingCopy, StoredRecord, Unheld, DesiredName, FailureStatus;
    requeue := false;
    ghost var start, key := api.s, b.key;
    ghost var calm := api.Calm() && Fresh(api, b) && Configured(b.status, config) && rendering == OwnRendering(config, start, b.key, b.spec);
    FreshRecord(api, b);
    if calm { RenderedCases(config, start, b.key, rendering, digest); }
    if rendering.Fails? {
      requeue, err := ReportStateError(api, b, rendering.error);
      return;
    }
    if rendering.Breaks? { return false, Some(rendering.err); }
    requeue, err := ReconcilePlanned(api, config, b, rendering.plan, digest);
    if calm && Ripe(config, start, key, digest) { RipensNow(config, start, api.s, key, rendering.plan, digest); }
    if calm && Clashing(config, start, key) { SettlesAt(config, start, api.s, key); }
  }

  // What was rendered tells which case the binding is in.
  lemma RenderedCases(config: Config, s: State, key: Key, rendering: Rendering, digest: string -> string)
    requires key in s.bindings && !s.bindings[key].deleting && s.bindings[key].key == key && rendering == OwnRendering(config, s, key, s.bindings[key].spec)
    ensures !Leaving(s, key) && (Failing(config, s, key) ==> rendering.Fails?)
    ensures Ripe(config, s, key, digest) || Settled(config, s, key, digest) || Clashing(config, s, key) ==>
              Eligible(config, s, key) && rendering == Plans(PlanOf(config, s, key))
    ensures Clashing(config, s, key) ==>
              && Contested(config, s, SelfOf(config, s, key), PlanOf(config, s, key))
              && SelfOf(config, s, key) == VariantRecordOf(key, s.bindings[key].spec, PlanOf(config, s, key))
  {
    hide Ripe, Settled, Clashing, Contested, SelfOf, PlanOf, RenderingOf, VariantRecordOf, PoolRefOK, Render.VariantError;
    if Ripe(config, s, key, digest) { RipeFacts(config, s, key, digest); PlanIs(config, s, key); }
    if Settled(config, s, key, digest) { SettledFacts(config, s, key, digest); PlanIs(config, s, key); }
    if Clashing(config, s, key) { ClashingNow(config, s, key); PlanIs(config, s, key); }
  }

  lemma RipensNow(config: Config, a: State, b: State, key: Key, plan: Plan, digest: string -> string)
    requires Eligible(config, a, key) && plan == PlanOf(config, a, key) && Settled(config, b, key, digest) && Manifest.IsDigest(digest(plan.spiffeID))
    requires PeersResting(config, a, key) ==> Local(a, b, key)
    requires Opening(a, key, DesiredName(key, plan, digest)) ==>
               Spawned(a, b, key, DesiredName(key, plan, digest), DesiredOutput(config, key, plan, digest).spec)
    ensures Ripens(config, a, b, key, digest)
  {
    hide Eligible, PlanOf, Settled, PeersResting, Local, Private, Opening, Spawned, DesiredOutput, DesiredName, Manifest.IsDigest;
    DesiredIsNamed(config, key, plan, digest);
    if Local(a, b, key) { LocalIsPrivate(a, b, key); }
  }

  // Others act before the next call, which is served, and not after it.
  predicate Interrupted(api: Cluster)
    reads api
  {
    !api.stopped && |api.script| >= 1 && api.Served() && AllCalm(api.script[1..])
  }

  // The store after the foreign steps of a turn.
  function AfterTurn(r: Rules, f: Focus, s: State, t: Turn): State {
    Played(r, f, s, t.before)
  }

  // The version v was read first, and m is the store from the pool read on. The
  // version renders and holds a claim to the desired name, which is free, and the
  // comparison lets it pass: no peer stands in the way, or the binding is left out.
  ghost predicate Resumable(config: Config, v: Stored, m: State, digest: string -> string) {
    && !v.deleting && PoolRefOK(v.spec) && Render.VariantError(v.spec.variant).None? && RenderingOf(config, m, v.key, v.spec).Plans?
    && var plan, record := RenderingOf(config, m, v.key, v.spec).plan, RecordOf(v.status);
       && record.Pending? && record.name == DesiredName(v.key, plan, digest) && record.name !in m.objects && v.key in m.bindings
       && (PeersHarmless(config, m, VariantRecordOf(v.key, m.bindings[v.key].spec, plan)) || Overlooked(config, m, v.key, plan))
  }

  // What a reconcile that read v, and met m from the pool read on, leads to.
  ghost predicate Raced(config: Config, v: Stored, m: State, b: State, digest: string -> string) {
    Resumable(config, v, m, digest) ==>
      Resumed(m, b, v.key, RecordOf(v.status), DesiredOutput(config, v.key, RenderingOf(config, m, v.key, v.spec).plan, digest).spec)
  }

  lemma ResumableRenders(config: Config, v: Stored, m: State, digest: string -> string)
    requires Resumable(config, v, m, digest)
    ensures PoolRefOK(v.spec) && Render.VariantError(v.spec.variant).None? && RenderingOf(config, m, v.key, v.spec).Plans?
  {
  }

  lemma ResumableIs(config: Config, v: Stored, m: State, b: Binding, rendering: Rendering, digest: string -> string)
    requires Resumable(config, v, m, digest) && RenderingOf(config, m, b.key, v.spec) == rendering
    requires b.key == v.key && b.Record() == RecordOf(v.status)
    ensures rendering.Plans? && Resuming(config, m, b, rendering.plan, digest)
  {
    hide PeersHarmless, RenderingOf, DesiredName, RecordOf, Overlooked;
  }

  lemma SettlesAt(config: Config, a: State, b: State, key: Key)
    requires Clashing(config, a, key) && a.bindings[key].key == key
    requires Eligible(config, a, key)
    requires ClashReported(config, a, b, SelfOf(config, a, key), PlanOf(config, a, key), a.bindings[key].generation)
    ensures Settles(config, a, b, key)
  {
    hide ClashReported;
  }

  lemma FailingKept(config: Config, s: State, key: Key)
    requires Failing(config, s, key) && s.bindings[key].key == key
    ensures var t := Put(s, s.bindings[key].(finalizer := true));
            && Unheld(t, StoredRecord(t, key)) && OwnRendering(config, t, key, s.bindings[key].spec) == OwnRendering(config, s, key, s.bindings[key].spec)
            && StoredRecord(t, key) == StoredRecord(s, key) && Failing(config, t, key)
    ensures Unheld(s, StoredRecord(s, key)) && OwnRendering(config, s, key, s.bindings[key].spec).Fails?
  {
    hide RenderingOf;
    RenderingFromPools(config, s, Put(s, s.bindings[key].(finalizer := true)), key, s.bindings[key].spec);
  }

  method Prepare(b: Binding, config: Config)
    requires b.Tied() && b.status == b.origin.status
    modifies b`status
    ensures b.Tied()
    ensures b.status == old(b.status).(conditions := Initialized(old(b.status.conditions), b.generation),
                                       trustDomain := config.trustDomain, className := config.className)
  {
    hide Initialized;
    InitializeConditions(b);
    ApplyOperatorConfig(b, config);
  }
}
