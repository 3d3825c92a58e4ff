// When editing a spec leaves two live outputs with one boundary. Peers are compared
// by their stored specs at the moment of the list, so what matters is the live
// output of the edited binding and the output the reconcile under way may create.

module Edits {
  import opened Types
  import opened Statuses
  import opened Store
  import opened Changes
  import opened Environment
  import opened Calls
  import opened Client
  import opened Ownership
  import opened Output
  import opened Boundary
  import opened Conflicts
  import opened Peers
  import opened Quiet
  import opened Settling
  import opened Reconciler
  import opened Sample
  import Guarantees
  import Manifest
  import Pools
  import Render
  import Selection

  function Edited(s: State, k: Key, spec: BindingSpec): State
    requires k in s.bindings
  {
    Environment.Apply(s, EditBinding(k, spec))
  }

  // The edit by itself: exclusive exactly when the binding has no live output or
  // no other live output has the new boundary.
  lemma EditKeepsExclusiveIff(s: State, k: Key, spec: BindingSpec)
    requires Exclusive(s) && k in s.bindings && s.bindings[k].key == k
    ensures Exclusive(Edited(s, k, spec)) <==> Vacant(s, k) || Unrivaled(s, k, spec)
  {
    hide Exclusive, Vacant, Unrivaled, Put;
    PutExclusiveIff(s, s.bindings[k].(spec := spec, generation := s.bindings[k].generation + 1));
  }

  lemma SameOutputsSameExclusive(a: State, b: State)
    requires a.objects == b.objects && a.created == b.created && SameShape(a, b)
    ensures Exclusive(a) <==> Exclusive(b)
  {
    forall i, j ensures Rivals(a, i, j) <==> Rivals(b, i, j) {}
    forall m ensures Made(a, m) <==> Made(b, m) {}
    hide SameShape, Rivals;
  }

  // ------------------------------------------------------------ after the list

  // The rivals of the edited binding's old peers: others keep theirs.
  lemma RivalsAfterEdit(s: State, k: Key, spec: BindingSpec, i: Key, j: Key)
    requires k in s.bindings && s.bindings[k].key == k
    ensures var t := Edited(s, k, spec);
            Rivals(t, i, j) <==> && i in s.bindings && j in s.bindings && i.namespace == j.namespace
                                 && Coincide(if i == k then spec else s.bindings[i].spec, if j == k then spec else s.bindings[j].spec)
  {
  }

  // No live output of another binding has the boundary.
  ghost predicate Free(s: State, k: Key, spec: BindingSpec) {
    forall j | j in s.bindings && j != k && j.namespace == k.namespace && Coincide(s.bindings[j].spec, spec) :: Vacant(s, j)
  }

  lemma FreeIsUnrivaled(s: State, k: Key, spec: BindingSpec)
    ensures Free(s, k, spec) <==> Unrivaled(s, k, spec)
  {
    if Free(s, k, spec) {
      forall n | Made(s, n) && MakerOf(s, n) != k && MakerOf(s, n).namespace == k.namespace && MakerOf(s, n) in s.bindings
        ensures !Coincide(s.bindings[MakerOf(s, n)].spec, spec)
      {
        assert !Vacant(s, MakerOf(s, n));
      }
    }
  }

  // After an edit of another binding k, the binding b has no rival with live output
  // exactly when k has none or does not enter the boundary of b.
  lemma RivalsOfOther(s: State, b: Key, k: Key, spec: BindingSpec)
    requires b in s.bindings && k in s.bindings && s.bindings[k].key == k && b != k && RivalsAmong(s, b, {})
    ensures RivalsAmong(Edited(s, k, spec), b, {}) <==> Vacant(s, k) || b.namespace != k.namespace || !Coincide(s.bindings[b].spec, spec)
  {
    var t := Edited(s, k, spec);
    assert t.objects == s.objects && t.created == s.created;
    forall j ensures Rivals(t, b, j) <==> if j == k then b.namespace == k.namespace && Coincide(s.bindings[b].spec, spec) else Rivals(s, b, j) {
      RivalsAfterEdit(s, k, spec, b, j);
    }
    hide Rivals, Edited;
    if RivalsAmong(t, b, {}) && !Vacant(s, k) {
      var n :| Made(s, n) && MakerOf(s, n) == k;
      assert Made(t, n);
    }
    if Vacant(s, k) || b.namespace != k.namespace || !Coincide(s.bindings[b].spec, spec) {
      forall n | Made(t, n) && MakerOf(t, n) != b ensures !Rivals(t, b, MakerOf(t, n)) { assert Made(s, n); }
    }
  }

  // After an edit of b itself, it has no rival with live output exactly when the
  // new boundary is free.
  lemma RivalsOfSelf(s: State, b: Key, spec: BindingSpec)
    requires b in s.bindings && s.bindings[b].key == b
    ensures RivalsAmong(Edited(s, b, spec), b, {}) <==> Free(s, b, spec)
  {
    FreeIsUnrivaled(s, b, spec);
    var t := Edited(s, b, spec);
    assert t.objects == s.objects && t.created == s.created;
    forall j | j != b ensures Rivals(t, b, j) <==> j in s.bindings && b.namespace == j.namespace && Coincide(spec, s.bindings[j].spec) {
      RivalsAfterEdit(s, b, spec, b, j);
    }
    hide Rivals, Edited, Free;
    if RivalsAmong(t, b, {}) {
      forall n | Made(s, n) && MakerOf(s, n) != b && MakerOf(s, n).namespace == b.namespace && MakerOf(s, n) in s.bindings
        ensures !Coincide(s.bindings[MakerOf(s, n)].spec, spec)
      {
        assert Made(t, n);
      }
    }
    if Unrivaled(s, b, spec) {
      forall n | Made(t, n) && MakerOf(t, n) != b ensures !Rivals(t, b, MakerOf(t, n)) { assert Made(s, n); }
    }
  }

  // The whole effect of an edit and the creation that follows it, read off the state
  // before both.
  lemma SpacedIff(f: Focus, s: State, b: Key, k: Key, spec: BindingSpec)
    requires Exclusive(s) && RivalsAmong(s, b, {}) && b in s.bindings && k in s.bindings && s.bindings[k].key == k
    requires f.key == Some(b) && f.listed && Vacant(s, b) && !StoredRecord(s, b).Confirmed?
    ensures Spaced(f, s, k, spec) <==>
              && Exclusive(Edited(s, k, spec))
              && ((k == b && StoredRecord(s, b).Unclaimed?) || RivalsAmong(Edited(s, k, spec), b, {}))
  {
    hide Exclusive, RivalsAmong, Edited, RecordOf;
    EditKeepsExclusiveIff(s, k, spec);
    FreeIsUnrivaled(s, k, spec);
    hide Unrivaled;
    if k == b { RivalsOfSelf(s, b, spec); } else { RivalsOfOther(s, b, k, spec); }
    hide Vacant;
  }

  // A binding whose record has nothing to cover has no live output.
  lemma ClaimIsVacant(r: Rules, s: State, k: Key)
    requires Inv(r, s) && Covering(r) && (StoredRecord(s, k).Unclaimed? || StoredRecord(s, k).name !in s.objects)
    ensures Vacant(s, k)
  {
    hide RecordOf, VersionsOK, EffectsOK, Exclusive, Walled, ClaimsOK;
    forall n | Made(s, n) ensures MakerOf(s, n) != k { assert Covers(StoredRecord(s, MakerOf(s, n)), s.objects[n]); }
  }

  lemma EditIsPermitted(r: Rules, f: Focus, s: State, k: Key, spec: BindingSpec)
    requires Inv(r, s) && !r.spaced && !r.moored && k in s.bindings
    ensures Permitted(r, f, s, EditBinding(k, spec)) && s.bindings[k].key == k && s.bindings[k].rv < s.nextRv
    ensures var t := Edited(s, k, spec);
            && Inv(r, t) && Step(r, s, t) && Rely(r, f, s, t) && k in t.bindings && t.bindings[k].spec == spec
            && t.bindings[k].rv == s.nextRv && (forall j | j != k :: (j in t.bindings <==> j in s.bindings) && (j in s.bindings ==> t.bindings[j] == s.bindings[j]))
            && t.objects == s.objects && t.pools == s.pools && t.created == s.created
  {
    hide Step, Rely, Covered, Exclusive, Walled, ObjectsOK, ClaimsOK, EffectsOK, Attributed, StatusOK;
    assert s.bindings[k] in s.past && s.bindings[k].rv < s.nextRv;
    hide Inv;
    StoredVersion(r, s, k);
    EnvKeeps(r, f, s, EditBinding(k, spec));
  }

  // Others edit binding k after the list of b's reconcile and before its Create.
  // Live outputs stay exclusive exactly when the edit is spaced.
  method EditThenApply(api: Cluster, config: Config, b: Binding, plan: Plan, digest: string -> string, k: Key, spec: BindingSpec)
    requires api.Valid() && api.Calm() && Covering(api.rules) && !api.rules.spaced && !api.rules.moored
    requires b.Good(api) && b.finalizer && Fresh(api, b) && !b.Record().Confirmed? && api.focus.key == Some(b.key) && Reservable(api.focus, b.origin)
    requires SoundRendering(b.key, b.spec, Plans(plan)) && Manifest.IsDigest(digest(plan.spiffeID))
    requires Aligned(b.Record(), DesiredName(b.key, plan, digest)) && DesiredName(b.key, plan, digest) !in api.s.objects
    requires Exclusive(api.s) && RivalsAmong(api.s, b.key, {}) && k in api.s.bindings
    modifies api, b
    ensures api.Valid() && (Exclusive(api.s) <==> old(Spaced(api.focus, api.s, k, spec)))
  {
    hide Inv, GoodTrace, Step, Rely, Frame, Follows, Edited, Exclusive, RivalsAmong, Spaced, RecordOf, WorkingCopy, Selection.Bounds, DesiredName,
         Spawned, Booked, Manifest.IsDigest, OnlyBinding, Vacant, SameRecords, Steady, Local, InForce, Slot, Unheld, DesiredOutput, Configured,
         SoundRendering;
    ghost var start, f := api.s, api.focus;
    EditIsPermitted(api.rules, api.focus, api.s, k, spec);
    FreshRecord(api, b);
    ClaimIsVacant(api.rules, start, b.key);
    SpacedIff(f, start, b.key, k, spec);
    RelyParts(api.rules, f, start, Edited(start, k, spec));
    api.Advance(Edited(api.s, k, spec));
    SteadyKeeps(api.rules, f, start, api.s, b.origin);
    RecordAfter(start, api.s, b.key);
    FreshOrGone(api, b);
    ghost var mid := api.s;
    var requeue, err := ReplaceAndApply(api, config, b, plan, digest);
    if k == b.key && StoredRecord(start, b.key).Unclaimed? {
      OnlyIsSameShape(mid, api.s, b.key);
      SameOutputsSameExclusive(mid, api.s);
    } else {
      SpawnedExclusiveIff(api.rules, mid, api.s, b.key, DesiredName(b.key, plan, digest), DesiredOutput(config, b.key, plan, digest).spec);
    }
  }

  lemma RecordAfter(a: State, b: State, k: Key)
    requires SameRecords(a, b)
    ensures StoredRecord(b, k) == StoredRecord(a, k)
  {
  }

  lemma OnlyIsSameShape(a: State, b: State, k: Key)
    requires OnlyBinding(a, b, k)
    ensures SameShape(a, b) && a.objects == b.objects && a.created == b.created
  {
  }

  // ------------------------------------------------------------ before the list

  lemma RenderedVariant(config: Config, s: State, k: Key, spec: BindingSpec)
    requires RenderingOf(config, s, k, spec).Plans?
    ensures RenderingOf(config, s, k, spec).plan.variant == spec.variant
  {
    hide Render.PlanOf, Pools.Accepted, Pools.Labels, Render.SPIFFEID, PoolRefOK;
    var pool := s.pools[PoolKey(k, spec)];
    Render.PlannedSegments(Pools.InputOf(config, k, spec, pool, Pools.Labels(pool), Pools.SomeListing(Pools.Labels(pool))));
  }

  // A comparison that lets the binding pass leaves no live rival at the compared boundary.
  lemma HarmlessIsFree(r: Rules, config: Config, s: State, b: Key, plan: Plan)
    requires Inv(r, s) && Covering(r) && b in s.bindings && PeersHarmless(config, s, VariantRecordOf(b, s.bindings[b].spec, plan))
    requires plan.variant == s.bindings[b].spec.variant
    ensures RivalsAmong(s, b, {})
  {
    hide RecordOf, VersionsOK, EffectsOK, Exclusive, Walled, ClaimsOK, RenderingOf;
    var self := VariantRecordOf(b, s.bindings[b].spec, plan);
    forall n | Made(s, n) && MakerOf(s, n) != b ensures !Rivals(s, b, MakerOf(s, n)) {
      var j := MakerOf(s, n);
      if j in s.bindings && j.namespace == b.namespace {
        assert IsPeer(s, self.ref, j) && Harmless(config, s, self, j);
        assert Covers(StoredRecord(s, j), s.objects[n]);
        if RenderingOf(config, s, j, s.bindings[j].spec).Plans? { RenderedVariant(config, s, j, s.bindings[j].spec); }
      }
    }
  }

  lemma SpacedBeforeListIff(r: Rules, config: Config, s: State, b: Key, plan: Plan, k: Key, spec: BindingSpec)
    requires Inv(r, s) && Covering(r) && Exclusive(s) && b in s.bindings && k in s.bindings && s.bindings[k].key == k && !r.spaced && !r.moored
    requires StoredRecord(s, b).Pending? && Vacant(s, b) && plan.variant == s.bindings[b].spec.variant
    requires var t := Edited(s, k, spec); b in t.bindings && PeersHarmless(config, t, VariantRecordOf(b, t.bindings[b].spec, plan))
    ensures Spaced(Reading(b, s.bindings[b].spec), s, k, spec) <==> Exclusive(Edited(s, k, spec)) && RivalsAmong(Edited(s, k, spec), b, {})
  {
    hide Exclusive, RivalsAmong, Edited, RecordOf, Inv, PeersHarmless, VariantRecordOf, Step, Rely;
    EditKeepsExclusiveIff(s, k, spec);
    FreeIsUnrivaled(s, k, spec);
    hide Unrivaled;
    EditIsPermitted(r, NO_FOCUS, s, k, spec);
    if k == b { RivalsOfSelf(s, b, spec); }
    if k != b || spec.variant == plan.variant { HarmlessIsFree(r, config, Edited(s, k, spec), b, plan); }
    hide Vacant;
  }

  // The same between the first read and the list of a reconcile that goes on from a
  // claim and that the comparison, made after the edit, lets pass.
  method EditThenReconcile(api: Cluster, config: Config, b: Binding, plan: Plan, digest: string -> string, k: Key, spec: BindingSpec)
    requires api.Valid() && api.Calm() && Covering(api.rules) && !api.rules.spaced && !api.rules.moored
    requires b.Good(api) && b.finalizer && !b.deleting && Fresh(api, b) && b.Record().Pending? && api.focus == Reading(b.key, b.spec)
    requires SoundRendering(b.key, b.spec, Plans(plan)) && Manifest.IsDigest(digest(plan.spiffeID))
    requires b.Record().name == DesiredName(b.key, plan, digest) && b.Record().name !in api.s.objects
    requires Exclusive(api.s) && k in api.s.bindings
    requires var t := Edited(api.s, k, spec); b.key in t.bindings && PeersHarmless(config, t, VariantRecordOf(b.key, t.bindings[b.key].spec, plan))
    modifies api, b
    ensures api.Valid() && (Exclusive(api.s) <==> old(Spaced(api.focus, api.s, k, spec)))
  {
    hide Inv, GoodTrace, Step, Rely, Frame, Follows, Edited, Exclusive, RivalsAmong, Spaced, RecordOf, WorkingCopy, Selection.Bounds, DesiredName,
         Spawned, Booked, Manifest.IsDigest, OnlyBinding, Vacant, SameRecords, Steady, PeersHarmless, VariantRecordOf, NoOrphans, Marked;
    ghost var start, f := api.s, api.focus;
    EditIsPermitted(api.rules, api.focus, api.s, k, spec);
    FreshRecord(api, b);
    ClaimIsVacant(api.rules, start, b.key);
    SpacedBeforeListIff(api.rules, config, start, b.key, plan, k, spec);
    RelyParts(api.rules, f, start, Edited(start, k, spec));
    api.Advance(Edited(api.s, k, spec));
    SteadyKeeps(api.rules, f, start, api.s, b.origin);
    RecordAfter(start, api.s, b.key);
    ghost var mid := api.s;
    var requeue, err := ReconcilePlanned(api, config, b, plan, digest);
  }

  // ------------------------------------------------------------ a concrete run

  // Every rule but those about edits.
  const UNSPACED := Rules(true, true, false, false, true)

  // Two bindings with distinct variants that nobody has reconciled yet.
  const PAIR := State(
    map[], map[HOME := NewBinding(HOME, 0, 'p', 'v'), PEER := NewBinding(PEER, 1, 'q', 'w')], POOLS, 1, 2, [], map[], [],
    {NewBinding(HOME, 0, 'p', 'v'), NewBinding(PEER, 1, 'q', 'w')})

  // The two bindings are there, with these variants.
  ghost predicate Both(s: State, c: char, d: char) {
    && s.pools == POOLS && HOME in s.bindings && PEER in s.bindings && (forall k | k in s.bindings :: k == HOME || k == PEER)
    && s.bindings[HOME].spec == Spec('p', c) && s.bindings[PEER].spec == Spec('q', d) && !s.bindings[HOME].deleting && !s.bindings[PEER].deleting
    && 'a' <= c <= 'z' && 'a' <= d <= 'z' && c != d
  }

  lemma HomeIsNotPeer()
    ensures HOME != PEER && HOME.namespace == PEER.namespace == "ns" && "ns" != ""
  {
    assert "b"[0] != "c"[0];
  }

  lemma PairIsUntended()
    ensures Guarantees.Untended(PAIR) && Both(PAIR, 'v', 'w') && StoredRecord(PAIR, HOME).Unclaimed? && StoredRecord(PAIR, PEER).Unclaimed?
  {
    HomeIsNotPeer();
    assert Decode(EMPTY_STATUS) == Some(Unclaimed);
  }

  lemma BothRender(s: State, c: char, d: char)
    requires Both(s, c, d)
    ensures Eligible(CONFIG, s, HOME) && Eligible(CONFIG, s, PEER)
    ensures Pair(SelfOf(CONFIG, s, HOME), SelfOf(CONFIG, s, PEER)).None? && Pair(SelfOf(CONFIG, s, PEER), SelfOf(CONFIG, s, HOME)).None?
    ensures DesiredName(HOME, PlanOf(CONFIG, s, HOME), Digest) != DesiredName(PEER, PlanOf(CONFIG, s, PEER), Digest)
  {
    hide RenderingOf, PoolRefOK, Render.VariantError, DesiredName, Render.PlanOf, Pools.Accepted, POOLS;
    SampleIsEligible(s, HOME, 'p', c);
    SampleIsEligible(s, PEER, 'q', d);
    RenderedAs(s, HOME, 'p', c);
    RenderedAs(s, PEER, 'q', d);
  }

  // Each of the two leaves the other alone.
  lemma BothHarmless(s: State, c: char, d: char, k: Key, j: Key)
    requires Both(s, c, d) && k != j && (k == HOME || k == PEER) && (j == HOME || j == PEER)
    ensures Eligible(CONFIG, s, k) && Harmless(CONFIG, s, SelfOf(CONFIG, s, k), j) && Resting(CONFIG, s, j)
  {
    BothRender(s, c, d);
    PlanIs(CONFIG, s, j);
    hide RenderingOf, DesiredName, Pair, RecordOf, PoolRefOK, Render.VariantError, Live, Tidy, HOME, PEER, POOLS, CONFIG, Digest;
  }

  // Each of the two is ripe while it holds no record and its name is free.
  lemma BothRipe(s: State, c: char, d: char, k: Key)
    requires Both(s, c, d) && (k == HOME || k == PEER) && StoredRecord(s, k).Unclaimed? && Eligible(CONFIG, s, k)
    requires DesiredName(k, PlanOf(CONFIG, s, k), Digest) !in s.objects
    ensures Ripe(CONFIG, s, k, Digest) && PeersResting(CONFIG, s, k)
  {
    hide Eligible, PlanOf, DesiredName, RecordOf, HOME, PEER, CONFIG, POOLS, Digest, Harmless, Resting;
    SelfRef(CONFIG, s, k);
    forall j | IsPeer(s, k, j) ensures Harmless(CONFIG, s, SelfOf(CONFIG, s, k), j) && Resting(CONFIG, s, j) {
      BothHarmless(s, c, d, k, j);
    }
  }

  // A settled binding has live output of its own, at the desired name.
  lemma SettledIsLive(r: Rules, s: State, k: Key)
    requires Inv(r, s) && Settled(CONFIG, s, k, Digest)
    ensures Eligible(CONFIG, s, k) && var n := DesiredName(k, PlanOf(CONFIG, s, k), Digest);
            Made(s, n) && MakerOf(s, n) == k && StoredRecord(s, k).Confirmed? && StoredRecord(s, k).name == n
  {
    hide Inv, PeersHarmless, PeersResting, RenderingOf, Reported, DesiredName, RecordOf, Manifest.InSync;
    ObjectNamed(r, s, DesiredName(k, PlanOf(CONFIG, s, k), Digest));
    LiveIsOwn(r, s, k);
  }

  lemma BothKept(a: State, b: State, k: Key, c: char, d: char)
    requires Both(a, c, d) && Private(a, b, k) && (k == HOME || k == PEER)
    ensures Both(b, c, d)
  {
    hide HOME, PEER, POOLS, Spec;
  }

  // After the first reconcile, all live output is that of HOME, at its one name.
  lemma OnlyHomeIsLive(r: Rules, a: State, b: State)
    requires Inv(r, b) && Covering(r) && a.objects == map[] && Settled(CONFIG, b, HOME, Digest) && Private(a, b, HOME)
    ensures forall n | n in b.objects :: n == StoredRecord(b, HOME).name && Owns(b, HOME, b.objects[n].uid)
    ensures StoredRecord(b, HOME).Confirmed?
  {
    SettledIsLive(r, b, HOME);
    hide Settled, DesiredName, Eligible, PlanOf, RecordOf, Exclusive, Walled, VersionsOK, EffectsOK, ClaimsOK, HOME, CONFIG, POOLS, Digest;
    forall n | n in b.objects ensures n == StoredRecord(b, HOME).name && Owns(b, HOME, b.objects[n].uid) {
      assert Owns(b, HOME, b.objects[n].uid) && Made(b, n);
      assert Covers(StoredRecord(b, HOME), b.objects[n]);
    }
  }

  // What the first reconcile leaves for the second.
  lemma SecondIsRipe(r: Rules, a: State, b: State, c: char, d: char)
    requires Inv(r, b) && Covering(r) && Both(a, c, d) && a.objects == map[] && StoredRecord(a, PEER).Unclaimed?
    requires Settled(CONFIG, b, HOME, Digest) && Private(a, b, HOME)
    ensures Both(b, c, d) && Ripe(CONFIG, b, PEER, Digest) && PeersResting(CONFIG, b, PEER)
  {
    HomeIsNotPeer();
    SettledIsLive(r, b, HOME);
    OnlyHomeIsLive(r, a, b);
    BothKept(a, b, HOME, c, d);
    BothRender(b, c, d);
    hide Inv, Settled, DesiredName, Eligible, PlanOf, RecordOf, SelfOf, HOME, PEER, CONFIG, POOLS, Digest, Both;
    BothRipe(b, c, d, PEER);
  }

  lemma BothExclusive(s: State, c: char, d: char)
    requires Both(s, c, d)
    ensures Exclusive(s)
  {
    HomeIsNotPeer();
    assert [c][0] != [d][0];
    hide HOME, PEER, POOLS;
  }

  lemma StillMade(a: State, b: State, k: Key, n: string)
    requires Private(a, b, k) && Made(a, n) && MakerOf(a, n) != k
    ensures Made(b, n) && MakerOf(b, n) == MakerOf(a, n) && b.objects[n] == a.objects[n]
  {
  }

  // Both have live output; then the peer is edited into the other's boundary.
  lemma BothLive(r: Rules, a: State, b: State)
    requires Inv(r, a) && Inv(r, b) && Both(a, 'v', 'w') && Settled(CONFIG, a, HOME, Digest) && Settled(CONFIG, b, PEER, Digest) && Private(a, b, PEER)
    ensures Both(b, 'v', 'w') && Exclusive(b) && !Exclusive(Edited(b, PEER, Spec('q', 'v')))
  {
    hide Inv, Settled, DesiredName, Eligible, PlanOf, RecordOf, HOME, PEER, CONFIG, POOLS, Digest, Exclusive, Edited, Private;
    HomeIsNotPeer();
    SettledIsLive(r, a, HOME);
    SettledIsLive(r, b, PEER);
    BothKept(a, b, PEER, 'v', 'w');
    BothExclusive(b, 'v', 'w');
    StoredVersion(r, b, PEER);
    StillMade(a, b, PEER, DesiredName(HOME, PlanOf(CONFIG, a, HOME), Digest));
    EditKeepsExclusiveIff(b, PEER, Spec('q', 'v'));
  }

  // Two reconciles from an untended cluster, then an edit that the other rules permit.
  method EditBreaksExclusive() returns (api: Cluster, ghost before: State)
    ensures fresh(api) && api.Valid() && api.rules == UNSPACED && Guarantees.Untended(api.genesis)
    ensures Inv(UNSPACED, before) && Exclusive(before) && PEER in before.bindings && Permitted(UNSPACED, NO_FOCUS, before, EditBinding(PEER, Spec('q', 'v')))
    ensures api.s == Edited(before, PEER, Spec('q', 'v')) && !Exclusive(api.s)
  {
    hide Inv, GoodTrace, Step, Rely, Both, Ripe, Settled, PeersResting, Private, Exclusive, Manifest.IsDigest, Digest, Permitted, Edited, Leaving, Failing,
         Clashing, Guarantees.Untended, Spec;
    PairIsUntended();
    Guarantees.UntendedIsFine(UNSPACED, PAIR);
    forall x: string ensures Manifest.IsDigest(Digest(x)) { DigestIsDigest(x); }
    BothRender(PAIR, 'v', 'w');
    BothRipe(PAIR, 'v', 'w', HOME);
    api := new Cluster(UNSPACED, PAIR, []);
    var requeue, err := Reconcile(api, CONFIG, HOME, Digest);
    ghost var once := api.s;
    SecondIsRipe(UNSPACED, PAIR, once, 'v', 'w');
    requeue, err := Reconcile(api, CONFIG, PEER, Digest);
    before := api.s;
    BothLive(UNSPACED, once, before);
    BothThere(before, 'v', 'w');
    EditIsPermitted(UNSPACED, NO_FOCUS, before, PEER, Spec('q', 'v'));
    api.Advance(Edited(api.s, PEER, Spec('q', 'v')));
  }

  lemma BothThere(s: State, c: char, d: char)
    requires Both(s, c, d)
    ensures HOME in s.bindings && PEER in s.bindings
  {
  }
}
