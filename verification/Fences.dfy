// Shared pods. Live output keeps the boundary it was rendered for, while comparisons go
// by the stored spec: which steps let two live outputs select one pod, and which edits
// lead there.

module Fences {
  import opened Types
  import opened Statuses
  import opened Store
  import opened Changes
  import opened Environment
  import opened Calls
  import opened Client
  import opened Ownership
  import opened Output
  import opened Boundary
  import opened Conflicts
  import opened Peers
  import opened Quiet
  import opened Settling
  import opened Reconciler
  import opened Edits
  import opened Sample
  import opened Selection
  import opened Guarantees
  import Manifest
  import Pools
  import Render

  // ------------------------------------------------------------ single steps

  // Two specs select a common pod.
  predicate Overlapping(a: ObjectSpec, b: ObjectSpec) {
    a.Rendered? && b.Rendered? && Overlap(Parse(a.selectors), Parse(b.selectors))
  }

  // Live output of a binding with a namespace.
  predicate Counts(s: State, n: string) {
    Made(s, n) && MakerOf(s, n).namespace != ""
  }

  // No live output but that at `except` selects a pod of the spec.
  ghost predicate Clear(s: State, except: string, spec: ObjectSpec) {
    forall n | Counts(s, n) && n != except :: !Overlapping(spec, s.objects[n].spec)
  }

  // No pod is selected twice exactly when no two live outputs overlap.
  lemma PodsIff(s: State)
    ensures NoPodTwice(s) <==> forall n | Counts(s, n) :: Clear(s, n, s.objects[n].spec)
  {
    hide Parse, Overlap, PodMatches;
    if NoPodTwice(s) {
      forall m, n | Counts(s, m) && Counts(s, n) && m != n ensures !Overlapping(s.objects[m].spec, s.objects[n].spec) {
        OverlapPods(s.objects[m].spec, s.objects[n].spec);
        forall pod ensures !Shares(pod, s.objects[m].spec, s.objects[n].spec) {
          assert Shares(pod, s.objects[m].spec, s.objects[n].spec) ==> Selects(s.objects[m], pod) && Selects(s.objects[n], pod);
        }
      }
    }
    if forall n | Counts(s, n) :: Clear(s, n, s.objects[n].spec) {
      forall m, n, pod |
        && Made(s, m) && Made(s, n) && MakerOf(s, m).namespace != "" && MakerOf(s, n).namespace != ""
        && Selects(s.objects[m], pod) && Selects(s.objects[n], pod)
        ensures m == n
      {
        assert Counts(s, m) && Counts(s, n) && Clear(s, m, s.objects[m].spec);
        OverlapPods(s.objects[m].spec, s.objects[n].spec);
        assert Shares(pod, s.objects[m].spec, s.objects[n].spec);
      }
    }
  }

  // Both specs select the pod.
  predicate Shares(pod: Pod, a: ObjectSpec, b: ObjectSpec) {
    a.Rendered? && b.Rendered? && PodMatches(pod, Parse(a.selectors)) && PodMatches(pod, Parse(b.selectors))
  }

  lemma OverlapPods(a: ObjectSpec, b: ObjectSpec)
    ensures Overlapping(a, b) <==> exists pod :: Shares(pod, a, b)
  {
    hide Parse, Overlap, PodMatches;
    if a.Rendered? && b.Rendered? {
      var x, y := Parse(a.selectors), Parse(b.selectors);
      OverlapIff(x, y);
      if Overlap(x, y) {
        var pod :| PodMatches(pod, x) && PodMatches(pod, y);
        assert Shares(pod, a, b);
      }
    }
  }

  lemma OverlapSymmetric(a: ObjectSpec, b: ObjectSpec)
    ensures Overlapping(a, b) == Overlapping(b, a)
  {
    hide Parse;
  }

  // The same live output selects pods twice or not, whatever bindings say.
  lemma EditKeepsPods(s: State, k: Key, spec: BindingSpec)
    requires k in s.bindings
    ensures NoPodTwice(Edited(s, k, spec)) <==> NoPodTwice(s)
  {
    var t := Edited(s, k, spec);
    forall n ensures Made(t, n) <==> Made(s, n) {}
    forall n | Made(s, n) ensures MakerOf(t, n) == MakerOf(s, n) && t.objects[n] == s.objects[n] {}
    hide Edited, Selects;
  }

  // A creation selects no pod twice exactly when none was and no live output overlaps it.
  lemma SpawnedPodsIff(r: Rules, a: State, b: State, k: Key, n: string, spec: ObjectSpec)
    requires Inv(r, a) && Spawned(a, b, k, n, spec) && k.namespace != ""
    ensures NoPodTwice(b) <==> NoPodTwice(a) && Clear(a, n, spec)
  {
    hide Inv, NoPodTwice, Overlapping;
    SpawnedMade(r, a, b, k, n, spec);
    SpawnedSpec(a, b, k, n, spec);
    hide Spawned;
    PodsIff(a);
    PodsIff(b);
    assert forall m | m != n :: Counts(a, m) <==> Counts(b, m);
    if forall m | Counts(b, m) :: Clear(b, m, b.objects[m].spec) {
      assert Counts(b, n) && Clear(b, n, spec);
      forall m | Counts(a, m) ensures Clear(a, m, a.objects[m].spec) { assert Counts(b, m) && Clear(b, m, b.objects[m].spec); }
    }
    if (forall m | Counts(a, m) :: Clear(a, m, a.objects[m].spec)) && Clear(a, n, spec) {
      forall m | Counts(b, m) ensures Clear(b, m, b.objects[m].spec) {
        forall l | Counts(b, l) && l != m ensures !Overlapping(b.objects[m].spec, b.objects[l].spec) {
          OverlapSymmetric(b.objects[m].spec, b.objects[l].spec);
          if m != n { assert Counts(a, m) && Clear(a, m, a.objects[m].spec); }
        }
      }
    }
  }

  lemma SpawnedSpec(a: State, b: State, k: Key, n: string, spec: ObjectSpec)
    requires Spawned(a, b, k, n, spec)
    ensures n in b.objects && b.objects[n].spec == spec
  {
  }

  // The same for an update of live output.
  lemma UpdatePodsIff(s: State, o: Object)
    requires Counts(s, o.name) && s.objects[o.name].uid == o.uid && NoPodTwice(s)
    ensures NoPodTwice(PutObject(s, o)) <==> Clear(s, o.name, o.spec)
  {
    var t := PutObject(s, o);
    forall n ensures Counts(t, n) <==> Counts(s, n) {}
    forall n | Counts(s, n) ensures t.objects[n].spec == if n == o.name then o.spec else s.objects[n].spec {}
    hide PutObject, NoPodTwice, Overlapping, Counts;
    PodsIff(s);
    PodsIff(t);
    if forall n | Counts(t, n) :: Clear(t, n, t.objects[n].spec) { assert Counts(t, o.name) && Clear(t, o.name, o.spec); }
    if Clear(s, o.name, o.spec) {
      forall m | Counts(t, m) ensures Clear(t, m, t.objects[m].spec) {
        forall l | Counts(t, l) && l != m ensures !Overlapping(t.objects[m].spec, t.objects[l].spec) {
          OverlapSymmetric(t.objects[m].spec, t.objects[l].spec);
          if m != o.name { assert Clear(s, m, s.objects[m].spec); }
        }
      }
    }
  }

  // A creation shares no boundary exactly when none was shared and no other output has it.
  lemma SpawnedUnsharedIff(r: Rules, a: State, b: State, k: Key, n: string, spec: ObjectSpec)
    requires Inv(r, a) && Spawned(a, b, k, n, spec)
    ensures Unshared(b) <==> Unshared(a) && Unfaced(a, k, FenceOf(spec))
  {
    hide Inv, FenceOf;
    SpawnedMade(r, a, b, k, n, spec);
    SpawnedSpec(a, b, k, n, spec);
    hide Spawned;
    if Unshared(b) {
      assert Unfaced(b, k, FenceOf(spec));
      forall m | Made(a, m) ensures !Faces(a, k, m, FenceOf(spec)) { assert Made(b, m) && !Faces(b, k, m, FenceOf(spec)); }
      forall l | Made(a, l) ensures Unfaced(a, MakerOf(a, l), FenceOf(a.objects[l].spec)) {
        assert Unfaced(b, MakerOf(b, l), FenceOf(b.objects[l].spec));
        forall m | Made(a, m) ensures !Faces(a, MakerOf(a, l), m, FenceOf(a.objects[l].spec)) {
          assert !Faces(b, MakerOf(b, l), m, FenceOf(b.objects[l].spec));
        }
      }
    }
    if Unshared(a) && Unfaced(a, k, FenceOf(spec)) {
      forall l | Made(b, l) ensures Unfaced(b, MakerOf(b, l), FenceOf(b.objects[l].spec)) {
        forall m | Made(b, m) ensures !Faces(b, MakerOf(b, l), m, FenceOf(b.objects[l].spec)) {
          if l != n && m != n { assert Unfaced(a, MakerOf(a, l), FenceOf(a.objects[l].spec)) && !Faces(a, MakerOf(a, l), m, FenceOf(a.objects[l].spec)); }
          if l == n && m != n { assert !Faces(a, k, m, FenceOf(spec)); }
          if l != n && m == n { assert !Faces(a, k, l, FenceOf(spec)); }
        }
      }
    }
  }

  // A creation traps nobody exactly when nobody was trapped and its boundary is a berth.
  lemma SpawnedMooredIff(r: Rules, a: State, b: State, k: Key, n: string, spec: ObjectSpec)
    requires Inv(r, a) && Spawned(a, b, k, n, spec)
    ensures Moored(b) <==> Moored(a) && Berthed(a, k, FenceOf(spec))
  {
    hide Inv, FenceOf;
    SpawnedMade(r, a, b, k, n, spec);
    SpawnedSpec(a, b, k, n, spec);
    forall j, boundary ensures Berthed(a, j, boundary) == Berthed(b, j, boundary) { SpawnedBerth(a, b, k, n, spec, j, boundary); }
    hide Spawned, Berthed;
  }

  lemma SpawnedBerth(a: State, b: State, k: Key, n: string, spec: ObjectSpec, j: Key, boundary: BindingSpec)
    requires Spawned(a, b, k, n, spec)
    ensures Berthed(a, j, boundary) == Berthed(b, j, boundary)
  {
  }

  // ------------------------------------------------------------ an edit and the reconcile after it

  // Whoever's output binding i would face asks for that boundary, so i meets it in the comparison.
  ghost predicate Warned(s: State, i: Key)
    requires i in s.bindings
  {
    forall n | Made(s, n) && Faces(s, i, n, s.bindings[i].spec) :: AtHome(s, n)
  }

  // Nobody is trapped exactly when every binding is warned.
  lemma MooredIsWarned(s: State)
    ensures Moored(s) <==> forall i | i in s.bindings :: Warned(s, i)
  {
    hide FenceOf;
    if forall i | i in s.bindings :: Warned(s, i) {
      forall n | Made(s, n) ensures Berthed(s, MakerOf(s, n), FenceOf(s.objects[n].spec)) {
        if !Unsought(s, MakerOf(s, n), FenceOf(s.objects[n].spec)) {
          var i :| i in s.bindings && i != MakerOf(s, n) && i.namespace == MakerOf(s, n).namespace && Coincide(s.bindings[i].spec, FenceOf(s.objects[n].spec));
          assert Warned(s, i) && Faces(s, i, n, s.bindings[i].spec);
        }
      }
    }
  }

  // What the edit of k to `spec` means for binding i, read before the edit: i itself does
  // not enter a boundary where output was left behind, and k leaves none behind for i.
  ghost predicate Safeguards(s: State, k: Key, spec: BindingSpec, i: Key)
    requires i in s.bindings
  {
    if i == k then forall n | Made(s, n) && Faces(s, k, n, spec) :: AtHome(s, n)
    else forall n | Made(s, n) && MakerOf(s, n) == k && Faces(s, i, n, s.bindings[i].spec) :: Coincide(spec, FenceOf(s.objects[n].spec))
  }

  lemma WarnedAfterEdit(s: State, k: Key, spec: BindingSpec, i: Key)
    requires Moored(s) && k in s.bindings && s.bindings[k].key == k && i in s.bindings
    ensures i in Edited(s, k, spec).bindings && (Warned(Edited(s, k, spec), i) <==> Safeguards(s, k, spec, i))
  {
    hide FenceOf;
    var t := Edited(s, k, spec);
    forall n ensures Made(t, n) <==> Made(s, n) {}
    forall n, j, boundary | Made(s, n) ensures Faces(t, j, n, boundary) <==> Faces(s, j, n, boundary) {}
    forall n | Made(s, n) ensures AtHome(t, n) <==> if MakerOf(s, n) == k then Coincide(spec, FenceOf(s.objects[n].spec)) else AtHome(s, n) {}
    if i != k {
      forall n | Made(s, n) && Faces(s, i, n, s.bindings[i].spec) ensures AtHome(s, n) {
        assert Berthed(s, MakerOf(s, n), FenceOf(s.objects[n].spec));
      }
    }
  }

  // The rule for edits is that they safeguard every binding.
  lemma MoorableIsSafeguard(s: State, k: Key, spec: BindingSpec)
    requires Moored(s) && k in s.bindings && s.bindings[k].key == k
    ensures Moorable(s, k, spec) <==> forall i | i in s.bindings :: Safeguards(s, k, spec, i)
  {
    hide Moorable, Moored, Safeguards, Warned;
    var t := Edited(s, k, spec);
    PutMooredIff(s, s.bindings[k].(spec := spec, generation := s.bindings[k].generation + 1));
    MooredIsWarned(t);
    forall i ensures i in t.bindings <==> i in s.bindings {}
    forall i | i in s.bindings ensures i in t.bindings && (Warned(t, i) <==> Safeguards(s, k, spec, i)) { WarnedAfterEdit(s, k, spec, i); }
  }

  // A rendered binding's output spells out the boundary of its spec.
  lemma RenderedFence(config: Config, s: State, k: Key, digest: string -> string)
    requires Eligible(config, s, k)
    ensures var spec := DesiredOutput(config, k, PlanOf(config, s, k), digest).spec;
            Keyed(spec, k.namespace) && Coincide(s.bindings[k].spec, FenceOf(spec))
  {
    hide Render.PlanOf, Pools.Accepted, Pools.Labels, Bounds, DesiredName, PoolRefOK, Render.VariantError;
    var v := s.bindings[k];
    var pool := s.pools[PoolKey(k, v.spec)];
    Render.PlanIsBounded(Pools.InputOf(config, k, v.spec, pool, Pools.Labels(pool), Pools.SomeListing(Pools.Labels(pool))));
    SpellsKeyed(DesiredOutput(config, k, PlanOf(config, s, k), digest).spec, k.namespace, v.spec);
  }

  // With no orphans about, a comparison without conflict means that output faced is
  // output left behind.
  lemma UnfacedIffWarned(r: Rules, config: Config, s: State, i: Key)
    requires Inv(r, s) && Covering(r) && Eligible(config, s, i) && PeersHarmless(config, s, SelfOf(config, s, i))
    ensures Unfaced(s, i, s.bindings[i].spec) <==> Warned(s, i)
  {
    hide FenceOf, Inv, RenderingOf;
    if Warned(s, i) {
      var plan := PlanOf(config, s, i);
      RenderedVariant(config, s, i, s.bindings[i].spec);
      HarmlessIsFree(r, config, s, i, plan);
      forall n | Made(s, n) ensures !Faces(s, i, n, s.bindings[i].spec) {
        assert Faces(s, i, n, s.bindings[i].spec) && AtHome(s, n) ==> Rivals(s, i, MakerOf(s, n));
      }
    }
  }

  // An edit of k, then an undisturbed reconcile of a ripe binding i without output: no
  // boundary is shared afterwards exactly when the edit safeguards i, and no pod is
  // selected twice exactly when no live output overlaps the one that i renders.
  method EditThenSettle(api: Cluster, config: Config, k: Key, spec: BindingSpec, i: Key, digest: string -> string)
    requires api.Valid() && api.Calm() && Covering(api.rules) && k in api.s.bindings && Permitted(api.rules, NO_FOCUS, api.s, EditBinding(k, spec))
    requires Unshared(api.s) && Moored(api.s) && NoPodTwice(api.s) && i in api.s.bindings && i.namespace != ""
    requires Ripe(config, Edited(api.s, k, spec), i, digest) && forall x: string :: Manifest.IsDigest(digest(x))
    requires Opening(api.s, i, DesiredOutput(config, i, PlanOf(config, Edited(api.s, k, spec), i), digest).name)
    modifies api
    ensures api.Valid() && (Unshared(api.s) <==> old(Safeguards(api.s, k, spec, i)))
    ensures var desired := DesiredOutput(config, i, PlanOf(config, old(Edited(api.s, k, spec)), i), digest);
            NoPodTwice(api.s) <==> Clear(old(api.s), desired.name, desired.spec)
  {
    hide Inv, GoodTrace, Step, Rely, Ripe, Settled, Opening, Spawned, DesiredOutput, PlanOf, Private, PeersResting, Manifest.IsDigest, AllCalm, Eligible, Leaving, Failing,
         Clashing, Unshared, Moored, NoPodTwice, Safeguards, Warned, Unfaced, Clear, Edited, PeersHarmless, SelfOf, FenceOf, Permitted, Keyed;
    ghost var start := api.s;
    EditApplies(api.rules, start, k, spec);
    WarnedAfterEdit(start, k, spec, i);
    api.Advance(Edited(api.s, k, spec));
    ghost var mid := api.s;
    RipeFacts(config, mid, i, digest);
    EligibleIs(config, mid, i);
    UnfacedIffWarned(api.rules, config, mid, i);
    RenderedFence(config, mid, i, digest);
    ghost var desired := DesiredOutput(config, i, PlanOf(config, mid, i), digest);
    EditKeepsPods(start, k, spec);
    EditKeepsOutputs(start, k, spec, i, desired.name, desired.spec);
    OpeningKept(start, mid, i, desired.name);
    var requeue, err := Reconcile(api, config, i, digest);
    SpawnedUnsharedIff(api.rules, mid, api.s, i, desired.name, desired.spec);
    SpawnedPodsIff(api.rules, mid, api.s, i, desired.name, desired.spec);
    UnfacedAlike(mid, i, mid.bindings[i].spec, FenceOf(desired.spec));
  }

  lemma UnfacedAlike(s: State, k: Key, a: BindingSpec, b: BindingSpec)
    requires Coincide(a, b)
    ensures Unfaced(s, k, a) <==> Unfaced(s, k, b)
  {
    hide FenceOf;
    forall n | Made(s, n) ensures Faces(s, k, n, a) <==> Faces(s, k, n, b) {}
  }

  lemma OpeningKept(a: State, b: State, k: Key, name: string)
    requires a.objects == b.objects && StoredRecord(a, k) == StoredRecord(b, k)
    ensures Opening(a, k, name) == Opening(b, k, name)
  {
  }

  lemma EditApplies(r: Rules, s: State, k: Key, spec: BindingSpec)
    requires Inv(r, s) && k in s.bindings && Permitted(r, NO_FOCUS, s, EditBinding(k, spec))
    ensures s.bindings[k].key == k && Inv(r, Edited(s, k, spec)) && Step(r, s, Edited(s, k, spec))
  {
    hide Inv, Step, Rely;
    StoredVersion(r, s, k);
    EnvKeeps(r, NO_FOCUS, s, EditBinding(k, spec));
  }

  // An edit leaves output, records and who has which boundary as they were.
  lemma EditKeepsOutputs(s: State, k: Key, spec: BindingSpec, i: Key, n: string, o: ObjectSpec)
    requires k in s.bindings && s.bindings[k].key == k
    ensures var t := Edited(s, k, spec);
            && t.objects == s.objects && StoredRecord(t, i) == StoredRecord(s, i)
            && (Unshared(t) <==> Unshared(s)) && (Clear(t, n, o) <==> Clear(s, n, o))
  {
    hide FenceOf, RecordOf, Overlapping;
    var t := Edited(s, k, spec);
    forall m ensures Made(t, m) <==> Made(s, m) {}
    forall m | Made(s, m) ensures MakerOf(t, m) == MakerOf(s, m) && t.objects[m] == s.objects[m] {}
    forall m, j, boundary | Made(s, m) ensures Faces(t, j, m, boundary) <==> Faces(s, j, m, boundary) {}
    hide Edited, Faces;
  }

  // ------------------------------------------------------------ an edit inside a reconcile

  lemma SoundFence(config: Config, key: Key, spec: BindingSpec, plan: Plan, digest: string -> string)
    requires SoundRendering(key, spec, Plans(plan))
    ensures Coincide(spec, FenceOf(DesiredOutput(config, key, plan, digest).spec))
  {
    hide Bounds, DesiredName;
    SpellsKeyed(DesiredOutput(config, key, plan, digest).spec, key.namespace, spec);
  }

  lemma BerthedAlike(s: State, k: Key, a: BindingSpec, b: BindingSpec)
    requires Coincide(a, b)
    ensures Berthed(s, k, a) <==> Berthed(s, k, b)
  {
  }

  // The rule for edits, for a binding under reconciliation that has no output yet: after
  // the edit nobody is trapped, and the output to come in the boundary seen traps nobody.
  lemma MooringIff(f: Focus, s: State, b: Key, k: Key, spec: BindingSpec)
    requires Moored(s) && f.key == Some(b) && b in s.bindings && k in s.bindings && s.bindings[k].key == k
    requires Coincide(s.bindings[b].spec, f.seen) && Vacant(s, b) && !StoredRecord(s, b).Confirmed?
    ensures b in Edited(s, k, spec).bindings
    ensures Mooring(f, s, k, spec) <==>
              Moored(Edited(s, k, spec)) && ((k == b && StoredRecord(s, b).Unclaimed?) || Berthed(Edited(s, k, spec), b, f.seen))
  {
    hide FenceOf, RecordOf, Moored, Moorable, Vacant;
    PutMooredIff(s, s.bindings[k].(spec := spec, generation := s.bindings[k].generation + 1));
    MoorableKept(s, k, spec);
    hide StoredRecord;
  }

  lemma MoorableKept(s: State, k: Key, spec: BindingSpec)
    ensures k in s.bindings && Coincide(spec, s.bindings[k].spec) ==> Moorable(s, k, spec)
  {
  }

  lemma OnlyKeepsMoored(a: State, b: State, k: Key)
    requires OnlyBinding(a, b, k)
    ensures (Moored(a) <==> Moored(b)) && (Unshared(a) <==> Unshared(b))
  {
    hide FenceOf;
    forall n ensures Made(a, n) <==> Made(b, n) {}
    forall j, boundary ensures Berthed(a, j, boundary) == Berthed(b, j, boundary) { BerthOnly(a, b, k, j, boundary); }
    forall m, j, boundary | Made(a, m) ensures Faces(b, j, m, boundary) <==> Faces(a, j, m, boundary) {}
    hide Berthed, Faces;
  }

  lemma BerthOnly(a: State, b: State, k: Key, j: Key, boundary: BindingSpec)
    requires OnlyBinding(a, b, k)
    ensures Berthed(a, j, boundary) == Berthed(b, j, boundary)
  {
  }

  // Others edit binding k after the list of b's reconcile and before its Create, where
  // nobody else has output in the boundary of b: none is shared, and nobody is trapped
  // afterwards exactly when the edit parts nobody from output.
  method EditThenWrite(api: Cluster, config: Config, b: Binding, plan: Plan, digest: string -> string, k: Key, spec: BindingSpec)
    requires api.Valid() && api.Calm() && Covering(api.rules) && !api.rules.spaced && !api.rules.moored
    requires b.Good(api) && b.finalizer && Fresh(api, b) && !b.Record().Confirmed? && api.focus.key == Some(b.key) && Reservable(api.focus, b.origin)
    requires SoundRendering(b.key, b.spec, Plans(plan)) && Manifest.IsDigest(digest(plan.spiffeID))
    requires Aligned(b.Record(), DesiredName(b.key, plan, digest)) && DesiredName(b.key, plan, digest) !in api.s.objects
    requires Moored(api.s) && Unshared(api.s) && Unfaced(api.s, b.key, b.spec) && k in api.s.bindings
    modifies api, b
    ensures api.Valid() && Unshared(api.s) && (Moored(api.s) <==> old(Mooring(api.focus, api.s, k, spec)))
  {
    hide Inv, GoodTrace, Step, Rely, Frame, Follows, Edited, Unshared, Moored, Unfaced, Mooring, RecordOf, WorkingCopy, Bounds, DesiredName, Berthed, FenceOf,
         Spawned, Booked, Manifest.IsDigest, OnlyBinding, Vacant, SameRecords, Steady, Local, InForce, Slot, Unheld, DesiredOutput, Configured, SoundRendering, AllCalm;
    ghost var start, f := api.s, api.focus;
    ghost var name, out := DesiredName(b.key, plan, digest), DesiredOutput(config, b.key, plan, digest).spec;
    EditIsPermitted(api.rules, api.focus, api.s, k, spec);
    FreshRecord(api, b);
    ClaimIsVacant(api.rules, start, b.key);
    MooringIff(f, start, b.key, k, spec);
    RelyParts(api.rules, f, start, Edited(start, k, spec));
    SoundFence(config, b.key, b.spec, plan, digest);
    EditKeepsOutputs(start, k, spec, b.key, name, out);
    EditKeepsUnfaced(start, k, spec, b.key, b.spec);
    api.Advance(Edited(api.s, k, spec));
    SteadyKeeps(api.rules, f, start, api.s, b.origin);
    RecordAfter(start, api.s, b.key);
    FreshOrGone(api, b);
    ghost var mid := api.s;
    UnfacedAlike(mid, b.key, b.spec, FenceOf(out));
    BerthedAlike(mid, b.key, f.seen, FenceOf(out));
    var requeue, err := ReplaceAndApply(api, config, b, plan, digest);
    if k == b.key && StoredRecord(start, b.key).Unclaimed? {
      OnlyKeepsMoored(mid, api.s, b.key);
    } else {
      SpawnedUnsharedIff(api.rules, mid, api.s, b.key, name, out);
      SpawnedMooredIff(api.rules, mid, api.s, b.key, name, out);
    }
  }

  lemma EditKeepsUnfaced(s: State, k: Key, spec: BindingSpec, j: Key, boundary: BindingSpec)
    requires k in s.bindings
    ensures Unfaced(Edited(s, k, spec), j, boundary) <==> Unfaced(s, j, boundary)
  {
    hide FenceOf;
    var t := Edited(s, k, spec);
    forall m ensures Made(t, m) <==> Made(s, m) {}
    forall m | Made(s, m) ensures Faces(t, j, m, boundary) <==> Faces(s, j, m, boundary) {}
  }

  // Before the list, whoever faces b asks for its boundary. If the comparison after the
  // edit lets b pass, somebody was parted from that output.
  lemma FacedIsUnmoored(r: Rules, config: Config, f: Focus, s: State, b: Key, plan: Plan, k: Key, spec: BindingSpec)
    requires Inv(r, s) && Covering(r) && Moored(s) && !r.spaced && !r.moored && b in s.bindings && k in s.bindings && s.bindings[k].key == k
    requires f == Reading(b, s.bindings[b].spec)
    requires StoredRecord(s, b).Pending? && plan.variant == s.bindings[b].spec.variant && !Unfaced(s, b, s.bindings[b].spec)
    requires var t := Edited(s, k, spec); b in t.bindings && PeersHarmless(config, t, VariantRecordOf(b, t.bindings[b].spec, plan))
    ensures !Mooring(f, s, k, spec)
  {
    hide Inv, Step, Rely, FenceOf, RecordOf, PeersHarmless, VariantRecordOf;
    var n :| Made(s, n) && Faces(s, b, n, s.bindings[b].spec);
    var j := MakerOf(s, n);
    assert Berthed(s, j, FenceOf(s.objects[n].spec));
    assert j in s.bindings && Coincide(s.bindings[j].spec, s.bindings[b].spec);
    EditIsPermitted(r, NO_FOCUS, s, k, spec);
    var t := Edited(s, k, spec);
    hide Edited;
    if t.bindings[b].spec.variant == plan.variant {
      HarmlessIsFree(r, config, t, b, plan);
      assert Made(t, n) && MakerOf(t, n) == j && !Rivals(t, b, j);
    }
    assert !Coincide(t.bindings[b].spec, f.seen) || !Coincide(t.bindings[j].spec, f.seen);
    if k == b { assert Committed(f, s, b) && !Unsought(s, b, f.seen); }
  }

  // The same between the first read and the list of a reconcile that goes on from a claim
  // and that the comparison, made after the edit, lets pass: afterwards no boundary is
  // shared and nobody is trapped exactly when the edit parts nobody from output.
  method EditThenCompare(api: Cluster, config: Config, b: Binding, plan: Plan, digest: string -> string, k: Key, spec: BindingSpec)
    requires api.Valid() && api.Calm() && Covering(api.rules) && !api.rules.spaced && !api.rules.moored
    requires b.Good(api) && b.finalizer && !b.deleting && Fresh(api, b) && b.Record().Pending? && api.focus == Reading(b.key, b.spec)
    requires SoundRendering(b.key, b.spec, Plans(plan)) && Manifest.IsDigest(digest(plan.spiffeID))
    requires b.Record().name == DesiredName(b.key, plan, digest) && b.Record().name !in api.s.objects
    requires Moored(api.s) && Unshared(api.s) && k in api.s.bindings
    requires var t := Edited(api.s, k, spec); b.key in t.bindings && PeersHarmless(config, t, VariantRecordOf(b.key, t.bindings[b.key].spec, plan))
    modifies api, b
    ensures api.Valid() && (Unshared(api.s) && Moored(api.s) <==> old(Mooring(api.focus, api.s, k, spec)))
  {
    hide Inv, GoodTrace, Step, Rely, Frame, Follows, Edited, Unshared, Moored, Unfaced, Mooring, RecordOf, WorkingCopy, Bounds, DesiredName, Berthed, FenceOf,
         Spawned, Manifest.IsDigest, Vacant, SameRecords, Steady, PeersHarmless, VariantRecordOf, NoOrphans, Marked, Exclusive, RivalsAmong, DesiredOutput, SoundRendering,
         AllCalm, Live, Vouched;
    ghost var start, f := api.s, api.focus;
    ghost var name, out := DesiredName(b.key, plan, digest), DesiredOutput(config, b.key, plan, digest).spec;
    EditIsPermitted(api.rules, api.focus, api.s, k, spec);
    FreshRecord(api, b);
    ClaimIsVacant(api.rules, start, b.key);
    MooringIff(f, start, b.key, k, spec);
    SoundVariant(b.key, b.spec, plan);
    if !Unfaced(start, b.key, b.spec) { FacedIsUnmoored(api.rules, config, f, start, b.key, plan, k, spec); }
    RelyParts(api.rules, f, start, Edited(start, k, spec));
    SoundFence(config, b.key, b.spec, plan, digest);
    EditKeepsOutputs(start, k, spec, b.key, name, out);
    EditKeepsUnfaced(start, k, spec, b.key, b.spec);
    api.Advance(Edited(api.s, k, spec));
    SteadyKeeps(api.rules, f, start, api.s, b.origin);
    RecordAfter(start, api.s, b.key);
    ghost var mid := api.s;
    UnfacedAlike(mid, b.key, b.spec, FenceOf(out));
    BerthedAlike(mid, b.key, f.seen, FenceOf(out));
    var requeue, err := ReconcilePlanned(api, config, b, plan, digest);
    SpawnedUnsharedIff(api.rules, mid, api.s, b.key, name, out);
    SpawnedMooredIff(api.rules, mid, api.s, b.key, name, out);
  }

  // ------------------------------------------------------------ a concrete run

  // Every rule but the one about output that is left behind.
  const UNMOORED := Rules(true, true, true, false, true)

  const SHARED := Pod("ns", "sa", LABELS[VARIANT_KEY := "v"])

  // The settled output of the sample selects the pod with its labels.
  lemma SettledSelects(s: State, k: Key, p: char)
    requires Settled(CONFIG, s, k, Digest) && s.pools == POOLS && k.namespace == "ns" && (p == 'p' || p == 'q') && s.bindings[k].spec == Spec(p, 'v')
    ensures Eligible(CONFIG, s, k) && var n := DesiredName(k, PlanOf(CONFIG, s, k), Digest);
            n in s.objects && Selects(s.objects[n], SHARED)
  {
    hide Render.PlanOf, Pools.Accepted, Pools.Labels, RenderingOf, Parse, DesiredName, PeersHarmless, PeersResting, Reported, RecordOf, SELECTOR, POOLS, LABELS,
         PoolRefOK, Render.VariantError, Pools.Lists, Digest;
    Renders(s, k, p, 'v');
    Pools.SelectorRoundTrip(Pool([p], SELECTOR), InputFor(k, p, 'v'));
    assert ['v'] == "v";
  }

  lemma EditIsSpaced(r: Rules, s: State, k: Key, spec: BindingSpec)
    requires Inv(r, s) && !r.moored && k in s.bindings && Spaced(NO_FOCUS, s, k, spec)
    ensures Permitted(r, NO_FOCUS, s, EditBinding(k, spec)) && s.bindings[k].key == k
    ensures var t := Edited(s, k, spec);
            Inv(r, t) && Step(r, s, t) && Respecified(s, t, k, spec)
  {
    hide Inv, Step;
    StoredVersion(r, s, k);
    EnvKeeps(r, NO_FOCUS, s, EditBinding(k, spec));
  }

  // The live output moves away by its spec, and the peer takes its place.
  lemma Swapped(r: Rules, a: State, s: State)
    requires Inv(r, s) && Covering(r) && !r.moored && Both(a, 'v', 'w') && a.objects == map[] && StoredRecord(a, PEER).Unclaimed?
    requires Settled(CONFIG, s, HOME, Digest) && Private(a, s, HOME)
    ensures Both(s, 'v', 'w') && Spaced(NO_FOCUS, s, HOME, Spec('p', 'x'))
    ensures var t := Edited(s, HOME, Spec('p', 'x')); PEER in t.bindings && Spaced(NO_FOCUS, t, PEER, Spec('q', 'v'))
  {
    HomeIsNotPeer();
    OnlyHomeIsLive(r, a, s);
    BothKept(a, s, HOME, 'v', 'w');
    assert ['x'][0] != ['w'][0];
    hide Settled, RecordOf, CONFIG, POOLS, Digest, HOME, PEER;
    assert Spaced(NO_FOCUS, s, HOME, Spec('p', 'x'));
    EditIsSpaced(r, s, HOME, Spec('p', 'x'));
    var t := Edited(s, HOME, Spec('p', 'x'));
    hide Inv, Edited, Private;
    assert Vacant(t, PEER);
  }

  // From s to t the spec of k changed, and nothing else of account.
  ghost predicate Respecified(s: State, t: State, k: Key, spec: BindingSpec) {
    && k in s.bindings && k in t.bindings && t.bindings[k].spec == spec && t.bindings[k].deleting == s.bindings[k].deleting
    && (forall j | j != k :: (j in t.bindings <==> j in s.bindings) && (j in s.bindings ==> t.bindings[j] == s.bindings[j]))
    && t.objects == s.objects && t.pools == s.pools && t.created == s.created && StoredRecord(t, k) == StoredRecord(s, k)
  }

  lemma SwappedBoth(s: State, t: State, u: State)
    requires Both(s, 'v', 'w') && Respecified(s, t, HOME, Spec('p', 'x')) && Respecified(t, u, PEER, Spec('q', 'v'))
    ensures Both(u, 'x', 'v') && u.objects == s.objects && u.created == s.created && StoredRecord(u, PEER) == StoredRecord(s, PEER)
  {
    HomeIsNotPeer();
    hide HOME, PEER, POOLS, Spec, RecordOf;
  }

  // The peer is ripe in the place of the other.
  lemma SwappedIsRipe(r: Rules, a: State, s: State, u: State)
    requires Inv(r, s) && Covering(r) && a.objects == map[] && Settled(CONFIG, s, HOME, Digest) && Private(a, s, HOME)
    requires Both(s, 'v', 'w') && Both(u, 'x', 'v') && u.objects == s.objects && StoredRecord(u, PEER).Unclaimed?
    ensures Ripe(CONFIG, u, PEER, Digest) && PeersResting(CONFIG, u, PEER)
  {
    hide Inv, Settled, DesiredName, Eligible, PlanOf, RecordOf, SelfOf, HOME, PEER, CONFIG, POOLS, Digest, Both, Private;
    SettledIsLive(r, s, HOME);
    OnlyHomeIsLive(r, a, s);
    PeerNameIsFree(s, u);
    BothRipe(u, 'x', 'v', PEER);
  }

  lemma PeerNameIsFree(s: State, u: State)
    requires Both(s, 'v', 'w') && Both(u, 'x', 'v')
    ensures Eligible(CONFIG, s, HOME) && Eligible(CONFIG, u, PEER)
    ensures DesiredName(HOME, PlanOf(CONFIG, s, HOME), Digest) != DesiredName(PEER, PlanOf(CONFIG, u, PEER), Digest)
  {
    hide RenderingOf, PoolRefOK, Render.VariantError, DesiredName, Render.PlanOf, Pools.Accepted, POOLS;
    BothRender(s, 'v', 'w');
    BothRender(u, 'x', 'v');
    RenderedAs(s, HOME, 'p', 'v');
    RenderedAs(u, PEER, 'q', 'v');
    NameEndsInDigest(HOME, PlanOf(CONFIG, s, HOME));
    NameEndsInDigest(PEER, PlanOf(CONFIG, u, PEER));
  }

  // Two live outputs that select one pod.
  lemma PodTwice(s: State, m: string, n: string, pod: Pod)
    requires Made(s, m) && Made(s, n) && MakerOf(s, m).namespace != "" && MakerOf(s, n).namespace != "" && m != n
    requires Selects(s.objects[m], pod) && Selects(s.objects[n], pod)
    ensures !NoPodTwice(s)
  {
    hide Selects;
  }

  lemma BothSelect(r: Rules, s: State, u: State, b: State)
    requires Inv(r, s) && Inv(r, b) && Both(s, 'v', 'w') && Both(u, 'x', 'v') && Settled(CONFIG, s, HOME, Digest)
    requires u.objects == s.objects && u.created == s.created && Settled(CONFIG, b, PEER, Digest) && Private(u, b, PEER)
    ensures !NoPodTwice(b)
  {
    HomeIsNotPeer();
    BothKept(u, b, PEER, 'x', 'v');
    hide Inv, Settled, DesiredName, Eligible, PlanOf, RecordOf, HOME, PEER, CONFIG, POOLS, Digest, Private, NoPodTwice, Selects, SHARED,
         LABELS;
    SettledIsLive(r, s, HOME);
    SettledIsLive(r, b, PEER);
    SettledSelects(s, HOME, 'p');
    SettledSelects(b, PEER, 'q');
    var m := DesiredName(HOME, PlanOf(CONFIG, s, HOME), Digest);
    assert Made(u, m) && MakerOf(u, m) == HOME;
    StillMade(u, b, PEER, m);
    PodTwice(b, m, DesiredName(PEER, PlanOf(CONFIG, b, PEER), Digest), SHARED);
  }

  // HOME moves on to another boundary by its spec, and the peer takes the old one.
  method Swap(api: Cluster)
    requires api.Valid() && api.Calm() && Covering(api.rules) && !api.rules.moored && Settled(CONFIG, api.s, HOME, Digest) && Private(PAIR, api.s, HOME)
    modifies api
    ensures api.Valid() && api.Calm() && Both(old(api.s), 'v', 'w') && Both(api.s, 'x', 'v')
    ensures api.s.objects == old(api.s.objects) && api.s.created == old(api.s.created) && StoredRecord(api.s, PEER).Unclaimed?
  {
    hide Inv, GoodTrace, Step, Both, Settled, Private, Digest, Permitted, Edited, Spec, Spaced, RecordOf, Respecified, HOME, PEER, PAIR, CONFIG,
         Untended;
    PairIsUntended();
    PairIsBare();
    ghost var once := api.s;
    Swapped(api.rules, PAIR, once);
    BothThere(once, 'v', 'w');
    EditIsSpaced(api.rules, once, HOME, Spec('p', 'x'));
    api.Advance(Edited(api.s, HOME, Spec('p', 'x')));
    ghost var moved := api.s;
    EditIsSpaced(api.rules, moved, PEER, Spec('q', 'v'));
    api.Advance(Edited(api.s, PEER, Spec('q', 'v')));
    SwappedBoth(once, moved, api.s);
    PeerKept(PAIR, once);
  }

  lemma PairIsBare()
    ensures PAIR.objects == map[]
  {
  }

  // From an untended cluster: HOME gets output for its boundary, moves on to another
  // one by its spec, the peer takes the old boundary and gets output too.
  method EditSharesPods() returns (api: Cluster)
    ensures fresh(api) && api.Valid() && api.rules == UNMOORED && Untended(api.genesis)
    ensures !NoPodTwice(api.s)
  {
    hide Inv, GoodTrace, Both, Ripe, Settled, PeersResting, Private, Manifest.IsDigest, Digest, Leaving, Failing, Clashing, Untended,
         NoPodTwice, RecordOf, HOME, PEER, PAIR, CONFIG;
    PairIsUntended();
    PairIsBare();
    UntendedIsFine(UNMOORED, PAIR);
    forall x: string ensures Manifest.IsDigest(Digest(x)) { DigestIsDigest(x); }
    BothRender(PAIR, 'v', 'w');
    BothRipe(PAIR, 'v', 'w', HOME);
    api := new Cluster(UNMOORED, PAIR, []);
    var requeue, err := Reconcile(api, CONFIG, HOME, Digest);
    ghost var once := api.s;
    Swap(api);
    ghost var swapped := api.s;
    SwappedIsRipe(UNMOORED, PAIR, once, swapped);
    requeue, err := Reconcile(api, CONFIG, PEER, Digest);
    BothSelect(UNMOORED, once, swapped, api.s);
  }

  lemma PeerKept(a: State, b: State)
    requires Private(a, b, HOME)
    ensures StoredRecord(b, PEER) == StoredRecord(a, PEER)
  {
    HomeIsNotPeer();
  }
}
