// Settled conflicts agree: bindings that clash name each other, and all members of
// a clash name the same bindings.

module Agreement {
  import opened Types
  import opened Statuses
  import opened Store
  import opened Boundary
  import opened Conflicts
  import opened Output
  import opened Peers
  import opened Quiet
  import opened Reconciler
  import opened Settling
  import opened StatusWriter
  import Pools
  import Render

  // A conflict status names the binding of its namespace called n.
  ghost predicate Names(s: Status, n: string) {
    exists e :: e in s.conflicts && e.bindingName == n
  }

  // The binding renders in both states, from the same spec and pools.
  ghost predicate Alike(config: Config, a: State, b: State, k: Key) {
    && Eligible(config, a, k) && Eligible(config, b, k) && a.pools == b.pools && a.bindings[k].spec == b.bindings[k].spec
    && a.bindings[k].key == k && b.bindings[k].key == k
  }

  lemma AlikeIsSame(config: Config, a: State, b: State, k: Key)
    requires Alike(config, a, b, k)
    ensures SelfOf(config, a, k) == SelfOf(config, b, k)
  {
    RenderingFromPools(config, a, b, k, a.bindings[k].spec);
    hide RenderingOf;
  }

  // The diagnosis against a peer that renders.
  lemma ClashIs(config: Config, s: State, x: Key, z: Key)
    requires Eligible(config, s, x) && Eligible(config, s, z) && x != z && s.bindings[z].key == z
    ensures ClashWith(config, s, SelfOf(config, s, x), PlanOf(config, s, x), z).Some? <==> Pair(SelfOf(config, s, x), SelfOf(config, s, z)).Some?
  {
    hide RenderingOf, Pair, Live, Eligible, PlanOf, RecordOf, VariantRecordOf, PoolRefOK, Render.VariantError;
    SelfRef(config, s, x);
    EligibleIs(config, s, z);
    PlanIs(config, s, z);
  }

  // The settled status names exactly the peers that clash.
  lemma ReportNames(config: Config, a: State, b: State, self: VariantRecord, plan: Plan, gen: nat, z: Key)
    requires ClashReported(config, a, b, self, plan, gen) && IsPeer(a, self.ref, z)
    ensures self.ref in b.bindings && (Names(b.bindings[self.ref].status, z.name) <==> ClashWith(config, a, self, plan, z).Some?)
  {
    hide ConflictStatus, Pair, StandingIn, StoredRecord;
    var conflicts := b.bindings[self.ref].status.conflicts;
    if Names(b.bindings[self.ref].status, z.name) {
      var e :| e in conflicts && e.bindingName == z.name;
      var j :| IsPeer(a, self.ref, j) && ClashEntry(config, a, self, plan, j) == Some(e);
      assert j == z;
    }
    if ClashWith(config, a, self, plan, z).Some? {
      assert ClashEntry(config, a, self, plan, z).value in conflicts;
    }
  }

  // The status settled from a names z exactly when the two clash in a.
  lemma NamedIff(config: Config, a: State, b: State, x: Key, z: Key)
    requires Settles(config, a, b, x) && Eligible(config, a, x) && Eligible(config, a, z) && a.bindings[z].key == z
    requires x != z && x.namespace == z.namespace
    ensures x in b.bindings && (Names(b.bindings[x].status, z.name) <==> Pair(SelfOf(config, a, x), SelfOf(config, a, z)).Some?)
  {
    hide Eligible, SelfOf, PlanOf, Pair, ClashWith, ClashReported, Names;
    SelfRef(config, a, x);
    EligibleIs(config, a, x);
    EligibleIs(config, a, z);
    ClashIs(config, a, x, z);
    ReportNames(config, a, b, SelfOf(config, a, x), PlanOf(config, a, x), a.bindings[x].generation, z);
  }

  // One settled status names the other binding exactly when the other's names it.
  lemma NamesEachOther(config: Config, a: State, b: State, c: State, d: State, x: Key, y: Key)
    requires Settles(config, a, b, x) && Settles(config, c, d, y) && x != y && x.namespace == y.namespace
    requires Alike(config, a, c, x) && Alike(config, a, c, y)
    ensures x in b.bindings && y in d.bindings
    ensures Names(b.bindings[x].status, y.name) <==> Names(d.bindings[y].status, x.name)
  {
    hide Settles, Eligible, SelfOf;
    NamedIff(config, a, b, x, y);
    NamedIff(config, c, d, y, x);
    AlikeIsSame(config, a, c, x);
    AlikeIsSame(config, a, c, y);
  }

  // Two bindings that render clash exactly when their boundaries are the same.
  lemma ClashIsSameBoundary(config: Config, s: State, x: Key, z: Key)
    requires Eligible(config, s, x) && Eligible(config, s, z) && x.namespace == z.namespace && '/' !in config.trustDomain && '/' !in x.namespace
    ensures Pair(SelfOf(config, s, x), SelfOf(config, s, z)).Some? <==> Coincide(s.bindings[x].spec, s.bindings[z].spec)
  {
    hide Render.PlanOf, Pools.Accepted, Pools.Labels, Pair, PoolRefOK, Render.VariantError;
    var i, j := InputAt(config, s, x), InputAt(config, s, z);
    Render.PlannedSegments(i);
    Render.PlannedSegments(j);
    ConflictIsSameBoundary(i, x.name, j, z.name);
  }

  ghost function InputAt(config: Config, s: State, k: Key): Render.PlanInput
    requires Eligible(config, s, k)
  {
    var v := s.bindings[k];
    var pool := s.pools[PoolKey(k, v.spec)];
    Pools.InputOf(config, k, v.spec, pool, Pools.Labels(pool), Pools.SomeListing(Pools.Labels(pool)))
  }

  // If one settled status names the other binding, both name the same bindings,
  // each counting itself.
  lemma GroupsSettleAlike(config: Config, a: State, b: State, c: State, d: State, x: Key, y: Key, z: Key)
    requires Settles(config, a, b, x) && Settles(config, c, d, y) && x.namespace == y.namespace == z.namespace
    requires Alike(config, a, c, x) && Alike(config, a, c, y) && Alike(config, a, c, z)
    requires '/' !in config.trustDomain && '/' !in x.namespace && x != y && x in b.bindings && Names(b.bindings[x].status, y.name)
    ensures y in d.bindings
    ensures (z == x || Names(b.bindings[x].status, z.name)) <==> (z == y || Names(d.bindings[y].status, z.name))
  {
    hide Settles, Eligible, SelfOf, Names;
    NamedIff(config, a, b, x, y);
    ClashIsSameBoundary(config, a, x, y);
    if z != x { NamedIff(config, a, b, x, z); ClashIsSameBoundary(config, a, x, z); }
    if z != y { NamedIff(config, c, d, y, z); ClashIsSameBoundary(config, c, y, z); }
    if z == y { NamedIff(config, c, d, y, x); ClashIsSameBoundary(config, c, y, x); }
  }
}
