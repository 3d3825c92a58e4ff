// From a ripe state to a settled one: what a reconcile reaches when nothing
// interferes, and what the next one then leaves alone.

module Settling {
  import opened Types
  import opened Statuses
  import opened Store
  import opened Changes
  import opened Ownership
  import opened Output
  import opened StatusWriter
  import opened Boundary
  import opened Peers
  import opened Quiet
  import Manifest
  import Render
  import Text

  // ------------------------------------------------------------ desired output

  // `digest` stands for the first eight hexadecimal digits of the SHA-1 of the SPIFFE ID.
  function DesiredName(key: Key, plan: Plan, digest: string -> string): string {
    Manifest.BuildName(key.namespace, key.name, plan.anchor.kind, digest(plan.spiffeID))
  }

  function DesiredOutput(config: Config, key: Key, plan: Plan, digest: string -> string): Object {
    Manifest.Desired(key, plan, config.className, DesiredName(key, plan, digest))
  }

  lemma DesiredIsNamed(config: Config, key: Key, plan: Plan, digest: string -> string)
    requires Manifest.IsDigest(digest(plan.spiffeID))
    ensures DesiredOutput(config, key, plan, digest).name == DesiredName(key, plan, digest) && !Text.Blank(DesiredName(key, plan, digest))
    ensures DesiredOutput(config, key, plan, digest).spec.Rendered?
  {
    hide Manifest.BuildName, Manifest.Mode;
    Manifest.NameIsLabel(key.namespace, key.name, plan.anchor.kind, digest(plan.spiffeID));
  }

  // ------------------------------------------------------------ ripe and settled

  // The binding is not deleting and renders.
  ghost predicate Eligible(config: Config, s: State, key: Key) {
    key in s.bindings
    && var v := s.bindings[key];
       !v.deleting && PoolRefOK(v.spec) && Render.VariantError(v.spec.variant).None? && RenderingOf(config, s, key, v.spec).Plans?
  }

  ghost function PlanOf(config: Config, s: State, key: Key): Plan
    requires Eligible(config, s, key)
  {
    RenderingOf(config, s, key, s.bindings[key].spec).plan
  }

  ghost function SelfOf(config: Config, s: State, key: Key): VariantRecord
    requires Eligible(config, s, key)
  {
    VariantRecordOf(key, s.bindings[key].spec, PlanOf(config, s, key))
  }

  // Every peer is exclusive or without output, no foreign object sits at the
  // desired name, and no finalizer holds the recorded output.
  ghost predicate Ripe(config: Config, s: State, key: Key, digest: string -> string) {
    && Eligible(config, s, key) && PeersHarmless(config, s, SelfOf(config, s, key))
    && Slot(s, StoredRecord(s, key), DesiredName(key, PlanOf(config, s, key), digest))
    && Unheld(s, StoredRecord(s, key))
  }

  // Ready=True with a confirmed object in sync, reported as it is, and peers at rest.
  ghost predicate Settled(config: Config, s: State, key: Key, digest: string -> string) {
    && Eligible(config, s, key)
    && var plan, v := PlanOf(config, s, key), s.bindings[key];
       var desired := DesiredOutput(config, key, plan, digest);
    && v.finalizer && PeersHarmless(config, s, SelfOf(config, s, key)) && PeersResting(config, s, key)
    && InPlace(s, RecordOf(v.status), desired)
    && v.status == Reported(config, v.status, v.generation, plan, s.objects[desired.name])
  }

  // The success status for this plan and object, whatever record s holds.
  function Reported(config: Config, s: Status, gen: nat, plan: Plan, o: Object): Status {
    SuccessStatus(s, gen, plan, RenderedStatus(plan, o)).(trustDomain := config.trustDomain, className := config.className)
  }

  lemma SettledIsReady(config: Config, s: State, key: Key, digest: string -> string)
    requires Settled(config, s, key, digest)
    ensures Holds(s.bindings[key].status, Statuses.Ready) && RecordOf(s.bindings[key].status).Confirmed?
  {
  }

  // ------------------------------------------------------------ what local changes keep

  lemma PeersKept(config: Config, r: Rules, a: State, b: State, self: VariantRecord)
    requires Inv(r, a) && Inv(r, b) && Local(a, b, self.ref) && PeersHarmless(config, a, self)
    ensures PeersHarmless(config, b, self) && (PeersResting(config, a, self.ref) ==> PeersResting(config, b, self.ref))
  {
    hide Inv, RenderingOf, Pair, Live, RecordOf;
    forall j | IsPeer(b, self.ref, j)
      ensures Harmless(config, b, self, j) && (PeersResting(config, a, self.ref) ==> Resting(config, b, j))
    {
      LiveElsewhere(r, a, b, self.ref, j);
      assert IsPeer(a, self.ref, j);
      RenderingFromPools(config, a, b, j, a.bindings[j].spec);
    }
  }

  lemma EligibleKept(config: Config, a: State, b: State, key: Key)
    requires Eligible(config, a, key) && a.pools == b.pools && key in b.bindings
    requires b.bindings[key].spec == a.bindings[key].spec && b.bindings[key].deleting == a.bindings[key].deleting
    ensures Eligible(config, b, key) && PlanOf(config, b, key) == PlanOf(config, a, key) && SelfOf(config, b, key) == SelfOf(config, a, key)
  {
    hide RenderingOf, PoolRefOK, Render.VariantError;
    RenderingFromPools(config, a, b, key, a.bindings[key].spec);
  }

  // ------------------------------------------------------------ publishing success

  // Publishing a status that carries the stored record stores exactly it.
  lemma PublishedIs(s: State, k: Key, status: Status)
    requires k in s.bindings && s.bindings[k].key == k && s.bindings[k].status.pending == status.pending && s.bindings[k].status.owned == status.owned
    ensures var t := Published(s, k, status);
            && OnlyBinding(s, t, k) && t.objects == s.objects && k in t.bindings && t.bindings[k].status == status
            && (s.bindings[k].status == status ==> t == s)
  {
    assert Rebased(status, s.bindings[k].status) == status;
  }

  // The desired name is free, or holds the recorded incarnation, after the old
  // name has been given up.
  lemma SlotKept(r: Rules, a: State, b: State, k: Key, before: Record, after: Record, name: string)
    requires Inv(r, a) && Frame(a, b) && Local(a, b, k) && Slot(a, before, name)
    requires after.Unclaimed? && !before.Unclaimed? && before.name != name
    ensures Slot(b, after, name)
  {
    ObjectNamed(r, a, name);
    hide Inv, Frame, Local;
    StaysAbsent(a, b, k, name);
  }

  lemma SuccessIsReported(config: Config, status: Status, gen: nat, plan: Plan, o: Object)
    requires status.trustDomain == config.trustDomain && status.className == config.className
    ensures var final := SuccessStatus(status, gen, plan, RenderedStatus(plan, o));
            && final == Reported(config, final, gen, plan, o)
            && RecordOf(final) == RecordOf(status) && final.pending == status.pending && final.owned == status.owned
    ensures forall s: Status | s.pending == status.pending && s.owned == status.owned && s == Reported(config, s, gen, plan, o) ::
              s == SuccessStatus(status, gen, plan, RenderedStatus(plan, o))
  {
    hide RenderedStatus, Resolving;
  }

  predicate Configured(s: Status, config: Config) {
    s.trustDomain == config.trustDomain && s.className == config.className
  }

  // The output is in place and reported: nothing is left to apply.
  ghost predicate InForce(config: Config, s: State, key: Key, gen: nat, plan: Plan, desired: Object) {
    && key in s.bindings && InPlace(s, StoredRecord(s, key), desired)
    && s.bindings[key].status == Reported(config, s.bindings[key].status, gen, plan, s.objects[desired.name])
  }

  lemma InForceHasSlot(config: Config, s: State, key: Key, gen: nat, plan: Plan, desired: Object)
    requires InForce(config, s, key, gen, plan, desired) && (desired.name in s.objects ==> s.objects[desired.name].name == desired.name)
    ensures Slot(s, StoredRecord(s, key), desired.name) && InPlace(s, StoredRecord(s, key), desired)
  {
  }

  lemma InForceNamed(config: Config, s: State, key: Key, gen: nat, plan: Plan, desired: Object)
    requires InForce(config, s, key, gen, plan, desired)
    ensures StoredRecord(s, key).Confirmed? && StoredRecord(s, key).name == desired.name
  {
  }

  // Publishing the success of an applied output puts it in force, and writes
  // nothing when it already was.
  lemma ReadyToPublish(config: Config, s: State, k: Key, status: Status, gen: nat, plan: Plan, desired: Object, out: RenderedOutput)
    requires k in s.bindings && s.bindings[k].key == k && s.bindings[k].status.pending == status.pending && s.bindings[k].status.owned == status.owned
    requires Applied(s, RecordOf(status), plan, desired, out) && Configured(status, config)
    ensures var t := Published(s, k, SuccessStatus(status, gen, plan, out));
            && OnlyBinding(s, t, k) && InForce(config, t, k, gen, plan, desired)
            && (InForce(config, s, k, gen, plan, desired) ==> t == s)
  {
    var o := s.objects[desired.name];
    hide Manifest.InSync, RenderedStatus, Published, RecordOf, SuccessStatus, Reported, OnlyBinding;
    SuccessIsReported(config, status, gen, plan, o);
    PublishedIs(s, k, SuccessStatus(status, gen, plan, out));
  }

  lemma LocalThenOnly(a: State, b: State, c: State, k: Key)
    requires Local(a, b, k) && OnlyBinding(b, c, k)
    ensures Local(a, c, k)
  {
    OnlyBindingIsLocal(b, c, k);
    LocalTransitive(a, b, c, k);
  }

  // ------------------------------------------------------------ the two ends

  lemma SettledAtLast(config: Config, r: Rules, a: State, b: State, key: Key, digest: string -> string)
    requires Inv(r, a) && Inv(r, b) && Local(a, b, key) && Eligible(config, a, key) && a.bindings[key].finalizer
    requires PeersHarmless(config, a, SelfOf(config, a, key)) && PeersResting(config, a, key)
    requires InForce(config, b, key, a.bindings[key].generation, PlanOf(config, a, key), DesiredOutput(config, key, PlanOf(config, a, key), digest))
    ensures Settled(config, b, key, digest)
  {
    hide Inv, PeersHarmless, PeersResting, InPlace, Reported, DesiredOutput, RenderingOf, VariantRecordOf;
    EligibleKept(config, a, b, key);
    SelfRef(config, a, key);
    PeersKept(config, r, a, b, SelfOf(config, a, key));
  }

  lemma SelfRef(config: Config, s: State, key: Key)
    requires Eligible(config, s, key)
    ensures SelfOf(config, s, key).ref == key
  {
  }

  // After an uneventful comparison the binding is as ripe as before, with peers at rest.
  lemma StillRipe(config: Config, a: State, b: State, key: Key, digest: string -> string)
    requires Ripe(config, a, key, digest) && Uneventful(config, a, b, SelfOf(config, a, key))
    ensures Ripe(config, b, key, digest) && PlanOf(config, b, key) == PlanOf(config, a, key) && PeersResting(config, b, key)
    ensures StoredRecord(b, key) == StoredRecord(a, key) && key in b.bindings && b.bindings[key] == a.bindings[key]
    ensures PeersResting(config, a, key) ==> b == a
  {
    hide PeersHarmless, PeersResting, RenderingOf, VariantRecordOf, DesiredName;
    SelfRef(config, a, key);
    EligibleKept(config, a, b, key);
  }

  lemma RipeFacts(config: Config, s: State, key: Key, digest: string -> string)
    requires Ripe(config, s, key, digest)
    ensures Eligible(config, s, key) && PeersHarmless(config, s, SelfOf(config, s, key))
    ensures SelfOf(config, s, key) == VariantRecordOf(key, s.bindings[key].spec, PlanOf(config, s, key))
    ensures Slot(s, StoredRecord(s, key), DesiredOutput(config, key, PlanOf(config, s, key), digest).name) && Unheld(s, StoredRecord(s, key))
  {
    hide PeersHarmless, Slot, Unheld, RenderingOf, DesiredName;
  }

  lemma SettledFacts(config: Config, s: State, key: Key, digest: string -> string)
    requires Settled(config, s, key, digest)
    ensures Eligible(config, s, key) && PeersHarmless(config, s, SelfOf(config, s, key)) && PeersResting(config, s, key)
    ensures SelfOf(config, s, key) == VariantRecordOf(key, s.bindings[key].spec, PlanOf(config, s, key))
  {
    hide PeersHarmless, PeersResting, RenderingOf, DesiredOutput, Reported, InPlace;
  }

  // Comparing the namespace leaves a settled state as it is.
  lemma SettledUntouched(config: Config, a: State, b: State, key: Key, digest: string -> string)
    requires Settled(config, a, key, digest) && Uneventful(config, a, b, SelfOf(config, a, key))
    ensures b == a
    ensures InForce(config, b, key, b.bindings[key].generation, PlanOf(config, b, key), DesiredOutput(config, key, PlanOf(config, b, key), digest))
  {
    hide PeersHarmless, PeersResting, RenderingOf, DesiredOutput, Reported, InPlace, VariantRecordOf;
    SelfRef(config, a, key);
    SettledFacts(config, a, key, digest);
    SettledInForce(config, a, key, digest);
  }

  lemma RipeWithFinalizer(config: Config, s: State, key: Key, digest: string -> string)
    requires Ripe(config, s, key, digest) && s.bindings[key].key == key
    ensures Ripe(config, Put(s, s.bindings[key].(finalizer := true)), key, digest)
    ensures Eligible(config, s, key) && Eligible(config, Put(s, s.bindings[key].(finalizer := true)), key)
  {
    hide RenderingOf, VariantRecordOf, DesiredName, Harmless;
    var t := Put(s, s.bindings[key].(finalizer := true));
    EligibleKept(config, s, t, key);
    SelfRef(config, s, key);
    forall j | IsPeer(t, key, j) ensures Harmless(config, t, SelfOf(config, s, key), j) {
      assert IsPeer(s, key, j);
      SameForPeer(config, s, t, SelfOf(config, s, key), j);
    }
  }

  lemma PlanIs(config: Config, s: State, key: Key)
    requires Eligible(config, s, key)
    ensures var v := s.bindings[key];
            && key in s.bindings && PoolRefOK(v.spec) && Render.VariantError(v.spec.variant).None?
            && RenderingOf(config, s, key, v.spec) == Plans(PlanOf(config, s, key))
  {
  }

  lemma SettledHasFinalizer(config: Config, s: State, key: Key, digest: string -> string)
    requires Settled(config, s, key, digest)
    ensures key in s.bindings && s.bindings[key].finalizer
  {
  }

  // A settled binding is in force, with peers at rest.
  lemma SettledInForce(config: Config, s: State, key: Key, digest: string -> string)
    requires Settled(config, s, key, digest)
    ensures InForce(config, s, key, s.bindings[key].generation, PlanOf(config, s, key), DesiredOutput(config, key, PlanOf(config, s, key), digest))
    ensures StoredRecord(s, key).Confirmed? && StoredRecord(s, key).name == DesiredOutput(config, key, PlanOf(config, s, key), digest).name
  {
    hide PeersHarmless, PeersResting, RenderingOf, DesiredOutput, Reported;
  }
}
