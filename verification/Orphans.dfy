// When a reconcile leaves an orphan: a binding that was read with a claim must still
// hold it, and must not be marked deleting, when the conflict phase lists it.

module Orphans {
  import opened Types
  import opened Statuses
  import opened Store
  import opened Changes
  import opened Environment
  import opened Calls
  import opened Client
  import opened Ownership
  import opened Output
  import opened Boundary
  import opened Conflicts
  import opened Peers
  import opened Quiet
  import opened Settling
  import opened Reconciler
  import opened Sample
  import Guarantees
  import Manifest
  import Render
  import Selection

  // Every peer can be told, whether it clashes or not, and none blocks.
  ghost predicate PeersTellable(config: Config, s: State, key: Key, plan: Plan) {
    forall j | IsPeer(s, key, j) ::
      var st := StandingIn(config, s, key, plan, s.bindings[j]);
      st.Some? && !st.value.Blocking?
  }

  // The binding renders and holds a claim to the desired name, which is free.
  ghost predicate Reserved(config: Config, s: State, key: Key, digest: string -> string) {
    && Eligible(config, s, key) && PeersTellable(config, s, key, PlanOf(config, s, key))
    && StoredRecord(s, key).Pending? && StoredRecord(s, key).name == DesiredName(key, PlanOf(config, s, key), digest)
    && StoredRecord(s, key).name !in s.objects
  }

  // The version of k marked for deletion.
  function Condemned(v: Stored): Stored {
    v.(deleting := true, generation := v.generation + 1)
  }

  lemma MarkIs(r: Rules, s: State, key: Key)
    requires Inv(r, s) && !r.latched && key in s.bindings && !s.bindings[key].deleting && StoredRecord(s, key).Pending?
    ensures s.bindings[key].key == key && Played(r, Reading(key, s.bindings[key].spec), s, [DeleteBinding(key)]) == Put(s, Condemned(s.bindings[key]))
  {
    hide Covered, Exclusive, Walled, ObjectsOK, ClaimsOK, EffectsOK, RecordOf, Attributed, StatusOK;
    var f, e := Reading(key, s.bindings[key].spec), DeleteBinding(key);
    assert s.bindings[key] in s.past;
    assert [e][..0] == [] && Played(r, f, s, []) == s;
  }

  // A marked binding with a claim is left out of the comparison.
  lemma MarkedIsResumable(r: Rules, config: Config, s: State, key: Key, digest: string -> string)
    requires Inv(r, s) && Reserved(config, s, key, digest) && s.bindings[key].key == key
    ensures var m := Put(s, Condemned(s.bindings[key]));
            && Resumable(config, s.bindings[key], m, digest) && !Vouched(m, key, StoredRecord(s, key)) && Marked(m, key)
            && StoredRecord(m, key) == StoredRecord(s, key) && !Live(m, StoredRecord(m, key))
  {
    hide Inv, RecordOf, RenderingOf, DesiredName, VariantRecordOf, StandingIn, PoolRefOK, Render.VariantError, PeersHarmless;
    var v := Condemned(s.bindings[key]);
    var m := Put(s, v);
    PutRecords(s, v);
    RenderingFromPools(config, s, m, key, v.spec);
    forall j | IsPeer(m, key, j) ensures IsPeer(s, key, j) && StandingIn(config, m, key, PlanOf(config, s, key), m.bindings[j]) == StandingIn(config, s, key, PlanOf(config, s, key), s.bindings[j]) {
      StandingFrom(config, s, m, key, PlanOf(config, s, key), s.bindings[j]);
    }
  }

  // From a to b one object was created for k, which is now being deleted without a
  // record; other bindings changed in status at most.
  ghost predicate Orphaned(a: State, b: State, k: Key, n: string) {
    && n !in a.objects && n in b.objects && b.objects == a.objects[n := b.objects[n]] && a.pools == b.pools
    && (forall m | Made(b, m) :: if m == n then MakerOf(b, n) == k else Made(a, m) && MakerOf(b, m) == MakerOf(a, m)) && Made(b, n)
    && (forall j :: j in a.bindings <==> j in b.bindings) && (forall j | j in a.bindings :: b.bindings[j].spec == a.bindings[j].spec)
    && k in b.bindings && b.bindings[k].deleting && StoredRecord(b, k).Unclaimed?
  }

  lemma MarkKeeps(s: State, key: Key)
    requires key in s.bindings && s.bindings[key].key == key
    ensures var m := Put(s, Condemned(s.bindings[key]));
            (Exclusive(m) <==> Exclusive(s)) && (RivalsAmong(m, key, {}) <==> RivalsAmong(s, key, {})) && (NoOrphans(m) <==> NoOrphans(s))
  {
    var m := Put(s, Condemned(s.bindings[key]));
    PutRecords(s, Condemned(s.bindings[key]));
    hide RecordOf;
    forall j ensures StoredRecord(m, j) == StoredRecord(s, j) {}
    forall i, j ensures Rivals(m, i, j) <==> Rivals(s, i, j) {}
    hide Rivals, StoredRecord;
  }

  lemma OrphanedNow(r: Rules, s: State, b: State, key: Key, record: Record, spec: ObjectSpec)
    requires key in s.bindings && s.bindings[key].key == key && Inv(r, Put(s, Condemned(s.bindings[key])))
    requires var m := Put(s, Condemned(s.bindings[key]));
             Resumed(m, b, key, record, spec) && Marked(m, key) && !Live(m, StoredRecord(m, key)) && !Vouched(m, key, record)
    ensures Orphaned(s, b, key, record.name) && (NoOrphans(s) ==> !NoOrphans(b))
    ensures Exclusive(b) <==> Exclusive(s) && RivalsAmong(s, key, {})
  {
    hide Inv, Exclusive, RivalsAmong, NoOrphans, RecordOf, Put, Condemned, Live, StoredRecord, Vouched;
    var m := Put(s, Condemned(s.bindings[key]));
    MarkKeeps(s, key);
    CondemnedIs(s, key);
    SpawnedMade(r, m, b, key, record.name, spec);
    forall n | Made(m, n) ensures Made(s, n) && MakerOf(s, n) == MakerOf(m, n) {}
  }

  lemma CondemnedIs(s: State, key: Key)
    requires key in s.bindings && s.bindings[key].key == key
    ensures var m := Put(s, Condemned(s.bindings[key]));
            && m.objects == s.objects && m.created == s.created && m.pools == s.pools && Marked(m, key)
            && (forall j :: j in m.bindings <==> j in s.bindings) && (forall j | j in s.bindings :: m.bindings[j].spec == s.bindings[j].spec)
  {
  }

  // The reconcile reads a claim; then the binding is marked deleting. The list serves
  // the deleting copy, through which the conflict phase clears the persisted claim and
  // leaves the binding out, whoever clashes with it; apply creates from the claim in
  // memory. An orphan is left, and live outputs are exclusive exactly when they were and
  // no rival has one.
  method OrphanAfterDeletion(api: Cluster, config: Config, key: Key, digest: string -> string)
    requires api.Valid() && !api.rules.latched && !api.stopped && Reserved(config, api.s, key, digest) && forall x: string :: Manifest.IsDigest(digest(x))
    requires |api.script| >= 2 && api.script[0] == CALM_TURN && api.script[1] == Turn([DeleteBinding(key)], Fine, false, []) && AllCalm(api.script[2..])
    modifies api
    ensures api.Valid() && Orphaned(old(api.s), api.s, key, old(StoredRecord(api.s, key).name)) && (old(NoOrphans(api.s)) ==> !NoOrphans(api.s))
    ensures Exclusive(api.s) <==> old(Exclusive(api.s) && RivalsAmong(api.s, key, {}))
  {
    hide Inv, GoodTrace, NoOrphans, Resumable, Resumed, Vouched, Marked, Manifest.IsDigest, RecordOf, Exclusive, RivalsAmong, Orphaned, Put, Condemned, AllCalm, Live,
         Eligible, PlanOf, RenderingOf, DesiredName, DesiredOutput, PeersTellable;
    ghost var start := api.s;
    EligibleIs(config, start, key);
    MarkIs(api.rules, start, key);
    MarkedIsResumable(api.rules, config, start, key, digest);
    ghost var v := start.bindings[key];
    DeletionKeeps(api.rules, start, key);
    ResumableRenders(config, v, Put(start, Condemned(v)), digest);
    var requeue, err := Reconcile(api, config, key, digest);
    OrphanedNow(api.rules, start, api.s, key, RecordOf(v.status), DesiredOutput(config, key, RenderingOf(config, Put(start, Condemned(v)), key, v.spec).plan, digest).spec);
  }

  lemma DeletionKeeps(r: Rules, s: State, key: Key)
    requires Inv(r, s) && !r.latched && key in s.bindings && !s.bindings[key].deleting && StoredRecord(s, key).Pending?
    ensures Inv(r, Put(s, Condemned(s.bindings[key])))
  {
    hide Step, Rely, Covered, Exclusive, Walled, ObjectsOK, ClaimsOK, EffectsOK, RecordOf, Attributed, StatusOK;
    assert s.bindings[key] in s.past;
    hide Inv;
    EnvKeeps(r, NO_FOCUS, s, DeleteBinding(key));
  }

  // The reconcile reads a version that the cache serves although its claim is no
  // longer the stored record; apply creates from it.
  method OrphanAfterStaleRead(api: Cluster, config: Config, v: Stored, digest: string -> string)
    requires api.Valid() && !api.rules.current && !api.stopped && v in api.s.past && StoredRecord(api.s, v.key) != RecordOf(v.status)
    requires |api.script| >= 2 && api.script[0] == Turn([], Fine, false, [v]) && api.script[1] == CALM_TURN && AllCalm(api.script[2..])
    requires Resumable(config, v, api.s, digest) && forall x: string :: Manifest.IsDigest(digest(x))
    modifies api
    ensures api.Valid() && (old(NoOrphans(api.s)) ==> !NoOrphans(api.s))
    ensures Exclusive(api.s) <==> old(Exclusive(api.s) && RivalsAmong(api.s, v.key, {}))
  {
    hide Inv, GoodTrace, NoOrphans, Resumable, Manifest.IsDigest, RecordOf, Exclusive, RivalsAmong, AllCalm, DesiredOutput, RenderingOf, Spawned;
    var requeue, err := Reconcile(api, config, v.key, digest);
  }

  // A ripe binding without output gets it, whether or not the output of its rivals is
  // recorded: live outputs are exclusive exactly when they were and no rival has one.
  method RipeAmongRivals(api: Cluster, config: Config, key: Key, digest: string -> string)
    requires api.Valid() && api.Calm() && Ripe(config, api.s, key, digest) && forall x: string :: Manifest.IsDigest(digest(x))
    requires Opening(api.s, key, DesiredOutput(config, key, PlanOf(config, api.s, key), digest).name)
    modifies api
    ensures api.Valid() && (Exclusive(api.s) <==> old(Exclusive(api.s) && RivalsAmong(api.s, key, {})))
  {
    hide Inv, GoodTrace, Ripe, Settled, Opening, Spawned, DesiredOutput, PlanOf, Exclusive, RivalsAmong, Private, PeersResting, Manifest.IsDigest, AllCalm, Eligible,
         Leaving, Failing, Clashing;
    ghost var start := api.s;
    RipeFacts(config, start, key, digest);
    EligibleIs(config, start, key);
    ghost var desired := DesiredOutput(config, key, PlanOf(config, start, key), digest);
    var requeue, err := Reconcile(api, config, key, digest);
    SpawnedExclusiveIff(api.rules, start, api.s, key, desired.name, desired.spec);
  }

  // ------------------------------------------------------------ a concrete run

  // Every rule but the one about deletion.
  const UNLATCHED := Rules(true, false, true, true, true)

  const ALONE := State(map[], map[HOME := NewBinding(HOME, 0, 'p', 'v')], POOLS, 1, 1, [], map[], [], {NewBinding(HOME, 0, 'p', 'v')})

  lemma AloneIsUntended()
    ensures Guarantees.Untended(ALONE) && (forall j :: !IsPeer(ALONE, HOME, j)) && HOME in ALONE.bindings && ALONE.bindings[HOME] == NewBinding(HOME, 0, 'p', 'v')
  {
  }

  lemma AloneIsRipe()
    ensures Eligible(CONFIG, ALONE, HOME) && PeersHarmless(CONFIG, ALONE, SelfOf(CONFIG, ALONE, HOME)) && PeersResting(CONFIG, ALONE, HOME)
  {
    hide RenderingOf, PoolRefOK, Render.VariantError;
    Renders(ALONE, HOME, 'p', 'v');
    AloneIsUntended();
    SelfRef(CONFIG, ALONE, HOME);
  }

  // A reconcile up to and including the conflict phase.
  method Compare(api: Cluster, config: Config, key: Key) returns (b: Binding, plan: Plan)
    requires api.Valid() && api.Calm() && Eligible(config, api.s, key) && api.s.bindings[key].finalizer
    requires PeersHarmless(config, api.s, SelfOf(config, api.s, key)) && PeersResting(config, api.s, key)
    modifies api
    ensures api.Valid() && api.Calm() && api.s == old(api.s) && plan == PlanOf(config, api.s, key) && Reservable(api.focus, b.origin)
    ensures fresh(b) && b.key == key && b.Good(api) && Fresh(api, b) && b.finalizer
    ensures (Excluding(api.rules) ==> Sole(api.focus, api.s, b)) && (Fencing(api.rules) ==> Unlodged(api.focus, api.s, b))
  {
    hide Inv, GoodTrace, Frame, Follows, PeersHarmless, PeersResting, RenderingOf, Selection.Bounds, RecordOf, WorkingCopy, Initialized, Render.VariantError,
         PoolRefOK, VariantRecordOf, Sole, Unlodged, AllCalm;
    EligibleIs(config, api.s, key);
    PlanIs(config, api.s, key);
    SelfRef(config, api.s, key);
    ghost var start, self := api.s, SelfOf(config, api.s, key);
    var r := api.GetBinding(key);
    b := new Binding(r.value);
    api.focus := Reading(key, b.spec);
    JustRead(api.rules, api.focus, api.s, r.value);
    RecordInMemory(b);
    Prepare(b, config);
    var rendering := ComputeDesiredState(api, config, b);
    plan := rendering.plan;
    FreshRecord(api, b);
    var handled, requeue, err := ReconcileConflictState(api, config, b, plan);
    UneventfulRests(config, start, api.s, self);
  }

  lemma UneventfulRests(config: Config, a: State, b: State, self: VariantRecord)
    requires Uneventful(config, a, b, self) && PeersResting(config, a, self.ref) && !Marked(a, self.ref)
    ensures a == b
  {
  }

  // A reconcile up to and including the reservation.
  method ReserveFirst(api: Cluster, config: Config, key: Key, digest: string -> string)
    requires api.Valid() && api.Calm() && Eligible(config, api.s, key) && StoredRecord(api.s, key).Unclaimed?
    requires PeersHarmless(config, api.s, SelfOf(config, api.s, key)) && PeersResting(config, api.s, key) && api.s.bindings[key].finalizer
    requires DesiredName(key, PlanOf(config, api.s, key), digest) !in api.s.objects && forall x: string :: Manifest.IsDigest(digest(x))
    modifies api
    ensures api.Valid() && api.Calm() && OnlyBinding(old(api.s), api.s, key) && Reserved(config, api.s, key, digest)
  {
    hide Inv, GoodTrace, Frame, Follows, PeersHarmless, PeersResting, RenderingOf, Manifest.IsDigest, DesiredName, WorkingCopy, Eligible, SelfOf,
         PlanOf, Reserved, OnlyBinding, Sole, Unlodged, AllCalm, DesiredOutput, SameSettings, Local, Slot, Unheld, InPlace, RecordOf;
    ghost var start := api.s;
    var b, plan := Compare(api, config, key);
    DecodesHere(api, b);
    FreshRecord(api, b);
    DesiredIsNamed(config, key, plan, digest);
    var desired := DesiredOutput(config, key, plan, digest);
    var ready, requeue, failed := GiveUpName(api, b, desired.name);
    var o, current, err := AuthorizeSlot(api, b, desired);
    var claim;
    claim, err := ClaimFor(api, b, desired, o);
    FreshRecord(api, b);
    KeysNow(api.rules, start);
    ReservedNow(config, start, api.s, key, digest);
  }

  lemma KeysNow(r: Rules, s: State)
    requires Inv(r, s)
    ensures forall j | j in s.bindings :: s.bindings[j].key == j
  {
    hide Covered, Exclusive, Walled, ClaimsOK, EffectsOK, ObjectsOK;
  }

  lemma ReservedNow(config: Config, a: State, b: State, key: Key, digest: string -> string)
    requires OnlyBinding(a, b, key) && Eligible(config, a, key) && PeersHarmless(config, a, SelfOf(config, a, key)) && (forall j | j in a.bindings :: a.bindings[j].key == j)
    requires StoredRecord(b, key).Pending? && StoredRecord(b, key).name == DesiredName(key, PlanOf(config, a, key), digest)
    requires StoredRecord(b, key).name !in a.objects
    ensures Reserved(config, b, key, digest)
  {
    hide RecordOf, DesiredName, RenderingOf, PoolRefOK, Render.VariantError, StandingIn, Harmless;
    EligibleKept(config, a, b, key);
    SelfRef(config, a, key);
    forall j | IsPeer(b, key, j)
      ensures var st := StandingIn(config, b, key, PlanOf(config, b, key), b.bindings[j]); st.Some? && !st.value.Blocking?
    {
      assert IsPeer(a, key, j);
      HarmlessIsTold(config, a, SelfOf(config, a, key), PlanOf(config, a, key), j);
      StandingFrom(config, a, b, key, PlanOf(config, a, key), a.bindings[j]);
    }
  }

  lemma HarmlessIsTold(config: Config, s: State, self: VariantRecord, plan: Plan, j: Key)
    requires j in s.bindings && j != self.ref && s.bindings[j].key == j && Harmless(config, s, self, j)
    ensures var st := StandingIn(config, s, self.ref, plan, s.bindings[j]); st.Some? && !st.value.Blocking?
  {
    hide RenderingOf, Pair, Live, RecordOf;
  }

  // HOME is alone and being deleted without a record, while its output is live.
  ghost predicate Abandoned(s: State) {
    && s.pools == POOLS && HOME in s.bindings && (forall k | k in s.bindings :: k == HOME) && s.bindings[HOME].spec == Spec('p', 'v')
    && s.bindings[HOME].deleting && StoredRecord(s, HOME).Unclaimed?
    && exists n :: Made(s, n) && MakerOf(s, n) == HOME && n != "" && n[|n| - 1] == '0' && forall m | m in s.objects :: m == n
  }

  lemma AbandonedNow(a: State, b: State)
    requires OnlyBinding(ALONE, a, HOME) && Reserved(CONFIG, a, HOME, Digest) && Orphaned(a, b, HOME, StoredRecord(a, HOME).name)
    ensures Abandoned(b)
  {
    hide RecordOf, DesiredName, PeersTellable, Eligible, PlanOf, HOME, PEER, POOLS, CONFIG, Digest, OnlyBinding, ALONE, Spec, EMPTY_STATUS;
    HomeAndPeer();
    StillAlone(a);
    var n := StoredRecord(a, HOME).name;
    EligibleIs(CONFIG, a, HOME);
    SampleIsEligible(a, HOME, 'p', 'v');
    assert Made(b, n) && MakerOf(b, n) == HOME && n != "" && n[|n| - 1] == '0' && forall m | m in b.objects :: m == n;
  }

  lemma StillAlone(a: State)
    requires OnlyBinding(ALONE, a, HOME)
    ensures a.objects == map[] && a.pools == POOLS && HOME in a.bindings && (forall k | k in a.bindings :: k == HOME) && a.bindings[HOME].spec == Spec('p', 'v')
  {
    AloneIsUntended();
  }

  // A first process reserves its claim and stops there. Before the next reconcile of the
  // only binding reads the pool, somebody deletes the binding.
  method DeletionRaceOrphans() returns (api: Cluster)
    ensures fresh(api) && api.Valid() && api.rules == UNLATCHED && Guarantees.Untended(api.genesis) && api.genesis == ALONE
    ensures NoOrphans(api.genesis) && !NoOrphans(api.s) && Abandoned(api.s)
  {
    hide Inv, GoodTrace, Eligible, PeersHarmless, PeersResting, SelfOf, PlanOf, DesiredName, Reserved, Manifest.IsDigest, Digest, Orphaned, Abandoned, Exclusive, RivalsAmong,
         Guarantees.Untended;
    AloneIsUntended();
    Guarantees.UntendedIsFine(UNLATCHED, ALONE);
    AloneIsRipe();
    forall x: string ensures Manifest.IsDigest(Digest(x)) { DigestIsDigest(x); }
    api := new Cluster(UNLATCHED, ALONE, []);
    ReserveFirst(api, CONFIG, HOME, Digest);
    ghost var reserved := api.s;
    NothingMade(reserved);
    api.script := [CALM_TURN, Turn([DeleteBinding(HOME)], Fine, false, [])];
    OrphanAfterDeletion(api, CONFIG, HOME, Digest);
    AbandonedNow(reserved, api.s);
  }

  lemma NothingMade(s: State)
    requires OnlyBinding(ALONE, s, HOME)
    ensures NoOrphans(s) && NoOrphans(ALONE)
  {
  }

  // A rival of the abandoned binding may come at any time.
  lemma RivalMayCome(s: State)
    requires Inv(UNLATCHED, s) && Abandoned(s)
    ensures PEER !in s.bindings && Permitted(UNLATCHED, NO_FOCUS, s, CreateBinding(PEER, Spec('q', 'v'), true, false))
    ensures var t := Put(s, NewBinding(PEER, 0, 'q', 'v')); Inv(UNLATCHED, t) && Step(UNLATCHED, s, t) && Contender(t)
  {
    HomeAndPeer();
    hide Inv, Step, Rely, FenceOf, RecordOf, HOME, PEER, POOLS;
    EnvKeeps(UNLATCHED, NO_FOCUS, s, CreateBinding(PEER, Spec('q', 'v'), true, false));
  }

  lemma HomeAndPeer()
    ensures HOME != PEER && HOME.namespace == PEER.namespace == "ns" && RecordOf(EMPTY_STATUS).Unclaimed?
  {
    assert "b"[0] != "c"[0];
    assert Decode(EMPTY_STATUS) == Some(Unclaimed);
  }

  // The rival is there beside the orphan.
  ghost predicate Contender(s: State) {
    && s.pools == POOLS && HOME in s.bindings && PEER in s.bindings && (forall k | k in s.bindings :: k == HOME || k == PEER)
    && s.bindings[HOME].spec == Spec('p', 'v') && s.bindings[HOME].deleting && StoredRecord(s, HOME).Unclaimed?
    && s.bindings[PEER].spec == Spec('q', 'v') && !s.bindings[PEER].deleting && StoredRecord(s, PEER).Unclaimed?
    && exists n :: Made(s, n) && MakerOf(s, n) == HOME && n != "" && n[|n| - 1] == '0' && forall m | m in s.objects :: m == n
  }

  lemma ContenderIsRipe(s: State)
    requires Contender(s)
    ensures Ripe(CONFIG, s, PEER, Digest) && Opening(s, PEER, DesiredOutput(CONFIG, PEER, PlanOf(CONFIG, s, PEER), Digest).name)
  {
    hide Eligible, PlanOf, DesiredName, DesiredOutput, RecordOf, HOME, PEER, POOLS, VariantRecordOf, Contender, SelfOf, Harmless, Digest;
    ContenderRenders(s);
    SelfRef(CONFIG, s, PEER);
    DigestIsDigest(PlanOf(CONFIG, s, PEER).spiffeID);
    DesiredIsNamed(CONFIG, PEER, PlanOf(CONFIG, s, PEER), Digest);
    forall j | IsPeer(s, PEER, j) ensures Harmless(CONFIG, s, SelfOf(CONFIG, s, PEER), j) { ContenderIsUnharmed(s, SelfOf(CONFIG, s, PEER), j); }
  }

  lemma ContenderRenders(s: State)
    requires Contender(s)
    ensures Eligible(CONFIG, s, PEER) && DesiredName(PEER, PlanOf(CONFIG, s, PEER), Digest) !in s.objects && StoredRecord(s, PEER).Unclaimed?
  {
    HomeAndPeer();
    hide Eligible, PlanOf, DesiredName, RecordOf, HOME, PEER, POOLS;
    SampleIsEligible(s, PEER, 'q', 'v');
  }

  lemma ContenderIsUnharmed(s: State, self: VariantRecord, j: Key)
    requires Contender(s) && IsPeer(s, PEER, j)
    ensures Harmless(CONFIG, s, self, j)
  {
    hide RenderingOf, RecordOf, HOME, PEER, POOLS, Pair;
  }

  lemma ContenderHasRival(s: State)
    requires Contender(s)
    ensures !RivalsAmong(s, PEER, {})
  {
    HomeAndPeer();
    hide RecordOf, HOME, PEER, POOLS;
  }

  // The orphan is no obstacle to a rival, whose output then shares its boundary.
  method OrphanBreaksExclusive() returns (api: Cluster)
    ensures fresh(api) && api.Valid() && api.rules == UNLATCHED && Guarantees.Untended(api.genesis) && !Exclusive(api.s)
  {
    hide Inv, GoodTrace, Step, Exclusive, RivalsAmong, Abandoned, Contender, Ripe, Opening, DesiredOutput, PlanOf, Manifest.IsDigest, Digest, Put, NewBinding, Permitted,
         NoOrphans, Guarantees.Untended, HOME, PEER;
    api := DeletionRaceOrphans();
    RivalMayCome(api.s);
    api.Advance(Put(api.s, NewBinding(PEER, 0, 'q', 'v')));
    ContenderIsRipe(api.s);
    ContenderHasRival(api.s);
    forall x: string ensures Manifest.IsDigest(Digest(x)) { DigestIsDigest(x); }
    api.script, api.stopped := [], false;
    RipeAmongRivals(api, CONFIG, PEER, Digest);
  }
}
