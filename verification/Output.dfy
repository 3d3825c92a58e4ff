// Applying, replacing and cleaning up managed output under the ownership record.

module Output {
  import opened Types
  import opened Statuses
  import opened Store
  import opened Changes
  import opened Environment
  import opened Calls
  import opened Client
  import opened Ownership
  import Manifest
  import Render
  import Selection
  import Text

  // ------------------------------------------------------------ facts that last

  // Someone wrote the binding after the version o was read.
  predicate Outdated(s: State, o: Stored) {
    o.rv < s.nextRv && !(o.key in s.bindings && s.bindings[o.key].rv == o.rv)
  }

  lemma OutdatedStable(a: State, b: State, o: Stored)
    requires Frame(a, b) && Outdated(a, o)
    ensures Outdated(b, o)
  {
  }

  // Creating now breaks no exclusivity: the rivals met by the list are gone, or the
  // version in memory can no longer reserve a claim.
  ghost predicate Sole(f: Focus, s: State, b: Binding)
    reads b
  {
    (f.key == Some(b.key) && f.listed && Extinct(s, f.rivals)) || (Outdated(s, b.origin) && !b.Record().Pending?)
  }

  lemma SoleStable(f: Focus, a: State, c: State, b: Binding)
    requires Frame(a, c) && Sole(f, a, b)
    ensures Sole(f, c, b)
  {
    if Extinct(a, f.rivals) { ExtinctStable(a, c, f.rivals); }
    if Outdated(a, b.origin) { OutdatedStable(a, c, b.origin); }
  }

  // Writing output now gives no two outputs one boundary: the others met by the list in
  // the boundary seen are gone, or the version in memory can write none.
  ghost predicate Unlodged(f: Focus, s: State, b: Binding)
    reads b
  {
    && f.key == Some(b.key) && f.listed && Coincide(f.seen, b.spec)
    && (!Vacant(s, b.key) || b.Record().Pending? || !Outdated(s, b.origin) ==> Extinct(s, f.lodgers))
  }

  lemma UnlodgedStable(f: Focus, a: State, c: State, b: Binding)
    requires Frame(a, c) && Unlodged(f, a, b)
    ensures Unlodged(f, c, b)
  {
    hide RecordOf;
    StaysVacant(a, c, b.key);
    if Extinct(a, f.lodgers) { ExtinctStable(a, c, f.lodgers); }
    if Outdated(a, b.origin) { OutdatedStable(a, c, b.origin); }
  }

  // Live output of its own binds the version in memory to the boundary seen.
  lemma UnlodgedIsExtinct(f: Focus, s: State, b: Binding, n: string)
    requires Unlodged(f, s, b) && n in s.objects && Owns(s, b.key, s.objects[n].uid)
    ensures Extinct(s, f.lodgers)
  {
    assert Made(s, n) && MakerOf(s, n) == b.key;
  }

  lemma SpellsKeyed(spec: ObjectSpec, namespace: string, b: BindingSpec)
    requires Selection.Spells(spec, namespace, b.serviceAccount, b.variant)
    ensures Keyed(spec, namespace) && Coincide(b, FenceOf(spec))
  {
    hide Selection.Parse;
  }

  lemma ExtinctIn(a: State, b: State, uids: set<nat>)
    requires Frame(a, b) && Extinct(a, uids)
    ensures Extinct(b, uids)
  {
    ExtinctStable(a, b, uids);
  }

  lemma SameRecordsThenBut(a: State, b: State, c: State, k: Key)
    requires (SameRecords(a, b) || SameRecordsBut(a, b, k)) && (SameRecords(b, c) || SameRecordsBut(b, c, k))
    ensures SameRecordsBut(a, c, k)
  {
    forall j | j != k ensures StoredRecord(c, j) == StoredRecord(a, j) {
      assert StoredRecord(b, j) == StoredRecord(a, j) && StoredRecord(c, j) == StoredRecord(b, j);
    }
  }

  // ------------------------------------------------------------ undisturbed calls

  // The stored version of the binding is the one in memory.
  ghost predicate Fresh(api: Cluster, b: Binding)
    reads api, b
  {
    b.key in api.s.bindings && api.s.bindings[b.key] == b.origin
  }

  // The recorded incarnation is live.
  predicate Live(s: State, r: Record) {
    !r.Unclaimed? && r.name in s.objects && Covers(r, s.objects[r.name])
  }

  // Listing would not change this record.
  predicate Tidy(s: State, r: Record) {
    r.Unclaimed? || (r.Confirmed? && Live(s, r))
  }

  // No finalizer holds the recorded incarnation.
  predicate Unheld(s: State, r: Record) {
    Live(s, r) ==> !s.objects[r.name].held
  }

  // Objects only went away.
  ghost predicate Shrunk(a: State, b: State) {
    forall n | n in b.objects :: n in a.objects && b.objects[n] == a.objects[n]
  }

  // What listing does when nothing interferes.
  ghost predicate Listed(a: State, b: State, k: Key, before: Record, after: Record, objects: seq<Object>) {
    && OnlyBinding(a, b, k)
    && (objects != [] <==> Live(a, before))
    && after == (if Live(a, before) then Confirmed(before.name, a.objects[before.name].uid) else Unclaimed)
    && (Tidy(a, before) ==> b == a)
  }

  // From a to b only binding k's status and the objects created for k changed.
  ghost predicate Local(a: State, b: State, k: Key) {
    && a.pools == b.pools
    && (forall j | j != k :: (j in a.bindings <==> j in b.bindings) && (j in a.bindings ==> a.bindings[j] == b.bindings[j]))
    && (k in a.bindings <==> k in b.bindings)
    && (k in a.bindings ==> b.bindings[k] == a.bindings[k].(rv := b.bindings[k].rv, status := b.bindings[k].status))
    && (forall u | u in a.created :: u in b.created && b.created[u] == a.created[u])
    && (forall u | u in b.created :: u in a.created || b.created[u].key == k)
    && (forall n | n in a.objects && !Owns(b, k, a.objects[n].uid) :: n in b.objects && b.objects[n] == a.objects[n])
    && (forall n | n in b.objects && !Owns(b, k, b.objects[n].uid) :: n in a.objects && b.objects[n] == a.objects[n])
  }

  lemma LocalTransitive(a: State, b: State, c: State, k: Key)
    requires Local(a, b, k) && Local(b, c, k)
    ensures Local(a, c, k)
  {
    forall n | n in a.objects && !Owns(c, k, a.objects[n].uid) ensures n in c.objects && c.objects[n] == a.objects[n] {
      assert !Owns(b, k, a.objects[n].uid);
    }
    forall n | n in c.objects && !Owns(c, k, c.objects[n].uid) ensures n in a.objects && c.objects[n] == a.objects[n] {
      assert !Owns(b, k, c.objects[n].uid);
    }
  }

  lemma LocalReflexive(s: State, k: Key)
    ensures Local(s, s, k)
  {
  }

  // Nothing appears at a free name without a Create.
  lemma StaysAbsent(a: State, b: State, k: Key, n: string)
    requires Frame(a, b) && Local(a, b, k) && n !in a.objects
    ensures n !in b.objects
  {
    assert Made(b, n) ==> Made(a, n);
  }

  lemma OnlyBindingIsLocal(a: State, b: State, k: Key)
    requires OnlyBinding(a, b, k)
    ensures Local(a, b, k)
  {
  }

  // From a to b no binding came, went or changed but in status.
  ghost predicate SameShape(a: State, b: State) {
    && (forall k :: k in a.bindings <==> k in b.bindings)
    && (forall k | k in a.bindings :: b.bindings[k] == a.bindings[k].(rv := b.bindings[k].rv, status := b.bindings[k].status))
  }

  lemma SameShapeTransitive(a: State, b: State, c: State)
    requires SameShape(a, b) && SameShape(b, c)
    ensures SameShape(a, c)
  {
  }

  // From a to b no binding came or went, or changed its spec or its deletion mark.
  ghost predicate SameBounds(a: State, b: State) {
    && (forall k :: k in a.bindings <==> k in b.bindings)
    && (forall k | k in a.bindings :: b.bindings[k].spec == a.bindings[k].spec && b.bindings[k].deleting == a.bindings[k].deleting)
  }

  // From a to b one object with this spec was created for k at the free name n; of
  // bindings, only metadata and statuses changed.
  ghost predicate Spawned(a: State, b: State, k: Key, n: string, spec: ObjectSpec) {
    && n !in a.objects && n in b.objects && b.objects == a.objects[n := b.objects[n]]
    && b.objects[n].name == n && b.objects[n].uid == a.nextUid && b.objects[n].spec == spec && a.nextUid in b.created
    && b.created == a.created[a.nextUid := b.created[a.nextUid]] && b.created[a.nextUid].key == k
    && a.pools == b.pools && SameBounds(a, b)
  }

  // The record of k covers the new object at n if the version in memory was the
  // stored one; otherwise it is the old record and the object carries `claim`.
  ghost predicate Booked(a: State, b: State, k: Key, n: string, claim: string, stored: bool) {
    && n in b.objects && b.objects[n].name == n && SameRecordsBut(a, b, k)
    && if stored then Covers(StoredRecord(b, k), b.objects[n]) else StoredRecord(b, k) == StoredRecord(a, k) && b.objects[n].claim == claim
  }

  lemma SpawnedThen(a: State, b: State, c: State, k: Key, n: string, spec: ObjectSpec, claim: string, stored: bool)
    requires Spawned(a, b, k, n, spec) && Booked(a, b, k, n, claim, stored) && OnlyBinding(b, c, k) && StoredRecord(c, k) == StoredRecord(b, k)
    ensures Spawned(a, c, k, n, spec) && Booked(a, c, k, n, claim, stored)
  {
    hide RecordOf;
  }

  lemma OnlyThenSpawned(a: State, b: State, c: State, k: Key, n: string, spec: ObjectSpec, claim: string)
    requires OnlyBinding(a, b, k) && Spawned(b, c, k, n, spec) && Booked(b, c, k, n, claim, true)
    ensures Spawned(a, c, k, n, spec) && Booked(a, c, k, n, "", true)
  {
    hide RecordOf;
  }

  // ------------------------------------------------------------ listing and cleanup

  // The live output of a binding. A matching pending claim is confirmed; a record
  // whose incarnation is gone is cleared.
  method ListManaged(api: Cluster, b: Binding) returns (objects: seq<Object>, err: Option<Err>)
    requires api.Valid() && b.Good(api)
    modifies api, b
    ensures api.Valid() && api.focus == old(api.focus)
    ensures Frame(old(api.s), api.s) && SameRecordsBut(old(api.s), api.s, b.key)
    ensures Steady(api.rules, api.focus, old(api.s), api.s)
    ensures err.None? ==> b.Good(api) && b.spec == old(b.spec) && SameView(b.status, old(b.status))
    ensures b.generation == old(b.generation) && b.finalizer == old(b.finalizer) && b.deleting == old(b.deleting)
    ensures err.None? && old(b.Synced(api)) ==> b.Synced(api)
    ensures err.None? && old(Outdated(api.s, b.origin)) ==> b.status == old(b.status) && b.origin == old(b.origin)
    ensures err.None? && objects == [] ==> b.Record().Unclaimed?
    ensures err.None? && objects == [] && !old(b.Record()).Unclaimed? ==> b.Synced(api)
    ensures err.None? && objects != [] ==>
              |objects| == 1 && b.Record() == Confirmed(objects[0].name, objects[0].uid) && Owns(api.s, b.key, objects[0].uid)
    ensures api.losses >= old(api.losses)
    ensures err.Some? && api.losses == old(api.losses) ==> Retained(old(StoredRecord(api.s, b.key)), StoredRecord(api.s, b.key))
    ensures err.None? && objects != [] ==> Retained(old(StoredRecord(api.s, b.key)), StoredRecord(api.s, b.key))
    ensures Retained(old(StoredRecord(api.s, b.key)), StoredRecord(api.s, b.key)) || StoredRecord(api.s, b.key).Unclaimed?
    ensures old(b.Record()).Unclaimed? ==> err.None? && objects == []
    ensures old(api.Calm()) ==> api.Calm()
    ensures old(api.Calm() && Fresh(api, b)) ==>
              err.None? && Fresh(api, b) && Listed(old(api.s), api.s, b.key, old(b.Record()), b.Record(), objects)
  {
    hide GoodTrace, Inv, Frame, Steady, Follows, Listed, SameView;
    ghost var start := api.s;
    DecodesHere(api, b);
    var o;
    o, err := Observe(api, b, "");
    ghost var mid := api.s;
    if err.Some? { return [], err; }
    if Outdated(start, b.origin) { OutdatedStable(start, mid, b.origin); }
    objects, err := ListObserved(api, b, o);
    FrameCreated(mid, api.s);
    FrameTransitive(start, mid, api.s);
    SteadyTransitive(api.rules, api.focus, start, mid, api.s);
    SameRecordsThenBut(start, mid, api.s, b.key);
  }

  method ListObserved(api: Cluster, b: Binding, o: Observation) returns (objects: seq<Object>, err: Option<Err>)
    requires api.Valid() && b.Good(api)
    requires o == Classify(b.Record(), if b.Record().Unclaimed? then None else Lookup(api.s, b.Record().name))
    modifies api, b
    ensures api.Valid() && api.focus == old(api.focus)
    ensures Frame(old(api.s), api.s) && SameRecordsBut(old(api.s), api.s, b.key)
    ensures Steady(api.rules, api.focus, old(api.s), api.s)
    ensures err.None? ==> b.Good(api) && b.spec == old(b.spec) && SameView(b.status, old(b.status))
    ensures b.generation == old(b.generation) && b.finalizer == old(b.finalizer) && b.deleting == old(b.deleting)
    ensures err.None? && old(b.Synced(api)) ==> b.Synced(api)
    ensures err.None? && old(Outdated(api.s, b.origin)) ==> b.status == old(b.status) && b.origin == old(b.origin)
    ensures err.None? && objects == [] ==> b.Record().Unclaimed?
    ensures err.None? && objects == [] && !old(b.Record()).Unclaimed? ==> b.Synced(api)
    ensures err.None? && objects != [] ==>
              |objects| == 1 && b.Record() == Confirmed(objects[0].name, objects[0].uid) && Owns(api.s, b.key, objects[0].uid)
    ensures api.losses >= old(api.losses)
    ensures err.Some? && api.losses == old(api.losses) ==> Retained(old(StoredRecord(api.s, b.key)), StoredRecord(api.s, b.key))
    ensures err.None? && objects != [] ==> Retained(old(StoredRecord(api.s, b.key)), StoredRecord(api.s, b.key))
    ensures Retained(old(StoredRecord(api.s, b.key)), StoredRecord(api.s, b.key)) || StoredRecord(api.s, b.key).Unclaimed?
    ensures old(b.Record()).Unclaimed? ==> err.None? && objects == []
    ensures old(api.Calm()) ==> api.Calm()
    ensures old(api.Calm() && Fresh(api, b)) ==>
              err.None? && Fresh(api, b) && Listed(old(api.s), api.s, b.key, old(b.Record()), b.Record(), objects)
  {
    hide GoodTrace, Inv, Frame, Steady, Follows, SameView;
    objects, err := [], None;
    ghost var start := api.s;
    DecodesHere(api, b);
    if !o.record.Unclaimed? { ObservationMeaning(api.rules, api.s, b.origin, o); }
    hide Gone, Only;
    FrameReflexive(api.rules, api.s);
    RelyReflexive(api.rules, api.focus, api.s);
    ViewReflexive(b.status);
    match o.kind {
      case PendingMatched =>
        err := ConfirmOwnership(api, b, o.live.value.name, o.live.value.uid);
        if err.None? { objects := [o.live.value]; }
        FrameCreated(start, api.s);
      case ConfirmedMatched =>
        objects := [o.live.value];
      case PendingAbsent => err := ClearOwnership(api, b);
      case PendingForeign => err := ClearOwnership(api, b);
      case ConfirmedAbsent => err := ClearOwnership(api, b);
      case ConfirmedForeign => err := ClearOwnership(api, b);
      case _ =>
    }
  }

  // Deletes the recorded incarnation, if it is live, under its UID.
  method CleanupManaged(api: Cluster, b: Binding) returns (err: Option<Err>)
    requires api.Valid() && b.Good(api)
    modifies api, b
    ensures api.Valid() && api.focus == old(api.focus)
    ensures Frame(old(api.s), api.s) && SameRecordsBut(old(api.s), api.s, b.key)
    ensures Steady(api.rules, api.focus, old(api.s), api.s)
    ensures err.None? ==> b.Good(api) && b.spec == old(b.spec) && SameView(b.status, old(b.status))
    ensures b.generation == old(b.generation) && b.finalizer == old(b.finalizer) && b.deleting == old(b.deleting)
    ensures err.None? && old(b.Synced(api)) ==> b.Synced(api)
    ensures err.None? && old(Outdated(api.s, b.origin)) ==> b.status == old(b.status) && b.origin == old(b.origin)
    ensures api.losses >= old(api.losses)
    ensures err.Some? && api.losses == old(api.losses) ==> Retained(old(StoredRecord(api.s, b.key)), StoredRecord(api.s, b.key))
    ensures err.None? ==> b.Record().Unclaimed? || Retained(old(StoredRecord(api.s, b.key)), StoredRecord(api.s, b.key))
    ensures Retained(old(StoredRecord(api.s, b.key)), StoredRecord(api.s, b.key)) || StoredRecord(api.s, b.key).Unclaimed?
    ensures old(api.Calm()) ==> api.Calm()
    ensures old(api.Calm() && Fresh(api, b)) ==>
              && err.None? && Fresh(api, b) && Local(old(api.s), api.s, b.key)
              && (old(Unheld(api.s, b.Record())) ==> !Live(api.s, b.Record()) && Shrunk(old(api.s), api.s))
  {
    hide GoodTrace, Inv, Frame, Steady, SameView, Follows, AllCalm, WorkingCopy, RecordOf, SameRecordsBut, OnlyBinding, Local, Listed, Unheld, Live, Shrunk;
    ghost var start, record := api.s, b.Record();
    ghost var calm := api.Calm() && Fresh(api, b);
    var objects;
    objects, err := ListManaged(api, b);
    if err.Some? { return; }
    if calm { ListedObject(api, b, start, record, objects); }
    for i := 0 to |objects|
      modifies api
      invariant err.None? && api.Valid() && api.focus == old(api.focus) && b.Good(api)
      invariant Frame(start, api.s) && SameRecordsBut(start, api.s, b.key) && Steady(api.rules, api.focus, start, api.s)
      invariant i < |objects| ==> Owns(api.s, b.key, objects[i].uid) && b.Record() == Confirmed(objects[i].name, objects[i].uid)
      invariant old(b.Synced(api)) ==> b.Synced(api)
      invariant old(api.Calm()) ==> api.Calm()
      invariant calm ==> Fresh(api, b) && Local(start, api.s, b.key)
      invariant api.losses >= old(api.losses) && (|objects| > 0 ==> Retained(old(StoredRecord(api.s, b.key)), StoredRecord(api.s, b.key)))
      invariant Retained(old(StoredRecord(api.s, b.key)), StoredRecord(api.s, b.key)) || StoredRecord(api.s, b.key).Unclaimed?
      invariant calm ==> if i < |objects| then LiveAt(start, api.s, record, objects[i])
                         else Unheld(start, record) ==> !Live(api.s, b.Record()) && Shrunk(start, api.s)
    {
      err := DeleteManaged(api, b, objects[i], start, record, calm);
      if err.Some? { return; }
    }
  }

  // The listed object is live, and it is held just as the recorded one was.
  ghost predicate LiveAt(a: State, b: State, r: Record, o: Object) {
    && o.name in b.objects && b.objects[o.name].uid == o.uid && b.objects[o.name].name == o.name
    && (Unheld(a, r) ==> !b.objects[o.name].held) && Shrunk(a, b)
  }

  lemma ListedObject(api: Cluster, b: Binding, start: State, record: Record, objects: seq<Object>)
    requires api.Valid() && Listed(start, api.s, b.key, record, b.Record(), objects)
    requires objects != [] ==> |objects| == 1 && b.Record() == Confirmed(objects[0].name, objects[0].uid)
    ensures Local(start, api.s, b.key)
    ensures if objects == [] then !Live(api.s, b.Record()) && Shrunk(start, api.s) else LiveAt(start, api.s, record, objects[0])
  {
    OnlyBindingIsLocal(start, api.s, b.key);
  }

  method DeleteManaged(api: Cluster, b: Binding, o: Object, ghost start: State, ghost record: Record, ghost calm: bool) returns (err: Option<Err>)
    requires api.Valid() && b.Good(api) && Owns(api.s, b.key, o.uid) && b.Record() == Confirmed(o.name, o.uid)
    requires Frame(start, api.s) && SameRecordsBut(start, api.s, b.key) && Steady(api.rules, api.focus, start, api.s)
    requires calm ==> api.Calm() && Fresh(api, b) && Local(start, api.s, b.key) && LiveAt(start, api.s, record, o)
    modifies api
    ensures api.Valid() && api.focus == old(api.focus) && b.Good(api)
    ensures Frame(start, api.s) && SameRecordsBut(start, api.s, b.key) && Steady(api.rules, api.focus, start, api.s)
    ensures SameRecords(old(api.s), api.s) && api.losses == old(api.losses)
    ensures old(b.Synced(api)) ==> b.Synced(api)
    ensures old(api.Calm()) ==> api.Calm()
    ensures calm ==> err.None? && Fresh(api, b) && Local(start, api.s, b.key) && (Unheld(start, record) ==> !Live(api.s, b.Record()) && Shrunk(start, api.s))
  {
    hide GoodTrace, Inv, Frame, Steady, Follows, Local, Unheld;
    ghost var mid := api.s;
    var r := api.DeleteObject(b.key, o.name, o.uid);
    FrameTransitive(start, mid, api.s);
    SteadyTransitive(api.rules, api.focus, start, mid, api.s);
    SteadyKeeps(api.rules, api.focus, mid, api.s, b.origin);
    SameRecordsThenBut(start, mid, api.s, b.key);
    if calm {
      DeletedIsLocal(mid, b.key, o.name, mid.effects + [Effect(b.key, o.uid)]);
      LocalTransitive(start, mid, api.s, b.key);
    }
    if r.Err? && !r.err.NotFound? { return Some(Api(r.err)); }
    return None;
  }

  lemma DeletedIsLocal(s: State, k: Key, n: string, effects: seq<Effect>)
    requires n in s.objects && Owns(s, k, s.objects[n].uid) && s.objects[n].name == n
    ensures Local(s, Deleted(s, n).(effects := effects), k)
    ensures !s.objects[n].held ==> n !in Deleted(s, n).objects
  {
  }

  lemma SteadyKeeps(r: Rules, f: Focus, a: State, b: State, o: Stored)
    requires Steady(r, f, a, b) && Follows(r, f, a, o)
    ensures Follows(r, f, b, o)
  {
  }

  lemma AbsentListing(start: State, mid: State, end: State, k: Key, before: Record, after: Record, objects: seq<Object>)
    requires Local(start, mid, k) && !Live(mid, before) && Listed(mid, end, k, before, after, objects)
    ensures Local(start, end, k) && objects == []
  {
    OnlyBindingIsLocal(mid, end, k);
    LocalTransitive(start, mid, end, k);
  }

  // Deletes the recorded output and looks whether it is still there.
  method CleanupThenList(api: Cluster, b: Binding) returns (remaining: seq<Object>, err: Option<Err>)
    requires api.Valid() && b.Good(api)
    modifies api, b
    ensures api.Valid() && api.focus == old(api.focus)
    ensures Frame(old(api.s), api.s) && SameRecordsBut(old(api.s), api.s, b.key)
    ensures Steady(api.rules, api.focus, old(api.s), api.s)
    ensures err.None? ==> b.Good(api) && b.spec == old(b.spec) && SameView(b.status, old(b.status))
    ensures b.generation == old(b.generation) && b.finalizer == old(b.finalizer) && b.deleting == old(b.deleting)
    ensures err.None? && old(b.Synced(api)) ==> b.Synced(api)
    ensures err.None? && old(Outdated(api.s, b.origin)) ==> b.status == old(b.status) && b.origin == old(b.origin)
    ensures err.None? && remaining == [] ==> b.Record().Unclaimed?
    ensures api.losses >= old(api.losses)
    ensures err.Some? && api.losses == old(api.losses) ==> Retained(old(StoredRecord(api.s, b.key)), StoredRecord(api.s, b.key))
    ensures Retained(old(StoredRecord(api.s, b.key)), StoredRecord(api.s, b.key)) || StoredRecord(api.s, b.key).Unclaimed?
    ensures old(api.Calm()) ==> api.Calm()
    ensures old(api.Calm() && Fresh(api, b) && Unheld(api.s, b.Record())) ==>
              err.None? && remaining == [] && Fresh(api, b) && Local(old(api.s), api.s, b.key)
  {
    hide GoodTrace, Inv, Frame, Steady, Follows, Listed, Unheld, Live, Local, SameView, AllCalm, RecordOf, WorkingCopy, SameRecords, SameRecordsBut;
    ghost var start, calm := api.s, api.Calm() && Fresh(api, b) && Unheld(api.s, b.Record());
    remaining := [];
    err := CleanupManaged(api, b);
    ghost var mid, record, view := api.s, b.Record(), b.status;
    if err.Some? { return; }
    if old(Outdated(api.s, b.origin)) { OutdatedStable(start, mid, b.origin); }
    remaining, err := ListManaged(api, b);
    FrameTransitive(start, mid, api.s);
    SteadyTransitive(api.rules, api.focus, start, mid, api.s);
    SameRecordsThenBut(start, mid, api.s, b.key);
    if err.None? { ViewTransitive(b.status, view, old(b.status)); }
    if calm { AbsentListing(start, mid, api.s, b.key, record, b.Record(), remaining); }
  }

  // ------------------------------------------------------------ name replacement

  function RecordedName(s: Status): string {
    if s.owned.Some? then s.owned.value.name else if s.pending.Some? then s.pending.value.name else ""
  }

  lemma RecordedNameMeaning(s: Status)
    requires Decode(s).Some?
    ensures RecordedName(s) == if RecordOf(s).Unclaimed? then "" else RecordOf(s).name
    ensures RecordedName(s) == "" <==> RecordOf(s).Unclaimed?
  {
  }

  // Removes output recorded under another name before the record may move on.
  // `pending` says that it is still present.
  method CleanupChangedName(api: Cluster, b: Binding, desiredName: string) returns (pending: bool, err: Option<Err>)
    requires api.Valid() && b.Good(api)
    modifies api, b
    ensures api.Valid() && api.focus == old(api.focus)
    ensures Frame(old(api.s), api.s) && SameRecordsBut(old(api.s), api.s, b.key)
    ensures err.None? ==> b.Good(api) && b.spec == old(b.spec) && SameView(b.status, old(b.status))
    ensures b.generation == old(b.generation) && b.finalizer == old(b.finalizer) && b.deleting == old(b.deleting)
    ensures err.None? && !pending ==> b.Record().Unclaimed? || b.Record().name == desiredName
    ensures err.None? && !pending && !old(b.Record()).Unclaimed? && old(b.Record()).name != desiredName ==> b.Record().Unclaimed?
    ensures old(b.Record()).Unclaimed? || old(b.Record()).name == desiredName ==>
              err.None? && !pending && api.s == old(api.s) && b.status == old(b.status) && b.origin == old(b.origin)
    ensures err.None? && !pending && b.Record().Pending? ==> old(b.Record()) == b.Record() && api.s == old(api.s)
    ensures err.None? && !pending && old(Outdated(api.s, b.origin)) ==> b.status == old(b.status) && b.origin == old(b.origin)
    ensures old(api.Calm()) ==> api.Calm()
    ensures old(api.Calm() && Fresh(api, b) && Unheld(api.s, b.Record())) ==>
              err.None? && !pending && Fresh(api, b) && Local(old(api.s), api.s, b.key)
  {
    hide GoodTrace, Inv, Frame, Steady, Follows, Unheld, Local, SameView, RecordedName, RecordOf, Decode;
    pending := false;
    LocalReflexive(api.s, b.key);
    FrameReflexive(api.rules, api.s);
    ViewReflexive(b.status);
    DecodesHere(api, b);
    RecordedNameMeaning(b.status);
    var recorded := RecordedName(b.status);
    if recorded == "" || recorded == desiredName {
      return false, None;
    }
    var remaining;
    remaining, err := CleanupThenList(api, b);
    if err.Some? { return; }
    if |remaining| == 0 {
      DecodesHere(api, b);
      RecordedNameMeaning(b.status);
      if RecordedName(b.status) != "" { assert false; }
      return false, None;
    }
    return true, None;
  }

  // ------------------------------------------------------------ apply

  function RenderedStatus(plan: Plan, o: Object): RenderedOutput {
    RenderedOutput(o.name, plan.spiffeID, Render.Framed(Render.Canonical(plan.selectors)),
                   if o.generation == 0 then None else Some(o.generation))
  }

  method RenderStatus(plan: Plan, o: Object) returns (out: RenderedOutput)
    ensures out == RenderedStatus(plan, o)
  {
    var bytes := Render.FingerprintBytes(plan.selectors);
    out := RenderedOutput(o.name, plan.spiffeID, bytes, if o.generation == 0 then None else Some(o.generation));
  }

  // The report tells outputs apart: it is the same exactly for the same object
  // name and generation, SPIFFE ID and set of selectors.
  lemma ReportIdentifies(p: Plan, q: Plan, o: Object, x: Object)
    ensures RenderedStatus(p, o) == RenderedStatus(q, x) <==>
              && o.name == x.name && o.generation == x.generation && p.spiffeID == q.spiffeID
              && forall t :: Render.TrimsTo(p.selectors, t) <==> Render.TrimsTo(q.selectors, t)
  {
    Render.FingerprintMeaning(p.selectors, q.selectors);
  }

  // Turns an observation into the live object that may be reconciled, or into an
  // absent slot that may be created; foreign objects are refused.
  method AuthorizeApply(api: Cluster, b: Binding, desired: Object, o: Observation) returns (current: Option<Object>, err: Option<Err>)
    requires api.Valid() && b.Good(api)
    requires o == Classify(b.Record(), Lookup(api.s, desired.name))
    requires b.Record().Unclaimed? || b.Record().name == desired.name
    modifies api, b
    ensures api.Valid() && api.focus == old(api.focus)
    ensures Frame(old(api.s), api.s) && SameRecordsBut(old(api.s), api.s, b.key)
    ensures b.Good(api)
    ensures err.None? ==> b.spec == old(b.spec) && SameView(b.status, old(b.status))
    ensures b.generation == old(b.generation) && b.finalizer == old(b.finalizer) && b.deleting == old(b.deleting)
    ensures err.None? && current.None? ==> Absent(o.kind)
    ensures o.kind.PendingAbsent? || o.kind.UnclaimedAbsent? ==> err.None? && current.None?
    ensures o.kind.UnclaimedForeign? ==> err == Some(ForeignOutput) && current.None? && api.s == old(api.s) && b.status == old(b.status) && b.origin == old(b.origin)
    ensures err.None? && current.None? && Excluding(api.rules) && old(Sole(api.focus, api.s, b)) ==> Sole(api.focus, api.s, b)
    ensures err.None? && current.None? && Fencing(api.rules) && old(Unlodged(api.focus, api.s, b)) ==> Unlodged(api.focus, api.s, b)
    ensures err.None? && current.Some? && Fencing(api.rules) && old(Unlodged(api.focus, api.s, b)) ==> Extinct(api.s, api.focus.lodgers)
    ensures err.None? && current.None? && !o.kind.ConfirmedAbsent? ==> api.s == old(api.s) && b.status == old(b.status) && b.origin == old(b.origin)
    ensures err.None? && o.kind.ConfirmedAbsent? ==> b.Record().Unclaimed? && !old(Outdated(api.s, b.origin))
    ensures err.None? && current.Some? ==>
              && current == o.live && Matched(o.kind) && Owns(api.s, b.key, current.value.uid) && Seen(api.s, current.value)
              && b.Record() == Confirmed(desired.name, current.value.uid) && current.value.name == desired.name
    ensures o.kind.ConfirmedMatched? ==>
              err.None? && current.Some? && api.s == old(api.s) && b.status == old(b.status) && b.origin == old(b.origin)
    ensures old(api.Calm()) ==> api.Calm()
    ensures old(api.Calm() && Fresh(api, b)) && !Foreign(o.kind) ==>
              err.None? && OnlyBinding(old(api.s), api.s, b.key) && Fresh(api, b)
  {
    hide GoodTrace, Inv, Frame, Steady, Follows, Extinct, Vacant;
    ghost var start := api.s;
    FrameReflexive(api.rules, api.s);
    DecodesHere(api, b);
    if !o.record.Unclaimed? { ObservationMeaning(api.rules, api.s, b.origin, o); }
    hide Gone, Only, SameView;
    ViewReflexive(b.status);
    if Matched(o.kind) && Unlodged(api.focus, start, b) { UnlodgedIsExtinct(api.focus, start, b, desired.name); }
    match o.kind {
      case UnclaimedAbsent => return None, None;
      case PendingAbsent => return None, None;
      case PendingMatched =>
        err := ConfirmOwnership(api, b, o.live.value.name, o.live.value.uid);
        FrameCreated(start, api.s);
        if err.Some? { return None, err; }
        SeenStable(start, api.s, o.live.value);
        if Extinct(start, api.focus.lodgers) { ExtinctIn(start, api.s, api.focus.lodgers); }
        return o.live, None;
      case ConfirmedMatched => return o.live, None;
      case ConfirmedAbsent =>
        err := ClearOwnership(api, b);
        if Extinct(start, api.focus.rivals) { ExtinctIn(start, api.s, api.focus.rivals); }
        if Extinct(start, api.focus.lodgers) { ExtinctIn(start, api.s, api.focus.lodgers); }
        return None, err;
      case UnclaimedForeign => return None, Some(ForeignOutput);
      case _ =>
        err := ClearOwnership(api, b);
        if err.Some? { return None, err; }
        return None, Some(ForeignOutput);
    }
  }

  lemma ViewTransitive(a: Status, b: Status, c: Status)
    requires SameView(a, b) && SameView(b, c)
    ensures SameView(a, c)
  {
  }

  lemma ViewReflexive(s: Status)
    ensures SameView(s, s)
  {
  }

  // ------------------------------------------------------------ create and update

  lemma CreatableNow(api: Cluster, b: Binding, o: Object)
    requires api.Valid() && b.Good(api) && b.Record() == Pending(o.name, o.claim)
    requires Covering(api.rules) ==> b.Synced(api)
    requires Excluding(api.rules) ==> api.focus.key == Some(b.key) && api.focus.listed && Extinct(api.s, api.focus.rivals)
    requires Fencing(api.rules) ==> Unlodged(api.focus, api.s, b)
    requires Selection.Spells(o.spec, b.key.namespace, b.spec.serviceAccount, b.spec.variant)
    ensures Creatable(api.rules, api.s, b.key, o) && (Fencing(api.rules) ==> Warded(api.focus, api.s, b.key, o.spec))
  {
    hide GoodTrace, Inv, Selection.Spells, Noted, Lodged, FenceOf, Keyed, Fits;
    DecodesHere(api, b);
    SpellsKeyed(o.spec, b.key.namespace, b.spec);
    if Excluding(api.rules) { ApartIsAlone(api.focus, api.s, b.key); }
    if Fencing(api.rules) { WardedFits(api.focus, api.s, b.key, o.spec); }
  }

  // With nothing else going on, applying creates the object.
  ghost predicate Spawning(api: Cluster, b: Binding, name: string)
    reads api, b
  {
    name !in api.s.objects && (b.Record().Pending? || (b.Record().Unclaimed? && Fresh(api, b)))
  }

  function ClaimOf(r: Record): string {
    if r.Pending? then r.claim else ""
  }

  lemma MadeIsSpawned(a: State, c: State, k: Key, o: Object, stored: bool)
    requires o.name !in a.objects && OnlyBinding(Make(a, k, o), c, k)
    requires if stored then StoredRecord(c, k) == Confirmed(o.name, a.nextUid) else c == Make(a, k, o)
    ensures Spawned(a, c, k, o.name, o.spec) && Booked(a, c, k, o.name, o.claim, stored)
  {
    hide RecordOf;
  }

  // The version in memory is the stored one, or its resource version is gone.
  lemma FreshOrGone(api: Cluster, b: Binding)
    requires api.Valid() && b.Good(api)
    ensures Fresh(api, b) <==> b.key in api.s.bindings && api.s.bindings[b.key].rv == b.rv
    ensures Fresh(api, b) <==> !Outdated(api.s, b.origin)
  {
    hide Covered, Exclusive, Walled, ObjectsOK, ClaimsOK, EffectsOK, GoodTrace, StatusOK, RecordOf;
    assert b.origin in api.s.past;
  }

  // Carries the durable claim onto Create and confirms the assigned UID.
  method CreateManaged(api: Cluster, b: Binding, plan: Plan, desired: Object, o: Observation) returns (out: RenderedOutput, err: Option<Err>)
    requires api.Valid() && b.Good(api) && b.finalizer && !Text.Blank(desired.name)
    requires Selection.Spells(desired.spec, b.key.namespace, b.spec.serviceAccount, b.spec.variant)
    requires if o.kind.PendingAbsent? then b.Record() == o.record && o.record.Pending? && o.record.name == desired.name else b.Record().Unclaimed?
    requires Covering(api.rules) && b.Record().Pending? ==> b.Synced(api)
    requires Excluding(api.rules) ==> Sole(api.focus, api.s, b)
    requires Fencing(api.rules) ==> Unlodged(api.focus, api.s, b)
    requires Reservable(api.focus, b.origin)
    modifies api, b
    ensures api.Valid() && api.focus == old(api.focus) && b.generation == old(b.generation)
    ensures b.Good(api) && (err.None? ==> b.Record().Confirmed? && b.Record().name == desired.name && SameSettings(b.status, old(b.status)))
    ensures old(api.Calm()) ==> api.Calm()
    ensures old(api.Calm() && Spawning(api, b, desired.name)) ==>
              && Spawned(old(api.s), api.s, b.key, desired.name, desired.spec) && (err.Some? ==> err != Some(Api(NoMatch)) && !old(Fresh(api, b)))
              && Booked(old(api.s), api.s, b.key, desired.name, old(ClaimOf(b.Record())), old(Fresh(api, b)))
    ensures old(api.Calm() && b.Record().Unclaimed?) && old(Outdated(api.s, b.origin)) ==>
              err.Some? && err != Some(Api(NoMatch)) && OnlyBinding(old(api.s), api.s, b.key)
    ensures old(api.Calm() && Fresh(api, b) && desired.name !in api.s.objects) && desired.spec.Rendered? ==>
              err.None? && Fresh(api, b) && Local(old(api.s), api.s, b.key) && Applied(api.s, b.Record(), plan, desired, out)
  {
    hide GoodTrace, Inv, Frame, Steady, Follows, Selection.Spells, Creatable, Local, Applied, Spawned, Booked, AllCalm, WorkingCopy, Extinct, OnlyBinding,
         SameRecordsBut, Unlodged, Sole, RecordOf;
    out := RenderedOutput("", "", "", None);
    ghost var start := api.s;
    ghost var calm := api.Calm() && Fresh(api, b) && desired.name !in api.s.objects;
    LocalReflexive(start, b.key);
    FreshOrGone(api, b);
    var claim;
    claim, err := ClaimFor(api, b, desired, o);
    if err.Some? { return; }
    ghost var mid := api.s;
    if calm { OnlyBindingIsLocal(start, mid, b.key); OnlyObjects(start, mid, b.key); }
    out, err := CreateClaimed(api, b, plan, desired.(claim := claim));
    if calm && desired.spec.Rendered? {
      LocalTransitive(start, mid, api.s, b.key);
      AppliedIgnoresClaim(api.s, b.Record(), plan, desired, out, claim);
    }
    if calm && !o.kind.PendingAbsent? { OnlyThenSpawned(start, mid, api.s, b.key, desired.name, desired.spec, claim); }
  }

  lemma OnlyObjects(a: State, b: State, k: Key)
    requires OnlyBinding(a, b, k)
    ensures a.objects == b.objects
  {
  }

  // The claim to create under: the one recorded, or a fresh one.
  method ClaimFor(api: Cluster, b: Binding, desired: Object, o: Observation) returns (claim: string, err: Option<Err>)
    requires api.Valid() && b.Good(api) && b.finalizer && !Text.Blank(desired.name)
    requires if o.kind.PendingAbsent? then b.Record() == o.record && o.record.Pending? && o.record.name == desired.name else b.Record().Unclaimed?
    requires Covering(api.rules) && b.Record().Pending? ==> b.Synced(api)
    requires Excluding(api.rules) ==> Sole(api.focus, api.s, b)
    requires Fencing(api.rules) ==> Unlodged(api.focus, api.s, b)
    requires Reservable(api.focus, b.origin)
    modifies api, b
    ensures api.Valid() && api.focus == old(api.focus) && b.generation == old(b.generation) && b.Good(api)
    ensures err.None? ==> b.Record() == Pending(desired.name, claim) && b.spec == old(b.spec) && SameSettings(b.status, old(b.status))
    ensures err.None? && Covering(api.rules) ==> b.Synced(api)
    ensures err.None? && Excluding(api.rules) ==> api.focus.key == Some(b.key) && api.focus.listed && Extinct(api.s, api.focus.rivals)
    ensures err.None? && Fencing(api.rules) ==> Unlodged(api.focus, api.s, b)
    ensures o.kind.PendingAbsent? ==>
              && err.None? && claim == o.record.claim && api.s == old(api.s) && b.status == old(b.status) && b.origin == old(b.origin)
              && api.script == old(api.script) && api.stopped == old(api.stopped)
    ensures old(api.Calm()) ==> api.Calm()
    ensures old(api.Calm() && Fresh(api, b)) ==> err.None? && Fresh(api, b) && OnlyBinding(old(api.s), api.s, b.key)
    ensures old(api.Calm() && b.Record().Unclaimed? && Outdated(api.s, b.origin)) ==>
              err.Some? && err != Some(Api(NoMatch)) && OnlyBinding(old(api.s), api.s, b.key)
  {
    hide GoodTrace, Inv, Frame, Steady, Follows, AllCalm, WorkingCopy, Extinct, OnlyBinding, SameRecordsBut;
    ghost var start := api.s;
    OnlyReflexive(start, b.key);
    DecodesHere(api, b);
    FreshOrGone(api, b);
    if o.kind.PendingAbsent? { return o.record.claim, None; }
    claim, err := ReserveClaim(api, b, desired.name);
    if err.Some? { return; }
    if Excluding(api.rules) { ExtinctIn(start, api.s, api.focus.rivals); }
    if Fencing(api.rules) { ExtinctIn(start, api.s, api.focus.lodgers); }
  }

  method CreateClaimed(api: Cluster, b: Binding, plan: Plan, claimed: Object) returns (out: RenderedOutput, err: Option<Err>)
    requires api.Valid() && b.Good(api) && b.Record() == Pending(claimed.name, claimed.claim)
    requires Covering(api.rules) ==> b.Synced(api)
    requires Excluding(api.rules) ==> api.focus.key == Some(b.key) && api.focus.listed && Extinct(api.s, api.focus.rivals)
    requires Fencing(api.rules) ==> Unlodged(api.focus, api.s, b)
    requires Selection.Spells(claimed.spec, b.key.namespace, b.spec.serviceAccount, b.spec.variant)
    modifies api, b
    ensures api.Valid() && api.focus == old(api.focus) && b.generation == old(b.generation)
    ensures b.Good(api) && (err.None? ==> b.Record().Confirmed? && b.Record().name == claimed.name && SameSettings(b.status, old(b.status)))
    ensures old(api.Calm()) ==> api.Calm()
    ensures old(api.Calm() && claimed.name !in api.s.objects) ==>
              && Spawned(old(api.s), api.s, b.key, claimed.name, claimed.spec) && (err.Some? ==> err != Some(Api(NoMatch)) && !old(Fresh(api, b)))
              && Booked(old(api.s), api.s, b.key, claimed.name, claimed.claim, old(Fresh(api, b)))
    ensures old(api.Calm() && Fresh(api, b) && claimed.name !in api.s.objects) && claimed.spec.Rendered? ==>
              err.None? && Fresh(api, b) && Local(old(api.s), api.s, b.key) && Applied(api.s, b.Record(), plan, claimed, out)
  {
    hide GoodTrace, Inv, Frame, Steady, Follows, Selection.Spells, Creatable, Local, RenderedStatus, OnlyBinding, InPlace, MadeObject, Make,
         Spawned, Booked;
    out := RenderedOutput("", "", "", None);
    ghost var start := api.s;
    ghost var calm := api.Calm() && Fresh(api, b) && claimed.name !in api.s.objects;
    CreatableNow(api, b, claimed);
    FreshOrGone(api, b);
    var r := api.CreateObject(b.origin, b.key, claimed);
    SteadyKeeps(api.rules, api.focus, start, api.s, b.origin);
    if r.Err? {
      return out, Some(if r.err.AlreadyExists? then CreateRace else Api(r.err));
    }
    ghost var made := api.s;
    MakeKeepsBindings(start, b.key, claimed);
    err := ConfirmOwnership(api, b, r.value.name, r.value.uid);
    out := RenderStatus(plan, r.value);
    OnlyReflexive(made, b.key);
    if old(api.Calm()) && claimed.name !in start.objects { MadeIsSpawned(start, api.s, b.key, claimed, calm); }
    if calm && claimed.spec.Rendered? { CreatedLocally(api.rules, start, made, api.s, b.key, claimed); }
  }

  lemma AppliedIgnoresClaim(s: State, r: Record, plan: Plan, desired: Object, out: RenderedOutput, claim: string)
    requires Applied(s, r, plan, desired.(claim := claim), out)
    ensures Applied(s, r, plan, desired, out)
  {
  }

  // The live object at the desired name is the recorded one and in sync.
  predicate InPlace(s: State, r: Record, desired: Object) {
    desired.name in s.objects
    && r == Confirmed(desired.name, s.objects[desired.name].uid) && Manifest.InSync(s.objects[desired.name], desired)
  }

  // It is also the one reported.
  ghost predicate Applied(s: State, r: Record, plan: Plan, desired: Object, out: RenderedOutput) {
    InPlace(s, r, desired) && out == RenderedStatus(plan, s.objects[desired.name])
  }

  lemma CreatedLocally(r: Rules, a: State, b: State, c: State, k: Key, o: Object)
    requires Inv(r, a) && o.name !in a.objects && o.spec.Rendered? && b == Make(a, k, o) && OnlyBinding(b, c, k)
    ensures Local(a, c, k)
    ensures o.name in b.objects && c.objects == b.objects && InPlace(c, Confirmed(o.name, b.objects[o.name].uid), o)
  {
    hide Inv, Local;
    MakeIsLocal(r, a, k, o);
    OnlyBindingIsLocal(b, c, k);
    LocalTransitive(a, b, c, k);
  }

  lemma MakeKeepsBindings(s: State, k: Key, o: Object)
    ensures Make(s, k, o).bindings == s.bindings && o.name in Make(s, k, o).objects && Make(s, k, o).objects[o.name].uid == s.nextUid
  {
  }

  lemma MakeIsLocal(r: Rules, s: State, k: Key, o: Object)
    requires Inv(r, s) && o.name !in s.objects
    ensures Local(s, Make(s, k, o), k)
  {
    hide VersionsOK, EffectsOK, Covered, Exclusive, Walled;
  }

  // Corrects drift on an object whose UID the confirmed record authorizes.
  method UpdateManaged(api: Cluster, b: Binding, plan: Plan, current: Object, desired: Object) returns (out: RenderedOutput, err: Option<Err>)
    requires api.Valid() && b.Good(api) && Owns(api.s, b.key, current.uid) && Seen(api.s, current)
    requires Fencing(api.rules) ==> api.focus.key == Some(b.key) && api.focus.listed && Coincide(api.focus.seen, b.spec) && Extinct(api.s, api.focus.lodgers)
    requires current.name == desired.name && desired.spec.Rendered?
    requires Selection.Spells(desired.spec, b.key.namespace, b.spec.serviceAccount, b.spec.variant)
    modifies api
    ensures api.Valid() && api.focus == old(api.focus) && Rely(api.rules, api.focus, old(api.s), api.s) && b.Good(api)
    ensures Manifest.InSync(current, desired) ==> api.s == old(api.s) && err.None? && out == RenderedStatus(plan, current)
    ensures err.None? && !Manifest.InSync(current, desired) ==>
              desired.name in api.s.objects && Manifest.InSync(api.s.objects[desired.name], desired)
              && api.s.objects[desired.name].uid == current.uid && api.s.objects[desired.name].claim == current.claim
              && out == RenderedStatus(plan, api.s.objects[desired.name])
    ensures old(api.Calm()) ==> api.Calm()
    ensures old(api.Calm() && Lookup(api.s, desired.name) == Some(current)) ==>
              err.None? && api.s.bindings == old(api.s.bindings) && Local(old(api.s), api.s, b.key)
  {
    hide GoodTrace, Inv, Rely, Follows, Selection.Spells, Local, FenceOf, Keyed, Extinct;
    RelyReflexive(api.rules, api.focus, api.s);
    LocalReflexive(api.s, b.key);
    if Manifest.InSync(current, desired) {
      out := RenderStatus(plan, current);
      return out, None;
    }
    Manifest.MergeRepairs(current, desired);
    SpellsKeyed(desired.spec, b.key.namespace, b.spec);
    ghost var start := api.s;
    var r := api.UpdateObject(b.origin, b.key, current, Manifest.MergeDesired(current, desired));
    FollowsOn(api.rules, api.focus, start, api.s, b.origin);
    if r.Err? {
      return RenderedOutput("", "", "", None), Some(Api(r.err));
    }
    out := RenderStatus(plan, r.value);
    err := None;
    if old(api.Calm() && Lookup(api.s, desired.name) == Some(current)) {
      PutObjectIsLocal(start, b.key, Manifest.MergeDesired(current, desired).(generation := r.value.generation), api.s.effects);
    }
  }

  lemma PutObjectIsLocal(s: State, k: Key, o: Object, effects: seq<Effect>)
    requires Owns(s, k, o.uid) && o.name in s.objects && s.objects[o.name].uid == o.uid
    ensures Local(s, PutObject(s, o).(effects := effects), k)
  {
  }

  // Applies the desired object only after the classifier authorizes it.
  method ReconcileOutput(api: Cluster, b: Binding, plan: Plan, desired: Object) returns (out: RenderedOutput, err: Option<Err>)
    requires api.Valid() && b.Good(api) && b.finalizer && !Text.Blank(desired.name) && desired.spec.Rendered?
    requires Selection.Spells(desired.spec, b.key.namespace, b.spec.serviceAccount, b.spec.variant)
    requires b.Record().Unclaimed? || b.Record().name == desired.name
    requires Covering(api.rules) && b.Record().Pending? ==> b.Synced(api)
    requires Excluding(api.rules) ==> Sole(api.focus, api.s, b)
    requires Fencing(api.rules) ==> Unlodged(api.focus, api.s, b)
    requires Reservable(api.focus, b.origin)
    modifies api, b
    ensures api.Valid() && api.focus == old(api.focus) && b.generation == old(b.generation)
    ensures b.Good(api) && (err.None? ==> b.Record().Confirmed? && b.Record().name == desired.name && SameSettings(b.status, old(b.status)))
    ensures old(api.Calm()) ==> api.Calm()
    ensures old(api.Calm() && Fresh(api, b) && Slot(api.s, b.Record(), desired.name)) ==>
              err.None? && Fresh(api, b) && Local(old(api.s), api.s, b.key) && Applied(api.s, b.Record(), plan, desired, out)
    ensures old(api.Calm() && InPlace(api.s, b.Record(), desired)) ==>
              err.None? && api.s == old(api.s) && b.status == old(b.status) && b.origin == old(b.origin)
    ensures old(api.Calm() && Spawning(api, b, desired.name)) ==>
              && Spawned(old(api.s), api.s, b.key, desired.name, desired.spec) && (err.Some? ==> err != Some(Api(NoMatch)) && !old(Fresh(api, b)))
              && Booked(old(api.s), api.s, b.key, desired.name, old(ClaimOf(b.Record())), old(Fresh(api, b)))
    ensures old(api.Calm() && b.Record().Unclaimed? && Outdated(api.s, b.origin)) ==>
              err.Some? && err != Some(Api(NoMatch)) && OnlyBinding(old(api.s), api.s, b.key)
  {
    hide GoodTrace, Inv, Frame, Steady, Follows, Selection.Spells, Local, Sole, Manifest.InSync, RenderedStatus, OnlyBinding, Spawned, Booked;
    OnlyReflexive(api.s, b.key);
    ghost var start := api.s;
    ghost var calm := api.Calm() && Fresh(api, b) && Slot(api.s, b.Record(), desired.name);
    var o, current;
    o, current, err := AuthorizeSlot(api, b, desired);
    if err.Some? { return RenderedOutput("", "", "", None), err; }
    ghost var mid := api.s;
    if current.None? {
      out, err := CreateManaged(api, b, plan, desired, o);
    } else {
      out, err := UpdateManaged(api, b, plan, current.value, desired);
    }
    if calm {
      OnlyBindingIsLocal(start, mid, b.key);
      LocalTransitive(start, mid, api.s, b.key);
    }
  }

  // Observes the desired name and authorizes what is found there.
  method AuthorizeSlot(api: Cluster, b: Binding, desired: Object) returns (o: Observation, current: Option<Object>, err: Option<Err>)
    requires api.Valid() && b.Good(api) && !Text.Blank(desired.name)
    requires b.Record().Unclaimed? || b.Record().name == desired.name
    requires Covering(api.rules) && b.Record().Pending? ==> b.Synced(api)
    requires Excluding(api.rules) ==> Sole(api.focus, api.s, b)
    requires Fencing(api.rules) ==> Unlodged(api.focus, api.s, b)
    requires Reservable(api.focus, b.origin)
    modifies api, b
    ensures api.Valid() && api.focus == old(api.focus)
    ensures b.generation == old(b.generation) && b.finalizer == old(b.finalizer)
    ensures b.Good(api) && (err.None? ==> b.spec == old(b.spec) && SameSettings(b.status, old(b.status)))
    ensures err.None? && current.None? ==>
              if o.kind.PendingAbsent? then b.Record() == o.record && o.record.Pending? && o.record.name == desired.name else b.Record().Unclaimed?
    ensures err.None? && current.Some? ==>
              && Owns(api.s, b.key, current.value.uid) && Seen(api.s, current.value)
              && b.Record() == Confirmed(desired.name, current.value.uid) && current.value.name == desired.name
    ensures err.None? && Covering(api.rules) && b.Record().Pending? ==> b.Synced(api)
    ensures err.None? && current.None? && Excluding(api.rules) ==> Sole(api.focus, api.s, b)
    ensures err.None? && Fencing(api.rules) ==> if current.None? then Unlodged(api.focus, api.s, b) else Extinct(api.s, api.focus.lodgers)
    ensures old(api.Calm()) ==> api.Calm()
    ensures old(api.Calm() && !b.Record().Confirmed? && desired.name !in api.s.objects) ==>
              && err.None? && current.None? && (o.kind.PendingAbsent? <==> b.Record().Pending?)
              && api.s == old(api.s) && b.status == old(b.status) && b.origin == old(b.origin)
    ensures old(api.Calm() && b.Record().Unclaimed?) ==>
              && err != Some(Api(NoMatch)) && current.None? && !o.kind.PendingAbsent?
              && api.s == old(api.s) && b.status == old(b.status) && b.origin == old(b.origin)
    ensures old(api.Calm() && Fresh(api, b) && Slot(api.s, b.Record(), desired.name)) ==>
              err.None? && Fresh(api, b) && OnlyBinding(old(api.s), api.s, b.key) && current == Lookup(api.s, desired.name)
    ensures old(api.Calm() && InPlace(api.s, b.Record(), desired)) ==>
              err.None? && current == Lookup(api.s, desired.name) && api.s == old(api.s) && b.status == old(b.status) && b.origin == old(b.origin)
  {
    hide GoodTrace, Inv, Frame, Steady, Follows, Sole, Unlodged, Extinct, AllCalm, WorkingCopy, SameRecordsBut, Manifest.InSync, OnlyBinding, RecordOf, Decode, SameView, SameSettings,
         Slot, InPlace, Classify, Covers, Seen, Owns, Outdated, Vacant, Reservable;
    current := None;
    o, err := ObserveSlot(api, b, desired);
    if err.Some? { return; }
    ghost var seen := api.s;
    current, err := AuthorizeApply(api, b, desired, o);
    LookupKept(seen, api.s, b.key, desired.name);
    if err.None? { ViewSettings(b.status, old(b.status)); }
  }

  // Observes the desired name.
  method ObserveSlot(api: Cluster, b: Binding, desired: Object) returns (o: Observation, err: Option<Err>)
    requires api.Valid() && b.Good(api) && !Text.Blank(desired.name)
    requires b.Record().Unclaimed? || b.Record().name == desired.name
    requires Covering(api.rules) && b.Record().Pending? ==> b.Synced(api)
    requires Excluding(api.rules) ==> Sole(api.focus, api.s, b)
    requires Fencing(api.rules) ==> Unlodged(api.focus, api.s, b)
    modifies api
    ensures api.Valid() && api.focus == old(api.focus) && b.Good(api)
    ensures Covering(api.rules) && b.Record().Pending? ==> b.Synced(api)
    ensures Excluding(api.rules) ==> Sole(api.focus, api.s, b)
    ensures Fencing(api.rules) ==> Unlodged(api.focus, api.s, b)
    ensures err.None? ==> o == Classify(b.Record(), Lookup(api.s, desired.name))
    ensures err.None? ==> o.record == b.Record() && o.live == Lookup(api.s, desired.name) && (o.kind.PendingAbsent? ==> o.record.Pending?)
    ensures err.None? && Slot(api.s, b.Record(), desired.name) ==> !Foreign(o.kind)
    ensures err.None? && InPlace(api.s, b.Record(), desired) ==> o.kind.ConfirmedMatched?
    ensures err.None? && b.Record().Unclaimed? ==> o.kind.UnclaimedAbsent? || o.kind.UnclaimedForeign?
    ensures err.None? && desired.name !in api.s.objects && b.Record().Pending? ==> o.kind.PendingAbsent?
    ensures err.None? && desired.name !in api.s.objects && b.Record().Unclaimed? ==> o.kind.UnclaimedAbsent?
    ensures old(api.Calm()) ==> api.Calm() && api.s == old(api.s) && err.None?
  {
    hide GoodTrace, Inv, Frame, Steady, Follows, Sole, Unlodged, AllCalm, WorkingCopy, RecordOf, Decode, Slot, InPlace, Covers;
    ghost var start := api.s;
    DecodesHere(api, b);
    o, err := Observe(api, b, desired.name);
    if Excluding(api.rules) { SoleStable(api.focus, start, api.s, b); }
    if Fencing(api.rules) { UnlodgedStable(api.focus, start, api.s, b); }
    if err.Some? { return; }
    ObjectNamed(api.rules, api.s, desired.name);
    SlotKinds(api.s, b.Record(), desired);
  }

  // What is observed at the desired name, by what is there.
  lemma SlotKinds(s: State, r: Record, desired: Object)
    requires desired.name in s.objects ==> s.objects[desired.name].name == desired.name
    ensures var kind := Classify(r, Lookup(s, desired.name)).kind;
            && (Slot(s, r, desired.name) ==> !Foreign(kind)) && (InPlace(s, r, desired) ==> kind.ConfirmedMatched?)
            && (desired.name !in s.objects && r.Pending? ==> kind.PendingAbsent?)
            && (desired.name !in s.objects && r.Unclaimed? ==> kind.UnclaimedAbsent?)
            && (r.Unclaimed? ==> kind.UnclaimedAbsent? || kind.UnclaimedForeign?)
  {
    hide Manifest.InSync;
  }

  lemma ViewSettings(a: Status, b: Status)
    requires SameView(a, b)
    ensures SameSettings(a, b)
  {
  }

  lemma LookupKept(a: State, b: State, k: Key, n: string)
    ensures OnlyBinding(a, b, k) ==> Lookup(b, n) == Lookup(a, n)
  {
  }

  lemma ObjectNamed(r: Rules, s: State, n: string)
    requires Inv(r, s)
    ensures n in s.objects ==> s.objects[n].name == n
  {
  }

  // The desired name is free, or taken by the recorded incarnation.
  predicate Slot(s: State, r: Record, name: string) {
    name in s.objects ==> Covers(r, s.objects[name])
  }
}
