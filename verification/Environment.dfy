// Everything other actors may do to the cluster between two API calls.

module Environment {
  import opened Types
  import opened Statuses
  import opened Store
  import opened Changes

  datatype EnvStep =
    | CreateObject(name: string, claim: string, labels: map<string, string>, spec: ObjectSpec, held: bool)
    | EditObject(name: string, labels: map<string, string>, spec: ObjectSpec, held: bool)
    | AnnotateObject(name: string, claim: string)   // replaces or strips the claim annotation
    | DeleteObject(name: string)
    | ReleaseObject(name: string)                   // drops the finalizers that keep it present
    | CreateBinding(key: Key, intent: BindingSpec, finalizer: bool, guarded: bool)
    | EditBinding(key: Key, intent: BindingSpec)
    | TouchBinding(key: Key)
    | DeleteBinding(key: Key)
    | ReleaseBinding(key: Key)                      // drops finalizers other than the controller's
    | SetPool(key: Key, pool: Pool)
    | RemovePool(key: Key)

  // The binding under reconciliation and the spec its first read saw. `listed` says
  // that its peers have been read; at that moment `rivals` were the incarnations that
  // were live output of its rivals, and `lodgers` those whose selectors spell out the
  // boundary seen.
  datatype Focus = Focus(key: Option<Key>, seen: BindingSpec, listed: bool, rivals: set<nat>, lodgers: set<nat>)

  const NO_FOCUS := Focus(None, BindingSpec("", "", "", ""), false, {}, {})

  function Reading(k: Key, spec: BindingSpec): Focus {
    Focus(Some(k), spec, false, {}, {})
  }

  // The reconcile of k may go on to create output without comparing this variant.
  predicate Uncompared(f: Focus, s: State, k: Key, variant: string) {
    f.key == Some(k) && (f.listed || (StoredRecord(s, k).Pending? && variant != f.seen.variant))
  }

  // An edit of k to `spec` gives no two outputs one boundary, neither live ones
  // nor one that the reconcile under way may still create.
  predicate Spaced(f: Focus, s: State, k: Key, spec: BindingSpec) {
    !Vacant(s, k) || (StoredRecord(s, k).Pending? && Uncompared(f, s, k, spec.variant)) ==>
      forall j | j in s.bindings && j != k && j.namespace == k.namespace && Coincide(s.bindings[j].spec, spec) ::
        Vacant(s, j) && !Uncompared(f, s, j, s.bindings[j].spec.variant)
  }

  // Binding k has live output, or its reconcile may create some from a claim.
  predicate Committed(f: Focus, s: State, k: Key) {
    !Vacant(s, k) || (f.key == Some(k) && StoredRecord(s, k).Pending?)
  }

  // A spec for k parts nobody from output: not from live output, and not from that
  // which the reconcile under way may write in the boundary it saw.
  predicate Mooring(f: Focus, s: State, k: Key, spec: BindingSpec) {
    || (k in s.bindings && Coincide(spec, s.bindings[k].spec))
    || (Moorable(s, k, spec) && MooringSeen(f, s, k, spec))
  }

  predicate MooringSeen(f: Focus, s: State, k: Key, spec: BindingSpec) {
    f.key.Some? && f.key.value in s.bindings && f.key.value.namespace == k.namespace && Committed(f, s, f.key.value) ==>
      if f.key == Some(k) then Coincide(spec, f.seen) || Unsought(s, k, f.seen)
      else Coincide(spec, f.seen) ==> Coincide(s.bindings[f.key.value].spec, f.seen)
  }

  // Nobody forges a claim, edits status or strips the controller's finalizer in
  // any world; the rules add the rest.
  predicate Permitted(r: Rules, f: Focus, s: State, e: EnvStep) {
    match e
    case CreateObject(n, c, _, _, _) => n !in s.objects && !IsMinted(c)
    case EditObject(n, _, spec, _) => n in s.objects && (r.pristine && Made(s, n) ==> spec == s.objects[n].spec)
    case AnnotateObject(n, c) => n in s.objects && !IsMinted(c) && (r.current ==> !Made(s, n))
    case DeleteObject(n) => n in s.objects
    case ReleaseObject(n) => n in s.objects
    case CreateBinding(k, spec, _, _) => k !in s.bindings && (r.moored ==> Mooring(f, s, k, spec))
    case EditBinding(k, spec) =>
      k in s.bindings && (r.moored ==> Mooring(f, s, k, spec)) && (r.spaced ==> Spaced(f, s, k, spec))
    case TouchBinding(k) => k in s.bindings
    case DeleteBinding(k) => k in s.bindings && (r.latched && f.key == Some(k) && !f.listed ==> !StoredRecord(s, k).Pending?)
    case ReleaseBinding(k) => k in s.bindings
    case SetPool(_, _) => true
    case RemovePool(_) => true
  }

  function PutObject(s: State, o: Object): State {
    s.(objects := s.objects[o.name := o.(rv := s.nextRv)], nextRv := s.nextRv + 1)
  }

  // Deleting removes the object unless a finalizer holds it.
  function Deleted(s: State, n: string): State
    requires n in s.objects
  {
    var o := s.objects[n];
    if !o.held then s.(objects := s.objects - {n})
    else if o.terminating then s
    else PutObject(s, o.(terminating := true))
  }

  // Deleting a binding only marks it while some finalizer is present.
  function Discarded(s: State, b: Stored): State {
    if !b.finalizer && !b.guarded then Drop(s, b.key)
    else if b.deleting then s
    else Put(s, b.(deleting := true, generation := b.generation + 1))
  }

  function Apply(s: State, e: EnvStep): State
    requires e.CreateObject? || e.CreateBinding? || e.SetPool? || e.RemovePool?
             || (if e.EditObject? || e.AnnotateObject? || e.DeleteObject? || e.ReleaseObject? then e.name in s.objects else e.key in s.bindings)
  {
    match e
    case CreateObject(n, c, labels, spec, held) =>
      PutObject(s, Object(n, s.nextUid, 0, 1, c, labels, spec, held, false)).(nextUid := s.nextUid + 1)
    case EditObject(n, labels, spec, held) =>
      var o := s.objects[n];
      if o.terminating && !held then s.(objects := s.objects - {n})
      else PutObject(s, o.(labels := labels, spec := spec, held := held,
                           generation := if spec == o.spec then o.generation else o.generation + 1))
    case AnnotateObject(n, c) => PutObject(s, s.objects[n].(claim := c))
    case DeleteObject(n) => Deleted(s, n)
    case ReleaseObject(n) =>
      if s.objects[n].terminating then s.(objects := s.objects - {n}) else PutObject(s, s.objects[n].(held := false))
    case CreateBinding(k, spec, finalizer, guarded) =>
      Put(s, Stored(k, 0, 1, spec, false, finalizer, guarded, EMPTY_STATUS))
    case EditBinding(k, spec) =>
      var b := s.bindings[k]; Put(s, b.(spec := spec, generation := b.generation + 1))
    case TouchBinding(k) => Put(s, s.bindings[k])
    case DeleteBinding(k) => Discarded(s, s.bindings[k])
    case ReleaseBinding(k) =>
      var b := s.bindings[k].(guarded := false);
      if b.deleting && !b.finalizer then Drop(s, k) else Put(s, b)
    case SetPool(k, p) => s.(pools := s.pools[k := p])
    case RemovePool(k) => s.(pools := s.pools - {k})
  }

  // Steps of other actors in turn, leaving out those that are not permitted.
  function Played(r: Rules, f: Focus, s: State, steps: seq<EnvStep>): State {
    if steps == [] then s
    else
      var t := Played(r, f, s, steps[..|steps| - 1]);
      var e := steps[|steps| - 1];
      if Permitted(r, f, t, e) then Apply(t, e) else t
  }

  // The output of the binding under reconciliation would have no rival but those
  // its comparison is about: before the list, when its variant is not the one seen;
  // after it, apart from the rivals of that moment.
  ghost predicate Apart(f: Focus, s: State, k: Key)
    requires k in s.bindings
  {
    if f.listed then RivalsAmong(s, k, f.rivals) else s.bindings[k].spec.variant == f.seen.variant || RivalsAmong(s, k, {})
  }

  // What recorded bindings keep while others act.
  ghost predicate Held(r: Rules, f: Focus, a: State, b: State) {
    && (forall k | !StoredRecord(a, k).Unclaimed? ::
          && k in b.bindings
          && (Covering(r) && f.key == Some(k) && !f.listed && StoredRecord(a, k).Pending? ==>
                b.bindings[k].deleting == a.bindings[k].deleting))
    && (Excluding(r) ==> HeldApart(f, a, b))
    && (Fencing(r) ==> HeldLodged(f, a, b))
  }

  // Every other output in the boundary seen is one that the list met.
  ghost predicate Noted(f: Focus, s: State, k: Key) {
    forall n | Made(s, n) && Faces(s, k, n, f.seen) :: s.objects[n].uid in f.lodgers
  }

  // Output in the boundary seen is no trap for others, and before the list the
  // comparison will meet whoever has output there.
  ghost predicate Lodged(f: Focus, s: State, k: Key)
    requires k in s.bindings
  {
    && Berthed(s, k, f.seen)
    && (!f.listed ==> forall n | Made(s, n) && Faces(s, k, n, f.seen) :: Coincide(s.bindings[k].spec, f.seen) && AtHome(s, n))
  }

  ghost predicate HeldLodged(f: Focus, a: State, b: State) {
    f.key.Some? ==>
      var k := f.key.value;
      && (f.listed && Noted(f, a, k) ==> Noted(f, b, k))
      && (k in b.bindings && Committed(f, b, k) ==> k in a.bindings && Committed(f, a, k) && (Lodged(f, a, k) ==> Lodged(f, b, k)))
  }

  ghost predicate HeldApart(f: Focus, a: State, b: State) {
    f.key.Some? ==>
      var k := f.key.value;
      && k in a.bindings && k in b.bindings && Apart(f, a, k)
      && (StoredRecord(a, k).Pending? || (f.listed && a.bindings[k] == b.bindings[k])) ==>
        Apart(f, b, k)
  }

  // Acting on o can lead to a Create: a claim is stored, or o may still reserve one.
  predicate Creating(f: Focus, s: State, o: Stored) {
    o.key in s.bindings && (StoredRecord(s, o.key).Pending? || (f.listed && s.bindings[o.key] == o))
  }

  // The version o of a binding is still good to act on: it was persisted once;
  // and, when it is under reconciliation, its output would be apart from others and
  // from others' boundaries, and before the list a Pending binding has not been marked
  // deleting.
  ghost predicate Follows(r: Rules, f: Focus, s: State, o: Stored) {
    && o in s.past
    && (Fencing(r) && f.key == Some(o.key) ==>
          (f.listed ==> Noted(f, s, o.key)) && (o.key in s.bindings && Committed(f, s, o.key) ==> Lodged(f, s, o.key)))
    && (Excluding(r) && f.key == Some(o.key) && Creating(f, s, o) ==> Apart(f, s, o.key))
    && (Covering(r) && f.key == Some(o.key) && !f.listed && StoredRecord(s, o.key).Pending? ==>
          s.bindings[o.key].deleting == o.deleting)
  }

  ghost predicate Steady(r: Rules, f: Focus, a: State, b: State) {
    forall o | Follows(r, f, a, o) :: Follows(r, f, b, o)
  }

  // What the controller may rely on while others act between two of its calls.
  ghost predicate Rely(r: Rules, f: Focus, a: State, b: State) {
    Frame(a, b) && SameRecords(a, b) && Steady(r, f, a, b)
  }

  lemma RelyTransitive(r: Rules, f: Focus, a: State, b: State, c: State)
    requires Rely(r, f, a, b) && Rely(r, f, b, c)
    ensures Rely(r, f, a, c)
  {
    hide Follows;
    FrameTransitive(a, b, c);
    hide Frame;
    forall k ensures StoredRecord(c, k) == StoredRecord(a, k) { assert StoredRecord(b, k) == StoredRecord(a, k); }
  }

  lemma SteadyTransitive(r: Rules, f: Focus, a: State, b: State, c: State)
    requires Steady(r, f, a, b) && Steady(r, f, b, c)
    ensures Steady(r, f, a, c)
  {
    hide Follows;
  }

  lemma HeldIsSteady(r: Rules, f: Focus, a: State, b: State)
    requires Inv(r, a) && a.past <= b.past && BindingsFrom(a, b) && SameRecords(a, b) && Held(r, f, a, b)
    ensures Steady(r, f, a, b)
  {
    hide Covered, Exclusive, Walled, ObjectsOK, ClaimsOK, EffectsOK, Attributed, StatusOK, RecordOf, Apart, Noted, Lodged, Committed;
    forall o | Follows(r, f, a, o) ensures Follows(r, f, b, o) {
      assert StoredRecord(b, o.key) == StoredRecord(a, o.key) && o.rv < a.nextRv;
      assert o.key in b.bindings && b.bindings[o.key] == o ==> o.key in a.bindings && a.bindings[o.key] == o;
    }
  }

  // Only the output of the binding under reconciliation changed its boundary.
  ghost predicate FencesKept(f: Focus, a: State, b: State) {
    forall n | Redrawn(a, b, n) :: f.key == Some(MakerOf(b, n))
  }

  lemma ShiftKeeps(r: Rules, f: Focus, a: State, b: State)
    requires Inv(r, a) && ObjectsShift(r, a, b) && (Fencing(r) ==> FencesKept(f, a, b))
    ensures Inv(r, b) && Step(r, a, b) && Rely(r, f, a, b)
  {
    hide Inv, Step, Steady;
    ShiftInv(r, a, b);
    ShiftStep(r, a, b);
    ShiftFences(r, f, a, b);
    ShiftHeld(r, f, a, b);
    hide ObjectsShift;
    HeldIsSteady(r, f, a, b);
  }

  lemma ShiftFences(r: Rules, f: Focus, a: State, b: State)
    requires Inv(r, a) && ObjectsShift(r, a, b)
    ensures a.bindings == b.bindings && a.created == b.created && NoGrowth(a, b)
  {
    hide Inv, Step;
    ShiftStep(r, a, b);
  }

  lemma ShiftHeld(r: Rules, f: Focus, a: State, b: State)
    requires a.bindings == b.bindings && a.created == b.created && NoGrowth(a, b) && (Fencing(r) ==> FencesKept(f, a, b))
    ensures Held(r, f, a, b)
  {
    hide RecordOf, FenceOf, HeldLodged;
    if Fencing(r) { ShiftLodged(f, a, b); }
    if f.key.Some? && f.key.value in a.bindings {
      RivalsShrink(a, b, f.key.value, f.rivals);
      RivalsShrink(a, b, f.key.value, {});
    }
  }

  lemma ShiftLodged(f: Focus, a: State, b: State)
    requires a.bindings == b.bindings && a.created == b.created && NoGrowth(a, b) && FencesKept(f, a, b)
    ensures HeldLodged(f, a, b)
  {
    hide RecordOf, FenceOf, Berthed;
    if f.key.Some? {
      var k := f.key.value;
      StaysVacant(a, b, k);
      SameBerth(a, b, k, f.seen);
      forall n | Made(b, n) && Faces(b, k, n, f.seen)
        ensures Made(a, n) && Faces(a, k, n, f.seen) && (AtHome(a, n) ==> AtHome(b, n)) && a.objects[n].uid == b.objects[n].uid
      {
        assert Made(a, n) && !Redrawn(a, b, n);
      }
    }
  }

  lemma StaysVacant(a: State, b: State, k: Key)
    requires a.created == b.created && NoGrowth(a, b)
    ensures Vacant(a, k) ==> Vacant(b, k)
  {
  }

  lemma RivalsShrink(a: State, b: State, k: Key, rivals: set<nat>)
    requires a.bindings == b.bindings && a.created == b.created && NoGrowth(a, b)
    ensures RivalsAmong(a, k, rivals) ==> RivalsAmong(b, k, rivals)
  {
    forall n | Made(b, n) && MakerOf(b, n) != k && Rivals(b, k, MakerOf(b, n))
      ensures Made(a, n) && MakerOf(a, n) == MakerOf(b, n) && Rivals(a, k, MakerOf(a, n)) && a.objects[n].uid == b.objects[n].uid
    {
    }
  }

  // One object edited in place, or a new foreign one.
  lemma PutObjectKeeps(r: Rules, f: Focus, s: State, o: Object, uids: nat, effects: seq<Effect>)
    requires Inv(r, s) && s.nextUid <= uids
    requires forall e | e in effects :: e in s.effects || Owns(s, e.key, e.uid)
    requires if o.name in s.objects
             then && o.uid == s.objects[o.name].uid
                  && (o.claim == s.objects[o.name].claim || (!IsMinted(o.claim) && (r.current ==> !Made(s, o.name))))
                  && (Fencing(r) && Made(s, o.name) && o.spec != s.objects[o.name].spec ==>
                        Fits(s, MakerOf(s, o.name), o.spec) && f.key == Some(MakerOf(s, o.name)))
             else s.nextUid <= o.uid < uids && !IsMinted(o.claim)
    ensures var t := PutObject(s, o).(nextUid := uids, effects := effects); Inv(r, t) && Step(r, s, t) && Rely(r, f, s, t)
  {
    hide Safe, Step, Rely, Fits, Covered, Exclusive, Walled, PutObject, ObjectsShift, FencesKept;
    PutObjectShifts(r, f, s, o, uids, effects);
    hide Inv;
    ShiftKeeps(r, f, s, PutObject(s, o).(nextUid := uids, effects := effects));
  }

  lemma PutObjectShifts(r: Rules, f: Focus, s: State, o: Object, uids: nat, effects: seq<Effect>)
    requires Safe(s) && s.nextUid <= uids
    requires forall e | e in effects :: e in s.effects || Owns(s, e.key, e.uid)
    requires if o.name in s.objects
             then && o.uid == s.objects[o.name].uid
                  && (o.claim == s.objects[o.name].claim || (!IsMinted(o.claim) && (r.current ==> !Made(s, o.name))))
                  && (Fencing(r) && Made(s, o.name) && o.spec != s.objects[o.name].spec ==>
                        Fits(s, MakerOf(s, o.name), o.spec) && f.key == Some(MakerOf(s, o.name)))
             else s.nextUid <= o.uid < uids && !IsMinted(o.claim)
    ensures var t := PutObject(s, o).(nextUid := uids, effects := effects); ObjectsShift(r, s, t) && (Fencing(r) ==> FencesKept(f, s, t))
  {
    hide ClaimsOK, VersionsOK, EffectsOK, Fits;
    var t := PutObject(s, o).(nextUid := uids, effects := effects);
    forall n | n in t.objects ensures ShiftedObject(r, s, t, n) {
      assert n != o.name ==> s.objects[n].name == n;
    }
  }

  lemma RemoveObjectKeeps(r: Rules, f: Focus, s: State, n: string, effects: seq<Effect>)
    requires Inv(r, s)
    requires forall e | e in effects :: e in s.effects || Owns(s, e.key, e.uid)
    ensures var t := s.(objects := s.objects - {n}, effects := effects); Inv(r, t) && Step(r, s, t) && Rely(r, f, s, t)
  {
    var t := s.(objects := s.objects - {n}, effects := effects);
    assert ObjectsOK(s);
    hide Inv, Safe, Step, Rely, Fits;
    forall m | m in t.objects ensures ShiftedObject(r, s, t, m) {
      assert s.objects[m].name == m;
    }
    ShiftKeeps(r, f, s, t);
  }

  lemma ObjectEnv(r: Rules, f: Focus, s: State, e: EnvStep)
    requires Inv(r, s) && Permitted(r, f, s, e)
    requires e.CreateObject? || e.EditObject? || e.AnnotateObject? || e.DeleteObject? || e.ReleaseObject?
    ensures var t := Apply(s, e); Inv(r, t) && Step(r, s, t) && Rely(r, f, s, t)
  {
    if !e.CreateObject? { assert s.objects[e.name].name == e.name; }
    hide Inv, Step, Rely, PutObject, Fits;
    match e
    case CreateObject(n, c, labels, spec, held) =>
      PutObjectKeeps(r, f, s, Object(n, s.nextUid, 0, 1, c, labels, spec, held, false), s.nextUid + 1, s.effects);
    case AnnotateObject(n, c) => PutObjectKeeps(r, f, s, s.objects[n].(claim := c), s.nextUid, s.effects);
    case DeleteObject(n) => DeletedKeeps(r, f, s, n, s.effects);
    case _ => EditKeeps(r, f, s, e);
  }

  lemma EditKeeps(r: Rules, f: Focus, s: State, e: EnvStep)
    requires Inv(r, s) && Permitted(r, f, s, e) && (e.EditObject? || e.ReleaseObject?)
    ensures var t := Apply(s, e); Inv(r, t) && Step(r, s, t) && Rely(r, f, s, t)
  {
    hide Step, Rely, Fits, ClaimsOK, VersionsOK, EffectsOK, Covered, Exclusive, Walled;
    var o := s.objects[e.name];
    assert o.name == e.name;
    hide Inv;
    if o.terminating && (e.ReleaseObject? || !e.held) {
      RemoveObjectKeeps(r, f, s, e.name, s.effects);
    } else if e.ReleaseObject? {
      PutObjectKeeps(r, f, s, o.(held := false), s.nextUid, s.effects);
    } else {
      PutObjectKeeps(r, f, s, o.(labels := e.labels, spec := e.spec, held := e.held,
                     generation := if e.spec == o.spec then o.generation else o.generation + 1), s.nextUid, s.effects);
    }
  }

  lemma DeletedKeeps(r: Rules, f: Focus, s: State, n: string, effects: seq<Effect>)
    requires Inv(r, s) && n in s.objects
    requires forall e | e in effects :: e in s.effects || Owns(s, e.key, e.uid)
    ensures var t := Deleted(s, n).(effects := effects); Inv(r, t) && Step(r, s, t) && Rely(r, f, s, t)
  {
    hide Step, Rely, Fits, ClaimsOK, VersionsOK, EffectsOK, Covered, Exclusive, Walled;
    var o := s.objects[n];
    assert o.name == n;
    hide Inv;
    if !o.held { RemoveObjectKeeps(r, f, s, n, effects); }
    else if o.terminating { BookkeepingKeeps(r, f, s, s.pools, effects); }
    else { PutObjectKeeps(r, f, s, o.(terminating := true), s.nextUid, effects); }
  }

  // Writing version b gives no two outputs one boundary.
  predicate SpacedPut(f: Focus, s: State, b: Stored)
    requires b.key in s.bindings
  {
    b.spec == s.bindings[b.key].spec || Spaced(f, s, b.key, b.spec)
  }

  lemma RewriteWritable(r: Rules, f: Focus, s: State, b: Stored)
    requires Inv(r, s) && b.key in s.bindings && b.status == s.bindings[b.key].status
    requires b.finalizer || StoredRecord(s, b.key).Unclaimed?
    requires Fencing(r) ==> Mooring(f, s, b.key, b.spec)
    requires Excluding(r) ==> SpacedPut(f, s, b)
    ensures Writable(r, s, b)
  {
    hide StatusOK, Decode, Holds, Safe, Covered, Walled, RecordOf;
    if Excluding(r) { ExclusiveIsUnrivaled(s, b.key); }
    hide Inv, Exclusive;
    StoredVersion(r, s, b.key);
    AttributedAgain(s, b);
    SpacedIsUnrivaled(r, f, s, b);
    hide Vacant, Unrivaled, SpacedPut;
  }

  lemma AttributedAgain(s: State, b: Stored)
    requires b.key in s.bindings && Attributed(s, s.bindings[b.key]) && b.status == s.bindings[b.key].status && s.bindings[b.key].key == b.key
    ensures Attributed(s, b)
  {
  }

  lemma SpacedIsUnrivaled(r: Rules, f: Focus, s: State, b: Stored)
    requires Excluding(r) ==> b.key in s.bindings && SpacedPut(f, s, b) && (Vacant(s, b.key) || Unrivaled(s, b.key, s.bindings[b.key].spec))
    ensures Excluding(r) ==> Vacant(s, b.key) || Unrivaled(s, b.key, b.spec)
  {
    hide RecordOf, StoredRecord;
    if Excluding(r) && b.spec != s.bindings[b.key].spec && !Vacant(s, b.key) {
      forall n | Made(s, n) && MakerOf(s, n) != b.key && MakerOf(s, n).namespace == b.key.namespace && MakerOf(s, n) in s.bindings
        ensures !Coincide(s.bindings[MakerOf(s, n)].spec, b.spec)
      {
        assert !Vacant(s, MakerOf(s, n));
      }
    }
  }

  // A spaced version keeps the binding under reconciliation apart.
  lemma PutHeldApart(f: Focus, s: State, b: Stored)
    requires if b.key in s.bindings then SpacedPut(f, s, b) else Vacant(s, b.key)
    requires VersionsOK(s)
    ensures HeldApart(f, s, Put(s, b))
  {
    hide RecordOf, Attributed, StatusOK;
    var t := Put(s, b);
    if f.key.Some? && f.key.value in s.bindings && Apart(f, s, f.key.value)
       && (StoredRecord(s, f.key.value).Pending? || (f.listed && s.bindings[f.key.value] == t.bindings[f.key.value])) {
      var k := f.key.value;
      hide VersionsOK;
      if b.key == k { PutSelfApart(f, s, b); } else { PutOtherApart(f, s, b); }
    }
  }

  lemma PutSelfApart(f: Focus, s: State, b: Stored)
    requires f.key == Some(b.key) && b.key in s.bindings && SpacedPut(f, s, b) && Apart(f, s, b.key) && StoredRecord(s, b.key).Pending?
    ensures Apart(f, Put(s, b), b.key)
  {
    hide RecordOf, StoredRecord;
    var t := Put(s, b);
    forall n | Made(t, n) && MakerOf(t, n) != b.key && Rivals(t, b.key, MakerOf(t, n)) && b.spec == s.bindings[b.key].spec
      ensures Made(s, n) && Rivals(s, b.key, MakerOf(s, n))
    {
    }
    if b.spec != s.bindings[b.key].spec && Uncompared(f, s, b.key, b.spec.variant) {
      forall n | Made(t, n) && MakerOf(t, n) != b.key ensures !Rivals(t, b.key, MakerOf(t, n)) {
        assert Made(s, n) && !Vacant(s, MakerOf(s, n));
      }
    }
  }

  lemma PutOtherApart(f: Focus, s: State, b: Stored)
    requires f.key.Some? && f.key.value in s.bindings && f.key.value != b.key && Apart(f, s, f.key.value)
    requires if b.key in s.bindings then SpacedPut(f, s, b) else Vacant(s, b.key)
    requires StoredRecord(s, f.key.value).Pending? || f.listed
    ensures Apart(f, Put(s, b), f.key.value)
  {
    hide RecordOf, StoredRecord;
    var t, k := Put(s, b), f.key.value;
    if f.listed || s.bindings[k].spec.variant != f.seen.variant {
      assert Uncompared(f, s, k, s.bindings[k].spec.variant);
      forall n | Made(t, n) && MakerOf(t, n) != k && Rivals(t, k, MakerOf(t, n)) ensures Made(s, n) && Rivals(s, k, MakerOf(s, n)) {
        assert Made(s, n);
        if MakerOf(s, n) == b.key { assert !Vacant(s, b.key); }
      }
    }
  }

  // A moored version keeps the binding under reconciliation in its berth.
  lemma PutHeldLodged(f: Focus, s: State, b: Stored)
    requires Mooring(f, s, b.key, b.spec) && (b.key !in s.bindings ==> Vacant(s, b.key))
    requires RecordOf(b.status).Pending? ==> StoredRecord(s, b.key).Pending?
    ensures HeldLodged(f, s, Put(s, b))
  {
    hide RecordOf, FenceOf;
    if f.key.Some? {
      var t, k := Put(s, b), f.key.value;
      forall j ensures Vacant(t, j) <==> Vacant(s, j) { SameVacant(s, t, j); }
      forall n ensures Made(t, n) <==> Made(s, n) {}
      forall n | Made(s, n) ensures Faces(t, k, n, f.seen) <==> Faces(s, k, n, f.seen) {}
      if k in t.bindings && Committed(f, t, k) && k in s.bindings && Lodged(f, s, k) {
        if b.key == k { PutLodgedSelf(f, s, b); } else { PutLodgedOther(f, s, b, k); }
      }
    }
  }

  lemma PutLodgedSelf(f: Focus, s: State, b: Stored)
    requires f.key == Some(b.key) && b.key in s.bindings && Committed(f, s, b.key) && Lodged(f, s, b.key) && Mooring(f, s, b.key, b.spec)
    ensures Lodged(f, Put(s, b), b.key)
  {
    hide RecordOf, StoredRecord, FenceOf, Vacant, Moorable;
    var t, k := Put(s, b), b.key;
    forall n | Made(t, n) && Faces(t, k, n, f.seen) && !f.listed ensures Coincide(t.bindings[k].spec, f.seen) && AtHome(t, n) {
      assert Made(s, n) && Faces(s, k, n, f.seen);
      assert AtHome(s, n) && Coincide(s.bindings[MakerOf(s, n)].spec, f.seen);
    }
  }

  lemma PutLodgedOther(f: Focus, s: State, b: Stored, k: Key)
    requires f.key == Some(k) && k != b.key && k in s.bindings && Committed(f, s, k) && Lodged(f, s, k) && Mooring(f, s, b.key, b.spec)
    requires b.key !in s.bindings ==> Vacant(s, b.key)
    ensures Lodged(f, Put(s, b), k)
  {
    hide RecordOf, StoredRecord, FenceOf;
    var t := Put(s, b);
    forall n | Made(t, n) && Faces(t, k, n, f.seen) && !f.listed ensures Coincide(t.bindings[k].spec, f.seen) && AtHome(t, n) {
      assert Made(s, n) && Faces(s, k, n, f.seen) && AtHome(s, n);
    }
  }

  lemma SameVacant(a: State, b: State, k: Key)
    requires a.objects == b.objects && a.created == b.created
    ensures Vacant(a, k) <==> Vacant(b, k)
  {
    forall n ensures Made(a, n) <==> Made(b, n) {}
  }

  lemma DropHeldLodged(f: Focus, s: State, k: Key)
    requires Vacant(s, k)
    ensures HeldLodged(f, s, Drop(s, k))
  {
    hide RecordOf, FenceOf;
    var t := Drop(s, k);
    forall j ensures Vacant(t, j) <==> Vacant(s, j) { SameVacant(s, t, j); }
    forall n | Made(t, n) ensures Made(s, n) && MakerOf(s, n) != k {}
  }

  // A version that keeps record and status may always be written.
  lemma RewriteKeeps(r: Rules, f: Focus, s: State, b: Stored)
    requires Inv(r, s) && b.key in s.bindings && b.status == s.bindings[b.key].status
    requires b.finalizer || StoredRecord(s, b.key).Unclaimed?
    requires Fencing(r) ==> Mooring(f, s, b.key, b.spec)
    requires Excluding(r) ==> SpacedPut(f, s, b)
    requires Covering(r) && f.key == Some(b.key) && !f.listed && StoredRecord(s, b.key).Pending? ==> b.deleting == s.bindings[b.key].deleting
    ensures var t := Put(s, b); Inv(r, t) && Step(r, s, t) && SameRecords(s, t) && Steady(r, f, s, t)
    ensures (s.bindings[b.key].finalizer ==> b.finalizer) ==> Rely(r, f, s, Put(s, b))
  {
    hide Step, Writable, RecordOf, Steady, HeldApart, HeldLodged, SpacedPut, Safe, Covered, Exclusive, Walled;
    RewriteWritable(r, f, s, b);
    if Excluding(r) { SafeVersions(r, s); PutHeldApart(f, s, b); }
    if Fencing(r) { PutHeldLodged(f, s, b); }
    hide Inv;
    PutInv(r, s, b);
    PutStep(r, s, b);
    PutFrom(r, s, b);
    hide ObjectsFrom, BindingsFrom, NoGrowth, Anchored;
    assert StoredRecord(Put(s, b), b.key) == StoredRecord(s, b.key);
    HeldIsSteady(r, f, s, Put(s, b));
  }

  lemma SafeVersions(r: Rules, s: State)
    requires Inv(r, s)
    ensures VersionsOK(s)
  {
  }

  lemma PutFrom(r: Rules, s: State, b: Stored)
    ensures BindingsFrom(s, Put(s, b)) && s.past <= Put(s, b).past
  {
  }

  lemma FreshBindingKeeps(r: Rules, f: Focus, s: State, b: Stored)
    requires Inv(r, s) && b.key !in s.bindings && b.status == EMPTY_STATUS && (Fencing(r) ==> Mooring(f, s, b.key, b.spec))
    ensures var t := Put(s, b); Inv(r, t) && Step(r, s, t) && Rely(r, f, s, t)
  {
    hide Step, Steady, Safe, Exclusive, Walled, HeldApart, HeldLodged;
    if Covering(r) { UnclaimedIsVacant(s, b.key); }
    if Fencing(r) { PutHeldLodged(f, s, b); }
    assert Writable(r, s, b);
    hide Writable, Covered;
    if Excluding(r) { SafeVersions(r, s); PutHeldApart(f, s, b); }
    hide Inv;
    PutInv(r, s, b);
    PutStep(r, s, b);
    PutFrom(r, s, b);
    hide ObjectsFrom, BindingsFrom, NoGrowth, Anchored;
    assert StoredRecord(Put(s, b), b.key) == Unclaimed;
    HeldIsSteady(r, f, s, Put(s, b));
  }

  lemma DropKeeps(r: Rules, f: Focus, s: State, k: Key)
    requires Inv(r, s) && StoredRecord(s, k).Unclaimed?
    ensures var t := Drop(s, k); Inv(r, t) && Step(r, s, t) && SameRecords(s, t) && Steady(r, f, s, t)
    ensures !(k in s.bindings && s.bindings[k].finalizer) ==> Rely(r, f, s, Drop(s, k))
  {
    hide Inv, Step, Steady, ObjectsFrom, NoGrowth, Anchored, HeldApart, HeldLodged, RecordOf;
    if Fencing(r) { CoveredIsVacant(r, s, k); DropHeldLodged(f, s, k); }
    DropInv(r, s, k);
    DropStep(r, s, k);
    DropHeldApart(f, s, k);
    HeldIsSteady(r, f, s, Drop(s, k));
  }

  lemma CoveredIsVacant(r: Rules, s: State, k: Key)
    requires Inv(r, s) && Covering(r) && StoredRecord(s, k).Unclaimed?
    ensures Vacant(s, k)
  {
    hide Safe, Exclusive, Walled, Covered;
    UnclaimedIsVacant(s, k);
  }

  lemma DropHeldApart(f: Focus, s: State, k: Key)
    ensures HeldApart(f, s, Drop(s, k))
  {
    hide RecordOf, StoredRecord;
    var t := Drop(s, k);
    forall n | Made(t, n) ensures Made(s, n) && MakerOf(s, n) == MakerOf(t, n) {}
    forall i, j | Rivals(t, i, j) ensures Rivals(s, i, j) {}
  }

  lemma BookkeepingKeeps(r: Rules, f: Focus, s: State, pools: map<Key, Pool>, effects: seq<Effect>)
    requires Inv(r, s)
    requires forall e | e in effects :: e in s.effects || Owns(s, e.key, e.uid)
    ensures var t := s.(pools := pools, effects := effects); Inv(r, t) && Step(r, s, t) && Rely(r, f, s, t)
  {
    var t := s.(pools := pools, effects := effects);
    assert ObjectsOK(s);
    hide Inv, Safe, Step, Rely, Fits;
    forall n | n in t.objects ensures ShiftedObject(r, s, t, n) {}
    ShiftKeeps(r, f, s, t);
  }

  lemma EnvKeeps(r: Rules, f: Focus, s: State, e: EnvStep)
    requires Inv(r, s) && Permitted(r, f, s, e)
    ensures var t := Apply(s, e); Inv(r, t) && Step(r, s, t) && Rely(r, f, s, t)
  {
    hide Inv, Step, Rely, Put, Drop;
    if !e.CreateBinding? && (e.EditBinding? || e.TouchBinding? || e.ReleaseBinding?) { StoredVersion(r, s, e.key); }
    match e
    case CreateBinding(k, spec, finalizer, guarded) =>
      FreshBindingKeeps(r, f, s, Stored(k, 0, 1, spec, false, finalizer, guarded, EMPTY_STATUS));
    case EditBinding(k, spec) =>
      var b := s.bindings[k];
      RewriteKeeps(r, f, s, b.(spec := spec, generation := b.generation + 1));
    case TouchBinding(k) => RewriteKeeps(r, f, s, s.bindings[k]);
    case DeleteBinding(k) => DiscardKeeps(r, f, s, k);
    case ReleaseBinding(k) =>
      var b := s.bindings[k].(guarded := false);
      if b.deleting && !b.finalizer { DropKeeps(r, f, s, k); } else { RewriteKeeps(r, f, s, b); }
    case SetPool(k, p) => BookkeepingKeeps(r, f, s, s.pools[k := p], s.effects);
    case RemovePool(k) => BookkeepingKeeps(r, f, s, s.pools - {k}, s.effects);
    case _ => ObjectEnv(r, f, s, e);
  }

  lemma DiscardKeeps(r: Rules, f: Focus, s: State, k: Key)
    requires Inv(r, s) && Permitted(r, f, s, DeleteBinding(k))
    ensures var t := Apply(s, DeleteBinding(k)); Inv(r, t) && Step(r, s, t) && Rely(r, f, s, t)
  {
    hide Inv, Step, Rely, Put, Drop;
    StoredVersion(r, s, k);
    var b := s.bindings[k];
    if !b.finalizer && !b.guarded {
      DropKeeps(r, f, s, k);
    } else if b.deleting {
      BookkeepingKeeps(r, f, s, s.pools, s.effects);
    } else {
      RewriteKeeps(r, f, s, b.(deleting := true, generation := b.generation + 1));
    }
  }
}
