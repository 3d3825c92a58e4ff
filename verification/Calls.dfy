// What makes a controller write acceptable. Each condition is one that other
// actors cannot invalidate between the controller's last read and the write.

module Calls {
  import opened Types
  import opened Statuses
  import opened Store
  import opened Changes
  import opened Environment
  import Selection

  // No live object is the incarnation the record speaks of.
  ghost predicate Gone(s: State, r: Record) {
    match r
    case Unclaimed => true
    case Pending(_, c) => forall n | n in s.objects :: s.objects[n].claim != c
    case Confirmed(_, u) => forall n | n in s.objects :: s.objects[n].uid != u
  }

  // Only the incarnation u carries claim c.
  ghost predicate Only(s: State, c: string, u: nat) {
    forall n | n in s.objects && s.objects[n].claim == c :: s.objects[n].uid == u
  }

  // The object as read is the one stored as long as its resource version is.
  predicate Seen(s: State, o: Object) {
    && o.rv < s.nextRv && o.uid < s.nextUid
    && (o.name in s.objects && s.objects[o.name].uid == o.uid && s.objects[o.name].rv == o.rv ==> s.objects[o.name] == o)
  }

  // Replacing the version `from` by `to` is a legal ownership or status write.
  ghost predicate Patchable(r: Rules, s: State, from: Stored, to: Stored) {
    var before, after := RecordOf(from.status), RecordOf(to.status);
    && from in s.past && to == from.(status := to.status)
    && Attributed(s, to) && StatusOK(to.status)
    && (!after.Unclaimed? ==> from.finalizer)
    && LegalMove(s, from.key, before, after)
    && (Covering(r) && before != after && after.Unclaimed? ==> Gone(s, before))
    && (Covering(r) && before.Pending? && after.Confirmed? ==> Only(s, before.claim, after.uid))
    && (Covering(r) && Holds(to.status, Conflict) && to.status != from.status ==>
          && after.Unclaimed?
          && forall e | e in to.status.conflicts :: StoredRecord(s, Key(from.key.namespace, e.bindingName)).Unclaimed?)
  }

  lemma GoneStable(a: State, b: State, p: Stored)
    requires Safe(a) && ObjectsFrom(a, b) && p in a.past && Gone(a, RecordOf(p.status))
    ensures Gone(b, RecordOf(p.status))
  {
    assert Attributed(a, p);
  }

  lemma OnlyStable(a: State, b: State, c: string, u: nat)
    requires IsMinted(c) && ObjectsFrom(a, b) && Only(a, c, u)
    ensures Only(b, c, u)
  {
  }

  lemma SeenStable(a: State, b: State, o: Object)
    requires Frame(a, b) && Seen(a, o)
    ensures Seen(b, o)
  {
  }

  lemma AttributedStable(a: State, b: State, p: Stored)
    requires a.claims <= b.claims && a.created == b.created && Attributed(a, p)
    ensures Attributed(b, p)
  {
  }

  lemma IssuedStable(a: State, b: State, c: string)
    requires a.claims <= b.claims && IssuedTo(a, c).Some?
    ensures IssuedTo(b, c) == IssuedTo(a, c)
  {
  }

  lemma PatchableStable(r: Rules, f: Focus, a: State, b: State, from: Stored, to: Stored)
    requires Inv(r, a) && Rely(r, f, a, b) && Patchable(r, a, from, to)
    ensures Patchable(r, b, from, to)
  {
    hide StatusOK, Holds, Steady, NoGrowth, BindingsFrom, Covered, Exclusive, Walled;
    var before, after := RecordOf(from.status), RecordOf(to.status);
    assert Attributed(a, from);
    AttributedStable(a, b, to);
    if Gone(a, before) { GoneStable(a, b, from); }
    if before.Pending? && after.Confirmed? && Covering(r) { OnlyStable(a, b, before.claim, after.uid); }
    hide Safe, ObjectsFrom, Attributed, RecordOf, Gone, Only;
    if after.Pending? && before.Unclaimed? { IssuedStable(a, b, after.claim); }
    assert LegalMove(b, from.key, before, after);
  }

  lemma GoneIsVacant(s: State, k: Key)
    requires Covered(s) && Gone(s, StoredRecord(s, k))
    ensures Vacant(s, k)
  {
    forall n | Made(s, n) ensures MakerOf(s, n) != k {
      assert Covers(StoredRecord(s, MakerOf(s, n)), s.objects[n]);
    }
  }

  lemma PatchableLands(r: Rules, s: State, from: Stored, to: Stored)
    requires Inv(r, s) && Patchable(r, s, from, to)
    requires from.key in s.bindings && s.bindings[from.key] == from
    ensures Writable(r, s, to)
  {
    hide StatusOK, Holds, Attributed, RecordOf, Safe, Exclusive, Walled, LegalMove;
    assert StoredRecord(s, from.key) == RecordOf(from.status);
    if Excluding(r) { ExclusiveIsUnrivaled(s, from.key); }
    if Covering(r) {
      if Gone(s, RecordOf(from.status)) { GoneIsVacant(s, from.key); }
      forall j | StoredRecord(s, j).Unclaimed? ensures Vacant(s, j) { UnclaimedIsVacant(s, j); }
    }
  }

  // A successful compare-and-swap: only one version carries a resource version.
  lemma SameVersion(r: Rules, s: State, from: Stored)
    requires Inv(r, s) && from in s.past && from.key in s.bindings && s.bindings[from.key].rv == from.rv
    ensures s.bindings[from.key] == from
  {
  }

  // Landing a patch keeps every followed version followed, unless it reserves.
  lemma PatchSteady(r: Rules, f: Focus, s: State, from: Stored, to: Stored)
    requires Inv(r, s) && Patchable(r, s, from, to)
    requires from.key in s.bindings && s.bindings[from.key] == from
    requires RecordOf(from.status).Unclaimed? ==> RecordOf(to.status).Unclaimed?
    ensures Steady(r, f, s, Put(s, to))
  {
    hide StatusOK, Attributed, RecordOf, Gone, Only, Covered, Exclusive, Walled, ObjectsOK, ClaimsOK, EffectsOK, Holds;
    var t := Put(s, to);
    PutRecords(s, to);
    PutHeldApart(f, s, to);
    PutHeldLodged(f, s, to);
    forall o | Follows(r, f, s, o) ensures Follows(r, f, t, o) {
      assert o.rv < s.nextRv;
      if o.key != to.key { assert StoredRecord(t, o.key) == StoredRecord(s, o.key); }
    }
  }

  // The reconcile under way has met its peers and may reserve a claim from version o.
  predicate Reservable(f: Focus, o: Stored) {
    f.listed && (f.key == Some(o.key) ==> Coincide(o.spec, f.seen))
  }

  // The version a patch stores is good to act on if the patched one was.
  lemma PatchFollowed(r: Rules, f: Focus, s: State, from: Stored, to: Stored)
    requires Inv(r, s) && Follows(r, f, s, from) && to == from.(status := to.status) && from.key in s.bindings && s.bindings[from.key] == from
    requires RecordOf(from.status).Pending? || !RecordOf(to.status).Pending? || Reservable(f, from)
    ensures Follows(r, f, Put(s, to), from) && Follows(r, f, Put(s, to), to.(rv := s.nextRv))
  {
    hide Inv, RecordOf, Vacant;
    PutRecords(s, to);
    if f.key == Some(from.key) && Creating(f, s, from) { RivalsPut(s, from.key, to, f.rivals); RivalsPut(s, from.key, to, {}); }
  }

  lemma RivalsPut(s: State, k: Key, to: Stored, rivals: set<nat>)
    requires to.key in s.bindings && to.spec == s.bindings[to.key].spec
    ensures RivalsAmong(s, k, rivals) ==> RivalsAmong(Put(s, to), k, rivals)
  {
    var t := Put(s, to);
    forall n | Made(t, n) && MakerOf(t, n) != k && Rivals(t, k, MakerOf(t, n)) ensures Made(s, n) && Rivals(s, k, MakerOf(s, n)) {}
  }

  lemma CreatableStable(r: Rules, f: Focus, a: State, b: State, k: Key, o: Object, v: Stored)
    requires Inv(r, a) && Rely(r, f, a, b) && Creatable(r, a, k, o)
    requires Excluding(r) ==> Follows(r, f, a, v) && v.key == k && f.key == Some(k) && f.listed && Extinct(a, f.rivals)
    requires Fencing(r) ==> Follows(r, f, a, v) && v.key == k && Warded(f, a, k, o.spec)
    ensures Creatable(r, b, k, o) && (Fencing(r) ==> Warded(f, b, k, o.spec))
  {
    hide Inv, Keyed, FenceOf, ObjectsFrom, BindingsFrom, RecordOf, Noted, Lodged, Fits;
    IssuedStable(a, b, o.claim);
    assert StoredRecord(b, k) == StoredRecord(a, k);
    if Excluding(r) {
      assert Follows(r, f, b, v);
      ExtinctStable(a, b, f.rivals);
      ApartIsAlone(f, b, k);
    }
    if Fencing(r) {
      assert Follows(r, f, b, v) && Committed(f, b, k);
      ExtinctStable(a, b, f.lodgers);
      FitsKeyed(a, k, o.spec);
      WardedFits(f, b, k, o.spec);
    }
  }

  lemma FitsKeyed(s: State, k: Key, spec: ObjectSpec)
    requires Fits(s, k, spec)
    ensures Keyed(spec, k.namespace)
  {
  }

  // The boundary to write is the one seen, and all output met there is gone.
  ghost predicate Warded(f: Focus, s: State, k: Key, spec: ObjectSpec) {
    f.key == Some(k) && f.listed && Extinct(s, f.lodgers) && Coincide(f.seen, FenceOf(spec))
  }

  lemma WardedFits(f: Focus, s: State, k: Key, spec: ObjectSpec)
    requires k in s.bindings && Keyed(spec, k.namespace) && Warded(f, s, k, spec) && Noted(f, s, k) && Lodged(f, s, k)
    ensures Fits(s, k, spec)
  {
    hide FenceOf, Keyed;
    forall n | Made(s, n) ensures !Faces(s, k, n, FenceOf(spec)) { assert !Faces(s, k, n, f.seen); }
  }

  // No live output is one of these incarnations.
  ghost predicate Extinct(s: State, uids: set<nat>) {
    forall n | Made(s, n) :: s.objects[n].uid !in uids
  }

  lemma ExtinctStable(a: State, b: State, uids: set<nat>)
    requires NoGrowth(a, b) && Extinct(a, uids)
    ensures Extinct(b, uids)
  {
  }

  lemma ApartIsAlone(f: Focus, s: State, k: Key)
    requires k in s.bindings && f.listed && Apart(f, s, k) && Extinct(s, f.rivals)
    ensures RivalsAmong(s, k, {})
  {
  }
}
