// The two ways the store changes: live objects shift, or one binding version is
// written or dropped. Each kind is shown once to keep every invariant.

module Changes {
  import opened Types
  import opened Statuses
  import opened Store
  import Selection

  // ------------------------------------------------------------ objects

  // What may become of the object at n when no object is created by the controller.
  ghost predicate ShiftedObject(r: Rules, a: State, b: State, n: string)
    requires n in b.objects
  {
    var o := b.objects[n];
    && o.name == n && o.rv < b.nextRv
    && (|| (&& n in a.objects && a.objects[n].uid == o.uid
            && (o == a.objects[n] || o.rv >= a.nextRv)
            && (o.claim == a.objects[n].claim || (!IsMinted(o.claim) && (r.current ==> o.uid !in a.created)))
            && (Fencing(r) && Made(a, n) && o.spec != a.objects[n].spec ==> Fits(a, MakerOf(a, n), o.spec)))
        || (a.nextUid <= o.uid < b.nextUid && o.rv >= a.nextRv && !IsMinted(o.claim)))
  }

  // Output of k with this spec fits in: it spells out a boundary that no other
  // output has and that is no trap for others.
  ghost predicate Fits(s: State, k: Key, spec: ObjectSpec) {
    Keyed(spec, k.namespace) && Unfaced(s, k, FenceOf(spec)) && Berthed(s, k, FenceOf(spec))
  }

  ghost predicate ObjectsShift(r: Rules, a: State, b: State) {
    && b == a.(objects := b.objects, pools := b.pools, nextUid := b.nextUid, nextRv := b.nextRv, effects := b.effects)
    && a.nextUid <= b.nextUid && a.nextRv <= b.nextRv
    && (forall n | n in b.objects :: ShiftedObject(r, a, b, n))
    && (forall m, n | m in b.objects && n in b.objects && b.objects[m].uid == b.objects[n].uid :: m == n)
    && (forall e | e in b.effects :: e in a.effects || Owns(a, e.key, e.uid))
    && (Fencing(r) ==> forall m, n | Redrawn(a, b, m) && Redrawn(a, b, n) :: m == n)
  }

  // The spec of the created object at n changed.
  ghost predicate Redrawn(a: State, b: State, n: string) {
    Made(b, n) && n in a.objects && a.objects[n].spec != b.objects[n].spec
  }

  lemma ShiftMade(r: Rules, a: State, b: State, n: string)
    requires Safe(a) && ObjectsShift(r, a, b) && Made(b, n)
    ensures Made(a, n) && a.objects[n].uid == b.objects[n].uid && MakerOf(a, n) == MakerOf(b, n)
    ensures r.current ==> b.objects[n].claim == a.objects[n].claim
  {
    assert ShiftedObject(r, a, b, n);
  }

  lemma ShiftSafe(r: Rules, a: State, b: State)
    requires Safe(a) && ObjectsShift(r, a, b)
    ensures Safe(b)
  {
    forall n | n in b.objects
      ensures b.objects[n].name == n && 0 < b.objects[n].uid < b.nextUid && b.objects[n].rv < b.nextRv
    {
      assert ShiftedObject(r, a, b, n);
    }
    forall n | n in b.objects && IsMinted(b.objects[n].claim)
      ensures Made(b, n) && b.created[b.objects[n].uid].claim == b.objects[n].claim
    {
      assert ShiftedObject(r, a, b, n);
    }
    forall n | Made(b, n) ensures b.created[b.objects[n].uid].name == n {
      ShiftMade(r, a, b, n);
    }
    forall u | u in b.created
      ensures 0 < u < b.nextUid && IssuedTo(b, b.created[u].claim) == Some(Issue(b.created[u].key, b.created[u].name))
    {
      assert IssuedTo(b, b.created[u].claim) == IssuedTo(a, a.created[u].claim);
    }
    forall p | p in b.past ensures Attributed(b, p) && p.rv < b.nextRv && StatusOK(p.status) {
      assert Attributed(a, p);
    }
    assert forall k | k in b.bindings :: StoredRecord(b, k) == StoredRecord(a, k);
  }

  lemma ShiftInv(r: Rules, a: State, b: State)
    requires Inv(r, a) && ObjectsShift(r, a, b)
    ensures Inv(r, b)
  {
    hide Safe, Covered, Exclusive, Walled, ObjectsShift;
    ShiftSafe(r, a, b);
    if Covering(r) { ShiftCovered(r, a, b); }
    if Excluding(r) { ShiftExclusive(r, a, b); }
    if Fencing(r) { ShiftWalled(r, a, b); }
  }

  lemma ShiftCovered(r: Rules, a: State, b: State)
    requires Safe(a) && Covered(a) && Covering(r) && ObjectsShift(r, a, b)
    ensures Covered(b)
  {
    hide Safe, RecordOf, Holds, ShiftedObject;
    forall n | Made(b, n)
      ensures Covers(StoredRecord(b, MakerOf(b, n)), b.objects[n]) && b.objects[n].claim == b.created[b.objects[n].uid].claim
    {
      ShiftMade(r, a, b, n);
      assert ShiftedObject(r, a, b, n) && Covers(StoredRecord(a, MakerOf(a, n)), a.objects[n]);
      SameName(r, a, b, n);
    }
  }

  lemma SameName(r: Rules, a: State, b: State, n: string)
    requires Safe(a) && ObjectsShift(r, a, b) && Made(a, n) && Made(b, n)
    ensures a.objects[n].name == b.objects[n].name
  {
    assert ShiftedObject(r, a, b, n);
  }

  lemma ShiftExclusive(r: Rules, a: State, b: State)
    requires Safe(a) && Exclusive(a) && ObjectsShift(r, a, b)
    ensures Exclusive(b)
  {
    hide Safe, ShiftedObject;
    forall m, n | Made(b, m) && Made(b, n) && Rivals(b, MakerOf(b, m), MakerOf(b, n))
      ensures MakerOf(b, m) == MakerOf(b, n)
    {
      ShiftMade(r, a, b, m);
      ShiftMade(r, a, b, n);
      assert Rivals(a, MakerOf(a, m), MakerOf(a, n));
    }
  }

  lemma ShiftWalled(r: Rules, a: State, b: State)
    requires Safe(a) && Walled(a) && Fencing(r) && ObjectsShift(r, a, b)
    ensures Walled(b)
  {
    hide VersionsOK, EffectsOK, ClaimsOK, Keyed, FenceOf, ShiftedObject, Berthed;
    forall n | Made(b, n)
      ensures Made(a, n) && MakerOf(a, n) == MakerOf(b, n) && (Redrawn(a, b, n) ==> Fits(a, MakerOf(a, n), b.objects[n].spec))
    {
      ShiftMade(r, a, b, n);
      assert ShiftedObject(r, a, b, n);
      if Redrawn(a, b, n) { ShiftFits(r, a, b, n); }
    }
    forall n | Made(b, n) ensures Unfaced(b, MakerOf(b, n), FenceOf(b.objects[n].spec)) { ShiftUnfaced(r, a, b, n); }
    forall n | Made(b, n) ensures Berthed(b, MakerOf(b, n), FenceOf(b.objects[n].spec)) {
      SameBerth(a, b, MakerOf(b, n), FenceOf(b.objects[n].spec));
    }
  }

  lemma ShiftFits(r: Rules, a: State, b: State, n: string)
    requires Fencing(r) && Redrawn(a, b, n) && ShiftedObject(r, a, b, n)
    requires Made(a, n) && a.objects[n].uid == b.objects[n].uid < a.nextUid
    ensures Fits(a, MakerOf(a, n), b.objects[n].spec)
  {
    hide Fits;
  }

  lemma SameBerth(a: State, b: State, k: Key, boundary: BindingSpec)
    requires a.bindings == b.bindings
    ensures Berthed(a, k, boundary) == Berthed(b, k, boundary)
  {
  }

  // The output at n still faces no other.
  lemma ShiftUnfaced(r: Rules, a: State, b: State, n: string)
    requires Unshared(a) && Made(b, n) && (forall m, l | Redrawn(a, b, m) && Redrawn(a, b, l) :: m == l)
    requires forall m | Made(b, m) :: Made(a, m) && MakerOf(a, m) == MakerOf(b, m) && (Redrawn(a, b, m) ==> Fits(a, MakerOf(a, m), b.objects[m].spec))
    ensures Unfaced(b, MakerOf(b, n), FenceOf(b.objects[n].spec))
  {
    hide Keyed, FenceOf, Berthed;
    forall m | Made(b, m) ensures !Faces(b, MakerOf(b, n), m, FenceOf(b.objects[n].spec)) {
      if m != n && Redrawn(a, b, m) {
        assert Unfaced(a, MakerOf(a, m), FenceOf(b.objects[m].spec)) && !Redrawn(a, b, n);
        assert !Faces(a, MakerOf(a, m), n, FenceOf(b.objects[m].spec));
      } else if m != n {
        assert if Redrawn(a, b, n) then Unfaced(a, MakerOf(a, n), FenceOf(b.objects[n].spec)) else Unfaced(a, MakerOf(a, n), FenceOf(a.objects[n].spec));
        assert !Faces(a, MakerOf(a, n), m, FenceOf(b.objects[n].spec));
      }
    }
  }

  lemma ShiftStep(r: Rules, a: State, b: State)
    requires Inv(r, a) && ObjectsShift(r, a, b)
    ensures Step(r, a, b) && Frame(a, b) && SameRecords(a, b)
  {
    forall n | n in b.objects
      ensures b.objects[n].uid >= a.nextUid || (n in a.objects && a.objects[n].uid == b.objects[n].uid)
    {
      assert ShiftedObject(r, a, b, n);
    }
    forall n | Made(b, n) ensures Made(a, n) && a.objects[n].uid == b.objects[n].uid && MakerOf(a, n) == MakerOf(b, n) {
      ShiftMade(r, a, b, n);
    }
    assert NoGrowth(a, b);
  }

  // ------------------------------------------------------------ bindings

  // What the invariant says of the stored version of k.
  lemma StoredVersion(r: Rules, s: State, k: Key)
    requires Inv(r, s) && k in s.bindings
    ensures var b := s.bindings[k];
            && b.key == k && b in s.past && b.rv < s.nextRv && Attributed(s, b) && StatusOK(b.status)
            && Decode(b.status).Some? && (RecordOf(b.status).Unclaimed? || b.finalizer)
            && (Covering(r) && Holds(b.status, Conflict) ==> RecordOf(b.status).Unclaimed?)
  {
    assert StoredRecord(s, k) == RecordOf(s.bindings[k].status);
  }

  // Writing a version gives it a fresh resource version and remembers it.
  function Put(s: State, b: Stored): State {
    var v := b.(rv := s.nextRv);
    s.(bindings := s.bindings[b.key := v], nextRv := s.nextRv + 1, past := s.past + {v})
  }

  function Drop(s: State, k: Key): State {
    s.(bindings := s.bindings - {k})
  }

  // A spec for k that leaves no live output behind with others in its boundary, and
  // does not enter a boundary where output was left behind.
  predicate Moorable(s: State, k: Key, spec: BindingSpec) {
    || (k in s.bindings && Coincide(spec, s.bindings[k].spec))
    || (forall n | n in s.objects && Made(s, n) ::
          && (MakerOf(s, n) == k ==> Coincide(spec, FenceOf(s.objects[n].spec)) || Unsought(s, k, FenceOf(s.objects[n].spec)))
          && (Faces(s, k, n, spec) ==> AtHome(s, n)))
  }

  // The version b may replace what is stored under its key.
  ghost predicate Writable(r: Rules, s: State, b: Stored) {
    var before, after := StoredRecord(s, b.key), RecordOf(b.status);
    && Attributed(s, b) && StatusOK(b.status)
    && (!after.Unclaimed? ==> b.finalizer)
    && LegalMove(s, b.key, before, after)
    && (Covering(r) && before != after && after.Unclaimed? ==> Vacant(s, b.key))
    && (Covering(r) && after.Confirmed? && before.Pending? ==>
          forall n | n in s.objects && s.objects[n].claim == before.claim :: s.objects[n].uid == after.uid)
    && (b.key in s.bindings && s.bindings[b.key].finalizer && !b.finalizer ==> before.Unclaimed?)
    && (Excluding(r) ==> Vacant(s, b.key) || Unrivaled(s, b.key, b.spec))
    && (Fencing(r) ==> Moorable(s, b.key, b.spec))
    && (Covering(r) && Holds(b.status, Conflict) && !(b.key in s.bindings && s.bindings[b.key].status == b.status) ==>
          && after.Unclaimed? && Vacant(s, b.key)
          && forall e | e in b.status.conflicts :: Vacant(s, Key(b.key.namespace, e.bindingName)))
  }

  lemma PutRecords(s: State, b: Stored)
    ensures var t := Put(s, b);
            && SameRecordsBut(s, t, b.key) && StoredRecord(t, b.key) == RecordOf(b.status)
            && (forall n :: Made(t, n) == Made(s, n))
            && (forall n | Made(s, n) :: MakerOf(t, n) == MakerOf(s, n))
            && (forall k :: Vacant(t, k) == Vacant(s, k))
  {
    var t := Put(s, b);
    forall n | Made(s, n) ensures Made(t, n) && MakerOf(t, n) == MakerOf(s, n) {}
    forall n | Made(t, n) ensures Made(s, n) {}
    forall k ensures Vacant(t, k) == Vacant(s, k) {}
  }

  lemma PutSafe(r: Rules, s: State, b: Stored)
    requires Safe(s) && Writable(r, s, b)
    ensures Safe(Put(s, b))
  {
    hide StatusOK, RecordOf, Decode, Covered, Exclusive, Walled, LegalMove, Holds;
    var t := Put(s, b);
    PutRecords(s, b);
    forall p | p in t.past ensures Attributed(t, p) && p.rv < t.nextRv && StatusOK(p.status) {
      assert p in s.past ==> Attributed(s, p);
    }
    forall u | u in t.created
      ensures 0 < u < t.nextUid && IssuedTo(t, t.created[u].claim) == Some(Issue(t.created[u].key, t.created[u].name))
    {
      assert IssuedTo(t, t.created[u].claim) == IssuedTo(s, s.created[u].claim);
    }
    assert ObjectsOK(t) && ClaimsOK(t);
    assert VersionsOK(t);
  }

  lemma PutCovered(r: Rules, s: State, b: Stored)
    requires Safe(s) && Covered(s) && Covering(r) && Writable(r, s, b)
    ensures Covered(Put(s, b))
  {
    hide StatusOK, RecordOf, Attributed, EffectsOK, ClaimsOK;
    var t := Put(s, b);
    PutRecords(s, b);
    forall n | Made(t, n)
      ensures Covers(StoredRecord(t, MakerOf(t, n)), t.objects[n])
    {
      assert Made(s, n) && Covers(StoredRecord(s, MakerOf(s, n)), s.objects[n]);
    }
  }

  lemma PutExclusive(r: Rules, s: State, b: Stored)
    requires Inv(r, s) && Excluding(r) && Writable(r, s, b)
    ensures Exclusive(Put(s, b))
  {
    hide Safe, RecordOf, StatusOK, Holds, Attributed;
    PutExclusiveIff(s, b);
  }

  // Storing a version keeps live outputs exclusive exactly when its binding has
  // none, or no other live output has the boundary of the version.
  lemma PutExclusiveIff(s: State, b: Stored)
    requires Exclusive(s)
    ensures Exclusive(Put(s, b)) <==> Vacant(s, b.key) || Unrivaled(s, b.key, b.spec)
  {
    var t := Put(s, b);
    PutRecords(s, b);
    hide RecordOf, StoredRecord;
    if Exclusive(t) && !Vacant(s, b.key) {
      var m :| Made(s, m) && MakerOf(s, m) == b.key;
      forall n | Made(s, n) && MakerOf(s, n) != b.key && MakerOf(s, n).namespace == b.key.namespace && MakerOf(s, n) in s.bindings
        ensures !Coincide(s.bindings[MakerOf(s, n)].spec, b.spec)
      {
        assert !Rivals(t, MakerOf(t, m), MakerOf(t, n));
      }
    }
    if Vacant(s, b.key) || Unrivaled(s, b.key, b.spec) {
      forall m, n | Made(t, m) && Made(t, n) && Rivals(t, MakerOf(t, m), MakerOf(t, n)) ensures MakerOf(t, m) == MakerOf(t, n) {
        assert Made(s, m) && Made(s, n);
        if MakerOf(s, m) != b.key && MakerOf(s, n) != b.key { assert Rivals(s, MakerOf(s, m), MakerOf(s, n)); }
      }
    }
  }

  // A live output has no rival.
  lemma ExclusiveIsUnrivaled(s: State, k: Key)
    requires Exclusive(s) && k in s.bindings
    ensures Vacant(s, k) || Unrivaled(s, k, s.bindings[k].spec)
  {
    if !Vacant(s, k) {
      var m :| Made(s, m) && MakerOf(s, m) == k;
      forall n | Made(s, n) && MakerOf(s, n) != k && MakerOf(s, n).namespace == k.namespace && MakerOf(s, n) in s.bindings
        ensures !Coincide(s.bindings[MakerOf(s, n)].spec, s.bindings[k].spec)
      {
        assert !Rivals(s, MakerOf(s, m), MakerOf(s, n));
      }
    }
  }

  // Storing a version keeps others out of traps exactly when its spec is moorable.
  lemma PutMooredIff(s: State, b: Stored)
    requires Moored(s)
    ensures Moored(Put(s, b)) <==> Moorable(s, b.key, b.spec)
  {
    hide RecordOf, StoredRecord, FenceOf;
    var t := Put(s, b);
    forall n ensures Made(t, n) <==> Made(s, n) {}
    if Moored(t) {
      forall n | Made(s, n)
        ensures MakerOf(s, n) == b.key ==> Coincide(b.spec, FenceOf(s.objects[n].spec)) || Unsought(s, b.key, FenceOf(s.objects[n].spec))
        ensures Faces(s, b.key, n, b.spec) ==> AtHome(s, n)
      {
        BerthAfter(s, b, n);
      }
    }
    if Moorable(s, b.key, b.spec) {
      forall n | Made(t, n) ensures Berthed(t, MakerOf(t, n), FenceOf(t.objects[n].spec)) {
        BerthAfter(s, b, n);
      }
    }
  }

  // Where the version b leaves the output at n.
  lemma BerthAfter(s: State, b: Stored, n: string)
    requires Made(s, n)
    ensures var t, k, fence := Put(s, b), MakerOf(s, n), FenceOf(s.objects[n].spec);
            && Made(t, n) && MakerOf(t, n) == k
            && (k == b.key ==> (Berthed(t, k, fence) <==> Coincide(b.spec, fence) || Unsought(s, k, fence)))
            && (k != b.key && !Faces(s, b.key, n, b.spec) && Berthed(s, k, fence) ==> Berthed(t, k, fence))
            && (Faces(s, b.key, n, b.spec) ==> (Berthed(t, k, fence) <==> AtHome(s, n)))
            && (k != b.key && b.key in s.bindings && Coincide(b.spec, s.bindings[b.key].spec) && Berthed(s, k, fence) ==> Berthed(t, k, fence))
            && (k == b.key && b.key in s.bindings && Coincide(b.spec, s.bindings[b.key].spec) && Berthed(s, k, fence) ==> Berthed(t, k, fence))
  {
    hide RecordOf, StoredRecord, FenceOf;
  }

  lemma PutWalled(r: Rules, s: State, b: Stored)
    requires Walled(s) && Moorable(s, b.key, b.spec)
    ensures Walled(Put(s, b))
  {
    hide RecordOf, StoredRecord, FenceOf, Keyed, Moorable, Moored;
    PutMooredIff(s, b);
    var t := Put(s, b);
    forall n | Made(t, n) ensures Made(s, n) {}
    forall n | Made(t, n) ensures Unfaced(t, MakerOf(t, n), FenceOf(t.objects[n].spec)) {
      assert Unfaced(s, MakerOf(s, n), FenceOf(s.objects[n].spec));
      forall m | Made(t, m) ensures !Faces(t, MakerOf(t, n), m, FenceOf(t.objects[n].spec)) {
        assert !Faces(s, MakerOf(s, n), m, FenceOf(s.objects[n].spec));
      }
    }
  }

  lemma PutInv(r: Rules, s: State, b: Stored)
    requires Inv(r, s) && Writable(r, s, b)
    ensures Inv(r, Put(s, b))
  {
    PutSafe(r, s, b);
    if Covering(r) { PutCovered(r, s, b); }
    if Excluding(r) { PutExclusive(r, s, b); }
    if Fencing(r) { PutWalled(r, s, b); }
  }

  lemma UnclaimedIsVacant(s: State, k: Key)
    requires Covered(s) && StoredRecord(s, k).Unclaimed?
    ensures Vacant(s, k)
  {
    forall n | Made(s, n) ensures MakerOf(s, n) != k {
      assert Covers(StoredRecord(s, MakerOf(s, n)), s.objects[n]);
    }
  }

  lemma PutMoves(r: Rules, s: State, b: Stored)
    requires Inv(r, s) && Writable(r, s, b)
    ensures Step(r, s, Put(s, b))
  {
    hide Exclusive, Walled, Attributed, StatusOK, RecordOf, Holds, EffectsOK;
    var t := Put(s, b);
    PutRecords(s, b);
    forall k ensures LegalMove(t, k, StoredRecord(s, k), StoredRecord(t, k)) {
      if k == b.key { assert LegalMove(s, k, StoredRecord(s, k), StoredRecord(t, k)); }
    }
    forall k ensures FinalizerMove(r, s, t, k) {
      if Covering(r) && StoredRecord(s, k).Unclaimed? { UnclaimedIsVacant(s, k); }
    }
    forall k ensures ConflictMove(r, s, t, k) {}
  }

  lemma PutStep(r: Rules, s: State, b: Stored)
    requires Inv(r, s) && Writable(r, s, b)
    ensures Step(r, s, Put(s, b)) && SameRecordsBut(s, Put(s, b), b.key)
    ensures (b.key in s.bindings && s.bindings[b.key].finalizer ==> b.finalizer) ==> Frame(s, Put(s, b))
  {
    PutMoves(r, s, b);
    PutRecords(s, b);
    var t := Put(s, b);
    assert NoGrowth(s, t);
  }

  // A stored binding disappears only without record.
  lemma DropInv(r: Rules, s: State, k: Key)
    requires Inv(r, s) && StoredRecord(s, k).Unclaimed?
    ensures Inv(r, Drop(s, k))
  {
    hide Safe, RecordOf, Holds, Keyed;
    var t := Drop(s, k);
    DropSafe(s, k);
    forall n | Made(t, n) ensures Made(s, n) && MakerOf(s, n) == MakerOf(t, n) {}
    if Covering(r) {
      forall n | Made(t, n) ensures MakerOf(t, n) != k {
        assert Covers(StoredRecord(s, MakerOf(s, n)), s.objects[n]);
      }
      assert Covered(t);
    }
    if Excluding(r) {
      forall m, n | Made(t, m) && Made(t, n) && Rivals(t, MakerOf(t, m), MakerOf(t, n))
        ensures MakerOf(t, m) == MakerOf(t, n)
      {
        assert Rivals(s, MakerOf(s, m), MakerOf(s, n));
      }
    }
  }

  lemma DropStep(r: Rules, s: State, k: Key)
    requires Inv(r, s) && StoredRecord(s, k).Unclaimed?
    ensures var t := Drop(s, k); Step(r, s, t) && SameRecords(s, t)
    ensures !(k in s.bindings && s.bindings[k].finalizer) ==> Frame(s, Drop(s, k))
  {
    hide Safe, Exclusive, Walled, RecordOf, Holds, IsMinted;
    var t := Drop(s, k);
    forall n | Made(t, n) ensures Made(s, n) && MakerOf(s, n) == MakerOf(t, n) {}
    if Covering(r) {
      UnclaimedIsVacant(s, k);
      forall n | Made(t, n) ensures MakerOf(t, n) != k && MakerOf(t, n) in s.bindings {
        assert Covers(StoredRecord(s, MakerOf(s, n)), s.objects[n]);
      }
    }
    assert NoGrowth(s, t);
  }

  lemma DropSafe(s: State, k: Key)
    requires Safe(s) && StoredRecord(s, k).Unclaimed?
    ensures Safe(Drop(s, k))
  {
    hide StatusOK, RecordOf, Decode;
    var t := Drop(s, k);
    forall p | p in t.past ensures Attributed(t, p) {
      assert Attributed(s, p);
    }
    forall u | u in t.created
      ensures IssuedTo(t, t.created[u].claim) == Some(Issue(t.created[u].key, t.created[u].name))
    {
      assert IssuedTo(t, t.created[u].claim) == IssuedTo(s, s.created[u].claim);
    }
    forall j | j in t.bindings && !StoredRecord(t, j).Unclaimed? ensures t.bindings[j].finalizer {
      assert StoredRecord(s, j) == StoredRecord(t, j);
    }
  }

  // ------------------------------------------------------------ claims and creation

  function Minted(s: State, k: Key, n: string): State {
    s.(claims := s.claims + [Issue(k, n)])
  }

  lemma MintInv(r: Rules, s: State, k: Key, n: string)
    requires Inv(r, s)
    ensures var t := Minted(s, k, n);
            && Inv(r, t) && Step(r, s, t) && Frame(s, t) && SameRecords(s, t)
            && IssuedTo(t, Mint(|s.claims|)) == Some(Issue(k, n))
  {
    hide Safe, Step, Frame, SameRecords, Covered, Exclusive, Walled;
    MintSafe(s, k, n);
    MintRest(r, s, k, n);
    MintStep(r, s, k, n);
  }

  lemma MintSafe(s: State, k: Key, n: string)
    requires Safe(s)
    ensures var t := Minted(s, k, n); Safe(t) && IssuedTo(t, Mint(|s.claims|)) == Some(Issue(k, n))
  {
    hide StatusOK, RecordOf, Decode;
    var t := Minted(s, k, n);
    forall c: string | IssuedTo(s, c).Some? ensures IssuedTo(t, c) == IssuedTo(s, c) {}
    forall p | p in t.past ensures Attributed(t, p) { assert Attributed(s, p); }
  }

  lemma MintStep(r: Rules, s: State, k: Key, n: string)
    requires Inv(r, s)
    ensures var t := Minted(s, k, n); Step(r, s, t) && Frame(s, t) && SameRecords(s, t)
  {
    hide Safe, RecordOf, Exclusive, Walled, IsMinted;
    var t := Minted(s, k, n);
    assert SameRecords(s, t);
    forall m | Made(t, m) ensures Made(s, m) && MakerOf(s, m) == MakerOf(t, m) {}
    if Covering(r) {
      forall m | Made(t, m) ensures MakerOf(t, m) in s.bindings {
        assert Covers(StoredRecord(s, MakerOf(s, m)), s.objects[m]);
      }
    }
  }

  lemma MintRest(r: Rules, s: State, k: Key, n: string)
    requires Inv(r, s)
    ensures var t := Minted(s, k, n);
            (Covering(r) ==> Covered(t)) && (Excluding(r) ==> Exclusive(t)) && (Fencing(r) ==> Walled(t))
  {
    var t := Minted(s, k, n);
    forall m | Made(t, m) ensures Made(s, m) && MakerOf(s, m) == MakerOf(t, m) {}
    assert SameRecords(s, t);
    if Excluding(r) {
      forall m, n | Made(t, m) && Made(t, n) && Rivals(t, MakerOf(t, m), MakerOf(t, n))
        ensures MakerOf(t, m) == MakerOf(t, n)
      {
        assert Rivals(s, MakerOf(s, m), MakerOf(s, n));
      }
    }
  }

  // The object o as stored by a Create the controller issues for k.
  function MadeObject(s: State, o: Object): Object {
    o.(uid := s.nextUid, rv := s.nextRv, generation := 1, terminating := false)
  }

  function Make(s: State, k: Key, o: Object): State {
    s.(objects := s.objects[o.name := MadeObject(s, o)],
       nextUid := s.nextUid + 1, nextRv := s.nextRv + 1,
       created := s.created[s.nextUid := Origin(k, o.name, o.claim)])
  }

  // What Create needs to be safe in the weakest world.
  predicate Claimed(s: State, k: Key, o: Object) {
    IssuedTo(s, o.claim) == Some(Issue(k, o.name))
  }

  ghost predicate Creatable(r: Rules, s: State, k: Key, o: Object) {
    && Claimed(s, k, o)
    && (Covering(r) ==> StoredRecord(s, k) == Pending(o.name, o.claim))
    && (Excluding(r) ==> RivalsAmong(s, k, {}))
    && (Fencing(r) ==> Fits(s, k, o.spec))
  }

  lemma MakeMade(s: State, k: Key, o: Object, n: string)
    requires Safe(s) && Claimed(s, k, o) && o.name !in s.objects && Made(Make(s, k, o), n)
    ensures var t := Make(s, k, o);
            if n == o.name then MakerOf(t, n) == k else Made(s, n) && MakerOf(t, n) == MakerOf(s, n)
  {}

  lemma MakeSafe(s: State, k: Key, o: Object)
    requires Safe(s) && Claimed(s, k, o) && o.name !in s.objects
    ensures Safe(Make(s, k, o))
  {
    hide StatusOK, RecordOf, Decode, IsMinted;
    var t := Make(s, k, o);
    forall p | p in t.past ensures Attributed(t, p) { assert Attributed(s, p); }
    forall c: string ensures IssuedTo(t, c) == IssuedTo(s, c) {}
    forall j | j in t.bindings ensures StoredRecord(t, j) == StoredRecord(s, j) {}
    assert ObjectsOK(t);
    MakeClaims(s, k, o);
  }

  lemma MakeClaims(s: State, k: Key, o: Object)
    requires Safe(s) && Claimed(s, k, o) && o.name !in s.objects
    ensures ClaimsOK(Make(s, k, o))
  {
    var t := Make(s, k, o);
    forall c: string ensures IssuedTo(t, c) == IssuedTo(s, c) {}
    forall n | n in t.objects && IsMinted(t.objects[n].claim)
      ensures Made(t, n) && t.created[t.objects[n].uid].claim == t.objects[n].claim
    {
      if n != o.name { assert Made(s, n); }
    }
  }

  lemma MakeCovered(s: State, k: Key, o: Object)
    requires Safe(s) && Covered(s) && Claimed(s, k, o) && o.name !in s.objects && StoredRecord(s, k) == Pending(o.name, o.claim)
    ensures Covered(Make(s, k, o))
  {
    hide StatusOK, Decode, Holds;
    var t := Make(s, k, o);
    assert SameRecords(s, t);
    forall n | Made(t, n) ensures Covers(StoredRecord(t, MakerOf(t, n)), t.objects[n]) {
      MakeMade(s, k, o, n);
    }
  }

  // A Create keeps live outputs exclusive exactly when no rival has one.
  lemma MakeExclusiveIff(s: State, k: Key, o: Object)
    requires Safe(s) && Exclusive(s) && Claimed(s, k, o) && o.name !in s.objects
    ensures Exclusive(Make(s, k, o)) <==> RivalsAmong(s, k, {})
  {
    hide VersionsOK, EffectsOK;
    var t := Make(s, k, o);
    assert Made(t, o.name) && MakerOf(t, o.name) == k;
    forall n | Made(s, n) ensures Made(t, n) && MakerOf(t, n) == MakerOf(s, n) {}
    if RivalsAmong(s, k, {}) {
      forall m, n | Made(t, m) && Made(t, n) && Rivals(t, MakerOf(t, m), MakerOf(t, n)) ensures MakerOf(t, m) == MakerOf(t, n) {
        MakeMade(s, k, o, m);
        MakeMade(s, k, o, n);
        assert Rivals(s, MakerOf(t, m), MakerOf(t, n)) && Rivals(s, MakerOf(t, n), MakerOf(t, m));
      }
    } else {
      var n :| Made(s, n) && MakerOf(s, n) != k && Rivals(s, k, MakerOf(s, n));
      assert Rivals(t, MakerOf(t, o.name), MakerOf(t, n));
    }
  }

  lemma MakeWalled(s: State, k: Key, o: Object)
    requires Safe(s) && Walled(s) && Claimed(s, k, o) && o.name !in s.objects && Fits(s, k, o.spec)
    ensures Walled(Make(s, k, o))
  {
    hide FenceOf, Keyed, VersionsOK, EffectsOK, Claimed;
    var t := Make(s, k, o);
    forall n | Made(t, n)
      ensures t.objects[n].spec == (if n == o.name then o.spec else s.objects[n].spec)
      ensures if n == o.name then MakerOf(t, n) == k else Made(s, n) && MakerOf(t, n) == MakerOf(s, n)
    {
      MakeFences(s, k, o, n);
    }
    hide Safe, Make;
    forall n | Made(t, n) ensures Unfaced(t, MakerOf(t, n), FenceOf(t.objects[n].spec)) {
      forall m | Made(t, m) ensures !Faces(t, MakerOf(t, n), m, FenceOf(t.objects[n].spec)) {
        if m != o.name && n != o.name { assert Unfaced(s, MakerOf(s, n), FenceOf(s.objects[n].spec)) && !Faces(s, MakerOf(s, n), m, FenceOf(s.objects[n].spec)); }
        if m == o.name && n != o.name { assert !Faces(s, k, n, FenceOf(o.spec)); }
        if n == o.name && m != o.name { assert !Faces(s, k, m, FenceOf(o.spec)); }
      }
    }
    forall n | Made(t, n) ensures Berthed(t, MakerOf(t, n), FenceOf(t.objects[n].spec)) {
      MakeKeepsBerth(s, k, o, MakerOf(t, n), FenceOf(t.objects[n].spec));
    }
  }

  lemma MakeFences(s: State, k: Key, o: Object, n: string)
    requires Safe(s) && Claimed(s, k, o) && o.name !in s.objects && Made(Make(s, k, o), n)
    ensures var t := Make(s, k, o); t.objects[n].spec == if n == o.name then o.spec else s.objects[n].spec
    ensures var t := Make(s, k, o); if n == o.name then MakerOf(t, n) == k else Made(s, n) && MakerOf(t, n) == MakerOf(s, n)
  {
    MakeMade(s, k, o, n);
  }

  lemma MakeKeepsBerth(s: State, k: Key, o: Object, j: Key, boundary: BindingSpec)
    ensures Berthed(Make(s, k, o), j, boundary) == Berthed(s, j, boundary)
  {
  }

  lemma MakeInv(r: Rules, s: State, k: Key, o: Object)
    requires Inv(r, s) && Creatable(r, s, k, o) && o.name !in s.objects
    ensures Inv(r, Make(s, k, o))
  {
    MakeSafe(s, k, o);
    if Covering(r) { MakeCovered(s, k, o); }
    if Excluding(r) { MakeExclusiveIff(s, k, o); }
    if Fencing(r) { MakeWalled(s, k, o); }
  }

  lemma MakeStep(r: Rules, s: State, k: Key, o: Object)
    requires Inv(r, s) && Creatable(r, s, k, o) && o.name !in s.objects
    ensures var t := Make(s, k, o); Step(r, s, t) && SameRecords(s, t)
  {
    var t := Make(s, k, o);
    assert SameRecords(s, t);
  }
}
