// The conflict phase: peers of the namespace are compared before the current
// binding may have output, and conflicting output is withdrawn.

module Conflicts {
  import opened Types
  import opened Statuses
  import opened Store
  import opened Changes
  import opened Environment
  import opened Calls
  import opened Client
  import opened Ownership
  import opened Output
  import opened StatusWriter
  import opened Boundary
  import opened Peers
  import opened Quiet

  // ------------------------------------------------------------ the current binding's conflicts

  // Each binding at most once.
  ghost predicate Unique(members: seq<Binding>) {
    forall i, j | 0 <= i < j < |members| :: members[i].key != members[j].key
  }

  ghost predicate Enrolled(members: seq<Binding>, k: Key) {
    exists i :: 0 <= i < |members| && members[i].key == k
  }

  // Keeps the withdrawal set unique without losing its order.
  method AppendMember(members: seq<Binding>, b: Binding) returns (r: seq<Binding>)
    requires Unique(members)
    ensures r == if Enrolled(members, b.key) then members else members + [b]
    ensures Unique(r) && Enrolled(r, b.key) && (forall k | Enrolled(members, k) :: Enrolled(r, k))
  {
    for i := 0 to |members|
      invariant forall j | 0 <= j < i :: members[j].key != b.key
    {
      if members[i].key == b.key { return members; }
    }
    r := members + [b];
    assert r[|members|] == b;
    forall k | Enrolled(members, k) ensures Enrolled(r, k) {
      var i :| 0 <= i < |members| && members[i].key == k;
      assert r[i] == members[i];
    }
  }

  function Own(all: seq<VariantConflict>, key: Key): seq<VariantConflict> {
    if all == [] then [] else Own(all[..|all| - 1], key) + if all[|all| - 1].ref == key then [all[|all| - 1]] else []
  }

  lemma {:induction false} OwnMembers(all: seq<VariantConflict>, key: Key, c: VariantConflict)
    ensures c in Own(all, key) <==> c in all && c.ref == key
  {
    if all != [] {
      var n := |all| - 1;
      OwnMembers(all[..n], key, c);
      assert all == all[..n] + [all[n]];
    }
  }

  // Every diagnosis relates two compared records.
  lemma DiagnosisFrom(records: seq<VariantRecord>, all: seq<VariantConflict>, c: VariantConflict)
    requires IsEvaluation(records, all) && c in all
    ensures exists i, j | 0 <= i < |records| && 0 <= j < |records| && i != j :: PairYields(records[i], records[j], c)
  {
    assert c in multiset(all);
    EmittedMembers(records, c);
  }

  // Two compared records that are not exclusive are diagnosed.
  lemma DiagnosisExists(records: seq<VariantRecord>, all: seq<VariantConflict>, i: nat, j: nat)
    requires IsEvaluation(records, all) && i < |records| && j < |records| && i != j && Pair(records[i], records[j]).Some?
    ensures Directed(records[i].ref, records[j], Pair(records[i], records[j]).value) in Own(all, records[i].ref)
  {
    var c := Directed(records[i].ref, records[j], Pair(records[i], records[j]).value);
    assert PairYields(records[i], records[j], c);
    EmittedMembers(records, c);
    assert c in multiset(all);
    OwnMembers(all, records[i].ref, c);
  }

  ghost predicate Indexed(records: seq<VariantRecord>, byRef: map<Key, Binding>) {
    && (forall i | 0 <= i < |records| :: records[i].ref in byRef)
    && (forall k | k in byRef :: byRef[k].key == k)
  }

  ghost predicate From(members: seq<Binding>, byRef: map<Key, Binding>) {
    forall i | 0 <= i < |members| :: members[i].key in byRef && byRef[members[i].key] == members[i]
  }

  // The current binding's diagnoses and the bindings whose output they withdraw:
  // the binding itself and every peer it conflicts with.
  method CurrentConflictState(key: Key, records: seq<VariantRecord>, byRef: map<Key, Binding>)
    returns (conflicts: seq<VariantConflict>, members: seq<Binding>, ghost all: seq<VariantConflict>)
    requires Indexed(records, byRef)
    ensures IsEvaluation(records, all) && conflicts == Own(all, key)
    ensures Unique(members) && From(members, byRef)
    ensures if conflicts == [] then members == [] else Enrolled(members, key)
    ensures forall i | 0 <= i < |conflicts| :: Enrolled(members, conflicts[i].peerRef)
  {
    hide IsEvaluation, Indexed, Own, Enrolled;
    var found := EvaluateVariantConflicts(records);
    all := found;
    conflicts := SelectOwn(found, key);
    members := [];
    if |conflicts| == 0 { return; }
    forall i | 0 <= i < |conflicts| ensures key in byRef && conflicts[i].peerRef in byRef {
      ConflictIndexed(records, byRef, found, key, conflicts[i]);
    }
    assert conflicts[0].peerRef in byRef;
    IndexedKeys(records, byRef);
    members := EnrollConflicting(key, conflicts, byRef);
  }

  method SelectOwn(found: seq<VariantConflict>, key: Key) returns (conflicts: seq<VariantConflict>)
    ensures conflicts == Own(found, key)
  {
    conflicts := [];
    for i := 0 to |found|
      invariant conflicts == Own(found[..i], key)
    {
      assert found[..i + 1][..i] == found[..i];
      if found[i].ref == key { conflicts := conflicts + [found[i]]; }
    }
    assert found[..|found|] == found;
  }

  method EnrollConflicting(key: Key, conflicts: seq<VariantConflict>, byRef: map<Key, Binding>) returns (members: seq<Binding>)
    requires key in byRef && (forall k | k in byRef :: byRef[k].key == k) && forall i | 0 <= i < |conflicts| :: conflicts[i].peerRef in byRef
    ensures Unique(members) && From(members, byRef) && Enrolled(members, key)
    ensures forall i | 0 <= i < |conflicts| :: Enrolled(members, conflicts[i].peerRef)
  {
    hide Enrolled;
    var peers := seq(|conflicts|, i requires 0 <= i < |conflicts| => byRef[conflicts[i].peerRef]);
    members := Enroll([], [byRef[key]] + peers, byRef.Values);
    assert ([byRef[key]] + peers)[0].key == key;
    forall i | 0 <= i < |conflicts| ensures Enrolled(members, conflicts[i].peerRef) {
      assert ([byRef[key]] + peers)[i + 1].key == conflicts[i].peerRef;
    }
  }

  ghost predicate Drawn(members: seq<Binding>, pool: set<Binding>) {
    forall i | 0 <= i < |members| :: members[i] in pool
  }

  method Enroll(members: seq<Binding>, more: seq<Binding>, ghost pool: set<Binding>) returns (r: seq<Binding>)
    requires Unique(members) && Drawn(members, pool) && Drawn(more, pool)
    ensures Unique(r) && Drawn(r, pool)
    ensures forall i | 0 <= i < |more| :: Enrolled(r, more[i].key)
  {
    r := members;
    for i := 0 to |more|
      invariant Unique(r) && Drawn(r, pool)
      invariant forall j | 0 <= j < i :: Enrolled(r, more[j].key)
    {
      hide Enrolled, Unique;
      r := AppendMember(r, more[i]);
    }
  }

  lemma IndexedKeys(records: seq<VariantRecord>, byRef: map<Key, Binding>)
    requires Indexed(records, byRef)
    ensures forall k | k in byRef :: byRef[k].key == k
  {
  }

  lemma ConflictIndexed(records: seq<VariantRecord>, byRef: map<Key, Binding>, all: seq<VariantConflict>, key: Key, c: VariantConflict)
    requires Indexed(records, byRef) && IsEvaluation(records, all) && c in Own(all, key)
    ensures c.ref == key && key in byRef && c.peerRef in byRef
    ensures exists i :: 0 <= i < |records| && records[i].ref == c.peerRef
  {
    OwnMembers(all, key, c);
    DiagnosisFrom(records, all, c);
    var i, j :| 0 <= i < |records| && 0 <= j < |records| && i != j && PairYields(records[i], records[j], c);
    assert records[i].ref in byRef && records[j].ref in byRef;
  }

  // ------------------------------------------------------------ the whole namespace

  predicate Represents(x: VariantRecord, ref: Key, serviceAccount: string, variant: string) {
    x.ref == ref && x.serviceAccount == serviceAccount && x.variant == variant
  }

  ghost predicate Represented(records: seq<VariantRecord>, ref: Key, serviceAccount: string, variant: string) {
    exists i :: 0 <= i < |records| && Represents(records[i], ref, serviceAccount, variant)
  }

  // A listed binding takes part in the comparison or holds no output.
  ghost predicate Accounted(r: Rules, s: State, key: Key, plan: Plan, p: Stored, records: seq<VariantRecord>) {
    || Represented(records, p.key, p.spec.serviceAccount, if p.key == key then plan.variant else p.spec.variant)
    || ((Covering(r) ==> StoredRecord(s, p.key).Unclaimed?) && (p.key == key ==> p.deleting))
  }

  // Unless its version is outdated, the current binding itself was compared, with
  // its listed service account and the variant in memory.
  lemma SelfRepresented(r: Rules, l: State, s: State, o: Stored, plan: Plan, items: seq<Stored>, records: seq<VariantRecord>)
    requires Inv(r, l) && Inv(r, s) && Excluding(r) && Frame(l, s) && Listing(l, o.key.namespace, items)
    requires o in l.past && !o.deleting && plan.variant == o.spec.variant && Follows(r, Reading(o.key, o.spec), l, o)
    requires RecordOf(o.status).Pending? ==> StoredRecord(l, o.key) == RecordOf(o.status)
    requires forall j | 0 <= j < |items| :: Accounted(r, s, o.key, plan, items[j], records)
    requires RecordOf(o.status).Pending? || !Outdated(s, o)
    ensures o.key in l.bindings && Represented(records, o.key, l.bindings[o.key].spec.serviceAccount, o.spec.variant)
    ensures l.bindings[o.key].spec.variant == o.spec.variant || RivalsAmong(l, o.key, {})
  {
    hide Covered, Exclusive, Walled, ClaimsOK, ObjectsOK, Represented, RecordOf, NoGrowth, ObjectsFrom, RivalsAmong;
    if !RecordOf(o.status).Pending? {
      assert o.rv < l.nextRv && o in s.past;
      SameVersion(r, s, o);
    }
    assert o.key in l.bindings && !l.bindings[o.key].deleting;
    var j :| 0 <= j < |items| && items[j] == l.bindings[o.key];
    assert Accounted(r, s, o.key, plan, items[j], records);
    assert items[j].key == o.key;
  }

  // A binding with live output was compared as it was listed.
  lemma RivalRepresented(r: Rules, l: State, s: State, key: Key, plan: Plan, items: seq<Stored>, records: seq<VariantRecord>, n: string)
    requires Inv(r, l) && Inv(r, s) && Covering(r) && Listing(l, key.namespace, items)
    requires forall j | 0 <= j < |items| :: Accounted(r, s, key, plan, items[j], records)
    requires Made(s, n) && MakerOf(s, n) != key && MakerOf(s, n).namespace == key.namespace && MakerOf(s, n) in l.bindings
    ensures var k := MakerOf(s, n);
            Represented(records, k, l.bindings[k].spec.serviceAccount, l.bindings[k].spec.variant)
  {
    hide Exclusive, Walled, ClaimsOK, ObjectsOK, Represented, RecordOf;
    var k := MakerOf(s, n);
    var j :| 0 <= j < |items| && items[j] == l.bindings[k];
    assert Accounted(r, s, key, plan, items[j], records) && items[j].key == k;
    if StoredRecord(s, k).Unclaimed? { UnclaimedIsVacant(s, k); }
  }

  // Without a diagnosis, none of the rivals met by the list still has live output.
  lemma EvaluationIsSole(r: Rules, l: State, s: State, o: Stored, plan: Plan, items: seq<Stored>, records: seq<VariantRecord>, all: seq<VariantConflict>)
    requires Inv(r, l) && Inv(r, s) && Excluding(r) && Frame(l, s) && Listing(l, o.key.namespace, items)
    requires o in l.past && !o.deleting && plan.variant == o.spec.variant && Follows(r, Reading(o.key, o.spec), l, o)
    requires RecordOf(o.status).Pending? ==> StoredRecord(l, o.key) == RecordOf(o.status)
    requires forall j | 0 <= j < |items| :: Accounted(r, s, o.key, plan, items[j], records)
    requires IsEvaluation(records, all) && Own(all, o.key) == []
    ensures Extinct(s, AfterList(Reading(o.key, o.spec), l).rivals) || (Outdated(s, o) && !RecordOf(o.status).Pending?)
  {
    hide Inv, Listing, Follows, Accounted, IsEvaluation, RecordOf, Represented, Reading;
    var rivals := AfterList(Reading(o.key, o.spec), l).rivals;
    if RecordOf(o.status).Pending? || !Outdated(s, o) {
      SelfRepresented(r, l, s, o, plan, items, records);
      hide Outdated, ObjectsFrom, BindingsFrom, Anchored;
      forall n | Made(s, n) ensures s.objects[n].uid !in rivals {
        if s.objects[n].uid in rivals {
          MetByList(o.key, o.spec, l, s, n);
          var j := MakerOf(s, n);
          RivalRepresented(r, l, s, o.key, plan, items, records, n);
          NotBoth(records, all, o.key, j, l.bindings[o.key].spec.(variant := o.spec.variant), l.bindings[j].spec);
        }
      }
    }
  }

  // Without a diagnosis, none of the others met by the list in the boundary seen is still
  // live, if the binding may write there.
  lemma EvaluationIsUnlodged(r: Rules, l: State, s: State, o: Stored, plan: Plan, items: seq<Stored>, records: seq<VariantRecord>, all: seq<VariantConflict>)
    requires Inv(r, l) && Inv(r, s) && Fencing(r) && Frame(l, s) && Listing(l, o.key.namespace, items)
    requires o in l.past && !o.deleting && plan.variant == o.spec.variant && Follows(r, Reading(o.key, o.spec), l, o)
    requires RecordOf(o.status).Pending? ==> StoredRecord(l, o.key) == RecordOf(o.status)
    requires forall j | 0 <= j < |items| :: Accounted(r, s, o.key, plan, items[j], records)
    requires IsEvaluation(records, all) && Own(all, o.key) == []
    requires !Vacant(s, o.key) || RecordOf(o.status).Pending? || !Outdated(s, o)
    ensures Extinct(s, AfterList(Reading(o.key, o.spec), l).lodgers)
  {
    hide Inv, Listing, Follows, Accounted, IsEvaluation, RecordOf, Represented, ObjectsFrom, BindingsFrom, Anchored, Outdated, FenceOf, Frame, Vacant;
    var f := Reading(o.key, o.spec);
    forall n | Made(s, n) ensures s.objects[n].uid !in AfterList(f, l).lodgers {
      if s.objects[n].uid in AfterList(f, l).lodgers {
        LodgerIs(r, o.key, o.spec, l, s, n);
        LodgerAtHome(r, l, s, o, n);
        SelfAccounted(r, l, s, o, plan, items, records);
        RivalRepresented(r, l, s, o.key, plan, items, records, n);
        NotBoth(records, all, o.key, MakerOf(s, n), l.bindings[o.key].spec.(variant := o.spec.variant), l.bindings[MakerOf(s, n)].spec);
      }
    }
  }

  lemma LodgerIs(r: Rules, k: Key, spec: BindingSpec, l: State, s: State, n: string)
    requires Inv(r, l) && Frame(l, s) && Made(s, n) && s.objects[n].uid in AfterList(Reading(k, spec), l).lodgers
    ensures Made(l, n) && MakerOf(l, n) == MakerOf(s, n) && Faces(l, k, n, spec)
  {
    hide Covered, Exclusive, Walled, ClaimsOK, VersionsOK, EffectsOK, FenceOf, ObjectsFrom, BindingsFrom, Anchored;
    var m :| m in l.objects && Made(l, m) && Faces(l, k, m, spec) && l.objects[m].uid == s.objects[n].uid;
    assert Made(l, n);
  }

  // Who has output in the boundary seen asks for it, and so does the binding.
  lemma LodgerAtHome(r: Rules, l: State, s: State, o: Stored, n: string)
    requires Inv(r, l) && Inv(r, s) && Fencing(r) && Frame(l, s) && Follows(r, Reading(o.key, o.spec), l, o) && o in l.past
    requires RecordOf(o.status).Pending? ==> StoredRecord(l, o.key) == RecordOf(o.status)
    requires !Vacant(s, o.key) || RecordOf(o.status).Pending? || !Outdated(s, o)
    requires Made(l, n) && Faces(l, o.key, n, o.spec)
    ensures o.key in l.bindings && Coincide(l.bindings[o.key].spec, o.spec) && AtHome(l, n) && Coincide(l.bindings[MakerOf(l, n)].spec, o.spec)
  {
    hide Exclusive, ClaimsOK, EffectsOK, FenceOf, RecordOf, ObjectsFrom, Anchored, Unshared, Fenced;
    var k := o.key;
    if !Vacant(s, k) {
      StaysVacant(l, s, k);
      var m :| m in l.objects && Made(l, m) && MakerOf(l, m) == k;
      assert Covers(StoredRecord(l, k), l.objects[m]);
    } else if !RecordOf(o.status).Pending? {
      assert o.rv < l.nextRv && o in s.past;
      SameVersion(r, s, o);
      assert Berthed(l, MakerOf(l, n), FenceOf(l.objects[n].spec));
    }
  }

  // The binding itself was compared.
  lemma SelfAccounted(r: Rules, l: State, s: State, o: Stored, plan: Plan, items: seq<Stored>, records: seq<VariantRecord>)
    requires Inv(r, l) && Inv(r, s) && Covering(r) && Frame(l, s) && Listing(l, o.key.namespace, items) && o.key in l.bindings
    requires o in l.past && !o.deleting && plan.variant == o.spec.variant && Follows(r, Reading(o.key, o.spec), l, o)
    requires RecordOf(o.status).Pending? ==> StoredRecord(l, o.key) == RecordOf(o.status)
    requires forall j | 0 <= j < |items| :: Accounted(r, s, o.key, plan, items[j], records)
    requires !Vacant(s, o.key) || RecordOf(o.status).Pending? || !Outdated(s, o)
    ensures Represented(records, o.key, l.bindings[o.key].spec.serviceAccount, o.spec.variant)
  {
    hide Exclusive, Walled, ClaimsOK, ObjectsOK, Represented, RecordOf, NoGrowth, ObjectsFrom, RivalsAmong, Noted, Lodged, Apart;
    var j :| 0 <= j < |items| && items[j] == l.bindings[o.key];
    assert Accounted(r, s, o.key, plan, items[j], records);
    assert items[j].key == o.key;
    if !RecordOf(o.status).Pending? && Vacant(s, o.key) {
      assert o.rv < l.nextRv && o in s.past;
      SameVersion(r, s, o);
    }
    if StoredRecord(s, o.key).Unclaimed? { UnclaimedIsVacant(s, o.key); }
  }

  lemma ListedFocus(k: Key, spec: BindingSpec, s: State)
    ensures var f := AfterList(Reading(k, spec), s); f.key == Some(k) && f.listed && f.seen == spec
  {
  }

  lemma MetByList(k: Key, spec: BindingSpec, l: State, s: State, n: string)
    requires NoGrowth(l, s) && l.created == s.created && Made(s, n) && s.objects[n].uid in AfterList(Reading(k, spec), l).rivals
    ensures Made(l, n) && MakerOf(l, n) == MakerOf(s, n) && MakerOf(s, n) != k && Rivals(l, k, MakerOf(s, n)) && !RivalsAmong(l, k, {})
  {
    var m :| m in l.objects && Made(l, m) && MakerOf(l, m) != k && Rivals(l, k, MakerOf(l, m)) && l.objects[m].uid == s.objects[n].uid;
    assert Made(l, n);
  }

  // Two compared bindings with one boundary are diagnosed.
  lemma NotBoth(records: seq<VariantRecord>, all: seq<VariantConflict>, k: Key, j: Key, a: BindingSpec, b: BindingSpec)
    requires IsEvaluation(records, all) && Own(all, k) == [] && k != j && k.namespace == j.namespace
    requires Represented(records, k, a.serviceAccount, a.variant) && Represented(records, j, b.serviceAccount, b.variant)
    ensures a.serviceAccount != b.serviceAccount || a.variant != b.variant
  {
    hide IsEvaluation;
    var m: nat :| m < |records| && Represents(records[m], k, a.serviceAccount, a.variant);
    var n: nat :| n < |records| && Represents(records[n], j, b.serviceAccount, b.variant);
    if a.serviceAccount == b.serviceAccount && a.variant == b.variant { DiagnosisExists(records, all, m, n); }
  }

  ghost predicate Able(api: Cluster, m: Binding)
    reads api, m
  {
    m.Tied() && Usable(api.rules, api.focus, api.s, m.origin)
  }

  // The version read is still good to act on, and its record is the stored one.
  ghost predicate Usable(r: Rules, f: Focus, s: State, p: Stored) {
    Follows(r, f, s, p) && (Covering(r) ==> StoredRecord(s, p.key) == RecordOf(p.status))
  }

  lemma UsableStable(r: Rules, f: Focus, a: State, b: State, k: Key, p: Stored)
    requires Steady(r, f, a, b) && SameRecordsBut(a, b, k) && Usable(r, f, a, p) && (Covering(r) ==> p.key != k)
    ensures Usable(r, f, b, p)
  {
    hide Follows, RecordOf;
  }

  lemma AbleIs(api: Cluster, m: Binding)
    ensures Able(api, m) <==> m.Good(api) && (Covering(api.rules) ==> m.Synced(api))
  {
    hide Follows;
  }

  lemma AccountedStable(r: Rules, a: State, b: State, k: Key, key: Key, plan: Plan, p: Stored, some: seq<VariantRecord>, more: seq<VariantRecord>)
    requires Accounted(r, a, key, plan, p, some) && some <= more && SameRecordsBut(a, b, k) && (Covering(r) ==> p.key != k)
    ensures Accounted(r, b, key, plan, p, more)
  {
    var v := if p.key == key then plan.variant else p.spec.variant;
    if Represented(some, p.key, p.spec.serviceAccount, v) {
      var i :| 0 <= i < |some| && Represents(some[i], p.key, p.spec.serviceAccount, v);
      assert more[i] == some[i];
    }
  }

  // The first i listed bindings have been assessed; the others are untouched.
  ghost predicate Progress(r: Rules, f: Focus, s: State, key: Key, plan: Plan, items: seq<Stored>, i: nat,
                           records: seq<VariantRecord>, blocked: bool)
  {
    && i <= |items|
    && (forall j | i <= j < |items| :: Usable(r, f, s, items[j]))
    && (!blocked ==> forall j | 0 <= j < i :: Accounted(r, s, key, plan, items[j], records))
  }

  lemma ProgressStep(r: Rules, f: Focus, a: State, b: State, key: Key, plan: Plan, items: seq<Stored>, i: nat,
                     some: seq<VariantRecord>, more: seq<VariantRecord>, was: bool, blocked: bool)
    requires Progress(r, f, a, key, plan, items, i, some, was) && (was ==> blocked) && i < |items| && some <= more && (Covering(r) ==> Distinct(items))
    requires Steady(r, f, a, b) && SameRecordsBut(a, b, items[i].key)
    requires !blocked ==> Accounted(r, b, key, plan, items[i], more)
    ensures Progress(r, f, b, key, plan, items, i + 1, more, blocked)
  {
    hide Steady, SameRecordsBut, Accounted, Usable;
    forall j | i < j < |items| ensures Usable(r, f, b, items[j]) { UsableStable(r, f, a, b, items[i].key, items[j]); }
    if !blocked {
      forall j | 0 <= j < i ensures Accounted(r, b, key, plan, items[j], more) {
        AccountedStable(r, a, b, items[i].key, key, plan, items[j], some, more);
      }
    }
  }

  // Every binding kept so far is usable and came from the first i items.
  ghost predicate Crew(api: Cluster, items: seq<Stored>, i: nat, members: set<Binding>)
    reads api, members
  {
    forall m | m in members :: Able(api, m) && Before(items, i, m.key)
  }

  lemma AddedAccounts(r: Rules, s: State, key: Key, plan: Plan, p: Stored, records: seq<VariantRecord>, st: Standing)
    requires Assessed(r, s, key, plan, p.key, p.spec, st) && !st.Blocking?
    requires p.key == key && !p.deleting ==> st.Relevant?
    ensures Accounted(r, s, key, plan, p, Added(records, p.key, p.spec, st))
  {
    if st.Relevant? {
      var more := Added(records, p.key, p.spec, st);
      assert Represents(more[|records|], p.key, p.spec.serviceAccount, if p.key == key then plan.variant else p.spec.variant);
    }
  }

  // Every binding kept so far is stored as it is in memory.
  ghost predicate AllFresh(api: Cluster, members: set<Binding>)
    reads api, members
  {
    forall m | m in members :: Fresh(api, m)
  }

  lemma StaysFresh(config: Config, a: State, b: State, key: Key, items: seq<Stored>, i: nat, k: Key)
    requires i < |items| && Before(items, i, k) && Distinct(items) && Tended(config, a, b, key, items[i]) && k in a.bindings
    ensures k in b.bindings && b.bindings[k] == a.bindings[k]
  {
    hide RenderingOf, Live, Tidy;
  }

  method AssessNext(api: Cluster, config: Config, b: Binding, plan: Plan, items: seq<Stored>, i: nat, ghost members: set<Binding>)
    returns (peer: Binding, st: Standing, err: Option<Err>)
    requires api.Valid() && b.Good(api) && i < |items| && (Covering(api.rules) ==> Distinct(items))
    requires Usable(api.rules, api.focus, api.s, items[i]) && Crew(api, items, i, members)
    requires Covering(api.rules) && b.Record().Pending? ==> b.Synced(api) && (items[i].key == b.key ==> !items[i].deleting)
    modifies api
    ensures api.Valid() && api.focus == old(api.focus) && b.Good(api) && Frame(old(api.s), api.s)
    ensures Steady(api.rules, api.focus, old(api.s), api.s) && SameRecordsBut(old(api.s), api.s, items[i].key)
    ensures Covering(api.rules) && b.Record().Pending? ==> b.Synced(api)
    ensures fresh(peer) && peer.key == items[i].key
    ensures err.None? ==> Crew(api, items, i + 1, members + {peer}) && peer.spec == items[i].spec
    ensures err.None? ==> Assessed(api.rules, api.s, b.key, plan, items[i].key, items[i].spec, st)
    ensures err.None? && items[i].key == b.key && !items[i].deleting ==> st.Relevant?
    ensures old(api.Calm()) ==> api.Calm()
    ensures old(api.Calm() && items[i].key in api.s.bindings && api.s.bindings[items[i].key] == items[i]) ==>
              && Tended(config, old(api.s), api.s, b.key, items[i]) && StandsAs(config, old(api.s), b.key, plan, items[i], st, err)
              && (err.None? ==> Fresh(api, peer) && (old(AllFresh(api, members)) && Distinct(items) ==> AllFresh(api, members + {peer})))
  {
    hide GoodTrace, Inv, Frame, Steady, Follows, RecordOf, WorkingCopy, SameRecordsBut, StoredRecord, Assessed, Tended, StandsAs, Usable, AllCalm, Distinct;
    ghost var mid := api.s;
    peer, st, err := AssessOne(api, config, b, plan, items[i]);
    if err.Some? { return; }
    assert Before(items, i + 1, peer.key) by { assert items[i].key == peer.key; }
    if old(AllFresh(api, members)) && Tended(config, mid, api.s, b.key, items[i]) && Distinct(items) {
      forall m | m in members ensures Fresh(api, m) { StaysFresh(config, mid, api.s, b.key, items, i, m.key); }
    }
    forall m | m in members ensures Able(api, m) && Before(items, i + 1, m.key) {
      if Covering(api.rules) { NotYet(items, i, m.key); }
      StillBefore(items, i, m.key);
      UsableStable(api.rules, api.focus, mid, api.s, items[i].key, m.origin);
    }
  }

  lemma StillBefore(items: seq<Stored>, i: nat, k: Key)
    requires Before(items, i, k)
    ensures Before(items, i + 1, k)
  {
  }

  lemma NotYet(items: seq<Stored>, i: nat, k: Key)
    requires Distinct(items) && i < |items| && Before(items, i, k)
    ensures items[i].key != k
  {
  }

  // Assesses one listed version through a copy of its own.
  method AssessOne(api: Cluster, config: Config, b: Binding, plan: Plan, p: Stored) returns (peer: Binding, st: Standing, err: Option<Err>)
    requires api.Valid() && b.Good(api) && Usable(api.rules, api.focus, api.s, p)
    requires Covering(api.rules) && b.Record().Pending? ==> b.Synced(api) && (p.key == b.key ==> !p.deleting)
    modifies api
    ensures api.Valid() && api.focus == old(api.focus) && b.Good(api) && Frame(old(api.s), api.s)
    ensures Steady(api.rules, api.focus, old(api.s), api.s) && SameRecordsBut(old(api.s), api.s, p.key)
    ensures Covering(api.rules) && b.Record().Pending? ==> b.Synced(api)
    ensures fresh(peer) && peer.key == p.key
    ensures err.None? ==> Able(api, peer) && peer.spec == p.spec && Assessed(api.rules, api.s, b.key, plan, p.key, p.spec, st)
    ensures err.None? && p.key == b.key && !p.deleting ==> st.Relevant?
    ensures old(api.Calm()) ==> api.Calm()
    ensures old(api.Calm() && p.key in api.s.bindings && api.s.bindings[p.key] == p) ==>
              && Tended(config, old(api.s), api.s, b.key, p) && StandsAs(config, old(api.s), b.key, plan, p, st, err)
              && (err.None? ==> Fresh(api, peer))
  {
    hide GoodTrace, Inv, Frame, Steady, Follows, RecordOf, WorkingCopy, SameRecordsBut, StoredRecord, Assessed, Tended, StandsAs, Usable, AllCalm;
    peer := new Binding(p);
    AbleIs(api, peer);
    ghost var mid := api.s;
    st, err := IdentityForConflictEvaluation(api, config, b.key, plan, peer);
    SteadyKeeps(api.rules, api.focus, mid, api.s, b.origin);
    if p.key != b.key { RecordKept(mid, api.s, p.key, b.key); }
    if err.Some? { return; }
    AbleIs(api, peer);
  }

  lemma RecordKept(a: State, b: State, k: Key, j: Key)
    requires SameRecordsBut(a, b, k) && j != k
    ensures StoredRecord(b, j) == StoredRecord(a, j)
  {
  }

  // Renders every listed binding, or blocks on it, or leaves it out.
  method AssessAll(api: Cluster, config: Config, b: Binding, plan: Plan, items: seq<Stored>, ghost self: VariantRecord)
    returns (records: seq<VariantRecord>, byRef: map<Key, Binding>, blockers: seq<Binding>, err: Option<Err>)
    requires api.Valid() && b.Good(api) && (Covering(api.rules) ==> Distinct(items))
    requires forall j | 0 <= j < |items| :: Usable(api.rules, api.focus, api.s, items[j]) && items[j].key.namespace == b.key.namespace
    requires Covering(api.rules) && b.Record().Pending? ==> b.Synced(api) && Unmarked(items, b.key)
    requires self.ref == b.key
    modifies api
    ensures api.Valid() && api.focus == old(api.focus) && b.Good(api) && Frame(old(api.s), api.s)
    ensures Covering(api.rules) && b.Record().Pending? ==> b.Synced(api)
    ensures err.None? ==> Indexed(records, byRef) && (forall i | 0 <= i < |records| :: records[i].ref.namespace == b.key.namespace)
    ensures err.None? ==> forall k | k in byRef :: fresh(byRef[k]) && Able(api, byRef[k])
    ensures err.None? ==> forall i | 0 <= i < |blockers| :: fresh(blockers[i]) && Able(api, blockers[i])
    ensures err.None? && blockers == [] ==> forall j | 0 <= j < |items| :: Accounted(api.rules, api.s, b.key, plan, items[j], records)
    ensures old(api.Calm()) ==> api.Calm()
    ensures old(api.Calm()) && Unhindered(config, old(api.s), self, plan, items) ==>
              err.None? && blockers == [] && Sweep(config, old(api.s), api.s, self, items, |items|, records)
    ensures old(api.Calm()) && Decidable(config, old(api.s), b.key, plan, items) ==>
              && err.None? && blockers == [] && Scan(config, old(api.s), api.s, b.key, plan, items, |items|, records)
              && forall k | k in byRef :: Fresh(api, byRef[k]) && k.namespace == b.key.namespace
  {
    hide GoodTrace, Inv, Frame, Follows, RecordOf, WorkingCopy, StoredRecord, Usable, Accounted,
         Progress, Able, Before, Indexed, Distinct, Unhindered, Sweep, VariantRecordOf, Decidable, Scan, Fresh;
    ghost var open := api.Calm() && Decidable(config, api.s, b.key, plan, items);
    ghost var calm := api.Calm() && Unhindered(config, api.s, self, plan, items);
    records, byRef, blockers, err := [], map[], [], None;
    ghost var start := api.s;
    ghost var members: set<Binding> := {};
    FrameReflexive(api.rules, api.s);
    ProgressStart(api.rules, api.focus, api.s, b.key, plan, items);
    if calm { UnhinderedStart(config, api.s, self, plan, items); }
    ScanStart(config, api.s, b.key, plan, items);
    IndexedNone();
    for i := 0 to |items|
      invariant api.Valid() && api.focus == old(api.focus) && b.Good(api) && err.None? && Frame(start, api.s)
      invariant Covering(api.rules) && b.Record().Pending? ==> b.Synced(api)
      invariant Progress(api.rules, api.focus, api.s, b.key, plan, items, i, records, blockers != [])
      invariant Crew(api, items, i, members) && fresh(members)
      invariant Indexed(records, byRef) && (forall j | 0 <= j < |records| :: records[j].ref.namespace == b.key.namespace)
      invariant (forall k | k in byRef :: byRef[k] in members) && (forall j | 0 <= j < |blockers| :: blockers[j] in members)
      invariant old(api.Calm()) ==> api.Calm()
      invariant calm ==> blockers == [] && Sweep(config, start, api.s, self, items, i, records)
      invariant open ==> blockers == [] && Scan(config, start, api.s, b.key, plan, items, i, records) && AllFresh(api, members)
      invariant forall k | k in byRef :: k.namespace == b.key.namespace
    {
      var peer, st;
      peer, st, err := AssessStep(api, config, b, plan, items, i, members, start, self, records, blockers != [], calm, open);
      if err.Some? { return; }
      members := members + {peer};
      match st {
        case Blocking => blockers := blockers + [peer];
        case Ignored =>
        case Relevant(p) =>
          var x := VariantRecordOf(peer.key, peer.spec, p);
          SelfRefers(peer.key, peer.spec, p);
          IndexedMore(records, byRef, x, peer);
          byRef := byRef[peer.key := peer];
          records := records + [x];
      }
    }
    ProgressEnd(api.rules, api.focus, api.s, b.key, plan, items, records, blockers != []);
  }

  // One assessment with everything it means for the comparison so far.
  method AssessStep(api: Cluster, config: Config, b: Binding, plan: Plan, items: seq<Stored>, i: nat, ghost members: set<Binding>,
                    ghost start: State, ghost self: VariantRecord, ghost records: seq<VariantRecord>, ghost blocked: bool, ghost calm: bool, ghost open: bool)
    returns (peer: Binding, st: Standing, err: Option<Err>)
    requires api.Valid() && b.Good(api) && i < |items| && (Covering(api.rules) ==> Distinct(items)) && Frame(start, api.s)
    requires Progress(api.rules, api.focus, api.s, b.key, plan, items, i, records, blocked) && Crew(api, items, i, members)
    requires Covering(api.rules) && b.Record().Pending? ==> b.Synced(api) && Unmarked(items, b.key)
    requires self.ref == b.key
    requires calm ==> api.Calm() && !blocked && Unhindered(config, start, self, plan, items) && Sweep(config, start, api.s, self, items, i, records)
    requires open ==>
               && api.Calm() && Decidable(config, start, b.key, plan, items)
               && Scan(config, start, api.s, b.key, plan, items, i, records) && AllFresh(api, members)
    modifies api
    ensures api.Valid() && api.focus == old(api.focus) && b.Good(api) && Frame(start, api.s)
    ensures Covering(api.rules) && b.Record().Pending? ==> b.Synced(api)
    ensures fresh(peer) && peer.key == items[i].key
    ensures err.None? ==> Crew(api, items, i + 1, members + {peer})
    ensures err.None? ==>
              Progress(api.rules, api.focus, api.s, b.key, plan, items, i + 1, Added(records, peer.key, peer.spec, st), blocked || st.Blocking?)
    ensures old(api.Calm()) ==> api.Calm()
    ensures calm ==>
              && err.None? && !st.Blocking?
              && Sweep(config, start, api.s, self, items, i + 1, Added(records, peer.key, peer.spec, st))
    ensures open ==>
              && err.None? && !st.Blocking? && AllFresh(api, members + {peer})
              && Scan(config, start, api.s, b.key, plan, items, i + 1, Added(records, peer.key, peer.spec, st))
  {
    hide GoodTrace, Inv, Frame, Steady, Follows, RecordOf, WorkingCopy, SameRecordsBut, StoredRecord, Usable, Accounted, Assessed,
         Progress, Able, Before, Distinct, Unhindered, Sweep, Tended, StandsAs, VariantRecordOf, Decidable, Scan, AllFresh, Fresh;
    ghost var mid := api.s;
    if calm { SweepNext(config, start, mid, self, plan, items, i, records); }
    if open { ScanNext(config, start, mid, b.key, plan, items, i, records); DecidableIsDistinct(config, start, b.key, plan, items); }
    ProgressNext(api.rules, api.focus, mid, b.key, plan, items, i, records, blocked);
    peer, st, err := AssessNext(api, config, b, plan, items, i, members);
    FrameTransitive(start, mid, api.s);
    if calm { SweepOn(config, start, mid, api.s, self, plan, items, i, records, st, err); }
    if open { ScanOn(config, start, mid, api.s, b.key, plan, items, i, records, st, err); }
    if err.Some? { return; }
    if !st.Blocking? { AddedAccounts(api.rules, api.s, b.key, plan, items[i], records, st); }
    ProgressStep(api.rules, api.focus, mid, api.s, b.key, plan, items, i, records, Added(records, peer.key, peer.spec, st), blocked, blocked || st.Blocking?);
  }

  lemma SelfRefers(k: Key, spec: BindingSpec, plan: Plan)
    ensures VariantRecordOf(k, spec, plan).ref == k
  {
  }

  lemma ProgressStart(r: Rules, f: Focus, s: State, key: Key, plan: Plan, items: seq<Stored>)
    requires forall j | 0 <= j < |items| :: Usable(r, f, s, items[j])
    ensures Progress(r, f, s, key, plan, items, 0, [], false)
  {
  }

  lemma ProgressNext(r: Rules, f: Focus, s: State, key: Key, plan: Plan, items: seq<Stored>, i: nat, records: seq<VariantRecord>, blocked: bool)
    requires Progress(r, f, s, key, plan, items, i, records, blocked) && i < |items|
    ensures Usable(r, f, s, items[i])
  {
  }

  lemma ProgressEnd(r: Rules, f: Focus, s: State, key: Key, plan: Plan, items: seq<Stored>, records: seq<VariantRecord>, blocked: bool)
    requires Progress(r, f, s, key, plan, items, |items|, records, blocked)
    ensures !blocked ==> forall j | 0 <= j < |items| :: Accounted(r, s, key, plan, items[j], records)
  {
  }

  lemma IndexedNone()
    ensures Indexed([], map[])
  {
  }

  lemma IndexedMore(records: seq<VariantRecord>, byRef: map<Key, Binding>, x: VariantRecord, b: Binding)
    requires Indexed(records, byRef) && x.ref == b.key
    ensures Indexed(records + [x], byRef[b.key := b])
  {
  }

  ghost predicate Unmarked(items: seq<Stored>, key: Key) {
    forall j | 0 <= j < |items| && items[j].key == key :: !items[j].deleting
  }

  // ------------------------------------------------------------ exact diagnoses

  // What an undisturbed comparison is over.
  ghost predicate Surveyed(config: Config, l: State, self: VariantRecord, plan: Plan, items: seq<Stored>) {
    && Decidable(config, l, self.ref, plan, items) && self.ref in l.bindings && self == VariantRecordOf(self.ref, l.bindings[self.ref].spec, plan)
    && !l.bindings[self.ref].deleting && (forall k | k in l.bindings :: l.bindings[k].key == k)
    && (forall i | 0 <= i < |items| :: items[i].key.namespace == self.ref.namespace)
  }

  lemma SelfContributes(config: Config, l: State, self: VariantRecord, plan: Plan, items: seq<Stored>, x: VariantRecord)
    requires Surveyed(config, l, self, plan, items) && x in Compared(config, l, self.ref, plan, items) && x.ref == self.ref
    ensures x == self
  {
    hide Compared, RenderingOf, Live;
    ComparedMembers(config, l, self.ref, plan, items, x);
  }

  lemma PeerContributes(config: Config, l: State, self: VariantRecord, plan: Plan, items: seq<Stored>, x: VariantRecord)
    requires Surveyed(config, l, self, plan, items) && x in Compared(config, l, self.ref, plan, items) && x.ref != self.ref
    ensures IsPeer(l, self.ref, x.ref)
    ensures Pair(self, x).Some? ==> ClashWith(config, l, self, plan, x.ref) == Some(Directed(self.ref, x, Pair(self, x).value))
  {
    hide Compared, StandingIn, Pair;
    ComparedMembers(config, l, self.ref, plan, items, x);
  }

  lemma SelfCompared(config: Config, l: State, self: VariantRecord, plan: Plan, items: seq<Stored>)
    requires Surveyed(config, l, self, plan, items)
    ensures self in Compared(config, l, self.ref, plan, items)
  {
    hide Compared, RenderingOf, Live;
    var i :| 0 <= i < |items| && items[i] == l.bindings[self.ref];
    assert Contributes(config, l, self.ref, plan, items[i], self);
    ComparedMembers(config, l, self.ref, plan, items, self);
  }

  lemma ClashCompared(config: Config, l: State, self: VariantRecord, plan: Plan, items: seq<Stored>, j: Key, c: VariantConflict)
    requires Surveyed(config, l, self, plan, items) && IsPeer(l, self.ref, j) && ClashWith(config, l, self, plan, j) == Some(c)
    ensures exists x :: x in Compared(config, l, self.ref, plan, items) && x.ref == j && Pair(self, x).Some? && c == Directed(self.ref, x, Pair(self, x).value)
  {
    hide Compared, StandingIn, Pair;
    var i :| 0 <= i < |items| && items[i] == l.bindings[j];
    var x := VariantRecordOf(j, l.bindings[j].spec, StandingIn(config, l, self.ref, plan, l.bindings[j]).value.plan);
    assert Contributes(config, l, self.ref, plan, items[i], x);
    ComparedMembers(config, l, self.ref, plan, items, x);
  }

  // The current binding's diagnoses are exactly those against its rivals.
  lemma DiagnosesExact(config: Config, l: State, self: VariantRecord, plan: Plan, items: seq<Stored>, all: seq<VariantConflict>)
    requires Surveyed(config, l, self, plan, items) && IsEvaluation(Compared(config, l, self.ref, plan, items), all)
    ensures Diagnosed(config, l, self, plan, Own(all, self.ref))
  {
    hide Surveyed, Compared, IsEvaluation, Own, ClashWith, Pair;
    forall c ensures c in Own(all, self.ref) <==> exists j :: IsPeer(l, self.ref, j) && ClashWith(config, l, self, plan, j) == Some(c) {
      if c in Own(all, self.ref) { DiagnosisIsClash(config, l, self, plan, items, all, c); }
      if exists j :: IsPeer(l, self.ref, j) && ClashWith(config, l, self, plan, j) == Some(c) {
        var j :| IsPeer(l, self.ref, j) && ClashWith(config, l, self, plan, j) == Some(c);
        ClashIsDiagnosed(config, l, self, plan, items, all, j, c);
      }
    }
  }

  lemma DiagnosisIsClash(config: Config, l: State, self: VariantRecord, plan: Plan, items: seq<Stored>, all: seq<VariantConflict>, c: VariantConflict)
    requires Surveyed(config, l, self, plan, items) && IsEvaluation(Compared(config, l, self.ref, plan, items), all) && c in Own(all, self.ref)
    ensures IsPeer(l, self.ref, c.peerRef) && ClashWith(config, l, self, plan, c.peerRef) == Some(c)
  {
    hide Compared, ClashWith, Decidable, IsEvaluation, Own;
    var records := Compared(config, l, self.ref, plan, items);
    OwnMembers(all, self.ref, c);
    DiagnosisFrom(records, all, c);
    var a, b :| 0 <= a < |records| && 0 <= b < |records| && a != b && PairYields(records[a], records[b], c);
    DecidableIsDistinct(config, l, self.ref, plan, items);
    if a < b { ComparedDistinct(config, l, self.ref, plan, items, a, b); } else { ComparedDistinct(config, l, self.ref, plan, items, b, a); }
    SelfContributes(config, l, self, plan, items, records[a]);
    PeerContributes(config, l, self, plan, items, records[b]);
  }

  lemma ClashIsDiagnosed(config: Config, l: State, self: VariantRecord, plan: Plan, items: seq<Stored>, all: seq<VariantConflict>, j: Key, c: VariantConflict)
    requires Surveyed(config, l, self, plan, items) && IsEvaluation(Compared(config, l, self.ref, plan, items), all)
    requires IsPeer(l, self.ref, j) && ClashWith(config, l, self, plan, j) == Some(c)
    ensures c in Own(all, self.ref)
  {
    hide Surveyed, Compared, IsEvaluation, Own, ClashWith;
    var records := Compared(config, l, self.ref, plan, items);
    SelfCompared(config, l, self, plan, items);
    ClashCompared(config, l, self, plan, items, j, c);
    var x :| x in records && x.ref == j && Pair(self, x).Some? && c == Directed(self.ref, x, Pair(self, x).value);
    var a: nat :| a < |records| && records[a] == self;
    var b: nat :| b < |records| && records[b] == x;
    DiagnosisExists(records, all, a, b);
  }

  // ------------------------------------------------------------ evaluation

  datatype ConflictState = ConflictState(conflicts: seq<VariantConflict>, members: seq<Binding>, blocked: bool)

  // The members are usable; unless blocked, they are list copies whose records
  // are the stored ones, and every named peer is among them.
  ghost predicate Withdrawable(api: Cluster, b: Binding, st: ConflictState)
    reads api, st.members
  {
    && Unique(st.members)
    && (forall i | 0 <= i < |st.members| :: st.members[i].Good(api))
    && (!st.blocked ==>
          && (forall i | 0 <= i < |st.members| :: Able(api, st.members[i]))
          && (st.conflicts != [] ==> Enrolled(st.members, b.key))
          && (forall i | 0 <= i < |st.conflicts| ::
                st.conflicts[i].peerRef.namespace == b.key.namespace && Enrolled(st.members, st.conflicts[i].peerRef)))
  }

  method EvaluateBindingConflicts(api: Cluster, config: Config, b: Binding, plan: Plan) returns (st: ConflictState, err: Option<Err>)
    requires api.Valid() && b.Good(api) && !b.deleting && plan.variant == b.spec.variant && api.focus == Reading(b.key, b.spec)
    requires Covering(api.rules) && b.Record().Pending? ==> b.Synced(api)
    modifies api
    ensures api.Valid() && api.focus.key == Some(b.key) && api.focus.listed && api.focus.seen == b.spec && b.Good(api) && Frame(old(api.s), api.s)
    ensures err.None? ==> Withdrawable(api, b, st) && forall i | 0 <= i < |st.members| :: st.members[i] == b || fresh(st.members[i])
    ensures err.None? && !st.blocked ==> b !in st.members
    ensures Covering(api.rules) && b.Record().Pending? ==> b.Synced(api)
    ensures err.None? && st.conflicts == [] && !st.blocked && Excluding(api.rules) ==> Sole(api.focus, api.s, b)
    ensures err.None? && st.conflicts == [] && !st.blocked && Fencing(api.rules) ==> Unlodged(api.focus, api.s, b)
    ensures old(api.Calm()) ==> api.Calm()
    ensures old(api.Calm() && b.key in api.s.bindings) ==>
              var self := VariantRecordOf(b.key, old(api.s).bindings[b.key].spec, plan);
              PeersHarmless(config, old(api.s), self) ==>
              err.None? && st.conflicts == [] && !st.blocked && Uneventful(config, old(api.s), api.s, self)
    ensures old(api.Calm() && Overlooked(config, api.s, b.key, plan)) ==>
              err.None? && st.conflicts == [] && !st.blocked && Passed(old(api.s), api.s, b.key)
    ensures old(api.Calm() && Fresh(api, b) && Tellable(config, api.s, b.key, plan)) ==>
              && err.None? && !st.blocked && api.s.objects == old(api.s.objects) && SameShape(old(api.s), api.s)
              && Diagnosed(config, old(api.s), VariantRecordOf(b.key, b.spec, plan), plan, st.conflicts)
              && forall i | 0 <= i < |st.members| :: Fresh(api, st.members[i]) && st.members[i].key.namespace == b.key.namespace
  {
    hide GoodTrace, Inv, Frame, Steady, Follows, WorkingCopy, RecordOf, Accounted, IsEvaluation, Own, Indexed, Listing, Distinct,
         Unmarked, Unhindered, Sweep, PeersHarmless, Uneventful, VariantRecordOf, Extinct, Outdated, Withdrawable, StoredRecord, Usable,
         AfterList, Reading, Tellable, Decidable, Scan, Surveyed, Diagnosed, SameShape, Overlooked, Passed, Unlodged, Sole;
    ghost var start, self := api.s, VariantRecordOf(b.key, if b.key in api.s.bindings then api.s.bindings[b.key].spec else b.spec, plan);
    SelfRefers(b.key, if b.key in api.s.bindings then api.s.bindings[b.key].spec else b.spec, plan);
    ghost var calm := api.Calm() && b.key in api.s.bindings && PeersHarmless(config, api.s, self);
    var items;
    items, err := ListPeers(api, b);
    ListedFocus(b.key, b.spec, api.s);
    if calm { UnhinderedNow(api, config, b, plan, items); }
    if old(api.Calm()) && Overlooked(config, start, b.key, plan) { OverlookedNow(api, config, b.key, plan, items); }
    ghost var open := old(api.Calm() && Fresh(api, b)) && Tellable(config, start, b.key, plan);
    if open { SurveyedNow(api, config, b, plan, items); }
    if err.Some? { return ConflictState([], [], false), err; }
    ghost var listed := api.s;
    st, err := EvaluateListed(api, config, b, plan, items, self);
    FrameTransitive(start, listed, api.s);
  }

  // Compares the listed bindings.
  method EvaluateListed(api: Cluster, config: Config, b: Binding, plan: Plan, items: seq<Stored>, ghost self: VariantRecord)
    returns (st: ConflictState, err: Option<Err>)
    requires api.Valid() && b.Good(api) && !b.deleting && plan.variant == b.spec.variant && self.ref == b.key
    requires api.focus == AfterList(Reading(b.key, b.spec), api.s) && Follows(api.rules, Reading(b.key, b.spec), api.s, b.origin)
    requires forall j | 0 <= j < |items| :: Usable(api.rules, api.focus, api.s, items[j]) && items[j].key.namespace == b.key.namespace
    requires api.rules.current ==> Listing(api.s, b.key.namespace, items) && Distinct(items)
    requires Covering(api.rules) && b.Record().Pending? ==> b.Synced(api) && Unmarked(items, b.key)
    modifies api
    ensures api.Valid() && api.focus == old(api.focus) && b.Good(api) && Frame(old(api.s), api.s)
    ensures err.None? ==> Withdrawable(api, b, st) && forall i | 0 <= i < |st.members| :: st.members[i] == b || fresh(st.members[i])
    ensures err.None? && !st.blocked ==> b !in st.members
    ensures Covering(api.rules) && b.Record().Pending? ==> b.Synced(api)
    ensures err.None? && st.conflicts == [] && !st.blocked && Excluding(api.rules) ==> Sole(api.focus, api.s, b)
    ensures err.None? && st.conflicts == [] && !st.blocked && Fencing(api.rules) ==> Unlodged(api.focus, api.s, b)
    ensures old(api.Calm()) ==> api.Calm()
    ensures old(api.Calm()) && (Unhindered(config, old(api.s), self, plan, items) || Decidable(config, old(api.s), b.key, plan, items)) ==>
              err.None? && !st.blocked && Evaluated(config, old(api.s), api.s, self, plan, items, st.conflicts)
    ensures old(api.Calm()) && Decidable(config, old(api.s), b.key, plan, items) && err.None? ==>
              forall i | 0 <= i < |st.members| :: Fresh(api, st.members[i]) && st.members[i].key.namespace == b.key.namespace
  {
    hide GoodTrace, Inv, Frame, Steady, Follows, WorkingCopy, RecordOf, Accounted, IsEvaluation, Own, Indexed, Listing, Distinct,
         Unmarked, Unhindered, Sweep, Uneventful, VariantRecordOf, Extinct, Outdated, Withdrawable, StoredRecord, Usable,
         AfterList, Reading, Decidable, Scan, Surveyed, Diagnosed, SameShape, Overlooked, Passed, KeysMatch, Sole, Unlodged, AllCalm, Fresh, Able, Evaluated;
    ghost var start := api.s;
    ghost var calm := api.Calm() && (Unhindered(config, start, self, plan, items) || Decidable(config, start, b.key, plan, items));
    ListedFocus(b.key, b.spec, api.s);
    DecodesHere(api, b);
    var records, byRef, blockers;
    records, byRef, blockers, err := AssessAll(api, config, b, plan, items, self);
    if err.Some? { return ConflictState([], [], false), err; }
    ghost var all;
    st, all := ConflictsOf(api, b, records, byRef, blockers);
    if calm { EvaluatedNow(config, start, api.s, self, plan, items, records, all); }
    if Fencing(api.rules) && st.conflicts == [] && !st.blocked { UnlodgedNow(api, b, start, plan, items, records, all); }
    if Excluding(api.rules) && st.conflicts == [] && !st.blocked { SoleNow(api, b, start, plan, items, records, all); }
  }

  // What an undisturbed comparison of l leaves and finds, as far as it can be told.
  ghost predicate Evaluated(config: Config, l: State, s: State, self: VariantRecord, plan: Plan, items: seq<Stored>, conflicts: seq<VariantConflict>) {
    && (Unhindered(config, l, self, plan, items) ==> conflicts == [] && Uneventful(config, l, s, self))
    && (Decidable(config, l, self.ref, plan, items) && Overlooked(config, l, self.ref, plan) && KeysMatch(l) ==> conflicts == [] && Passed(l, s, self.ref))
    && (Surveyed(config, l, self, plan, items) ==> s.objects == l.objects && SameShape(l, s) && Diagnosed(config, l, self, plan, conflicts))
  }

  lemma EvaluatedNow(config: Config, l: State, s: State, self: VariantRecord, plan: Plan, items: seq<Stored>,
                     records: seq<VariantRecord>, all: seq<VariantConflict>)
    requires IsEvaluation(records, all)
    requires Unhindered(config, l, self, plan, items) ==> Sweep(config, l, s, self, items, |items|, records)
    requires Decidable(config, l, self.ref, plan, items) ==> Scan(config, l, s, self.ref, plan, items, |items|, records)
    ensures Evaluated(config, l, s, self, plan, items, Own(all, self.ref))
  {
    hide IsEvaluation, Own, Unhindered, Sweep, Uneventful, Decidable, Scan, Surveyed, Diagnosed, SameShape, Overlooked, Passed, KeysMatch;
    if Unhindered(config, l, self, plan, items) { UneventfulNow(config, l, s, self, plan, items, records, all); }
    if Surveyed(config, l, self, plan, items) {
      SurveyedIs(config, l, self, plan, items);
      ScannedNow(config, l, s, self, plan, items, records, all);
    }
    if Decidable(config, l, self.ref, plan, items) && Overlooked(config, l, self.ref, plan) && KeysMatch(l) {
      PassedNow(config, l, s, self.ref, plan, items, records, all);
    }
  }

  ghost predicate KeysMatch(s: State) {
    forall k | k in s.bindings :: s.bindings[k].key == k
  }

  lemma OverlookedNow(api: Cluster, config: Config, key: Key, plan: Plan, items: seq<Stored>)
    requires api.Valid() && Overlooked(config, api.s, key, plan) && Listing(api.s, key.namespace, items) && Distinct(items)
    requires forall j | 0 <= j < |items| :: items[j].key.namespace == key.namespace
    ensures Decidable(config, api.s, key, plan, items) && KeysMatch(api.s)
  {
    hide Covered, Exclusive, Walled, ClaimsOK, Overlooked, Decidable, Listing, Distinct;
    OverlookedIsDecidable(config, api.s, key, plan, items);
  }

  // A binding that was left out raises no conflict.
  lemma PassedNow(config: Config, l: State, s: State, key: Key, plan: Plan, items: seq<Stored>, records: seq<VariantRecord>, all: seq<VariantConflict>)
    requires Decidable(config, l, key, plan, items) && Overlooked(config, l, key, plan) && KeysMatch(l)
    requires Scan(config, l, s, key, plan, items, |items|, records) && IsEvaluation(records, all)
    ensures Own(all, key) == [] && Passed(l, s, key)
  {
    hide Overlooked, Compared, IsEvaluation, Own, Passed, Tending;
    assert items[..|items|] == items;
    TendingIsPassed(l, s, key, items);
    if Own(all, key) != [] {
      OwnMembers(all, key, Own(all, key)[0]);
      DiagnosisFrom(records, all, Own(all, key)[0]);
      var i, j :| 0 <= i < |records| && 0 <= j < |records| && i != j && PairYields(records[i], records[j], Own(all, key)[0]);
      OverlookedIsUnnamed(config, l, key, plan, items, records[i]);
    }
  }

  lemma UnlodgedNow(api: Cluster, b: Binding, l: State, plan: Plan, items: seq<Stored>, records: seq<VariantRecord>, all: seq<VariantConflict>)
    requires api.Valid() && b.Good(api) && !b.deleting && plan.variant == b.spec.variant && Inv(api.rules, l) && Fencing(api.rules) && Frame(l, api.s)
    requires api.focus == AfterList(Reading(b.key, b.spec), l) && Follows(api.rules, Reading(b.key, b.spec), l, b.origin)
    requires Listing(l, b.key.namespace, items) && (b.Record().Pending? ==> StoredRecord(l, b.key) == b.Record())
    requires forall j | 0 <= j < |items| :: Accounted(api.rules, api.s, b.key, plan, items[j], records)
    requires IsEvaluation(records, all) && Own(all, b.key) == []
    ensures Unlodged(api.focus, api.s, b)
  {
    hide Inv, GoodTrace, Frame, Listing, Follows, Accounted, IsEvaluation, Own, WorkingCopy, Extinct, Outdated, Vacant;
    DecodesHere(api, b);
    ListedFocus(b.key, b.spec, l);
    if !Vacant(api.s, b.key) || b.Record().Pending? || !Outdated(api.s, b.origin) {
      assert b.origin in l.past by { FollowsPast(api.rules, Reading(b.key, b.spec), l, b.origin); }
      EvaluationIsUnlodged(api.rules, l, api.s, b.origin, plan, items, records, all);
    }
  }

  lemma SoleNow(api: Cluster, b: Binding, l: State, plan: Plan, items: seq<Stored>, records: seq<VariantRecord>, all: seq<VariantConflict>)
    requires api.Valid() && b.Good(api) && !b.deleting && plan.variant == b.spec.variant && Inv(api.rules, l) && Excluding(api.rules) && Frame(l, api.s)
    requires api.focus == AfterList(Reading(b.key, b.spec), l) && Follows(api.rules, Reading(b.key, b.spec), l, b.origin)
    requires Listing(l, b.key.namespace, items) && (b.Record().Pending? ==> StoredRecord(l, b.key) == b.Record())
    requires forall j | 0 <= j < |items| :: Accounted(api.rules, api.s, b.key, plan, items[j], records)
    requires IsEvaluation(records, all) && Own(all, b.key) == []
    ensures Sole(api.focus, api.s, b)
  {
    hide Inv, GoodTrace, Frame, Listing, Follows, Accounted, IsEvaluation, Own, WorkingCopy, Extinct, Outdated;
    DecodesHere(api, b);
    ListedFocus(b.key, b.spec, l);
    FollowsPast(api.rules, Reading(b.key, b.spec), l, b.origin);
    EvaluationIsSole(api.rules, l, api.s, b.origin, plan, items, records, all);
  }

  lemma FollowsPast(r: Rules, f: Focus, s: State, o: Stored)
    requires Follows(r, f, s, o)
    ensures o in s.past
  {
  }

  lemma SurveyedIs(config: Config, l: State, self: VariantRecord, plan: Plan, items: seq<Stored>)
    requires Surveyed(config, l, self, plan, items)
    ensures Decidable(config, l, self.ref, plan, items)
  {
    hide Decidable;
  }

  lemma UnhinderedNow(api: Cluster, config: Config, b: Binding, plan: Plan, items: seq<Stored>)
    requires api.Valid() && b.key in api.s.bindings && PeersHarmless(config, api.s, VariantRecordOf(b.key, api.s.bindings[b.key].spec, plan))
    requires Listing(api.s, b.key.namespace, items) && Distinct(items)
    requires forall j | 0 <= j < |items| :: items[j].key.namespace == b.key.namespace
    ensures Unhindered(config, api.s, VariantRecordOf(b.key, api.s.bindings[b.key].spec, plan), plan, items)
  {
    hide PeersHarmless, Covered, Exclusive, Walled, ClaimsOK;
  }

  lemma SurveyedNow(api: Cluster, config: Config, b: Binding, plan: Plan, items: seq<Stored>)
    requires api.Valid() && b.Tied() && Fresh(api, b) && Tellable(config, api.s, b.key, plan)
    requires Listing(api.s, b.key.namespace, items) && Distinct(items)
    requires forall j | 0 <= j < |items| :: items[j].key.namespace == b.key.namespace
    ensures Surveyed(config, api.s, VariantRecordOf(b.key, b.spec, plan), plan, items) && Decidable(config, api.s, b.key, plan, items)
  {
    TellableIsDecidable(config, api.s, b.key, plan, items);
    hide Tellable, Decidable, Covered, Exclusive, Walled, ClaimsOK, ObjectsOK;
  }

  lemma ScannedNow(config: Config, l: State, s: State, self: VariantRecord, plan: Plan, items: seq<Stored>,
                   records: seq<VariantRecord>, all: seq<VariantConflict>)
    requires Surveyed(config, l, self, plan, items) && Scan(config, l, s, self.ref, plan, items, |items|, records) && IsEvaluation(records, all)
    ensures Diagnosed(config, l, self, plan, Own(all, self.ref)) && s.objects == l.objects && SameShape(l, s)
  {
    hide Surveyed, Compared, IsEvaluation, Diagnosed;
    assert items[..|items|] == items;
    DiagnosesExact(config, l, self, plan, items, all);
  }

  lemma UneventfulNow(config: Config, l: State, s: State, self: VariantRecord, plan: Plan, items: seq<Stored>,
                      records: seq<VariantRecord>, all: seq<VariantConflict>)
    requires Unhindered(config, l, self, plan, items) && Sweep(config, l, s, self, items, |items|, records) && IsEvaluation(records, all)
    ensures Own(all, self.ref) == [] && Uneventful(config, l, s, self)
  {
    hide Unhindered, PeersHarmless, PeersResting, Clear, NoOrphans, Live, Tidy, RecordOf, Harmless, Resting;
    SweepDone(config, l, s, self, plan, items, records, all);
    if Own(all, self.ref) != [] { OwnMembers(all, self.ref, Own(all, self.ref)[0]); }
  }

  method ListPeers(api: Cluster, b: Binding) returns (items: seq<Stored>, err: Option<Err>)
    requires api.Valid() && b.Good(api) && !b.deleting && api.focus == Reading(b.key, b.spec)
    requires Covering(api.rules) && b.Record().Pending? ==> b.Synced(api)
    modifies api
    ensures api.Valid() && api.focus == AfterList(Reading(b.key, b.spec), api.s) && b.Good(api) && Frame(old(api.s), api.s)
    ensures Follows(api.rules, Reading(b.key, b.spec), api.s, b.origin)
    ensures Covering(api.rules) && b.Record().Pending? ==> b.Synced(api)
    ensures err.None? ==> forall j | 0 <= j < |items| :: Usable(api.rules, api.focus, api.s, items[j]) && items[j].key.namespace == b.key.namespace
    ensures err.None? && (api.rules.current || old(api.Calm())) ==> Listing(api.s, b.key.namespace, items) && Distinct(items)
    ensures err.None? && Covering(api.rules) && b.Record().Pending? ==> Unmarked(items, b.key)
    ensures old(api.Calm()) ==> api.Calm() && api.s == old(api.s) && err.None?
  {
    hide GoodTrace, Inv, Frame, Steady, Follows, WorkingCopy, SameRecords, RecordOf;
    ghost var start := api.s;
    var list := api.ListBindings(b.key.namespace);
    SteadyKeeps(api.rules, Reading(b.key, b.spec), start, api.s, b.origin);
    AfterListFollows(api.rules, Reading(b.key, b.spec), api.s, b.origin);
    SameThenSync(start, api.s, b.key);
    if list.Err? { return [], Some(Api(list.err)); }
    items, err := list.value, None;
    ItemsUsable(api.rules, b.origin, api.s, b.key.namespace, items);
    if Covering(api.rules) && b.Record().Pending? { SelfUnmarked(api.rules, api.s, b.origin, items); }
  }

  // The current binding's conflicts and every binding that must be withdrawn.
  method ConflictsOf(api: Cluster, b: Binding, records: seq<VariantRecord>, byRef: map<Key, Binding>, blockers: seq<Binding>)
    returns (st: ConflictState, ghost all: seq<VariantConflict>)
    requires b.Good(api) && Indexed(records, byRef) && (forall i | 0 <= i < |records| :: records[i].ref.namespace == b.key.namespace)
    requires (forall k | k in byRef :: Able(api, byRef[k])) && (forall i | 0 <= i < |blockers| :: Able(api, blockers[i]))
    ensures IsEvaluation(records, all) && st.conflicts == Own(all, b.key) && (st.blocked <==> blockers != [])
    ensures Withdrawable(api, b, st)
    ensures forall i | 0 <= i < |st.members| :: st.members[i] == b || st.members[i] in byRef.Values || st.members[i] in blockers
    ensures blockers == [] ==> From(st.members, byRef)
  {
    hide Follows, WorkingCopy, RecordOf, IsEvaluation, Own, StoredRecord;
    var conflicts, members;
    conflicts, members, all := CurrentConflictState(b.key, records, byRef);
    if |blockers| == 0 {
      forall i | 0 <= i < |conflicts| ensures conflicts[i].peerRef.namespace == b.key.namespace {
        ConflictIndexed(records, byRef, all, b.key, conflicts[i]);
      }
      return ConflictState(conflicts, members, false), all;
    }
    members := Enroll(members, [b] + blockers, {b} + byRef.Values + set m | m in blockers);
    return ConflictState(conflicts, members, true), all;
  }

  lemma SameThenSync(a: State, b: State, k: Key)
    requires SameRecords(a, b)
    ensures StoredRecord(b, k) == StoredRecord(a, k)
  {
  }

  lemma ItemsUsable(r: Rules, o: Stored, s: State, namespace: string, items: seq<Stored>)
    requires (forall i | 0 <= i < |items| :: items[i] in s.past) && Follows(r, Reading(o.key, o.spec), s, o)
    requires r.current ==> Listing(s, namespace, items)
    ensures forall i | 0 <= i < |items| :: Usable(r, AfterList(Reading(o.key, o.spec), s), s, items[i])
    ensures Listing(s, namespace, items) ==> Distinct(items)
  {
  }

  lemma SelfUnmarked(r: Rules, s: State, o: Stored, items: seq<Stored>)
    requires Listing(s, o.key.namespace, items) && Follows(r, Reading(o.key, o.spec), s, o) && !o.deleting
    requires Covering(r) && StoredRecord(s, o.key).Pending?
    ensures Unmarked(items, o.key)
  {
  }

  // ------------------------------------------------------------ withdrawal

  ghost predicate AllGood(api: Cluster, members: seq<Binding>)
    reads api, members
  {
    Unique(members) && forall i | 0 <= i < |members| :: members[i].Good(api)
  }

  ghost predicate AllAble(api: Cluster, members: seq<Binding>)
    reads api, members
  {
    forall i | 0 <= i < |members| :: Able(api, members[i])
  }

  // Nothing interferes: the members are stored as they are in memory, and no
  // finalizer holds output of their namespaces.
  ghost predicate Undisturbed(api: Cluster, members: seq<Binding>)
    reads api, members
  {
    api.Calm() && forall i | 0 <= i < |members| :: Fresh(api, members[i]) && NothingHeld(api.s, members[i].key.namespace)
  }

  ghost predicate GoneUpTo(s: State, members: seq<Binding>, n: nat)
    requires n <= |members|
  {
    forall i | 0 <= i < n :: !Live(s, StoredRecord(s, members[i].key))
  }

  // Deletes the output of every member, then looks whether all of it is gone.
  method WithdrawConflictOutputs(api: Cluster, members: seq<Binding>) returns (absent: bool, err: Option<Err>)
    requires api.Valid() && AllGood(api, members)
    modifies api, members
    ensures api.Valid() && api.focus == old(api.focus) && Frame(old(api.s), api.s)
    ensures err.None? && absent && old(AllAble(api, members)) && Covering(api.rules) ==>
              forall k | Enrolled(members, k) :: StoredRecord(api.s, k).Unclaimed?
    ensures old(Undisturbed(api, members)) ==>
              && err.None? && absent && api.Calm() && SameShape(old(api.s), api.s)
              && forall i | 0 <= i < |members| :: StoredRecord(api.s, members[i].key).Unclaimed?
  {
    hide GoodTrace, Inv, Frame, Steady, Follows, RecordOf, WorkingCopy, SameRecordsBut, StoredRecord, SameView, AllAble, Undisturbed, GoneUpTo,
         SameShape, AllGood;
    ghost var start := api.s;
    ghost var able, calm := AllAble(api, members), Undisturbed(api, members);
    absent := false;
    FrameReflexive(api.rules, api.s);
    WithdrawStart(start, members);
    for i := 0 to |members|
      invariant api.Valid() && api.focus == old(api.focus) && AllGood(api, members) && Frame(start, api.s)
      invariant able ==> AllAble(api, members)
      invariant calm ==> Undisturbed(api, members) && GoneUpTo(api.s, members, i) && SameShape(start, api.s)
    {
      ghost var mid := api.s;
      err := WithdrawOne(api, members, i, start, able);
      if err.Some? { return; }
      if calm { SameShapeTransitive(start, mid, api.s); }
    }
    ghost var mid := api.s;
    absent, err := AllAbsent(api, members, start, able);
    if calm { SameShapeTransitive(start, mid, api.s); }
  }

  lemma WithdrawStart(s: State, members: seq<Binding>)
    ensures GoneUpTo(s, members, 0) && SameShape(s, s)
  {
  }

  method WithdrawOne(api: Cluster, members: seq<Binding>, i: nat, ghost start: State, ghost able: bool) returns (err: Option<Err>)
    requires api.Valid() && AllGood(api, members) && i < |members| && Frame(start, api.s) && (able ==> AllAble(api, members))
    modifies api, members
    ensures api.Valid() && api.focus == old(api.focus) && Frame(start, api.s)
    ensures err.None? ==> AllGood(api, members) && (able ==> AllAble(api, members))
    ensures old(Undisturbed(api, members) && GoneUpTo(api.s, members, i)) ==>
              err.None? && Undisturbed(api, members) && GoneUpTo(api.s, members, i + 1) && SameShape(old(api.s), api.s)
  {
    hide GoodTrace, Inv, Frame, Steady, Follows, RecordOf, WorkingCopy, SameRecordsBut, StoredRecord, SameView, Local, Shrunk, Live, NothingHeld, SameShape;
    ghost var mid := api.s;
    ghost var calm := Undisturbed(api, members) && GoneUpTo(api.s, members, i);
    var m := members[i];
    AbleIs(api, m);
    FreshRecord(api, m);
    if calm { NothingHeldIsUnheld(api.rules, mid, m.key); }
    err := CleanupManaged(api, m);
    FrameTransitive(start, mid, api.s);
    if err.Some? { return; }
    AbleIs(api, m);
    FreshRecord(api, m);
    if calm {
      FrameCreated(mid, api.s);
      LocalIsSameShape(mid, api.s, m.key);
      forall j | 0 <= j < |members| ensures Fresh(api, members[j]) && NothingHeld(api.s, members[j].key.namespace) {
        NothingHeldKept(mid, api.s, members[j].key.namespace);
        if j != i { LocalElsewhere(mid, api.s, m.key, members[j].key); }
      }
      forall j | 0 <= j < i ensures !Live(api.s, StoredRecord(api.s, members[j].key)) {
        LiveElsewhere(api.rules, mid, api.s, m.key, members[j].key);
      }
    }
    forall j | 0 <= j < |members| && j != i ensures members[j].Good(api) && (able ==> Able(api, members[j])) {
      SteadyKeeps(api.rules, api.focus, mid, api.s, members[j].origin);
      if able { UsableStable(api.rules, api.focus, mid, api.s, m.key, members[j].origin); }
    }
  }

  lemma FreshIsStored(api: Cluster, b: Binding)
    ensures Fresh(api, b) ==> b.key in api.s.bindings
  {
  }

  lemma FreshRecord(api: Cluster, m: Binding)
    requires m.Tied()
    ensures Fresh(api, m) ==> StoredRecord(api.s, m.key) == m.Record()
  {
  }

  lemma LocalIsSameShape(a: State, b: State, k: Key)
    requires Local(a, b, k)
    ensures SameShape(a, b)
  {
  }

  lemma LocalElsewhere(a: State, b: State, k: Key, j: Key)
    requires Local(a, b, k) && j != k && j in a.bindings
    ensures j in b.bindings && b.bindings[j] == a.bindings[j]
  {
  }

  // Confirmed absence: no member has output left.
  method AllAbsent(api: Cluster, members: seq<Binding>, ghost start: State, ghost able: bool) returns (absent: bool, err: Option<Err>)
    requires api.Valid() && AllGood(api, members) && Frame(start, api.s) && (able ==> AllAble(api, members))
    modifies api, members
    ensures api.Valid() && api.focus == old(api.focus) && Frame(start, api.s)
    ensures err.None? && absent && able && Covering(api.rules) ==>
              forall i | 0 <= i < |members| :: StoredRecord(api.s, members[i].key).Unclaimed?
    ensures old(Undisturbed(api, members) && GoneUpTo(api.s, members, |members|)) ==>
              && err.None? && absent && api.Calm() && SameShape(old(api.s), api.s)
              && forall i | 0 <= i < |members| :: StoredRecord(api.s, members[i].key).Unclaimed?
  {
    hide GoodTrace, Inv, Frame, Steady, Follows, RecordOf, WorkingCopy, SameRecordsBut, StoredRecord, SameView, AllAble, Undisturbed, GoneUpTo,
         SameShape;
    absent, err := false, None;
    ghost var calm := Undisturbed(api, members) && GoneUpTo(api.s, members, |members|);
    ghost var first := api.s;
    WithdrawStart(first, members);
    for i := 0 to |members|
      invariant api.Valid() && api.focus == old(api.focus) && AllGood(api, members) && Frame(start, api.s) && err.None?
      invariant able ==> AllAble(api, members)
      invariant (able && Covering(api.rules)) || calm ==> forall j | 0 <= j < i :: StoredRecord(api.s, members[j].key).Unclaimed?
      invariant calm ==> Undisturbed(api, members) && GoneUpTo(api.s, members, |members|) && SameShape(first, api.s)
    {
      var gone;
      ghost var mid := api.s;
      gone, err := AbsentOne(api, members, i, start, able);
      if err.Some? || !gone { return; }
      if calm { SameShapeTransitive(first, mid, api.s); }
      if (able && Covering(api.rules)) || calm {
        forall j | 0 <= j < i ensures StoredRecord(api.s, members[j].key).Unclaimed? {
          RecordKept(mid, api.s, members[i].key, members[j].key);
        }
      }
    }
    absent := true;
    if calm { UndisturbedIsCalm(api, members); }
  }

  lemma UndisturbedIsCalm(api: Cluster, members: seq<Binding>)
    requires Undisturbed(api, members)
    ensures api.Calm()
  {
  }

  method AbsentOne(api: Cluster, members: seq<Binding>, i: nat, ghost start: State, ghost able: bool) returns (gone: bool, err: Option<Err>)
    requires api.Valid() && AllGood(api, members) && i < |members| && Frame(start, api.s) && (able ==> AllAble(api, members))
    modifies api, members
    ensures api.Valid() && api.focus == old(api.focus) && Frame(start, api.s) && SameRecordsBut(old(api.s), api.s, members[i].key)
    ensures err.None? ==> AllGood(api, members) && (able ==> AllAble(api, members))
    ensures err.None? && gone && able && Covering(api.rules) ==> StoredRecord(api.s, members[i].key).Unclaimed?
    ensures old(Undisturbed(api, members) && GoneUpTo(api.s, members, |members|)) ==>
              && err.None? && gone && Undisturbed(api, members) && GoneUpTo(api.s, members, |members|) && SameShape(old(api.s), api.s)
              && StoredRecord(api.s, members[i].key).Unclaimed?
  {
    hide GoodTrace, Inv, Frame, Steady, Follows, RecordOf, WorkingCopy, SameRecordsBut, StoredRecord, SameView, Listed, NothingHeld, SameShape, Live;
    ghost var mid := api.s;
    ghost var calm := Undisturbed(api, members) && GoneUpTo(api.s, members, |members|);
    var m := members[i];
    ghost var record := m.Record();
    AbleIs(api, m);
    FreshRecord(api, m);
    var remaining;
    remaining, err := ListManaged(api, m);
    gone := |remaining| == 0;
    FrameTransitive(start, mid, api.s);
    if err.Some? { return; }
    AbleIs(api, m);
    FreshRecord(api, m);
    if calm {
      ListedAbsent(mid, api.s, m.key, record, m.Record(), remaining);
      forall j | 0 <= j < |members|
        ensures Fresh(api, members[j]) && NothingHeld(api.s, members[j].key.namespace) && !Live(api.s, StoredRecord(api.s, members[j].key))
      {
        SameObjects(mid, api.s, m.key, members[j].key);
      }
    }
    forall j | 0 <= j < |members| && j != i ensures members[j].Good(api) && (able ==> Able(api, members[j])) {
      SteadyKeeps(api.rules, api.focus, mid, api.s, members[j].origin);
      if able { UsableStable(api.rules, api.focus, mid, api.s, m.key, members[j].origin); }
    }
  }

  lemma ListedAbsent(a: State, b: State, k: Key, before: Record, after: Record, objects: seq<Object>)
    requires Listed(a, b, k, before, after, objects) && !Live(a, before)
    ensures objects == [] && after.Unclaimed? && !Live(b, after) && OnlyBinding(a, b, k) && SameShape(a, b)
  {
  }

  lemma SameObjects(a: State, b: State, k: Key, j: Key)
    requires OnlyBinding(a, b, k)
    ensures NothingHeld(a, j.namespace) ==> NothingHeld(b, j.namespace)
    ensures j != k && j in a.bindings ==>
              j in b.bindings && b.bindings[j] == a.bindings[j] && Live(b, StoredRecord(b, j)) == Live(a, StoredRecord(a, j))
  {
    hide RecordOf;
    if NothingHeld(a, j.namespace) { NothingHeldKept(a, b, j.namespace); }
  }

  // ------------------------------------------------------------ the conflict phase

  lemma SettledIsPublishable(api: Cluster, b: Binding, st: ConflictState, status: Status)
    requires st.conflicts != [] && !st.blocked && status.conflicts == Entries(st.conflicts)
    requires Enrolled(st.members, b.key)
    requires forall i | 0 <= i < |st.conflicts| ::
               st.conflicts[i].peerRef.namespace == b.key.namespace && Enrolled(st.members, st.conflicts[i].peerRef)
    requires Covering(api.rules) ==> forall k | Enrolled(st.members, k) :: StoredRecord(api.s, k).Unclaimed?
    ensures Publishable(api.rules, api.s, b.key, status)
  {
    hide StoredRecord, Enrolled, Holds;
    if Covering(api.rules) {
      forall e | e in status.conflicts ensures StoredRecord(api.s, Key(b.key.namespace, e.bindingName)).Unclaimed? {
        var i :| 0 <= i < |status.conflicts| && status.conflicts[i] == e;
        assert e == EntryOf(st.conflicts[i]) && Key(b.key.namespace, e.bindingName) == st.conflicts[i].peerRef;
      }
    }
  }

  // Nothing is claimed about conflicts while output may remain.
  predicate Undecided(s: Status) {
    s.conditions.ready == s.conditions.conflict && s.conditions.ready.Some? && s.conditions.ready.value.status.Unknown? && s.conflicts == []
  }

  lemma ViewsAgree(a: Status, b: Status)
    requires SameView(a, b)
    ensures Holds(a, Conflict) == Holds(b, Conflict) && Undecided(a) == Undecided(b)
  {
  }

  // Some peer is not exclusive with the binding, everything can be compared, and
  // nothing holds output of the namespace.
  ghost predicate Contested(config: Config, s: State, self: VariantRecord, plan: Plan) {
    && Tellable(config, s, self.ref, plan) && NothingHeld(s, self.ref.namespace)
    && exists j :: IsPeer(s, self.ref, j) && ClashWith(config, s, self, plan, j).Some?
  }

  ghost function ClashEntry(config: Config, s: State, self: VariantRecord, plan: Plan, j: Key): Option<ConflictEntry>
    requires j in s.bindings
  {
    var c := ClashWith(config, s, self, plan, j);
    if c.None? then None else Some(EntryOf(c.value))
  }

  // From a to b the conflict was settled: the status names exactly the peers that
  // clash, and neither they nor the binding hold a record.
  ghost predicate ClashReported(config: Config, a: State, b: State, self: VariantRecord, plan: Plan, gen: nat) {
    && self.ref in b.bindings && StoredRecord(b, self.ref).Unclaimed?
    && var status := b.bindings[self.ref].status;
    && status == ConflictStatus(status, gen, status.conflicts)
    && (forall e :: e in status.conflicts <==> exists j :: IsPeer(a, self.ref, j) && ClashEntry(config, a, self, plan, j) == Some(e))
    && (forall j | IsPeer(a, self.ref, j) && ClashWith(config, a, self, plan, j).Some? :: StoredRecord(b, j).Unclaimed?)
  }

  lemma ContestedIs(config: Config, s: State, self: VariantRecord, plan: Plan)
    requires Contested(config, s, self, plan)
    ensures Tellable(config, s, self.ref, plan) && NothingHeld(s, self.ref.namespace)
  {
  }

  lemma ContestedHasConflicts(config: Config, s: State, self: VariantRecord, plan: Plan, conflicts: seq<VariantConflict>)
    requires Contested(config, s, self, plan)
    ensures Diagnosed(config, s, self, plan, conflicts) ==> conflicts != []
  {
    hide Tellable, NothingHeld, ClashWith;
    var j :| IsPeer(s, self.ref, j) && ClashWith(config, s, self, plan, j).Some?;
    if Diagnosed(config, s, self, plan, conflicts) { assert ClashWith(config, s, self, plan, j).value in conflicts; }
  }

  lemma StillUndisturbed(api: Cluster, start: State, members: seq<Binding>, namespace: string)
    requires NothingHeld(start, namespace) && start.objects == api.s.objects && start.created == api.s.created && api.Calm()
    requires forall i | 0 <= i < |members| :: Fresh(api, members[i]) && members[i].key.namespace == namespace
    ensures Undisturbed(api, members)
  {
    hide Fresh;
    NothingHeldKept(start, api.s, namespace);
  }

  // Withdraws conflicting output before a settled conflict is published. Only
  // an unhandled result lets the binding go on to apply its output.
  method ReconcileConflictState(api: Cluster, config: Config, b: Binding, plan: Plan) returns (handled: bool, requeue: bool, err: Option<Err>)
    requires api.Valid() && b.Good(api) && !b.deleting && plan.variant == b.spec.variant && api.focus == Reading(b.key, b.spec)
    requires Covering(api.rules) && b.Record().Pending? ==> b.Synced(api)
    modifies api, b
    ensures api.Valid() && api.focus.key == Some(b.key) && api.focus.listed && api.focus.seen == old(b.spec)
    ensures !handled ==> err.None? && unchanged(b) && b.Good(api) && Frame(old(api.s), api.s)
    ensures !handled && Covering(api.rules) && b.Record().Pending? ==> b.Synced(api)
    ensures !handled && Excluding(api.rules) ==> Sole(api.focus, api.s, b)
    ensures !handled && Fencing(api.rules) ==> Unlodged(api.focus, api.s, b)
    ensures old(api.Calm() && Overlooked(config, api.s, b.key, plan)) ==> !handled && Passed(old(api.s), api.s, b.key)
    ensures handled && err.None? ==> Persisted(api.s, b.key, b.status) && if requeue then Undecided(b.status) else Holds(b.status, Conflict)
    ensures old(api.Calm()) && !handled ==> api.Calm()
    ensures old(api.Calm() && b.key in api.s.bindings) ==>
              var self := VariantRecordOf(b.key, old(api.s).bindings[b.key].spec, plan);
              PeersHarmless(config, old(api.s), self) ==>
              !handled && Uneventful(config, old(api.s), api.s, self)
    ensures var self := VariantRecordOf(b.key, old(b.spec), plan);
            old(api.Calm() && Fresh(api, b)) && Contested(config, old(api.s), self, plan) ==>
              handled && err.None? && !requeue && ClashReported(config, old(api.s), api.s, self, plan, old(b.generation))
  {
    hide PeersHarmless, Uneventful, VariantRecordOf, Contested, ClashReported, Tellable, Diagnosed, SameShape, Withdrawable, NothingHeld, Fresh,
         Sole, Undisturbed, Undecided, Holds, Unlodged, Overlooked, Passed;
    hide GoodTrace, Inv, Frame, Follows, RecordOf, WorkingCopy, StoredRecord, Consistent, SameView, Persisted;
    handled, requeue := true, false;
    FreshIsStored(api, b);
    SelfRefers(b.key, b.spec, plan);
    ghost var start, self := api.s, VariantRecordOf(b.key, b.spec, plan);
    ghost var open := api.Calm() && Fresh(api, b) && Contested(config, api.s, self, plan);
    if open { ContestedIs(config, start, self, plan); }
    var st;
    st, err := EvaluateBindingConflicts(api, config, b, plan);
    if open { ContestedHasConflicts(config, start, self, plan, st.conflicts); }
    if err.Some? {
      var cause := PatchApplyFailure(api, b, err.value);
      return true, false, Some(cause);
    }
    if |st.conflicts| == 0 && !st.blocked { return false, false, None; }
    ghost var mid := api.s;
    if open {
      FrameCreated(start, mid);
      ShapeKeeps(start, mid, b.key);
      StillUndisturbed(api, start, st.members, b.key.namespace);
    }
    requeue, err := SettleConflict(api, b, st, config, start, self, plan, open);
  }

  // Withdraws the output of all members and publishes the result.
  method SettleConflict(api: Cluster, b: Binding, st: ConflictState, ghost config: Config, ghost start: State, ghost self: VariantRecord,
                        ghost plan: Plan, ghost open: bool) returns (requeue: bool, err: Option<Err>)
    requires api.Valid() && Withdrawable(api, b, st) && (st.conflicts != [] || st.blocked)
    requires open ==>
               && Undisturbed(api, st.members) && !st.blocked && self.ref == b.key
               && Diagnosed(config, start, self, plan, st.conflicts) && b.key in api.s.bindings && b !in st.members
    modifies api, b, st.members
    ensures api.Valid() && api.focus == old(api.focus)
    ensures err.None? ==> Persisted(api.s, b.key, b.status) && if requeue then Undecided(b.status) else Holds(b.status, Conflict)
    ensures open ==> err.None? && !requeue && ClashReported(config, start, api.s, self, plan, old(b.generation))
  {
    hide VariantRecordOf, ClashReported, Diagnosed, SameShape, Enrolled, Undisturbed;
    hide GoodTrace, Inv, Frame, Follows, RecordOf, WorkingCopy, StoredRecord, Consistent, SameView, Persisted;
    requeue := false;
    ghost var mid := api.s;
    assert !st.blocked ==> AllAble(api, st.members);
    var absent;
    absent, err := WithdrawConflictOutputs(api, st.members);
    if open { ShapeKeeps(mid, api.s, b.key); }
    if err.Some? {
      var cause := PatchApplyFailure(api, b, err.value);
      return false, Some(cause);
    }
    if !absent || st.blocked {
      ApplyWaiting(b, WaitingForAbsence, true);
      ConsistentIsOK(b.status);
      ghost var waiting := b.status;
      err := PatchStatus(api, b);
      ViewsAgree(b.status, waiting);
      return err.None?, err;
    }
    err := PublishConflict(api, b, st, config, start, self, plan, open);
  }

  method PublishConflict(api: Cluster, b: Binding, st: ConflictState, ghost config: Config, ghost start: State, ghost self: VariantRecord,
                         ghost plan: Plan, ghost open: bool) returns (err: Option<Err>)
    requires api.Valid() && st.conflicts != [] && !st.blocked && Enrolled(st.members, b.key)
    requires forall i | 0 <= i < |st.conflicts| ::
               st.conflicts[i].peerRef.namespace == b.key.namespace && Enrolled(st.members, st.conflicts[i].peerRef)
    requires Covering(api.rules) ==> forall k | Enrolled(st.members, k) :: StoredRecord(api.s, k).Unclaimed?
    requires open ==>
               && api.Calm() && self.ref == b.key && b.key in api.s.bindings
               && Diagnosed(config, start, self, plan, st.conflicts)
               && forall i | 0 <= i < |st.members| :: StoredRecord(api.s, st.members[i].key).Unclaimed?
    modifies api, b
    ensures api.Valid() && api.focus == old(api.focus)
    ensures err.None? ==> Persisted(api.s, b.key, b.status) && Holds(b.status, Conflict)
    ensures open ==> err.None? && ClashReported(config, start, api.s, self, plan, old(b.generation))
  {
    hide ClashReported, Diagnosed, Enrolled, GoodTrace, Inv, Frame, RecordOf, StoredRecord, Consistent, SameView, Persisted, Published;
    ghost var mid, before := api.s, b.status;
    if open {
      StoredVersion(api.rules, mid, b.key);
      ClashesUnclaimed(config, start, mid, self, plan, st.conflicts, st.members);
      EnrolledUnclaimed(mid, st.members, b.key);
      UnclaimedDecodes(mid, b.key);
      ClashReportedNow(config, start, mid, self, plan, b.generation, st.conflicts, before);
    }
    ApplyConflict(b, st.conflicts);
    ConsistentIsOK(b.status);
    SettledIsPublishable(api, b, st, b.status);
    ghost var settled := b.status;
    err := PatchStatus(api, b);
    ViewsAgree(b.status, settled);
  }

  lemma UnclaimedDecodes(s: State, k: Key)
    requires k in s.bindings && Decode(s.bindings[k].status).Some? && StoredRecord(s, k).Unclaimed?
    ensures Decode(s.bindings[k].status) == Some(Unclaimed)
  {
  }

  lemma ShapeKeeps(a: State, b: State, k: Key)
    requires SameShape(a, b) && k in a.bindings
    ensures k in b.bindings
  {
  }

  lemma EnrolledUnclaimed(s: State, members: seq<Binding>, k: Key)
    requires Enrolled(members, k) && forall i | 0 <= i < |members| :: StoredRecord(s, members[i].key).Unclaimed?
    ensures StoredRecord(s, k).Unclaimed?
  {
  }

  lemma ClashesUnclaimed(config: Config, a: State, s: State, self: VariantRecord, plan: Plan, conflicts: seq<VariantConflict>, members: seq<Binding>)
    requires Diagnosed(config, a, self, plan, conflicts)
    requires forall i | 0 <= i < |conflicts| :: Enrolled(members, conflicts[i].peerRef)
    requires forall i | 0 <= i < |members| :: StoredRecord(s, members[i].key).Unclaimed?
    ensures forall j | IsPeer(a, self.ref, j) && ClashWith(config, a, self, plan, j).Some? :: StoredRecord(s, j).Unclaimed?
  {
    hide StandingIn, StoredRecord, Enrolled, Pair;
    forall j | IsPeer(a, self.ref, j) && ClashWith(config, a, self, plan, j).Some? ensures StoredRecord(s, j).Unclaimed? {
      var c := ClashWith(config, a, self, plan, j).value;
      assert c in conflicts && c.peerRef == j;
      var i :| 0 <= i < |conflicts| && conflicts[i] == c;
      EnrolledUnclaimed(s, members, conflicts[i].peerRef);
    }
  }

  lemma EntriesMembers(conflicts: seq<VariantConflict>, e: ConflictEntry)
    ensures e in Entries(conflicts) <==> exists c :: c in conflicts && EntryOf(c) == e
  {
    if e in Entries(conflicts) {
      var i :| 0 <= i < |conflicts| && Entries(conflicts)[i] == e;
      assert conflicts[i] in conflicts && EntryOf(conflicts[i]) == e;
    }
    if exists c :: c in conflicts && EntryOf(c) == e {
      var c :| c in conflicts && EntryOf(c) == e;
      var i :| 0 <= i < |conflicts| && conflicts[i] == c;
      assert Entries(conflicts)[i] == e;
    }
  }

  // The published entries are those of the peers that clash.
  lemma EntriesExact(config: Config, a: State, self: VariantRecord, plan: Plan, conflicts: seq<VariantConflict>, e: ConflictEntry)
    requires Diagnosed(config, a, self, plan, conflicts)
    ensures e in Entries(conflicts) <==> exists j :: IsPeer(a, self.ref, j) && ClashEntry(config, a, self, plan, j) == Some(e)
  {
    hide ClashWith, Entries;
    EntriesMembers(conflicts, e);
    if e in Entries(conflicts) {
      var c :| c in conflicts && EntryOf(c) == e;
      var j :| IsPeer(a, self.ref, j) && ClashWith(config, a, self, plan, j) == Some(c);
      assert ClashEntry(config, a, self, plan, j) == Some(e);
    }
    if exists j :: IsPeer(a, self.ref, j) && ClashEntry(config, a, self, plan, j) == Some(e) {
      var j :| IsPeer(a, self.ref, j) && ClashEntry(config, a, self, plan, j) == Some(e);
      assert ClashWith(config, a, self, plan, j).value in conflicts;
    }
  }

  lemma ClashReportedNow(config: Config, a: State, s: State, self: VariantRecord, plan: Plan, gen: nat, conflicts: seq<VariantConflict>, status: Status)
    requires Diagnosed(config, a, self, plan, conflicts)
    requires self.ref in s.bindings && s.bindings[self.ref].key == self.ref && Decode(s.bindings[self.ref].status) == Some(Unclaimed)
    requires forall j | IsPeer(a, self.ref, j) && ClashWith(config, a, self, plan, j).Some? :: StoredRecord(s, j).Unclaimed?
    ensures ClashReported(config, a, Published(s, self.ref, ConflictStatus(status, gen, Entries(conflicts))), self, plan, gen)
  {
    hide ClashWith, Diagnosed, ClashEntry, Entries;
    var t := Published(s, self.ref, ConflictStatus(status, gen, Entries(conflicts)));
    var stored := t.bindings[self.ref].status;
    assert stored == Rebased(ConflictStatus(status, gen, Entries(conflicts)), s.bindings[self.ref].status);
    forall e ensures e in stored.conflicts <==> exists j :: IsPeer(a, self.ref, j) && ClashEntry(config, a, self, plan, j) == Some(e) {
      EntriesExact(config, a, self, plan, conflicts, e);
    }
  }
}
