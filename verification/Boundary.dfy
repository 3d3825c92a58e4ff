// Boundary exclusivity: the pairwise test, conflict evaluation over a whole
// namespace, and what "no conflict" means for pods.

module Boundary {
  import opened Types
  import opened Order
  import opened Selection
  import Render

  datatype VariantRecord = VariantRecord(ref: Key, serviceAccount: string, variant: string, spiffeID: string)

  datatype VariantConflict = VariantConflict(
    ref: Key, peerRef: Key, cause: Cause, peerSpiffeID: string, peerVariant: string)

  // Why two records are not exclusive, if they are not.
  function Pair(l: VariantRecord, r: VariantRecord): Option<Cause> {
    if l.spiffeID == r.spiffeID then Some(DuplicateSPIFFEID)
    else if l.ref.namespace != r.ref.namespace || l.serviceAccount != r.serviceAccount then None
    else if l.variant != r.variant then None
    else Some(VariantReuse)
  }

  function Directed(ref: Key, peer: VariantRecord, cause: Cause): VariantConflict {
    VariantConflict(ref, peer.ref, cause, peer.spiffeID, peer.variant)
  }

  // ------------------------------------------------------------ the comparator

  function CauseText(c: Cause): string {
    match c
    case VariantReuse => "VariantReuse"
    case DuplicateSPIFFEID => "DuplicateSPIFFEID"
  }

  // The compared fields, first to last.
  function Fields(c: VariantConflict): seq<string> {
    [c.ref.namespace, c.ref.name, c.peerRef.namespace, c.peerRef.name, CauseText(c.cause), c.peerSpiffeID, c.peerVariant]
  }

  predicate ConflictLe(a: VariantConflict, b: VariantConflict) {
    ListLe(Fields(a), Fields(b))
  }

  lemma FieldsInjective(a: VariantConflict, b: VariantConflict)
    requires Fields(a) == Fields(b)
    ensures a == b
  {
    assert forall i | 0 <= i < 7 :: Fields(a)[i] == Fields(b)[i];
    assert Fields(a)[0] == a.ref.namespace && Fields(a)[1] == a.ref.name;
    assert Fields(a)[4] == CauseText(a.cause) && Fields(b)[4] == CauseText(b.cause);
    assert CauseText(VariantReuse)[0] == 'V' && CauseText(DuplicateSPIFFEID)[0] == 'D';
  }

  // Because it compares every field, the comparator is a total order.
  lemma ConflictOrderIsTotal()
    ensures TotalOrder(ConflictLe)
  {
    hide Fields, ListLe;
    forall a, b
      ensures ConflictLe(a, a) && (ConflictLe(a, b) || ConflictLe(b, a)) && (ConflictLe(a, b) && ConflictLe(b, a) ==> a == b)
    {
      ListLeTotal(Fields(a), Fields(b));
      if Fields(a) == Fields(b) { FieldsInjective(a, b); }
    }
    forall a, b, c | ConflictLe(a, b) && ConflictLe(b, c) ensures ConflictLe(a, c) {
      ListLeTransitive(Fields(a), Fields(b), Fields(c));
    }
  }

  // ------------------------------------------------------------ evaluation

  // Both directions of a non-exclusive pair.
  function EmitPair(l: VariantRecord, r: VariantRecord): multiset<VariantConflict> {
    match Pair(l, r)
    case None => multiset{}
    case Some(cause) => multiset{Directed(l.ref, r, cause), Directed(r.ref, l, cause)}
  }

  function EmitRow(l: VariantRecord, rest: seq<VariantRecord>): multiset<VariantConflict> {
    if rest == [] then multiset{} else EmitPair(l, rest[0]) + EmitRow(l, rest[1..])
  }

  // Both directions of every non-exclusive pair.
  function Emitted(records: seq<VariantRecord>): multiset<VariantConflict> {
    if records == [] then multiset{} else EmitRow(records[0], records[1..]) + Emitted(records[1..])
  }

  ghost predicate IsEvaluation(records: seq<VariantRecord>, r: seq<VariantConflict>) {
    Sorted(ConflictLe, r) && multiset(r) == Emitted(records)
  }

  lemma RowStep(l: VariantRecord, records: seq<VariantRecord>, j: nat)
    requires j < |records|
    ensures EmitRow(l, records[j..]) == EmitPair(l, records[j]) + EmitRow(l, records[j + 1..])
  {
    assert records[j..][1..] == records[j + 1..];
  }

  lemma EmittedStep(records: seq<VariantRecord>, i: nat)
    requires i < |records|
    ensures Emitted(records[i..]) == EmitRow(records[i], records[i + 1..]) + Emitted(records[i + 1..])
  {
    assert records[i..][1..] == records[i + 1..];
  }

  method EvaluateVariantConflicts(records: seq<VariantRecord>) returns (conflicts: seq<VariantConflict>)
    ensures IsEvaluation(records, conflicts)
  {
    hide Pair, Directed, Emitted, EmitRow, EmitPair;
    conflicts := [];
    assert records[0..] == records;
    for i := 0 to |records|
      invariant multiset(conflicts) + Emitted(records[i..]) == Emitted(records)
    {
      var left := records[i];
      EmittedStep(records, i);
      ghost var later := Emitted(records[i + 1..]);
      for j := i + 1 to |records|
        invariant multiset(conflicts) + EmitRow(left, records[j..]) + later == Emitted(records)
      {
        var right := records[j];
        RowStep(left, records, j);
        var cause := Pair(left, right);
        EmitPairIs(conflicts, left, right);
        if cause.Some? {
          conflicts := conflicts + [Directed(left.ref, right, cause.value), Directed(right.ref, left, cause.value)];
        }
      }
      NothingLeft(left, records);
    }
    ConflictOrderIsTotal();
    conflicts := Sort(ConflictLe, conflicts);
    assert records[|records|..] == [] && Emitted([]) == multiset{} by { EmittedEmpty(); }
  }

  lemma EmitPairIs(s: seq<VariantConflict>, l: VariantRecord, r: VariantRecord)
    ensures match Pair(l, r)
            case None => EmitPair(l, r) == multiset{}
            case Some(cause) => multiset(s + [Directed(l.ref, r, cause), Directed(r.ref, l, cause)]) == multiset(s) + EmitPair(l, r)
  {
    hide Pair, Directed;
  }

  lemma NothingLeft(l: VariantRecord, records: seq<VariantRecord>)
    ensures EmitRow(l, records[|records|..]) == multiset{} == Emitted(records[|records|..])
  {
  }

  lemma EmittedEmpty()
    ensures Emitted([]) == multiset{}
  {
  }

  // ------------------------------------------------------------ order independence

  lemma PairSymmetric(l: VariantRecord, r: VariantRecord)
    ensures Pair(l, r) == Pair(r, l) && EmitPair(l, r) == EmitPair(r, l)
  {
  }

  lemma {:induction false} RowMovesFront(l: VariantRecord, p: seq<VariantRecord>, x: VariantRecord, q: seq<VariantRecord>)
    ensures EmitRow(l, p + [x] + q) == EmitPair(l, x) + EmitRow(l, p + q)
  {
    hide EmitPair;
    if p == [] {
      assert p + [x] + q == [x] + q && ([x] + q)[1..] == q && p + q == q;
    } else {
      RowMovesFront(l, p[1..], x, q);
      assert (p + [x] + q)[1..] == p[1..] + [x] + q && (p + q)[1..] == p[1..] + q;
    }
  }

  lemma {:induction false} EmittedMovesFront(p: seq<VariantRecord>, x: VariantRecord, q: seq<VariantRecord>)
    ensures Emitted(p + [x] + q) == EmitRow(x, p + q) + Emitted(p + q)
  {
    hide EmitPair, EmitRow, Emitted;
    if p == [] {
      assert p + [x] + q == [x] + q && p + q == q;
      EmittedHead(x, q);
    } else {
      var t := p[1..];
      EmittedMovesFront(t, x, q);
      RowMovesFront(p[0], t, x, q);
      RowHead(x, p[0], t + q);
      PairSymmetric(p[0], x);
      assert p + [x] + q == [p[0]] + (t + [x] + q) && p + q == [p[0]] + (t + q);
      EmittedHead(p[0], t + [x] + q);
      EmittedHead(p[0], t + q);
    }
  }

  lemma RowHead(l: VariantRecord, r: VariantRecord, rest: seq<VariantRecord>)
    ensures EmitRow(l, [r] + rest) == EmitPair(l, r) + EmitRow(l, rest)
  {
    assert ([r] + rest)[1..] == rest;
  }

  lemma EmittedHead(r: VariantRecord, rest: seq<VariantRecord>)
    ensures Emitted([r] + rest) == EmitRow(r, rest) + Emitted(rest)
  {
    assert ([r] + rest)[1..] == rest;
  }

  lemma RemoveOne<T>(b: seq<T>, x: T, m: multiset<T>) returns (i: nat)
    requires multiset(b) == multiset{x} + m
    ensures i < |b| && b[i] == x && b == b[..i] + [x] + b[i + 1..] && multiset(b[..i] + b[i + 1..]) == m
  {
    assert x in multiset(b);
    i :| 0 <= i < |b| && b[i] == x;
    var front, back := b[..i], b[i + 1..];
    assert b == front + [x] + back;
    assert multiset(b) == multiset(front) + multiset{x} + multiset(back);
    CancelOne(multiset(front) + multiset(back), m, x);
    assert multiset(front + back) == multiset(front) + multiset(back);
  }

  lemma CancelOne<T>(a: multiset<T>, b: multiset<T>, x: T)
    requires a + multiset{x} == multiset{x} + b
    ensures a == b
  {
    assert a == (a + multiset{x}) - multiset{x};
    assert b == (multiset{x} + b) - multiset{x};
  }

  lemma {:induction false} RowPermutes(l: VariantRecord, a: seq<VariantRecord>, b: seq<VariantRecord>)
    requires multiset(a) == multiset(b)
    ensures EmitRow(l, a) == EmitRow(l, b)
  {
    hide EmitPair;
    assert |a| == |multiset(a)| == |multiset(b)| == |b|;
    if a != [] {
      HeadTail(a);
      var i := RemoveOne(b, a[0], multiset(a[1..]));
      RowMovesFront(l, b[..i], a[0], b[i + 1..]);
      RowPermutes(l, a[1..], b[..i] + b[i + 1..]);
    }
  }

  lemma {:induction false} EmittedPermutes(a: seq<VariantRecord>, b: seq<VariantRecord>)
    requires multiset(a) == multiset(b)
    ensures Emitted(a) == Emitted(b)
  {
    hide EmitPair;
    assert |a| == |multiset(a)| == |multiset(b)| == |b|;
    if a != [] {
      HeadTail(a);
      var i := RemoveOne(b, a[0], multiset(a[1..]));
      EmittedMovesFront(b[..i], a[0], b[i + 1..]);
      RowPermutes(a[0], a[1..], b[..i] + b[i + 1..]);
      EmittedPermutes(a[1..], b[..i] + b[i + 1..]);
    }
  }

  // Every order of the input gives the identical result.
  lemma EvaluationIsOrderIndependent(a: seq<VariantRecord>, b: seq<VariantRecord>, ra: seq<VariantConflict>, rb: seq<VariantConflict>)
    requires multiset(a) == multiset(b) && IsEvaluation(a, ra) && IsEvaluation(b, rb)
    ensures ra == rb
  {
    ConflictOrderIsTotal();
    EmittedPermutes(a, b);
    SortedFormUnique(ConflictLe, ra, rb);
  }

  // ------------------------------------------------------------ exactness

  predicate PairYields(l: VariantRecord, r: VariantRecord, c: VariantConflict) {
    Pair(l, r).Some? && c == Directed(l.ref, r, Pair(l, r).value)
  }

  lemma {:induction false} RowMembers(l: VariantRecord, rest: seq<VariantRecord>, c: VariantConflict)
    ensures c in EmitRow(l, rest) <==> exists j | 0 <= j < |rest| :: PairYields(l, rest[j], c) || PairYields(rest[j], l, c)
  {
    hide PairYields, EmitPair;
    if rest != [] {
      var tail := rest[1..];
      RowMembers(l, tail, c);
      PairMembers(l, rest[0], c);
      assert forall j | 0 <= j < |tail| :: tail[j] == rest[j + 1];
      if exists j | 0 <= j < |rest| :: PairYields(l, rest[j], c) || PairYields(rest[j], l, c) {
        var j :| 0 <= j < |rest| && (PairYields(l, rest[j], c) || PairYields(rest[j], l, c));
        if j > 0 { assert tail[j - 1] == rest[j]; }
      }
    }
  }

  lemma PairMembers(l: VariantRecord, r: VariantRecord, c: VariantConflict)
    ensures c in EmitPair(l, r) <==> PairYields(l, r, c) || PairYields(r, l, c)
  {
    PairSymmetric(l, r);
  }

  // A conflict is reported exactly for the non-exclusive pairs, in each direction.
  lemma {:induction false} EmittedMembers(records: seq<VariantRecord>, c: VariantConflict)
    ensures c in Emitted(records) <==>
              exists i, j | 0 <= i < |records| && 0 <= j < |records| && i != j :: PairYields(records[i], records[j], c)
  {
    hide PairYields, EmitRow;
    if records != [] {
      var rest := records[1..];
      RowMembers(records[0], rest, c);
      EmittedMembers(rest, c);
      assert forall j | 0 <= j < |rest| :: rest[j] == records[j + 1];
      if exists i, j | 0 <= i < |records| && 0 <= j < |records| && i != j :: PairYields(records[i], records[j], c) {
        var i, j :| 0 <= i < |records| && 0 <= j < |records| && i != j && PairYields(records[i], records[j], c);
        if i == 0 { assert PairYields(records[0], rest[j - 1], c); }
        else if j == 0 { assert PairYields(rest[i - 1], records[0], c); }
        else { assert PairYields(rest[i - 1], rest[j - 1], c); }
      }
    }
  }

  // ------------------------------------------------------------ rendered records

  // The record the controller evaluates for a binding named `name` planned as i.
  function RecordFor(i: Render.PlanInput, name: string): VariantRecord
    requires Render.PlanOf(i).Planned?
  {
    VariantRecord(Key(i.namespace, name), i.serviceAccount, Render.PlanOf(i).plan.variant, Render.PlanOf(i).plan.spiffeID)
  }

  predicate SameBoundary(i: Render.PlanInput, j: Render.PlanInput) {
    i.namespace == j.namespace && i.serviceAccount == j.serviceAccount && i.variant == j.variant
  }

  // Under one trust domain two rendered bindings conflict exactly when namespace,
  // service account and variant agree; the cause tells whether the pool agrees too.
  lemma ConflictIsSameBoundary(i: Render.PlanInput, m: string, j: Render.PlanInput, n: string)
    requires Render.PlanOf(i).Planned? && Render.PlanOf(j).Planned? && i.trustDomain == j.trustDomain
    requires Render.PathSafe(i) && Render.PathSafe(j)
    ensures Pair(RecordFor(i, m), RecordFor(j, n)).Some? <==> SameBoundary(i, j)
    ensures Pair(RecordFor(i, m), RecordFor(j, n)) == Some(DuplicateSPIFFEID) <==>
              SameBoundary(i, j) && i.target.anchor == j.target.anchor
  {
    hide Render.PlanOf;
    Render.PlannedSegments(i);
    Render.PlannedSegments(j);
    Render.SPIFFEIDInjective(i, j);
  }

  // The bindings a member sees in conflict with itself, itself included.
  ghost function Group(plans: seq<Render.PlanInput>, names: seq<string>, i: nat): set<nat>
    requires |plans| == |names| && i < |plans| && forall k | 0 <= k < |plans| :: Render.PlanOf(plans[k]).Planned?
  {
    set k: nat | k < |plans| && (k == i || Pair(RecordFor(plans[i], names[i]), RecordFor(plans[k], names[k])).Some?)
  }

  // Every member of a conflict computes the same group.
  lemma GroupsAgree(plans: seq<Render.PlanInput>, names: seq<string>, i: nat, j: nat)
    requires |plans| == |names| && i < |plans| && j < |plans|
    requires forall k | 0 <= k < |plans| :: Render.PlanOf(plans[k]).Planned? && Render.PathSafe(plans[k])
    requires forall k | 0 <= k < |plans| :: plans[k].trustDomain == plans[i].trustDomain
    requires j in Group(plans, names, i)
    ensures Group(plans, names, i) == Group(plans, names, j)
  {
    hide Render.PlanOf, Pair;
    if i != j {
      forall k: nat | k < |plans|
        ensures Pair(RecordFor(plans[i], names[i]), RecordFor(plans[k], names[k])).Some? <==> SameBoundary(plans[i], plans[k])
        ensures Pair(RecordFor(plans[j], names[j]), RecordFor(plans[k], names[k])).Some? <==> SameBoundary(plans[j], plans[k])
      {
        ConflictIsSameBoundary(plans[i], names[i], plans[k], names[k]);
        ConflictIsSameBoundary(plans[j], names[j], plans[k], names[k]);
      }
    }
  }

  // Structural exclusivity is sound: when no conflict is reported, no pod can
  // match both rendered selector sets.
  lemma ExclusiveMeansDisjoint(i: Render.PlanInput, m: string, j: Render.PlanInput, n: string, pod: Pod)
    requires Render.PlanOf(i).Planned? && Render.PlanOf(j).Planned? && i.namespace != "" && j.namespace != ""
    requires Pair(RecordFor(i, m), RecordFor(j, n)).None?
    ensures !(PodMatches(pod, Parse(Render.PlanOf(i).plan.selectors)) && PodMatches(pod, Parse(Render.PlanOf(j).plan.selectors)))
  {
    Render.PlannedSegments(i);
    Render.PlannedSegments(j);
    hide Render.PlanOf, Parse, PodMatches;
    Render.PlanIsConfined(i);
    Render.PlanIsConfined(j);
  }
}
