// Peers that do not stand in the way: with nothing else going on, comparing the
// namespace finds no conflict and at most tidies the records of peers.

module Quiet {
  import opened Types
  import opened Statuses
  import opened Store
  import opened Client
  import opened Ownership
  import opened Output
  import opened Boundary
  import opened Peers

  // Peer j is exclusive with the planned binding, or holds no output and is on
  // its way out or cannot be rendered.
  ghost predicate Harmless(config: Config, s: State, self: VariantRecord, j: Key)
    requires j in s.bindings
  {
    var v := s.bindings[j];
    var r := RenderingOf(config, s, j, v.spec);
    || (!Live(s, RecordOf(v.status)) && (v.deleting || r.Fails?))
    || (r.Plans? && Pair(self, VariantRecordOf(j, v.spec, r.plan)).None?)
  }

  // Assessing peer j would not write.
  ghost predicate Resting(config: Config, s: State, j: Key)
    requires j in s.bindings
  {
    s.bindings[j].deleting || RenderingOf(config, s, j, s.bindings[j].spec).Fails? ==> Tidy(s, RecordOf(s.bindings[j].status))
  }

  predicate IsPeer(s: State, key: Key, j: Key) {
    j in s.bindings && j.namespace == key.namespace && j != key
  }

  ghost predicate PeersHarmless(config: Config, s: State, self: VariantRecord) {
    forall j | IsPeer(s, self.ref, j) :: Harmless(config, s, self, j)
  }

  ghost predicate PeersResting(config: Config, s: State, key: Key) {
    forall j | IsPeer(s, key, j) :: Resting(config, s, j)
  }

  // ------------------------------------------------------------ live output of others

  // The live output of a recorded binding is its own.
  lemma LiveIsOwn(r: Rules, s: State, j: Key)
    requires Inv(r, s) && j in s.bindings && Live(s, StoredRecord(s, j))
    ensures Owns(s, j, s.objects[StoredRecord(s, j).name].uid)
  {
    hide Covered, Exclusive, Walled, EffectsOK, StatusOK;
    assert Attributed(s, s.bindings[j]);
    hide RecordOf, Decode;
  }

  // Changes to binding k and its objects leave the live output of others alone.
  lemma LiveElsewhere(r: Rules, a: State, b: State, k: Key, j: Key)
    requires Inv(r, a) && Inv(r, b) && Local(a, b, k) && j != k && j in a.bindings
    ensures j in b.bindings && b.bindings[j] == a.bindings[j] && Live(b, StoredRecord(b, j)) == Live(a, StoredRecord(a, j))
  {
    hide Inv, RecordOf;
    if Live(a, StoredRecord(a, j)) { LiveIsOwn(r, a, j); }
    if Live(b, StoredRecord(b, j)) { LiveIsOwn(r, b, j); }
  }

  // No created output of the namespace is held by a finalizer.
  ghost predicate NothingHeld(s: State, namespace: string) {
    forall n | Made(s, n) && MakerOf(s, n).namespace == namespace :: !s.objects[n].held
  }

  lemma NothingHeldIsUnheld(r: Rules, s: State, k: Key)
    requires Inv(r, s) && k in s.bindings && NothingHeld(s, k.namespace)
    ensures Unheld(s, StoredRecord(s, k))
  {
    hide Inv, RecordOf;
    if Live(s, StoredRecord(s, k)) { LiveIsOwn(r, s, k); }
  }

  lemma NothingHeldKept(a: State, b: State, namespace: string)
    requires NothingHeld(a, namespace) && Shrunk(a, b) && a.created == b.created
    ensures NothingHeld(b, namespace)
  {
    forall n | Made(b, n) && MakerOf(b, n).namespace == namespace ensures !b.objects[n].held {
      assert Made(a, n);
    }
  }

  // ------------------------------------------------------------ one peer

  // Whether a peer is harmless or resting depends on pools, objects and its own version.
  lemma SameForPeer(config: Config, a: State, b: State, self: VariantRecord, j: Key)
    requires a.pools == b.pools && a.objects == b.objects && j in a.bindings && j in b.bindings && a.bindings[j] == b.bindings[j]
    ensures Harmless(config, a, self, j) == Harmless(config, b, self, j)
    ensures Resting(config, a, j) == Resting(config, b, j)
  {
    RenderingFromPools(config, a, b, j, a.bindings[j].spec);
    hide RenderingOf;
  }

  lemma HarmlessStanding(config: Config, s: State, self: VariantRecord, plan: Plan, p: Stored, st: Standing, err: Option<Err>)
    requires p.key in s.bindings && s.bindings[p.key] == p && p.key != self.ref
    requires Harmless(config, s, self, p.key) && StandsAs(config, s, self.ref, plan, p, st, err)
    ensures err.None? && !st.Blocking?
    ensures st.Relevant? ==> Pair(self, VariantRecordOf(p.key, p.spec, st.plan)).None?
  {
    hide RenderingOf, Pair, Live;
  }

  lemma TendedPeer(config: Config, a: State, b: State, self: VariantRecord, p: Stored)
    requires p.key in a.bindings && a.bindings[p.key] == p && p.key != self.ref
    requires Harmless(config, a, self, p.key) && Tended(config, a, b, self.ref, p)
    ensures p.key in b.bindings && Harmless(config, b, self, p.key) && Resting(config, b, p.key)
    ensures Resting(config, a, p.key) ==> b == a
  {
    RenderingFromPools(config, a, b, p.key, p.spec);
    hide RenderingOf, Pair, Live, RecordOf;
  }

  // ------------------------------------------------------------ the whole list

  // From l to s only the statuses of the first i listed bindings changed, and that
  // of `key` only if it is being deleted.
  ghost predicate Swept(l: State, s: State, key: Key, items: seq<Stored>, i: nat) {
    && s == l.(bindings := s.bindings, nextRv := s.nextRv, claims := s.claims, past := s.past)
    && (forall k :: k in l.bindings <==> k in s.bindings)
    && (forall k | k in l.bindings && ((k == key && !l.bindings[k].deleting) || !Before(items, i, k)) :: s.bindings[k] == l.bindings[k])
    && (forall k | k in l.bindings :: s.bindings[k] == l.bindings[k].(rv := s.bindings[k].rv, status := s.bindings[k].status))
  }

  // The records compared so far name each binding once and are exclusive with self.
  ghost predicate Clear(self: VariantRecord, items: seq<Stored>, i: nat, records: seq<VariantRecord>) {
    && (forall a | 0 <= a < |records| ::
          Before(items, i, records[a].ref) && (records[a] == self || (records[a].ref != self.ref && Pair(self, records[a]).None?)))
    && (forall a, b | 0 <= a < b < |records| :: records[a].ref != records[b].ref)
  }

  ghost predicate Sweep(config: Config, l: State, s: State, self: VariantRecord, items: seq<Stored>, i: nat, records: seq<VariantRecord>) {
    && i <= |items| && Tending(l, s, self.ref, items, i) && Clear(self, items, i, records)
    && (forall j | IsPeer(s, self.ref, j) :: Harmless(config, s, self, j))
    && (forall j | IsPeer(s, self.ref, j) && Before(items, i, j) :: Resting(config, s, j))
    && (PeersResting(config, l, self.ref) && !Marked(l, self.ref) ==> s == l)
  }

  // The first i listed bindings have been tended: nothing was orphaned, and the own
  // record of a deleting binding was tidied.
  ghost predicate Tending(l: State, s: State, key: Key, items: seq<Stored>, i: nat) {
    Swept(l, s, key, items, i) && (NoOrphans(l) ==> NoOrphans(s)) && SelfTidied(l, s, key, items, i)
  }

  predicate Marked(s: State, k: Key) {
    k in s.bindings && s.bindings[k].deleting
  }

  // A deleting binding's own record is tidied like that of a peer.
  ghost predicate SelfTidied(l: State, s: State, k: Key, items: seq<Stored>, i: nat) {
    && Live(s, StoredRecord(s, k)) == Live(l, StoredRecord(l, k))
    && (Marked(l, k) && Before(items, i, k) ==> Tidy(s, StoredRecord(s, k)))
  }

  // Tending a binding makes no orphan.
  lemma TendedOrphans(config: Config, s: State, t: State, key: Key, p: Stored)
    requires Tended(config, s, t, key, p) && p.key in s.bindings && s.bindings[p.key] == p && NoOrphans(s)
    requires forall n | n in s.objects :: s.objects[n].name == n
    ensures NoOrphans(t)
  {
    hide RenderingOf, RecordOf, Tidy;
    forall n | Made(t, n) ensures Covers(StoredRecord(t, MakerOf(t, n)), t.objects[n]) {
      assert Made(s, n) && Covers(StoredRecord(s, MakerOf(s, n)), s.objects[n]);
    }
  }

  lemma TidiedStep(config: Config, l: State, s: State, t: State, key: Key, items: seq<Stored>, i: nat)
    requires SelfTidied(l, s, key, items, i) && i < |items| && Tended(config, s, t, key, items[i])
    requires items[i].key in s.bindings && s.bindings[items[i].key] == items[i]
    requires items[i].key == key ==> key in l.bindings && l.bindings[key].deleting == items[i].deleting
    ensures SelfTidied(l, t, key, items, i + 1)
  {
    hide RenderingOf, RecordOf, Outlives;
    if Before(items, i + 1, key) && items[i].key != key { assert Before(items, i, key); }
  }

  lemma TendingStep(config: Config, l: State, s: State, t: State, key: Key, items: seq<Stored>, i: nat)
    requires Tending(l, s, key, items, i) && i < |items| && Tended(config, s, t, key, items[i])
    requires items[i].key in l.bindings && l.bindings[items[i].key] == items[i] && items[i].key in s.bindings && s.bindings[items[i].key] == items[i]
    requires forall n | n in l.objects :: l.objects[n].name == n
    ensures Tending(l, t, key, items, i + 1)
  {
    hide RenderingOf, Live, Tidy, SelfTidied, NoOrphans, Outlives, RecordOf;
    TidiedStep(config, l, s, t, key, items, i);
    if NoOrphans(s) { TendedOrphans(config, s, t, key, items[i]); }
    SweptStep(config, l, s, t, key, items, i);
  }

  // What the comparison leaves when it raises no conflict: nothing is orphaned; unless it
  // is being deleted, the binding's own version is untouched; otherwise its record is tidied.
  ghost predicate Passed(a: State, b: State, key: Key) {
    && b == a.(bindings := b.bindings, nextRv := b.nextRv, claims := b.claims, past := b.past) && SameShape(a, b)
    && (NoOrphans(a) ==> NoOrphans(b)) && Live(b, StoredRecord(b, key)) == Live(a, StoredRecord(a, key))
    && if Marked(a, key) then Tidy(b, StoredRecord(b, key)) else key in a.bindings ==> b.bindings[key] == a.bindings[key]
  }

  lemma TendingIsPassed(l: State, s: State, key: Key, items: seq<Stored>)
    requires Tending(l, s, key, items, |items|) && Listing(l, key.namespace, items) && (forall k | k in l.bindings :: l.bindings[k].key == k)
    ensures Passed(l, s, key)
  {
    hide NoOrphans, Live, Tidy, RecordOf;
    if key in l.bindings {
      var i :| 0 <= i < |items| && items[i] == l.bindings[key];
      assert items[i].key == key;
      assert Before(items, |items|, key);
    }
  }

  lemma SweepStart(config: Config, l: State, self: VariantRecord, items: seq<Stored>)
    requires PeersHarmless(config, l, self)
    ensures Sweep(config, l, l, self, items, 0, [])
  {
    hide Harmless, Resting;
  }

  lemma SweptStep(config: Config, l: State, s: State, t: State, key: Key, items: seq<Stored>, i: nat)
    requires Swept(l, s, key, items, i) && i < |items| && OnlyBinding(s, t, items[i].key)
    requires items[i].key in l.bindings && l.bindings[items[i].key] == items[i] && (items[i].key != key || items[i].deleting || t == s)
    ensures Swept(l, t, key, items, i + 1)
  {
    forall k | Before(items, i, k) ensures Before(items, i + 1, k) {}
    assert Before(items, i + 1, items[i].key);
  }

  lemma ClearStep(self: VariantRecord, items: seq<Stored>, i: nat, records: seq<VariantRecord>, st: Standing)
    requires Clear(self, items, i, records) && i < |items| && Distinct(items)
    requires st.Relevant? ==> var x := VariantRecordOf(items[i].key, items[i].spec, st.plan);
               x == self || (x.ref != self.ref && Pair(self, x).None?)
    ensures Clear(self, items, i + 1, Added(records, items[i].key, items[i].spec, st))
  {
    hide Pair;
    forall k | Before(items, i, k) ensures Before(items, i + 1, k) && k != items[i].key {}
    assert Before(items, i + 1, items[i].key);
  }

  // The listed version at i has not been touched when its turn comes.
  lemma NextIsUntouched(l: State, s: State, namespace: string, key: Key, items: seq<Stored>, i: nat)
    requires Swept(l, s, key, items, i) && i < |items| && Distinct(items) && Listing(l, namespace, items)
    ensures items[i].key in s.bindings && s.bindings[items[i].key] == items[i]
  {
    assert !Before(items, i, items[i].key);
  }

  lemma TendingNext(l: State, s: State, namespace: string, key: Key, items: seq<Stored>, i: nat)
    requires Tending(l, s, key, items, i) && i < |items| && Distinct(items) && Listing(l, namespace, items)
    ensures items[i].key in l.bindings && l.bindings[items[i].key] == items[i] && items[i].key in s.bindings && s.bindings[items[i].key] == items[i]
    ensures s.pools == l.pools && s.objects == l.objects
  {
    hide SelfTidied, NoOrphans;
    NextIsUntouched(l, s, namespace, key, items, i);
  }

  // One more assessment: the peer raises no error, blocks nothing and stays exclusive.
  lemma SweepStep(config: Config, l: State, s: State, t: State, self: VariantRecord, plan: Plan, items: seq<Stored>, i: nat,
                  records: seq<VariantRecord>, st: Standing, err: Option<Err>)
    requires Sweep(config, l, s, self, items, i, records) && i < |items| && Distinct(items) && Listing(l, self.ref.namespace, items)
    requires items[i].key.namespace == self.ref.namespace
    requires items[i].key == self.ref ==> VariantRecordOf(self.ref, items[i].spec, plan) == self
    requires forall n | n in l.objects :: l.objects[n].name == n
    requires Tended(config, s, t, self.ref, items[i]) && StandsAs(config, s, self.ref, plan, items[i], st, err)
    ensures err.None? && !st.Blocking?
    ensures Sweep(config, l, t, self, items, i + 1, Added(records, items[i].key, items[i].spec, st))
  {
    hide Harmless, Resting, Pair, Distinct, Clear, RenderingOf, Live, Tidy, Outlives, Tending, Listing, RecordOf;
    TendingNext(l, s, self.ref.namespace, self.ref, items, i);
    TendingStep(config, l, s, t, self.ref, items, i);
    var k := items[i].key;
    if k != self.ref {
      assert IsPeer(s, self.ref, k);
      HarmlessStanding(config, s, self, plan, items[i], st, err);
      TendedPeer(config, s, t, self, items[i]);
    }
    ClearStep(self, items, i, records, st);
    PeersStep(config, s, t, self, items, i);
    assert PeersResting(config, l, self.ref) && !Marked(l, self.ref) ==> t == l;
  }

  lemma PeersStep(config: Config, s: State, t: State, self: VariantRecord, items: seq<Stored>, i: nat)
    requires i < |items| && OnlyBinding(s, t, items[i].key)
    requires forall j | IsPeer(s, self.ref, j) :: Harmless(config, s, self, j)
    requires forall j | IsPeer(s, self.ref, j) && Before(items, i, j) :: Resting(config, s, j)
    requires IsPeer(t, self.ref, items[i].key) ==> Harmless(config, t, self, items[i].key) && Resting(config, t, items[i].key)
    ensures forall j | IsPeer(t, self.ref, j) :: Harmless(config, t, self, j)
    ensures forall j | IsPeer(t, self.ref, j) && Before(items, i + 1, j) :: Resting(config, t, j)
  {
    hide Harmless, Resting;
    forall j | IsPeer(t, self.ref, j)
      ensures Harmless(config, t, self, j) && (Before(items, i + 1, j) ==> Resting(config, t, j))
    {
      if j != items[i].key { SameForPeer(config, s, t, self, j); }
    }
  }

  // After the last one: no conflict, and every peer rests.
  lemma SweepEnd(config: Config, l: State, s: State, self: VariantRecord, items: seq<Stored>, records: seq<VariantRecord>)
    requires Sweep(config, l, s, self, items, |items|, records) && Listing(l, self.ref.namespace, items)
    requires forall k | k in l.bindings :: l.bindings[k].key == k
    ensures PeersHarmless(config, s, self) && PeersResting(config, s, self.ref)
  {
    hide Harmless, Resting, Clear;
    forall j | IsPeer(s, self.ref, j) ensures Resting(config, s, j) {
      var n :| 0 <= n < |items| && items[n] == l.bindings[j];
      assert items[n].key == j;
      assert Before(items, |items|, j);
    }
  }

  lemma ClearMeansNoConflict(self: VariantRecord, items: seq<Stored>, i: nat, records: seq<VariantRecord>, all: seq<VariantConflict>, c: VariantConflict)
    requires Clear(self, items, i, records) && multiset(all) == Emitted(records) && c in all
    ensures c.ref != self.ref
  {
    assert c in multiset(all);
    EmittedMembers(records, c);
    var a, b :| 0 <= a < |records| && 0 <= b < |records| && a != b && PairYields(records[a], records[b], c);
    assert records[a].ref != records[b].ref;
  }

  // ------------------------------------------------------------ what the conflict phase needs

  // Nothing in this namespace stands in the way of the planned binding.
  ghost predicate Unhindered(config: Config, s: State, self: VariantRecord, plan: Plan, items: seq<Stored>) {
    && Listing(s, self.ref.namespace, items) && Distinct(items) && PeersHarmless(config, s, self)
    && (forall k | k in s.bindings :: s.bindings[k].key == k) && (forall n | n in s.objects :: s.objects[n].name == n)
    && (forall i | 0 <= i < |items| ::
          && items[i].key.namespace == self.ref.namespace
          && (items[i].key == self.ref ==> VariantRecordOf(self.ref, items[i].spec, plan) == self))
  }

  lemma UnhinderedStart(config: Config, s: State, self: VariantRecord, plan: Plan, items: seq<Stored>)
    requires Unhindered(config, s, self, plan, items)
    ensures Sweep(config, s, s, self, items, 0, [])
  {
    hide PeersHarmless, Listing, Distinct, Sweep;
    SweepStart(config, s, self, items);
  }

  // The sweep from an unhindered start, ready for its next item.
  lemma SweepNext(config: Config, l: State, s: State, self: VariantRecord, plan: Plan, items: seq<Stored>, i: nat, records: seq<VariantRecord>)
    requires Unhindered(config, l, self, plan, items) && Sweep(config, l, s, self, items, i, records) && i < |items|
    ensures items[i].key in s.bindings && s.bindings[items[i].key] == items[i]
  {
    hide PeersHarmless, Listing, Distinct, Clear, Swept;
    NextIsUntouched(l, s, self.ref.namespace, self.ref, items, i);
  }

  lemma SweepOn(config: Config, l: State, s: State, t: State, self: VariantRecord, plan: Plan, items: seq<Stored>, i: nat,
                records: seq<VariantRecord>, st: Standing, err: Option<Err>)
    requires Unhindered(config, l, self, plan, items) && Sweep(config, l, s, self, items, i, records) && i < |items|
    requires Tended(config, s, t, self.ref, items[i]) && StandsAs(config, s, self.ref, plan, items[i], st, err)
    ensures err.None? && !st.Blocking?
    ensures Sweep(config, l, t, self, items, i + 1, Added(records, items[i].key, items[i].spec, st))
  {
    hide PeersHarmless, Listing, Distinct, Sweep, Tended, StandsAs;
    SweepStep(config, l, s, t, self, plan, items, i, records, st, err);
  }

  lemma SweepDone(config: Config, l: State, s: State, self: VariantRecord, plan: Plan, items: seq<Stored>,
                  records: seq<VariantRecord>, all: seq<VariantConflict>)
    requires Unhindered(config, l, self, plan, items) && Sweep(config, l, s, self, items, |items|, records) && multiset(all) == Emitted(records)
    ensures PeersHarmless(config, s, self) && PeersResting(config, s, self.ref)
    ensures forall c | c in all :: c.ref != self.ref
    ensures Passed(l, s, self.ref) && (PeersResting(config, l, self.ref) && !Marked(l, self.ref) ==> s == l)
  {
    hide PeersHarmless, PeersResting, Listing, Distinct, Clear, Tending, Passed;
    TendingIsPassed(l, s, self.ref, items);
    SweepEnd(config, l, s, self, items, records);
    forall c | c in all ensures c.ref != self.ref { ClearMeansNoConflict(self, items, |items|, records, all, c); }
  }

  // A comparison without consequence: it passes, peers end up at rest, and nothing at all
  // happens when they were at rest before and the binding is not being deleted.
  ghost predicate Uneventful(config: Config, a: State, b: State, self: VariantRecord) {
    && Passed(a, b, self.ref) && PeersHarmless(config, b, self) && PeersResting(config, b, self.ref)
    && (PeersResting(config, a, self.ref) && !Marked(a, self.ref) ==> b == a)
  }

  // ------------------------------------------------------------ a full comparison

  // The records of the listed bindings that take part, in list order.
  ghost function Compared(config: Config, l: State, key: Key, plan: Plan, items: seq<Stored>): seq<VariantRecord> {
    if items == [] then []
    else
      var p := items[|items| - 1];
      var st := StandingIn(config, l, key, plan, p);
      Added(Compared(config, l, key, plan, items[..|items| - 1]), p.key, p.spec, if st.Some? then st.value else Ignored)
  }

  // Every listed binding can be told apart, and none blocks.
  ghost predicate Decidable(config: Config, l: State, key: Key, plan: Plan, items: seq<Stored>) {
    && Listing(l, key.namespace, items) && Distinct(items) && (forall n | n in l.objects :: l.objects[n].name == n)
    && (forall i | 0 <= i < |items| ::
          StandingIn(config, l, key, plan, items[i]).Some? && !StandingIn(config, l, key, plan, items[i]).value.Blocking?)
  }

  ghost predicate Scan(config: Config, l: State, s: State, key: Key, plan: Plan, items: seq<Stored>, i: nat, records: seq<VariantRecord>) {
    i <= |items| && Tending(l, s, key, items, i) && records == Compared(config, l, key, plan, items[..i])
  }

  lemma ScanStart(config: Config, l: State, key: Key, plan: Plan, items: seq<Stored>)
    ensures Scan(config, l, l, key, plan, items, 0, [])
  {
  }

  lemma ScanNext(config: Config, l: State, s: State, key: Key, plan: Plan, items: seq<Stored>, i: nat, records: seq<VariantRecord>)
    requires Decidable(config, l, key, plan, items) && Scan(config, l, s, key, plan, items, i, records) && i < |items|
    ensures items[i].key in s.bindings && s.bindings[items[i].key] == items[i]
  {
    hide StandingIn, Listing, Distinct, Compared, NoOrphans, SelfTidied, Swept;
    NextIsUntouched(l, s, key.namespace, key, items, i);
  }

  lemma StandingFrom(config: Config, a: State, b: State, key: Key, plan: Plan, p: Stored)
    requires a.pools == b.pools && a.objects == b.objects
    ensures StandingIn(config, a, key, plan, p) == StandingIn(config, b, key, plan, p)
  {
    RenderingFromPools(config, a, b, p.key, p.spec);
    hide RenderingOf;
  }

  lemma ScanOn(config: Config, l: State, s: State, t: State, key: Key, plan: Plan, items: seq<Stored>, i: nat,
               records: seq<VariantRecord>, st: Standing, err: Option<Err>)
    requires Decidable(config, l, key, plan, items) && Scan(config, l, s, key, plan, items, i, records) && i < |items|
    requires Tended(config, s, t, key, items[i]) && StandsAs(config, s, key, plan, items[i], st, err)
    ensures err.None? && !st.Blocking?
    ensures Scan(config, l, t, key, plan, items, i + 1, Added(records, items[i].key, items[i].spec, st))
  {
    hide StandingIn, Distinct, RenderingOf, Live, Tidy, Outlives, Tending, Listing, RecordOf;
    TendingNext(l, s, key.namespace, key, items, i);
    StandingFrom(config, l, s, key, plan, items[i]);
    TendingStep(config, l, s, t, key, items, i);
    assert items[..i + 1][..i] == items[..i] && items[..i + 1][i] == items[i];
  }

  lemma DecidableIsDistinct(config: Config, l: State, key: Key, plan: Plan, items: seq<Stored>)
    requires Decidable(config, l, key, plan, items)
    ensures Distinct(items)
  {
  }

  // ------------------------------------------------------------ who clashes

  // Every binding of the namespace can be compared, and the binding itself stays.
  ghost predicate Tellable(config: Config, s: State, key: Key, plan: Plan) {
    forall j | j in s.bindings && j.namespace == key.namespace ::
      var st := StandingIn(config, s, key, plan, s.bindings[j]);
      st.Some? && !st.value.Blocking? && (j == key ==> !s.bindings[j].deleting)
  }

  lemma TellableIsDecidable(config: Config, s: State, key: Key, plan: Plan, items: seq<Stored>)
    requires Tellable(config, s, key, plan) && Listing(s, key.namespace, items) && Distinct(items) && (forall n | n in s.objects :: s.objects[n].name == n)
    requires forall i | 0 <= i < |items| :: items[i].key.namespace == key.namespace
    ensures Decidable(config, s, key, plan, items)
  {
    hide StandingIn;
  }

  // The binding is being deleted, none of its recorded output is live, and every peer
  // can be told: the comparison leaves it out.
  ghost predicate Overlooked(config: Config, s: State, key: Key, plan: Plan) {
    && Marked(s, key) && !Live(s, StoredRecord(s, key))
    && forall j | IsPeer(s, key, j) ::
         var st := StandingIn(config, s, key, plan, s.bindings[j]);
         st.Some? && !st.value.Blocking?
  }

  lemma OverlookedIsDecidable(config: Config, s: State, key: Key, plan: Plan, items: seq<Stored>)
    requires Overlooked(config, s, key, plan) && Listing(s, key.namespace, items) && Distinct(items) && (forall n | n in s.objects :: s.objects[n].name == n)
    requires forall i | 0 <= i < |items| :: items[i].key.namespace == key.namespace
    ensures Decidable(config, s, key, plan, items)
  {
    hide RenderingOf, Live, RecordOf;
    forall i | 0 <= i < |items|
      ensures StandingIn(config, s, key, plan, items[i]).Some? && !StandingIn(config, s, key, plan, items[i]).value.Blocking?
    {
      if items[i].key != key { assert IsPeer(s, key, items[i].key); }
    }
  }

  // Nobody is diagnosed against a binding that was left out.
  lemma OverlookedIsUnnamed(config: Config, l: State, key: Key, plan: Plan, items: seq<Stored>, x: VariantRecord)
    requires Overlooked(config, l, key, plan) && Listing(l, key.namespace, items) && x in Compared(config, l, key, plan, items)
    ensures x.ref != key
  {
    hide Compared, RenderingOf, Live, RecordOf;
    ComparedMembers(config, l, key, plan, items, x);
  }

  // The diagnosis against peer j, if it is not exclusive with the planned binding.
  ghost function ClashWith(config: Config, s: State, self: VariantRecord, plan: Plan, j: Key): Option<VariantConflict>
    requires j in s.bindings
  {
    var st := StandingIn(config, s, self.ref, plan, s.bindings[j]);
    if st.None? || !st.value.Relevant? then None
    else
      var x := VariantRecordOf(j, s.bindings[j].spec, st.value.plan);
      if Pair(self, x).None? then None else Some(Directed(self.ref, x, Pair(self, x).value))
  }

  // The diagnoses are exactly those against peers that are not exclusive.
  ghost predicate Diagnosed(config: Config, s: State, self: VariantRecord, plan: Plan, conflicts: seq<VariantConflict>) {
    forall c :: c in conflicts <==> exists j :: IsPeer(s, self.ref, j) && ClashWith(config, s, self, plan, j) == Some(c)
  }

  // x is the record of the i-th listed binding.
  ghost predicate Contributes(config: Config, l: State, key: Key, plan: Plan, p: Stored, x: VariantRecord) {
    var st := StandingIn(config, l, key, plan, p);
    st.Some? && st.value.Relevant? && x == VariantRecordOf(p.key, p.spec, st.value.plan)
  }

  lemma {:induction false} ComparedMembers(config: Config, l: State, key: Key, plan: Plan, items: seq<Stored>, x: VariantRecord)
    ensures x in Compared(config, l, key, plan, items) <==> exists i :: 0 <= i < |items| && Contributes(config, l, key, plan, items[i], x)
  {
    hide StandingIn;
    if items != [] {
      var n := |items| - 1;
      ComparedMembers(config, l, key, plan, items[..n], x);
      assert Contributes(config, l, key, plan, items[n], x) || x in Compared(config, l, key, plan, items[..n]) <==> x in Compared(config, l, key, plan, items);
      hide Contributes, Compared;
      assert forall i | 0 <= i < n :: items[..n][i] == items[i];
      if exists i :: 0 <= i < |items| && Contributes(config, l, key, plan, items[i], x) {
        var i :| 0 <= i < |items| && Contributes(config, l, key, plan, items[i], x);
        if i < n { assert items[..n][i] == items[i]; }
      }
    }
  }

  lemma {:induction false} ComparedDistinct(config: Config, l: State, key: Key, plan: Plan, items: seq<Stored>, a: nat, b: nat)
    requires Distinct(items) && a < b < |Compared(config, l, key, plan, items)|
    ensures Compared(config, l, key, plan, items)[a].ref != Compared(config, l, key, plan, items)[b].ref
  {
    hide StandingIn;
    var n := |items| - 1;
    var front := Compared(config, l, key, plan, items[..n]);
    if b < |front| {
      ComparedDistinct(config, l, key, plan, items[..n], a, b);
    } else {
      ComparedMembers(config, l, key, plan, items[..n], front[a]);
      var i :| 0 <= i < n && Contributes(config, l, key, plan, items[..n][i], front[a]);
      assert items[..n][i].key != items[n].key;
    }
  }
}
