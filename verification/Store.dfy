// The API server as one value: live ClusterSPIFFEIDs, stored bindings, pools,
// and the bookkeeping that says which objects the controller created for whom.

module Store {
  import opened Types
  import opened Statuses
  import Selection

  // A persisted InferenceIdentityBinding. `guarded` says that a finalizer other
  // than the controller's own is present.
  datatype Stored = Stored(
    key: Key, rv: nat, generation: nat, spec: BindingSpec,
    deleting: bool, finalizer: bool, guarded: bool, status: Status)

  // The binding and output name a claim was minted for.
  datatype Issue = Issue(key: Key, name: string)

  // The binding, name and claim with which the controller created an object.
  datatype Origin = Origin(key: Key, name: string, claim: string)

  // An Update or Delete that the controller issued for `key` and that took
  // effect on the incarnation `uid`.
  datatype Effect = Effect(key: Key, uid: nat)

  datatype State = State(
    objects: map<string, Object>,
    bindings: map<Key, Stored>,
    pools: map<Key, Pool>,
    nextUid: nat,
    nextRv: nat,
    claims: seq<Issue>,          // every claim ever minted
    created: map<nat, Origin>,   // every object the controller ever created
    effects: seq<Effect>,        // every Update and Delete that took effect
    past: set<Stored>)           // every binding version ever persisted

  // Assumptions about the world around the controller.
  datatype Rules = Rules(
    current: bool,    // binding reads are current; nobody strips a claim annotation
    latched: bool,    // a Pending binding is not marked deleting between the first read of its reconcile and the list
    spaced: bool,     // no spec is edited into the boundary of an output that is live or about to be created
    moored: bool,     // no spec leaves output behind in a boundary others ask for, or enters one where output was left behind
    pristine: bool)   // nobody else edits the spec of a created object

  predicate Covering(r: Rules) { r.current && r.latched }
  predicate Excluding(r: Rules) { Covering(r) && r.spaced }
  predicate Fencing(r: Rules) { Covering(r) && r.moored && r.pristine }

  // ------------------------------------------------------------ claims

  // Claim tokens stand for UUIDs: the n-th one is distinct from all others.
  function Mint(n: nat): string {
    seq(n + 1, _ => 'c')
  }

  predicate IsMinted(c: string) {
    c != "" && c == Mint(|c| - 1)
  }

  function IssuedTo(s: State, c: string): Option<Issue> {
    if IsMinted(c) && |c| <= |s.claims| then Some(s.claims[|c| - 1]) else None
  }

  // ------------------------------------------------------------ reading the state

  function StoredRecord(s: State, k: Key): Record {
    if k in s.bindings then RecordOf(s.bindings[k].status) else Unclaimed
  }

  // The object at n was created by the controller.
  predicate Made(s: State, n: string) {
    n in s.objects && s.objects[n].uid in s.created
  }

  function MakerOf(s: State, n: string): Key
    requires Made(s, n)
  {
    s.created[s.objects[n].uid].key
  }

  // Binding k has no live created output.
  predicate Vacant(s: State, k: Key) {
    forall n | n in s.objects && Made(s, n) :: MakerOf(s, n) != k
  }

  predicate Owns(s: State, k: Key, uid: nat) {
    uid in s.created && s.created[uid].key == k
  }

  predicate Covers(r: Record, o: Object) {
    match r
    case Unclaimed => false
    case Pending(n, c) => n == o.name && c == o.claim
    case Confirmed(n, u) => n == o.name && u == o.uid
  }

  // Two specs name the same boundary within a namespace.
  predicate Coincide(a: BindingSpec, b: BindingSpec) {
    a.serviceAccount == b.serviceAccount && a.variant == b.variant
  }

  // Two bindings claim the same boundary.
  predicate Rivals(s: State, k: Key, j: Key) {
    && k in s.bindings && j in s.bindings && k.namespace == j.namespace
    && Coincide(s.bindings[k].spec, s.bindings[j].spec)
  }

  // Only these incarnations are live output of a rival of k.
  ghost predicate RivalsAmong(s: State, k: Key, rivals: set<nat>) {
    forall n | Made(s, n) && MakerOf(s, n) != k && Rivals(s, k, MakerOf(s, n)) :: s.objects[n].uid in rivals
  }

  // No other binding of the namespace with this boundary has live output.
  ghost predicate Unrivaled(s: State, k: Key, spec: BindingSpec) {
    forall n | Made(s, n) && MakerOf(s, n) != k && MakerOf(s, n).namespace == k.namespace && MakerOf(s, n) in s.bindings ::
      !Coincide(s.bindings[MakerOf(s, n)].spec, spec)
  }

  // ------------------------------------------------------------ state invariants

  ghost predicate ObjectsOK(s: State) {
    && 0 < s.nextUid
    && (forall n | n in s.objects :: s.objects[n].name == n && 0 < s.objects[n].uid < s.nextUid && s.objects[n].rv < s.nextRv)
    && (forall m, n | m in s.objects && n in s.objects && s.objects[m].uid == s.objects[n].uid :: m == n)
  }

  // A claim on a live object is a minted one only on the object it was minted for.
  ghost predicate ClaimsOK(s: State) {
    && (forall n | n in s.objects && IsMinted(s.objects[n].claim) ::
          Made(s, n) && s.created[s.objects[n].uid].claim == s.objects[n].claim)
    && (forall u | u in s.created ::
          0 < u < s.nextUid && IssuedTo(s, s.created[u].claim) == Some(Issue(s.created[u].key, s.created[u].name)))
    && (forall n | Made(s, n) :: s.created[s.objects[n].uid].name == n)
  }

  // Every record ever persisted speaks of a claim or an object of its own binding.
  predicate Attributed(s: State, p: Stored) {
    && Decode(p.status).Some?
    && match RecordOf(p.status)
       case Unclaimed => true
       case Pending(n, c) => IssuedTo(s, c) == Some(Issue(p.key, n))
       case Confirmed(n, u) => Owns(s, p.key, u) && s.created[u].name == n
  }

  ghost predicate VersionsOK(s: State) {
    && (forall p | p in s.past ::
          && Attributed(s, p) && p.rv < s.nextRv && StatusOK(p.status)
          && (RecordOf(p.status).Unclaimed? || p.finalizer))
    && (forall p, q | p in s.past && q in s.past && p.rv == q.rv :: p == q)
    && (forall k | k in s.bindings :: s.bindings[k] in s.past && s.bindings[k].key == k)
  }

  // Ownership safety: every Update and Delete that took effect hit an
  // incarnation the controller had created for that very binding.
  predicate EffectsOK(s: State) {
    forall e | e in s.effects :: Owns(s, e.key, e.uid)
  }

  // Every live created object is covered by the persisted record of its binding.
  ghost predicate NoOrphans(s: State) {
    forall n | Made(s, n) :: Covers(StoredRecord(s, MakerOf(s, n)), s.objects[n])
  }

  // No orphans, no claim stripped, and a settled conflict holds no record.
  ghost predicate Covered(s: State) {
    && NoOrphans(s)
    && (forall n | Made(s, n) :: s.objects[n].claim == s.created[s.objects[n].uid].claim)
    && (forall p | p in s.past && Holds(p.status, Conflict) :: RecordOf(p.status).Unclaimed?)
  }

  // Exclusive live outputs: no two bindings with the same boundary are both live.
  ghost predicate Exclusive(s: State) {
    forall m, n | Made(s, m) && Made(s, n) && Rivals(s, MakerOf(s, m), MakerOf(s, n)) ::
      MakerOf(s, m) == MakerOf(s, n)
  }

  // The boundary that the selectors of an object spell out, whatever the binding
  // it was made for says by now.
  function FenceOf(spec: ObjectSpec): BindingSpec {
    if spec.Rendered? then
      var sel := Selection.Parse(spec.selectors);
      BindingSpec("", "", sel.serviceAccount, LabelOf(sel.podLabels, Selection.VARIANT_KEY))
    else BindingSpec("", "", "", "")
  }

  // The spec spells out some boundary of the namespace.
  predicate Keyed(spec: ObjectSpec, namespace: string) {
    Selection.Spells(spec, namespace, FenceOf(spec).serviceAccount, FenceOf(spec).variant)
  }

  // The output at n was made for another binding of k's namespace, and its boundary is this one.
  predicate Faces(s: State, k: Key, n: string, boundary: BindingSpec)
    requires Made(s, n)
  {
    MakerOf(s, n) != k && MakerOf(s, n).namespace == k.namespace && Coincide(boundary, FenceOf(s.objects[n].spec))
  }

  // The output at n has the boundary that its binding asks for.
  predicate AtHome(s: State, n: string)
    requires Made(s, n)
  {
    MakerOf(s, n) in s.bindings && Coincide(s.bindings[MakerOf(s, n)].spec, FenceOf(s.objects[n].spec))
  }

  // No other binding of k's namespace asks for the boundary.
  predicate Unsought(s: State, k: Key, boundary: BindingSpec) {
    forall i | i in s.bindings && i != k && i.namespace == k.namespace :: !Coincide(s.bindings[i].spec, boundary)
  }

  // Output of k in the boundary is no trap for others: k asks for it, or nobody else does.
  predicate Berthed(s: State, k: Key, boundary: BindingSpec) {
    (k in s.bindings && Coincide(s.bindings[k].spec, boundary)) || Unsought(s, k, boundary)
  }

  // No output of another binding of the namespace has the boundary.
  ghost predicate Unfaced(s: State, k: Key, boundary: BindingSpec) {
    forall n | Made(s, n) :: !Faces(s, k, n, boundary)
  }

  // Live created objects spell out boundaries of their bindings' namespaces.
  ghost predicate Fenced(s: State) {
    forall n | Made(s, n) :: Keyed(s.objects[n].spec, MakerOf(s, n).namespace)
  }

  // No two live outputs of different bindings have one boundary.
  ghost predicate Unshared(s: State) {
    forall n | Made(s, n) :: Unfaced(s, MakerOf(s, n), FenceOf(s.objects[n].spec))
  }

  // Who asks for the boundary of another binding's live output meets it in the comparison.
  ghost predicate Moored(s: State) {
    forall n | Made(s, n) :: Berthed(s, MakerOf(s, n), FenceOf(s.objects[n].spec))
  }

  ghost predicate Walled(s: State) {
    Fenced(s) && Unshared(s) && Moored(s)
  }

  ghost predicate Safe(s: State) {
    ObjectsOK(s) && ClaimsOK(s) && VersionsOK(s) && EffectsOK(s)
  }

  ghost predicate Inv(r: Rules, s: State) {
    && Safe(s)
    && (Covering(r) ==> Covered(s))
    && (Excluding(r) ==> Exclusive(s))
    && (Fencing(r) ==> Walled(s))
  }

  // ------------------------------------------------------------ step property

  // The ownership automaton.
  predicate LegalMove(s: State, k: Key, before: Record, after: Record) {
    || before == after
    || (before.Unclaimed? && after.Pending? && IssuedTo(s, after.claim) == Some(Issue(k, after.name)))
    || (before.Pending? && after.Confirmed? && after.name == before.name && Owns(s, k, after.uid)
        && s.created[after.uid] == Origin(k, before.name, before.claim))
    || (!before.Unclaimed? && after.Unclaimed?)
  }

  // The finalizer goes away only with an empty record and no live created output.
  ghost predicate FinalizerMove(r: Rules, a: State, b: State, k: Key) {
    k in a.bindings && a.bindings[k].finalizer && !(k in b.bindings && b.bindings[k].finalizer) ==>
      StoredRecord(a, k).Unclaimed? && (Covering(r) ==> Vacant(a, k))
  }

  // A conflict is written only when the binding and every peer it names have
  // no live created output.
  ghost predicate ConflictMove(r: Rules, a: State, b: State, k: Key) {
    Covering(r) && k in b.bindings && Holds(b.bindings[k].status, Conflict)
    && !(k in a.bindings && a.bindings[k].status == b.bindings[k].status) ==>
      Vacant(b, k) && forall e | e in b.bindings[k].status.conflicts :: Vacant(b, Key(k.namespace, e.bindingName))
  }

  ghost predicate Step(r: Rules, a: State, b: State) {
    && (forall k :: LegalMove(b, k, StoredRecord(a, k), StoredRecord(b, k)))
    && (forall k :: FinalizerMove(r, a, b, k))
    && (forall k :: ConflictMove(r, a, b, k))
    && (forall n | n in b.objects :: b.objects[n].uid >= a.nextUid || (n in a.objects && a.objects[n].uid == b.objects[n].uid))
  }

  // ------------------------------------------------------------ what stays put

  // Live objects in b are those of a, possibly edited, and new foreign ones.
  ghost predicate ObjectsFrom(a: State, b: State) {
    forall n | n in b.objects ::
      var o := b.objects[n];
      || (n in a.objects && a.objects[n].uid == o.uid
          && (o == a.objects[n] || o.rv >= a.nextRv) && (o.claim == a.objects[n].claim || !IsMinted(o.claim)))
      || (o.uid >= a.nextUid && o.rv >= a.nextRv && !IsMinted(o.claim))
  }

  ghost predicate BindingsFrom(a: State, b: State) {
    forall k | k in b.bindings :: (k in a.bindings && a.bindings[k] == b.bindings[k]) || b.bindings[k].rv >= a.nextRv
  }

  // No created output appeared.
  ghost predicate NoGrowth(a: State, b: State) {
    forall n | Made(b, n) :: Made(a, n) && a.objects[n].uid == b.objects[n].uid
  }

  // The controller's finalizer stays where it is.
  ghost predicate Anchored(a: State, b: State) {
    forall k | k in a.bindings && a.bindings[k].finalizer :: k in b.bindings && b.bindings[k].finalizer
  }

  ghost predicate Frame(a: State, b: State) {
    && a.nextUid <= b.nextUid && a.nextRv <= b.nextRv
    && a.past <= b.past && a.claims <= b.claims && a.created == b.created
    && ObjectsFrom(a, b) && BindingsFrom(a, b) && NoGrowth(a, b) && Anchored(a, b)
  }

  ghost predicate SameRecords(a: State, b: State) {
    forall k :: StoredRecord(b, k) == StoredRecord(a, k)
  }

  ghost predicate SameRecordsBut(a: State, b: State, k: Key) {
    forall j | j != k :: StoredRecord(b, j) == StoredRecord(a, j)
  }

  lemma FrameTransitive(a: State, b: State, c: State)
    requires Frame(a, b) && Frame(b, c)
    ensures Frame(a, c)
  {}
}
