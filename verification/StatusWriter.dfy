// Writing binding status: in-place condition updates and the rebasing patch.

module StatusWriter {
  import opened Types
  import opened Statuses
  import opened Store
  import opened Changes
  import opened Environment
  import opened Calls
  import opened Client
  import opened Ownership
  import Boundary
  import Output
  import Text

  // ------------------------------------------------------------ conditions in place

  method SetCondition(b: Binding, t: CondType, status: Truth, reason: Reason, message: Message)
    modifies b`status
    ensures b.status == old(b.status).(conditions := Set(old(b.status.conditions), t, Condition(status, b.generation, reason, message)))
  {
    b.status := b.status.(conditions := Set(b.status.conditions, t, Condition(status, b.generation, reason, message)));
  }

  const CANONICAL: seq<CondType> := [Ready, InvalidRef, UnsafeSelector, Conflict, RenderFailure]

  // Gives every canonical condition a value without losing an existing one.
  method InitializeConditions(b: Binding)
    modifies b`status
    ensures b.status == old(b.status).(conditions := Initialized(old(b.status.conditions), b.generation))
  {
    ghost var was := b.status;
    for i := 0 to |CANONICAL|
      invariant b.status == was.(conditions := b.status.conditions)
      invariant forall j | 0 <= j < |CANONICAL| ::
                  Find(b.status.conditions, CANONICAL[j])
                  == if j < i then InitializedOne(Find(was.conditions, CANONICAL[j]), CANONICAL[j], b.generation)
                     else Find(was.conditions, CANONICAL[j])
    {
      var t := CANONICAL[i];
      var status, reason, message := Unknown, Initializing, NotEvaluated(t);
      var existing := Find(b.status.conditions, t);
      if existing.Some? {
        status, reason := existing.value.status, existing.value.reason;
        if !(existing.value.message.Failed? && Text.Blank(existing.value.message.text)) { message := existing.value.message; }
      }
      SetCondition(b, t, status, reason, message);
    }
    ghost var c := b.status.conditions;
    assert Find(c, CANONICAL[0]) == c.ready && Find(c, CANONICAL[1]) == c.invalidRef && Find(c, CANONICAL[2]) == c.unsafeSelector
           && Find(c, CANONICAL[3]) == c.conflict && Find(c, CANONICAL[4]) == c.renderFailure;
  }

  method ApplyOperatorConfig(b: Binding, config: Config)
    modifies b`status
    ensures b.status == old(b.status).(trustDomain := config.trustDomain, className := config.className)
  {
    b.status := b.status.(trustDomain := config.trustDomain, className := config.className);
  }

  method Resolve(b: Binding, t: CondType)
    modifies b`status
    ensures b.status == old(b.status).(conditions := Set(old(b.status.conditions), t, Healthy(b.generation, t)))
  {
    SetCondition(b, t, False, Resolved, HealthyMessage(t));
  }

  method ClearRendered(b: Binding)
    modifies b`status
    ensures b.status == Cleared(old(b.status))
  {
    b.status := b.status.(computed := [], selectors := [], rendered := None, conflicts := []);
  }

  method ApplySuccess(b: Binding, plan: Plan, out: RenderedOutput)
    modifies b`status
    ensures b.status == SuccessStatus(old(b.status), b.generation, plan, out) && Consistent(b.status) && !Holds(b.status, Conflict)
  {
    SuccessIsConsistent(b.status, b.generation, plan, out);
    b.status := b.status.(
      computed := [plan.spiffeID], selectors := [RenderedSelectors(plan.spiffeID, plan.selectors)],
      rendered := Some(out), conflicts := []);
    SetCondition(b, Ready, True, Reconciled, BindingReconciled);
    Resolve(b, InvalidRef);
    Resolve(b, UnsafeSelector);
    Resolve(b, Conflict);
    Resolve(b, RenderFailure);
  }

  method ApplyFailure(b: Binding, e: StateError)
    requires FailureReason(e.cond, e.reason) && !e.cond.Conflict?
    modifies b`status
    ensures b.status == FailureStatus(old(b.status), b.generation, e) && Consistent(b.status) && !Holds(b.status, Conflict)
  {
    FailureIsConsistent(b.status, b.generation, e);
    ClearRendered(b);
    SetCondition(b, Ready, False, e.reason, Failed(e.message));
    SetCondition(b, e.cond, True, e.reason, Failed(e.message));
    if !e.cond.InvalidRef? { Resolve(b, InvalidRef); }
    if !e.cond.UnsafeSelector? { Resolve(b, UnsafeSelector); }
    Resolve(b, Conflict);
    if !e.cond.RenderFailure? { Resolve(b, RenderFailure); }
  }

  method ApplyWaiting(b: Binding, why: Message, conflictOpen: bool)
    modifies b`status
    ensures b.status == WaitingStatus(old(b.status), b.generation, why, conflictOpen) && Consistent(b.status) && !Holds(b.status, Conflict)
  {
    WaitingIsConsistent(b.status, b.generation, why, conflictOpen);
    ClearRendered(b);
    SetCondition(b, Ready, Unknown, Initializing, why);
    Resolve(b, InvalidRef);
    Resolve(b, UnsafeSelector);
    if conflictOpen { SetCondition(b, Conflict, Unknown, Initializing, why); } else { Resolve(b, Conflict); }
    Resolve(b, RenderFailure);
  }

  function EntryOf(c: Boundary.VariantConflict): ConflictEntry {
    ConflictEntry(c.peerRef.name, c.cause, c.peerSpiffeID, c.peerVariant)
  }

  function Entries(conflicts: seq<Boundary.VariantConflict>): seq<ConflictEntry> {
    seq(|conflicts|, i requires 0 <= i < |conflicts| => EntryOf(conflicts[i]))
  }

  // A settled conflict: one entry per diagnosis, in the evaluator's order.
  method ApplyConflict(b: Binding, conflicts: seq<Boundary.VariantConflict>)
    requires conflicts != []
    modifies b`status
    ensures b.status == ConflictStatus(old(b.status), b.generation, Entries(conflicts)) && Consistent(b.status)
  {
    ConflictIsConsistent(b.status, b.generation, Entries(conflicts));
    ghost var was := b.status;
    ClearRendered(b);
    var reason := VariantConflict;
    for i := 0 to |conflicts|
      invariant b.status == Cleared(was).(conflicts := Entries(conflicts)[..i])
      invariant reason == ConflictReason(Entries(conflicts)[..i])
    {
      ghost var done := Entries(conflicts)[..i];
      if conflicts[i].cause.DuplicateSPIFFEID? { reason := DuplicateIdentity; }
      b.status := b.status.(conflicts := b.status.conflicts + [EntryOf(conflicts[i])]);
      ReasonGrows(done, EntryOf(conflicts[i]));
      assert Entries(conflicts)[..i + 1] == done + [EntryOf(conflicts[i])];
    }
    assert Entries(conflicts)[..|conflicts|] == Entries(conflicts);
    SetCondition(b, Ready, False, reason, ConflictsWithPeers);
    Resolve(b, InvalidRef);
    Resolve(b, UnsafeSelector);
    SetCondition(b, Conflict, True, reason, ConflictsWithPeers);
    Resolve(b, RenderFailure);
  }

  lemma ReasonGrows(entries: seq<ConflictEntry>, e: ConflictEntry)
    ensures ConflictReason(entries + [e]) == if e.cause.DuplicateSPIFFEID? then DuplicateIdentity else ConflictReason(entries)
  {
    var all := entries + [e];
    assert all[|entries|] == e && forall i | 0 <= i < |entries| :: all[i] == entries[i];
  }

  // ------------------------------------------------------------ the rebasing patch

  const RETRIES := 5

  // The desired status with the ownership record of the latest version.
  function Rebased(desired: Status, latest: Status): Status {
    desired.(pending := latest.pending, owned := latest.owned)
  }

  lemma RebasedPatchable(r: Rules, s: State, latest: Stored, desired: Status)
    requires Inv(r, s) && latest in s.past && StatusOK(desired)
    requires Covering(r) && Holds(desired, Conflict) ==>
               && RecordOf(latest.status).Unclaimed?
               && forall e | e in desired.conflicts :: StoredRecord(s, Key(latest.key.namespace, e.bindingName)).Unclaimed?
    ensures var target := Rebased(desired, latest.status);
            && Merged(latest.status, latest.status, target) == target && RecordOf(target) == RecordOf(latest.status)
            && Patchable(r, s, latest, latest.(status := target))
  {
    assert Attributed(s, latest);
    hide Inv, Safe;
  }

  // A settled conflict may be published only for output that is proven absent.
  ghost predicate Publishable(r: Rules, s: State, k: Key, status: Status) {
    Covering(r) && Holds(status, Conflict) ==>
      && StoredRecord(s, k).Unclaimed?
      && forall e | e in status.conflicts :: StoredRecord(s, Key(k.namespace, e.bindingName)).Unclaimed?
  }

  function Published(s: State, k: Key, desired: Status): State
    requires k in s.bindings
  {
    var target := Rebased(desired, s.bindings[k].status);
    if s.bindings[k].status == target then s else Put(s, s.bindings[k].(status := target))
  }

  lemma PublishedOnly(s: State, k: Key, desired: Status)
    requires k in s.bindings && s.bindings[k].key == k
    ensures OnlyBinding(s, Published(s, k, desired), k)
  {
  }

  // Some version of binding k was persisted with exactly this status.
  ghost predicate Persisted(s: State, k: Key, status: Status) {
    exists v :: v in s.past && v.key == k && v.status == status
  }

  method Attempt(api: Cluster, b: Binding, desired: Status, ghost start: State) returns (err: Option<Err>)
    requires api.Valid() && b.status == desired && StatusOK(desired) && Publishable(api.rules, start, b.key, desired)
    requires Frame(start, api.s) && SameRecords(start, api.s)
    modifies api, b
    ensures api.Valid() && api.focus == old(api.focus) && b.spec == old(b.spec) && b.generation == old(b.generation) && b.finalizer == old(b.finalizer)
    ensures Frame(start, api.s) && SameRecords(start, api.s) && api.losses == old(api.losses)
    ensures if err.None? then SameView(b.status, desired) && Persisted(api.s, b.key, b.status) else b.status == desired
    ensures old(api.Calm()) ==> api.Calm()
    ensures old(api.Calm() && b.key in api.s.bindings) ==> err.None? && api.s == Published(old(api.s), b.key, desired)
    ensures old(api.Calm() && b.key !in api.s.bindings) ==> err == Some(Api(NotFound)) && api.s == old(api.s)
  {
    hide GoodTrace, Inv, Frame, Steady, Patchable, StatusOK, Merged, Holds, RecordOf;
    ghost var was := api.s;
    var r := api.GetBinding(b.key);
    SameThenSame(start, was, api.s);
    FrameTransitive(start, was, api.s);
    if r.Err? { return Some(Api(r.err)); }
    var latest := r.value;
    RebasedPatchable(api.rules, api.s, latest, desired);
    var target := Rebased(desired, latest.status);
    var rv := latest.rv;
    if latest.status != target {
      ghost var mid := api.s;
      var w := api.PatchStatus(latest, b.key, latest.rv, latest.status, target);
      SameThenSame(start, mid, api.s);
      FrameTransitive(start, mid, api.s);
      if w.Err? { return Some(Api(w.err)); }
      rv := w.value.rv;
    }
    b.status, b.rv := target, rv;
    return None;
  }

  lemma SameThenSame(a: State, b: State, c: State)
    requires SameRecords(a, b) && SameRecords(b, c)
    ensures SameRecords(a, c)
  {
    forall k ensures StoredRecord(c, k) == StoredRecord(a, k) { assert StoredRecord(b, k) == StoredRecord(a, k); }
  }

  // Rebases ordinary status onto the latest persisted ownership and retries
  // resource-version conflicts. The persisted record never changes.
  method PatchStatus(api: Cluster, b: Binding) returns (err: Option<Err>)
    requires api.Valid() && StatusOK(b.status) && Publishable(api.rules, api.s, b.key, b.status)
    modifies api, b
    ensures api.Valid() && api.focus == old(api.focus)
    ensures Frame(old(api.s), api.s) && SameRecords(old(api.s), api.s) && api.losses == old(api.losses)
    ensures SameView(b.status, old(b.status)) && b.spec == old(b.spec) && b.generation == old(b.generation) && b.finalizer == old(b.finalizer)
    ensures err.None? ==> Persisted(api.s, b.key, b.status)
    ensures old(api.Calm()) ==> api.Calm()
    ensures old(api.Calm() && b.key in api.s.bindings) ==>
              err.None? && api.s == Published(old(api.s), b.key, old(b.status))
    ensures old(api.Calm() && b.key !in api.s.bindings) ==> api.s == old(api.s)
  {
    hide GoodTrace, Inv, Frame, Steady, Patchable, StatusOK, Merged;
    var desired := b.status;
    ghost var start := api.s;
    FrameReflexive(api.rules, api.s);
    Output.ViewReflexive(b.status);
    var attempts := 0;
    err := Some(Api(VersionConflict));
    while attempts < RETRIES
      invariant api.Valid() && api.focus == old(api.focus) && b.status == desired && b.spec == old(b.spec) && b.generation == old(b.generation) && b.finalizer == old(b.finalizer)
      invariant Frame(start, api.s) && SameRecords(start, api.s) && api.losses == old(api.losses)
      invariant old(api.Calm()) ==> api.Calm() && attempts == 0 && api.s == start
      invariant err.Some?
    {
      err := Attempt(api, b, desired, start);
      if err != Some(Api(VersionConflict)) { return; }
      attempts := attempts + 1;
    }
  }

  function ErrText(e: Err): string {
    match e
    case Api(a) => if a.Transient? then a.text else "API error"
    case UnusableRecord => "unusable ownership record"
    case AlreadyRecorded => "another output is recorded"
    case MissingUid => "missing UID"
    case ForeignOutput => "refusing foreign output"
    case CreateRace => "refusing output after create race"
    case UnusablePoolRef => "unusable poolRef"
  }

  function ApplyFailed(cause: Err): StateError {
    StateError(RenderFailure, ManagedOutputApplyFailed, "Managed output could not be applied: " + ErrText(cause))
  }

  // Publishes a failed apply. The error that caused it is returned unless
  // publishing fails itself.
  method PatchApplyFailure(api: Cluster, b: Binding, cause: Err) returns (err: Err)
    requires api.Valid()
    modifies api, b
    ensures api.Valid() && api.focus == old(api.focus)
    ensures Frame(old(api.s), api.s) && SameRecords(old(api.s), api.s) && api.losses == old(api.losses)
    ensures err != cause || (SameView(b.status, FailureStatus(old(b.status), b.generation, ApplyFailed(cause))) && b.generation == old(b.generation))
    ensures b.finalizer == old(b.finalizer)
    ensures old(api.Calm()) ==> api.Calm() && OnlyBinding(old(api.s), api.s, b.key)
  {
    hide GoodTrace, Inv, Frame, Published, StatusOK, Consistent, SameView, OnlyBinding, FailureStatus, Holds, SameRecords, ErrText;
    ghost var start := api.s;
    if b.key in api.s.bindings { StoredVersion(api.rules, api.s, b.key); }
    ApplyFailure(b, ApplyFailed(cause));
    ConsistentIsOK(b.status);
    OnlyReflexive(start, b.key);
    if b.key in start.bindings { PublishedOnly(start, b.key, b.status); }
    var failed := PatchStatus(api, b);
    return if failed.Some? then failed.value else cause;
  }
}
