// Persisted binding status: conditions, rendered output, conflict entries and
// the ownership record, with the consistency every written status must keep.

module Statuses {
  import opened Types
  import Text

  datatype CondType = Ready | InvalidRef | UnsafeSelector | Conflict | RenderFailure
  datatype Truth = True | False | Unknown

  datatype Reason =
    | Reconciled | Resolved | Initializing
    | InvalidPoolRef | TargetPoolNotFound | InferencePoolCRDMissing
    | InvalidPoolSelector | UnsafeSelectorSet | InvalidIdentityBoundary
    | VariantConflict | DuplicateIdentity
    | MissingTrustDomain | InvalidServiceAccountName | InvalidSPIFFEID
    | ClusterSPIFFEIDCRDMissing | ManagedOutputApplyFailed

  // The fixed condition messages by name, and free text for failures.
  datatype Message =
    | NotEvaluated(cond: CondType)
    | BindingReconciled | ReferencesValid | SelectorsSafe | VariantExclusive | RenderingHealthy
    | WaitingForCreate | WaitingForAbsence | WaitingForReplacement | ConflictsWithPeers
    | Failed(text: string)

  datatype Condition = Condition(status: Truth, generation: nat, reason: Reason, message: Message)

  // The condition list: at most one condition per type. The order of the list
  // and the transition times are not kept.
  datatype Conditions = Conditions(
    ready: Option<Condition>,
    invalidRef: Option<Condition>,
    unsafeSelector: Option<Condition>,
    conflict: Option<Condition>,
    renderFailure: Option<Condition>)

  const NO_CONDITIONS := Conditions(None, None, None, None, None)

  function Find(c: Conditions, t: CondType): Option<Condition> {
    match t
    case Ready => c.ready
    case InvalidRef => c.invalidRef
    case UnsafeSelector => c.unsafeSelector
    case Conflict => c.conflict
    case RenderFailure => c.renderFailure
  }

  function Set(c: Conditions, t: CondType, v: Condition): Conditions {
    match t
    case Ready => c.(ready := Some(v))
    case InvalidRef => c.(invalidRef := Some(v))
    case UnsafeSelector => c.(unsafeSelector := Some(v))
    case Conflict => c.(conflict := Some(v))
    case RenderFailure => c.(renderFailure := Some(v))
  }

  datatype ConflictEntry = ConflictEntry(bindingName: string, cause: Cause, spiffeID: string, variant: string)
  datatype PendingRef = PendingRef(name: string, claimID: string)
  datatype OwnedRef = OwnedRef(name: string, uid: nat)
  datatype RenderedSelectors = RenderedSelectors(spiffeID: string, selectors: seq<string>)

  // `fingerprint` holds the bytes that are hashed, not their SHA-256 digest.
  datatype RenderedOutput = RenderedOutput(
    name: string, spiffeID: string, fingerprint: string, observedGeneration: Option<nat>)

  datatype Status = Status(
    conditions: Conditions,
    trustDomain: string,
    className: string,
    conflicts: seq<ConflictEntry>,
    computed: seq<string>,
    selectors: seq<RenderedSelectors>,
    pending: Option<PendingRef>,
    owned: Option<OwnedRef>,
    rendered: Option<RenderedOutput>)

  const EMPTY_STATUS := Status(NO_CONDITIONS, "", "", [], [], [], None, None, None)

  // The error that helpers hand to the status writer.
  datatype StateError = StateError(cond: CondType, reason: Reason, message: string)

  // ------------------------------------------------------------ ownership record

  // uid 0 is the empty Kubernetes UID.
  datatype Record = Unclaimed | Pending(name: string, claim: string) | Confirmed(name: string, uid: nat)

  // None is the fail-closed decoding error.
  function Decode(s: Status): (r: Option<Record>)
    ensures r.Some? && r.value.Unclaimed? <==> s.pending.None? && s.owned.None?
    ensures r.Some? && !r.value.Unclaimed? ==> !Text.Blank(r.value.name)
    ensures s.pending.Some? && s.owned.Some? ==> r.None?
  {
    match (s.pending, s.owned)
    case (Some(_), Some(_)) => None
    case (Some(p), None) =>
      if Text.Blank(p.name) || Text.Blank(p.claimID) then None else Some(Pending(p.name, p.claimID))
    case (None, Some(o)) =>
      if Text.Blank(o.name) || o.uid == 0 then None else Some(Confirmed(o.name, o.uid))
    case (None, None) => Some(Unclaimed)
  }

  // The record a status stands for; undecodable statuses never occur in a run.
  function RecordOf(s: Status): Record {
    if Decode(s).Some? then Decode(s).value else Unclaimed
  }

  // The status that stores record r beside the other fields of s.
  function WithRecord(s: Status, r: Record): Status {
    s.(pending := if r.Pending? then Some(PendingRef(r.name, r.claim)) else None,
       owned := if r.Confirmed? then Some(OwnedRef(r.name, r.uid)) else None)
  }

  predicate Storable(r: Record) {
    match r
    case Unclaimed => true
    case Pending(n, c) => !Text.Blank(n) && !Text.Blank(c)
    case Confirmed(n, u) => !Text.Blank(n) && u != 0
  }

  lemma RecordRoundTrip(s: Status, r: Record)
    requires Storable(r)
    ensures Decode(WithRecord(s, r)) == Some(r)
    ensures Decode(s).Some? ==> WithRecord(s, RecordOf(s)) == s
  {}

  predicate SameSettings(a: Status, b: Status) {
    a.trustDomain == b.trustDomain && a.className == b.className
  }

  predicate SameView(a: Status, b: Status) {
    a == b.(pending := a.pending, owned := a.owned)
  }

  // ------------------------------------------------------------ conditions

  // Reasons a True failure condition may carry.
  predicate FailureReason(t: CondType, r: Reason) {
    match t
    case Ready => false
    case InvalidRef => r.InvalidPoolRef? || r.TargetPoolNotFound? || r.InferencePoolCRDMissing?
    case UnsafeSelector => r.InvalidPoolSelector? || r.UnsafeSelectorSet? || r.InvalidIdentityBoundary?
    case Conflict => r.VariantConflict? || r.DuplicateIdentity?
    case RenderFailure =>
      r.MissingTrustDomain? || r.InvalidServiceAccountName? || r.InvalidSPIFFEID?
      || r.ClusterSPIFFEIDCRDMissing? || r.ManagedOutputApplyFailed?
  }

  predicate AllowedCondition(t: CondType, c: Option<Condition>) {
    && c.Some?
    && match c.value.status
       case Unknown => c.value.reason.Initializing?
       case False => if t.Ready? then exists f :: FailureReason(f, c.value.reason) else c.value.reason.Resolved?
       case True => if t.Ready? then c.value.reason.Reconciled? else FailureReason(t, c.value.reason)
  }

  predicate IsTrue(c: Option<Condition>) {
    c.Some? && c.value.status.True?
  }

  // A failure condition is not True, or it is the only one and it shares
  // reason and message with Ready=False.
  predicate Primary(c: Conditions, t: CondType)
    requires c.ready.Some?
  {
    IsTrue(Find(c, t)) ==>
      && c.ready.value.status.False?
      && Find(c, t).value.reason == c.ready.value.reason
      && Find(c, t).value.message == c.ready.value.message
      && (forall u :: u != t && !u.Ready? ==> !IsTrue(Find(c, u)))
  }

  predicate Disciplined(c: Conditions) {
    && AllowedCondition(Ready, c.ready)
    && AllowedCondition(InvalidRef, c.invalidRef)
    && AllowedCondition(UnsafeSelector, c.unsafeSelector)
    && AllowedCondition(Conflict, c.conflict)
    && AllowedCondition(RenderFailure, c.renderFailure)
    && Primary(c, InvalidRef) && Primary(c, UnsafeSelector) && Primary(c, Conflict) && Primary(c, RenderFailure)
    && (c.ready.value.status.False? ==> exists t: CondType :: !t.Ready? && IsTrue(Find(c, t)))
  }

  predicate Holds(s: Status, t: CondType) {
    IsTrue(Find(s.conditions, t))
  }

  // The status contract: all condition types present with allowed reasons,
  // rendered fields exactly when Ready, conflict entries exactly when Conflict,
  // and Ready=False exactly when one failure condition is True, sharing its
  // reason and message.
  predicate Consistent(s: Status) {
    && Disciplined(s.conditions)
    && (Holds(s, Ready) <==> s.computed != [])
    && (Holds(s, Ready) <==> s.selectors != [])
    && (Holds(s, Ready) <==> s.rendered.Some?)
    && (Holds(s, Conflict) <==> s.conflicts != [])
  }

  predicate Untouched(s: Status) {
    s.conditions == NO_CONDITIONS && s.computed == [] && s.selectors == [] && s.rendered.None? && s.conflicts == []
  }

  predicate StatusOK(s: Status) {
    Untouched(s) || Consistent(s)
  }

  // ------------------------------------------------------------ status shapes

  function HealthyMessage(t: CondType): Message {
    match t
    case Ready => BindingReconciled
    case InvalidRef => ReferencesValid
    case UnsafeSelector => SelectorsSafe
    case Conflict => VariantExclusive
    case RenderFailure => RenderingHealthy
  }

  function Healthy(gen: nat, t: CondType): Condition {
    Condition(False, gen, Resolved, HealthyMessage(t))
  }

  // Ready as given and every failure condition resolved.
  function Resolving(gen: nat, ready: Condition): Conditions {
    Conditions(Some(ready), Some(Healthy(gen, InvalidRef)), Some(Healthy(gen, UnsafeSelector)),
               Some(Healthy(gen, Conflict)), Some(Healthy(gen, RenderFailure)))
  }

  // Every shape but success clears the rendered fields and the conflict entries.
  function Cleared(s: Status): Status {
    s.(computed := [], selectors := [], rendered := None, conflicts := [])
  }

  function SuccessStatus(s: Status, gen: nat, plan: Plan, out: RenderedOutput): Status {
    s.(computed := [plan.spiffeID],
       selectors := [RenderedSelectors(plan.spiffeID, plan.selectors)],
       rendered := Some(out),
       conflicts := [],
       conditions := Resolving(gen, Condition(True, gen, Reconciled, BindingReconciled)))
  }

  function FailureStatus(s: Status, gen: nat, e: StateError): Status {
    var c := Condition(True, gen, e.reason, Failed(e.message));
    Cleared(s).(conditions := Set(Resolving(gen, c.(status := False)), e.cond, c))
  }

  function ConflictReason(entries: seq<ConflictEntry>): Reason {
    if exists i :: 0 <= i < |entries| && entries[i].cause.DuplicateSPIFFEID? then DuplicateIdentity else VariantConflict
  }

  function ConflictStatus(s: Status, gen: nat, entries: seq<ConflictEntry>): Status {
    var c := Condition(True, gen, ConflictReason(entries), ConflictsWithPeers);
    Cleared(s).(conflicts := entries, conditions := Set(Resolving(gen, c.(status := False)), Conflict, c))
  }

  // Ready=Unknown while waiting; the Conflict condition is Unknown too while
  // conflicting output may still be present.
  function WaitingStatus(s: Status, gen: nat, why: Message, conflictOpen: bool): Status {
    var c := Condition(Unknown, gen, Initializing, why);
    Cleared(s).(conditions := Set(Resolving(gen, c), if conflictOpen then Conflict else Ready, c))
  }

  function InitializedOne(c: Option<Condition>, t: CondType, gen: nat): Option<Condition> {
    if c.None? then Some(Condition(Unknown, gen, Initializing, NotEvaluated(t)))
    else if c.value.message.Failed? && Text.Blank(c.value.message.text) then
      Some(c.value.(generation := gen, message := NotEvaluated(t)))
    else Some(c.value.(generation := gen))
  }

  function Initialized(c: Conditions, gen: nat): Conditions {
    Conditions(
      InitializedOne(c.ready, Ready, gen),
      InitializedOne(c.invalidRef, InvalidRef, gen),
      InitializedOne(c.unsafeSelector, UnsafeSelector, gen),
      InitializedOne(c.conflict, Conflict, gen),
      InitializedOne(c.renderFailure, RenderFailure, gen))
  }

  lemma SuccessIsConsistent(s: Status, gen: nat, plan: Plan, out: RenderedOutput)
    ensures Consistent(SuccessStatus(s, gen, plan, out))
  {}

  lemma FailureIsConsistent(s: Status, gen: nat, e: StateError)
    requires FailureReason(e.cond, e.reason) && !e.cond.Conflict?
    ensures Consistent(FailureStatus(s, gen, e))
    ensures !Holds(FailureStatus(s, gen, e), Conflict)
  {
    assert IsTrue(Find(FailureStatus(s, gen, e).conditions, e.cond));
  }

  lemma ConflictIsConsistent(s: Status, gen: nat, entries: seq<ConflictEntry>)
    requires entries != []
    ensures Consistent(ConflictStatus(s, gen, entries))
  {
    assert IsTrue(Find(ConflictStatus(s, gen, entries).conditions, Conflict));
    assert FailureReason(Conflict, ConflictReason(entries));
  }

  lemma WaitingIsConsistent(s: Status, gen: nat, why: Message, open: bool)
    ensures Consistent(WaitingStatus(s, gen, why, open))
    ensures !Holds(WaitingStatus(s, gen, why, open), Conflict)
  {}

  // ------------------------------------------------------------ patches

  // What a JSON merge patch from `base` to `target` leaves of `server`: a field
  // is sent only when the two differ. The condition list is sent as a whole.
  function Merged(server: Status, base: Status, target: Status): Status {
    Status(
      if base.conditions != target.conditions then target.conditions else server.conditions,
      if base.trustDomain != target.trustDomain then target.trustDomain else server.trustDomain,
      if base.className != target.className then target.className else server.className,
      if base.conflicts != target.conflicts then target.conflicts else server.conflicts,
      if base.computed != target.computed then target.computed else server.computed,
      if base.selectors != target.selectors then target.selectors else server.selectors,
      if base.pending != target.pending then target.pending else server.pending,
      if base.owned != target.owned then target.owned else server.owned,
      if base.rendered != target.rendered then target.rendered else server.rendered)
  }

  // `work` is the in-memory form of the persisted `server`: the same record and
  // rendered fields, with conditions possibly initialized but not yet persisted.
  predicate WorkingCopy(server: Status, work: Status, gen: nat) {
    && server.pending == work.pending && server.owned == work.owned
    && server.conflicts == work.conflicts && server.computed == work.computed
    && server.selectors == work.selectors && server.rendered == work.rendered
    && (work.conditions == server.conditions || work.conditions == Initialized(server.conditions, gen))
  }

  // Reserving from a working copy leaves a consistent status although the
  // unsaved initial conditions are part of the patch base.
  lemma ReservePatchIsConsistent(server: Status, work: Status, gen: nat, r: Record)
    requires StatusOK(server) && WorkingCopy(server, work, gen)
    requires Decode(server) == Some(Unclaimed) && r.Pending? && Storable(r)
    ensures var target := WithRecord(WaitingStatus(work, gen, WaitingForCreate, false), r);
            var m := Merged(server, work, target);
            Consistent(m) && RecordOf(m) == RecordOf(target) && !Holds(m, Conflict) && WorkingCopy(m, target, gen)
  {
    var target := WithRecord(WaitingStatus(work, gen, WaitingForCreate, false), r);
    var m := Merged(server, work, target);
    RecordRoundTrip(WaitingStatus(work, gen, WaitingForCreate, false), r);
    WaitingIsConsistent(work, gen, WaitingForCreate, false);
    if work.conditions == target.conditions {
      assert server.conditions != NO_CONDITIONS;
      assert Initialized(server.conditions, gen) == target.conditions;
    }
  }

  // Promoting or clearing changes the record and nothing else.
  lemma RecordPatchKeepsView(server: Status, work: Status, gen: nat, r: Record)
    requires WorkingCopy(server, work, gen) && Storable(r)
    ensures var m := Merged(server, work, WithRecord(work, r));
            SameView(m, server) && RecordOf(m) == r && Decode(m).Some?
            && WorkingCopy(m, WithRecord(work, r), gen) && (StatusOK(server) ==> StatusOK(m))
  {
    RecordRoundTrip(work, r);
    var m := Merged(server, work, WithRecord(work, r));
    assert m == WithRecord(server, r);
    RecordRoundTrip(server, r);
  }

  // ------------------------------------------------------------ metrics

  datatype Outcome = Outcome(condition: CondType, reason: Reason) | UnclassifiedFailure | NoOutcome

  function DeriveOutcome(s: Status, allowInitializing: bool): Outcome {
    var c := s.conditions;
    if IsTrue(c.ready) then Outcome(Ready, c.ready.value.reason)
    else if allowInitializing && c.ready.Some? && c.ready.value.status.Unknown? && c.ready.value.reason.Initializing? then
      Outcome(Ready, Initializing)
    else if IsTrue(c.invalidRef) then Outcome(InvalidRef, c.invalidRef.value.reason)
    else if IsTrue(c.unsafeSelector) then Outcome(UnsafeSelector, c.unsafeSelector.value.reason)
    else if IsTrue(c.conflict) then Outcome(Conflict, c.conflict.value.reason)
    else if IsTrue(c.renderFailure) then Outcome(RenderFailure, c.renderFailure.value.reason)
    else if c.ready.Some? && c.ready.value.status.False? then UnclassifiedFailure
    else NoOutcome
  }

  // On a consistent status the metric never falls back to UnclassifiedFailure:
  // it carries Ready's own reason under the condition that is True.
  lemma OutcomeIsClassified(s: Status, allowInitializing: bool)
    requires StatusOK(s)
    ensures DeriveOutcome(s, allowInitializing) != UnclassifiedFailure
    ensures var o := DeriveOutcome(s, allowInitializing);
            o.Outcome? ==> s.conditions.ready.Some? && o.reason == s.conditions.ready.value.reason
                           && (Holds(s, o.condition) || o == Outcome(Ready, Initializing))
    ensures DeriveOutcome(s, true).NoOutcome? <==> Untouched(s)
  {
    if Consistent(s) && s.conditions.ready.value.status.False? {
      var t: CondType :| !t.Ready? && IsTrue(Find(s.conditions, t));
    }
  }
}
