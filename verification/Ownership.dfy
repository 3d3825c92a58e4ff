// Durable ownership of managed output: the in-memory binding, the classifier,
// and the reserve, confirm and clear transitions.

module Ownership {
  import opened Types
  import opened Statuses
  import opened Store
  import opened Changes
  import opened Environment
  import opened Calls
  import opened Client
  import Text

  // Errors of the API and of the controller itself.
  datatype Err = Api(err: ApiErr) | UnusableRecord | AlreadyRecorded | MissingUid | ForeignOutput | CreateRace | UnusablePoolRef

  // A binding object in the controller's memory. `origin` is the persisted
  // version its resource version names.
  class Binding {
    const key: Key
    var rv: nat
    var generation: nat
    var spec: BindingSpec
    var deleting: bool
    var finalizer: bool
    var status: Status
    ghost var origin: Stored

    constructor (v: Stored)
      ensures key == v.key && rv == v.rv && generation == v.generation && spec == v.spec
      ensures deleting == v.deleting && finalizer == v.finalizer && status == v.status && origin == v
      ensures Tied()
    {
      key, rv, generation, spec := v.key, v.rv, v.generation, v.spec;
      deleting, finalizer, status, origin := v.deleting, v.finalizer, v.status, v;
    }

    ghost predicate Tied()
      reads this
    {
      && origin.key == key && origin.rv == rv && origin.generation == generation && origin.spec == spec
      && origin.deleting == deleting && origin.finalizer == finalizer
      && WorkingCopy(origin.status, status, generation)
    }

    ghost predicate Good(api: Cluster)
      reads this, api
    {
      Tied() && Follows(api.rules, api.focus, api.s, origin)
    }

    // The persisted record is the one in memory.
    ghost predicate Synced(api: Cluster)
      reads this, api
    {
      StoredRecord(api.s, key) == RecordOf(status)
    }

    function Record(): Record
      reads this
    {
      RecordOf(status)
    }
  }

  // ------------------------------------------------------------ classification

  datatype Kind =
    | UnclaimedAbsent | UnclaimedForeign
    | PendingAbsent | PendingMatched | PendingForeign
    | ConfirmedAbsent | ConfirmedMatched | ConfirmedForeign

  datatype Observation = Observation(kind: Kind, record: Record, live: Option<Object>)

  predicate Matched(k: Kind) { k.PendingMatched? || k.ConfirmedMatched? }
  predicate Foreign(k: Kind) { k.UnclaimedForeign? || k.PendingForeign? || k.ConfirmedForeign? }
  predicate Absent(k: Kind) { k.UnclaimedAbsent? || k.PendingAbsent? || k.ConfirmedAbsent? }

  function ClassifyPending(record: Record, live: Option<Object>): Kind
    requires record.Pending?
  {
    if live.None? then PendingAbsent
    else if live.value.name == record.name && live.value.claim == record.claim then PendingMatched
    else PendingForeign
  }

  function ClassifyConfirmed(record: Record, live: Option<Object>): Kind
    requires record.Confirmed?
  {
    if live.None? then ConfirmedAbsent
    else if live.value.name == record.name && live.value.uid == record.uid then ConfirmedMatched
    else ConfirmedForeign
  }

  // Matched is exactly "the record covers this live object"; everything else
  // live is foreign.
  function Classify(record: Record, live: Option<Object>): (o: Observation)
    ensures o.record == record && o.live == live
    ensures Matched(o.kind) <==> live.Some? && Covers(record, live.value)
    ensures Absent(o.kind) <==> live.None?
    ensures Foreign(o.kind) <==> live.Some? && !Covers(record, live.value)
    ensures o.kind.PendingAbsent? || o.kind.PendingMatched? || o.kind.PendingForeign? <==> record.Pending?
    ensures o.kind.UnclaimedAbsent? || o.kind.UnclaimedForeign? <==> record.Unclaimed?
  {
    var kind := match record
      case Pending(_, _) => ClassifyPending(record, live)
      case Confirmed(_, _) => ClassifyConfirmed(record, live)
      case Unclaimed => if live.Some? then UnclaimedForeign else UnclaimedAbsent;
    Observation(kind, record, live)
  }

  function Lookup(s: State, name: string): Option<Object> {
    if name in s.objects then Some(s.objects[name]) else None
  }

  // A live object under the recorded name proves what became of the recorded
  // incarnation: matched means created for this binding, anything else means gone.
  lemma ObservationMeaning(r: Rules, s: State, v: Stored, o: Observation)
    requires Inv(r, s) && v in s.past && !RecordOf(v.status).Unclaimed?
    requires o == Classify(RecordOf(v.status), Lookup(s, RecordOf(v.status).name))
    ensures Matched(o.kind) ==> o.live.Some? && Owns(s, v.key, o.live.value.uid) && 0 < o.live.value.uid
                                && o.live.value.name == o.record.name && Seen(s, o.live.value)
    ensures o.kind.PendingMatched? ==>
              s.created[o.live.value.uid] == Origin(v.key, o.record.name, o.record.claim)
              && Only(s, o.record.claim, o.live.value.uid)
    ensures !Matched(o.kind) ==> Gone(s, o.record)
  {
    assert Attributed(s, v);
    hide VersionsOK, EffectsOK, Covered, Exclusive, Walled, Decode;
    var rec := RecordOf(v.status);
    forall n | n in s.objects && rec.Pending? && s.objects[n].claim == rec.claim ensures n == rec.name {
      assert Made(s, n) && s.created[s.objects[n].uid].claim == rec.claim;
    }
    forall n | Made(s, n) && rec.Confirmed? && s.objects[n].uid == rec.uid ensures n == rec.name {
      assert s.created[s.objects[n].uid].name == n;
    }
  }

  method Observe(api: Cluster, b: Binding, unclaimedName: string) returns (o: Observation, err: Option<Err>)
    requires api.Valid() && b.Good(api)
    modifies api
    ensures api.Valid() && api.focus == old(api.focus) && Rely(api.rules, api.focus, old(api.s), api.s) && b.Good(api)
    ensures api.losses == old(api.losses)
    ensures err.None? ==> o.record == b.Record() && o == Classify(o.record, o.live)
    ensures err.None? && !o.record.Unclaimed? ==> o.live == Lookup(api.s, o.record.name)
    ensures err.None? && o.record.Unclaimed? ==> o.live == if unclaimedName == "" then None else Lookup(api.s, unclaimedName)
    ensures unclaimedName == "" && Decode(b.status) == Some(Unclaimed) ==> err.None?
    ensures old(api.Calm()) ==> api.Calm() && api.s == old(api.s) && (Decode(b.status).Some? ==> err.None?)
  {
    hide GoodTrace, Inv, Frame, SameRecords, Follows;
    o := Classify(Unclaimed, None);
    RelyReflexive(api.rules, api.focus, api.s);
    if Decode(b.status).None? {
      return o, Some(UnusableRecord);
    }
    var record := Decode(b.status).value;
    var name := if record.Unclaimed? then unclaimedName else record.name;
    if name == "" {
      return Classify(record, None), None;
    }
    var r := api.GetObject(name);
    if r.Err? {
      if r.err.NotFound? { return Classify(record, None), None; }
      return o, Some(Api(r.err));
    }
    return Classify(record, Some(r.value)), None;
  }

  lemma DecodesHere(api: Cluster, b: Binding)
    requires api.Valid() && b.Good(api)
    ensures Decode(b.status).Some? && RecordOf(b.origin.status) == RecordOf(b.status)
    ensures b.origin in api.s.past && Attributed(api.s, b.origin)
  {
    assert Attributed(api.s, b.origin);
  }

  // ------------------------------------------------------------ transitions

  function Target(o: Stored, base: Status, target: Status): Stored {
    o.(status := Merged(o.status, base, target))
  }

  lemma ReservePatchable(r: Rules, s: State, o: Stored, work: Status, name: string, claim: string)
    requires Inv(r, s) && o in s.past && WorkingCopy(o.status, work, o.generation)
    requires RecordOf(work).Unclaimed? && o.finalizer && !Text.Blank(name)
    requires IssuedTo(s, claim) == Some(Issue(o.key, name))
    ensures var target := WithRecord(WaitingStatus(work, o.generation, WaitingForCreate, false), Pending(name, claim));
            && Patchable(r, s, o, Target(o, work, target))
            && RecordOf(target) == RecordOf(Target(o, work, target).status) == Pending(name, claim)
            && WorkingCopy(Target(o, work, target).status, target, o.generation)
  {
    assert Attributed(s, o) && StatusOK(o.status);
    hide GoodTrace, Inv, Safe, StatusOK, Consistent, Merged, WaitingStatus;
    assert claim[0] == 'c' && !Text.IsSpace(claim[0]);
    var rec := Pending(name, claim);
    RecordRoundTrip(WaitingStatus(work, o.generation, WaitingForCreate, false), rec);
    assert Decode(o.status) == Some(Unclaimed);
    ReservePatchIsConsistent(o.status, work, o.generation, rec);
    assert StatusOK(Merged(o.status, work, WithRecord(WaitingStatus(work, o.generation, WaitingForCreate, false), rec))) by {
      ConsistentIsOK(Merged(o.status, work, WithRecord(WaitingStatus(work, o.generation, WaitingForCreate, false), rec)));
    }
  }

  lemma ConsistentIsOK(s: Status)
    requires Consistent(s)
    ensures StatusOK(s)
  {
  }

  lemma ConfirmPatchable(r: Rules, s: State, o: Stored, work: Status, uid: nat)
    requires Inv(r, s) && o in s.past && WorkingCopy(o.status, work, o.generation)
    requires RecordOf(work).Pending? && 0 < uid
    requires uid in s.created && s.created[uid] == Origin(o.key, RecordOf(work).name, RecordOf(work).claim)
    requires Covering(r) ==> Only(s, RecordOf(work).claim, uid)
    ensures var target := WithRecord(work, Confirmed(RecordOf(work).name, uid));
            && Patchable(r, s, o, Target(o, work, target))
            && RecordOf(target) == RecordOf(Target(o, work, target).status) == Confirmed(RecordOf(work).name, uid)
            && WorkingCopy(Target(o, work, target).status, target, o.generation)
  {
  }

  lemma ClearPatchable(r: Rules, s: State, o: Stored, work: Status)
    requires Inv(r, s) && o in s.past && WorkingCopy(o.status, work, o.generation)
    requires Covering(r) ==> Gone(s, RecordOf(work))
    ensures var target := WithRecord(work, Unclaimed);
            && Patchable(r, s, o, Target(o, work, target))
            && RecordOf(target) == RecordOf(Target(o, work, target).status) == Unclaimed
            && WorkingCopy(Target(o, work, target).status, target, o.generation)
  {
    assert Attributed(s, o) && StatusOK(o.status);
    RecordPatchKeepsView(o.status, work, o.generation, Unclaimed);
  }

  // From a to b, only the stored status of k, resource versions and claims changed.
  ghost predicate OnlyBinding(a: State, b: State, k: Key) {
    && b == a.(bindings := b.bindings, nextRv := b.nextRv, claims := b.claims, past := b.past)
    && (k in a.bindings <==> k in b.bindings)
    && (k in a.bindings ==> b.bindings[k] == a.bindings[k].(rv := b.bindings[k].rv, status := b.bindings[k].status))
    && (forall j | j != k :: (j in a.bindings <==> j in b.bindings) && (j in a.bindings ==> a.bindings[j] == b.bindings[j]))
  }

  lemma OnlyReflexive(s: State, k: Key)
    ensures OnlyBinding(s, s, k)
  {
  }

  // The record stands, at most promoted from its claim to the incarnation.
  predicate Retained(before: Record, after: Record) {
    after == before || (before.Pending? && after.Confirmed? && after.name == before.name)
  }

  // Persists an ownership transition from the version in memory and rolls the
  // in-memory status back on any error.
  method PatchOwnership(api: Cluster, b: Binding, base: Status) returns (err: Option<Err>)
    requires api.Valid() && b.origin.key == b.key && b.origin.rv == b.rv && b.origin.generation == b.generation
    requires b.origin.spec == b.spec && b.origin.deleting == b.deleting && b.origin.finalizer == b.finalizer
    requires WorkingCopy(b.origin.status, base, b.generation)
    requires Patchable(api.rules, api.s, b.origin, Target(b.origin, base, b.status))
    requires WorkingCopy(Target(b.origin, base, b.status).status, b.status, b.generation)
    modifies api, b
    ensures api.Valid() && api.focus == old(api.focus) && b.Tied()
    ensures Frame(old(api.s), api.s) && SameRecordsBut(old(api.s), api.s, b.key)
    ensures (RecordOf(base).Unclaimed? ==> RecordOf(old(b.status)).Unclaimed?) ==> Steady(api.rules, api.focus, old(api.s), api.s)
    ensures old(Follows(api.rules, api.focus, api.s, b.origin)) && (RecordOf(base).Unclaimed? && !RecordOf(old(b.status)).Unclaimed? ==> old(Reservable(api.focus, b.origin))) ==>
              Follows(api.rules, api.focus, api.s, b.origin)
    ensures api.losses >= old(api.losses) && (RecordOf(base).Unclaimed? || !RecordOf(old(b.status)).Unclaimed? ==> api.losses == old(api.losses))
    ensures !RecordOf(base).Unclaimed? && RecordOf(old(b.status)).Unclaimed? && err.Some? && api.losses == old(api.losses) ==>
              Rely(api.rules, api.focus, old(api.s), api.s)
    ensures || StoredRecord(api.s, b.key) == old(StoredRecord(api.s, b.key))
            || (old(StoredRecord(api.s, b.key)) == RecordOf(base) && StoredRecord(api.s, b.key) == RecordOf(old(b.status)))
    ensures err.None? ==> b.status == old(b.status) && b.origin == old(Target(b.origin, base, b.status)).(rv := b.rv)
    ensures err.None? ==> b.key in api.s.bindings && api.s.bindings[b.key] == b.origin && b.origin in api.s.past
    ensures err.None? ==> b.key in old(api.s).bindings && old(api.s.bindings[b.key] == b.origin)
    ensures err.Some? ==> b.status == base && b.origin == old(b.origin) && b.rv == old(b.rv)
    ensures b.spec == old(b.spec) && b.deleting == old(b.deleting) && b.finalizer == old(b.finalizer) && b.generation == old(b.generation)
    ensures old(api.Calm()) ==> api.Calm()
    ensures old(api.Calm() && b.key in api.s.bindings && api.s.bindings[b.key] == b.origin) ==>
              err.None? && OnlyBinding(old(api.s), api.s, b.key)
    ensures old(api.Calm() && !(b.key in api.s.bindings && api.s.bindings[b.key].rv == b.rv)) ==>
              err.Some? && err != Some(Api(NoMatch)) && api.s == old(api.s)
  {
    hide GoodTrace, Inv, Frame, Patchable, Steady, Merged, Follows, Rely;
    assert RecordOf(b.origin.status) == RecordOf(base) && RecordOf(Target(b.origin, base, b.status).status) == RecordOf(b.status);
    hide RecordOf, WorkingCopy;
    var r := api.PatchStatus(b.origin, b.key, b.rv, base, b.status);
    if r.Err? {
      b.status := base;
      return Some(Api(r.err));
    }
    b.rv, b.origin := r.value.rv, r.value;
    return None;
  }

  // Stores a fresh claim before Create. Only a binding without record may reserve.
  method ReserveClaim(api: Cluster, b: Binding, name: string) returns (claim: string, err: Option<Err>)
    requires api.Valid() && b.Good(api) && b.finalizer && !Text.Blank(name) && Reservable(api.focus, b.origin)
    modifies api, b
    ensures api.Valid() && api.focus == old(api.focus)
    ensures Frame(old(api.s), api.s) && SameRecordsBut(old(api.s), api.s, b.key)
    ensures b.Good(api)
    ensures err.None? ==> b.Synced(api) && b.Record() == Pending(name, claim) && b.spec == old(b.spec) && SameSettings(b.status, old(b.status))
    ensures err.None? ==> old(b.Record()).Unclaimed? && IssuedTo(api.s, claim) == Some(Issue(b.key, name))
    ensures err.None? ==> b.key in api.s.bindings && api.s.bindings[b.key] == b.origin
    ensures err.None? ==> b.key in old(api.s).bindings && old(api.s.bindings[b.key] == b.origin)
    ensures b.generation == old(b.generation)
    ensures old(api.Calm()) ==> api.Calm()
    ensures old(api.Calm() && b.key in api.s.bindings && api.s.bindings[b.key] == b.origin && Decode(b.status) == Some(Unclaimed)) ==>
              err.None? && OnlyBinding(old(api.s), api.s, b.key)
    ensures old(api.Calm() && !(b.key in api.s.bindings && api.s.bindings[b.key].rv == b.rv)) ==>
              err.Some? && err != Some(Api(NoMatch)) && OnlyBinding(old(api.s), api.s, b.key)
  {
    hide GoodTrace, Inv, Frame, Patchable, Steady;
    OnlyReflexive(api.s, b.key);
    claim := "";
    FrameReflexive(api.rules, api.s);
    if Decode(b.status).None? || !b.Record().Unclaimed? {
      return claim, Some(AlreadyRecorded);
    }
    ghost var start := api.s;
    claim := api.NewClaim(b.key, name);
    ghost var minted := api.s;
    MintedChanges(start, b.key, name);
    var base := b.status;
    ReservePatchable(api.rules, api.s, b.origin, base, name, claim);
    assert SameSettings(WithRecord(WaitingStatus(base, b.generation, WaitingForCreate, false), Pending(name, claim)), base);
    hide SameSettings;
    hide Merged, WorkingCopy, WaitingStatus, WithRecord, RecordOf, Target;
    b.status := WithRecord(WaitingStatus(base, b.generation, WaitingForCreate, false), Pending(name, claim));
    err := PatchOwnership(api, b, base);
    FrameTransitive(start, minted, api.s);
    FrameClaims(minted, api.s);
    IssuedStable(minted, api.s, claim);
  }

  lemma FrameReflexive(r: Rules, s: State)
    requires Inv(r, s)
    ensures Frame(s, s)
  {
    hide Inv;
    RelyReflexive(r, NO_FOCUS, s);
  }

  lemma FrameClaims(a: State, b: State)
    requires Frame(a, b)
    ensures a.claims <= b.claims && a.past <= b.past
  {
  }

  lemma MintedChanges(s: State, k: Key, n: string)
    ensures SameRecords(s, Minted(s, k, n)) && OnlyBinding(s, Minted(s, k, n), k)
    ensures (Minted(s, k, n)).bindings == s.bindings
  {
  }

  // Stores the live UID before the claimed object may be updated or deleted.
  method ConfirmOwnership(api: Cluster, b: Binding, name: string, uid: nat) returns (err: Option<Err>)
    requires api.Valid() && b.Good(api) && b.Record().Pending? && b.Record().name == name
    requires uid in api.s.created && api.s.created[uid] == Origin(b.key, name, b.Record().claim)
    requires Covering(api.rules) ==> Only(api.s, b.Record().claim, uid)
    modifies api, b
    ensures api.Valid() && api.focus == old(api.focus)
    ensures Frame(old(api.s), api.s) && SameRecordsBut(old(api.s), api.s, b.key)
    ensures Steady(api.rules, api.focus, old(api.s), api.s)
    ensures b.Good(api)
    ensures err.None? ==> b.Synced(api) && b.Record() == Confirmed(name, uid) && b.spec == old(b.spec)
    ensures err.None? ==> b.key in api.s.bindings && api.s.bindings[b.key] == b.origin
    ensures b.generation == old(b.generation) && b.finalizer == old(b.finalizer) && b.deleting == old(b.deleting)
    ensures err.None? ==> SameView(b.status, old(b.status)) && b.key in old(api.s).bindings && old(api.s.bindings[b.key] == b.origin)
    ensures api.losses == old(api.losses)
    ensures Retained(old(StoredRecord(api.s, b.key)), StoredRecord(api.s, b.key))
    ensures old(api.Calm()) ==> api.Calm()
    ensures old(api.Calm() && b.key in api.s.bindings && api.s.bindings[b.key] == b.origin) && uid != 0 ==>
              err.None? && OnlyBinding(old(api.s), api.s, b.key)
    ensures old(api.Calm() && !(b.key in api.s.bindings && api.s.bindings[b.key].rv == b.rv)) ==>
              err.Some? && err != Some(Api(NoMatch)) && api.s == old(api.s)
  {
    hide GoodTrace, Inv, Frame, Patchable, Steady;
    FrameReflexive(api.rules, api.s);
    RelyReflexive(api.rules, api.focus, api.s);
    if uid == 0 {
      return Some(MissingUid);
    }
    var base := b.status;
    ConfirmPatchable(api.rules, api.s, b.origin, base, uid);
    assert SameView(WithRecord(base, Confirmed(name, uid)), base);
    hide Merged, WorkingCopy, WithRecord, RecordOf, Target, SameView;
    b.status := WithRecord(base, Confirmed(name, uid));
    err := PatchOwnership(api, b, base);
  }

  // Stores the proven absence of the recorded incarnation.
  method ClearOwnership(api: Cluster, b: Binding) returns (err: Option<Err>)
    requires api.Valid() && b.Good(api)
    requires Covering(api.rules) ==> Gone(api.s, b.Record())
    modifies api, b
    ensures api.Valid() && api.focus == old(api.focus)
    ensures Frame(old(api.s), api.s) && SameRecordsBut(old(api.s), api.s, b.key)
    ensures Steady(api.rules, api.focus, old(api.s), api.s)
    ensures b.Good(api)
    ensures err.None? ==> b.Record().Unclaimed? && b.spec == old(b.spec)
    ensures err.None? && !old(b.Record()).Unclaimed? ==> b.Synced(api)
    ensures old(b.Record()).Unclaimed? ==> api.s == old(api.s) && err.None?
    ensures b.generation == old(b.generation) && b.finalizer == old(b.finalizer) && b.deleting == old(b.deleting)
    ensures err.None? ==> SameView(b.status, old(b.status))
    ensures old(b.Record()).Unclaimed? ==> b.status == old(b.status) && b.origin == old(b.origin)
    ensures err.None? && !old(b.Record()).Unclaimed? ==> b.key in old(api.s).bindings && old(api.s.bindings[b.key] == b.origin)
    ensures api.losses >= old(api.losses) && (err.Some? && api.losses == old(api.losses) ==> SameRecords(old(api.s), api.s))
    ensures StoredRecord(api.s, b.key) == old(StoredRecord(api.s, b.key)) || StoredRecord(api.s, b.key).Unclaimed?
    ensures old(api.Calm()) ==> api.Calm()
    ensures old(api.Calm() && b.key in api.s.bindings && api.s.bindings[b.key] == b.origin) ==>
              err.None? && OnlyBinding(old(api.s), api.s, b.key) && b.key in api.s.bindings && api.s.bindings[b.key] == b.origin
  {
    hide GoodTrace, Inv, Frame, Patchable, Steady;
    FrameReflexive(api.rules, api.s);
    RelyReflexive(api.rules, api.focus, api.s);
    DecodesHere(api, b);
    assert b.Record().Unclaimed? <==> b.status.pending.None? && b.status.owned.None?;
    if b.status.pending.None? && b.status.owned.None? {
      return None;
    }
    var base := b.status;
    ClearPatchable(api.rules, api.s, b.origin, base);
    assert SameView(WithRecord(base, Unclaimed), base);
    hide Merged, WorkingCopy, WithRecord, RecordOf, Target, SameView;
    b.status := WithRecord(base, Unclaimed);
    err := PatchOwnership(api, b, base);
  }
}
