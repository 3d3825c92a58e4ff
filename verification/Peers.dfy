// Peers in the conflict phase: resolving and rendering a stored binding, and how
// a listed binding enters the comparison.

module Peers {
  import opened Types
  import opened Statuses
  import opened Store
  import opened Environment
  import opened Client
  import opened Ownership
  import opened Output
  import opened Boundary
  import Pools
  import Render
  import Selection
  import Text

  // ------------------------------------------------------------ rendering a stored binding

  const POOL_GROUP := "inference.networking.k8s.io"

  // What resolving and rendering a binding yields: a plan, a condition to report,
  // or an error to retry.
  datatype Rendering = Plans(plan: Plan) | Fails(error: StateError) | Breaks(err: Err)

  predicate PoolRefOK(spec: BindingSpec) {
    !Text.Blank(spec.poolName) && (Text.Blank(spec.poolGroup) || Text.TrimSpace(spec.poolGroup) == POOL_GROUP)
  }

  function PoolKey(key: Key, spec: BindingSpec): Key {
    Key(key.namespace, Text.TrimSpace(spec.poolName))
  }

  function AsRendering(r: Render.Planned): Rendering {
    if r.Planned? then Plans(r.plan) else Fails(r.error)
  }

  // What a successful plan and an allowed failure guarantee.
  ghost predicate SoundRendering(key: Key, spec: BindingSpec, r: Rendering) {
    match r
    case Plans(plan) => Selection.Bounds(plan.selectors, key.namespace, spec.serviceAccount, spec.variant) && plan.variant == spec.variant
    case Fails(e) => FailureReason(e.cond, e.reason) && !e.cond.Conflict?
    case Breaks(_) => true
  }

  // Rendering against the pools stored in s.
  ghost function RenderingOf(config: Config, s: State, key: Key, spec: BindingSpec): Rendering {
    if !PoolRefOK(spec) then Breaks(UnusablePoolRef)
    else if PoolKey(key, spec) !in s.pools then Fails(StateError(InvalidRef, TargetPoolNotFound, "poolRef was not found"))
    else AsRendering(Pools.IdentityOf(config, key, spec, s.pools[PoolKey(key, spec)]))
  }

  // A binding's own identity: unlike on the peer path, an unusable poolRef is a
  // condition to report, and the variant is checked first.
  ghost function OwnRendering(config: Config, s: State, key: Key, spec: BindingSpec): Rendering {
    if Render.VariantError(spec.variant).Some? then Fails(Render.VariantError(spec.variant).value)
    else if !PoolRefOK(spec) then Fails(StateError(InvalidRef, InvalidPoolRef, "unusable poolRef"))
    else RenderingOf(config, s, key, spec)
  }

  lemma RenderingFromPools(config: Config, a: State, b: State, key: Key, spec: BindingSpec)
    ensures a.pools == b.pools ==> RenderingOf(config, a, key, spec) == RenderingOf(config, b, key, spec)
  {
  }

  method ResolveIdentity(api: Cluster, config: Config, key: Key, spec: BindingSpec) returns (r: Rendering)
    requires api.Valid()
    modifies api
    ensures api.Valid() && api.focus == old(api.focus) && Rely(api.rules, api.focus, old(api.s), api.s)
    ensures SoundRendering(key, spec, r)
    ensures r == Breaks(UnusablePoolRef) <==> !PoolRefOK(spec)
    ensures old(api.Calm()) ==> api.Calm() && api.s == old(api.s) && r == RenderingOf(config, api.s, key, spec)
    ensures old(api.Served() && api.script != []) && PoolRefOK(spec) ==>
              && !api.stopped && api.script == old(api.script)[1..] && r == RenderingOf(config, api.s, key, spec)
              && api.s == Played(api.rules, api.focus, old(api.s), old(api.script)[0].before)
  {
    hide GoodTrace, Inv, Rely, Pools.IdentityOf, Selection.Bounds;
    RelyReflexive(api.rules, api.focus, api.s);
    if !PoolRefOK(spec) { return Breaks(UnusablePoolRef); }
    var pool := api.GetPool(PoolKey(key, spec));
    if pool.Err? {
      match pool.err {
        case NotFound => return Fails(StateError(InvalidRef, TargetPoolNotFound, "poolRef was not found"));
        case NoMatch => return Fails(StateError(InvalidRef, InferencePoolCRDMissing, "InferencePool CRD is not installed"));
        case _ => return Breaks(Api(pool.err));
      }
    }
    var planned := Pools.RenderIdentity(config, key, spec, pool.value);
    return AsRendering(planned);
  }

  // ------------------------------------------------------------ one peer

  // How a listed binding enters the comparison.
  datatype Standing = Ignored | Relevant(plan: Plan) | Blocking

  // What remains of a peer in the comparison: nothing when its output is gone,
  // its rendered boundary, or a block while output it cannot be rendered for remains.
  ghost predicate Assessed(r: Rules, s: State, key: Key, plan: Plan, peerKey: Key, spec: BindingSpec, st: Standing) {
    match st
    case Ignored => Covering(r) ==> StoredRecord(s, peerKey).Unclaimed?
    case Relevant(p) => if peerKey == key then p == plan else p.variant == spec.variant
    case Blocking => peerKey != key
  }

  // The standing of listed version p by itself; None when it cannot be told.
  ghost function StandingIn(config: Config, s: State, key: Key, plan: Plan, p: Stored): Option<Standing> {
    var live := Live(s, RecordOf(p.status));
    if p.deleting && !live then Some(Ignored)
    else if p.key == key then Some(Relevant(plan))
    else match RenderingOf(config, s, p.key, p.spec)
         case Plans(q) => Some(Relevant(q))
         case Fails(_) => Some(if live then Blocking else Ignored)
         case Breaks(_) => None
  }

  // The assessment of an undisturbed peer: its standing, or the error that hides it.
  ghost predicate StandsAs(config: Config, s: State, key: Key, plan: Plan, p: Stored, st: Standing, err: Option<Err>) {
    match StandingIn(config, s, key, plan, p)
    case Some(x) => err.None? && st == x
    case None => RenderingOf(config, s, p.key, p.spec).Breaks? && err == Some(RenderingOf(config, s, p.key, p.spec).err)
  }

  // A record of live output still covers it.
  predicate Outlives(s: State, before: Record, after: Record) {
    Live(s, before) ==> Covers(after, s.objects[before.name])
  }

  // What assessing an undisturbed peer does to the store: nothing, or its record
  // is promoted or cleared to what is live.
  ghost predicate Tended(config: Config, a: State, b: State, key: Key, p: Stored) {
    var before, after := RecordOf(p.status), StoredRecord(b, p.key);
    var listed := p.deleting || (p.key != key && RenderingOf(config, a, p.key, p.spec).Fails?);
    && OnlyBinding(a, b, p.key) && Live(b, after) == Live(a, before) && Outlives(a, before, after)
    && (if listed then Tidy(b, after) else b == a)
    && (Tidy(a, before) ==> b == a)
  }

  method IdentityForConflictEvaluation(api: Cluster, config: Config, key: Key, plan: Plan, peer: Binding) returns (st: Standing, err: Option<Err>)
    requires api.Valid() && peer.Good(api) && (Covering(api.rules) ==> peer.Synced(api))
    modifies api, peer
    ensures api.Valid() && api.focus == old(api.focus)
    ensures Frame(old(api.s), api.s) && SameRecordsBut(old(api.s), api.s, peer.key) && Steady(api.rules, api.focus, old(api.s), api.s)
    ensures err.None? ==> peer.Good(api) && peer.spec == old(peer.spec) && (Covering(api.rules) ==> peer.Synced(api))
    ensures err.None? ==> Assessed(api.rules, api.s, key, plan, peer.key, peer.spec, st)
    ensures err.None? && st.Ignored? && old(peer.Synced(api)) ==> StoredRecord(api.s, peer.key).Unclaimed?
    ensures peer.key == key && !old(peer.deleting) ==> err.None? && st == Relevant(plan) && api.s == old(api.s)
    ensures old(api.Calm()) ==> api.Calm()
    ensures old(api.Calm() && Fresh(api, peer)) ==>
              && Tended(config, old(api.s), api.s, key, old(peer.origin)) && (err.None? ==> Fresh(api, peer))
              && StandsAs(config, old(api.s), key, plan, old(peer.origin), st, err)
  {
    hide GoodTrace, Inv, Frame, Steady, Follows, SameView, RenderingOf, OnlyBinding, Live, Tidy, Listed, Outlives;
    st, err := Ignored, None;
    ghost var start, record := api.s, peer.Record();
    ghost var calm := api.Calm() && Fresh(api, peer);
    FrameReflexive(api.rules, api.s);
    RelyReflexive(api.rules, api.focus, api.s);
    OnlyReflexive(api.s, peer.key);
    OutlivesItself(api.s, peer.Record());
    DecodesHere(api, peer);
    if peer.deleting {
      var remaining;
      remaining, err := ListManaged(api, peer);
      if err.Some? { return; }
      if calm { ListedFacts(start, api.s, peer.key, record, peer.Record(), remaining); }
      if |remaining| == 0 { return; }
    }
    if peer.key == key { return Relevant(plan), None; }
    ghost var mid := api.s;
    RenderingFromPools(config, start, mid, peer.key, peer.spec);
    st, err := AssessPeer(api, config, peer);
    FrameTransitive(start, mid, api.s);
    SteadyTransitive(api.rules, api.focus, start, mid, api.s);
    SameRecordsThenBut(start, mid, api.s, peer.key);
    OnlyTransitive(start, mid, api.s, peer.key);
  }

  // Renders a peer, or blocks on output it can no longer be rendered for.
  method AssessPeer(api: Cluster, config: Config, peer: Binding) returns (st: Standing, err: Option<Err>)
    requires api.Valid() && peer.Good(api) && (Covering(api.rules) ==> peer.Synced(api))
    modifies api, peer
    ensures api.Valid() && api.focus == old(api.focus)
    ensures Frame(old(api.s), api.s) && SameRecordsBut(old(api.s), api.s, peer.key) && Steady(api.rules, api.focus, old(api.s), api.s)
    ensures err.None? ==> peer.Good(api) && peer.spec == old(peer.spec) && (Covering(api.rules) ==> peer.Synced(api))
    ensures err.None? && st.Ignored? && (Covering(api.rules) || old(peer.Synced(api))) ==> StoredRecord(api.s, peer.key).Unclaimed?
    ensures err.None? && st.Relevant? ==> st.plan.variant == peer.spec.variant
    ensures old(api.Calm()) ==> api.Calm()
    ensures old(api.Calm() && Fresh(api, peer)) ==>
              && OnlyBinding(old(api.s), api.s, peer.key) && (old(Tidy(api.s, peer.Record())) ==> api.s == old(api.s))
              && (err.None? ==> Fresh(api, peer))
              && Live(api.s, StoredRecord(api.s, peer.key)) == old(Live(api.s, peer.Record()))
              && Outlives(old(api.s), old(peer.Record()), StoredRecord(api.s, peer.key))
              && (if RenderingOf(config, old(api.s), peer.key, old(peer.spec)).Fails? then Tidy(api.s, StoredRecord(api.s, peer.key)) else api.s == old(api.s))
              && match RenderingOf(config, old(api.s), peer.key, old(peer.spec))
                 case Plans(p) => err.None? && st == Relevant(p)
                 case Fails(_) => err.None? && st == if old(Live(api.s, peer.Record())) then Blocking else Ignored
                 case Breaks(e) => err == Some(e)
  {
    hide GoodTrace, Inv, Frame, Steady, Follows, SameView, RenderingOf, Live, Tidy, Listed, OnlyBinding, Outlives;
    st, err := Ignored, None;
    ghost var start, record := api.s, peer.Record();
    ghost var calm := api.Calm() && Fresh(api, peer);
    OnlyReflexive(api.s, peer.key);
    OutlivesItself(api.s, peer.Record());
    DecodesHere(api, peer);
    var r := ResolveIdentity(api, config, peer.key, peer.spec);
    SteadyKeeps(api.rules, api.focus, start, api.s, peer.origin);
    match r {
      case Plans(p) => return Relevant(p), None;
      case Breaks(e) => return Ignored, Some(e);
      case Fails(_) =>
        ghost var before := api.s;
        var remaining;
        remaining, err := ListManaged(api, peer);
        FrameTransitive(start, before, api.s);
        SteadyTransitive(api.rules, api.focus, start, before, api.s);
        SameRecordsThenBut(start, before, api.s, peer.key);
        if err.Some? { return; }
        DecodesHere(api, peer);
        if calm { ListedFacts(before, api.s, peer.key, record, peer.Record(), remaining); }
        return if |remaining| > 0 then Blocking else Ignored, None;
    }
  }

  lemma OutlivesItself(s: State, r: Record)
    ensures Outlives(s, r, r)
  {
  }

  lemma ListedFacts(a: State, b: State, k: Key, before: Record, after: Record, objects: seq<Object>)
    requires Listed(a, b, k, before, after, objects)
    ensures OnlyBinding(a, b, k) && a.pools == b.pools && Tidy(b, after) && (Tidy(a, before) ==> b == a)
    ensures (objects != [] <==> Live(a, before)) && Live(b, after) == Live(a, before) && Outlives(a, before, after)
  {
  }

  lemma OnlyTransitive(a: State, b: State, c: State, k: Key)
    ensures OnlyBinding(a, b, k) && OnlyBinding(b, c, k) ==> OnlyBinding(a, c, k)
  {
  }

  // ------------------------------------------------------------ compared records

  function VariantRecordOf(peer: Key, spec: BindingSpec, plan: Plan): VariantRecord {
    VariantRecord(peer, spec.serviceAccount, plan.variant, plan.spiffeID)
  }

  ghost predicate Before(items: seq<Stored>, i: nat, k: Key) {
    exists j :: 0 <= j < i && j < |items| && items[j].key == k
  }

  ghost predicate Distinct(items: seq<Stored>) {
    forall i, j | 0 <= i < j < |items| :: items[i].key != items[j].key
  }

  // What an assessed peer adds to the comparison.
  function Added(records: seq<VariantRecord>, peer: Key, spec: BindingSpec, st: Standing): seq<VariantRecord> {
    if st.Relevant? then records + [VariantRecordOf(peer, spec, st.plan)] else records
  }
}
