// The API server as the controller's client sees it. Every call is one atomic
// step; before it, other actors take any steps the rules permit, and the call
// may be refused, be applied although an error is reported, or be the last one
// before the process stops.

module Client {
  import opened Types
  import opened Statuses
  import opened Store
  import opened Changes
  import opened Environment
  import opened Calls
  import Selection

  datatype ApiErr = NotFound | VersionConflict | AlreadyExists | NoMatch | Transient(text: string)
  datatype Reply<+T> = Ok(value: T) | Err(err: ApiErr)

  datatype Fault =
    | Fine
    | Refused(noMatch: bool, text: string)   // not applied
    | Lost(err: ApiErr)                      // applied, yet an error is reported

  // What happens around one call: foreign steps before it, its fault, whether
  // the process stops after it, and the versions a stale cache would serve.
  datatype Turn = Turn(before: seq<EnvStep>, fault: Fault, stops: bool, cached: seq<Stored>)

  const CALM_TURN := Turn([], Fine, false, [])

  predicate AllCalm(script: seq<Turn>) {
    forall t | t in script :: t == CALM_TURN
  }

  function Refusal(f: Fault): ApiErr
    requires f.Refused?
  {
    if f.noMatch then NoMatch else Transient(f.text)
  }

  // What a binding read finds: the first cached version if reads may be stale.
  function Cached(r: Rules, s: State, cached: seq<Stored>, key: Key): Reply<Stored> {
    if !r.current && cached != [] then
      var v := cached[0];
      if v in s.past && v.key == key then Ok(v) else Err(NotFound)
    else if key in s.bindings then Ok(s.bindings[key]) else Err(NotFound)
  }

  // A run: every state keeps the invariant and every step is legal.
  ghost predicate GoodTrace(r: Rules, t: seq<State>) {
    && (forall i | 0 <= i < |t| :: Inv(r, t[i]))
    && (forall i | 0 < i < |t| :: Step(r, t[i - 1], t[i]))
  }

  lemma GoodTraceExtends(r: Rules, t: seq<State>, s: State)
    requires GoodTrace(r, t) && t != [] && Inv(r, s) && Step(r, t[|t| - 1], s)
    ensures GoodTrace(r, t + [s])
  {
    hide Inv, Step;
  }

  class Cluster {
    const rules: Rules
    ghost const genesis: State  // where the run started
    var s: State
    var script: seq<Turn>       // what the world will do, call by call; nothing once it is used up
    var stopped: bool           // the process is gone: no call reaches the server any more
    var focus: Focus            // the binding under reconciliation
    ghost var losses: nat       // how many clears and finalizer removals landed although an error was reported
    ghost var trace: seq<State> // every state since the start

    ghost predicate Valid()
      reads this
    {
      trace != [] && trace[0] == genesis && trace[|trace| - 1] == s && GoodTrace(rules, trace) && Inv(rules, s)
    }

    // From here on every call is undisturbed.
    predicate Calm()
      reads this
    {
      AllCalm(script) && !stopped
    }

    constructor (rules: Rules, s: State, script: seq<Turn>)
      requires Inv(rules, s)
      ensures Valid() && this.rules == rules && this.s == s && this.script == script && !stopped && genesis == s
    {
      this.rules, this.s, this.script, this.stopped, this.focus, this.losses := rules, s, script, false, NO_FOCUS, 0;
      this.genesis, this.trace := s, [s];
    }

    // Moves to the next state of the run.
    method Advance(next: State)
      requires Valid() && Inv(rules, next) && Step(rules, s, next)
      modifies this`s, this`trace
      ensures Valid() && s == next && trace == old(trace) + [next]
    {
      GoodTraceExtends(rules, trace, next);
      s := next;
      trace := trace + [next];
    }

    // Lets other actors go first.
    method Tick() returns (turn: Turn)
      requires Valid()
      modifies this`s, this`script, this`trace
      ensures Valid() && Rely(rules, focus, old(s), s)
      ensures stopped ==> s == old(s)
      ensures old(Calm()) ==> Calm() && s == old(s) && turn == CALM_TURN
      ensures if stopped || old(script) == [] then s == old(s) && turn == CALM_TURN && script == old(script)
              else s == Played(rules, focus, old(s), turn.before) && turn == old(script)[0] && script == old(script)[1..]
    {
      hide GoodTrace, Inv, Step, Frame, SameRecords, Follows;
      RelyReflexive(rules, focus, s);
      if stopped || script == [] {
        return CALM_TURN;
      }
      turn := script[0];
      assert turn in script && forall t | t in script[1..] :: t in script;
      script := script[1..];
      for i := 0 to |turn.before|
        invariant Valid() && Rely(rules, focus, old(s), s) && !stopped && s == Played(rules, focus, old(s), turn.before[..i])
        invariant script == old(script)[1..]
      {
        assert turn.before[..i + 1][..i] == turn.before[..i];
        if Permitted(rules, focus, s, turn.before[i]) {
          ghost var was := s;
          EnvKeeps(rules, focus, s, turn.before[i]);
          Advance(Apply(s, turn.before[i]));
          RelyTransitive(rules, focus, old(s), was, s);
        }
      }
      assert turn.before[..|turn.before|] == turn.before;
    }

    // The next call reaches the server and its reply arrives.
    predicate Served()
      reads this
    {
      !stopped && (script == [] || (script[0].fault.Fine? && !script[0].stops))
    }

    // ---------------------------------------------------------- reads

    // Unstructured reads are live.
    method GetObject(name: string) returns (r: Reply<Object>)
      requires Valid()
      modifies this`s, this`script, this`trace, this`stopped
      ensures Valid() && Rely(rules, focus, old(s), s)
      ensures r.Ok? ==> name in s.objects && r.value == s.objects[name]
      ensures r == Err(NotFound) ==> name !in s.objects
      ensures old(Calm()) ==> Calm() && s == old(s) && r == if name in s.objects then Ok(s.objects[name]) else Err(NotFound)
    {
      hide GoodTrace, Rely, Inv, AllCalm;
      var turn := Tick();
      r := if stopped then Err(Transient("stopped"))
           else if turn.fault.Refused? then Err(Refusal(turn.fault))
           else if name in s.objects then Ok(s.objects[name]) else Err(NotFound);
      stopped := stopped || turn.stops;
    }

    method GetPool(key: Key) returns (r: Reply<Pool>)
      requires Valid()
      modifies this`s, this`script, this`trace, this`stopped
      ensures Valid() && Rely(rules, focus, old(s), s)
      ensures old(Calm()) ==> Calm() && s == old(s) && r == if key in s.pools then Ok(s.pools[key]) else Err(NotFound)
      ensures old(Served() && script != []) ==>
                && !stopped && script == old(script)[1..] && s == Played(rules, focus, old(s), old(script)[0].before)
                && r == if key in s.pools then Ok(s.pools[key]) else Err(NotFound)
    {
      hide GoodTrace, Rely, Inv, AllCalm;
      var turn := Tick();
      r := if stopped then Err(Transient("stopped"))
           else if turn.fault.Refused? then Err(Refusal(turn.fault))
           else if key in s.pools then Ok(s.pools[key]) else Err(NotFound);
      stopped := stopped || turn.stops;
    }

    // Binding reads go through a cache: unless reads are current, any version
    // ever persisted may be served, or none.
    method GetBinding(key: Key) returns (r: Reply<Stored>)
      requires Valid()
      modifies this`s, this`script, this`trace, this`stopped
      ensures Valid() && Rely(rules, focus, old(s), s)
      ensures r.Ok? ==> r.value in s.past && r.value.key == key
      ensures rules.current && r.Ok? ==> key in s.bindings && r.value == s.bindings[key]
      ensures old(Calm()) ==>
                Calm() && s == old(s) && r == if key in s.bindings then Ok(s.bindings[key]) else Err(NotFound)
      ensures old(Served() && script != []) ==>
                && !stopped && script == old(script)[1..] && s == Played(rules, focus, old(s), old(script)[0].before)
                && r == Cached(rules, s, old(script)[0].cached, key)
    {
      hide GoodTrace, Rely, AllCalm;
      var turn := Tick();
      if key in s.bindings { StoredVersion(rules, s, key); }
      hide GoodTrace, Inv;
      r := if stopped then Err(Transient("stopped"))
           else if turn.fault.Refused? then Err(Refusal(turn.fault))
           else Cached(rules, s, turn.cached, key);
      stopped := stopped || turn.stops;
    }

    // The bindings of one namespace, in any order. From here on the binding under
    // reconciliation is compared with what was read.
    method ListBindings(namespace: string) returns (r: Reply<seq<Stored>>)
      requires Valid()
      modifies this`s, this`script, this`trace, this`stopped, this`focus
      ensures Valid() && Rely(rules, old(focus), old(s), s)
      ensures focus == AfterList(old(focus), s)
      ensures r.Ok? ==> forall i | 0 <= i < |r.value| :: r.value[i] in s.past && r.value[i].key.namespace == namespace
      ensures r.Ok? && (rules.current || old(Calm())) ==> Listing(s, namespace, r.value)
      ensures old(Calm()) ==> Calm() && s == old(s) && r.Ok?
    {
      hide GoodTrace, Rely, AllCalm;
      var turn := Tick();
      forall k | k in s.bindings ensures s.bindings[k] in s.past && s.bindings[k].key == k { StoredVersion(rules, s, k); }
      hide GoodTrace, Inv;
      if stopped {
        r := Err(Transient("stopped"));
      } else if turn.fault.Refused? {
        r := Err(Refusal(turn.fault));
      } else if !rules.current && turn.cached != [] {
        var items: seq<Stored> := [];
        for i := 0 to |turn.cached|
          invariant forall j | 0 <= j < |items| :: items[j] in s.past && items[j].key.namespace == namespace
        {
          if turn.cached[i] in s.past && turn.cached[i].key.namespace == namespace { items := items + [turn.cached[i]]; }
        }
        r := Ok(items);
      } else {
        var items := Enumerate(s, namespace);
        r := Ok(items);
      }
      stopped := stopped || turn.stops;
      focus := AfterList(focus, s);
    }

    // ---------------------------------------------------------- writes

    // A fresh correlation token.
    method NewClaim(key: Key, name: string) returns (claim: string)
      requires Valid()
      modifies this`s, this`trace
      ensures Valid() && Rely(rules, focus, old(s), s)
      ensures claim == Mint(|old(s).claims|) && s == Minted(old(s), key, name)
      ensures IssuedTo(s, claim) == Some(Issue(key, name))
    {
      hide GoodTrace, Inv, Step;
      claim := Mint(|s.claims|);
      MintInv(rules, s, key, name);
      MintSteady(rules, focus, s, key, name);
      Advance(Minted(s, key, name));
    }

    // Patches the status of the version `from` under an optimistic lock.
    method PatchStatus(ghost from: Stored, key: Key, rv: nat, base: Status, target: Status) returns (r: Reply<Stored>)
      requires Valid() && from.key == key && from.rv == rv
      requires Patchable(rules, s, from, from.(status := Merged(from.status, base, target)))
      modifies this`s, this`script, this`trace, this`stopped, this`losses
      ensures var to := from.(status := Merged(from.status, base, target));
              && Valid() && PatchEffect(rules, focus, old(s), s, from, to)
              && (r.Ok? ==> key in s.bindings && s.bindings[key] == r.value && r.value in s.past && r.value == to.(rv := r.value.rv))
              && (r.Ok? ==> key in old(s).bindings && old(s).bindings[key] == from)
              && (r.Ok? && (Reserves(from, to) ==> Reservable(focus, from)) && Follows(rules, focus, old(s), from) ==> Follows(rules, focus, s, r.value))
              && (if Clears(from, to) then losses >= old(losses) else losses == old(losses))
              && (Clears(from, to) && losses == old(losses) && r.Err? ==> Rely(rules, focus, old(s), s))
              && (old(Calm()) ==> Calm() && if key in old(s).bindings && old(s).bindings[key].rv == rv
                                            then r.Ok? && s == Put(old(s), to) else r.Err? && !r.err.NoMatch? && s == old(s))
    {
      hide GoodTrace, Inv, Step, Patchable, Rely, PatchEffect, Merged, Put, AllCalm, Clears, Reserves, Reservable, Follows;
      ghost var to := from.(status := Merged(from.status, base, target));
      ghost var start := s;
      var turn := Tick();
      PatchMisses(rules, focus, start, s, from, to);
      if stopped {
        r := Err(Transient("stopped"));
      } else if turn.fault.Refused? {
        r := Err(Refusal(turn.fault));
      } else if key !in s.bindings {
        r := Err(NotFound);
      } else if s.bindings[key].rv != rv {
        r := Err(VersionConflict);
      } else {
        LandPatch(start, from, key, base, target);
        if turn.fault.Lost? && Clears(from, to) { losses := losses + 1; }
        r := if turn.fault.Lost? then Err(turn.fault.err) else Ok(s.bindings[key]);
      }
      stopped := stopped || turn.stops;
    }

    method LandPatch(ghost start: State, ghost from: Stored, key: Key, base: Status, target: Status)
      requires Valid() && from.key == key && key in s.bindings && s.bindings[key].rv == from.rv && Inv(rules, start) && Rely(rules, focus, start, s)
      requires var to := from.(status := Merged(from.status, base, target)); Patchable(rules, start, from, to) && Patchable(rules, s, from, to)
      modifies this`s, this`trace
      ensures var to := from.(status := Merged(from.status, base, target));
              && Valid() && PatchEffect(rules, focus, start, s, from, to) && old(s.bindings[key]) == from && s == Put(old(s), to)
              && key in start.bindings && start.bindings[key] == from
              && key in s.bindings && s.bindings[key] in s.past && s.bindings[key] == to.(rv := s.bindings[key].rv)
              && ((Reserves(from, to) ==> Reservable(focus, from)) && Follows(rules, focus, start, from) ==> Follows(rules, focus, s, s.bindings[key]))
    {
      hide GoodTrace, Inv, Step, Patchable, Rely, PatchEffect, Merged, Put, Reserves, Reservable, Follows;
      ghost var to := from.(status := Merged(from.status, base, target));
      PatchHits(rules, focus, start, s, from, to);
      PutStores(s, to);
      var b := s.bindings[key];
      Advance(Put(s, b.(status := Merged(b.status, base, target))));
    }

    // Updates the controller's finalizer on the version `from`. A deleting
    // binding without finalizers disappears.
    method UpdateFinalizer(ghost from: Stored, key: Key, rv: nat, present: bool) returns (r: Reply<Stored>)
      requires Valid() && from in s.past && from.key == key && from.rv == rv
      requires present || RecordOf(from.status).Unclaimed?
      modifies this`s, this`script, this`trace, this`stopped, this`losses
      ensures Valid() && SameRecords(old(s), s) && Steady(rules, focus, old(s), s)
      ensures losses >= old(losses) && (present || (losses == old(losses) && r.Err?) ==> Rely(rules, focus, old(s), s))
      ensures r.Ok? ==> r.value == from.(finalizer := present, rv := r.value.rv)
      ensures r.Ok? && present ==> key in s.bindings && s.bindings[key] == r.value && r.value in s.past
      ensures old(Calm()) ==> Calm()
      ensures old(Calm()) && key in old(s).bindings && old(s).bindings[key] == from ==>
                r.Ok? && s == if from.deleting && !present && !from.guarded then Drop(old(s), key) else Put(old(s), from.(finalizer := present))
    {
      hide GoodTrace, Inv, Step, Rely, RecordOf, Put, Drop, SameRecords, Steady, AllCalm;
      ghost var start := s;
      var turn := Tick();
      RelyParts(rules, focus, start, s);
      if stopped {
        r := Err(Transient("stopped"));
      } else if turn.fault.Refused? {
        r := Err(Refusal(turn.fault));
      } else if key !in s.bindings {
        r := Err(NotFound);
      } else if s.bindings[key].rv != rv {
        r := Err(VersionConflict);
      } else {
        SameVersion(rules, s, from);
        ghost var mid := s;
        var b := LandFinalizer(key, present);
        RelyThen(rules, focus, start, mid, s);
        if present { RelyTransitive(rules, focus, start, mid, s); }
        if turn.fault.Lost? && !present { losses := losses + 1; }
        r := if turn.fault.Lost? then Err(turn.fault.err) else Ok(b);
      }
      stopped := stopped || turn.stops;
    }

    method LandFinalizer(key: Key, present: bool) returns (b: Stored)
      requires Valid() && key in s.bindings && (present || RecordOf(s.bindings[key].status).Unclaimed?)
      modifies this`s, this`trace
      ensures Valid() && SameRecords(old(s), s) && Steady(rules, focus, old(s), s) && (present ==> Rely(rules, focus, old(s), s))
      ensures b == old(s.bindings[key]).(finalizer := present, rv := b.rv)
      ensures present ==> key in s.bindings && s.bindings[key] == b && b in s.past
      ensures var v := old(s.bindings[key]);
              s == if v.deleting && !present && !v.guarded then Drop(old(s), key) else Put(old(s), v.(finalizer := present))
    {
      hide GoodTrace, Inv, Step, Rely, RecordOf, Put, Drop;
      StoredVersion(rules, s, key);
      b := s.bindings[key].(finalizer := present);
      if b.deleting && !present && !b.guarded {
        DropKeeps(rules, focus, s, key);
        Advance(Drop(s, key));
      } else {
        RewriteKeeps(rules, focus, s, b);
        PutStores(s, b);
        Advance(Put(s, b));
        b := s.bindings[key];
      }
    }

    method CreateObject(ghost v: Stored, key: Key, o: Object) returns (r: Reply<Object>)
      requires Valid() && v.key == key && Follows(rules, focus, s, v) && Creatable(rules, s, key, o)
      requires Excluding(rules) ==> focus.key == Some(key) && focus.listed && Extinct(s, focus.rivals)
      requires Fencing(rules) ==> Warded(focus, s, key, o.spec)
      modifies this`s, this`script, this`trace, this`stopped
      ensures Valid() && SameRecords(old(s), s) && Steady(rules, focus, old(s), s)
      ensures r.Ok? ==> o.name in s.objects && r.value == s.objects[o.name] && r.value == MadeObject(old(s), o).(uid := r.value.uid, rv := r.value.rv)
      ensures r.Ok? ==> r.value.name == o.name && 0 < r.value.uid && r.value.uid in s.created && s.created[r.value.uid] == Origin(key, o.name, o.claim)
                        && Only(s, o.claim, r.value.uid)
      ensures old(Calm()) ==> Calm()
      ensures old(Calm()) && o.name !in old(s).objects ==> r.Ok? && s == Make(old(s), key, o)
    {
      hide GoodTrace, Inv, Step, Creatable, Follows, Rely, SameRecords, Steady, Extinct, AllCalm, FenceOf, Coincide;
      ghost var start := s;
      var turn := Tick();
      RelyParts(rules, focus, start, s);
      CreatableStable(rules, focus, start, s, key, o, v);
      if stopped {
        r := Err(Transient("stopped"));
      } else if turn.fault.Refused? {
        r := Err(Refusal(turn.fault));
      } else if o.name in s.objects {
        r := Err(AlreadyExists);
      } else {
        ghost var mid := s;
        MakeLands(rules, focus, s, key, o);
        RelyThen(rules, focus, start, mid, Make(s, key, o));
        Advance(Make(s, key, o));
        r := if turn.fault.Lost? then Err(turn.fault.err) else Ok(s.objects[o.name]);
      }
      stopped := stopped || turn.stops;
    }

    // Updates labels and spec of the object as read, under an optimistic lock.
    method UpdateObject(ghost v: Stored, key: Key, cur: Object, next: Object) returns (r: Reply<Object>)
      requires Valid() && v.key == key && Follows(rules, focus, s, v) && (Fencing(rules) ==> Warded(focus, s, key, next.spec))
      requires Owns(s, key, cur.uid) && Seen(s, cur) && next == cur.(labels := next.labels, spec := next.spec)
      requires Keyed(next.spec, key.namespace)
      modifies this`s, this`script, this`trace, this`stopped
      ensures Valid() && Rely(rules, focus, old(s), s)
      ensures r.Ok? ==> cur.name in s.objects && s.objects[cur.name] == r.value
                        && r.value == next.(rv := r.value.rv, generation := r.value.generation)
      ensures old(Calm()) ==> Calm() && (cur.name in old(s).objects && old(s).objects[cur.name] == cur ==>
                r.Ok? && s == PutObject(old(s), next.(generation := r.value.generation)).(effects := old(s).effects + [Effect(key, cur.uid)]))
    {
      hide GoodTrace, Inv, Step, Follows, Keyed, FenceOf, Rely, PutObject, AllCalm, Extinct;
      ghost var start := s;
      var turn := Tick();
      UpdateStable(rules, focus, start, s, cur, v);
      if stopped {
        r := Err(Transient("stopped"));
      } else if turn.fault.Refused? {
        r := Err(Refusal(turn.fault));
      } else if cur.name !in s.objects {
        r := Err(NotFound);
      } else if s.objects[cur.name].uid != cur.uid || s.objects[cur.name].rv != cur.rv {
        r := Err(VersionConflict);
      } else {
        ghost var mid := s;
        LandObject(v, key, next.(generation := if next.spec == cur.spec then cur.generation else cur.generation + 1));
        RelyTransitive(rules, focus, start, mid, s);
        r := if turn.fault.Lost? then Err(turn.fault.err) else Ok(s.objects[cur.name]);
      }
      stopped := stopped || turn.stops;
    }

    method LandObject(ghost v: Stored, key: Key, o: Object)
      requires Valid() && v.key == key && Follows(rules, focus, s, v) && Owns(s, key, o.uid) && (Fencing(rules) ==> Warded(focus, s, key, o.spec))
      requires o.name in s.objects && s.objects[o.name].uid == o.uid && s.objects[o.name].claim == o.claim
      requires Keyed(o.spec, key.namespace)
      modifies this`s, this`trace
      ensures Valid() && Rely(rules, focus, old(s), s)
      ensures s == PutObject(old(s), o).(effects := old(s).effects + [Effect(key, o.uid)])
      ensures o.name in s.objects && s.objects[o.name] == o.(rv := old(s).nextRv)
    {
      hide GoodTrace, Inv, Step, Follows, Keyed, FenceOf, Rely, PutObject, AllCalm, Extinct;
      UpdateLands(rules, focus, s, key, o, v);
      PutObjectStores(s, o);
      Advance(PutObject(s, o).(effects := s.effects + [Effect(key, o.uid)]));
    }

    // Deletes the object under a UID precondition.
    method DeleteObject(key: Key, name: string, uid: nat) returns (r: Reply<()>)
      requires Valid() && Owns(s, key, uid)
      modifies this`s, this`script, this`trace, this`stopped
      ensures Valid() && Rely(rules, focus, old(s), s)
      ensures old(Calm()) ==> Calm()
      ensures old(Calm()) && name in old(s).objects && old(s).objects[name].uid == uid ==>
                r.Ok? && s == Deleted(old(s), name).(effects := old(s).effects + [Effect(key, uid)])
    {
      hide GoodTrace, Inv, Step, Frame, SameRecords, Steady, AllCalm;
      ghost var start := s;
      var turn := Tick();
      assert Owns(s, key, uid) by { FrameCreated(start, s); }
      hide GoodTrace, Rely;
      if stopped {
        r := Err(Transient("stopped"));
      } else if turn.fault.Refused? {
        r := Err(Refusal(turn.fault));
      } else if name !in s.objects {
        r := Err(NotFound);
      } else if s.objects[name].uid != uid {
        r := Err(VersionConflict);
      } else {
        ghost var mid := s;
        var effects := s.effects + [Effect(key, uid)];
        DeletedKeeps(rules, focus, s, name, effects);
        Advance(Deleted(s, name).(effects := effects));
        RelyTransitive(rules, focus, start, mid, s);
        r := if turn.fault.Lost? then Err(turn.fault.err) else Ok(());
      }
      stopped := stopped || turn.stops;
    }
  }

  // The focus after the list: its rivals are the live outputs of bindings that share
  // its boundary, its lodgers those in the boundary seen.
  function AfterList(f: Focus, s: State): Focus {
    f.(listed := true,
       rivals := set n | n in s.objects && Made(s, n) && f.key.Some? && MakerOf(s, n) != f.key.value && Rivals(s, f.key.value, MakerOf(s, n)) :: s.objects[n].uid,
       lodgers := set n | n in s.objects && Made(s, n) && f.key.Some? && Faces(s, f.key.value, n, f.seen) :: s.objects[n].uid)
  }

  // A version good to act on stays so across the list.
  lemma AfterListFollows(r: Rules, f: Focus, s: State, o: Stored)
    requires Follows(r, f, s, o)
    ensures Follows(r, AfterList(f, s), s, o)
  {
    hide RecordOf;
  }

  // The patch clears a record.
  predicate Clears(from: Stored, to: Stored) {
    !RecordOf(from.status).Unclaimed? && RecordOf(to.status).Unclaimed?
  }

  // The patch stores a claim.
  predicate Reserves(from: Stored, to: Stored) {
    RecordOf(from.status).Unclaimed? && !RecordOf(to.status).Unclaimed?
  }

  // Whether it landed or not, a patch from `from` to `to` changes no other record
  // and leaves the record of its binding alone or moves it to that of `to`.
  ghost predicate PatchEffect(r: Rules, f: Focus, a: State, b: State, from: Stored, to: Stored) {
    && Frame(a, b) && SameRecordsBut(a, b, from.key)
    && (|| StoredRecord(b, from.key) == StoredRecord(a, from.key)
        || (StoredRecord(a, from.key) == RecordOf(from.status) && StoredRecord(b, from.key) == RecordOf(to.status)))
    && (RecordOf(from.status) == RecordOf(to.status) ==> SameRecords(a, b))
    && (Follows(r, f, a, from) && (Reserves(from, to) ==> Reservable(f, from)) ==> Follows(r, f, b, from))
    && (!Reserves(from, to) ==> Steady(r, f, a, b))
  }

  lemma PatchMisses(r: Rules, f: Focus, a: State, b: State, from: Stored, to: Stored)
    requires Inv(r, a) && Rely(r, f, a, b) && Patchable(r, a, from, to)
    ensures PatchEffect(r, f, a, b, from, to) && Patchable(r, b, from, to)
  {
    PatchableStable(r, f, a, b, from, to);
    hide Inv, Patchable, Frame, RecordOf;
  }

  lemma PatchHits(r: Rules, f: Focus, a: State, b: State, from: Stored, to: Stored)
    requires Inv(r, a) && Inv(r, b) && Rely(r, f, a, b) && Patchable(r, a, from, to) && Patchable(r, b, from, to)
    requires from.key in b.bindings && b.bindings[from.key].rv == from.rv
    ensures b.bindings[from.key] == from && from.key in a.bindings && a.bindings[from.key] == from
    ensures Inv(r, Put(b, to)) && Step(r, b, Put(b, to)) && PatchEffect(r, f, a, Put(b, to), from, to)
    ensures Follows(r, f, a, from) && (Reserves(from, to) ==> Reservable(f, from)) ==> Follows(r, f, Put(b, to), to.(rv := b.nextRv))
  {
    hide Inv, Step, Patchable, Steady, Frame, RecordOf, Put, Follows;
    PatchLands(r, f, b, from, to);
    PatchKeepsShape(r, b, from, to);
    if Follows(r, f, a, from) && (Reserves(from, to) ==> Reservable(f, from)) {
      FollowsOn(r, f, a, b, from);
      LegalReserve(r, b, from, to);
      PatchFollowed(r, f, b, from, to);
    }
    NoWriteSince(r, a, b, from, to);
    FrameTransitive(a, b, Put(b, to));
    if !Reserves(from, to) { SteadyTransitive(r, f, a, b, Put(b, to)); }
  }

  // A claim is stored only where none was.
  lemma LegalReserve(r: Rules, s: State, from: Stored, to: Stored)
    requires Patchable(r, s, from, to)
    ensures RecordOf(to.status).Pending? ==> RecordOf(from.status).Pending? || Reserves(from, to)
  {
    hide RecordOf;
  }

  lemma PatchKeepsShape(r: Rules, s: State, from: Stored, to: Stored)
    requires Patchable(r, s, from, to)
    ensures to == from.(status := to.status)
  {
  }

  lemma FollowsOn(r: Rules, f: Focus, a: State, b: State, o: Stored)
    requires Rely(r, f, a, b) && Follows(r, f, a, o)
    ensures Follows(r, f, b, o)
  {
  }

  lemma PutStores(s: State, b: Stored)
    ensures var t := Put(s, b); b.key in t.bindings && t.bindings[b.key] == b.(rv := s.nextRv) && t.bindings[b.key] in t.past
  {
  }

  lemma PutObjectStores(s: State, o: Object)
    ensures var t := PutObject(s, o); o.name in t.objects && t.objects[o.name] == o.(rv := s.nextRv)
  {
  }

  // A stored version that is as old as a is the one stored in a.
  lemma NoWriteSince(r: Rules, a: State, b: State, from: Stored, to: Stored)
    requires Inv(r, a) && Patchable(r, a, from, to) && Frame(a, b)
    requires from.key in b.bindings && b.bindings[from.key] == from
    ensures from.key in a.bindings && a.bindings[from.key] == from
  {
    assert from in a.past && from.rv < a.nextRv;
  }

  lemma RelyThen(r: Rules, f: Focus, a: State, b: State, c: State)
    requires Rely(r, f, a, b) && SameRecords(b, c) && Steady(r, f, b, c)
    ensures SameRecords(a, c) && Steady(r, f, a, c)
  {
    hide Frame, Follows;
    SteadyTransitive(r, f, a, b, c);
    forall k ensures StoredRecord(c, k) == StoredRecord(a, k) { assert StoredRecord(b, k) == StoredRecord(a, k); }
  }

  lemma RelyParts(r: Rules, f: Focus, a: State, b: State)
    requires Rely(r, f, a, b)
    ensures a.past <= b.past && SameRecords(a, b) && Steady(r, f, a, b)
  {
  }

  lemma FrameCreated(a: State, b: State)
    requires Frame(a, b)
    ensures a.created == b.created && a.past <= b.past && a.claims <= b.claims
  {
  }

  lemma MakeLands(r: Rules, f: Focus, s: State, k: Key, o: Object)
    requires Inv(r, s) && Creatable(r, s, k, o) && o.name !in s.objects && (Excluding(r) || Fencing(r) ==> f.key == Some(k))
    ensures var t := Make(s, k, o);
            && Inv(r, t) && Step(r, s, t) && SameRecords(s, t) && Steady(r, f, s, t)
            && Only(t, o.claim, s.nextUid) && 0 < s.nextUid
  {
    hide Step, Inv;
    var t := Make(s, k, o);
    MakeInv(r, s, k, o);
    MakeStep(r, s, k, o);
    MakeOnly(r, s, k, o);
    if f.key == Some(k) && k in s.bindings { MakeApart(r, f, s, k, o); }
    if Fencing(r) { MakeLodged(r, f, s, k, o); }
    hide Make, Creatable, Only, RecordOf, Apart, Noted, Lodged, Committed;
    forall v | Follows(r, f, s, v) ensures Follows(r, f, t, v) { assert StoredRecord(t, v.key) == StoredRecord(s, v.key); }
  }

  // Creating output for the binding under reconciliation leaves others' output as it was.
  lemma MakeLodged(r: Rules, f: Focus, s: State, k: Key, o: Object)
    requires Inv(r, s) && Claimed(s, k, o) && o.name !in s.objects && f.key == Some(k) && StoredRecord(s, k).Pending?
    ensures var t := Make(s, k, o);
            && (Noted(f, s, k) ==> Noted(f, t, k)) && k in t.bindings && Committed(f, s, k) && Committed(f, t, k) && (Lodged(f, s, k) ==> Lodged(f, t, k))
  {
    hide VersionsOK, EffectsOK, Covered, Exclusive, Walled, FenceOf, RecordOf;
    var t := Make(s, k, o);
    forall n | Made(t, n) && MakerOf(t, n) != k
      ensures Made(s, n) && MakerOf(s, n) == MakerOf(t, n) && s.objects[n] == t.objects[n] && (AtHome(s, n) ==> AtHome(t, n))
    {
      MakeMade(s, k, o, n);
    }
  }

  // Creating output for the binding under reconciliation gives it no rival.
  lemma MakeApart(r: Rules, f: Focus, s: State, k: Key, o: Object)
    requires Inv(r, s) && Claimed(s, k, o) && o.name !in s.objects && f.key == Some(k) && k in s.bindings
    ensures Apart(f, s, k) ==> Apart(f, Make(s, k, o), k)
  {
    hide VersionsOK, EffectsOK, Covered, Exclusive, Walled;
    var t := Make(s, k, o);
    forall n | Made(t, n) && MakerOf(t, n) != k ensures Made(s, n) && MakerOf(s, n) == MakerOf(t, n) && s.objects[n].uid == t.objects[n].uid {
      MakeMade(s, k, o, n);
    }
  }

  lemma MakeOnly(r: Rules, s: State, k: Key, o: Object)
    requires Inv(r, s) && Claimed(s, k, o) && o.name !in s.objects
    ensures Only(Make(s, k, o), o.claim, s.nextUid) && 0 < s.nextUid && s.past == Make(s, k, o).past && s.bindings == Make(s, k, o).bindings
  {
    var t := Make(s, k, o);
    forall n | n in t.objects && t.objects[n].claim == o.claim ensures t.objects[n].uid == s.nextUid {
      assert n == o.name;
    }
  }

  lemma UpdateStable(r: Rules, f: Focus, a: State, b: State, cur: Object, v: Stored)
    requires Rely(r, f, a, b) && Seen(a, cur) && Follows(r, f, a, v)
    ensures Seen(b, cur) && Follows(r, f, b, v) && a.created == b.created
    ensures Fencing(r) && Extinct(a, f.lodgers) ==> Extinct(b, f.lodgers)
  {
    SeenStable(a, b, cur);
    if Extinct(a, f.lodgers) { ExtinctStable(a, b, f.lodgers); }
  }

  lemma UpdateLands(r: Rules, f: Focus, s: State, k: Key, o: Object, v: Stored)
    requires Inv(r, s) && Owns(s, k, o.uid) && v.key == k && Follows(r, f, s, v) && (Fencing(r) ==> Warded(f, s, k, o.spec))
    requires o.name in s.objects && s.objects[o.name].uid == o.uid && s.objects[o.name].claim == o.claim
    requires Keyed(o.spec, k.namespace)
    ensures var t := PutObject(s, o).(effects := s.effects + [Effect(k, o.uid)]);
            Inv(r, t) && Step(r, s, t) && Rely(r, f, s, t)
  {
    assert Made(s, o.name) && MakerOf(s, o.name) == k;
    hide FenceOf, Keyed, Noted, Lodged, Fits, RecordOf, Safe, Exclusive, Walled;
    if Fencing(r) {
      assert Covers(StoredRecord(s, k), s.objects[o.name]) && Committed(f, s, k);
      WardedFits(f, s, k, o.spec);
    }
    hide Inv, Step, Rely, Follows;
    PutObjectKeeps(r, f, s, o, s.nextUid, s.effects + [Effect(k, o.uid)]);
  }

  // The versions stored in one namespace, each once.
  ghost predicate Listing(s: State, namespace: string, items: seq<Stored>) {
    && (forall i | 0 <= i < |items| :: items[i].key in s.bindings && s.bindings[items[i].key] == items[i])
    && (forall i, j | 0 <= i < j < |items| :: items[i].key != items[j].key)
    && (forall k | k in s.bindings && k.namespace == namespace :: exists i :: 0 <= i < |items| && items[i] == s.bindings[k])
  }

  method Enumerate(s: State, namespace: string) returns (items: seq<Stored>)
    requires forall k | k in s.bindings :: s.bindings[k].key == k
    ensures Listing(s, namespace, items)
    ensures forall i | 0 <= i < |items| :: items[i].key.namespace == namespace
  {
    items := [];
    var left := set k | k in s.bindings && k.namespace == namespace;
    while left != {}
      invariant forall i | 0 <= i < |items| :: items[i].key in s.bindings && s.bindings[items[i].key] == items[i]
      invariant forall i | 0 <= i < |items| :: items[i].key !in left && items[i].key.namespace == namespace
      invariant forall i, j | 0 <= i < j < |items| :: items[i].key != items[j].key
      invariant forall k | k in s.bindings && k.namespace == namespace ::
                  k in left || exists i :: 0 <= i < |items| && items[i] == s.bindings[k]
      decreases left
    {
      var k :| k in left;
      ghost var was := items;
      items := items + [s.bindings[k]];
      left := left - {k};
      assert items[|was|] == s.bindings[k];
      assert forall i | 0 <= i < |was| :: items[i] == was[i];
    }
  }

  lemma MintSteady(r: Rules, f: Focus, s: State, k: Key, n: string)
    ensures Steady(r, f, s, Minted(s, k, n))
  {
    hide RecordOf, FenceOf;
    var t := Minted(s, k, n);
    forall m ensures Made(t, m) <==> Made(s, m) {}
    if f.key.Some? { SameVacant(s, t, f.key.value); }
  }

  lemma PatchLands(r: Rules, f: Focus, s: State, from: Stored, to: Stored)
    requires Inv(r, s) && Patchable(r, s, from, to) && from.key in s.bindings && s.bindings[from.key].rv == from.rv
    ensures s.bindings[from.key] == from
    ensures var t := Put(s, to); Inv(r, t) && Step(r, s, t) && Frame(s, t) && SameRecordsBut(s, t, from.key)
    ensures StoredRecord(Put(s, to), from.key) == RecordOf(to.status)
    ensures !Reserves(from, to) ==> Steady(r, f, s, Put(s, to))
  {
    assert from in s.past && to.key == from.key;
    hide Inv, Step, Frame, Patchable, Steady, Writable, RecordOf;
    SameVersion(r, s, from);
    PatchableLands(r, s, from, to);
    PutInv(r, s, to);
    PutStep(r, s, to);
    PutRecords(s, to);
    if !Reserves(from, to) { PatchSteady(r, f, s, from, to); }
  }

  lemma RelyReflexive(r: Rules, f: Focus, s: State)
    requires Inv(r, s)
    ensures Rely(r, f, s, s)
  {
    hide VersionsOK, EffectsOK, ClaimsOK, Covered, Exclusive, Walled;
    assert NoGrowth(s, s);
  }
}
