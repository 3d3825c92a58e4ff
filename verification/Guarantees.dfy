// What holds in every run: any number of reconciles of any bindings, with any
// interference, faults, lost replies, stale reads and restarts the rules admit.

module Guarantees {
  import opened Types
  import opened Statuses
  import opened Store
  import opened Changes
  import opened Client
  import opened Selection
  import Reconciler
  import opened Settling
  import Manifest

  // ------------------------------------------------------------ what a state promises

  // Each binding has at most one live created output.
  ghost predicate AtMostOneOutput(s: State) {
    forall m, n | Made(s, m) && Made(s, n) && MakerOf(s, m) == MakerOf(s, n) :: m == n
  }

  predicate Selects(o: Object, pod: Pod) {
    o.spec.Rendered? && PodMatches(pod, Parse(o.spec.selectors))
  }

  // No pod is selected by two live created outputs.
  ghost predicate NoPodTwice(s: State) {
    forall m, n, pod |
      && Made(s, m) && Made(s, n) && MakerOf(s, m).namespace != "" && MakerOf(s, n).namespace != ""
      && Selects(s.objects[m], pod) && Selects(s.objects[n], pod) ::
      m == n
  }

  // Every persisted status keeps the status contract and has a classified outcome.
  ghost predicate StatusesOK(s: State) {
    forall k | k in s.bindings ::
      StatusOK(s.bindings[k].status) && DeriveOutcome(s.bindings[k].status, true) != UnclassifiedFailure
  }

  // A settled conflict holds no record.
  ghost predicate ConflictsUnclaimed(s: State) {
    forall k | k in s.bindings && Holds(s.bindings[k].status, Conflict) :: StoredRecord(s, k).Unclaimed?
  }

  ghost predicate Promise(r: Rules, s: State) {
    && EffectsOK(s) && StatusesOK(s)
    && (Covering(r) ==> Covered(s) && AtMostOneOutput(s) && ConflictsUnclaimed(s))
    && (Excluding(r) ==> Exclusive(s))
    && (Fencing(r) ==> Unshared(s) && NoPodTwice(s))
  }

  lemma CoveredIsAtMostOne(s: State)
    requires ObjectsOK(s) && Covered(s)
    ensures AtMostOneOutput(s)
  {
    hide RecordOf;
    forall m, n | Made(s, m) && Made(s, n) && MakerOf(s, m) == MakerOf(s, n) ensures m == n {
      assert Covers(StoredRecord(s, MakerOf(s, m)), s.objects[m]);
      assert Covers(StoredRecord(s, MakerOf(s, n)), s.objects[n]);
    }
  }

  // Outputs that spell out boundaries nobody shares never share a pod.
  lemma UnsharedIsNoPodTwice(s: State)
    requires ObjectsOK(s) && Covered(s) && Fenced(s) && Unshared(s)
    ensures NoPodTwice(s)
  {
    hide Parse, RecordOf;
    CoveredIsAtMostOne(s);
    forall m, n, pod |
      && Made(s, m) && Made(s, n) && MakerOf(s, m).namespace != "" && MakerOf(s, n).namespace != ""
      && Selects(s.objects[m], pod) && Selects(s.objects[n], pod)
      ensures m == n
    {
      assert Keyed(s.objects[m].spec, MakerOf(s, m).namespace) && Keyed(s.objects[n].spec, MakerOf(s, n).namespace);
      assert !Faces(s, MakerOf(s, m), n, FenceOf(s.objects[m].spec));
    }
  }

  lemma InvKeepsPromise(r: Rules, s: State)
    requires Inv(r, s)
    ensures Promise(r, s)
  {
    hide Covered, Exclusive, Fenced, Unshared, Moored, StatusOK, AtMostOneOutput, NoPodTwice, DeriveOutcome, Holds, RecordOf;
    forall k | k in s.bindings
      ensures StatusOK(s.bindings[k].status) && DeriveOutcome(s.bindings[k].status, true) != UnclassifiedFailure
      ensures Covering(r) && Holds(s.bindings[k].status, Conflict) ==> StoredRecord(s, k).Unclaimed?
    {
      StoredVersion(r, s, k);
      OutcomeIsClassified(s.bindings[k].status, true);
    }
    if Covering(r) { CoveredIsAtMostOne(s); }
    if Fencing(r) { UnsharedIsNoPodTwice(s); }
  }

  // ------------------------------------------------------------ runs

  // A cluster the controller has not acted on yet: bindings without status,
  // foreign objects, no claims.
  ghost predicate Untended(s: State) {
    && s.claims == [] && s.created == map[] && s.effects == [] && ObjectsOK(s)
    && (forall n | n in s.objects :: !IsMinted(s.objects[n].claim))
    && (forall k | k in s.bindings :: s.bindings[k].key == k && s.bindings[k] in s.past)
    && (forall p | p in s.past :: p.status == EMPTY_STATUS && p.rv < s.nextRv)
    && (forall p, q | p in s.past && q in s.past && p.rv == q.rv :: p == q)
  }

  lemma UntendedIsFine(r: Rules, s: State)
    requires Untended(s)
    ensures Inv(r, s)
  {
    assert Decode(EMPTY_STATUS) == Some(Unclaimed) && Untouched(EMPTY_STATUS) && !Holds(EMPTY_STATUS, Conflict);
    assert forall n :: !Made(s, n);
    assert forall p | p in s.past :: Attributed(s, p) && StatusOK(p.status) && RecordOf(p.status).Unclaimed?;
  }

  datatype Job = Job(key: Key, config: Config)

  // Any sequence of reconciles over any script of the world, restarting the
  // process after each stop. Every state of the run keeps the promise and every
  // step obeys the ownership automaton, finalizer safety and settled conflicts.
  method Run(rules: Rules, s: State, script: seq<Turn>, jobs: seq<Job>, digest: string -> string) returns (api: Cluster)
    requires Untended(s) && forall x: string :: Manifest.IsDigest(digest(x))
    ensures |api.trace| > 0 && api.trace[0] == s && api.trace[|api.trace| - 1] == api.s
    ensures forall i | 0 <= i < |api.trace| :: Promise(rules, api.trace[i])
    ensures forall i | 0 < i < |api.trace| :: Step(rules, api.trace[i - 1], api.trace[i])
  {
    hide Inv, Step, Promise, Untended, Manifest.IsDigest;
    UntendedIsFine(rules, s);
    api := new Cluster(rules, s, script);
    for i := 0 to |jobs|
      invariant api.Valid() && api.rules == rules && api.genesis == s && fresh(api)
    {
      api.stopped := false;
      var requeue, err := Reconciler.Reconcile(api, jobs[i].config, jobs[i].key, digest);
    }
    forall i | 0 <= i < |api.trace| ensures Promise(rules, api.trace[i]) { InvKeepsPromise(rules, api.trace[i]); }
  }

  // Convergence: undisturbed, one reconcile of a ripe binding settles it, and the
  // next one makes no API write at all: the whole store is the same value.
  method Converge(api: Cluster, config: Config, key: Key, digest: string -> string) returns (ghost once: State)
    requires api.Valid() && api.Calm() && Ripe(config, api.s, key, digest)
    requires forall x: string :: Manifest.IsDigest(digest(x))
    modifies api
    ensures api.Valid() && Settled(config, once, key, digest) && api.s == once
    ensures Holds(once.bindings[key].status, CondType.Ready) && RecordOf(once.bindings[key].status).Confirmed?
  {
    hide Inv, GoodTrace, Ripe, Settled, Manifest.IsDigest, Reconciler.Leaving, Reconciler.Failing, Reconciler.Clashing;
    var requeue, err := Reconciler.Reconcile(api, config, key, digest);
    once := api.s;
    requeue, err := Reconciler.Reconcile(api, config, key, digest);
    SettledIsReady(config, once, key, digest);
    SettledFacts(config, once, key, digest);
  }
}
