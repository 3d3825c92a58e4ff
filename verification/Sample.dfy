// A small cluster that renders, for the concrete runs that mark the limits.

module Sample {
  import opened Types
  import opened Statuses
  import opened Store
  import opened Boundary
  import opened Peers
  import opened Settling
  import Manifest
  import Pools
  import Render
  import Selection
  import Text

  const HOME := Key("ns", "b")
  const PEER := Key("ns", "c")
  const CONFIG := Config("td", "")
  const LABELS := map["app" := "x"]
  const SELECTOR := Some(Fields(map["app" := Json.Text("x")]))
  const POOLS := map[Key("ns", "p") := Pool("p", SELECTOR), Key("ns", "q") := Pool("q", SELECTOR)]

  // The spec for pool and variant, both named by one letter.
  function Spec(pool: char, variant: char): BindingSpec {
    BindingSpec([pool], "", "sa", [variant])
  }

  // Tells SPIFFE IDs apart by the letter of their pool.
  function Digest(id: string): string {
    if |id| >= 11 && id[|id| - 11] == 'p' then "00000000" else "11111111"
  }

  lemma DigestIsDigest(id: string)
    ensures Manifest.IsDigest(Digest(id))
  {
  }

  // A binding that nobody has reconciled yet.
  function NewBinding(k: Key, rv: nat, pool: char, variant: char): Stored {
    Stored(k, rv, 1, Spec(pool, variant), false, true, false, EMPTY_STATUS)
  }

  lemma Plain(c: char)
    requires 'a' <= c <= 'z'
    ensures Render.IsLabelWord([c]) && Render.IsSubdomain([c]) && !Text.Blank([c]) && Text.Trimmed([c]) && '/' !in [c] && Text.TrimSpace([c]) == [c]
  {
    assert [c][0] == c && !Text.IsSpace(c);
    Text.TrimSpaceMeaning([c]);
  }

  lemma PoolAccepted(name: string)
    ensures Pools.Accepted(Pool(name, SELECTOR)) && Pools.Labels(Pool(name, SELECTOR)) == LABELS
    ensures forall variant :: Pools.BoundaryKept(LABELS, variant)
  {
    var pool, fields := Pool(name, SELECTOR), map["app" := Json.Text("x")];
    assert |"app"| == 3 && |Pools.MATCH_LABELS| == 11 && |Pools.MATCH_EXPRESSIONS| == 16;
    assert "app" in fields && Pools.MATCH_LABELS !in fields && Pools.MATCH_EXPRESSIONS !in fields;
    assert Pools.RawLabels(pool) == Some(fields);
    Plain('x');
    assert "x" == ['x'];
    assert Render.IsLabelWord("app");
    assert Pools.Labels(pool).Keys == {"app"} && |Selection.VARIANT_KEY| != 3;
  }

  lemma PoolIs(k: Key, p: char, c: char)
    requires k.namespace == "ns" && (p == 'p' || p == 'q')
    ensures PoolRefOK(Spec(p, c)) && PoolKey(k, Spec(p, c)) in POOLS && POOLS[PoolKey(k, Spec(p, c))] == Pool([p], SELECTOR)
    ensures Render.AnchorOK(Anchor("pool", [p]))
  {
    Plain(p);
    assert "p" == ['p'] && "q" == ['q'] && "p"[0] != "q"[0];
    assert !Text.IsSpace("pool"[0]);
  }

  lemma SampleIsRenderable(k: Key, p: char, c: char)
    requires k.namespace == "ns" && (p == 'p' || p == 'q') && 'a' <= c <= 'z'
    ensures Pools.Renderable(CONFIG, k, Spec(p, c), Pool([p], SELECTOR))
  {
    Plain(c);
    PoolIs(k, p, c);
    PoolAccepted([p]);
    hide Pools.Accepted, Pools.Labels, Pools.BoundaryKept, Render.AnchorOK, PoolRefOK, POOLS, LABELS, SELECTOR;
    assert "sa"[0] == 's' && "sa"[1] == 'a' && Render.IsSubdomain("sa");
    assert !Text.IsSpace("ns"[1]) && !Text.IsSpace("td"[0]);
  }

  ghost function InputFor(k: Key, p: char, c: char): Render.PlanInput
    requires Pools.Accepted(Pool([p], SELECTOR))
  {
    var labels := Pools.Labels(Pool([p], SELECTOR));
    Pools.InputOf(CONFIG, k, Spec(p, c), Pool([p], SELECTOR), labels, Pools.SomeListing(labels))
  }

  // What rendering the sample gives.
  lemma Renders(s: State, k: Key, p: char, c: char)
    requires s.pools == POOLS && k.namespace == "ns" && (p == 'p' || p == 'q') && 'a' <= c <= 'z'
    ensures PoolRefOK(Spec(p, c)) && Render.VariantError([c]).None? && Pools.Accepted(Pool([p], SELECTOR)) && Render.PlanOf(InputFor(k, p, c)).Planned?
    ensures RenderingOf(CONFIG, s, k, Spec(p, c)) == Plans(Render.PlanOf(InputFor(k, p, c)).plan)
    ensures Pools.Labels(Pool([p], SELECTOR)) == LABELS
  {
    Plain(c);
    Render.VariantErrorMeaning([c]);
    PoolIs(k, p, c);
    PoolAccepted([p]);
    SampleIsRenderable(k, p, c);
    hide PoolRefOK, PoolKey, Render.VariantError, Render.IsLabelWord, Render.IsSubdomain, Pools.Renderable, Pools.Accepted, Pools.Labels, Render.PlanOf,
         Render.SPIFFEID, POOLS, SELECTOR, LABELS, CONFIG, Text.TrimSpace, Render.AnchorOK;
    Pools.RendersIff(CONFIG, k, Spec(p, c), Pool([p], SELECTOR));
  }

  // Variant and SPIFFE ID of the rendered sample.
  lemma RenderedAs(s: State, k: Key, p: char, c: char)
    requires s.pools == POOLS && k.namespace == "ns" && (p == 'p' || p == 'q') && 'a' <= c <= 'z'
    ensures RenderingOf(CONFIG, s, k, Spec(p, c)).Plans?
    ensures var plan := RenderingOf(CONFIG, s, k, Spec(p, c)).plan; plan.variant == [c] && |plan.spiffeID| >= 11 && plan.spiffeID[|plan.spiffeID| - 11] == p
  {
    hide PoolRefOK, PoolKey, Render.VariantError, Pools.Accepted, Pools.Labels, Render.PlanOf, POOLS, SELECTOR, LABELS, RenderingOf, Render.SPIFFEID;
    Renders(s, k, p, c);
    var i := InputFor(k, p, c);
    Render.PlannedSegments(i);
    IdHasPool(i.trustDomain, i.namespace, i.serviceAccount, i.target.anchor, i.variant);
  }

  lemma IdHasPool(trustDomain: string, namespace: string, serviceAccount: string, anchor: Anchor, variant: string)
    requires |variant| == 1 && |anchor.name| == 1
    ensures var id := Render.SPIFFEID(trustDomain, namespace, serviceAccount, anchor, variant); |id| >= 11 && id[|id| - 11] == anchor.name[0]
  {
    var tail := anchor.name + "/variant/" + variant;
    assert |tail| == 11;
  }

  // A binding of the sample is eligible, and its desired name tells its pool.
  lemma SampleIsEligible(s: State, k: Key, p: char, c: char)
    requires s.pools == POOLS && k.namespace == "ns" && (p == 'p' || p == 'q') && 'a' <= c <= 'z'
    requires k in s.bindings && s.bindings[k].spec == Spec(p, c) && !s.bindings[k].deleting
    ensures Eligible(CONFIG, s, k)
    ensures var n := DesiredName(k, PlanOf(CONFIG, s, k), Digest); n != "" && n[|n| - 1] == if p == 'p' then '0' else '1'
  {
    hide RenderingOf, PoolRefOK, Render.VariantError, DesiredName, Render.PlanOf, Pools.Accepted, POOLS;
    Renders(s, k, p, c);
    RenderedAs(s, k, p, c);
    NameEndsInDigest(k, PlanOf(CONFIG, s, k));
  }

  lemma NameEndsInDigest(k: Key, plan: Plan)
    ensures var n := DesiredName(k, plan, Digest); n != "" && n[|n| - 1] == Digest(plan.spiffeID)[7]
  {
    hide Manifest.Sanitize, Manifest.Mode;
  }
}
