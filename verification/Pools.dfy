// From an InferencePool to identity inputs, and the round trip from pool labels
// through rendered selectors back to a workload selection.

module Pools {
  import opened Types
  import opened Statuses
  import opened Text
  import opened Selection
  import Render

  const MATCH_LABELS := "matchLabels"
  const MATCH_EXPRESSIONS := "matchExpressions"

  function LabelSelector(key: string, value: string): string {
    LABEL_PREFIX + (key + ":" + value)
  }

  // One label entry the renderer accepts.
  predicate EntryOK(key: string, value: Json) {
    value.Text? && key != "" && value.text != "" && Render.IsQualifiedName(key) && Render.IsLabelValue(value.text)
  }

  // The label entries of a pool: a matchLabels object, or a flat string map.
  function RawLabels(pool: Pool): Option<map<string, Json>> {
    if pool.selector.None? || !pool.selector.value.Fields? then None
    else
      var fields := pool.selector.value.fields;
      if fields == map[] || MATCH_EXPRESSIONS in fields then None
      else if MATCH_LABELS in fields then
        if (forall k | k in fields :: k == MATCH_LABELS) && fields[MATCH_LABELS].Fields? then Some(fields[MATCH_LABELS].fields) else None
      else if forall k | k in fields :: fields[k].Text? then Some(fields)
      else None
  }

  predicate Accepted(pool: Pool) {
    && RawLabels(pool).Some? && RawLabels(pool).value != map[]
    && forall k | k in RawLabels(pool).value :: EntryOK(k, RawLabels(pool).value[k])
  }

  function Labels(pool: Pool): map<string, string>
    requires Accepted(pool)
  {
    var raw := RawLabels(pool).value;
    map k | k in raw :: raw[k].text
  }

  // The selectors of the labels, each once, in some order.
  predicate Lists(labels: map<string, string>, derived: seq<string>) {
    && (forall s | s in derived :: exists k :: k in labels && s == LabelSelector(k, labels[k]))
    && (forall k | k in labels :: LabelSelector(k, labels[k]) in derived)
    && |derived| == |labels|
  }

  // Accepts exactly the deterministic selector shapes, whatever the iteration order.
  method DeriveSelectors(pool: Pool) returns (podLabels: map<string, string>, derived: seq<string>, ok: bool)
    ensures ok <==> Accepted(pool)
    ensures ok ==> podLabels == Labels(pool) && Lists(podLabels, derived)
  {
    podLabels, derived, ok := map[], [], false;
    var shape := RawLabels(pool);
    if shape.None? || shape.value == map[] { return; }
    var raw := shape.value;
    hide RawLabels, EntryOK, LabelSelector;
    podLabels, derived, ok := RenderLabels(raw);
    hide Lists;
    if ok {
      assert podLabels == Labels(pool) by { LabelsAreText(pool, podLabels); }
    }
  }

  lemma LabelsAreText(pool: Pool, labels: map<string, string>)
    requires Accepted(pool) && labels.Keys == RawLabels(pool).value.Keys
    requires forall k | k in labels :: RawLabels(pool).value[k].Text? && labels[k] == RawLabels(pool).value[k].text
    ensures labels == Labels(pool)
  {
  }

  method RenderLabels(raw: map<string, Json>) returns (podLabels: map<string, string>, derived: seq<string>, ok: bool)
    ensures ok <==> forall k | k in raw :: EntryOK(k, raw[k])
    ensures ok ==> podLabels.Keys == raw.Keys && Lists(podLabels, derived)
    ensures ok ==> forall k | k in podLabels :: raw[k].Text? && podLabels[k] == raw[k].text
  {
    hide EntryOK, LabelSelector, Lists;
    podLabels, derived, ok := map[], [], false;
    ListsNone();
    var left := raw.Keys;
    while left != {}
      invariant left <= raw.Keys && podLabels.Keys == raw.Keys - left
      invariant forall k | k in podLabels :: EntryOK(k, raw[k]) && raw[k].Text? && podLabels[k] == raw[k].text
      invariant Lists(podLabels, derived)
      decreases left
    {
      var k :| k in left;
      if !EntryOK(k, raw[k]) {
        return map[], [], false;
      }
      EntryIsText(k, raw[k]);
      ListsMore(podLabels, derived, k, raw[k].text);
      podLabels := podLabels[k := raw[k].text];
      derived := derived + [LabelSelector(k, raw[k].text)];
      left := left - {k};
    }
    return podLabels, derived, true;
  }

  lemma ListsNone()
    ensures Lists(map[], [])
  {
  }

  lemma EntryIsText(k: string, v: Json)
    requires EntryOK(k, v)
    ensures v.Text?
  {
  }

  lemma ListsMore(labels: map<string, string>, derived: seq<string>, k: string, v: string)
    requires Lists(labels, derived) && k !in labels
    ensures Lists(labels[k := v], derived + [LabelSelector(k, v)])
  {
    hide LabelSelector;
    var more := labels[k := v];
    var all := derived + [LabelSelector(k, v)];
    forall s | s in all ensures exists j :: j in more && s == LabelSelector(j, more[j]) {
      if s in derived {
        var j :| j in labels && s == LabelSelector(j, labels[j]);
        assert j in more && s == LabelSelector(j, more[j]);
      } else {
        assert k in more && s == LabelSelector(k, more[k]);
      }
    }
    assert forall j | j in labels :: LabelSelector(j, labels[j]) in derived;
    assert all[|derived|] == LabelSelector(k, v);
  }

  // ------------------------------------------------------------ round trip

  // s is one of the selectors of this namespace, service account and label map.
  ghost predicate Speaks(namespace: string, serviceAccount: string, labels: map<string, string>, s: string) {
    || s == NS_PREFIX + namespace || s == SA_PREFIX + serviceAccount
    || exists k :: k in labels && s == LabelSelector(k, labels[k])
  }

  ghost predicate CleanKeys(labels: map<string, string>) {
    forall k | k in labels :: k != "" && ':' !in k
  }

  ghost predicate Mentions(selectors: seq<string>, labels: map<string, string>, k: string) {
    k in labels && LabelSelector(k, labels[k]) in selectors
  }

  lemma LabelSelectorReads(k: string, v: string)
    requires k != "" && ':' !in k
    ensures var s := LabelSelector(k, v);
            FormOf(s) == LabelForm && SplitsLabel(LabelBody(s)) && LabelKey(LabelBody(s)) == k && LabelValue(LabelBody(s)) == v
  {
    FormOfLabel(k + ":" + v);
    SplitExactly(k, v);
  }

  // What one more selector adds to a selection.
  lemma ParseOneSpeaks(sel: WorkloadSelection, namespace: string, serviceAccount: string, labels: map<string, string>, s: string)
    requires CleanKeys(labels) && Speaks(namespace, serviceAccount, labels, s)
    ensures var t := ParseOne(sel, s);
            && t.unsupported == sel.unsupported && t.containerType == sel.containerType && t.containerValue == sel.containerValue
            && t.namespace == (if s == NS_PREFIX + namespace then namespace else sel.namespace)
            && t.serviceAccount == (if s == SA_PREFIX + serviceAccount then serviceAccount else sel.serviceAccount)
            && t.podLabels == sel.podLabels + map k | k in labels && s == LabelSelector(k, labels[k]) :: labels[k]
  {
    hide FormOf, LabelSelector, NS_PREFIX, SA_PREFIX, LabelBody, LabelKey, LabelValue, SplitsLabel;
    FormOfNs(namespace);
    FormOfSa(serviceAccount);
    LabelsRead(labels);
  }

  lemma LabelsRead(labels: map<string, string>)
    requires CleanKeys(labels)
    ensures forall k | k in labels ::
              var l := LabelSelector(k, labels[k]);
              FormOf(l) == LabelForm && SplitsLabel(LabelBody(l)) && LabelKey(LabelBody(l)) == k && LabelValue(LabelBody(l)) == labels[k]
  {
    hide FormOf, LabelSelector, LabelBody, LabelKey, LabelValue, SplitsLabel;
    forall k | k in labels
      ensures var l := LabelSelector(k, labels[k]);
              FormOf(l) == LabelForm && SplitsLabel(LabelBody(l)) && LabelKey(LabelBody(l)) == k && LabelValue(LabelBody(l)) == labels[k]
    {
      LabelSelectorReads(k, labels[k]);
    }
  }

  lemma MentionsAppend(front: seq<string>, last: string, labels: map<string, string>, k: string)
    ensures Mentions(front + [last], labels, k) <==> Mentions(front, labels, k) || (k in labels && last == LabelSelector(k, labels[k]))
  {
    hide LabelSelector;
  }

  lemma {:induction false} ParseSpeaks(selectors: seq<string>, namespace: string, serviceAccount: string, labels: map<string, string>)
    requires CleanKeys(labels) && forall s | s in selectors :: Speaks(namespace, serviceAccount, labels, s)
    ensures Parse(selectors) == WorkloadSelection(
              if NS_PREFIX + namespace in selectors then namespace else "",
              if SA_PREFIX + serviceAccount in selectors then serviceAccount else "",
              map k | k in labels && Mentions(selectors, labels, k) :: labels[k], "", "", [])
  {
    hide Speaks, ParseOne, LabelSelector, NS_PREFIX, SA_PREFIX;
    if selectors != [] {
      var n := |selectors| - 1;
      var front, last := selectors[..n], selectors[n];
      ParseSpeaks(front, namespace, serviceAccount, labels);
      ParseOneSpeaks(Parse(front), namespace, serviceAccount, labels, last);
      assert selectors == front + [last];
      forall k ensures Mentions(selectors, labels, k) <==> Mentions(front, labels, k) || (k in labels && last == LabelSelector(k, labels[k])) {
        MentionsAppend(front, last, labels, k);
      }
    }
  }

  lemma TrimKeepsPrefix(p: string, x: string)
    requires p != "" && Trimmed(p)
    ensures HasPrefix(TrimSpace(p + x), p)
    ensures x != "" && Trimmed(x) ==> TrimSpace(p + x) == p + x
  {
    var s := p + x;
    TrimSpaceMeaning(s);
    var n := TrimLeftShape(s);
    assert s[0] == p[0] && n == 0 && s[0..] == s;
    var m := TrimRightShape(s);
    assert s[|p| - 1] == p[|p| - 1];
    hide TrimLeft, TrimRight, IsSpace;
    assert |p| <= m;
    assert s[..m][..|p|] == p;
    if x != "" && Trimmed(x) { assert s[|s| - 1] == x[|x| - 1]; }
  }

  lemma LabelEntries(pool: Pool, k: string)
    requires Accepted(pool) && k in Labels(pool)
    ensures k != "" && ':' !in k && Labels(pool)[k] != "" && Trimmed(Labels(pool)[k])
  {
    assert EntryOK(k, RawLabels(pool).value[k]);
    Render.ValidNamesAreClean(k);
    Render.ValidNamesAreClean(Labels(pool)[k]);
  }

  lemma PrefixesAreTrimmed()
    ensures NS_PREFIX != "" && Trimmed(NS_PREFIX) && SA_PREFIX != "" && Trimmed(SA_PREFIX)
    ensures LABEL_PREFIX != "" && Trimmed(LABEL_PREFIX)
  {
  }

  // A nonempty trimmed text is unchanged by trimming behind a prefix.
  lemma SelectorIsTrimmed(k: string, v: string)
    requires v != "" && Trimmed(v)
    ensures TrimSpace(LabelSelector(k, v)) == LabelSelector(k, v) && LabelSelector(k, v) != ""
  {
    PrefixesAreTrimmed();
    var s := LabelSelector(k, v);
    assert s[0] == LABEL_PREFIX[0] && s[|s| - 1] == v[|v| - 1];
    hide LABEL_PREFIX;
    TrimSpaceMeaning(s);
  }

  lemma VariantSelectorIs(variant: string)
    ensures Render.VARIANT_PREFIX + variant == LabelSelector(VARIANT_KEY, variant)
  {
    assert Render.VARIANT_PREFIX + variant == LABEL_PREFIX + (VARIANT_KEY + ":" + variant);
  }

  // The members of a planned selector list, and nothing else.
  lemma PlannedSpeaks(pool: Pool, i: Render.PlanInput, s: string)
    requires Accepted(pool) && Lists(Labels(pool), i.target.derived) && Render.PlanOf(i).Planned?
    requires s in Render.PlanOf(i).plan.selectors
    ensures Speaks(i.namespace, i.serviceAccount, Labels(pool)[VARIANT_KEY := i.variant], s)
  {
    hide *;
    var raw := Render.RawSelectors(i);
    var j := PlannedFrom(i, s);
    RawMembers(i, j);
    Render.PlannedSegments(i);
    ServiceAccountIsClean(i);
    if 2 <= j < |raw| - 1 {
      DerivedSpeaks(pool, i, raw[j], s);
    } else {
      OwnSpeaks(i, Labels(pool), raw[j], s);
    }
  }

  // Every planned selector is a trimmed raw one that passed the safety check.
  lemma PlannedFrom(i: Render.PlanInput, s: string) returns (j: nat)
    requires Render.PlanOf(i).Planned? && s in Render.PlanOf(i).plan.selectors
    ensures var raw := Render.RawSelectors(i); j < |raw| && s == TrimSpace(raw[j])
    ensures Render.Within(i.namespace, i.serviceAccount, i.variant, s)
  {
    var raw := Render.RawSelectors(i);
    Render.CanonicalMeaning(raw);
    hide Render.Canonical, Render.Within, Render.RawSelectors;
    assert Render.TrimsTo(raw, s);
    var n: nat :| n < |raw| && TrimSpace(raw[n]) == s;
    j := n;
  }

  lemma RawMembers(i: Render.PlanInput, j: nat)
    requires j < |Render.RawSelectors(i)|
    ensures var raw := Render.RawSelectors(i);
            |raw| == |i.target.derived| + 3
            && (if 2 <= j < |raw| - 1 then raw[j] in i.target.derived
                else raw[j] == NS_PREFIX + i.namespace || raw[j] == SA_PREFIX + i.serviceAccount || raw[j] == Render.VARIANT_PREFIX + i.variant)
  {
    hide NS_PREFIX, SA_PREFIX, Render.VARIANT_PREFIX;
    var raw := Render.RawSelectors(i);
    if 2 <= j < |raw| - 1 { assert raw[j] == i.target.derived[j - 2]; }
  }

  lemma ServiceAccountIsClean(i: Render.PlanInput)
    requires Render.PlanOf(i).Planned?
    ensures i.serviceAccount != "" && Trimmed(i.serviceAccount) && Render.IsLabelWord(i.variant)
  {
    hide Render.SelectorsSafe, Render.Canonical;
    Render.ValidNamesAreClean(i.serviceAccount);
    Render.VariantErrorMeaning(i.variant);
  }

  // The three selectors the planner adds itself.
  lemma OwnSpeaks(i: Render.PlanInput, labels: map<string, string>, own: string, s: string)
    requires own == NS_PREFIX + i.namespace || own == SA_PREFIX + i.serviceAccount || own == Render.VARIANT_PREFIX + i.variant
    requires s == TrimSpace(own) && Render.Within(i.namespace, i.serviceAccount, i.variant, s)
    requires i.serviceAccount != "" && Trimmed(i.serviceAccount) && Render.IsLabelWord(i.variant)
    ensures Speaks(i.namespace, i.serviceAccount, labels[VARIANT_KEY := i.variant], s)
  {
    PrefixesAreTrimmed();
    if own == NS_PREFIX + i.namespace {
      TrimKeepsPrefix(NS_PREFIX, i.namespace);
    } else if own == SA_PREFIX + i.serviceAccount {
      TrimKeepsPrefix(SA_PREFIX, i.serviceAccount);
    } else {
      VariantSelectorIs(i.variant);
      Render.ValidNamesAreClean(i.variant);
      SelectorIsTrimmed(VARIANT_KEY, i.variant);
      assert s == LabelSelector(VARIANT_KEY, labels[VARIANT_KEY := i.variant][VARIANT_KEY]);
    }
  }

  lemma DerivedSpeaks(pool: Pool, i: Render.PlanInput, d: string, s: string)
    requires Accepted(pool) && Lists(Labels(pool), i.target.derived) && d in i.target.derived && s == TrimSpace(d)
    requires Render.Within(i.namespace, i.serviceAccount, i.variant, s)
    ensures Speaks(i.namespace, i.serviceAccount, Labels(pool)[VARIANT_KEY := i.variant], s)
  {
    var labels := Labels(pool);
    var all := labels[VARIANT_KEY := i.variant];
    var k :| k in labels && d == LabelSelector(k, labels[k]);
    LabelEntries(pool, k);
    SelectorIsTrimmed(k, labels[k]);
    if k == VARIANT_KEY {
      VariantSelectorIs(labels[k]);
      VariantSelectorIs(i.variant);
      Render.VariantSelectorForm(labels[k]);
      assert s == LabelSelector(VARIANT_KEY, all[VARIANT_KEY]);
    } else {
      assert s == LabelSelector(k, all[k]);
    }
  }

  lemma PlannedMentions(pool: Pool, i: Render.PlanInput, k: string)
    requires Accepted(pool) && Lists(Labels(pool), i.target.derived) && Render.PlanOf(i).Planned?
    requires k in Labels(pool)[VARIANT_KEY := i.variant]
    ensures LabelSelector(k, Labels(pool)[VARIANT_KEY := i.variant][k]) in Render.PlanOf(i).plan.selectors
  {
    if k == VARIANT_KEY {
      hide NS_PREFIX, SA_PREFIX, VARIANT_KEY, LabelSelector, Render.VARIANT_PREFIX, Render.Canonical, Render.Within;
      VariantSelectorIs(i.variant);
    } else {
      var s := LabelSelector(k, Labels(pool)[k]);
      assert s in i.target.derived;
      hide Render.PlanOf, Render.Canonical, Lists, LabelSelector, Render.RawSelectors, VARIANT_KEY;
      LabelEntries(pool, k);
      SelectorIsTrimmed(k, Labels(pool)[k]);
      hide Accepted, Labels;
      DerivedIsPlanned(i, s);
    }
  }

  lemma DerivedIsPlanned(i: Render.PlanInput, s: string)
    requires Render.PlanOf(i).Planned? && s in i.target.derived && s != "" && TrimSpace(s) == s
    ensures s in Render.PlanOf(i).plan.selectors
  {
    var raw := Render.RawSelectors(i);
    var j :| 0 <= j < |i.target.derived| && i.target.derived[j] == s;
    assert raw[j + 2] == s;
    hide Render.RawSelectors, NS_PREFIX, SA_PREFIX, Render.VARIANT_PREFIX, Render.Within, Render.SelectorsSafe, Render.Canonical;
    Render.CanonicalMeaning(raw);
    assert Render.TrimsTo(raw, s);
  }

  // Selector print/parse round trip: parsing the selectors of an accepted pool's
  // plan gives back the namespace, the service account and exactly the pool labels
  // plus the boundary label, with nothing unsupported.
  lemma SelectorRoundTrip(pool: Pool, i: Render.PlanInput)
    requires Accepted(pool) && Lists(Labels(pool), i.target.derived) && Render.PlanOf(i).Planned?
    ensures Parse(Render.PlanOf(i).plan.selectors)
            == WorkloadSelection(i.namespace, i.serviceAccount, Labels(pool)[VARIANT_KEY := i.variant], "", "", [])
  {
    var selectors := Render.PlanOf(i).plan.selectors;
    var all := Labels(pool)[VARIANT_KEY := i.variant];
    PresentNsSa(i);
    hide Render.PlanOf, Accepted, Lists, Mentions, Parse, Speaks, Labels, NS_PREFIX, SA_PREFIX;
    forall s | s in selectors ensures Speaks(i.namespace, i.serviceAccount, all, s) { PlannedSpeaks(pool, i, s); }
    forall k | k in all ensures k != "" && ':' !in k && Mentions(selectors, all, k) { KeyReadsBack(pool, i, k); }
    ParseSpeaks(selectors, i.namespace, i.serviceAccount, all);
    assert (map k | k in all && Mentions(selectors, all, k) :: all[k]) == all;
  }

  lemma KeyReadsBack(pool: Pool, i: Render.PlanInput, k: string)
    requires Accepted(pool) && Lists(Labels(pool), i.target.derived) && Render.PlanOf(i).Planned?
    requires k in Labels(pool)[VARIANT_KEY := i.variant]
    ensures k != "" && ':' !in k
    ensures Mentions(Render.PlanOf(i).plan.selectors, Labels(pool)[VARIANT_KEY := i.variant], k)
  {
    hide Render.PlanOf, Accepted, Lists, LabelSelector, Labels;
    Render.VariantKeyForm();
    PlannedMentions(pool, i, k);
    if k in Labels(pool) { LabelEntries(pool, k); }
  }

  lemma PresentNsSa(i: Render.PlanInput)
    requires Render.PlanOf(i).Planned?
    ensures NS_PREFIX + i.namespace in Render.PlanOf(i).plan.selectors
    ensures SA_PREFIX + i.serviceAccount in Render.PlanOf(i).plan.selectors
  {
  }

  // ------------------------------------------------------------ rendering a binding

  lemma {:induction false} ListingExists(labels: map<string, string>) returns (derived: seq<string>)
    ensures Lists(labels, derived)
    decreases labels.Keys
  {
    hide Lists;
    if labels == map[] {
      ListsNone();
      derived := [];
    } else {
      var k :| k in labels;
      var fewer := labels - {k};
      var front := ListingExists(fewer);
      ListsMore(fewer, front, k, labels[k]);
      assert fewer[k := labels[k]] == labels;
      derived := front + [LabelSelector(k, labels[k])];
    }
  }

  ghost function SomeListing(labels: map<string, string>): (derived: seq<string>)
    ensures Lists(labels, derived)
  {
    assert exists d :: Lists(labels, d) by { var d := ListingExists(labels); }
    var d :| Lists(labels, d);
    d
  }

  function InputOf(config: Config, key: Key, spec: BindingSpec, pool: Pool, labels: map<string, string>, derived: seq<string>): Render.PlanInput {
    Render.PlanInput(key.namespace, spec.serviceAccount, config.trustDomain, spec.variant,
                     Render.Target(Anchor("pool", pool.name), labels, derived))
  }

  // The identity of a binding and its pool.
  ghost function IdentityOf(config: Config, key: Key, spec: BindingSpec, pool: Pool): Render.Planned {
    if Accepted(pool) then Render.PlanOf(InputOf(config, key, spec, pool, Labels(pool), SomeListing(Labels(pool))))
    else Render.Rejected(StateError(UnsafeSelector, InvalidPoolSelector, "pool selector cannot be rendered"))
  }

  // ------------------------------------------------------------ when a binding renders

  // The selector behind the namespace prefix survives trimming.
  predicate EndsPlain(s: string) {
    s == "" || !IsSpace(s[|s| - 1])
  }

  // A pool label for the boundary key agrees with the boundary.
  predicate BoundaryKept(labels: map<string, string>, variant: string) {
    VARIANT_KEY in labels ==> labels[VARIANT_KEY] == variant
  }

  // What configuration, binding and pool must offer.
  predicate Renderable(config: Config, key: Key, spec: BindingSpec, pool: Pool) {
    && Accepted(pool) && BoundaryKept(Labels(pool), spec.variant) && EndsPlain(key.namespace) && !Blank(config.trustDomain)
    && Render.IsLabelWord(spec.variant) && Render.IsSubdomain(spec.serviceAccount) && Render.AnchorOK(Anchor("pool", pool.name))
  }

  lemma NsSelectorTrims(namespace: string)
    ensures HasPrefix(TrimSpace(NS_PREFIX + namespace), NS_PREFIX)
    ensures TrimSpace(NS_PREFIX + namespace) == NS_PREFIX + namespace <==> EndsPlain(namespace)
  {
    PrefixesAreTrimmed();
    TrimKeepsPrefix(NS_PREFIX, namespace);
    TrimSpaceMeaning(NS_PREFIX + namespace);
    if namespace != "" { assert (NS_PREFIX + namespace)[|NS_PREFIX + namespace| - 1] == namespace[|namespace| - 1]; }
  }

  // A selector of the pool stays inside the boundary unless it sets the boundary label.
  lemma LabelWithin(namespace: string, serviceAccount: string, variant: string, k: string, v: string)
    requires k != "" && ':' !in k
    ensures Render.Within(namespace, serviceAccount, variant, LabelSelector(k, v)) <==> (k == VARIANT_KEY ==> v == variant)
  {
    var s := LabelSelector(k, v);
    LabelSelectorReads(k, v);
    Render.LabelSelectorKey(s);
    VariantSelectorIs(v);
    VariantSelectorIs(variant);
    if k == VARIANT_KEY && s == Render.VARIANT_PREFIX + variant { assert s[|Render.VARIANT_PREFIX|..] == v; }
  }

  // The planner's own selectors stay inside the boundary.
  lemma OwnWithin(namespace: string, serviceAccount: string, variant: string)
    requires !Blank(serviceAccount)
    ensures Render.Within(namespace, serviceAccount, variant, NS_PREFIX + namespace)
    ensures Render.Within(namespace, serviceAccount, variant, SA_PREFIX + serviceAccount)
    ensures Render.Within(namespace, serviceAccount, variant, Render.VARIANT_PREFIX + variant)
    ensures HasPrefix(SA_PREFIX + serviceAccount, SA_PREFIX) && !HasPrefix(SA_PREFIX + serviceAccount, NS_PREFIX)
  {
    FormOfNs(namespace);
    FormOfSa(serviceAccount);
    Render.VariantSelectorForm(variant);
  }

  lemma PlannedIsWithin(i: Render.PlanInput, pool: Pool, j: nat)
    requires Accepted(pool) && Lists(Labels(pool), i.target.derived) && j < |Render.RawSelectors(i)|
    requires BoundaryKept(Labels(pool), i.variant) && EndsPlain(i.namespace)
    requires Render.IsLabelWord(i.variant) && Render.IsSubdomain(i.serviceAccount)
    ensures var s := Render.RawSelectors(i)[j]; TrimSpace(s) == s && s != "" && Render.Within(i.namespace, i.serviceAccount, i.variant, s)
  {
    var s := Render.RawSelectors(i)[j];
    RawMembers(i, j);
    Render.ValidNamesAreClean(i.serviceAccount);
    Render.ValidNamesAreClean(i.variant);
    OwnWithin(i.namespace, i.serviceAccount, i.variant);
    NsSelectorTrims(i.namespace);
    PrefixesAreTrimmed();
    TrimKeepsPrefix(SA_PREFIX, i.serviceAccount);
    VariantSelectorIs(i.variant);
    SelectorIsTrimmed(VARIANT_KEY, i.variant);
    hide Render.RawSelectors, Render.Within, NS_PREFIX, SA_PREFIX, Render.VARIANT_PREFIX, LabelSelector, TrimSpace, Render.IsLabelWord, Render.IsSubdomain;
    if s in i.target.derived {
      var k :| k in Labels(pool) && s == LabelSelector(k, Labels(pool)[k]);
      LabelEntries(pool, k);
      SelectorIsTrimmed(k, Labels(pool)[k]);
      LabelWithin(i.namespace, i.serviceAccount, i.variant, k, Labels(pool)[k]);
    }
  }

  // With valid names, the safety check passes exactly when the pool respects the
  // boundary label and the namespace survives trimming.
  lemma SafeIff(i: Render.PlanInput, pool: Pool)
    requires Accepted(pool) && Lists(Labels(pool), i.target.derived)
    requires Render.IsLabelWord(i.variant) && Render.IsSubdomain(i.serviceAccount)
    ensures Render.SelectorsSafe(i.namespace, i.serviceAccount, i.variant, Render.Canonical(Render.RawSelectors(i)))
            <==> BoundaryKept(Labels(pool), i.variant) && EndsPlain(i.namespace)
  {
    hide Render.Within, Render.IsLabelWord, Render.IsSubdomain, Accepted, Labels, Lists, BoundaryKept, EndsPlain, Render.Canonical, Render.RawSelectors;
    if Render.SelectorsSafe(i.namespace, i.serviceAccount, i.variant, Render.Canonical(Render.RawSelectors(i))) {
      SafeKeepsBoundary(i, pool);
    }
    if BoundaryKept(Labels(pool), i.variant) && EndsPlain(i.namespace) { BoundaryIsSafe(i, pool); }
  }

  lemma RawAt(i: Render.PlanInput)
    ensures var raw := Render.RawSelectors(i);
            |raw| >= 3 && raw[0] == NS_PREFIX + i.namespace && raw[1] == SA_PREFIX + i.serviceAccount && raw[|raw| - 1] == Render.VARIANT_PREFIX + i.variant
  {
    hide NS_PREFIX, SA_PREFIX, Render.VARIANT_PREFIX;
  }

  lemma BoundaryIsSafe(i: Render.PlanInput, pool: Pool)
    requires Accepted(pool) && Lists(Labels(pool), i.target.derived)
    requires Render.IsLabelWord(i.variant) && Render.IsSubdomain(i.serviceAccount)
    requires BoundaryKept(Labels(pool), i.variant) && EndsPlain(i.namespace)
    ensures Render.SelectorsSafe(i.namespace, i.serviceAccount, i.variant, Render.Canonical(Render.RawSelectors(i)))
  {
    var raw := Render.RawSelectors(i);
    Render.CanonicalMeaning(raw);
    RawAt(i);
    Render.ValidNamesAreClean(i.serviceAccount);
    OwnWithin(i.namespace, i.serviceAccount, i.variant);
    assert HasPrefix(NS_PREFIX + i.namespace, NS_PREFIX);
    hide Render.RawSelectors, Render.Within, NS_PREFIX, SA_PREFIX, Render.VARIANT_PREFIX, TrimSpace, Render.IsLabelWord, Render.IsSubdomain,
         Accepted, Labels, Lists, BoundaryKept, EndsPlain, Render.Canonical, HasPrefix;
    forall j | 0 <= j < |raw|
      ensures TrimSpace(raw[j]) == raw[j] && raw[j] in Render.Canonical(raw) && Render.Within(i.namespace, i.serviceAccount, i.variant, raw[j])
    {
      PlannedIsWithin(i, pool, j);
      assert Render.TrimsTo(raw, raw[j]);
    }
  }

  lemma SafeKeepsBoundary(i: Render.PlanInput, pool: Pool)
    requires Accepted(pool) && Lists(Labels(pool), i.target.derived)
    requires Render.SelectorsSafe(i.namespace, i.serviceAccount, i.variant, Render.Canonical(Render.RawSelectors(i)))
    ensures BoundaryKept(Labels(pool), i.variant) && EndsPlain(i.namespace)
  {
    hide Render.Canonical, Render.RawSelectors, Render.SelectorsSafe, Accepted, Labels, Lists;
    SafeKeepsNamespace(i);
    if VARIANT_KEY in Labels(pool) { SafeKeepsLabel(i, pool); }
  }

  // Every trimmed raw selector passed the safety check.
  lemma SafeIsWithin(i: Render.PlanInput, j: nat)
    requires Render.SelectorsSafe(i.namespace, i.serviceAccount, i.variant, Render.Canonical(Render.RawSelectors(i)))
    requires j < |Render.RawSelectors(i)| && TrimSpace(Render.RawSelectors(i)[j]) != ""
    ensures Render.Within(i.namespace, i.serviceAccount, i.variant, TrimSpace(Render.RawSelectors(i)[j]))
  {
    hide Render.RawSelectors, Render.Within, Render.Canonical, TrimSpace;
    var raw := Render.RawSelectors(i);
    Render.CanonicalMeaning(raw);
    assert Render.TrimsTo(raw, TrimSpace(raw[j]));
  }

  lemma SafeKeepsNamespace(i: Render.PlanInput)
    requires Render.SelectorsSafe(i.namespace, i.serviceAccount, i.variant, Render.Canonical(Render.RawSelectors(i)))
    ensures EndsPlain(i.namespace)
  {
    PrefixesAreTrimmed();
    hide Render.RawSelectors, Render.Canonical, Render.SelectorsSafe, TrimSpace, NS_PREFIX, SA_PREFIX, Render.VARIANT_PREFIX;
    RawAt(i);
    NsSelectorTrims(i.namespace);
    SafeIsWithin(i, 0);
  }

  lemma SafeKeepsLabel(i: Render.PlanInput, pool: Pool)
    requires Accepted(pool) && Lists(Labels(pool), i.target.derived) && VARIANT_KEY in Labels(pool)
    requires Render.SelectorsSafe(i.namespace, i.serviceAccount, i.variant, Render.Canonical(Render.RawSelectors(i)))
    ensures BoundaryKept(Labels(pool), i.variant)
  {
    hide Render.Canonical, Render.SelectorsSafe, Render.Within, LabelSelector, TrimSpace, NS_PREFIX, SA_PREFIX, Render.VARIANT_PREFIX, Accepted, Labels;
    var v := Labels(pool)[VARIANT_KEY];
    var s := LabelSelector(VARIANT_KEY, v);
    LabelEntries(pool, VARIANT_KEY);
    SelectorIsTrimmed(VARIANT_KEY, v);
    LabelWithin(i.namespace, i.serviceAccount, i.variant, VARIANT_KEY, v);
    var j :| 0 <= j < |i.target.derived| && i.target.derived[j] == s;
    assert Render.RawSelectors(i)[j + 2] == s;
    SafeIsWithin(i, j + 2);
  }

  // A binding renders exactly when all of this holds.
  lemma RendersIff(config: Config, key: Key, spec: BindingSpec, pool: Pool)
    ensures IdentityOf(config, key, spec, pool).Planned? <==> Renderable(config, key, spec, pool)
  {
    hide Render.SelectorsSafe, Render.Canonical, Render.RawSelectors, Render.SPIFFEID, Accepted, Labels, Lists, Render.IsLabelWord, Render.IsSubdomain,
         Render.VariantError, BoundaryKept, EndsPlain, Render.AnchorOK;
    Render.VariantErrorMeaning(spec.variant);
    Render.ValidNamesAreClean(spec.serviceAccount);
    if Accepted(pool) && Render.IsLabelWord(spec.variant) && Render.IsSubdomain(spec.serviceAccount) {
      SafeIff(InputOf(config, key, spec, pool, Labels(pool), SomeListing(Labels(pool))), pool);
    }
  }

  lemma SameMembersSameCanonical(a: seq<string>, b: seq<string>)
    requires forall s :: s in a <==> s in b
    ensures Render.Canonical(a) == Render.Canonical(b)
  {
    Render.CanonicalMeaning(a);
    Render.CanonicalMeaning(b);
    forall x ensures Render.TrimsTo(a, x) <==> Render.TrimsTo(b, x) {
      TrimsToMembers(a, b, x);
      TrimsToMembers(b, a, x);
    }
    Render.IncreasingUnique(Render.Canonical(a), Render.Canonical(b));
  }

  lemma TrimsToMembers(a: seq<string>, b: seq<string>, x: string)
    requires forall s :: s in a <==> s in b
    ensures Render.TrimsTo(a, x) ==> Render.TrimsTo(b, x)
  {
    if Render.TrimsTo(a, x) {
      var i :| 0 <= i < |a| && TrimSpace(a[i]) == x;
      assert a[i] in b;
      var j :| 0 <= j < |b| && b[j] == a[i];
    }
  }

  // Rendering does not depend on the order in which pool labels are visited.
  lemma OrderDoesNotMatter(config: Config, key: Key, spec: BindingSpec, pool: Pool, labels: map<string, string>, a: seq<string>, b: seq<string>)
    requires Lists(labels, a) && Lists(labels, b)
    ensures Render.PlanOf(InputOf(config, key, spec, pool, labels, a)) == Render.PlanOf(InputOf(config, key, spec, pool, labels, b))
  {
    var i, j := InputOf(config, key, spec, pool, labels, a), InputOf(config, key, spec, pool, labels, b);
    forall s ensures s in a <==> s in b {
      if s in a { var k :| k in labels && s == LabelSelector(k, labels[k]); }
      if s in b { var k :| k in labels && s == LabelSelector(k, labels[k]); }
    }
    hide LabelSelector, NS_PREFIX, SA_PREFIX, Render.VARIANT_PREFIX;
    forall s ensures s in Render.RawSelectors(i) <==> s in Render.RawSelectors(j) {}
    SameMembersSameCanonical(Render.RawSelectors(i), Render.RawSelectors(j));
    hide Render.Canonical, Render.SelectorsSafe, Render.RawSelectors;
  }

  // What the controller relies on of a rendered identity.
  ghost predicate Sound(config: Config, key: Key, spec: BindingSpec, r: Render.Planned) {
    if r.Planned?
    then && Bounds(r.plan.selectors, key.namespace, spec.serviceAccount, spec.variant)
         && r.plan.variant == spec.variant
    else FailureReason(r.error.cond, r.error.reason) && !r.error.cond.Conflict?
  }

  method RenderIdentity(config: Config, key: Key, spec: BindingSpec, pool: Pool) returns (r: Render.Planned)
    ensures r == IdentityOf(config, key, spec, pool) && Sound(config, key, spec, r)
  {
    hide Render.PlanOf, Labels, Accepted, Lists, Bounds;
    var labels, derived, ok := DeriveSelectors(pool);
    if !ok {
      return Render.Rejected(StateError(UnsafeSelector, InvalidPoolSelector, "pool selector cannot be rendered"));
    }
    var input := InputOf(config, key, spec, pool, labels, derived);
    r := Render.PlanIdentity(input);
    OrderDoesNotMatter(config, key, spec, pool, labels, derived, SomeListing(labels));
    Render.PlanErrorsAreAllowed(input);
    if r.Planned? {
      Render.PlanIsBounded(input);
      Render.PlannedSegments(input);
    }
  }
}
