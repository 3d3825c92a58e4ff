// Workload selectors as the CLI reads them back: parsing rendered selector
// strings and matching a pod against the parsed selection.

module Selection {
  import opened Types
  import opened Text

  const NS_PREFIX := "k8s:ns:"
  const SA_PREFIX := "k8s:sa:"
  const LABEL_PREFIX := "k8s:pod-label:"
  const CONTAINER_PREFIX := "k8s:container-name:"
  const VARIANT_KEY := "identity.kleym.sonda.red/variant"

  datatype Pod = Pod(namespace: string, serviceAccount: string, labels: map<string, string>)

  datatype WorkloadSelection = WorkloadSelection(
    namespace: string,
    serviceAccount: string,
    podLabels: map<string, string>,
    containerType: string,
    containerValue: string,
    unsupported: seq<string>)

  const NO_SELECTION := WorkloadSelection("", "", map[], "", "", [])

  // Position of the first colon, or the length.
  function Colon(s: string): (i: nat)
    ensures i <= |s| && (i < |s| ==> s[i] == ':') && forall j :: 0 <= j < i ==> s[j] != ':'
  {
    if s == "" || s[0] == ':' then 0 else 1 + Colon(s[1..])
  }

  datatype Form = NsForm | SaForm | ContainerForm | LabelForm | OtherForm

  // Which case of the prefix switch a selector takes.
  function FormOf(selector: string): Form {
    if HasPrefix(selector, NS_PREFIX) then NsForm
    else if HasPrefix(selector, SA_PREFIX) then SaForm
    else if HasPrefix(selector, CONTAINER_PREFIX) then ContainerForm
    else if HasPrefix(selector, LABEL_PREFIX) then LabelForm
    else OtherForm
  }

  function LabelBody(selector: string): string {
    TrimPrefix(selector, LABEL_PREFIX)
  }

  // A pod-label selector that splits into a nonempty key and a value.
  predicate SplitsLabel(body: string) {
    0 < Colon(body) < |body|
  }

  function LabelKey(body: string): string
    requires SplitsLabel(body)
  {
    body[..Colon(body)]
  }

  function LabelValue(body: string): string
    requires SplitsLabel(body)
  {
    body[Colon(body) + 1..]
  }

  function ParseOne(sel: WorkloadSelection, selector: string): WorkloadSelection {
    match FormOf(selector)
    case NsForm => sel.(namespace := TrimPrefix(selector, NS_PREFIX))
    case SaForm => sel.(serviceAccount := TrimPrefix(selector, SA_PREFIX))
    case ContainerForm => sel.(containerType := "name", containerValue := TrimPrefix(selector, CONTAINER_PREFIX))
    case LabelForm =>
      var body := LabelBody(selector);
      if SplitsLabel(body) then sel.(podLabels := sel.podLabels[LabelKey(body) := LabelValue(body)])
      else sel.(unsupported := sel.unsupported + [selector])
    case OtherForm => sel.(unsupported := sel.unsupported + [selector])
  }

  function Parse(selectors: seq<string>): WorkloadSelection {
    if selectors == [] then NO_SELECTION
    else ParseOne(Parse(selectors[..|selectors| - 1]), selectors[|selectors| - 1])
  }

  method WorkloadSelectionFromSelectors(selectors: seq<string>) returns (sel: WorkloadSelection)
    ensures sel == Parse(selectors)
  {
    sel := NO_SELECTION;
    for i := 0 to |selectors|
      invariant sel == Parse(selectors[..i])
    {
      assert selectors[..i + 1][..i] == selectors[..i];
      sel := ParseOne(sel, selectors[i]);
    }
    assert selectors[..|selectors|] == selectors;
  }

  predicate PodMatches(pod: Pod, sel: WorkloadSelection) {
    && (sel.namespace == "" || pod.namespace == sel.namespace)
    && (sel.serviceAccount == "" || pod.serviceAccount == sel.serviceAccount)
    && (forall k | k in sel.podLabels :: LabelOf(pod.labels, k) == sel.podLabels[k])
  }

  // Every pod that the selectors match lies inside the boundary.
  ghost predicate Confined(selectors: seq<string>, namespace: string, serviceAccount: string, variant: string) {
    forall pod | PodMatches(pod, Parse(selectors)) ::
      && (namespace == "" || pod.namespace == namespace)
      && pod.serviceAccount == serviceAccount
      && LabelOf(pod.labels, VARIANT_KEY) == variant
  }

  // The selectors spell out exactly this boundary.
  predicate Bounds(selectors: seq<string>, namespace: string, serviceAccount: string, variant: string) {
    var sel := Parse(selectors);
    && sel.namespace == namespace && sel.serviceAccount == serviceAccount && serviceAccount != ""
    && VARIANT_KEY in sel.podLabels && sel.podLabels[VARIANT_KEY] == variant
  }

  predicate Spells(spec: ObjectSpec, namespace: string, serviceAccount: string, variant: string) {
    spec.Rendered? && Bounds(spec.selectors, namespace, serviceAccount, variant)
  }

  lemma BoundsConfine(selectors: seq<string>, namespace: string, serviceAccount: string, variant: string)
    requires Bounds(selectors, namespace, serviceAccount, variant)
    ensures Confined(selectors, namespace, serviceAccount, variant)
  {
    hide Parse, VARIANT_KEY;
  }

  // ------------------------------------------------------------ shared pods

  // Two parts of a selection that are given or left open agree.
  predicate Agree(a: string, b: string) {
    a == "" || b == "" || a == b
  }

  // Namespace, service account and the common labels agree.
  predicate Overlap(a: WorkloadSelection, b: WorkloadSelection) {
    && Agree(a.namespace, b.namespace) && Agree(a.serviceAccount, b.serviceAccount)
    && (forall k | k in a.podLabels && k in b.podLabels :: a.podLabels[k] == b.podLabels[k])
  }

  // Two selections match a common pod exactly when they overlap.
  lemma OverlapIff(a: WorkloadSelection, b: WorkloadSelection)
    ensures (exists pod :: PodMatches(pod, a) && PodMatches(pod, b)) <==> Overlap(a, b)
  {
    if Overlap(a, b) {
      var pod := Pod(if a.namespace == "" then b.namespace else a.namespace,
                     if a.serviceAccount == "" then b.serviceAccount else a.serviceAccount, a.podLabels + b.podLabels);
      assert PodMatches(pod, a) && PodMatches(pod, b);
    }
  }

  // ------------------------------------------------------------ selectors by form

  lemma FormOfNs(x: string)
    ensures FormOf(NS_PREFIX + x) == NsForm && TrimPrefix(NS_PREFIX + x, NS_PREFIX) == x
  {
  }

  lemma FormOfSa(x: string)
    ensures FormOf(SA_PREFIX + x) == SaForm && TrimPrefix(SA_PREFIX + x, SA_PREFIX) == x
  {
    assert (SA_PREFIX + x)[4] == 's' && NS_PREFIX[4] == 'n';
    assert (SA_PREFIX + x)[..7][4] != NS_PREFIX[4];
  }

  lemma FormOfLabel(x: string)
    ensures FormOf(LABEL_PREFIX + x) == LabelForm && LabelBody(LABEL_PREFIX + x) == x
  {
    var s := LABEL_PREFIX + x;
    assert s[4] == 'p' && s[..|LABEL_PREFIX|] == LABEL_PREFIX;
    assert s[..7][4] != NS_PREFIX[4] && s[..7][4] != SA_PREFIX[4];
    assert |s| >= |CONTAINER_PREFIX| ==> s[..|CONTAINER_PREFIX|][4] != CONTAINER_PREFIX[4];
  }

  // A key without colon is read back exactly.
  lemma SplitExactly(key: string, value: string)
    requires key != "" && ':' !in key
    ensures var body := key + ":" + value;
            SplitsLabel(body) && LabelKey(body) == key && LabelValue(body) == value
  {
    var body := key + ":" + value;
    assert body[|key|] == ':';
    assert forall j :: 0 <= j < |key| ==> body[j] == key[j];
    assert Colon(body) == |key|;
    assert body[..|key|] == key && body[|key| + 1..] == value;
  }
}
