// The managed ClusterSPIFFEID as rendered for a binding: its deterministic name,
// its desired fields, and drift detection and repair.

module Manifest {
  import opened Types
  import opened Text

  const MAX_LABEL := 63
  const DEFAULT_NAME := "kleym"
  const MANAGED_BY_KEY := "kleym.sonda.red/managed-by"
  const BINDING_NAME_KEY := "kleym.sonda.red/binding-name"
  const BINDING_NAMESPACE_KEY := "kleym.sonda.red/binding-namespace"

  // ------------------------------------------------------------ DNS labels

  function Lower(c: char): char {
    if 'A' <= c <= 'Z' then c + ('a' - 'A') else c
  }

  function ToLower(s: string): (r: string)
    ensures |r| == |s| && forall i :: 0 <= i < |s| ==> r[i] == Lower(s[i])
  {
    if s == "" then "" else [Lower(s[0])] + ToLower(s[1..])
  }

  function TrimHyphensLeft(s: string): string {
    if s != "" && s[0] == '-' then TrimHyphensLeft(s[1..]) else s
  }

  function TrimHyphensRight(s: string): string {
    if s != "" && s[|s| - 1] == '-' then TrimHyphensRight(s[..|s| - 1]) else s
  }

  function TrimHyphens(s: string): string {
    TrimHyphensRight(TrimHyphensLeft(s))
  }

  // Letters, digits and single hyphens.
  predicate Hyphenated(s: string) {
    && (forall i :: 0 <= i < |s| ==> IsAlnum(s[i]) || s[i] == '-')
    && (forall i :: 0 < i < |s| ==> s[i - 1] != '-' || s[i] != '-')
  }

  // A DNS label without its length limit (section 2.1 of RFC 1123).
  predicate LabelShape(s: string) {
    && s != "" && IsAlnum(s[0]) && IsAlnum(s[|s| - 1])
    && (forall i :: 0 <= i < |s| ==> IsAlnum(s[i]) || s[i] == '-')
  }

  // What sanitizing must not lose: the letters and digits in order.
  function Alnums(s: string): string {
    if s == "" then "" else (if IsAlnum(s[0]) then [s[0]] else "") + Alnums(s[1..])
  }

  lemma {:induction false} AlnumsConcat(a: string, b: string)
    ensures Alnums(a + b) == Alnums(a) + Alnums(b)
  {
    if a == "" {
      assert a + b == b && Alnums(a) == "";
    } else {
      AlnumsConcat(a[1..], b);
      assert (a + b)[0] == a[0] && (a + b)[1..] == a[1..] + b;
      var head := if IsAlnum(a[0]) then [a[0]] else "";
      assert Alnums(a + b) == head + Alnums(a[1..] + b) && Alnums(a) == head + Alnums(a[1..]);
      hide Alnums;
      assert head + (Alnums(a[1..]) + Alnums(b)) == head + Alnums(a[1..]) + Alnums(b);
    }
  }

  lemma {:induction false} TrimHyphensLeftKeeps(s: string)
    requires Hyphenated(s)
    ensures var r := TrimHyphensLeft(s); Hyphenated(r) && Alnums(r) == Alnums(s) && (r == "" || IsAlnum(r[0]))
  {
    if s != "" && s[0] == '-' { TrimHyphensLeftKeeps(s[1..]); }
  }

  lemma {:induction false} TrimHyphensRightKeeps(s: string)
    requires Hyphenated(s)
    ensures var r := TrimHyphensRight(s);
            && Hyphenated(r) && Alnums(r) == Alnums(s) && r <= s
            && (r == "" || IsAlnum(r[|r| - 1])) && (s != "" && IsAlnum(s[0]) ==> r != "")
  {
    if s != "" && s[|s| - 1] == '-' {
      var t := s[..|s| - 1];
      TrimHyphensRightKeeps(t);
      AlnumsConcat(t, "-");
      assert s == t + "-" && Alnums("-") == "";
    }
  }

  lemma TrimHyphensKeeps(s: string)
    requires Hyphenated(s)
    ensures var r := TrimHyphens(s); Hyphenated(r) && Alnums(r) == Alnums(s) && (r == "" || LabelShape(r))
    ensures s == "" || LabelShape(s) ==> TrimHyphens(s) == s
  {
    TrimHyphensLeftKeeps(s);
    TrimHyphensRightKeeps(TrimHyphensLeft(s));
  }

  // Every run of characters that are not letters or digits as one hyphen.
  function Collapse(s: string, afterHyphen: bool): string {
    if s == "" then ""
    else if IsAlnum(s[0]) then [s[0]] + Collapse(s[1..], false)
    else (if afterHyphen then "" else "-") + Collapse(s[1..], true)
  }

  lemma {:induction false} CollapseKeeps(s: string, afterHyphen: bool)
    ensures var r := Collapse(s, afterHyphen);
            && Hyphenated(r) && Alnums(r) == Alnums(s) && (afterHyphen && r != "" ==> r[0] != '-')
    ensures Hyphenated(s) && (afterHyphen && s != "" ==> s[0] != '-') ==> Collapse(s, afterHyphen) == s
  {
    if s != "" {
      CollapseKeeps(s[1..], !IsAlnum(s[0]));
      var rest := Collapse(s[1..], !IsAlnum(s[0]));
      assert s == [s[0]] + s[1..];
      if IsAlnum(s[0]) {
        AlnumsConcat([s[0]], rest);
      } else if !afterHyphen {
        AlnumsConcat("-", rest);
      } else {
        assert "" + rest == rest;
      }
    }
  }

  function Sanitize(input: string): string {
    TrimHyphens(Collapse(ToLower(TrimSpace(input)), false))
  }

  // Sanitizing keeps exactly the lower-cased letters and digits in order, yields
  // "" or a DNS label without adjacent hyphens, and is the identity on those.
  lemma SanitizeMeaning(input: string)
    ensures var r := Sanitize(input);
            Hyphenated(r) && (r == "" || LabelShape(r)) && Alnums(r) == Alnums(ToLower(TrimSpace(input)))
    ensures Hyphenated(input) && (input == "" || LabelShape(input)) ==> Sanitize(input) == input
    ensures Sanitize(Sanitize(input)) == Sanitize(input)
  {
    SanitizeOnce(input);
    SanitizeOnce(Sanitize(input));
  }

  lemma SanitizeOnce(input: string)
    ensures var r := Sanitize(input);
            Hyphenated(r) && (r == "" || LabelShape(r)) && Alnums(r) == Alnums(ToLower(TrimSpace(input)))
    ensures Hyphenated(input) && (input == "" || LabelShape(input)) ==> Sanitize(input) == input
  {
    hide Hyphenated, LabelShape, Alnums, Collapse, TrimHyphens, ToLower, TrimSpace;
    var lower := ToLower(TrimSpace(input));
    CollapseKeeps(lower, false);
    TrimHyphensKeeps(Collapse(lower, false));
    if Hyphenated(input) && (input == "" || LabelShape(input)) { LabelIsLower(input); }
  }

  lemma LabelIsLower(s: string)
    requires Hyphenated(s) && (s == "" || LabelShape(s))
    ensures ToLower(TrimSpace(s)) == s
  {
    TrimSpaceMeaning(s);
    hide TrimSpace;
  }

  method SanitizeDNSLabel(input: string) returns (r: string)
    ensures r == Sanitize(input)
  {
    var lower := ToLower(TrimSpace(input));
    if lower == "" {
      return "";
    }
    var built := "";
    var lastHyphen := false;
    assert lower[0..] == lower;
    for i := 0 to |lower|
      invariant built + Collapse(lower[i..], lastHyphen) == Collapse(lower, false)
    {
      assert lower[i..][1..] == lower[i + 1..];
      if IsAlnum(lower[i]) {
        built := built + [lower[i]];
        lastHyphen := false;
      } else if !lastHyphen {
        built := built + "-";
        lastHyphen := true;
      }
    }
    assert built == Collapse(lower, false);
    r := TrimHyphens(built);
  }

  // ------------------------------------------------------------ managed name

  function Mode(kind: string): string {
    if Sanitize(kind) == "" then "identity" else Sanitize(kind)
  }

  // base-mode-digest, the base cut so that the whole fits a DNS label.
  function Assemble(base: string, mode: string, digest: string): string {
    var room := MAX_LABEL - |mode| - |digest| - 2;
    var max := if room < 1 then 1 else room;
    var cut := if |base| > max then TrimHyphens(base[..max]) else base;
    (if |base| > max && cut == "" then DEFAULT_NAME else cut) + "-" + mode + "-" + digest
  }

  function BuildName(namespace: string, name: string, kind: string, digest: string): string {
    Assemble(Sanitize(DEFAULT_NAME + "-" + namespace + "-" + name), Mode(kind), digest)
  }

  // Eight lower-case hexadecimal digits, as taken from the SHA-1 of the SPIFFE ID.
  predicate IsDigest(d: string) {
    |d| == 8 && forall i :: 0 <= i < 8 ==> '0' <= d[i] <= '9' || 'a' <= d[i] <= 'f'
  }

  lemma BaseShape(namespace: string, name: string)
    ensures var base := Sanitize(DEFAULT_NAME + "-" + namespace + "-" + name);
            LabelShape(base) && Hyphenated(base) && base[0] == 'k'
  {
    var input := DEFAULT_NAME + "-" + namespace + "-" + name;
    SanitizeMeaning(input);
    BaseFirst(input);
  }

  lemma BaseFirst(input: string)
    requires |input| >= 5 && input[..5] == DEFAULT_NAME
    ensures Sanitize(input) != "" && Sanitize(input)[0] == 'k'
  {
    assert input[0] == 'k';
    var n := TrimLeftShape(input);
    assert n == 0 && input[0..] == input;
    var m := TrimRightShape(input);
    assert 0 < m;
    var lower := ToLower(TrimSpace(input));
    assert lower[0] == 'k';
    CollapseKeeps(lower, false);
    var c := Collapse(lower, false);
    assert c[0] == 'k';
    assert TrimHyphensLeft(c) == c;
    TrimHyphensRightKeeps(c);
  }

  // The managed name is a DNS label, and it fits 63 characters exactly when the
  // sanitized anchor kind leaves room for one base character.
  lemma NameIsLabel(namespace: string, name: string, kind: string, digest: string)
    requires IsDigest(digest)
    ensures var n := BuildName(namespace, name, kind, digest);
            LabelShape(n) && (|n| <= MAX_LABEL <==> |Mode(kind)| <= 52)
  {
    hide *;
    BaseShape(namespace, name);
    ModeShape(kind);
    BuildNameAssembles(namespace, name, kind, digest);
    AssembleIsLabel(Sanitize(DEFAULT_NAME + "-" + namespace + "-" + name), Mode(kind), digest);
  }

  lemma BuildNameAssembles(namespace: string, name: string, kind: string, digest: string)
    ensures BuildName(namespace, name, kind, digest)
            == Assemble(Sanitize(DEFAULT_NAME + "-" + namespace + "-" + name), Mode(kind), digest)
  {
    hide Sanitize, Mode, Assemble;
  }

  lemma AssembleIsLabel(base: string, mode: string, digest: string)
    requires LabelShape(base) && Hyphenated(base) && LabelShape(mode) && IsDigest(digest)
    ensures var n := Assemble(base, mode, digest); LabelShape(n) && (|n| <= MAX_LABEL <==> |mode| <= 52)
  {
    var room := MAX_LABEL - |mode| - 8 - 2;
    var max := if room < 1 then 1 else room;
    var cut := if |base| > max then TrimHyphens(base[..max]) else base;
    DigestShape(digest);
    CutShape(base, max);
    hide LabelShape, Hyphenated, TrimHyphens;
    assert cut != "";
    LabelConcat(mode, digest);
    LabelConcat(cut, mode + "-" + digest);
    assert Assemble(base, mode, digest) == cut + "-" + (mode + "-" + digest);
  }

  lemma ModeShape(kind: string)
    ensures LabelShape(Mode(kind))
  {
    SanitizeMeaning(kind);
    assert LabelShape("identity");
  }

  lemma DigestShape(digest: string)
    requires IsDigest(digest)
    ensures LabelShape(digest)
  {
  }

  lemma LabelConcat(a: string, b: string)
    requires LabelShape(a) && LabelShape(b)
    ensures LabelShape(a + "-" + b)
  {
  }

  lemma CutShape(base: string, max: nat)
    requires LabelShape(base) && Hyphenated(base) && 0 < max
    ensures var cut := if |base| > max then TrimHyphens(base[..max]) else base;
            LabelShape(cut) && |cut| <= max
  {
    if |base| > max {
      assert TrimHyphensLeft(base[..max]) == base[..max];
      TrimHyphensKeeps(base[..max]);
      TrimHyphensRightKeeps(base[..max]);
    }
  }

  // ------------------------------------------------------------ desired object

  function ManagedLabels(key: Key): map<string, string> {
    map[MANAGED_BY_KEY := DEFAULT_NAME, BINDING_NAME_KEY := key.name, BINDING_NAMESPACE_KEY := key.namespace]
  }

  function DesiredSpec(key: Key, plan: Plan, className: string): ObjectSpec {
    Rendered(plan.spiffeID, plan.podLabels, plan.selectors, false, key.namespace + "/" + key.name,
             if className == "" then None else Some(className))
  }

  // The object to create for a plan, not yet claimed or persisted.
  function Desired(key: Key, plan: Plan, className: string, name: string): Object {
    Object(name, 0, 0, 0, "", ManagedLabels(key), DesiredSpec(key, plan, className), false, false)
  }

  predicate InSync(current: Object, desired: Object) {
    && current.spec.Rendered? && desired.spec.Rendered? && current.spec == desired.spec
    && (forall k | k in desired.labels :: LabelOf(current.labels, k) == desired.labels[k])
  }

  function MergeDesired(current: Object, desired: Object): Object {
    current.(spec := desired.spec, labels := current.labels + desired.labels)
  }

  // Drift repair reaches the desired fields and touches nothing else: identity,
  // claim annotation and unmanaged labels survive. It is needed exactly when it
  // would change something a reader can observe.
  lemma MergeRepairs(current: Object, desired: Object)
    requires desired.spec.Rendered?
    ensures var m := MergeDesired(current, desired);
            && InSync(m, desired)
            && m == current.(spec := m.spec, labels := m.labels)
            && m.claim == current.claim && m.uid == current.uid
            && (forall k | k !in desired.labels :: LabelOf(m.labels, k) == LabelOf(current.labels, k))
            && MergeDesired(m, desired) == m
            && (InSync(current, desired) <==> current.spec == m.spec && forall k :: LabelOf(m.labels, k) == LabelOf(current.labels, k))
  {
    var m := MergeDesired(current, desired);
    assert m.labels + desired.labels == m.labels;
    assert forall k | k in desired.labels :: LabelOf(m.labels, k) == desired.labels[k];
  }
}
