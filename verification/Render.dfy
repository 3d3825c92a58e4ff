// Identity planning: canonical selectors, their fingerprint bytes, selector
// safety and the SPIFFE ID.

module Render {
  import opened Types
  import opened Statuses
  import opened Text
  import opened Selection
  import opened Order

  // ------------------------------------------------------------ canonical selectors

  predicate StrLe(a: string, b: string) { Le(a, b) }

  lemma StrLeIsTotal()
    ensures TotalOrder(StrLe)
  {
    forall a: string, b: string ensures StrLe(a, a) && (StrLe(a, b) || StrLe(b, a)) && (StrLe(a, b) && StrLe(b, a) ==> a == b) {
      LeTotal(a, b);
    }
    forall a: string, b: string, c: string | StrLe(a, b) && StrLe(b, c) ensures StrLe(a, c) { LeTransitive(a, b, c); }
  }

  // Strictly increasing.
  ghost predicate Increasing(s: seq<string>) {
    Sorted(StrLe, s) && forall i, j | 0 <= i < j < |s| :: s[i] != s[j]
  }

  predicate TrimsTo(values: seq<string>, x: string) {
    x != "" && exists i :: 0 <= i < |values| && TrimSpace(values[i]) == x
  }

  // r lists exactly the trimmed nonempty values, each once, in byte order.
  ghost predicate IsCanonical(values: seq<string>, r: seq<string>) {
    Increasing(r) && forall x :: x in r <==> TrimsTo(values, x)
  }

  function Canonical(values: seq<string>): seq<string> {
    if values == [] then []
    else
      var rest := Canonical(values[..|values| - 1]);
      var x := TrimSpace(values[|values| - 1]);
      if x == "" || x in rest then rest else Insert(StrLe, x, rest)
  }

  lemma InsertMembers(x: string, s: seq<string>)
    requires Increasing(s) && x !in s
    ensures Increasing(Insert(StrLe, x, s)) && forall y :: y in Insert(StrLe, x, s) <==> y == x || y in s
  {
    StrLeIsTotal();
    InsertSorts(StrLe, x, s);
    var r := Insert(StrLe, x, s);
    forall y ensures y in r <==> y == x || y in s {
      assert y in r <==> y in multiset(r);
      assert y in s <==> y in multiset(s);
    }
    OnceIsDistinct(r, s, x);
  }

  lemma OnceIsDistinct(r: seq<string>, s: seq<string>, x: string)
    requires multiset(r) == multiset(s) + multiset{x} && x !in s
    requires forall i, j | 0 <= i < j < |s| :: s[i] != s[j]
    ensures forall i, j | 0 <= i < j < |r| :: r[i] != r[j]
  {
    forall i, j | 0 <= i < j < |r| ensures r[i] != r[j] {
      if r[i] == r[j] {
        assert r == r[..i] + [r[i]] + r[i + 1..j] + [r[j]] + r[j + 1..];
        assert multiset(r)[r[i]] >= 2;
        DistinctCounts(s, r[i]);
        assert false;
      }
    }
  }

  lemma {:induction false} DistinctCounts(s: seq<string>, x: string)
    requires forall i, j | 0 <= i < j < |s| :: s[i] != s[j]
    ensures multiset(s)[x] <= 1
  {
    if s != [] {
      HeadTail(s);
      DistinctCounts(s[1..], x);
    }
  }

  lemma {:induction false} CanonicalMeaning(values: seq<string>)
    ensures IsCanonical(values, Canonical(values))
  {
    if values != [] {
      var front, last := values[..|values| - 1], values[|values| - 1];
      CanonicalMeaning(front);
      var x := TrimSpace(last);
      var rest := Canonical(front);
      if x != "" && x !in rest { InsertMembers(x, rest); }
      forall y ensures TrimsTo(values, y) <==> TrimsTo(front, y) || (y != "" && y == x) {
        if TrimsTo(front, y) {
          var i :| 0 <= i < |front| && TrimSpace(front[i]) == y;
          assert values[i] == front[i];
        }
        if TrimsTo(values, y) {
          var i :| 0 <= i < |values| && TrimSpace(values[i]) == y;
          if i < |front| { assert front[i] == values[i]; }
        }
      }
    }
  }

  lemma EmptyByMembers(s: seq<string>)
    ensures (forall x :: x !in s) ==> s == []
  {
    if s != [] { assert s[0] in s; }
  }

  // There is only one strictly increasing list with given members.
  lemma {:induction false} IncreasingUnique(a: seq<string>, b: seq<string>)
    requires Increasing(a) && Increasing(b) && forall x :: x in a <==> x in b
    ensures a == b
  {
    StrLeIsTotal();
    if a == [] {
      EmptyByMembers(b);
    } else {
      assert a[0] in b && b != [] && b[0] in a;
      HeadIsLeast(StrLe, a, b[0]);
      HeadIsLeast(StrLe, b, a[0]);
      forall x ensures x in a[1..] <==> x in b[1..] {
        assert x in a[1..] <==> x in a && x != a[0];
        assert x in b[1..] <==> x in b && x != b[0];
      }
      IncreasingUnique(a[1..], b[1..]);
      HeadTail(a);
      HeadTail(b);
    }
  }

  // The canonical form depends only on the set of trimmed nonempty values, and
  // taking it again changes nothing.
  lemma CanonicalUnique(values: seq<string>, r: seq<string>)
    ensures IsCanonical(values, r) <==> r == Canonical(values)
    ensures Canonical(Canonical(values)) == Canonical(values)
  {
    CanonicalMeaning(values);
    var c := Canonical(values);
    if IsCanonical(values, r) { IncreasingUnique(r, c); }
    CanonicalMeaning(c);
    forall x ensures TrimsTo(c, x) <==> x in c {
      forall i | 0 <= i < |c| ensures TrimSpace(c[i]) == c[i] && c[i] != "" {
        assert c[i] in c && TrimsTo(values, c[i]);
        var j :| 0 <= j < |values| && TrimSpace(values[j]) == c[i];
        TrimSpaceMeaning(values[j]);
        TrimSpaceMeaning(c[i]);
      }
    }
    IncreasingUnique(Canonical(c), c);
  }

  method UniqueAndSorted(values: seq<string>) returns (r: seq<string>)
    ensures r == Canonical(values)
  {
    var found: set<string> := {};
    for i := 0 to |values|
      invariant forall x :: x in found <==> TrimsTo(values[..i], x)
    {
      var x := TrimSpace(values[i]);
      assert values[..i + 1] == values[..i] + [values[i]];
      forall y ensures TrimsTo(values[..i + 1], y) <==> TrimsTo(values[..i], y) || (y != "" && y == x) {
        TrimsToAppend(values[..i], values[i], y);
      }
      if x != "" { found := found + {x}; }
    }
    assert values[..|values|] == values;
    r := [];
    var left := found;
    StrLeIsTotal();
    while left != {}
      invariant left <= found && Increasing(r)
      invariant forall x :: x in r <==> x in found && x !in left
      decreases left
    {
      var x :| x in left;
      InsertMembers(x, r);
      r := Insert(StrLe, x, r);
      left := left - {x};
    }
    CanonicalUnique(values, r);
  }

  lemma TrimsToAppend(values: seq<string>, v: string, y: string)
    ensures TrimsTo(values + [v], y) <==> TrimsTo(values, y) || (y != "" && y == TrimSpace(v))
  {
    if TrimsTo(values, y) {
      var i :| 0 <= i < |values| && TrimSpace(values[i]) == y;
      assert (values + [v])[i] == values[i];
    }
    if y != "" && y == TrimSpace(v) { assert (values + [v])[|values|] == v; }
    if TrimsTo(values + [v], y) {
      var i :| 0 <= i < |values| + 1 && TrimSpace((values + [v])[i]) == y;
      if i < |values| { assert (values + [v])[i] == values[i]; }
    }
  }

  // ------------------------------------------------------------ fingerprint bytes

  const NUL := 0 as char

  function Digit(n: nat): char
    requires n < 10
  {
    '0' + n as char
  }

  function Decimal(n: nat): (r: string)
    ensures r != "" && forall i :: 0 <= i < |r| ==> '0' <= r[i] <= '9'
  {
    if n < 10 then [Digit(n)] else Decimal(n / 10) + [Digit(n % 10)]
  }

  lemma {:induction false} DecimalInjective(m: nat, n: nat)
    requires Decimal(m) == Decimal(n)
    ensures m == n
  {
    var a, b := Decimal(m), Decimal(n);
    assert a[|a| - 1] == Digit(m % 10) && b[|b| - 1] == Digit(n % 10);
    if m >= 10 && n >= 10 {
      assert a[..|a| - 1] == Decimal(m / 10) && b[..|b| - 1] == Decimal(n / 10);
      DecimalInjective(m / 10, n / 10);
    }
  }

  // One selector as it is written to the hash: length, NUL, bytes, NUL.
  function Framing(s: string): string {
    Decimal(|s|) + [NUL] + s + [NUL]
  }

  function Framed(selectors: seq<string>): string {
    if selectors == [] then "" else Framed(selectors[..|selectors| - 1]) + Framing(selectors[|selectors| - 1])
  }

  lemma {:induction false} FramedHead(s: seq<string>)
    requires s != []
    ensures Framed(s) == Framing(s[0]) + Framed(s[1..])
  {
    hide Framed, Framing;
    var n := |s| - 1;
    FramedLast(s);
    if n == 0 {
      assert s[..0] == [] && s[1..] == [];
      FramedNone();
    } else {
      var front, rest := s[..n], s[1..];
      FramedHead(front);
      FramedLast(rest);
      assert front[1..] == rest[..n - 1] && front[0] == s[0] && rest[n - 1] == s[n];
      AppendAssociates(Framing(s[0]), Framed(front[1..]), Framing(s[n]));
    }
  }

  lemma FramedNone()
    ensures Framed([]) == ""
  {
  }

  lemma FramedLast(s: seq<string>)
    requires s != []
    ensures Framed(s) == Framed(s[..|s| - 1]) + Framing(s[|s| - 1])
  {
  }

  lemma AppendAssociates(a: string, b: string, c: string)
    ensures (a + b) + c == a + (b + c)
  {
  }

  // The first NUL ends the length, so equal streams start with the same selector.
  lemma FrameHeadInjective(a: string, b: string, u: string, v: string)
    requires Framing(a) + u == Framing(b) + v
    ensures a == b && u == v
  {
    var s := Framing(a) + u;
    var i, j := |Decimal(|a|)|, |Decimal(|b|)|;
    assert s[i] == NUL && s[j] == NUL;
    assert forall k :: 0 <= k < i ==> s[k] == Decimal(|a|)[k];
    assert forall k :: 0 <= k < j ==> s[k] == Decimal(|b|)[k];
    assert i == j;
    assert s[..i] == Decimal(|a|) && s[..j] == Decimal(|b|);
    DecimalInjective(|a|, |b|);
    assert s[i + 1..i + 1 + |a|] == a && s[i + 1..i + 1 + |a|] == b;
    assert s[i + 2 + |a|..] == u && s[i + 2 + |a|..] == v;
  }

  // Collision-free framing: whatever bytes the selectors contain, equal streams
  // come from equal lists.
  lemma {:induction false} FramedInjective(a: seq<string>, b: seq<string>)
    requires Framed(a) == Framed(b)
    ensures a == b
  {
    if a != [] { FramedHead(a); }
    if b != [] { FramedHead(b); }
    if a != [] && b != [] {
      FrameHeadInjective(a[0], b[0], Framed(a[1..]), Framed(b[1..]));
      FramedInjective(a[1..], b[1..]);
      HeadTail(a);
      HeadTail(b);
    }
  }

  // The bytes fed to SHA-256 for a selector list.
  method FingerprintBytes(selectors: seq<string>) returns (bytes: string)
    ensures bytes == Framed(Canonical(selectors))
  {
    var canonical := UniqueAndSorted(selectors);
    bytes := "";
    for i := 0 to |canonical|
      invariant bytes == Framed(canonical[..i])
    {
      assert canonical[..i + 1][..i] == canonical[..i];
      bytes := bytes + Decimal(|canonical[i]|);
      bytes := bytes + [NUL];
      bytes := bytes + canonical[i];
      bytes := bytes + [NUL];
      assert bytes == Framed(canonical[..i]) + Framing(canonical[i]);
    }
    assert canonical[..|canonical|] == canonical;
  }

  // Two selector lists feed the hash the same bytes exactly when they have the
  // same trimmed nonempty members.
  lemma FingerprintMeaning(a: seq<string>, b: seq<string>)
    ensures Framed(Canonical(a)) == Framed(Canonical(b)) <==> (forall x :: TrimsTo(a, x) <==> TrimsTo(b, x))
  {
    CanonicalMeaning(a);
    CanonicalMeaning(b);
    if Framed(Canonical(a)) == Framed(Canonical(b)) {
      FramedInjective(Canonical(a), Canonical(b));
    } else if forall x :: TrimsTo(a, x) <==> TrimsTo(b, x) {
      IncreasingUnique(Canonical(a), Canonical(b));
      assert false;
    }
  }

  // ------------------------------------------------------------ validation

  predicate LabelChar(c: char) {
    'a' <= c <= 'z' || 'A' <= c <= 'Z' || '0' <= c <= '9' || c == '-' || c == '_' || c == '.'
  }

  predicate LetterOrDigit(c: char) {
    'a' <= c <= 'z' || 'A' <= c <= 'Z' || '0' <= c <= '9'
  }

  // A nonempty run of label characters that starts and ends with a letter or digit.
  predicate IsLabelWord(s: string) {
    && 0 < |s| <= 63 && LetterOrDigit(s[0]) && LetterOrDigit(s[|s| - 1])
    && forall i :: 0 <= i < |s| ==> LabelChar(s[i])
  }

  // validation.IsValidLabelValue
  predicate IsLabelValue(s: string) {
    s == "" || IsLabelWord(s)
  }

  // validation.IsDNS1123Subdomain: dot-separated labels.
  predicate IsSubdomain(s: string) {
    && 0 < |s| <= 253 && IsAlnum(s[0]) && IsAlnum(s[|s| - 1])
    && (forall i :: 0 <= i < |s| ==> IsAlnum(s[i]) || s[i] == '-' || s[i] == '.')
    && (forall i :: 0 < i < |s| - 1 && s[i] == '.' ==> IsAlnum(s[i - 1]) && IsAlnum(s[i + 1]))
  }

  // validation.IsQualifiedName: an optional subdomain prefix and a label word.
  predicate IsQualifiedName(s: string) {
    IsLabelWord(s) || exists i :: 0 < i < |s| && s[i] == '/' && IsSubdomain(s[..i]) && IsLabelWord(s[i + 1..])
  }

  lemma ValidNamesAreClean(s: string)
    ensures IsQualifiedName(s) ==> s != "" && ':' !in s && Trimmed(s)
    ensures IsLabelWord(s) ==> ':' !in s && '/' !in s && Trimmed(s) && !Blank(s)
    ensures IsSubdomain(s) ==> ':' !in s && '/' !in s && Trimmed(s) && !Blank(s)
  {
    if IsQualifiedName(s) && !IsLabelWord(s) {
      var i :| 0 < i < |s| && s[i] == '/' && IsSubdomain(s[..i]) && IsLabelWord(s[i + 1..]);
      forall j | 0 <= j < |s| ensures s[j] != ':' {
        assert s[j] == if j < i then s[..i][j] else if j == i then '/' else s[i + 1..][j - i - 1];
      }
      assert s[0] == s[..i][0] && s[|s| - 1] == s[i + 1..][|s| - i - 2];
    }
  }

  datatype Planned = Planned(plan: Plan) | Rejected(error: StateError)

  // The variant of a boundary, checked before it enters a SPIFFE ID or selector.
  function VariantError(variant: string): Option<StateError> {
    if variant != TrimSpace(variant) then
      Some(StateError(UnsafeSelector, InvalidIdentityBoundary, "variant has surrounding whitespace"))
    else if variant == "" then
      Some(StateError(UnsafeSelector, InvalidIdentityBoundary, "variant is empty"))
    else if !IsLabelValue(variant) then
      Some(StateError(UnsafeSelector, InvalidIdentityBoundary, "variant is not a label value"))
    else None
  }

  // The three checks accept exactly the label words.
  lemma VariantErrorMeaning(variant: string)
    ensures VariantError(variant).None? <==> IsLabelWord(variant)
    ensures VariantError(variant).Some? ==>
              FailureReason(VariantError(variant).value.cond, VariantError(variant).value.reason) && !VariantError(variant).value.cond.Conflict?
  {
    TrimSpaceMeaning(variant);
    ValidNamesAreClean(variant);
  }

  // ------------------------------------------------------------ planning

  datatype Target = Target(anchor: Anchor, podLabels: map<string, string>, derived: seq<string>)

  datatype PlanInput = PlanInput(
    namespace: string, serviceAccount: string, trustDomain: string, variant: string, target: Target)

  const VARIANT_PREFIX := LABEL_PREFIX + VARIANT_KEY + ":"

  predicate AnchorOK(a: Anchor) {
    && !Blank(a.kind) && !Blank(a.name) && '/' !in a.kind && '/' !in a.name
    && Trimmed(a.kind) && Trimmed(a.name)
  }

  function SPIFFEID(trustDomain: string, namespace: string, serviceAccount: string, anchor: Anchor, variant: string): string {
    "spiffe://" + (trustDomain + "/ns/" + (namespace + "/sa/" + (serviceAccount
    + "/inference/" + (anchor.kind + "/" + (anchor.name + "/variant/" + variant)))))
  }

  function RawSelectors(i: PlanInput): seq<string> {
    [NS_PREFIX + i.namespace, SA_PREFIX + i.serviceAccount] + i.target.derived + [VARIANT_PREFIX + i.variant]
  }

  // No selector leaves the boundary: every namespace, service-account and
  // boundary-label selector is the binding's own, and each kind is present.
  predicate SelectorsSafe(namespace: string, serviceAccount: string, variant: string, selectors: seq<string>) {
    && (forall s | s in selectors :: Within(namespace, serviceAccount, variant, s))
    && (exists s :: s in selectors && HasPrefix(s, NS_PREFIX))
    && (exists s :: s in selectors && !HasPrefix(s, NS_PREFIX) && HasPrefix(s, SA_PREFIX))
    && VARIANT_PREFIX + variant in selectors
  }

  predicate Within(namespace: string, serviceAccount: string, variant: string, s: string) {
    if HasPrefix(s, NS_PREFIX) then s == NS_PREFIX + namespace
    else if HasPrefix(s, SA_PREFIX) then s == SA_PREFIX + serviceAccount && !Blank(serviceAccount)
    else HasPrefix(s, VARIANT_PREFIX) ==> s == VARIANT_PREFIX + variant
  }

  // The plan for resolved inputs, or the first failing check in order.
  function PlanOf(i: PlanInput): Planned {
    if Blank(i.trustDomain) then
      Rejected(StateError(RenderFailure, MissingTrustDomain, "trustDomain must be configured"))
    else if VariantError(i.variant).Some? then Rejected(VariantError(i.variant).value)
    else if Blank(i.serviceAccount) || !IsSubdomain(i.serviceAccount) then
      Rejected(StateError(RenderFailure, InvalidServiceAccountName, "serviceAccountName is invalid"))
    else if !AnchorOK(i.target.anchor) then
      Rejected(StateError(RenderFailure, InvalidSPIFFEID, "identity anchor is invalid"))
    else if !SelectorsSafe(i.namespace, i.serviceAccount, i.variant, Canonical(RawSelectors(i))) then
      Rejected(StateError(UnsafeSelector, UnsafeSelectorSet, "selectors leave the binding boundary"))
    else
      Planned(Plan(SPIFFEID(i.trustDomain, i.namespace, i.serviceAccount, i.target.anchor, i.variant),
                   Canonical(RawSelectors(i)), i.target.podLabels, i.target.anchor, i.variant))
  }

  lemma PlanErrorsAreAllowed(i: PlanInput)
    ensures PlanOf(i).Rejected? ==> FailureReason(PlanOf(i).error.cond, PlanOf(i).error.reason) && !PlanOf(i).error.cond.Conflict?
  {
    hide SelectorsSafe, Canonical, SPIFFEID;
    VariantErrorMeaning(i.variant);
  }

  lemma PrefixSplit(s: string, p: string, x: string)
    requires HasPrefix(s, p)
    ensures s == p + TrimPrefix(s, p)
    ensures TrimPrefix(s, p) == x <==> s == p + x
  {
    assert (p + x)[|p|..] == x;
  }

  lemma VariantSelectorForm(x: string)
    ensures var s := VARIANT_PREFIX + x;
            !HasPrefix(s, NS_PREFIX) && !HasPrefix(s, SA_PREFIX) && HasPrefix(s, VARIANT_PREFIX) && FormOf(s) == LabelForm
  {
    FormOfLabel(VARIANT_KEY + ":" + x);
    assert VARIANT_PREFIX + x == LABEL_PREFIX + (VARIANT_KEY + ":" + x);
  }

  // The loop over rendered selectors, with the source's flags and counter.
  method ValidateSafetySelectors(namespace: string, serviceAccount: string, variant: string, selectors: seq<string>) returns (ok: bool)
    requires Increasing(selectors)
    ensures ok <==> SelectorsSafe(namespace, serviceAccount, variant, selectors)
  {
    VariantSelectorForm(variant);
    hide VARIANT_PREFIX, NS_PREFIX, SA_PREFIX;
    var hasNs, hasSa, count := false, false, 0;
    for i := 0 to |selectors|
      invariant forall j | 0 <= j < i :: Within(namespace, serviceAccount, variant, selectors[j])
      invariant hasNs <==> exists j | 0 <= j < i :: HasPrefix(selectors[j], NS_PREFIX)
      invariant hasSa <==> exists j | 0 <= j < i :: !HasPrefix(selectors[j], NS_PREFIX) && HasPrefix(selectors[j], SA_PREFIX)
      invariant count == if VARIANT_PREFIX + variant in selectors[..i] then 1 else 0
    {
      var s := selectors[i];
      assert selectors[..i + 1] == selectors[..i] + [s];
      if HasPrefix(s, NS_PREFIX) {
        hasNs := true;
        PrefixSplit(s, NS_PREFIX, namespace);
        if TrimPrefix(s, NS_PREFIX) != namespace {
          assert s in selectors && !Within(namespace, serviceAccount, variant, s);
          return false;
        }
      } else if HasPrefix(s, SA_PREFIX) {
        PrefixSplit(s, SA_PREFIX, serviceAccount);
        if Blank(TrimPrefix(s, SA_PREFIX)) {
          assert s in selectors && !Within(namespace, serviceAccount, variant, s);
          return false;
        }
        if TrimPrefix(s, SA_PREFIX) != serviceAccount {
          assert s in selectors && !Within(namespace, serviceAccount, variant, s);
          return false;
        }
        hasSa := true;
      } else if HasPrefix(s, VARIANT_PREFIX) {
        count := count + 1;
        if s != VARIANT_PREFIX + variant {
          assert s in selectors && !Within(namespace, serviceAccount, variant, s);
          return false;
        }
      }
    }
    ok := hasNs && hasSa && count == 1;
  }

  method PlanIdentity(i: PlanInput) returns (r: Planned)
    ensures r == PlanOf(i)
  {
    hide SelectorsSafe, Canonical, SPIFFEID, Increasing, RawSelectors;
    if Blank(i.trustDomain) {
      return Rejected(StateError(RenderFailure, MissingTrustDomain, "trustDomain must be configured"));
    }
    var variantError := VariantError(i.variant);
    if variantError.Some? { return Rejected(variantError.value); }
    if Blank(i.serviceAccount) || !IsSubdomain(i.serviceAccount) {
      return Rejected(StateError(RenderFailure, InvalidServiceAccountName, "serviceAccountName is invalid"));
    }
    if !AnchorOK(i.target.anchor) {
      return Rejected(StateError(RenderFailure, InvalidSPIFFEID, "identity anchor is invalid"));
    }
    var selectors := UniqueAndSorted(RawSelectors(i));
    CanonicalIncreases(RawSelectors(i));
    var safe := ValidateSafetySelectors(i.namespace, i.serviceAccount, i.variant, selectors);
    if !safe {
      return Rejected(StateError(UnsafeSelector, UnsafeSelectorSet, "selectors leave the binding boundary"));
    }
    return Planned(Plan(SPIFFEID(i.trustDomain, i.namespace, i.serviceAccount, i.target.anchor, i.variant),
                        selectors, i.target.podLabels, i.target.anchor, i.variant));
  }

  lemma CanonicalIncreases(values: seq<string>)
    ensures Increasing(Canonical(values))
  {
    CanonicalMeaning(values);
  }

  // ------------------------------------------------------------ confinement

  // What parsing safe selectors yields, whatever else they contain.
  ghost predicate Bounded(sel: WorkloadSelection, namespace: string, serviceAccount: string, variant: string, ns: bool, sa: bool, va: bool) {
    && sel.namespace == (if ns then namespace else "")
    && sel.serviceAccount == (if sa then serviceAccount else "")
    && (VARIANT_KEY in sel.podLabels <==> va)
    && (va ==> sel.podLabels[VARIANT_KEY] == variant)
  }

  lemma VariantKeyForm()
    ensures VARIANT_KEY != "" && ':' !in VARIANT_KEY
  {
  }

  // A pod-label selector sets the boundary label exactly when it has the boundary prefix.
  lemma LabelSelectorKey(s: string)
    requires FormOf(s) == LabelForm && SplitsLabel(LabelBody(s))
    ensures LabelKey(LabelBody(s)) == VARIANT_KEY <==> HasPrefix(s, VARIANT_PREFIX)
    ensures HasPrefix(s, VARIANT_PREFIX) ==> s == VARIANT_PREFIX + LabelValue(LabelBody(s))
  {
    hide LABEL_PREFIX, VARIANT_KEY, VARIANT_PREFIX, Colon;
    var body := LabelBody(s);
    VariantKeyForm();
    assert s == LABEL_PREFIX + body by { LabelBodyIs(s); }
    if HasPrefix(s, VARIANT_PREFIX) {
      var x := s[|VARIANT_PREFIX|..];
      VariantPrefixIs(x);
      assert s == VARIANT_PREFIX + x;
      BehindPrefix(LABEL_PREFIX, body, VARIANT_KEY + ":" + x);
      SplitExactly(VARIANT_KEY, x);
    }
    if LabelKey(body) == VARIANT_KEY {
      BodySplits(body);
      VariantPrefixIs(LabelValue(body));
      PrefixOf(VARIANT_PREFIX, LabelValue(body));
    }
  }

  lemma LabelBodyIs(s: string)
    requires FormOf(s) == LabelForm
    ensures s == LABEL_PREFIX + LabelBody(s)
  {
    hide LABEL_PREFIX, NS_PREFIX, SA_PREFIX;
  }

  lemma VariantPrefixIs(x: string)
    ensures VARIANT_PREFIX + x == LABEL_PREFIX + (VARIANT_KEY + ":" + x)
  {
    hide LABEL_PREFIX, VARIANT_KEY;
  }

  lemma BehindPrefix(p: string, a: string, b: string)
    requires p + a == p + b
    ensures a == b
  {
    assert (p + a)[|p|..] == a && (p + b)[|p|..] == b;
  }

  lemma PrefixOf(p: string, x: string)
    ensures HasPrefix(p + x, p)
  {
  }

  lemma BodySplits(body: string)
    requires SplitsLabel(body)
    ensures body == LabelKey(body) + ":" + LabelValue(body)
  {
  }

  // One more selector inside the boundary.
  lemma ParseOneBounded(sel: WorkloadSelection, s: string, namespace: string, serviceAccount: string, variant: string,
                        ns: bool, sa: bool, va: bool)
    requires Bounded(sel, namespace, serviceAccount, variant, ns, sa, va) && Within(namespace, serviceAccount, variant, s)
    ensures Bounded(ParseOne(sel, s), namespace, serviceAccount, variant,
                    ns || FormOf(s).NsForm?, sa || FormOf(s).SaForm?, va || s == VARIANT_PREFIX + variant)
  {
    VariantSelectorForm(variant);
    VariantKeyForm();
    if FormOf(s).NsForm? { PrefixSplit(s, NS_PREFIX, namespace); }
    if FormOf(s).SaForm? { PrefixSplit(s, SA_PREFIX, serviceAccount); }
    if s == VARIANT_PREFIX + variant {
      VariantPrefixIs(variant);
      SplitExactly(VARIANT_KEY, variant);
      FormOfLabel(VARIANT_KEY + ":" + variant);
    }
    hide VARIANT_PREFIX, LABEL_PREFIX, NS_PREFIX, SA_PREFIX, VARIANT_KEY, Colon;
    if FormOf(s).LabelForm? && !HasPrefix(s, VARIANT_PREFIX) && SplitsLabel(LabelBody(s)) { LabelSelectorKey(s); }
  }

  predicate HasForm(selectors: seq<string>, f: Form) {
    exists i :: 0 <= i < |selectors| && FormOf(selectors[i]) == f
  }

  lemma {:induction false} ParseBounded(selectors: seq<string>, namespace: string, serviceAccount: string, variant: string)
    requires forall s | s in selectors :: Within(namespace, serviceAccount, variant, s)
    ensures Bounded(Parse(selectors), namespace, serviceAccount, variant,
                    HasForm(selectors, NsForm), HasForm(selectors, SaForm), VARIANT_PREFIX + variant in selectors)
  {
    hide VARIANT_PREFIX, FormOf, Within, ParseOne, VARIANT_KEY;
    if selectors != [] {
      var n := |selectors| - 1;
      var front, last := selectors[..n], selectors[n];
      ParseBounded(front, namespace, serviceAccount, variant);
      ParseOneBounded(Parse(front), last, namespace, serviceAccount, variant,
                      HasForm(front, NsForm), HasForm(front, SaForm), VARIANT_PREFIX + variant in front);
      assert selectors == front + [last];
      HasFormAppend(front, last, NsForm);
      HasFormAppend(front, last, SaForm);
    } else {
      EmptyBounded(namespace, serviceAccount, variant);
    }
  }

  lemma EmptyBounded(namespace: string, serviceAccount: string, variant: string)
    ensures Bounded(NO_SELECTION, namespace, serviceAccount, variant, false, false, false)
  {
  }

  lemma HasFormAppend(front: seq<string>, last: string, f: Form)
    ensures HasForm(front + [last], f) <==> HasForm(front, f) || FormOf(last) == f
  {
    hide FormOf;
    var all := front + [last];
    assert all[|front|] == last;
    if HasForm(front, f) {
      var i :| 0 <= i < |front| && FormOf(front[i]) == f;
      assert all[i] == front[i];
    }
    if HasForm(all, f) {
      var i :| 0 <= i < |all| && FormOf(all[i]) == f;
      if i < |front| { assert front[i] == all[i]; }
    }
  }

  // Safe selectors spell out one namespace, service account and variant.
  lemma SafeIsBounded(namespace: string, serviceAccount: string, variant: string, selectors: seq<string>)
    requires SelectorsSafe(namespace, serviceAccount, variant, selectors) && serviceAccount != ""
    ensures Bounds(selectors, namespace, serviceAccount, variant)
  {
    ParseBounded(selectors, namespace, serviceAccount, variant);
    var s :| s in selectors && HasPrefix(s, NS_PREFIX);
    var i :| 0 <= i < |selectors| && selectors[i] == s;
    assert FormOf(selectors[i]) == NsForm;
    var t :| t in selectors && !HasPrefix(t, NS_PREFIX) && HasPrefix(t, SA_PREFIX);
    var j :| 0 <= j < |selectors| && selectors[j] == t;
    assert FormOf(selectors[j]) == SaForm;
    hide VARIANT_PREFIX, FormOf, Parse, VARIANT_KEY, Within;
  }

  // Every successful plan spells out its own boundary.
  lemma PlanIsBounded(i: PlanInput)
    requires PlanOf(i).Planned?
    ensures Bounds(PlanOf(i).plan.selectors, i.namespace, i.serviceAccount, i.variant)
  {
    hide SelectorsSafe, Canonical, SPIFFEID, Bounds;
    SafeIsBounded(i.namespace, i.serviceAccount, i.variant, Canonical(RawSelectors(i)));
  }

  // Every successful plan selects only inside its own boundary.
  lemma PlanIsConfined(i: PlanInput)
    requires PlanOf(i).Planned?
    ensures Confined(PlanOf(i).plan.selectors, i.namespace, i.serviceAccount, i.variant)
  {
    hide PlanOf, Confined, Bounds;
    PlanIsBounded(i);
    BoundsConfine(PlanOf(i).plan.selectors, i.namespace, i.serviceAccount, i.variant);
  }

  // ------------------------------------------------------------ SPIFFE IDs

  // A path splits at its first slash in one way.
  lemma SegmentInjective(a: string, b: string, sep: string, x: string, y: string)
    requires '/' !in a && '/' !in b && sep != "" && sep[0] == '/' && a + sep + x == b + sep + y
    ensures a == b && x == y
  {
    var s := a + sep + x;
    assert s[|a|] == '/' && s[|b|] == '/';
    assert forall i :: 0 <= i < |a| ==> s[i] == a[i];
    assert forall i :: 0 <= i < |b| ==> s[i] == b[i];
    assert |a| == |b|;
    assert s[..|a|] == a && s[..|a|] == b;
    assert s[|a| + |sep|..] == x && s[|a| + |sep|..] == y;
  }

  predicate PathSafe(i: PlanInput) {
    '/' !in i.trustDomain && '/' !in i.namespace
  }

  lemma PlannedSegments(i: PlanInput)
    requires PlanOf(i).Planned?
    ensures '/' !in i.serviceAccount && '/' !in i.target.anchor.kind && '/' !in i.target.anchor.name && '/' !in i.variant
    ensures PlanOf(i).plan.spiffeID == SPIFFEID(i.trustDomain, i.namespace, i.serviceAccount, i.target.anchor, i.variant)
    ensures PlanOf(i).plan.variant == i.variant && PlanOf(i).plan.anchor == i.target.anchor && IsLabelWord(i.variant)
  {
    hide SelectorsSafe, Canonical, SPIFFEID;
    VariantErrorMeaning(i.variant);
    ValidNamesAreClean(i.variant);
    ValidNamesAreClean(i.serviceAccount);
  }

  lemma PathInjective(td1: string, ns1: string, sa1: string, a1: Anchor, v1: string,
                      td2: string, ns2: string, sa2: string, a2: Anchor, v2: string)
    requires '/' !in td1 && '/' !in ns1 && '/' !in sa1 && '/' !in a1.kind && '/' !in a1.name
    requires '/' !in td2 && '/' !in ns2 && '/' !in sa2 && '/' !in a2.kind && '/' !in a2.name
    requires SPIFFEID(td1, ns1, sa1, a1, v1) == SPIFFEID(td2, ns2, sa2, a2, v2)
    ensures td1 == td2 && ns1 == ns2 && sa1 == sa2 && a1 == a2 && v1 == v2
  {
    var n1, n2 := a1.name + "/variant/" + v1, a2.name + "/variant/" + v2;
    var k1, k2 := a1.kind + "/" + n1, a2.kind + "/" + n2;
    var s1, s2 := sa1 + "/inference/" + k1, sa2 + "/inference/" + k2;
    var m1, m2 := ns1 + "/sa/" + s1, ns2 + "/sa/" + s2;
    var t1, t2 := td1 + "/ns/" + m1, td2 + "/ns/" + m2;
    assert SPIFFEID(td1, ns1, sa1, a1, v1)[9..] == t1 && SPIFFEID(td2, ns2, sa2, a2, v2)[9..] == t2;
    hide SPIFFEID;
    SegmentInjective(td1, td2, "/ns/", m1, m2);
    SegmentInjective(ns1, ns2, "/sa/", s1, s2);
    SegmentInjective(sa1, sa2, "/inference/", k1, k2);
    SegmentInjective(a1.kind, a2.kind, "/", n1, n2);
    SegmentInjective(a1.name, a2.name, "/variant/", v1, v2);
  }

  // Equal SPIFFE IDs come from equal identities.
  lemma SPIFFEIDInjective(i: PlanInput, j: PlanInput)
    requires PlanOf(i).Planned? && PlanOf(j).Planned? && PathSafe(i) && PathSafe(j)
    ensures PlanOf(i).plan.spiffeID == PlanOf(j).plan.spiffeID <==>
              i.trustDomain == j.trustDomain && i.namespace == j.namespace && i.serviceAccount == j.serviceAccount
              && i.target.anchor == j.target.anchor && i.variant == j.variant
  {
    hide PlanOf, SPIFFEID;
    PlannedSegments(i);
    PlannedSegments(j);
    if PlanOf(i).plan.spiffeID == PlanOf(j).plan.spiffeID {
      PathInjective(i.trustDomain, i.namespace, i.serviceAccount, i.target.anchor, i.variant,
                    j.trustDomain, j.namespace, j.serviceAccount, j.target.anchor, j.variant);
    }
  }
}
