// Byte-wise string order and sorting, shared by selectors and conflict records.

module Order {
  // a sorts before or equal to b.
  predicate Le(a: string, b: string) {
    a == "" || (b != "" && (a[0] < b[0] || (a[0] == b[0] && Le(a[1..], b[1..]))))
  }

  lemma {:induction false} LeTotal(a: string, b: string)
    ensures Le(a, a) && (Le(a, b) || Le(b, a))
    ensures Le(a, b) && Le(b, a) ==> a == b
  {
    if a != "" {
      LeTotal(a[1..], if b == "" then b else b[1..]);
      assert a == [a[0]] + a[1..];
      if b != "" { assert b == [b[0]] + b[1..]; }
    }
  }

  lemma {:induction false} LeTransitive(a: string, b: string, c: string)
    requires Le(a, b) && Le(b, c)
    ensures Le(a, c)
  {
    if a != "" && a[0] == b[0] && b[0] == c[0] { LeTransitive(a[1..], b[1..], c[1..]); }
  }

  // ------------------------------------------------------------ lists of strings

  // Field-by-field comparison: the first difference decides.
  predicate ListLe(a: seq<string>, b: seq<string>) {
    a == [] || (b != [] && ((a[0] != b[0] && Le(a[0], b[0])) || (a[0] == b[0] && ListLe(a[1..], b[1..]))))
  }

  lemma {:induction false} ListLeTotal(a: seq<string>, b: seq<string>)
    ensures ListLe(a, a) && (ListLe(a, b) || ListLe(b, a))
    ensures ListLe(a, b) && ListLe(b, a) ==> a == b
  {
    if a != [] {
      ListLeTotal(a[1..], if b == [] then b else b[1..]);
      assert a == [a[0]] + a[1..];
      if b != [] {
        LeTotal(a[0], b[0]);
        assert b == [b[0]] + b[1..];
      }
    }
  }

  lemma {:induction false} ListLeTransitive(a: seq<string>, b: seq<string>, c: seq<string>)
    requires ListLe(a, b) && ListLe(b, c)
    ensures ListLe(a, c)
  {
    if a != [] {
      LeTotal(a[0], b[0]);
      LeTotal(b[0], c[0]);
      LeTotal(a[0], c[0]);
      if Le(a[0], b[0]) && Le(b[0], c[0]) { LeTransitive(a[0], b[0], c[0]); }
      if a[0] == b[0] && b[0] == c[0] { ListLeTransitive(a[1..], b[1..], c[1..]); }
    }
  }

  // ------------------------------------------------------------ sorting

  ghost predicate TotalOrder<T(!new)>(le: (T, T) -> bool) {
    && (forall a :: le(a, a))
    && (forall a, b :: le(a, b) || le(b, a))
    && (forall a, b :: le(a, b) && le(b, a) ==> a == b)
    && (forall a, b, c :: le(a, b) && le(b, c) ==> le(a, c))
  }

  ghost predicate Sorted<T>(le: (T, T) -> bool, s: seq<T>) {
    forall i, j | 0 <= i < j < |s| :: le(s[i], s[j])
  }

  lemma HeadTail<T>(s: seq<T>)
    requires s != []
    ensures s == [s[0]] + s[1..] && multiset(s) == multiset{s[0]} + multiset(s[1..])
  {
    assert s == [s[0]] + s[1..];
  }

  lemma HeadIsLeast<T(!new)>(le: (T, T) -> bool, s: seq<T>, x: T)
    requires TotalOrder(le) && Sorted(le, s) && x in s
    ensures le(s[0], x) && Sorted(le, s[1..])
  {
  }

  // Under a total order the sorted form of a multiset is unique.
  lemma {:induction false} SortedFormUnique<T(!new)>(le: (T, T) -> bool, a: seq<T>, b: seq<T>)
    requires TotalOrder(le) && Sorted(le, a) && Sorted(le, b) && multiset(a) == multiset(b)
    ensures a == b
  {
    hide Sorted;
    assert |a| == |multiset(a)| == |multiset(b)| == |b|;
    if a != [] {
      assert a[0] in multiset(b) && b[0] in multiset(a);
      HeadIsLeast(le, a, b[0]);
      HeadIsLeast(le, b, a[0]);
      assert a[0] == b[0];
      HeadTail(a);
      HeadTail(b);
      hide TotalOrder;
      assert multiset(a[1..]) == multiset(a) - multiset{a[0]} == multiset(b[1..]);
      SortedFormUnique(le, a[1..], b[1..]);
    }
  }

  // Adds x to a sorted sequence, keeping it sorted.
  function Insert<T>(le: (T, T) -> bool, x: T, s: seq<T>): seq<T> {
    if s == [] || le(x, s[0]) then [x] + s else [s[0]] + Insert(le, x, s[1..])
  }

  lemma SortedCons<T(!new)>(le: (T, T) -> bool, x: T, s: seq<T>)
    requires Sorted(le, s) && forall y | y in s :: le(x, y)
    ensures Sorted(le, [x] + s)
  {
  }

  lemma {:induction false} InsertSorts<T(!new)>(le: (T, T) -> bool, x: T, s: seq<T>)
    requires TotalOrder(le) && Sorted(le, s)
    ensures Sorted(le, Insert(le, x, s)) && multiset(Insert(le, x, s)) == multiset(s) + multiset{x}
  {
    if s == [] {
      assert Insert(le, x, s) == [x];
    } else {
      forall y | y in s ensures le(s[0], y) { HeadIsLeast(le, s, y); }
      HeadTail(s);
      if le(x, s[0]) {
        hide Sorted;
        SortedCons(le, x, s);
        assert multiset([x] + s) == multiset{x} + multiset(s);
      } else {
        assert Sorted(le, s[1..]);
        hide Sorted;
        InsertSorts(le, x, s[1..]);
        var rest := Insert(le, x, s[1..]);
        forall y | y in rest ensures le(s[0], y) {
          assert y in multiset(rest);
          assert y == x || y in multiset(s[1..]);
        }
        hide TotalOrder;
        SortedCons(le, s[0], rest);
        assert multiset([s[0]] + rest) == multiset{s[0]} + multiset(rest);
      }
    }
  }

  // The sorted permutation of s.
  method Sort<T(!new)>(le: (T, T) -> bool, s: seq<T>) returns (r: seq<T>)
    requires TotalOrder(le)
    ensures Sorted(le, r) && multiset(r) == multiset(s)
  {
    r := [];
    for i := 0 to |s|
      invariant Sorted(le, r) && multiset(r) == multiset(s[..i])
    {
      InsertSorts(le, s[i], r);
      assert s[..i + 1] == s[..i] + [s[i]];
      r := Insert(le, s[i], r);
    }
    assert s[..|s|] == s;
  }
}
