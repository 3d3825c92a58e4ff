// Strings as byte sequences: trimming, prefixes and the byte-wise order.

module Text {
  predicate IsSpace(c: char) {
    c == ' ' || 9 as char <= c <= 13 as char
  }

  predicate IsAlnum(c: char) {
    'a' <= c <= 'z' || '0' <= c <= '9'
  }

  function TrimLeft(s: string): string {
    if s != "" && IsSpace(s[0]) then TrimLeft(s[1..]) else s
  }

  function TrimRight(s: string): string {
    if s != "" && IsSpace(s[|s| - 1]) then TrimRight(s[..|s| - 1]) else s
  }

  function TrimSpace(s: string): string {
    TrimRight(TrimLeft(s))
  }

  // True when TrimSpace leaves nothing.
  predicate Blank(s: string) {
    forall i :: 0 <= i < |s| ==> IsSpace(s[i])
  }

  // No leading or trailing white space.
  predicate Trimmed(s: string) {
    s == "" || (!IsSpace(s[0]) && !IsSpace(s[|s| - 1]))
  }

  predicate HasPrefix(s: string, prefix: string) {
    |prefix| <= |s| && s[..|prefix|] == prefix
  }

  // strings.TrimPrefix: the rest after the prefix, or s itself.
  function TrimPrefix(s: string, prefix: string): string {
    if HasPrefix(s, prefix) then s[|prefix|..] else s
  }

  // Trimming on the left cuts exactly the white space before the first other character.
  lemma {:induction false} TrimLeftShape(s: string) returns (n: nat)
    ensures n <= |s| && TrimLeft(s) == s[n..]
    ensures n < |s| ==> !IsSpace(s[n])
    ensures forall i :: 0 <= i < n ==> IsSpace(s[i])
  {
    if s != "" && IsSpace(s[0]) {
      var m := TrimLeftShape(s[1..]);
      n := m + 1;
      forall i | 0 <= i < n ensures IsSpace(s[i]) { if i > 0 { assert s[i] == s[1..][i - 1]; } }
    } else {
      n := 0;
    }
  }

  lemma {:induction false} TrimRightShape(s: string) returns (n: nat)
    ensures n <= |s| && TrimRight(s) == s[..n]
    ensures 0 < n ==> !IsSpace(s[n - 1])
    ensures forall i :: n <= i < |s| ==> IsSpace(s[i])
  {
    if s != "" && IsSpace(s[|s| - 1]) {
      var t := s[..|s| - 1];
      n := TrimRightShape(t);
      assert t[..n] == s[..n];
      forall i | n <= i < |s| ensures IsSpace(s[i]) { if i < |t| { assert s[i] == t[i]; } }
    } else {
      n := |s|;
    }
  }

  // TrimSpace is the identity exactly on trimmed strings, its result is always
  // trimmed, and it is empty exactly on blank strings.
  lemma TrimSpaceMeaning(s: string)
    ensures Trimmed(TrimSpace(s))
    ensures TrimSpace(s) == s <==> Trimmed(s)
    ensures TrimSpace(s) == "" <==> Blank(s)
  {
    var n := TrimLeftShape(s);
    var t := s[n..];
    var m := TrimRightShape(t);
    hide TrimLeft, TrimRight, IsSpace;
    assert TrimSpace(s) == t[..m];
    if n < |s| {
      assert t[0] == s[n] && 0 < m;
      assert t[..m][0] == s[n] && t[..m][m - 1] == t[m - 1];
      if m < |t| { assert IsSpace(t[m]) && s[|s| - 1] == t[|t| - 1]; }
      if n == 0 && m == |s| { assert t[..m] == s; }
    }
  }
}
