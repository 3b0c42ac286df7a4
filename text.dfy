/**
 * String facts the ledger relies on: JavaScript's notion of white space
 * (`String.prototype.trim` and the regular-expression class `\s`), trimming,
 * and the code-point lexicographic order used for dates, months and names
 * when the store filters (`gte`, `lte`) and sorts (`order`).
 */
module Text {

  /** The characters `trim()` removes and `\s` matches. */
  predicate IsSpace(c: char) {
    || c == ' ' || c == '\t' || c == '\n' || c == '\r'
    || c == '\U{000B}' || c == '\U{000C}' || c == '\U{00A0}' || c == '\U{1680}'
    || ('\U{2000}' <= c <= '\U{200A}')
    || c == '\U{2028}' || c == '\U{2029}' || c == '\U{202F}' || c == '\U{205F}'
    || c == '\U{3000}' || c == '\U{FEFF}'
  }

  predicate AllSpace(s: string) {
    forall i :: 0 <= i < |s| ==> IsSpace(s[i])
  }

  /** `s` without its leading white space. */
  function TrimStart(s: string): (r: string)
    ensures |r| <= |s| && r == s[|s| - |r|..]
    ensures forall i :: 0 <= i < |s| - |r| ==> IsSpace(s[i])
    ensures r == [] || !IsSpace(r[0])
  {
    if |s| > 0 && IsSpace(s[0]) then
      var r := TrimStart(s[1..]);
      var k := |s| - |r|;
      assert forall i :: 1 <= i < |s| ==> s[i] == s[1..][i - 1];
      assert s[k..] == s[1..][k - 1..];
      r
    else s
  }

  /** `s` without its trailing white space. */
  function TrimEnd(s: string): (r: string)
    ensures |r| <= |s| && r == s[..|r|]
    ensures forall i :: |r| <= i < |s| ==> IsSpace(s[i])
    ensures r == [] || !IsSpace(r[|r| - 1])
  {
    if |s| > 0 && IsSpace(s[|s| - 1]) then
      var r := TrimEnd(s[..|s| - 1]);
      assert forall i :: 0 <= i < |s| - 1 ==> s[i] == s[..|s| - 1][i];
      assert s[..|r|] == s[..|s| - 1][..|r|];
      r
    else s
  }

  /** JavaScript's `s.trim()`. */
  function Trim(s: string): string {
    TrimEnd(TrimStart(s))
  }

  /** `!s.trim()`: a string is blank exactly when every character is white space. */
  lemma TrimEmptyIffAllSpace(s: string)
    ensures Trim(s) == [] <==> AllSpace(s)
  {
    var a := TrimStart(s);
    if !AllSpace(s) {
      var k :| 0 <= k < |s| && !IsSpace(s[k]);
      assert s[k] == a[k - (|s| - |a|)];
    }
  }

  /** Trimming leaves a string whose first and last characters are not white space. */
  lemma TrimHasNoOuterSpace(s: string)
    ensures var t := Trim(s); t == [] || (!IsSpace(t[0]) && !IsSpace(t[|t| - 1]))
  {
    var a := TrimStart(s);
    var t := TrimEnd(a);
    if t != [] {
      assert t[0] == a[0];
    }
  }

  /** Trimming twice is trimming once. */
  lemma TrimIdempotent(s: string)
    ensures Trim(Trim(s)) == Trim(s)
  {
    var t := Trim(s);
    TrimHasNoOuterSpace(s);
    if t != [] {
      assert TrimStart(t) == t;
      assert TrimEnd(t) == t;
    }
  }

  /** `a <= b` in code-point lexicographic order (a prefix comes first). */
  predicate StrLe(a: string, b: string)
    decreases |a|
  {
    |a| == 0 || (|b| > 0 && (a[0] < b[0] || (a[0] == b[0] && StrLe(a[1..], b[1..]))))
  }

  predicate StrLt(a: string, b: string) {
    StrLe(a, b) && a != b
  }

  lemma {:induction false} StrLeReflexive(a: string)
    ensures StrLe(a, a)
    decreases |a|
  {
    if |a| > 0 { StrLeReflexive(a[1..]); }
  }

  lemma {:induction false} StrLeAntisymmetric(a: string, b: string)
    requires StrLe(a, b) && StrLe(b, a)
    ensures a == b
    decreases |a|
  {
    if |a| > 0 {
      StrLeAntisymmetric(a[1..], b[1..]);
      assert a == [a[0]] + a[1..] && b == [b[0]] + b[1..];
    }
  }

  lemma {:induction false} StrLeTransitive(a: string, b: string, c: string)
    requires StrLe(a, b) && StrLe(b, c)
    ensures StrLe(a, c)
    decreases |a|
  {
    if |a| > 0 && a[0] == b[0] && b[0] == c[0] {
      StrLeTransitive(a[1..], b[1..], c[1..]);
    }
  }

  lemma {:induction false} StrLeTotal(a: string, b: string)
    ensures StrLe(a, b) || StrLe(b, a)
    decreases |a|
  {
    if |a| > 0 && |b| > 0 && a[0] == b[0] {
      StrLeTotal(a[1..], b[1..]);
    }
  }

  /** Behind a common prefix, the order is decided by what follows it. */
  lemma {:induction false} StrLeCommonPrefix(p: string, a: string, b: string)
    ensures StrLe(p + a, p + b) <==> StrLe(a, b)
    decreases |p|
  {
    if |p| > 0 {
      assert (p + a)[1..] == p[1..] + a && (p + b)[1..] == p[1..] + b;
      StrLeCommonPrefix(p[1..], a, b);
    } else {
      assert p + a == a && p + b == b;
    }
  }

  /** If `c` leaves the common prefix of `a` and `b` at index `i` (before either ends),
      then `c` sits on the same side of `a` as of `b`. */
  lemma {:induction false} StrLeDivergesInPrefix(a: string, b: string, c: string, i: nat)
    requires i < |a| && i < |b| && i < |c|
    requires a[..i + 1] == b[..i + 1] && a[..i] == c[..i] && a[i] != c[i]
    ensures StrLe(a, c) <==> StrLe(b, c)
    ensures StrLe(c, a) <==> StrLe(c, b)
    decreases i
  {
    assert a[0] == b[0] by { assert a[..i + 1][0] == b[..i + 1][0]; }
    if i > 0 {
      assert a[0] == c[0] by { assert a[..i][0] == c[..i][0]; }
      assert a[1..][..i] == a[..i + 1][1..] && b[1..][..i] == b[..i + 1][1..];
      assert a[1..][..i - 1] == a[..i][1..] && c[1..][..i - 1] == c[..i][1..];
      StrLeDivergesInPrefix(a[1..], b[1..], c[1..], i - 1);
    }
  }
}
