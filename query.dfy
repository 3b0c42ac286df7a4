/**
 * The query-builder operations the handlers use, stated on in-memory tables:
 * `.eq`/`.gte`/`.lte` filters, `.order`, `.limit` and `.single()`.
 * A table is a sequence of rows; a query is "filter, sort, take".
 */
module Query {
  import opened Wrappers
  import opened Text

  /** The rows of `s` that satisfy `p`, in table order. */
  function Filter<T>(s: seq<T>, p: T -> bool): (r: seq<T>)
    ensures |r| <= |s|
  {
    if s == [] then []
    else if p(s[0]) then [s[0]] + Filter(s[1..], p)
    else Filter(s[1..], p)
  }

  /** Filtering keeps every copy of a row that satisfies `p` and no copy of any other. */
  lemma {:induction false} FilterCount<T>(s: seq<T>, p: T -> bool)
    ensures forall x :: multiset(Filter(s, p))[x] == if p(x) then multiset(s)[x] else 0
    decreases |s|
  {
    if s != [] {
      FilterCount(s[1..], p);
      assert s == [s[0]] + s[1..];
      assert multiset(s) == multiset{s[0]} + multiset(s[1..]);
    }
  }

  /** A row is in the result exactly when it is in the table and satisfies `p`. */
  lemma FilterMembers<T>(s: seq<T>, p: T -> bool)
    ensures forall x :: x in Filter(s, p) <==> x in s && p(x)
  {
    FilterCount(s, p);
    assert forall x :: x in Filter(s, p) <==> multiset(Filter(s, p))[x] > 0;
  }

  /** The result keeps the table's order. */
  lemma {:induction false} FilterOrder<T>(s: seq<T>, p: T -> bool)
    ensures IsSubsequence(Filter(s, p), s)
    decreases |s|
  {
    if s != [] {
      FilterOrder(s[1..], p);
      if p(s[0]) {
        assert ([s[0]] + Filter(s[1..], p))[1..] == Filter(s[1..], p);
      } else {
        SubsequenceOfTail(Filter(s[1..], p), s);
      }
    }
  }

  lemma {:induction false} SubsequenceOfTail<T>(a: seq<T>, b: seq<T>)
    requires b != [] && IsSubsequence(a, b[1..])
    ensures IsSubsequence(a, b)
    decreases |a| + |b|
  {
    if a != [] && a[0] == b[0] {
      SubsequenceDropHead(a, b[1..]);
    }
  }

  lemma {:induction false} SubsequenceDropHead<T>(a: seq<T>, b: seq<T>)
    requires a != [] && IsSubsequence(a, b)
    ensures IsSubsequence(a[1..], b)
    decreases |a| + |b|
  {
    if a[0] == b[0] {
      SubsequenceOfTail(a[1..], b);
    } else {
      SubsequenceDropHead(a, b[1..]);
      SubsequenceOfTail(a[1..], b);
    }
  }

  /** `a` is `b` with some elements left out, the rest in order. */
  predicate IsSubsequence<T(==)>(a: seq<T>, b: seq<T>)
    decreases |b|
  {
    a == [] || (b != [] && if a[0] == b[0] then IsSubsequence(a[1..], b[1..]) else IsSubsequence(a, b[1..]))
  }

  lemma FilterCons<T>(x: T, s: seq<T>, p: T -> bool)
    ensures Filter([x] + s, p) == if p(x) then [x] + Filter(s, p) else Filter(s, p)
  {
    assert ([x] + s)[1..] == s;
  }

  lemma {:induction false} FilterAppend<T>(a: seq<T>, b: seq<T>, p: T -> bool)
    ensures Filter(a + b, p) == Filter(a, p) + Filter(b, p)
    decreases |a|
  {
    if a == [] {
      assert a + b == b;
    } else {
      assert (a + b)[1..] == a[1..] + b;
      FilterAppend(a[1..], b, p);
    }
  }

  /** A condition every row satisfies keeps the whole table... */
  lemma {:induction false} FilterAll<T>(s: seq<T>, p: T -> bool)
    requires forall i :: 0 <= i < |s| ==> p(s[i])
    ensures Filter(s, p) == s
    decreases |s|
  {
    if s != [] {
      FilterAll(s[1..], p);
    }
  }

  /** ...and one no row satisfies keeps nothing. */
  lemma {:induction false} FilterNone<T>(s: seq<T>, p: T -> bool)
    requires forall i :: 0 <= i < |s| ==> !p(s[i])
    ensures Filter(s, p) == []
    decreases |s|
  {
    if s != [] {
      FilterNone(s[1..], p);
    }
  }

  /** The first index at or after `k` whose row satisfies `p`. */
  function IndexFrom<T>(s: seq<T>, p: T -> bool, k: nat): (r: Option<nat>)
    requires k <= |s|
    ensures r.Some? ==> k <= r.value < |s| && p(s[r.value]) && forall j :: k <= j < r.value ==> !p(s[j])
    ensures r.None? ==> forall j :: k <= j < |s| ==> !p(s[j])
    decreases |s| - k
  {
    if k == |s| then None
    else if p(s[k]) then Some(k)
    else IndexFrom(s, p, k + 1)
  }

  // ---- queries under construction ----

  /** Every condition added to a query so far holds of `x`. */
  predicate AllHold<T>(conds: seq<T -> bool>, x: T) {
    forall i :: 0 <= i < |conds| ==> conds[i](x)
  }

  /** A query with one condition keeps the rows meeting it. */
  lemma AllHoldOne<T>(p: T -> bool)
    ensures forall x :: AllHold([p], x) <==> p(x)
  {
    assert [p][0] == p;
  }

  /** Adding one more condition narrows a query by exactly that condition. */
  lemma AllHoldSnoc<T>(conds: seq<T -> bool>, p: T -> bool)
    ensures forall x :: AllHold(conds + [p], x) <==> AllHold(conds, x) && p(x)
  {
    forall x ensures AllHold(conds + [p], x) <==> AllHold(conds, x) && p(x) {
      assert forall i :: 0 <= i < |conds| ==> (conds + [p])[i] == conds[i];
      assert (conds + [p])[|conds|] == p;
    }
  }

  function Satisfies<T>(conds: seq<T -> bool>): T -> bool {
    x => AllHold(conds, x)
  }

  /** Running a query: the rows of `table` that meet every condition, in table order. */
  function Where<T(!new)>(table: seq<T>, conds: seq<T -> bool>): (r: seq<T>)
    ensures forall x :: multiset(r)[x] == if AllHold(conds, x) then multiset(table)[x] else 0
  {
    FilterCount(table, Satisfies(conds));
    Filter(table, Satisfies(conds))
  }

  /** `.single()`: the index of the one row satisfying `p`; `None` when no row
      or more than one row does (the client then reports an error and no data). */
  function Single<T>(s: seq<T>, p: T -> bool): (r: Option<nat>)
    ensures r.Some? ==> r.value < |s| && p(s[r.value])
    ensures r.Some? ==> forall j :: 0 <= j < |s| && j != r.value ==> !p(s[j])
    ensures r.None? ==> (forall j :: 0 <= j < |s| ==> !p(s[j]))
                        || exists i, j :: 0 <= i < j < |s| && p(s[i]) && p(s[j])
  {
    match IndexFrom(s, p, 0)
    case None => None
    case Some(i) =>
      var next := IndexFrom(s, p, i + 1);
      if next.None? then Some(i) else assert p(s[i]) && p(s[next.value]); None
  }

  /** At most one row of `s` satisfies `p` (what a uniqueness constraint guarantees). */
  predicate AtMostOne<T>(s: seq<T>, p: T -> bool) {
    forall i, j :: 0 <= i < j < |s| && p(s[i]) ==> !p(s[j])
  }

  /** Where at most one row can match, `.single()` finds a row exactly when one exists. */
  lemma SingleFindsUnique<T>(s: seq<T>, p: T -> bool)
    requires AtMostOne(s, p)
    ensures Single(s, p).None? <==> forall j :: 0 <= j < |s| ==> !p(s[j])
  {
  }

  /** Rows whose `key` values are pairwise different. */
  predicate DistinctKeys<T, K(==)>(s: seq<T>, key: T -> K) {
    forall i, j :: 0 <= i < j < |s| ==> key(s[i]) != key(s[j])
  }

  /** A condition that fixes the key matches at most one row of a table whose keys are distinct. */
  lemma KeyedAtMostOne<T, K>(s: seq<T>, key: T -> K, k: K, p: T -> bool)
    requires DistinctKeys(s, key)
    requires forall x :: p(x) ==> key(x) == k
    ensures AtMostOne(s, p)
  {
  }

  /** Appending a row whose key is new keeps the keys distinct. */
  lemma DistinctKeysAppend<T, K>(s: seq<T>, x: T, key: T -> K)
    requires DistinctKeys(s, key)
    requires forall i :: 0 <= i < |s| ==> key(s[i]) != key(x)
    ensures DistinctKeys(s + [x], key)
  {
  }

  /** Two tables of distinct keys, no key shared between them, have distinct keys together. */
  lemma DistinctKeysConcat<T, K>(a: seq<T>, b: seq<T>, key: T -> K)
    requires DistinctKeys(a, key) && DistinctKeys(b, key)
    requires forall i, j :: 0 <= i < |a| && 0 <= j < |b| ==> key(a[i]) != key(b[j])
    ensures DistinctKeys(a + b, key)
  {
    forall i, j | 0 <= i < j < |a + b| ensures key((a + b)[i]) != key((a + b)[j]) {
      if j < |a| {
      } else if i < |a| {
        assert (a + b)[j] == b[j - |a|];
      } else {
        assert (a + b)[i] == b[i - |a|] && (a + b)[j] == b[j - |a|];
      }
    }
  }

  /** A positive id larger than every id in the table: how the model's store numbers new rows. */
  function FreshId<T>(s: seq<T>, id: T -> nat): (r: nat)
    ensures r > 0
    ensures forall i :: 0 <= i < |s| ==> id(s[i]) < r
  {
    if s == [] then 1
    else
      var rest := FreshId(s[..|s| - 1], id);
      assert forall i :: 0 <= i < |s| - 1 ==> s[..|s| - 1][i] == s[i];
      if id(s[|s| - 1]) < rest then rest else id(s[|s| - 1]) + 1
  }

  // ---- ordering ----

  /** Lexicographic order on sort keys, each key a list of columns (`order(a).order(b)`). */
  predicate KeyLe(a: seq<string>, b: seq<string>)
    decreases |a|
  {
    |a| == 0 || (|b| > 0 && (StrLt(a[0], b[0]) || (a[0] == b[0] && KeyLe(a[1..], b[1..]))))
  }

  lemma {:induction false} KeyLeTotal(a: seq<string>, b: seq<string>)
    ensures KeyLe(a, b) || KeyLe(b, a)
    decreases |a|
  {
    if |a| > 0 && |b| > 0 {
      StrLeTotal(a[0], b[0]);
      if a[0] == b[0] { KeyLeTotal(a[1..], b[1..]); }
    }
  }

  lemma {:induction false} KeyLeTransitive(a: seq<string>, b: seq<string>, c: seq<string>)
    requires KeyLe(a, b) && KeyLe(b, c)
    ensures KeyLe(a, c)
    decreases |a|
  {
    if |a| > 0 {
      if a[0] == b[0] && b[0] == c[0] {
        KeyLeTransitive(a[1..], b[1..], c[1..]);
      } else if a[0] != b[0] && b[0] != c[0] {
        StrLeTransitive(a[0], b[0], c[0]);
        if a[0] == c[0] { StrLeAntisymmetric(a[0], b[0]); }
      }
    }
  }

  /** `a` may come before `b` in ascending (or, with `desc`, descending) order. */
  predicate Before(a: seq<string>, b: seq<string>, desc: bool) {
    if desc then KeyLe(b, a) else KeyLe(a, b)
  }

  predicate Sorted<T>(s: seq<T>, key: T -> seq<string>, desc: bool) {
    forall i, j :: 0 <= i < j < |s| ==> Before(key(s[i]), key(s[j]), desc)
  }

  function Insert<T(==)>(x: T, s: seq<T>, key: T -> seq<string>, desc: bool): (r: seq<T>)
    requires Sorted(s, key, desc)
    ensures Sorted(r, key, desc)
    ensures multiset(r) == multiset(s) + multiset{x}
  {
    if s == [] then [x]
    else if Before(key(x), key(s[0]), desc) then
      BeforeAll(x, s, key, desc);
      ConsSorted(x, s, key, desc);
      [x] + s
    else
      assert s == [s[0]] + s[1..];
      var rest := Insert(x, s[1..], key, desc);
      HeadBeforeRest(x, s, rest, key, desc);
      ConsSorted(s[0], rest, key, desc);
      [s[0]] + rest
  }

  /** A row that may come before the first row of a sorted table may come before all of them. */
  lemma BeforeAll<T>(x: T, s: seq<T>, key: T -> seq<string>, desc: bool)
    requires Sorted(s, key, desc) && s != [] && Before(key(x), key(s[0]), desc)
    ensures forall y :: y in s ==> Before(key(x), key(y), desc)
  {
    forall y | y in s ensures Before(key(x), key(y), desc) {
      var j :| 0 <= j < |s| && s[j] == y;
      if j > 0 {
        if desc { KeyLeTransitive(key(s[j]), key(s[0]), key(x)); }
        else { KeyLeTransitive(key(x), key(s[0]), key(s[j])); }
      }
    }
  }

  /** Inserting a row that may not come first leaves the old first row before everything else. */
  lemma HeadBeforeRest<T>(x: T, s: seq<T>, rest: seq<T>, key: T -> seq<string>, desc: bool)
    requires Sorted(s, key, desc) && s != [] && !Before(key(x), key(s[0]), desc)
    requires multiset(rest) == multiset(s[1..]) + multiset{x}
    ensures forall y :: y in rest ==> Before(key(s[0]), key(y), desc)
  {
    KeyLeTotal(key(x), key(s[0]));
    forall y | y in rest ensures Before(key(s[0]), key(y), desc) {
      assert y in multiset(rest);
      if y != x {
        assert y in multiset(s[1..]);
        var k :| 0 <= k < |s[1..]| && s[1..][k] == y;
        assert s[k + 1] == y;
      }
    }
  }

  lemma ConsSorted<T>(h: T, rest: seq<T>, key: T -> seq<string>, desc: bool)
    requires Sorted(rest, key, desc) && forall y :: y in rest ==> Before(key(h), key(y), desc)
    ensures Sorted([h] + rest, key, desc)
  {
    var r := [h] + rest;
    forall i, j | 0 <= i < j < |r| ensures Before(key(r[i]), key(r[j]), desc) {
      assert r[j] == rest[j - 1];
      if i > 0 { assert r[i] == rest[i - 1]; } else { assert rest[j - 1] in rest; }
    }
  }

  /** `.order(...)`: the rows of `s` rearranged into key order. */
  function SortBy<T(==)>(s: seq<T>, key: T -> seq<string>, desc: bool): (r: seq<T>)
    ensures Sorted(r, key, desc)
    ensures multiset(r) == multiset(s)
    ensures |r| == |s|
  {
    if s == [] then []
    else
      assert s == [s[0]] + s[1..];
      Insert(s[0], SortBy(s[1..], key, desc), key, desc)
  }

  /** `.limit(n)` after ordering: the first `n` rows. */
  function Take<T>(s: seq<T>, n: nat): (r: seq<T>)
    ensures |r| == if n < |s| then n else |s|
    ensures r == s[..|r|]
  {
    if n < |s| then s[..n] else s
  }

  /** A prefix of a sorted table is sorted, and holds no row the table does not. */
  lemma TakeSorted<T>(s: seq<T>, n: nat, key: T -> seq<string>, desc: bool)
    requires Sorted(s, key, desc)
    ensures Sorted(Take(s, n), key, desc)
    ensures multiset(Take(s, n)) <= multiset(s)
  {
    var r := Take(s, n);
    assert s == r + s[|r|..];
  }
}
