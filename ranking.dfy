/** Row selection and ordering as the dashboards use them: a boolean-mask filter
    (`df[mask]`), a per-row projection, the stable descending sort behind
    `sorted(..., reverse=True)` and `nlargest(n, col)`, and taking the first `n`. */
module Ranking {

  /** `[x for x in xs if p(x)]`, which is what `df[mask]` keeps. */
  function Where<T>(xs: seq<T>, p: T -> bool): (r: seq<T>)
    ensures |r| <= |xs|
  {
    if xs == [] then [] else (if p(xs[0]) then [xs[0]] else []) + Where(xs[1..], p)
  }

  /** A filter keeps exactly the rows that satisfy the mask. */
  lemma {:induction false} WhereMembers<T>(xs: seq<T>, p: T -> bool)
    ensures forall i :: 0 <= i < |Where(xs, p)| ==> Where(xs, p)[i] in xs && p(Where(xs, p)[i])
    ensures forall i :: 0 <= i < |xs| && p(xs[i]) ==> xs[i] in Where(xs, p)
  {
    if xs != [] {
      WhereMembers(xs[1..], p);
      var head := if p(xs[0]) then [xs[0]] else [];
      var rest := Where(xs[1..], p);
      assert Where(xs, p) == head + rest;
      forall i | 0 <= i < |xs| && p(xs[i])
        ensures xs[i] in Where(xs, p)
      {
        if i > 0 {
          assert xs[i] == xs[1..][i - 1];
        }
      }
    }
  }

  /** `[f(x) for x in xs]`. */
  function Map<A, B>(xs: seq<A>, f: A -> B): (r: seq<B>)
    ensures |r| == |xs|
    ensures forall i :: 0 <= i < |xs| ==> r[i] == f(xs[i])
  {
    if xs == [] then [] else [f(xs[0])] + Map(xs[1..], f)
  }

  /** The first `n` elements, or all of them when there are fewer. */
  function Take<T>(xs: seq<T>, n: nat): (r: seq<T>)
    ensures |r| == if |xs| < n then |xs| else n
    ensures r == xs[..|r|]
  {
    if |xs| <= n then xs else xs[..n]
  }

  /** `a` is `b` with some elements dropped, the rest kept in order. */
  predicate IsSubseq<T(==)>(a: seq<T>, b: seq<T>)
    decreases |b|
  {
    a == [] ||
    (b != [] && ((a[0] == b[0] && IsSubseq(a[1..], b[1..])) || IsSubseq(a, b[1..])))
  }

  /** `[x]` when `keep` holds, nothing otherwise: one conditional `append`. */
  function Opt<T>(x: T, keep: bool): seq<T>
  {
    if keep then [x] else []
  }

  lemma OptIsSubseq<T>(x: T, keep: bool)
    ensures IsSubseq(Opt(x, keep), [x])
  {
    if keep {
      assert [x][1..] == [];
    }
  }

  /** Sub-sequences of two lists concatenate to a sub-sequence of their concatenation. */
  lemma {:induction false} SubseqAppend<T>(a: seq<T>, b: seq<T>, c: seq<T>, d: seq<T>)
    requires IsSubseq(a, b) && IsSubseq(c, d)
    ensures IsSubseq(a + c, b + d)
    decreases |b|
  {
    if b == [] {
      assert a + c == c && b + d == d;
    } else {
      assert (b + d)[0] == b[0] && (b + d)[1..] == b[1..] + d;
      if a == [] {
        SubseqAppend(a, b[1..], c, d);
        assert a + c == c;
      } else if a[0] == b[0] && IsSubseq(a[1..], b[1..]) {
        SubseqAppend(a[1..], b[1..], c, d);
        assert (a + c)[0] == a[0] && (a + c)[1..] == a[1..] + c;
      } else {
        SubseqAppend(a, b[1..], c, d);
      }
    }
  }

  /** Six conditional appends in a row keep the order of the six candidates. */
  lemma SixInOrder<T>(t1: T, t2: T, t3: T, t4: T, t5: T, t6: T, k1: bool, k2: bool, k3: bool, k4: bool, k5: bool, k6: bool)
    ensures IsSubseq(Opt(t1, k1) + Opt(t2, k2) + Opt(t3, k3) + Opt(t4, k4) + Opt(t5, k5) + Opt(t6, k6),
                     [t1, t2, t3, t4, t5, t6])
  {
    OptIsSubseq(t1, k1);
    OptIsSubseq(t2, k2);
    OptIsSubseq(t3, k3);
    OptIsSubseq(t4, k4);
    OptIsSubseq(t5, k5);
    OptIsSubseq(t6, k6);
    SubseqAppend(Opt(t1, k1), [t1], Opt(t2, k2), [t2]);
    var p2 := Opt(t1, k1) + Opt(t2, k2);
    SubseqAppend(p2, [t1] + [t2], Opt(t3, k3), [t3]);
    var p3 := p2 + Opt(t3, k3);
    SubseqAppend(p3, [t1] + [t2] + [t3], Opt(t4, k4), [t4]);
    var p4 := p3 + Opt(t4, k4);
    SubseqAppend(p4, [t1] + [t2] + [t3] + [t4], Opt(t5, k5), [t5]);
    var p5 := p4 + Opt(t5, k5);
    SubseqAppend(p5, [t1] + [t2] + [t3] + [t4] + [t5], Opt(t6, k6), [t6]);
    assert [t1] + [t2] + [t3] + [t4] + [t5] + [t6] == [t1, t2, t3, t4, t5, t6];
  }

  /** A filter keeps the surviving rows in their original order. */
  lemma {:induction false} WhereIsSubseq<T>(xs: seq<T>, p: T -> bool)
    ensures IsSubseq(Where(xs, p), xs)
  {
    if xs != [] {
      WhereIsSubseq(xs[1..], p);
      var rest := Where(xs[1..], p);
      if p(xs[0]) {
        assert Where(xs, p) == [xs[0]] + rest;
        assert ([xs[0]] + rest)[1..] == rest;
      } else {
        assert Where(xs, p) == rest;
      }
    }
  }

  /** Filtering a concatenation filters each part. */
  lemma {:induction false} WhereAppend<T>(a: seq<T>, b: seq<T>, p: T -> bool)
    ensures Where(a + b, p) == Where(a, p) + Where(b, p)
  {
    if a == [] {
      assert a + b == b;
    } else {
      var head := if p(a[0]) then [a[0]] else [];
      assert (a + b)[0] == a[0] && (a + b)[1..] == a[1..] + b;
      assert Where(a + b, p) == head + Where(a[1..] + b, p);
      WhereAppend(a[1..], b, p);
      assert Where(a, p) == head + Where(a[1..], p);
    }
  }

  /** Projecting a concatenation projects each part. */
  lemma {:induction false} MapAppend<A, B>(a: seq<A>, b: seq<A>, f: A -> B)
    ensures Map(a + b, f) == Map(a, f) + Map(b, f)
  {
    if a == [] {
      assert a + b == b;
    } else {
      assert (a + b)[1..] == a[1..] + b;
      MapAppend(a[1..], b, f);
    }
  }

  /** Filtering a table that grows by one row. */
  lemma WhereSnoc<T>(xs: seq<T>, x: T, p: T -> bool)
    ensures Where(xs + [x], p) == Where(xs, p) + (if p(x) then [x] else [])
  {
    WhereAppend(xs, [x], p);
    assert [x][1..] == [];
  }

  /** Filtering and projecting a table that grows by one row. */
  lemma MapWhereSnoc<A, B>(xs: seq<A>, x: A, p: A -> bool, f: A -> B)
    ensures Map(Where(xs + [x], p), f) == Map(Where(xs, p), f) + (if p(x) then [f(x)] else [])
  {
    WhereSnoc(xs, x, p);
    MapAppend(Where(xs, p), if p(x) then [x] else [], f);
  }

  /** Filtering and projecting one row more of a table's prefix. */
  lemma MapWherePrefix<A, B>(xs: seq<A>, i: nat, p: A -> bool, f: A -> B)
    requires i < |xs|
    ensures Map(Where(xs[..i + 1], p), f) == Map(Where(xs[..i], p), f) + (if p(xs[i]) then [f(xs[i])] else [])
  {
    assert xs[..i + 1] == xs[..i] + [xs[i]];
    MapWhereSnoc(xs[..i], xs[i], p, f);
  }

  /** Every row the mask keeps has its projection in the projected list. */
  lemma MapWhereComplete<A, B>(xs: seq<A>, p: A -> bool, f: A -> B)
    ensures forall j :: 0 <= j < |xs| && p(xs[j]) ==> f(xs[j]) in Map(Where(xs, p), f)
  {
    var kept := Where(xs, p);
    WhereMembers(xs, p);
    forall j | 0 <= j < |xs| && p(xs[j])
      ensures f(xs[j]) in Map(kept, f)
    {
      assert xs[j] in kept;
      var k :| 0 <= k < |kept| && kept[k] == xs[j];
      assert Map(kept, f)[k] == f(kept[k]);
    }
  }

  /** The projected list is empty exactly when the mask keeps no row. */
  lemma MapWhereEmptyIff<A, B>(xs: seq<A>, p: A -> bool, f: A -> B)
    ensures Map(Where(xs, p), f) == [] <==> forall j :: 0 <= j < |xs| ==> !p(xs[j])
  {
    WhereMembers(xs, p);
    if Where(xs, p) != [] {
      assert Where(xs, p)[0] in xs;
    }
  }

  /** Two masks that agree on every row select the same rows. */
  lemma {:induction false} WhereExt<T>(xs: seq<T>, p: T -> bool, q: T -> bool)
    requires forall x :: x in xs ==> p(x) == q(x)
    ensures Where(xs, p) == Where(xs, q)
  {
    if xs != [] {
      WhereExt(xs[1..], p, q);
    }
  }

  /** Filtering by `p` and then by `q` is filtering once by their conjunction. */
  lemma {:induction false} WhereThen<T>(xs: seq<T>, p: T -> bool, q: T -> bool, pq: T -> bool)
    requires forall x :: x in xs ==> pq(x) == (p(x) && q(x))
    ensures Where(Where(xs, p), q) == Where(xs, pq)
  {
    if xs != [] {
      WhereThen(xs[1..], p, q, pq);
      var rest := Where(xs[1..], p);
      if p(xs[0]) {
        assert Where(xs, p) == [xs[0]] + rest;
        WhereAppend([xs[0]], rest, q);
        assert [xs[0]][1..] == [];
        assert Where([xs[0]], q) == if q(xs[0]) then [xs[0]] else [];
      } else {
        assert Where(xs, p) == rest;
      }
    }
  }

  /** Applying the same filter twice equals applying it once. */
  lemma WhereIdempotent<T>(xs: seq<T>, p: T -> bool)
    ensures Where(Where(xs, p), p) == Where(xs, p)
  {
    WhereThen(xs, p, p, p);
  }

  /** A mask that holds on every row keeps the table as it is. */
  lemma {:induction false} WhereAll<T>(xs: seq<T>, p: T -> bool)
    requires forall x :: x in xs ==> p(x)
    ensures Where(xs, p) == xs
  {
    if xs != [] {
      WhereAll(xs[1..], p);
    }
  }

  /** Two masks that never hold together select, between them, the rows of their
      disjunction. */
  lemma {:induction false} WhereCountUnion<T>(xs: seq<T>, p: T -> bool, q: T -> bool, pq: T -> bool)
    requires forall x :: x in xs ==> !(p(x) && q(x))
    requires forall x :: x in xs ==> pq(x) == (p(x) || q(x))
    ensures |Where(xs, pq)| == |Where(xs, p)| + |Where(xs, q)|
  {
    if xs != [] {
      WhereCountUnion(xs[1..], p, q, pq);
    }
  }

  /** A mask that holds on no row leaves nothing. */
  lemma {:induction false} WhereNone<T>(xs: seq<T>, p: T -> bool)
    requires forall x :: x in xs ==> !p(x)
    ensures Where(xs, p) == []
  {
    if xs != [] {
      WhereNone(xs[1..], p);
    }
  }

  /** Three masks of which exactly one holds on each row split the table. */
  lemma {:induction false} WherePartition3<T>(xs: seq<T>, p: T -> bool, q: T -> bool, s: T -> bool)
    requires forall x :: x in xs ==> (p(x) || q(x) || s(x))
    requires forall x :: x in xs ==> !(p(x) && q(x)) && !(p(x) && s(x)) && !(q(x) && s(x))
    ensures |Where(xs, p)| + |Where(xs, q)| + |Where(xs, s)| == |xs|
  {
    if xs != [] {
      WherePartition3(xs[1..], p, q, s);
    }
  }

  // ---------------------------------------------------------------------------
  // Stable sort on an integer key, largest first.

  ghost predicate SortedDesc<T>(xs: seq<T>, key: T -> int)
  {
    forall i, j :: 0 <= i < j < |xs| ==> key(xs[i]) >= key(xs[j])
  }

  /** Puts `x` in front of the first element whose key is not larger, so that it
      stays before the equal-keyed elements that followed it in the input. */
  function InsertDesc<T>(x: T, s: seq<T>, key: T -> int): (r: seq<T>)
    ensures multiset(r) == multiset(s) + multiset{x}
  {
    if s == [] then [x]
    else if key(s[0]) <= key(x) then [x] + s
    else
      assert s == [s[0]] + s[1..];
      [s[0]] + InsertDesc(x, s[1..], key)
  }

  /** Inserting into a list sorted largest first keeps it sorted. */
  lemma {:induction false} InsertDescSorted<T>(x: T, s: seq<T>, key: T -> int)
    requires SortedDesc(s, key)
    ensures SortedDesc(InsertDesc(x, s, key), key)
  {
    var r := InsertDesc(x, s, key);
    if s == [] {
    } else if key(s[0]) <= key(x) {
      assert r == [x] + s;
      forall i, j | 0 <= i < j < |r|
        ensures key(r[i]) >= key(r[j])
      {
        if i == 0 {
          assert r[j] == s[j - 1] && key(s[0]) >= key(s[j - 1]);
        } else {
          assert r[i] == s[i - 1] && r[j] == s[j - 1];
        }
      }
    } else {
      var tail := s[1..];
      var rest := InsertDesc(x, tail, key);
      assert SortedDesc(tail, key) by {
        forall i, j | 0 <= i < j < |tail|
          ensures key(tail[i]) >= key(tail[j])
        {
          assert tail[i] == s[i + 1] && tail[j] == s[j + 1];
        }
      }
      InsertDescSorted(x, tail, key);
      assert r == [s[0]] + rest;
      forall i, j | 0 <= i < j < |r|
        ensures key(r[i]) >= key(r[j])
      {
        if i == 0 {
          var y := rest[j - 1];
          assert r[j] == y;
          assert y in multiset(rest);
          if y != x {
            assert y in multiset(tail);
            var k :| 0 <= k < |tail| && tail[k] == y;
            assert s[k + 1] == y;
          }
        } else {
          assert r[i] == rest[i - 1] && r[j] == rest[j - 1];
        }
      }
    }
  }

  /** `sorted(xs, key=key, reverse=True)`: Python's sort is stable also when reversed. */
  function SortDesc<T>(xs: seq<T>, key: T -> int): (r: seq<T>)
    ensures multiset(r) == multiset(xs)
    ensures SortedDesc(r, key)
  {
    if xs == [] then []
    else
      assert xs == [xs[0]] + xs[1..];
      InsertDescSorted(xs[0], SortDesc(xs[1..], key), key);
      InsertDesc(xs[0], SortDesc(xs[1..], key), key)
  }

  lemma {:induction false} InsertDescStable<T>(x: T, s: seq<T>, key: T -> int, same: T -> bool)
    requires forall y :: same(y) <==> key(y) == key(x)
    ensures Where(InsertDesc(x, s, key), same) == [x] + Where(s, same)
  {
    var r := InsertDesc(x, s, key);
    if s == [] {
      assert r == [x] && same(x);
    } else if key(s[0]) <= key(x) {
      assert r == [x] + s && same(x);
      assert r[0] == x && r[1..] == s;
    } else {
      var rest := InsertDesc(x, s[1..], key);
      assert r == [s[0]] + rest;
      assert r[0] == s[0] && r[1..] == rest;
      assert !same(s[0]);
      assert Where(r, same) == Where(rest, same);
      InsertDescStable(x, s[1..], key, same);
      assert Where(s, same) == Where(s[1..], same);
    }
  }
  lemma {:induction false} InsertDescOther<T>(x: T, s: seq<T>, key: T -> int, same: T -> bool)
    requires !same(x)
    ensures Where(InsertDesc(x, s, key), same) == Where(s, same)
  {
    if s != [] && key(s[0]) > key(x) {
      InsertDescOther(x, s[1..], key, same);
    }
  }

  /** Stability: the elements that share one key value keep their input order. */
  lemma {:induction false} SortDescStable<T>(xs: seq<T>, key: T -> int, k: int, same: T -> bool)
    requires forall y :: same(y) <==> key(y) == k
    ensures Where(SortDesc(xs, key), same) == Where(xs, same)
  {
    if xs != [] {
      SortDescStable(xs[1..], key, k, same);
      if same(xs[0]) {
        InsertDescStable(xs[0], SortDesc(xs[1..], key), key, same);
      } else {
        InsertDescOther(xs[0], SortDesc(xs[1..], key), key, same);
      }
    }
  }

  /** `nlargest(n, key)` with pandas' default `keep='first'`: the stably sorted
      table cut to its first `n` rows. */
  function NLargest<T>(xs: seq<T>, n: nat, key: T -> int): seq<T>
  {
    Take(SortDesc(xs, key), n)
  }

  /** In a list sorted largest first, nothing after position `k` beats anything before it. */
  lemma SortedDescSplit<T>(xs: seq<T>, key: T -> int, k: nat)
    requires SortedDesc(xs, key) && k <= |xs|
    ensures forall y, z :: y in xs[k..] && z in xs[..k] ==> key(y) <= key(z)
  {
    forall y, z | y in xs[k..] && z in xs[..k]
      ensures key(y) <= key(z)
    {
      var j :| 0 <= j < |xs[k..]| && xs[k..][j] == y;
      var i :| 0 <= i < k && xs[..k][i] == z;
      assert xs[i] == z && xs[k + j] == y;
    }
  }

  /** Every row `nlargest` returns is a row of its input. */
  lemma NLargestFromInput<T>(xs: seq<T>, n: nat, key: T -> int)
    ensures forall i :: 0 <= i < |NLargest(xs, n, key)| ==> NLargest(xs, n, key)[i] in xs
  {
    var top := NLargest(xs, n, key);
    var sorted := SortDesc(xs, key);
    forall i | 0 <= i < |top|
      ensures top[i] in xs
    {
      assert top[i] == sorted[i];
      assert sorted[i] in multiset(sorted);
    }
  }

  /** What `nlargest` promises: `min(n, len)` rows taken from the input, largest
      key first, and no row left out has a larger key than a row kept. */
  lemma NLargestIsTop<T>(xs: seq<T>, n: nat, key: T -> int)
    ensures |NLargest(xs, n, key)| == if |xs| < n then |xs| else n
    ensures SortedDesc(NLargest(xs, n, key), key)
    ensures multiset(NLargest(xs, n, key)) <= multiset(xs)
    ensures forall y, z :: y in multiset(xs) - multiset(NLargest(xs, n, key)) && z in NLargest(xs, n, key)
              ==> key(y) <= key(z)
  {
    var sorted := SortDesc(xs, key);
    var top := NLargest(xs, n, key);
    assert |sorted| == |xs| by {
      assert |multiset(sorted)| == |multiset(xs)|;
    }
    assert top == sorted[..|top|];
    SortedPrefixIsTop(sorted, key, |top|);
  }

  /** The first `k` rows of a list sorted largest first: part of the list, sorted,
      and beaten by none of the rows after them. */
  lemma SortedPrefixIsTop<T>(sorted: seq<T>, key: T -> int, k: nat)
    requires SortedDesc(sorted, key) && k <= |sorted|
    ensures SortedDesc(sorted[..k], key)
    ensures multiset(sorted[..k]) <= multiset(sorted)
    ensures forall y, z :: y in multiset(sorted) - multiset(sorted[..k]) && z in sorted[..k] ==> key(y) <= key(z)
  {
    assert sorted == sorted[..k] + sorted[k..];
    assert multiset(sorted) == multiset(sorted[..k]) + multiset(sorted[k..]);
    SortedDescSplit(sorted, key, k);
    forall y, z | y in multiset(sorted) - multiset(sorted[..k]) && z in sorted[..k]
      ensures key(y) <= key(z)
    {
      assert y in multiset(sorted[k..]);
    }
  }
}
