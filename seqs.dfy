/** The array methods the stores are written with (`filter`, `map`,
    `find`, `reduce`), as functions on sequences, with the facts about
    them that the stores' properties rest on. */
module Seqs {
  import opened Common

  /** `a` is `b` with some elements dropped, the rest kept in order. */
  ghost predicate IsSubsequence<T>(a: seq<T>, b: seq<T>)
    decreases |b|
  {
    a == [] || (b != [] && ((a[0] == b[0] && IsSubsequence(a[1..], b[1..])) || IsSubsequence(a, b[1..])))
  }

  /** `s.filter(keep)`. What it keeps is stated by FilterSpec. */
  function Filter<T>(s: seq<T>, keep: T -> bool): (r: seq<T>)
    ensures |r| <= |s|
  {
    if s == [] then []
    else if keep(s[0]) then [s[0]] + Filter(s[1..], keep)
    else Filter(s[1..], keep)
  }

  /** The filter keeps, in their order, exactly the elements that pass. */
  lemma {:induction false} FilterSpec<T>(s: seq<T>, keep: T -> bool)
    ensures forall i :: 0 <= i < |Filter(s, keep)| ==> keep(Filter(s, keep)[i])
    ensures forall i :: 0 <= i < |s| && keep(s[i]) ==> s[i] in Filter(s, keep)
    ensures IsSubsequence(Filter(s, keep), s)
  {
    if s != [] {
      FilterSpec(s[1..], keep);
      forall i | 0 <= i < |s| && keep(s[i])
        ensures s[i] in Filter(s, keep)
      {
        if i > 0 {
          assert s[i] == s[1..][i - 1];
        }
      }
    }
  }

  /** The filter keeps every passing element as often as it occurs, and
      no failing one. */
  lemma {:induction false} FilterMultiset<T>(s: seq<T>, keep: T -> bool)
    ensures forall x :: multiset(Filter(s, keep))[x] == if keep(x) then multiset(s)[x] else 0
  {
    if s != [] {
      FilterMultiset(s[1..], keep);
      assert s == [s[0]] + s[1..];
      assert multiset(s) == multiset([s[0]]) + multiset(s[1..]);
      if keep(s[0]) {
        assert multiset(Filter(s, keep)) == multiset([s[0]]) + multiset(Filter(s[1..], keep));
      }
    }
  }

  /** `s.map(f)`. */
  function Map<T, U>(s: seq<T>, f: T -> U): (r: seq<U>)
    ensures |r| == |s|
    ensures forall i :: 0 <= i < |s| ==> r[i] == f(s[i])
  {
    if s == [] then [] else [f(s[0])] + Map(s[1..], f)
  }

  /** `s.findIndex(p)`, with |s| in place of -1. */
  function FirstIndex<T>(s: seq<T>, p: T -> bool): (k: nat)
    ensures k <= |s|
    ensures k < |s| ==> p(s[k])
    ensures forall j :: 0 <= j < k ==> !p(s[j])
  {
    if s == [] then 0 else if p(s[0]) then 0 else 1 + FirstIndex(s[1..], p)
  }

  /** `s.find(p)`: the first element satisfying p, if any. */
  function Find<T>(s: seq<T>, p: T -> bool): (r: Option<T>)
    ensures r.None? <==> forall j :: 0 <= j < |s| ==> !p(s[j])
    ensures r.Some? ==> r.value in s && p(r.value)
    ensures r.Some? <==> FirstIndex(s, p) < |s|
    ensures r.Some? ==> r.value == s[FirstIndex(s, p)]
  {
    var k := FirstIndex(s, p);
    if k < |s| then Some(s[k]) else None
  }

  /** Filtering a list with one more element at its end. */
  lemma FilterSnoc<T>(s: seq<T>, x: T, keep: T -> bool)
    ensures Filter(s + [x], keep) == Filter(s, keep) + (if keep(x) then [x] else [])
  {
    FilterAppend(s, [x], keep);
    assert [x][1..] == [];
  }

  /** What `find` returns comes no later than any element that
      satisfies p. */
  lemma FindFirst<T>(s: seq<T>, p: T -> bool)
    ensures Find(s, p).Some? ==> forall i :: 0 <= i < |s| && p(s[i]) ==> Find(s, p).value in s[..i + 1]
  {
    var k := FirstIndex(s, p);
    forall i | 0 <= i < |s| && p(s[i])
      ensures k <= i && s[..i + 1][k] == s[k]
    {
    }
  }

  /** The sequence read back to front. */
  function Reversed<T>(s: seq<T>): (r: seq<T>)
    ensures |r| == |s|
    ensures forall i :: 0 <= i < |s| ==> r[i] == s[|s| - 1 - i]
  {
    if s == [] then [] else Reversed(s[1..]) + [s[0]]
  }

  lemma {:induction false} FilterAppend<T>(a: seq<T>, b: seq<T>, keep: T -> bool)
    ensures Filter(a + b, keep) == Filter(a, keep) + Filter(b, keep)
  {
    if a == [] {
      assert a + b == b;
    } else {
      FilterAppend(a[1..], b, keep);
      var ab := a + b;
      assert ab[0] == a[0] && ab[1..] == a[1..] + b;
      if keep(a[0]) {
        calc {
          Filter(ab, keep);
          [a[0]] + Filter(a[1..] + b, keep);
          [a[0]] + (Filter(a[1..], keep) + Filter(b, keep));
          ([a[0]] + Filter(a[1..], keep)) + Filter(b, keep);
        }
      } else {
        assert Filter(ab, keep) == Filter(a[1..] + b, keep);
      }
    }
  }

  /** A filter that every element passes returns its input unchanged. */
  lemma {:induction false} FilterKeepsAll<T>(s: seq<T>, keep: T -> bool)
    requires forall x :: x in s ==> keep(x)
    ensures Filter(s, keep) == s
  {
    if s != [] {
      FilterKeepsAll(s[1..], keep);
      assert [s[0]] + s[1..] == s;
    }
  }

  /** Two filters in a row are one filter by the conjunction. */
  lemma {:induction false} FilterFilter<T>(s: seq<T>, p: T -> bool, q: T -> bool, both: T -> bool)
    requires forall x :: both(x) == (p(x) && q(x))
    ensures Filter(Filter(s, p), q) == Filter(s, both)
  {
    if s != [] {
      FilterFilter(s[1..], p, q, both);
    }
  }

  /** Filters by predicates that agree on every element coincide. */
  lemma {:induction false} FilterCongruent<T>(s: seq<T>, p: T -> bool, q: T -> bool)
    requires forall x :: x in s ==> p(x) == q(x)
    ensures Filter(s, p) == Filter(s, q)
  {
    if s != [] {
      FilterCongruent(s[1..], p, q);
    }
  }

  lemma {:induction false} SubsequenceTransitive<T>(a: seq<T>, b: seq<T>, c: seq<T>)
    requires IsSubsequence(a, b) && IsSubsequence(b, c)
    ensures IsSubsequence(a, c)
    decreases |c|
  {
    if a == [] {
    } else if c == [] {
    } else if b != [] && b[0] == c[0] && IsSubsequence(b[1..], c[1..]) {
      if a[0] == b[0] && IsSubsequence(a[1..], b[1..]) {
        SubsequenceTransitive(a[1..], b[1..], c[1..]);
      } else {
        SubsequenceTransitive(a, b[1..], c[1..]);
      }
    } else {
      SubsequenceTransitive(a, b, c[1..]);
    }
  }

  lemma {:induction false} MapAppend<T, U>(a: seq<T>, b: seq<T>, f: T -> U)
    ensures Map(a + b, f) == Map(a, f) + Map(b, f)
  {
  }

  /** The first match in `a + b` is the first match in `a` if there is
      one, and otherwise the first match in `b`. */
  lemma {:induction false} FindAppend<T>(a: seq<T>, b: seq<T>, p: T -> bool)
    ensures Find(a + b, p) == if Find(a, p).Some? then Find(a, p) else Find(b, p)
  {
    if a == [] {
      assert a + b == b;
    } else {
      FindAppend(a[1..], b, p);
      assert (a + b)[1..] == a[1..] + b;
      if !p(a[0]) {
        assert FirstIndex(a + b, p) == 1 + FirstIndex(a[1..] + b, p);
        assert FirstIndex(a, p) == 1 + FirstIndex(a[1..], p);
      }
    }
  }

  /** Every element of the filter comes from the input and passes. */
  lemma {:induction false} FilterMembers<T>(s: seq<T>, keep: T -> bool)
    ensures forall x :: x in Filter(s, keep) ==> x in s && keep(x)
  {
    if s != [] {
      FilterMembers(s[1..], keep);
      forall x | x in Filter(s[1..], keep)
        ensures x in s
      {
        assert x in s[1..];
      }
    }
  }

  /** Filtering away only elements that `p` rejects does not change the
      first match of `p`. */
  lemma {:induction false} FindFilter<T>(s: seq<T>, keep: T -> bool, p: T -> bool)
    requires forall x :: p(x) ==> keep(x)
    ensures Find(Filter(s, keep), p) == Find(s, p)
  {
    if s != [] {
      FindFilter(s[1..], keep, p);
      assert s == [s[0]] + s[1..];
      FindAppend([s[0]], s[1..], p);
      if keep(s[0]) {
        FindAppend([s[0]], Filter(s[1..], keep), p);
      }
    }
  }

  /** A filter that no element passes returns nothing. */
  lemma {:induction false} FilterKeepsNone<T>(s: seq<T>, keep: T -> bool)
    requires forall i :: 0 <= i < |s| ==> !keep(s[i])
    ensures Filter(s, keep) == []
  {
    if s != [] {
      FilterKeepsNone(s[1..], keep);
    }
  }

  lemma ReversedAppend<T>(s: seq<T>, x: T)
    ensures Reversed(s + [x]) == [x] + Reversed(s)
  {
  }

  lemma MapReversed<T, U>(s: seq<T>, f: T -> U)
    ensures Map(Reversed(s), f) == Reversed(Map(s, f))
  {
  }

  lemma FilterCons<T>(x: T, s: seq<T>, keep: T -> bool)
    ensures Filter([x] + s, keep) == if keep(x) then [x] + Filter(s, keep) else Filter(s, keep)
  {
    assert ([x] + s)[1..] == s;
  }

  lemma FilterAppend3<T>(a: seq<T>, b: seq<T>, c: seq<T>, keep: T -> bool)
    ensures Filter(a + b + c, keep) == Filter(a, keep) + Filter(b, keep) + Filter(c, keep)
  {
    FilterAppend(a + b, c, keep);
    FilterAppend(a, b, keep);
  }

  /** An element put in front of the first non-empty of three blocks
      ends up in front of their concatenation. */
  lemma PrependToBlocks<T>(x: T, a: seq<T>, b: seq<T>, c: seq<T>)
    ensures ([x] + a) + b + c == [x] + (a + b + c)
    ensures a == [] ==> a + ([x] + b) + c == [x] + (a + b + c)
    ensures a == [] && b == [] ==> a + b + ([x] + c) == [x] + (a + b + c)
  {
  }

  lemma AppendAssoc<T>(a: seq<T>, b: seq<T>, c: seq<T>, d: seq<T>)
    ensures a + b + c + d == a + (b + c + d)
  {
  }

  /** Mapping the filter of `s + [x]` maps the filter of `s`, then `x`
      if it passes. */
  lemma MapFilterSnoc<T, U>(s: seq<T>, x: T, keep: T -> bool, f: T -> U)
    ensures Map(Filter(s + [x], keep), f) == Map(Filter(s, keep), f) + Map(Filter([x], keep), f)
  {
    FilterAppend(s, [x], keep);
    MapAppend(Filter(s, keep), Filter([x], keep), f);
  }

  /** The inductive step shared by the scans that build their output
      one input at a time: if `front` corresponds to the kept prefix and
      `last` to the last input, their concatenation corresponds to the
      whole input. */
  lemma MapFilterStep<T, A, U>(front: seq<A>, last: seq<A>, g: A -> U,
                            s: seq<T>, x: T, keep: T -> bool, f: T -> U)
    requires Map(front, g) == Map(Filter(s, keep), f)
    requires Map(last, g) == Map(Filter([x], keep), f)
    ensures Map(front + last, g) == Map(Filter(s + [x], keep), f)
  {
    MapAppend(front, last, g);
    MapFilterSnoc(s, x, keep, f);
  }
}
