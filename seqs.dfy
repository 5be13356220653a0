/** Sequence operations the flattening transform is built from: the
    filtering list comprehension `[x for x in s if p(x)]`, the flattening of a
    list of runs into one list (a nested comprehension), and what is needed
    about them. */
module Seqs {

  /** `[x for x in s if p(x)]`: the elements of `s` that satisfy `p`, in order. */
  function Filter<T(!new)>(s: seq<T>, p: T -> bool): (r: seq<T>)
    ensures |r| <= |s|
  {
    if s == [] then []
    else if p(s[0]) then [s[0]] + Filter(s[1..], p)
    else Filter(s[1..], p)
  }

  /** The filter keeps exactly the elements of `s` that satisfy `p`. */
  lemma {:induction false} FilterMembers<T(!new)>(s: seq<T>, p: T -> bool)
    ensures forall x :: x in Filter(s, p) <==> x in s && p(x)
  {
    if s != [] {
      FilterMembers(s[1..], p);
      assert s == [s[0]] + s[1..];
    }
  }

  /** One step of the comprehension, for unfolding it on a list written out. */
  lemma FilterCons<T(!new)>(x: T, s: seq<T>, p: T -> bool)
    ensures p(x) ==> Filter([x] + s, p) == [x] + Filter(s, p)
    ensures !p(x) ==> Filter([x] + s, p) == Filter(s, p)
  {
    assert ([x] + s)[0] == x && ([x] + s)[1..] == s;
  }

  /** One step of laying out runs, for unfolding it on a list written out. */
  lemma ConcatCons<T(!new)>(run: seq<T>, runs: seq<seq<T>>)
    ensures Concat([run] + runs) == run + Concat(runs)
  {
    assert ([run] + runs)[0] == run && ([run] + runs)[1..] == runs;
  }

  /** `[f(x) for x in s]` */
  function Map<T(!new), U(!new)>(s: seq<T>, f: T -> U): (r: seq<U>)
    ensures |r| == |s| && forall i :: 0 <= i < |s| ==> r[i] == f(s[i])
  {
    seq(|s|, i requires 0 <= i < |s| => f(s[i]))
  }

  /** `[x for run in runs for x in run]`: the runs laid end to end. */
  function Concat<T(!new)>(runs: seq<seq<T>>): seq<T>
  {
    if runs == [] then [] else runs[0] + Concat(runs[1..])
  }

  /** Every element of the laid-out runs comes from one of the runs. */
  lemma {:induction false} ConcatMember<T(!new)>(runs: seq<seq<T>>, x: T)
    requires x in Concat(runs)
    ensures exists k :: 0 <= k < |runs| && x in runs[k]
  {
    if x !in runs[0] {
      ConcatMember(runs[1..], x);
      var k :| 0 <= k < |runs[1..]| && x in runs[1..][k];
      assert runs[k + 1] == runs[1..][k];
    }
  }

  /** `s` interleaves `a` and `b`: each element of `s` is taken from exactly
      one of the two, and each of the two keeps its relative order. */
  ghost predicate IsMerge<T(!new)>(s: seq<T>, a: seq<T>, b: seq<T>)
    decreases |s|
  {
    if s == [] then a == [] && b == []
    else
      || (a != [] && a[0] == s[0] && IsMerge(s[1..], a[1..], b))
      || (b != [] && b[0] == s[0] && IsMerge(s[1..], a, b[1..]))
  }

  /** Two complementary filters split a sequence into an interleaving of
      their results: every element lands in exactly one of them, in order. */
  lemma {:induction false} FilterPartition<T(!new)>(s: seq<T>, p: T -> bool, q: T -> bool)
    requires forall x :: q(x) == !p(x)
    ensures IsMerge(s, Filter(s, p), Filter(s, q))
    ensures |Filter(s, p)| + |Filter(s, q)| == |s|
  {
    if s != [] {
      FilterPartition(s[1..], p, q);
      if p(s[0]) {
        assert Filter(s, p) == [s[0]] + Filter(s[1..], p);
        assert Filter(s, q) == Filter(s[1..], q);
        assert Filter(s, p)[1..] == Filter(s[1..], p);
      } else {
        assert Filter(s, q) == [s[0]] + Filter(s[1..], q);
        assert Filter(s, p) == Filter(s[1..], p);
        assert Filter(s, q)[1..] == Filter(s[1..], q);
      }
    }
  }

  /** The split is unique: the only interleaving of `s` into a part satisfying
      `p` and a part satisfying its complement is the pair of filters. */
  lemma {:induction false} MergeIsFilter<T(!new)>(s: seq<T>, a: seq<T>, b: seq<T>, p: T -> bool, q: T -> bool)
    requires forall x :: q(x) == !p(x)
    requires IsMerge(s, a, b)
    requires forall x :: x in a ==> p(x)
    requires forall x :: x in b ==> q(x)
    ensures a == Filter(s, p) && b == Filter(s, q)
  {
    if s != [] {
      if a != [] && a[0] == s[0] && IsMerge(s[1..], a[1..], b) {
        assert a[0] in a;
        forall x | x in a[1..] ensures p(x) { assert x in a; }
        MergeIsFilter(s[1..], a[1..], b, p, q);
        assert a == [a[0]] + a[1..];
      } else {
        assert b != [] && b[0] == s[0] && IsMerge(s[1..], a, b[1..]);
        assert b[0] in b;
        forall x | x in b[1..] ensures q(x) { assert x in b; }
        MergeIsFilter(s[1..], a, b[1..], p, q);
        assert b == [b[0]] + b[1..];
      }
    }
  }

  /** Filtering distributes over concatenation. */
  lemma {:induction false} FilterAppend<T(!new)>(a: seq<T>, b: seq<T>, p: T -> bool)
    ensures Filter(a + b, p) == Filter(a, p) + Filter(b, p)
  {
    if a == [] {
      assert a + b == b;
    } else {
      var x, rest := a[0], a[1..];
      FilterAppend(rest, b, p);
      assert a == [x] + rest && a + b == [x] + (rest + b);
      FilterCons(x, rest + b, p);
      FilterCons(x, rest, p);
    }
  }

  /** Filtering with a predicate every element satisfies changes nothing. */
  lemma {:induction false} FilterKeepsAll<T(!new)>(s: seq<T>, p: T -> bool)
    requires forall x :: x in s ==> p(x)
    ensures Filter(s, p) == s
  {
    if s != [] {
      assert s[0] in s;
      forall x | x in s[1..] ensures p(x) { assert x in s; }
      FilterKeepsAll(s[1..], p);
      assert s == [s[0]] + s[1..];
    }
  }

  /** The first element a filter keeps is the first element of `s` that
      satisfies `p`. */
  lemma {:induction false} FilterHead<T(!new)>(s: seq<T>, p: T -> bool)
    requires Filter(s, p) != []
    ensures exists i :: 0 <= i < |s| && s[i] == Filter(s, p)[0] && p(s[i])
                        && forall j :: 0 <= j < i ==> !p(s[j])
  {
    if p(s[0]) {
      assert Filter(s, p)[0] == s[0];
    } else {
      assert Filter(s, p) == Filter(s[1..], p);
      FilterHead(s[1..], p);
      var i :| 0 <= i < |s[1..]| && s[1..][i] == Filter(s[1..], p)[0] && p(s[1..][i])
               && forall j :: 0 <= j < i ==> !p(s[1..][j]);
      assert s[i + 1] == s[1..][i];
      forall j | 0 <= j < i + 1 ensures !p(s[j]) {
        if j > 0 { assert s[j] == s[1..][j - 1]; }
      }
    }
  }

  /** Filtering commutes with a projection `f`, when `q` tests the element
      the way `p` tests its projection. */
  lemma {:induction false} FilterMap<T(!new), U(!new)>(s: seq<T>, f: T -> U, p: U -> bool, q: T -> bool)
    requires forall x :: q(x) == p(f(x))
    ensures Map(Filter(s, q), f) == Filter(Map(s, f), p)
  {
    if s != [] {
      FilterMap(s[1..], f, p, q);
      assert Map(s, f)[0] == f(s[0]);
      assert Map(s, f)[1..] == Map(s[1..], f);
      MapAppend(if q(s[0]) then [s[0]] else [], Filter(s[1..], q), f);
    }
  }

  /** Projection distributes over concatenation. */
  lemma MapAppend<T(!new), U(!new)>(a: seq<T>, b: seq<T>, f: T -> U)
    ensures Map(a + b, f) == Map(a, f) + Map(b, f)
  {
  }

  /** Concatenating runs distributes over splitting the list of runs. */
  lemma {:induction false} ConcatAppend<T(!new)>(a: seq<seq<T>>, b: seq<seq<T>>)
    ensures Concat(a + b) == Concat(a) + Concat(b)
  {
    if a == [] {
      assert a + b == b;
    } else {
      assert (a + b)[0] == a[0];
      assert (a + b)[1..] == a[1..] + b;
      ConcatAppend(a[1..], b);
    }
  }

  /** Projecting the laid-out runs is laying out the projected runs. */
  lemma {:induction false} MapConcat<T(!new), U(!new)>(runs: seq<seq<T>>, f: T -> U)
    ensures Map(Concat(runs), f) == Concat(seq(|runs|, k requires 0 <= k < |runs| => Map(runs[k], f)))
  {
    var mapped := seq(|runs|, k requires 0 <= k < |runs| => Map(runs[k], f));
    if runs != [] {
      MapConcat(runs[1..], f);
      MapAppend(runs[0], Concat(runs[1..]), f);
      assert mapped[1..] == seq(|runs[1..]|, k requires 0 <= k < |runs[1..]| => Map(runs[1..][k], f));
    }
  }

  /** Dropping an element the filter rejects does not change the filter. */
  lemma {:induction false} FilterSkip<T(!new)>(a: seq<T>, x: T, b: seq<T>, p: T -> bool)
    requires !p(x)
    ensures Filter(a + [x] + b, p) == Filter(a + b, p)
  {
    if a == [] {
      assert a + [x] + b == [x] + b && a + b == b;
      assert ([x] + b)[0] == x && ([x] + b)[1..] == b;
      assert Filter([x] + b, p) == [] + Filter(b, p);
    } else {
      assert (a + [x] + b)[0] == a[0] && (a + b)[0] == a[0];
      assert (a + [x] + b)[1..] == a[1..] + [x] + b;
      assert (a + b)[1..] == a[1..] + b;
      FilterSkip(a[1..], x, b, p);
    }
  }

  /** An element the filter keeps stays between the filtered parts around it. */
  lemma FilterKeep<T(!new)>(a: seq<T>, x: T, b: seq<T>, p: T -> bool)
    requires p(x)
    ensures Filter(a + [x] + b, p) == Filter(a, p) + [x] + Filter(b, p)
  {
    FilterAppend(a + [x], b, p);
    FilterAppend(a, [x], p);
    assert Filter([x], p) == [x] + Filter([x][1..], p);
  }

  /** The `k`-th run sits between the runs before it and the runs after it. */
  lemma {:induction false} ConcatSplit<T(!new)>(runs: seq<seq<T>>, k: nat)
    requires k < |runs|
    ensures Concat(runs) == Concat(runs[..k]) + runs[k] + Concat(runs[k + 1..])
  {
    if k == 0 {
      assert runs[..0] == [] && runs[1..] == runs[k + 1..];
    } else {
      var tail := runs[1..];
      ConcatSplit(tail, k - 1);
      assert tail[..k - 1] == runs[..k][1..] && tail[k - 1] == runs[k] && tail[k..] == runs[k + 1..];
      assert runs[..k][0] == runs[0];
    }
  }

  /** The `i`-th element of the `k`-th run sits after the runs before it. */
  lemma ConcatIndex<T(!new)>(runs: seq<seq<T>>, k: nat, i: nat)
    requires k < |runs| && i < |runs[k]|
    ensures |Concat(runs[..k])| + i < |Concat(runs)|
    ensures Concat(runs)[|Concat(runs[..k])| + i] == runs[k][i]
  {
    ConcatSplit(runs, k);
  }

  /** An empty run contributes nothing. */
  lemma ConcatSkipEmpty<T(!new)>(a: seq<seq<T>>, b: seq<seq<T>>)
    ensures Concat(a + [[]] + b) == Concat(a + b)
  {
    var empty: seq<seq<T>> := [[]];
    ConcatAppend(a + empty, b);
    ConcatAppend(a, empty);
    ConcatAppend(a, b);
    assert Concat(empty) == [] + Concat(empty[1..]);
  }
}
