/*******************************************************************************
 *  Sequence combinators behind the extraction pipeline: `filter_map` over a
 *  log list, `flat_map` over an enumeration of a receipt map, and the merge
 *  of several producers' sequences into one interleaved trace.
 *******************************************************************************/

module Seqs {
  import opened Primitives

  /** `xs.iter().filter_map(f).collect()`: keeps the `Some` results, in order. */
  function FilterMap<A, B>(xs: seq<A>, f: A -> Option<B>): (r: seq<B>)
    ensures |r| <= |xs|
    decreases |xs|
  {
    if |xs| == 0 then []
    else (match f(xs[0]) case Some(b) => [b] case None => []) + FilterMap(xs[1..], f)
  }

  /** filter_map distributes over concatenation: extracting from `a ++ b`
      yields the results of `a` followed by those of `b`. */
  lemma {:induction false} FilterMapAppend<A, B>(a: seq<A>, b: seq<A>, f: A -> Option<B>)
    ensures FilterMap(a + b, f) == FilterMap(a, f) + FilterMap(b, f)
    decreases |a|
  {
    if |a| == 0 {
      assert a + b == b;
    } else {
      assert (a + b)[1..] == a[1..] + b;
      FilterMapAppend(a[1..], b, f);
    }
  }

  /** An element is produced exactly when some input maps to it. */
  lemma {:induction false} FilterMapMembership<A, B>(xs: seq<A>, f: A -> Option<B>, y: B)
    ensures y in FilterMap(xs, f) <==> exists i :: 0 <= i < |xs| && f(xs[i]) == Some(y)
    decreases |xs|
  {
    if |xs| > 0 {
      FilterMapMembership(xs[1..], f, y);
      if y in FilterMap(xs[1..], f) {
        var i :| 0 <= i < |xs[1..]| && f(xs[1..][i]) == Some(y);
        assert f(xs[i + 1]) == Some(y);
      }
      if exists i :: 0 <= i < |xs| && f(xs[i]) == Some(y) {
        var i :| 0 <= i < |xs| && f(xs[i]) == Some(y);
        if i > 0 {
          assert f(xs[1..][i - 1]) == Some(y);
        }
      }
    }
  }

  /** The output length counts the inputs that `f` maps to `Some`. */
  function CountSome<A, B>(xs: seq<A>, f: A -> Option<B>): nat
    decreases |xs|
  {
    if |xs| == 0 then 0 else (if f(xs[0]).Some? then 1 else 0) + CountSome(xs[1..], f)
  }

  lemma {:induction false} FilterMapLength<A, B>(xs: seq<A>, f: A -> Option<B>)
    ensures |FilterMap(xs, f)| == CountSome(xs, f)
    decreases |xs|
  {
    if |xs| > 0 {
      FilterMapLength(xs[1..], f);
    }
  }

  /** Concatenation of `f(k)` over the keys `ks`, in the order of `ks`. */
  function FlatMap<K, T>(ks: seq<K>, f: K -> seq<T>): seq<T>
    decreases |ks|
  {
    if |ks| == 0 then [] else f(ks[0]) + FlatMap(ks[1..], f)
  }

  lemma {:induction false} FlatMapAppend<K, T>(a: seq<K>, b: seq<K>, f: K -> seq<T>)
    ensures FlatMap(a + b, f) == FlatMap(a, f) + FlatMap(b, f)
    decreases |a|
  {
    if |a| == 0 {
      assert a + b == b;
    } else {
      assert (a + b)[1..] == a[1..] + b;
      FlatMapAppend(a[1..], b, f);
    }
  }

  /** An element of the concatenation comes from the result of some key. */
  lemma {:induction false} FlatMapMembership<K, T>(ks: seq<K>, f: K -> seq<T>, t: T)
    ensures t in FlatMap(ks, f) <==> exists j :: 0 <= j < |ks| && t in f(ks[j])
    decreases |ks|
  {
    if |ks| > 0 {
      FlatMapMembership(ks[1..], f, t);
      if t in FlatMap(ks[1..], f) {
        var j :| 0 <= j < |ks[1..]| && t in f(ks[1..][j]);
        assert ks[j + 1] == ks[1..][j];
      }
      if exists j :: 0 <= j < |ks| && t in f(ks[j]) {
        var j :| 0 <= j < |ks| && t in f(ks[j]);
        if j > 0 {
          assert ks[1..][j - 1] == ks[j];
        }
      }
    }
  }

  /** Two functions that agree on the keys produce the same concatenation. */
  lemma {:induction false} FlatMapCongruence<K, T>(ks: seq<K>, f: K -> seq<T>, g: K -> seq<T>)
    requires forall j :: 0 <= j < |ks| ==> f(ks[j]) == g(ks[j])
    ensures FlatMap(ks, f) == FlatMap(ks, g)
    decreases |ks|
  {
    if |ks| > 0 {
      assert forall j :: 0 <= j < |ks[1..]| ==> ks[1..][j] == ks[j + 1];
      FlatMapCongruence(ks[1..], f, g);
    }
  }

  /** Two key orders that are permutations of each other produce the same
      multiset of results: the order only rearranges the output. */
  lemma {:induction false} FlatMapPermutation<K, T>(a: seq<K>, b: seq<K>, f: K -> seq<T>)
    requires multiset(a) == multiset(b)
    ensures multiset(FlatMap(a, f)) == multiset(FlatMap(b, f))
    decreases |a|
  {
    if |a| == 0 {
      assert |b| == |multiset(b)| == 0;
    } else {
      var k := a[0];
      assert k in multiset(b);
      var i :| 0 <= i < |b| && b[i] == k;
      var rest := b[..i] + b[i + 1..];
      RemoveMatched(a, b, i);
      FlatMapPermutation(a[1..], rest, f);
      FlatMapSplit(b, i, f);
      assert FlatMap(a, f) == f(k) + FlatMap(a[1..], f);
    }
  }

  /** Taking the same element out of two permutations leaves permutations. */
  lemma RemoveMatched<K>(a: seq<K>, b: seq<K>, i: nat)
    requires |a| > 0 && multiset(a) == multiset(b)
    requires i < |b| && b[i] == a[0]
    ensures multiset(a[1..]) == multiset(b[..i] + b[i + 1..])
  {
    var k := a[0];
    calc {
      multiset(a[1..]);
      { assert a == [k] + a[1..]; }
      multiset(a) - multiset{k};
      multiset(b) - multiset{k};
      { assert b == b[..i] + [k] + b[i + 1..]; }
      multiset(b[..i] + b[i + 1..]);
    }
  }

  /** The results of one key, pulled out of the middle of a key list. */
  lemma FlatMapSplit<K, T>(b: seq<K>, i: nat, f: K -> seq<T>)
    requires i < |b|
    ensures multiset(FlatMap(b, f)) == multiset(f(b[i])) + multiset(FlatMap(b[..i] + b[i + 1..], f))
  {
    var k, front, back := b[i], b[..i], b[i + 1..];
    SplitAt(b, i);
    FlatMapMiddle(front, k, back, f);
    FlatMapAppend(front, back, f);
    MiddleMultiset(FlatMap(front, f), f(k), FlatMap(back, f));
  }

  lemma FlatMapMiddle<K, T>(front: seq<K>, k: K, back: seq<K>, f: K -> seq<T>)
    ensures FlatMap(front + [k] + back, f) == FlatMap(front, f) + f(k) + FlatMap(back, f)
  {
    FlatMapAppend(front + [k], back, f);
    FlatMapAppend(front, [k], f);
    assert FlatMap([k], f) == f(k) + FlatMap([], f);
  }

  lemma SplitAt<T>(s: seq<T>, i: nat)
    requires i < |s|
    ensures s == s[..i] + [s[i]] + s[i + 1..]
  {
  }

  lemma MiddleMultiset<T>(x: seq<T>, m: seq<T>, y: seq<T>)
    ensures multiset(x + m + y) == multiset(m) + multiset(x + y)
  {
  }

  /** `order` lists every key of `keys` exactly once: one possible iteration
      order of a hash map with that key set. */
  predicate IsEnumeration<K>(order: seq<K>, keys: set<K>)
  {
    && (forall i, j :: 0 <= i < j < |order| ==> order[i] != order[j])
    && (forall i :: 0 <= i < |order| ==> order[i] in keys)
    && (forall k :: k in keys ==> k in order)
  }

  lemma {:induction false} DistinctMultiplicity<K>(s: seq<K>, k: K)
    requires forall i, j :: 0 <= i < j < |s| ==> s[i] != s[j]
    ensures multiset(s)[k] == if k in s then 1 else 0
    decreases |s|
  {
    if |s| > 0 {
      assert s == [s[0]] + s[1..];
      DistinctMultiplicity(s[1..], k);
      if k == s[0] {
        assert k !in s[1..];
      }
    }
  }

  /** Any two enumerations of the same key set are permutations of each other. */
  lemma EnumerationsArePermutations<K>(a: seq<K>, b: seq<K>, keys: set<K>)
    requires IsEnumeration(a, keys) && IsEnumeration(b, keys)
    ensures multiset(a) == multiset(b)
  {
    forall k
      ensures multiset(a)[k] == multiset(b)[k]
    {
      DistinctMultiplicity(a, k);
      DistinctMultiplicity(b, k);
    }
  }

  // ---------------------------------------------------------------------------
  // Interleaving of several producers
  // ---------------------------------------------------------------------------

  /** One element of a merged trace, remembering which producer emitted it. */
  datatype Tagged<T> = Tagged(source: nat, item: T)

  /** Number of occurrences of `x` in `s`. */
  function Count<T(==)>(s: seq<T>, x: T): nat
    decreases |s|
  {
    if |s| == 0 then 0 else (if s[0] == x then 1 else 0) + Count(s[1..], x)
  }

  /** `schedule` picks, step by step, which producer emits next; it is valid
      for `parts` when it names each producer exactly as often as that
      producer has elements. */
  predicate ValidSchedule<T>(parts: seq<seq<T>>, schedule: seq<nat>)
  {
    && (forall j :: 0 <= j < |schedule| ==> schedule[j] < |parts|)
    && (forall i :: 0 <= i < |parts| ==> Count(schedule, i) == |parts[i]|)
  }

  /** The elements that producer `i` contributed to `trace`, in trace order. */
  function Project<T>(trace: seq<Tagged<T>>, i: nat): seq<T>
    decreases |trace|
  {
    if |trace| == 0 then []
    else (if trace[0].source == i then [trace[0].item] else []) + Project(trace[1..], i)
  }

  function Items<T>(trace: seq<Tagged<T>>): (r: seq<T>)
    ensures |r| == |trace|
    ensures forall j :: 0 <= j < |trace| ==> r[j] == trace[j].item
  {
    seq(|trace|, j requires 0 <= j < |trace| => trace[j].item)
  }

  /** Runs the producers' sequences against `schedule`: every step takes the
      next element of the scheduled producer. */
  function Merge<T>(parts: seq<seq<T>>, schedule: seq<nat>): (trace: seq<Tagged<T>>)
    requires ValidSchedule(parts, schedule)
    ensures |trace| == |schedule|
    ensures forall i :: 0 <= i < |parts| ==> Project(trace, i) == parts[i]
    ensures forall j :: 0 <= j < |trace| ==> trace[j].source == schedule[j]
    decreases |schedule|
  {
    if |schedule| == 0 then
      assert forall i :: 0 <= i < |parts| ==> parts[i] == [];
      []
    else
      var i0 := schedule[0];
      assert Count(schedule, i0) >= 1;
      var parts' := parts[i0 := parts[i0][1..]];
      assert ValidSchedule(parts', schedule[1..]) by {
        forall i | 0 <= i < |parts'|
          ensures Count(schedule[1..], i) == |parts'[i]|
        {
        }
        forall j | 0 <= j < |schedule[1..]|
          ensures schedule[1..][j] < |parts'|
        {
          assert schedule[1..][j] == schedule[j + 1];
        }
      }
      var rest := Merge(parts', schedule[1..]);
      var trace := [Tagged(i0, parts[i0][0])] + rest;
      assert forall i :: 0 <= i < |parts| ==> Project(trace, i) == parts[i] by {
        forall i | 0 <= i < |parts|
          ensures Project(trace, i) == parts[i]
        {
          assert trace[1..] == rest;
          ProjectCons(trace, i);
          if i == i0 {
            assert parts[i0] == [parts[i0][0]] + parts'[i0];
          }
        }
      }
      trace
  }

  /** Projection peels one element off the front of a trace. */
  lemma ProjectCons<T>(trace: seq<Tagged<T>>, i: nat)
    requires |trace| > 0
    ensures Project(trace, i)
         == (if trace[0].source == i then [trace[0].item] else []) + Project(trace[1..], i)
  {
  }

  /** A merged trace holds exactly the union of the producers' elements. */
  lemma MergeItemsMultiset<T>(parts: seq<seq<T>>, schedule: seq<nat>)
    requires ValidSchedule(parts, schedule)
    ensures multiset(Items(Merge(parts, schedule))) == SumMultisets(parts)
  {
    ProjectionsCoverItems(Merge(parts, schedule), |parts|);
    SumOfProjections(Merge(parts, schedule), parts);
  }

  function SumMultisets<T>(parts: seq<seq<T>>): multiset<T>
    decreases |parts|
  {
    if |parts| == 0 then multiset{} else SumMultisets(parts[..|parts| - 1]) + multiset(parts[|parts| - 1])
  }

  /** Sum, over producers 0..n-1, of the multisets of their projections. */
  function SumProjections<T>(trace: seq<Tagged<T>>, n: nat): multiset<T>
    decreases n
  {
    if n == 0 then multiset{} else SumProjections(trace, n - 1) + multiset(Project(trace, n - 1))
  }

  lemma {:induction false} SumOfProjections<T>(trace: seq<Tagged<T>>, parts: seq<seq<T>>)
    requires forall i :: 0 <= i < |parts| ==> Project(trace, i) == parts[i]
    ensures SumProjections(trace, |parts|) == SumMultisets(parts)
    decreases |parts|
  {
    if |parts| > 0 {
      SumOfProjections(trace, parts[..|parts| - 1]);
    }
  }

  lemma ProjectionsCoverItems<T>(trace: seq<Tagged<T>>, n: nat)
    requires forall j :: 0 <= j < |trace| ==> trace[j].source < n
    ensures multiset(Items(trace)) == SumProjections(trace, n)
  {
    forall x
      ensures multiset(Items(trace))[x] == SumProjections(trace, n)[x]
    {
      ItemsCount(trace, n, x);
      SumProjectionsCount(trace, n, x);
    }
    MultisetExtensionality(multiset(Items(trace)), SumProjections(trace, n));
  }

  lemma MultisetExtensionality<T>(a: multiset<T>, b: multiset<T>)
    requires forall x :: a[x] == b[x]
    ensures a == b
  {
  }

  /** How often `x` occurs in the projections of producers 0..n-1. */
  ghost function ProjectionCount<T>(trace: seq<Tagged<T>>, n: nat, x: T): nat
    decreases n
  {
    if n == 0 then 0 else ProjectionCount(trace, n - 1, x) + multiset(Project(trace, n - 1))[x]
  }

  lemma {:induction false} SumProjectionsCount<T>(trace: seq<Tagged<T>>, n: nat, x: T)
    ensures SumProjections(trace, n)[x] == ProjectionCount(trace, n, x)
    decreases n
  {
    if n > 0 {
      SumProjectionsCount(trace, n - 1, x);
    }
  }

  /** Every item of a trace whose producers are all below `n` is counted
      once among their projections. */
  lemma {:induction false} ItemsCount<T>(trace: seq<Tagged<T>>, n: nat, x: T)
    requires forall j :: 0 <= j < |trace| ==> trace[j].source < n
    ensures multiset(Items(trace))[x] == ProjectionCount(trace, n, x)
    decreases |trace|
  {
    if |trace| == 0 {
      EmptyProjectionCount(trace, n, x);
    } else {
      var rest := trace[1..];
      ItemsCount(rest, n, x);
      assert Items(trace) == [trace[0].item] + Items(rest);
      ProjectConsCount(trace, n, x);
    }
  }

  lemma {:induction false} EmptyProjectionCount<T>(trace: seq<Tagged<T>>, n: nat, x: T)
    requires |trace| == 0
    ensures ProjectionCount(trace, n, x) == 0
    decreases n
  {
    if n > 0 {
      EmptyProjectionCount(trace, n - 1, x);
    }
  }

  /** The head of a trace is counted once if its producer is below `n`, and
      not at all otherwise. */
  lemma {:induction false} ProjectConsCount<T>(trace: seq<Tagged<T>>, n: nat, x: T)
    requires |trace| > 0
    ensures ProjectionCount(trace, n, x)
            == (if trace[0].source < n && trace[0].item == x then 1 else 0) + ProjectionCount(trace[1..], n, x)
    decreases n
  {
    if n > 0 {
      ProjectConsCount(trace, n - 1, x);
      ProjectCons(trace, n - 1);
    }
  }
}
