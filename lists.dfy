/**
 * The array operations the application leans on, `find` and `filter`, as functions on sequences
 * with the facts that pin them down: `find` returns the first match, `filter` keeps exactly the
 * matching elements in their original order.
 */
module Lists {
  import opened Wrappers

  /** `xs.find(p)`: the first element that satisfies `p`, if any. */
  function Find<T>(xs: seq<T>, p: T -> bool): (r: Option<T>)
    ensures r.None? <==> forall i :: 0 <= i < |xs| ==> !p(xs[i])
    ensures r.Some? ==> r.value in xs && p(r.value)
  {
    if xs == [] then None
    else if p(xs[0]) then Some(xs[0])
    else Find(xs[1..], p)
  }

  /** `find` stops at the first element that satisfies the predicate. */
  lemma {:induction false} FindFirst<T>(xs: seq<T>, p: T -> bool, i: nat)
    requires i < |xs| && p(xs[i])
    requires forall j :: 0 <= j < i ==> !p(xs[j])
    ensures Find(xs, p) == Some(xs[i])
  {
    if i > 0 {
      assert !p(xs[0]);
      FindFirst(xs[1..], p, i - 1);
    }
  }

  /** `xs.filter(p)`: the elements that satisfy `p`, in their original order. */
  function Filter<T(!new)>(xs: seq<T>, p: T -> bool): (r: seq<T>)
    ensures |r| <= |xs|
    ensures forall x :: x in r <==> x in xs && p(x)
    ensures multiset(r) <= multiset(xs)
  {
    if xs == [] then []
    else
      var rest := Filter(xs[1..], p);
      assert xs == [xs[0]] + xs[1..];
      if p(xs[0]) then [xs[0]] + rest else rest
  }

  /** Filtering a concatenation filters each part and keeps them in order. */
  lemma {:induction false} FilterAppend<T(!new)>(a: seq<T>, b: seq<T>, p: T -> bool)
    ensures Filter(a + b, p) == Filter(a, p) + Filter(b, p)
  {
    if a != [] {
      assert (a + b)[0] == a[0];
      assert (a + b)[1..] == a[1..] + b;
      FilterAppend(a[1..], b, p);
      if p(a[0]) {
        calc {
          Filter(a + b, p);
          [a[0]] + Filter(a[1..] + b, p);
          [a[0]] + (Filter(a[1..], p) + Filter(b, p));
          ([a[0]] + Filter(a[1..], p)) + Filter(b, p);
        }
      }
    } else {
      assert a + b == b;
    }
  }

  /** One more step of a filtering loop keeps the next element exactly when it satisfies `p`. */
  lemma FilterStep<T(!new)>(xs: seq<T>, i: nat, p: T -> bool)
    requires i < |xs|
    ensures Filter(xs[..i + 1], p) == Filter(xs[..i], p) + (if p(xs[i]) then [xs[i]] else [])
  {
    var a, b := xs[..i], [xs[i]];
    assert xs[..i + 1] == a + b;
    FilterAppend(a, b, p);
    assert b[1..] == [];
    assert Filter(b, p) == (if p(xs[i]) then [xs[i]] else []);
  }

  /** Filtering keeps everything when everything satisfies the predicate. */
  lemma {:induction false} FilterAll<T(!new)>(xs: seq<T>, p: T -> bool)
    requires forall i :: 0 <= i < |xs| ==> p(xs[i])
    ensures Filter(xs, p) == xs
  {
    if xs != [] {
      FilterAll(xs[1..], p);
    }
  }

  /** The number of elements `filter` keeps is the number that satisfy the predicate. */
  function CountWhere<T>(xs: seq<T>, p: T -> bool): (n: nat)
    ensures n <= |xs|
  {
    if xs == [] then 0 else (if p(xs[0]) then 1 else 0) + CountWhere(xs[1..], p)
  }

  lemma {:induction false} FilterCount<T(!new)>(xs: seq<T>, p: T -> bool)
    ensures |Filter(xs, p)| == CountWhere(xs, p)
  {
    if xs != [] {
      FilterCount(xs[1..], p);
    }
  }

  lemma {:induction false} CountAppend<T>(a: seq<T>, b: seq<T>, p: T -> bool)
    ensures CountWhere(a + b, p) == CountWhere(a, p) + CountWhere(b, p)
  {
    if a != [] {
      assert (a + b)[0] == a[0];
      assert (a + b)[1..] == a[1..] + b;
      CountAppend(a[1..], b, p);
    } else {
      assert a + b == b;
    }
  }

  /** `sub` is `xs` with some elements left out and the rest in their original order. */
  predicate IsSubsequence<T(==)>(sub: seq<T>, xs: seq<T>)
    decreases |xs|
  {
    if sub == [] then true
    else if xs == [] then false
    else if sub[0] == xs[0] then IsSubsequence(sub[1..], xs[1..])
    else IsSubsequence(sub, xs[1..])
  }

  lemma {:induction false} FilterSubsequence<T(!new)>(xs: seq<T>, p: T -> bool)
    ensures IsSubsequence(Filter(xs, p), xs)
  {
    if xs != [] {
      FilterSubsequence(xs[1..], p);
      var rest := Filter(xs[1..], p);
      if !p(xs[0]) && rest != [] {
        assert rest[0] in rest;
      }
    }
  }

  predicate NoDuplicates<T(==)>(xs: seq<T>) {
    forall i, j :: 0 <= i < j < |xs| ==> xs[i] != xs[j]
  }

  // ---------------------------------------------------------------- loops that push matches

  /** What one step of a matching loop pushes: the image of `x`, if `f` gives one. */
  function Image<T, U>(x: T, f: T -> Option<U>): (r: seq<U>)
    ensures |r| <= 1
  {
    match f(x)
    case Some(u) => [u]
    case None => []
  }

  /**
   * A loop that pushes `f(x)` for every `x` on which `f` is defined: the images in the order of
   * `xs`, one per element that has one.
   */
  function Collect<T, U>(xs: seq<T>, f: T -> Option<U>): (r: seq<U>)
    ensures |r| <= |xs|
  {
    if xs == [] then [] else Image(xs[0], f) + Collect(xs[1..], f)
  }

  lemma {:induction false} CollectAppend<T, U>(a: seq<T>, b: seq<T>, f: T -> Option<U>)
    ensures Collect(a + b, f) == Collect(a, f) + Collect(b, f)
  {
    if a != [] {
      assert (a + b)[0] == a[0];
      assert (a + b)[1..] == a[1..] + b;
      CollectAppend(a[1..], b, f);
    } else {
      assert a + b == b;
    }
  }

  /** One more step of the loop pushes the image of the next element. */
  lemma CollectStep<T, U>(xs: seq<T>, i: nat, f: T -> Option<U>)
    requires i < |xs|
    ensures Collect(xs[..i + 1], f) == Collect(xs[..i], f) + Image(xs[i], f)
  {
    assert xs[..i + 1] == xs[..i] + [xs[i]];
    CollectAppend(xs[..i], [xs[i]], f);
  }

  /** One more step of a collecting loop: the image of the next element, if any, is pushed. */
  lemma CollectPush<T, U>(xs: seq<T>, i: nat, f: T -> Option<U>, acc: seq<U>)
    requires i < |xs| && acc == Collect(xs[..i], f)
    ensures Collect(xs[..i + 1], f) == if f(xs[i]).Some? then acc + [f(xs[i]).value] else acc
  {
    CollectStep(xs, i, f);
  }

  /** When `f` gives something for every element, exactly those things are collected, in order. */
  lemma {:induction false} CollectEvery<T, U>(xs: seq<T>, ys: seq<U>, f: T -> Option<U>)
    requires |xs| == |ys| && forall i :: 0 <= i < |xs| ==> f(xs[i]) == Some(ys[i])
    ensures Collect(xs, f) == ys
  {
    if xs != [] {
      CollectEvery(xs[1..], ys[1..], f);
      assert Image(xs[0], f) == [ys[0]];
      assert [ys[0]] + ys[1..] == ys;
    }
  }

  /** When nothing is collected before position `i` and something is at `i`, that comes first. */
  lemma CollectFirst<T, U>(xs: seq<T>, i: nat, f: T -> Option<U>)
    requires i < |xs| && Collect(xs[..i], f) == [] && f(xs[i]).Some?
    ensures Collect(xs, f) != [] && Collect(xs, f)[0] == f(xs[i]).value
  {
    var pre, post := xs[..i + 1], xs[i + 1..];
    assert xs == pre + post;
    CollectAppend(pre, post, f);
    CollectStep(xs, i, f);
    assert Collect(pre, f) == [f(xs[i]).value];
    assert Collect(xs, f) == [f(xs[i]).value] + Collect(post, f);
  }

  /** Exactly the images of the elements are collected. */
  lemma {:induction false} CollectMembers<T, U>(xs: seq<T>, f: T -> Option<U>, u: U)
    ensures u in Collect(xs, f) <==> exists i :: 0 <= i < |xs| && f(xs[i]) == Some(u)
  {
    if xs != [] {
      CollectMembers(xs[1..], f, u);
      if u in Collect(xs[1..], f) {
        var i :| 0 <= i < |xs| - 1 && f(xs[1..][i]) == Some(u);
        assert f(xs[i + 1]) == Some(u);
      }
      if exists i :: 0 <= i < |xs| && f(xs[i]) == Some(u) {
        var i :| 0 <= i < |xs| && f(xs[i]) == Some(u);
        if i > 0 {
          assert f(xs[1..][i - 1]) == Some(u);
        }
      }
    }
  }

  /** `p` as a pushing step: the element itself when it satisfies `p`. */
  function Keep<T>(p: T -> bool): T -> Option<T> {
    (x: T) => if p(x) then Some(x) else None
  }

  /** Filtering is pushing every element that satisfies the predicate. */
  lemma {:induction false} FilterIsCollect<T(!new)>(xs: seq<T>, p: T -> bool)
    ensures Filter(xs, p) == Collect(xs, Keep(p))
  {
    if xs != [] {
      FilterIsCollect(xs[1..], p);
    }
  }

  /** When `f` maps every element to itself, everything is pushed unchanged. */
  lemma {:induction false} CollectIdentity<T>(xs: seq<T>, f: T -> Option<T>)
    requires forall i :: 0 <= i < |xs| ==> f(xs[i]) == Some(xs[i])
    ensures Collect(xs, f) == xs
  {
    if xs != [] {
      assert f(xs[0]) == Some(xs[0]);
      CollectIdentity(xs[1..], f);
      assert xs == [xs[0]] + xs[1..];
    }
  }

  /** What holds of every image holds of everything pushed. */
  lemma {:induction false} CollectAll<T, U>(xs: seq<T>, f: T -> Option<U>, p: U -> bool)
    requires forall i :: 0 <= i < |xs| && f(xs[i]).Some? ==> p(f(xs[i]).value)
    ensures forall j :: 0 <= j < |Collect(xs, f)| ==> p(Collect(xs, f)[j])
  {
    if xs != [] {
      CollectAll(xs[1..], f, p);
      var r := Collect(xs, f);
      assert r == Image(xs[0], f) + Collect(xs[1..], f);
      forall j | 0 <= j < |r|
        ensures p(r[j])
      {
        if j >= |Image(xs[0], f)| {
          assert r[j] == Collect(xs[1..], f)[j - |Image(xs[0], f)|];
        }
      }
    }
  }

  /**
   * When `f` has an image exactly where `p` fails, the elements counted and the images pushed
   * add up to the whole sequence.
   */
  lemma {:induction false} CountAndCollect<T, U>(xs: seq<T>, p: T -> bool, f: T -> Option<U>)
    requires forall i :: 0 <= i < |xs| ==> (f(xs[i]).Some? <==> !p(xs[i]))
    ensures CountWhere(xs, p) + |Collect(xs, f)| == |xs|
  {
    if xs != [] {
      assert f(xs[0]).Some? <==> !p(xs[0]);
      CountAndCollect(xs[1..], p, f);
    }
  }

  /** The count is positive exactly when some element satisfies `p`. */
  lemma {:induction false} CountPositive<T>(xs: seq<T>, p: T -> bool)
    ensures CountWhere(xs, p) > 0 <==> exists i :: 0 <= i < |xs| && p(xs[i])
  {
    if xs != [] {
      CountPositive(xs[1..], p);
      if exists i :: 0 <= i < |xs| - 1 && p(xs[1..][i]) {
        var i :| 0 <= i < |xs| - 1 && p(xs[1..][i]);
        assert p(xs[i + 1]);
      }
      if exists i :: 0 <= i < |xs| && p(xs[i]) {
        var i :| 0 <= i < |xs| && p(xs[i]);
        if i > 0 {
          assert p(xs[1..][i - 1]);
        }
      }
    }
  }

  /** A repeated element is pushed only the first time: each element kept at its first occurrence. */
  function Dedupe<T(==,!new)>(xs: seq<T>): (r: seq<T>)
    ensures forall x :: x in r <==> x in xs
    ensures NoDuplicates(r)
  {
    if xs == [] then []
    else
      var kept := Dedupe(xs[..|xs| - 1]);
      var x := xs[|xs| - 1];
      assert xs == xs[..|xs| - 1] + [x];
      if x in kept then kept else kept + [x]
  }

  /** Nothing is dropped from a list without repetitions. */
  lemma {:induction false} DedupeDistinct<T(!new)>(xs: seq<T>)
    requires NoDuplicates(xs)
    ensures Dedupe(xs) == xs
  {
    if xs != [] {
      var init := xs[..|xs| - 1];
      DedupeDistinct(init);
      assert xs[|xs| - 1] !in init;
      assert init + [xs[|xs| - 1]] == xs;
    }
  }

  lemma {:induction false} SubsequenceAppend<T>(sub: seq<T>, xs: seq<T>, x: T)
    requires IsSubsequence(sub, xs)
    ensures IsSubsequence(sub, xs + [x]) && IsSubsequence(sub + [x], xs + [x])
    decreases |xs|
  {
    if xs == [] {
      assert sub == [];
      assert IsSubsequence([x], [x]) by { assert [x][1..] == []; }
    } else {
      assert (xs + [x])[0] == xs[0] && (xs + [x])[1..] == xs[1..] + [x];
      if sub != [] && sub[0] == xs[0] {
        SubsequenceAppend(sub[1..], xs[1..], x);
        assert (sub + [x])[0] == sub[0] && (sub + [x])[1..] == sub[1..] + [x];
      } else if sub == [] {
        SubsequenceAppend(sub, xs[1..], x);
        assert sub + [x] == [x];
        if xs[0] != x {
          assert IsSubsequence([x], xs[1..] + [x]);
        }
      } else {
        SubsequenceAppend(sub, xs[1..], x);
        assert (sub + [x])[0] == sub[0];
      }
    }
  }

  /** The kept elements are in their original order. */
  lemma {:induction false} DedupeSubsequence<T(!new)>(xs: seq<T>)
    ensures IsSubsequence(Dedupe(xs), xs)
  {
    if xs != [] {
      var init := xs[..|xs| - 1];
      DedupeSubsequence(init);
      SubsequenceAppend(Dedupe(init), init, xs[|xs| - 1]);
      assert init + [xs[|xs| - 1]] == xs;
    }
  }

  // ---------------------------------------------------------------- stable partition

  function Not<T>(p: T -> bool): T -> bool {
    (x: T) => !p(x)
  }

  /**
   * A stable sort by a two-valued key: the elements that satisfy `p` first, then the others,
   * each group in its original order.
   */
  function Partitioned<T(!new)>(xs: seq<T>, p: T -> bool): (r: seq<T>)
    ensures multiset(r) == multiset(xs)
    ensures forall i, j :: 0 <= i < j < |r| && p(r[j]) ==> p(r[i])
  {
    PartitionCount(xs, p);
    Filter(xs, p) + Filter(xs, Not(p))
  }

  lemma {:induction false} PartitionCount<T(!new)>(xs: seq<T>, p: T -> bool)
    ensures multiset(Filter(xs, p)) + multiset(Filter(xs, Not(p))) == multiset(xs)
  {
    if xs != [] {
      var t := xs[1..];
      PartitionCount(t, p);
      assert xs == [xs[0]] + t;
      assert multiset(xs) == multiset([xs[0]]) + multiset(t);
      if p(xs[0]) {
        assert Filter(xs, p) == [xs[0]] + Filter(t, p);
        assert Filter(xs, Not(p)) == Filter(t, Not(p));
      } else {
        assert Filter(xs, p) == Filter(t, p);
        assert Filter(xs, Not(p)) == [xs[0]] + Filter(t, Not(p));
      }
    }
  }
}
