/** The array methods the client components are built from: `filter`,
    `find`, `slice(0, n)` and `some`. */
module Lists {
  import opened Strings

  /** `xs.filter(f)`. */
  function Filter<T(==,!new)>(xs: seq<T>, f: T -> bool): (r: seq<T>)
    ensures |r| <= |xs|
    ensures forall x :: x in r <==> x in xs && f(x)
    ensures (forall i :: 0 <= i < |xs| ==> f(xs[i])) ==> r == xs
  {
    if xs == [] then []
    else if f(xs[0]) then [xs[0]] + Filter(xs[1..], f)
    else Filter(xs[1..], f)
  }

  /** `r` is `xs` with some elements left out, the rest in their order. */
  predicate IsSubsequence<T(==,!new)>(r: seq<T>, xs: seq<T>)
    decreases |xs|
  {
    r == [] || (xs != [] && ((r[0] == xs[0] && IsSubsequence(r[1..], xs[1..])) || IsSubsequence(r, xs[1..])))
  }

  /** Filtering keeps the order of what it keeps. */
  lemma {:induction false} FilterSubsequence<T(!new)>(xs: seq<T>, f: T -> bool)
    ensures IsSubsequence(Filter(xs, f), xs)
  {
    if xs != [] {
      FilterSubsequence(xs[1..], f);
      if f(xs[0]) {
        assert Filter(xs, f)[1..] == Filter(xs[1..], f);
      }
    }
  }

  /** Two filters with opposite conditions split a list: each element lands
      in exactly one of them, as often as it occurs. */
  lemma {:induction false} FilterPartition<T(!new)>(xs: seq<T>, f: T -> bool, g: T -> bool)
    requires forall x :: g(x) == !f(x)
    ensures multiset(Filter(xs, f)) + multiset(Filter(xs, g)) == multiset(xs)
    ensures forall x :: !(x in Filter(xs, f) && x in Filter(xs, g))
  {
    if xs != [] {
      FilterPartition(xs[1..], f, g);
      assert xs == [xs[0]] + xs[1..];
    }
  }

  /** `xs.find(f)`: the first element satisfying `f`, if any. */
  function Find<T(==)>(xs: seq<T>, f: T -> bool): (r: Option<T>)
    ensures r.None? <==> forall i :: 0 <= i < |xs| ==> !f(xs[i])
    ensures r.Some? ==> exists i :: 0 <= i < |xs| && r.value == xs[i] && f(xs[i])
                                    && forall j :: 0 <= j < i ==> !f(xs[j])
  {
    if xs == [] then None
    else if f(xs[0]) then Some(xs[0])
    else
      var r := Find(xs[1..], f);
      if r.None? then r
      else
        var i :| 0 <= i < |xs| - 1 && r.value == xs[1..][i] && f(xs[1..][i])
                 && forall j :: 0 <= j < i ==> !f(xs[1..][j]);
        assert r.value == xs[i + 1] && forall j :: 0 <= j < i + 1 ==> !f(xs[j]);
        r
  }

  /** `xs.slice(0, n)`. */
  function Take<T>(xs: seq<T>, n: nat): (r: seq<T>)
    ensures |r| == if |xs| < n then |xs| else n
    ensures r == xs[..|r|]
  {
    if |xs| <= n then xs else xs[..n]
  }
}
