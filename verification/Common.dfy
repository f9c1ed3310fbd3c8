/** Shared value types and small helpers over reals, sequences and maps.
    Decimal amounts are exact reals; points in time are integer microseconds. */
module Common {

  datatype Option<+T> = None | Some(value: T)

  datatype Side = Buy | Sell

  /** A timestamp in microseconds. */
  type Instant = int

  const MICROSECONDS_PER_SECOND: int := 1_000_000

  function Min(a: real, b: real): real { if b < a then b else a }

  function Max(a: real, b: real): real { if b > a then b else a }

  /** The product `a * b`. Proofs about costs hide its body and use the laws below only,
      which keeps them linear. */
  function Times(a: real, b: real): real { a * b }

  lemma TimesAdds(a: real, b: real, c: real)
    ensures Times(a, b + c) == Times(a, b) + Times(a, c)
    ensures Times(b + c, a) == Times(b, a) + Times(c, a)
  {
  }

  lemma TimesMonotone(a: real, b: real, c: real)
    requires a <= b && 0.0 <= c
    ensures Times(a, c) <= Times(b, c)
  {
  }

  lemma TimesZero(a: real)
    ensures Times(a, 0.0) == Times(0.0, a) == 0.0
  {
  }

  lemma TimesOne(a: real)
    ensures Times(a, 1.0) == Times(1.0, a) == a
  {
  }

  lemma TimesCommutes(a: real, b: real)
    ensures Times(a, b) == Times(b, a)
  {
  }

  lemma TimesAssociates(a: real, b: real, c: real)
    ensures Times(Times(a, b), c) == Times(a, Times(b, c))
  {
  }

  lemma TimesSign(a: real, b: real)
    ensures a > 0.0 && b > 0.0 ==> Times(a, b) > 0.0
    ensures a >= 0.0 && b >= 0.0 ==> Times(a, b) >= 0.0
    ensures Times(a, b) == 0.0 <==> a == 0.0 || b == 0.0
  {
  }

  lemma QuotientTimes(a: real, b: real)
    requires b != 0.0
    ensures Times(a / b, b) == a
  {
  }

  /** `dict.get(key, 0)` on a map of amounts. */
  function GetOrZero(m: map<int, real>, key: int): real {
    if key in m then m[key] else 0.0
  }

  function Sum(xs: seq<real>): real {
    if xs == [] then 0.0 else Sum(xs[..|xs| - 1]) + xs[|xs| - 1]
  }

  lemma {:induction false} SumSplit(a: seq<real>, b: seq<real>)
    ensures Sum(a + b) == Sum(a) + Sum(b)
  {
    if b == [] {
      assert a + b == a;
    } else {
      SumSplit(a, b[..|b| - 1]);
      assert (a + b)[..|a + b| - 1] == a + b[..|b| - 1];
    }
  }

  /** Least element of a non-empty sequence. */
  function Least(xs: seq<real>): (m: real)
    requires xs != []
    ensures m in xs && forall x :: x in xs ==> m <= x
  {
    if |xs| == 1 then xs[0]
    else
      assert forall x :: x in xs ==> x in xs[..|xs| - 1] || x == xs[|xs| - 1];
      Min(Least(xs[..|xs| - 1]), xs[|xs| - 1])
  }

  /** Greatest element of a non-empty sequence. */
  function Greatest(xs: seq<real>): (m: real)
    requires xs != []
    ensures m in xs && forall x :: x in xs ==> x <= m
  {
    if |xs| == 1 then xs[0]
    else
      assert forall x :: x in xs ==> x in xs[..|xs| - 1] || x == xs[|xs| - 1];
      Max(Greatest(xs[..|xs| - 1]), xs[|xs| - 1])
  }

  /** The elements of `s` that satisfy `keep`, in order. */
  function Filter<T>(keep: T -> bool, s: seq<T>): seq<T> {
    if s == [] then []
    else if keep(s[0]) then [s[0]] + Filter(keep, s[1..])
    else Filter(keep, s[1..])
  }

  lemma {:induction false} FilterSplit<T>(keep: T -> bool, a: seq<T>, b: seq<T>)
    ensures Filter(keep, a + b) == Filter(keep, a) + Filter(keep, b)
  {
    if a == [] {
      assert a + b == b;
    } else {
      FilterSplit(keep, a[1..], b);
      assert (a + b)[1..] == a[1..] + b;
      assert [a[0]] + (Filter(keep, a[1..]) + Filter(keep, b)) == [a[0]] + Filter(keep, a[1..]) + Filter(keep, b);
    }
  }

  lemma {:induction false} FilterMembers<T>(keep: T -> bool, s: seq<T>)
    ensures forall x :: x in Filter(keep, s) <==> x in s && keep(x)
  {
    if s != [] {
      FilterMembers(keep, s[1..]);
      assert s == [s[0]] + s[1..];
    }
  }

  function Map<A, B>(f: A -> B, s: seq<A>): seq<B> {
    if s == [] then [] else [f(s[0])] + Map(f, s[1..])
  }

  lemma {:induction false} MapIndex<A, B>(f: A -> B, s: seq<A>)
    ensures |Map(f, s)| == |s| && forall i :: 0 <= i < |s| ==> Map(f, s)[i] == f(s[i])
  {
    if s != [] { MapIndex(f, s[1..]); }
  }

  lemma {:induction false} MapSplit<A, B>(f: A -> B, a: seq<A>, b: seq<A>)
    ensures Map(f, a + b) == Map(f, a) + Map(f, b)
  {
    MapIndex(f, a);
    MapIndex(f, b);
    MapIndex(f, a + b);
  }

  /** Where the head of `s` sits in a permutation of `s`, and what is left without it. */
  lemma HeadInPermutation<T>(s: seq<T>, t: seq<T>) returns (k: nat)
    requires s != [] && multiset(s) == multiset(t)
    ensures k < |t| && t == t[..k] + ([s[0]] + t[k + 1..])
    ensures multiset(s[1..]) == multiset(t[..k] + t[k + 1..])
  {
    assert s[0] in multiset(t);
    k :| 0 <= k < |t| && t[k] == s[0];
    assert t == t[..k] + ([t[k]] + t[k + 1..]);
    assert s == [s[0]] + s[1..];
    assert multiset(t) == multiset(t[..k]) + (multiset{s[0]} + multiset(t[k + 1..]));
    assert multiset(s) == multiset{s[0]} + multiset(s[1..]);
    assert multiset(t[..k] + t[k + 1..]) == multiset(t) - multiset{s[0]};
  }

  /** Mapping two permutations gives two permutations. */
  lemma {:induction false} MapMultiset<A, B>(f: A -> B, s: seq<A>, t: seq<A>)
    requires multiset(s) == multiset(t)
    ensures multiset(Map(f, s)) == multiset(Map(f, t))
  {
    if s == [] {
      assert |multiset(t)| == 0;
    } else {
      var k := HeadInPermutation(s, t);
      var before, after := t[..k], t[k + 1..];
      MapMultiset(f, s[1..], before + after);
      MapSplit(f, before, [s[0]] + after);
      MapSplit(f, before, after);
      assert ([s[0]] + after)[1..] == after;
    }
  }

  lemma {:induction false} FilterMultiset<T>(keep: T -> bool, s: seq<T>, t: seq<T>)
    requires multiset(s) == multiset(t)
    ensures multiset(Filter(keep, s)) == multiset(Filter(keep, t))
  {
    if s == [] {
      assert |multiset(t)| == 0;
    } else {
      var k := HeadInPermutation(s, t);
      var before, after := t[..k], t[k + 1..];
      FilterMultiset(keep, s[1..], before + after);
      FilterSplit(keep, before, [s[0]] + after);
      FilterSplit(keep, before, after);
      assert ([s[0]] + after)[1..] == after;
    }
  }

  predicate IsLeast(s: set<int>, least: int) {
    least in s && forall x :: x in s ==> least <= x
  }

  lemma SomeMember<T>(s: set<T>) returns (x: T)
    requires s != {}
    ensures x in s
  {
    x :| x in s;
  }

  lemma {:induction false} SomeLeast(s: set<int>) returns (least: int)
    requires s != {}
    ensures IsLeast(s, least)
    decreases |s|
  {
    least := SomeMember(s);
    var rest := s - {least};
    assert s == rest + {least};
    if rest != {} {
      var other := SomeLeast(rest);
      if other < least {
        least := other;
      }
    }
  }

  ghost predicate Ascending(xs: seq<int>) {
    forall i, j :: 0 <= i < j < |xs| ==> xs[i] < xs[j]
  }

  /** The elements of a set of ids, smallest first. */
  method InAscendingOrder(ids: set<int>) returns (r: seq<int>)
    ensures Ascending(r) && forall x :: x in r <==> x in ids
  {
    r := [];
    var left := ids;
    while left != {}
      invariant left <= ids && Ascending(r)
      invariant forall x :: x in r <==> x in ids - left
      invariant forall x, y :: x in r && y in left ==> x < y
      decreases left
    {
      ghost var least := SomeLeast(left);
      var next: int :| next in left && IsLeast(left, next);
      assert IsLeast(left, next);
      assert forall x :: x in left ==> next <= x;
      assert forall i :: 0 <= i < |r| ==> r[i] in r && r[i] < next;
      r := r + [next];
      left := left - {next};
    }
  }
}
