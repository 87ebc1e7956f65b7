/** The id-list operations the controllers use on the arrays of a user record. */
module Lists {

  /** `s` with every occurrence of `x` dropped and the rest kept in order:
      the effect of `s.filter(id => id != x)`. */
  function Without<T(==,!new)>(s: seq<T>, x: T): (r: seq<T>)
    ensures forall y :: y in r <==> y in s && y != x
    ensures x !in s ==> r == s
    ensures |r| <= |s|
  {
    if s == [] then []
    else if s[0] == x then Without(s[1..], x)
    else [s[0]] + Without(s[1..], x)
  }

  /** `r` is obtained from `s` by deleting some elements, keeping the order of the rest. */
  predicate IsSubsequence<T(==)>(r: seq<T>, s: seq<T>)
    decreases |s|
  {
    if r == [] then true
    else if s == [] then false
    else if r[0] == s[0] then IsSubsequence(r[1..], s[1..])
    else IsSubsequence(r, s[1..])
  }

  /** A subsequence never holds an element more often than the sequence it comes from. */
  lemma {:induction false} SubsequenceCounts<T(!new)>(r: seq<T>, s: seq<T>)
    requires IsSubsequence(r, s)
    ensures multiset(r) <= multiset(s)
    decreases |s|
  {
    if r == [] {
    } else if r[0] == s[0] {
      SubsequenceCounts(r[1..], s[1..]);
      assert r == [r[0]] + r[1..];
      assert s == [s[0]] + s[1..];
    } else {
      SubsequenceCounts(r, s[1..]);
      assert s == [s[0]] + s[1..];
    }
  }

  /** Removing an id keeps every other id in its original relative order. */
  lemma {:induction false} WithoutIsSubsequence<T(!new)>(s: seq<T>, x: T)
    ensures IsSubsequence(Without(s, x), s)
  {
    if s != [] {
      WithoutIsSubsequence(s[1..], x);
      if s[0] != x {
        assert ([s[0]] + Without(s[1..], x))[1..] == Without(s[1..], x);
      }
    }
  }

  /** Removing an id drops all its occurrences and keeps every other id as often as before. */
  lemma {:induction false} WithoutCounts<T(!new)>(s: seq<T>, x: T)
    ensures multiset(Without(s, x)) == multiset(s)[x := 0]
  {
    if s != [] {
      WithoutCounts(s[1..], x);
      assert s == [s[0]] + s[1..];
      assert multiset(s) == multiset{s[0]} + multiset(s[1..]);
      if s[0] != x {
        assert multiset(Without(s, x)) == multiset{s[0]} + multiset(Without(s[1..], x));
      }
    }
  }

  /** The two properties above determine the result: any order-preserving selection
      from `s` that holds exactly the elements other than `x` is `Without(s, x)`. */
  lemma {:induction false} WithoutUnique<T(!new)>(s: seq<T>, x: T, r: seq<T>)
    requires IsSubsequence(r, s)
    requires multiset(r) == multiset(s)[x := 0]
    ensures r == Without(s, x)
    decreases |s|, 1
  {
    if s == [] {
      assert multiset(r) == multiset{};
    } else if s[0] == x {
      WithoutUniqueDropped(s, x, r);
    } else {
      WithoutUniqueKept(s, x, r);
    }
  }

  /** `WithoutUnique` when the first element is the one removed. */
  lemma {:induction false} WithoutUniqueDropped<T(!new)>(s: seq<T>, x: T, r: seq<T>)
    requires s != [] && s[0] == x
    requires IsSubsequence(r, s)
    requires multiset(r) == multiset(s)[x := 0]
    ensures r == Without(s, x)
    decreases |s|, 0
  {
    var t := s[1..];
    assert multiset(s)[x := 0] == multiset(t)[x := 0] by {
      assert s == [x] + t;
    }
    assert r != [] ==> r[0] != x by {
      if r != [] {
        assert r[0] in multiset(r);
      }
    }
    WithoutUnique(t, x, r);
  }

  /** `WithoutUnique` when the first element is kept. */
  lemma {:induction false} WithoutUniqueKept<T(!new)>(s: seq<T>, x: T, r: seq<T>)
    requires s != [] && s[0] != x
    requires IsSubsequence(r, s)
    requires multiset(r) == multiset(s)[x := 0]
    ensures r == Without(s, x)
    decreases |s|, 0
  {
    var a, t := s[0], s[1..];
    assert multiset(s)[x := 0] == multiset{a} + multiset(t)[x := 0] by {
      assert s == [a] + t;
    }
    assert a in multiset(r);
    if r[0] == a {
      assert r == [a] + r[1..];
      assert multiset(r) == multiset{a} + multiset(r[1..]);
      assert multiset(r[1..]) == multiset(r) - multiset{a};
      WithoutUnique(t, x, r[1..]);
    } else {
      SubsequenceCounts(r, t);
      assert false;
    }
  }
}
