/** Sequence helpers shared by the element tree and the listener registry. */
module Lists {

  /** `s` with every occurrence of `x` taken out, the rest in their original order. */
  function Without<T(==)>(s: seq<T>, x: T): (r: seq<T>)
    ensures x !in r
    ensures multiset(r) == multiset(s)[x := 0]
    ensures x !in s ==> r == s
  {
    if s == [] then []
    else
      assert s == [s[0]] + s[1..];
      if s[0] == x then Without(s[1..], x)
    else [s[0]] + Without(s[1..], x)
  }

  /** Taking a value out of a sequence with a known head. */
  lemma WithoutCons<T>(h: T, t: seq<T>, x: T)
    ensures Without([h] + t, x) == (if h == x then [] else [h]) + Without(t, x)
  {
    assert ([h] + t)[1..] == t;
  }

  /** No value occurs twice. */
  predicate Distinct<T(==)>(s: seq<T>) {
    forall i, j | 0 <= i < j < |s| :: s[i] != s[j]
  }

  /** The tail of a distinct sequence is distinct and does not hold its head. */
  lemma DistinctTail<T>(s: seq<T>)
    requires Distinct(s) && s != []
    ensures Distinct(s[1..]) && s[0] !in s[1..]
  {
    var t := s[1..];
    forall i, j | 0 <= i < j < |t|
      ensures t[i] != t[j]
    {
      assert t[i] == s[i + 1] && t[j] == s[j + 1];
    }
    forall k | 0 <= k < |t|
      ensures t[k] != s[0]
    {
      assert t[k] == s[k + 1];
    }
  }

  /** A value not in a distinct sequence can be put in front of it. */
  lemma DistinctCons<T>(h: T, t: seq<T>)
    requires Distinct(t) && h !in t
    ensures Distinct([h] + t)
  {
    var r := [h] + t;
    forall i, j | 0 <= i < j < |r|
      ensures r[i] != r[j]
    {
      assert r[j] == t[j - 1];
    }
  }

  /** A value not in a distinct sequence can be put after it. */
  lemma DistinctSnoc<T>(s: seq<T>, x: T)
    requires Distinct(s) && x !in s
    ensures Distinct(s + [x])
  {
    var r := s + [x];
    forall i, j | 0 <= i < j < |r|
      ensures r[i] != r[j]
    {
      assert r[i] == s[i];
    }
  }

  /** Taking a value out keeps the other values distinct. */
  lemma {:induction false} WithoutDistinct<T>(s: seq<T>, x: T)
    requires Distinct(s)
    ensures Distinct(Without(s, x))
  {
    if s != [] {
      var t := s[1..];
      DistinctTail(s);
      WithoutDistinct(t, x);
      assert s == [s[0]] + t;
      WithoutCons(s[0], t, x);
      if s[0] != x {
        var rest := Without(t, x);
        assert multiset(rest) == multiset(t)[x := 0];
        assert multiset(rest)[s[0]] == multiset(t)[s[0]] == 0;
        assert s[0] !in rest;
        DistinctCons(s[0], rest);
      }
    }
  }
}
