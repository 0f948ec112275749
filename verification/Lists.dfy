/** Sequence functions that loops over slices are proved against. */
module Lists {
  function Map<A, B>(f: A -> B, s: seq<A>): (r: seq<B>)
    ensures |r| == |s| && forall i | 0 <= i < |s| :: r[i] == f(s[i])
  {
    seq(|s|, (i: nat) requires i < |s| => f(s[i]))
  }

  function Filter<A>(p: A -> bool, s: seq<A>): (r: seq<A>)
    ensures forall i | 0 <= i < |r| :: p(r[i])
    decreases |s|
  {
    if s == [] then []
    else
      var init, last := Filter(p, s[..|s| - 1]), s[|s| - 1];
      if p(last) then init + [last] else init
  }

  /** First occurrences, in order. */
  function Distinct<A(==,!new)>(s: seq<A>): (r: seq<A>)
    ensures forall x :: x in r <==> x in s
    ensures forall i, j | 0 <= i < j < |r| :: r[i] != r[j]
    decreases |s|
  {
    if s == [] then []
    else
      var init, last := Distinct(s[..|s| - 1]), s[|s| - 1];
      assert s == s[..|s| - 1] + [last];
      if last in init then init else init + [last]
  }

  lemma Grow<A>(s: seq<A>, i: nat)
    requires i < |s|
    ensures s[..i + 1] == s[..i] + [s[i]] && s[..i + 1][..i] == s[..i]
  {
  }

  lemma MapSnoc<A, B>(f: A -> B, s: seq<A>)
    requires s != []
    ensures Map(f, s) == Map(f, s[..|s| - 1]) + [f(s[|s| - 1])]
    ensures Map(f, s)[..|s| - 1] == Map(f, s[..|s| - 1])
  {
  }

  lemma MapConcat<A, B>(f: A -> B, s: seq<A>, t: seq<A>)
    ensures Map(f, s + t) == Map(f, s) + Map(f, t)
  {
  }

  /** A test that f does not disturb selects the same elements before and after f. */
  lemma {:induction false} FilterMap<A>(p: A -> bool, f: A -> A, s: seq<A>)
    requires forall x: A | x in s :: p(f(x)) == p(x)
    ensures Filter(p, Map(f, s)) == Map(f, Filter(p, s))
    decreases |s|
  {
    if s != [] {
      var init, last := s[..|s| - 1], s[|s| - 1];
      MapSnoc(f, s);
      FilterMap(p, f, init);
      assert last in s;
      MapConcat(f, Filter(p, init), [last]);
      assert Map(f, [last]) == [f(last)];
    }
  }

  lemma {:induction false} FilterSelects<A>(p: A -> bool, s: seq<A>)
    ensures forall x :: x in Filter(p, s) <==> x in s && p(x)
    decreases |s|
  {
    if s != [] {
      FilterSelects(p, s[..|s| - 1]);
      assert s == s[..|s| - 1] + [s[|s| - 1]];
    }
  }

  /** Two tests that agree on the list select the same elements. */
  lemma {:induction false} FilterAlike<A>(p: A -> bool, q: A -> bool, s: seq<A>)
    requires forall x | x in s :: p(x) == q(x)
    ensures Filter(p, s) == Filter(q, s)
    decreases |s|
  {
    if s != [] {
      assert s[|s| - 1] in s;
      FilterAlike(p, q, s[..|s| - 1]);
    }
  }

  /** Selecting twice is selecting once by both tests. */
  lemma {:induction false} FilterFilter<A>(p: A -> bool, q: A -> bool, both: A -> bool, s: seq<A>)
    requires forall x | x in s :: both(x) == (p(x) && q(x))
    ensures Filter(q, Filter(p, s)) == Filter(both, s)
    decreases |s|
  {
    if s != [] {
      var init, last := s[..|s| - 1], s[|s| - 1];
      assert last in s;
      FilterFilter(p, q, both, init);
      var picked := Filter(p, s);
      assert p(last) ==> picked[..|picked| - 1] == Filter(p, init);
    }
  }

  lemma {:induction false} FilterAll<A>(p: A -> bool, s: seq<A>)
    requires forall x | x in s :: p(x)
    ensures Filter(p, s) == s
    decreases |s|
  {
    if s != [] {
      assert s[|s| - 1] in s;
      FilterAll(p, s[..|s| - 1]);
      assert s == s[..|s| - 1] + [s[|s| - 1]];
    }
  }

  /** The places of the elements that pass the test. */
  ghost function Places<A>(p: A -> bool, s: seq<A>): set<int> {
    set i | 0 <= i < |s| && p(s[i])
  }

  lemma {:induction false} FilterCounts<A>(p: A -> bool, s: seq<A>)
    ensures |Filter(p, s)| == |Places(p, s)|
    decreases |s|
  {
    if s != [] {
      var n := |s| - 1;
      FilterCounts(p, s[..n]);
      assert Places(p, s) == Places(p, s[..n]) + if p(s[n]) then {n} else {};
    }
  }

  /** `x` comes up in the list before `y` ever does. */
  ghost predicate Sooner<A>(s: seq<A>, x: A, y: A) {
    exists a :: 0 <= a < |s| && s[a] == x && y !in s[..a + 1]
  }

  lemma SoonerInLonger<A>(s: seq<A>, t: seq<A>, x: A, y: A)
    ensures Sooner(s, x, y) ==> Sooner(s + t, x, y)
    ensures Sooner(t, x, y) && y !in s ==> Sooner(s + t, x, y)
  {
    if a :| 0 <= a < |s| && s[a] == x && y !in s[..a + 1] {
      assert (s + t)[..a + 1] == s[..a + 1] && (s + t)[a] == x;
    }
    if a :| 0 <= a < |t| && t[a] == x && y !in t[..a + 1] && y !in s {
      assert (s + t)[..|s| + a + 1] == s + t[..a + 1] && (s + t)[|s| + a] == x;
    }
  }

  lemma {:induction false} SoonerOfFilter<A>(p: A -> bool, s: seq<A>, x: A, y: A)
    requires Sooner(Filter(p, s), x, y) && p(y)
    ensures Sooner(s, x, y)
    decreases |s|
  {
    var init, last, picked := s[..|s| - 1], s[|s| - 1], Filter(p, s);
    var a :| 0 <= a < |picked| && picked[a] == x && y !in picked[..a + 1];
    assert s == init + [last];
    if a < |Filter(p, init)| {
      assert picked[..a + 1] == Filter(p, init)[..a + 1];
      SoonerOfFilter(p, init, x, y);
      SoonerInLonger(init, [last], x, y);
    } else {
      FilterSelects(p, s);
      assert picked[..a + 1] == picked && y !in picked && s[|s| - 1] == x && y !in s[..|s|];
    }
  }

  lemma {:induction false} SoonerOfDistinct<A(!new)>(s: seq<A>, x: A, y: A)
    requires Sooner(Distinct(s), x, y)
    ensures Sooner(s, x, y)
    decreases |s|
  {
    var init, last, once := s[..|s| - 1], s[|s| - 1], Distinct(s);
    var a :| 0 <= a < |once| && once[a] == x && y !in once[..a + 1];
    assert s == init + [last];
    if a < |Distinct(init)| {
      assert once[..a + 1] == Distinct(init)[..a + 1];
      SoonerOfDistinct(init, x, y);
      SoonerInLonger(init, [last], x, y);
    } else {
      assert once[..a + 1] == once && y !in once && s[|s| - 1] == x && y !in s[..|s|];
    }
  }

  lemma MapMap<A, B, C>(g: B -> C, f: A -> B, h: A -> C, s: seq<A>)
    requires forall x: A | x in s :: g(f(x)) == h(x)
    ensures Map(g, Map(f, s)) == Map(h, s)
  {
    forall i | 0 <= i < |s| ensures Map(g, Map(f, s))[i] == Map(h, s)[i] {
      assert s[i] in s;
    }
  }
}
