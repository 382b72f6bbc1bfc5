/** Finite sets listed in a strict total order: what `ORDER BY ... LIMIT n` and a library sort return. */
module Orders {

  ghost predicate TotalOrder<T(!new)>(less: (T, T) -> bool) {
    && (forall x :: !less(x, x))
    && (forall x, y :: x == y || less(x, y) || less(y, x))
    && (forall x, y, z :: less(x, y) && less(y, z) ==> less(x, z))
  }

  predicate IsLeast<T(==)>(m: T, s: set<T>, less: (T, T) -> bool) {
    m in s && forall y <- s :: y == m || less(m, y)
  }

  lemma {:induction false} LeastExists<T(!new)>(s: set<T>, less: (T, T) -> bool)
    requires s != {} && TotalOrder(less)
    ensures exists m :: IsLeast(m, s, less)
  {
    var x :| x in s;
    if s == {x} {
      assert IsLeast(x, s, less);
    } else {
      LeastExists(s - {x}, less);
      var m :| IsLeast(m, s - {x}, less);
      var least := if less(x, m) then x else m;
      assert forall y <- s :: y == x || y in s - {x};
      assert IsLeast(least, s, less);
    }
  }

  function Least<T(==, !new)>(s: set<T>, less: (T, T) -> bool): (m: T)
    requires s != {} && TotalOrder(less)
    ensures IsLeast(m, s, less)
  {
    LeastExists(s, less);
    var m :| m in s && IsLeast(m, s, less);
    m
  }

  /** The elements of `s`, each once, smallest first. */
  function Ascending<T(==, !new)>(s: set<T>, less: (T, T) -> bool): (r: seq<T>)
    requires TotalOrder(less)
    ensures |r| == |s|
    ensures forall x :: x in r <==> x in s
  {
    if s == {} then [] else
      var m := Least(s, less);
      [m] + Ascending(s - {m}, less)
  }

  /** `ORDER BY ... LIMIT n`. */
  function Take<T(==, !new)>(n: nat, s: set<T>, less: (T, T) -> bool): (r: seq<T>)
    requires TotalOrder(less)
    ensures |r| <= n && forall x <- r :: x in s
  {
    Cut(n, Ascending(s, less))
  }

  /** The first `n` rows of a result, or all of it when it is shorter. */
  function Cut<T>(n: nat, q: seq<T>): (r: seq<T>) {
    if n < |q| then q[..n] else q
  }

  function Elements<T>(q: seq<T>): (s: set<T>) {
    set x | x in q
  }

  ghost predicate Increasing<T>(q: seq<T>, less: (T, T) -> bool) {
    forall i, j :: 0 <= i < j < |q| ==> less(q[i], q[j])
  }

  lemma {:induction false} AscendingIncreases<T(!new)>(s: set<T>, less: (T, T) -> bool)
    requires TotalOrder(less)
    ensures Increasing(Ascending(s, less), less)
  {
    if s == {} {
    } else {
      AscendingIncreases(s - {Least(s, less)}, less);
    }
  }

  /** An increasing sequence is the ascending listing of its own elements: sorting is unique. */
  lemma {:induction false} IncreasingIsAscending<T(!new)>(q: seq<T>, less: (T, T) -> bool)
    requires TotalOrder(less) && Increasing(q, less)
    ensures Ascending(Elements(q), less) == q
  {
    if q == [] {
    } else {
      var m := q[0];
      assert IsLeast(m, Elements(q), less);
      assert Least(Elements(q), less) == m;
      assert Elements(q) - {m} == Elements(q[1..]) by {
        forall i | 1 <= i < |q| ensures q[i] != m {}
      }
      IncreasingIsAscending(q[1..], less);
    }
  }

  /** Dropping a listed prefix leaves the listing of what the prefix did not hold. */
  lemma {:induction false} AscendingDrop<T(!new)>(s: set<T>, n: nat, less: (T, T) -> bool)
    requires TotalOrder(less) && n <= |s|
    ensures Ascending(s, less)[n..] == Ascending(s - Elements(Ascending(s, less)[..n]), less)
  {
    var r := Ascending(s, less);
    AscendingIncreases(s, less);
    IncreasingIsAscending(r[n..], less);
    ElementsAfter(r, n, less);
    assert Elements(r) == s;
  }

  /** Nothing listed before a point is listed again after it. */
  lemma ElementsAfter<T>(r: seq<T>, n: nat, less: (T, T) -> bool)
    requires Increasing(r, less) && n <= |r| && forall x <- r :: !less(x, x)
    ensures Elements(r) - Elements(r[..n]) == Elements(r[n..])
  {
    assert r == r[..n] + r[n..];
    forall x | x in r[n..] ensures x !in r[..n] {
      var j :| n <= j < |r| && r[j] == x;
      forall i | 0 <= i < n ensures r[i] != x {
        assert less(r[i], r[j]);
      }
    }
  }

  /** One more `LIMIT` page after `n` rows: the next slice of the listing. */
  lemma TakeAfter<T(!new)>(s: set<T>, n: nat, need: nat, less: (T, T) -> bool)
    requires TotalOrder(less) && n <= |s|
    ensures var r := Ascending(s, less);
            Take(need, s - Elements(r[..n]), less) == Cut(need, r[n..])
  {
    AscendingDrop(s, n, less);
  }

  /** The first row under a limit, and what the rest of the limit then finds. */
  lemma TakeStep<T(!new)>(n: nat, s: set<T>, less: (T, T) -> bool)
    requires TotalOrder(less) && n > 0 && s != {}
    ensures Take(n, s, less) == [Least(s, less)] + Take(n - 1, s - {Least(s, less)}, less)
  {
    var m := Least(s, less);
    assert Ascending(s, less) == [m] + Ascending(s - {m}, less);
  }

  lemma LeastUnique<T(!new)>(m: T, s: set<T>, less: (T, T) -> bool)
    requires TotalOrder(less) && IsLeast(m, s, less)
    ensures Least(s, less) == m
  {}

  ghost function Group<T, K>(s: set<T>, group: T -> K, k: K): set<T> {
    set x | x in s && group(x) == k
  }

  lemma TakeShorter<T(!new)>(n: nat, s: set<T>, less: (T, T) -> bool)
    requires TotalOrder(less) && n > 0
    ensures Elements(Take(n - 1, s, less)) <= Elements(Take(n, s, less))
  {}

  /** The best of all is the best of its group. */
  lemma BestOfGroup<T(!new), K>(s: set<T>, group: T -> K, less: (T, T) -> bool)
    requires TotalOrder(less) && s != {}
    ensures var m := Least(s, less); var g := Group(s, group, group(m)); m in g && Least(g, less) == m
  {
    var m := Least(s, less);
    LeastUnique(m, Group(s, group, group(m)), less);
  }

  lemma BestIsListed<T(!new), K>(n: nat, s: set<T>, group: T -> K, less: (T, T) -> bool)
    requires TotalOrder(less) && n > 0 && s != {}
    ensures var m := Least(s, less); m in Elements(Take(n, Group(s, group, group(m)), less))
  {
    BestOfGroup(s, group, less);
    TakeStep(n, Group(s, group, group(Least(s, less))), less);
  }

  /** Taking the best away, each group still lists, one place less, only what it listed before. */
  lemma WithoutBest<T(!new), K>(n: nat, s: set<T>, group: T -> K, k: K, less: (T, T) -> bool)
    requires TotalOrder(less) && n > 0 && s != {}
    ensures var m := Least(s, less);
      Elements(Take(n - 1, Group(s - {m}, group, k), less)) <= Elements(Take(n, Group(s, group, k), less)) - {m}
  {
    var m := Least(s, less);
    if k == group(m) {
      BestOfGroup(s, group, less);
      TakeStep(n, Group(s, group, k), less);
      assert Group(s - {m}, group, k) == Group(s, group, k) - {m};
      TakenAreMembers(n - 1, Group(s - {m}, group, k), less);
    } else {
      assert Group(s - {m}, group, k) == Group(s, group, k);
      TakeShorter(n, Group(s, group, k), less);
      TakenAreMembers(n - 1, Group(s, group, k), less);
    }
  }

  lemma TakenAreMembers<T(!new)>(n: nat, s: set<T>, less: (T, T) -> bool)
    requires TotalOrder(less)
    ensures Elements(Take(n, s, less)) <= s
  {
    AscendingIncreases(s, less);
  }

  /** The K-way merge: split `s` into groups, take the best `n` of every group, and put at
      least those together; the best `n` of the union are the best `n` of all of `s`. */
  lemma {:induction false} MergeOfGroups<T(!new), K(!new)>(
    n: nat, s: set<T>, union: set<T>, group: T -> K, less: (T, T) -> bool)
    requires TotalOrder(less)
    requires union <= s
    requires forall k :: Elements(Take(n, Group(s, group, k), less)) <= union
    ensures Take(n, union, less) == Take(n, s, less)
  {
    if n > 0 && s != {} {
      var m := Least(s, less);
      BestIsListed(n, s, group, less);
      LeastUnique(m, union, less);
      TakeStep(n, s, less);
      TakeStep(n, union, less);
      forall k ensures Elements(Take(n - 1, Group(s - {m}, group, k), less)) <= union - {m} {
        assert Elements(Take(n, Group(s, group, k), less)) <= union;
        WithoutBest(n, s, group, k, less);
      }
      MergeOfGroups(n - 1, s - {m}, union - {m}, group, less);
    }
  }

  lemma {:induction false} SubsetSize<T>(a: set<T>, b: set<T>)
    requires a <= b
    ensures |a| <= |b|
  {
    if a == {} {
    } else {
      var x :| x in a;
      SubsetSize(a - {x}, b - {x});
    }
  }

  lemma FrontAndLast<T>(q: seq<T>)
    requires q != []
    ensures q == q[..|q| - 1] + [q[|q| - 1]]
  {}
}
