/** A frequency counter: a map from keys to accumulated integer counts, where
    a key that was never counted has count zero. */
module Counters {

  /** The count of k in m, zero when k is absent. */
  function Lookup<T(!new)>(m: map<T, int>, k: T): (c: int)
    ensures k in m ==> c == m[k]
    ensures k !in m ==> c == 0
  {
    if k in m then m[k] else 0
  }

  /** m after adding n to the count of k. k becomes a stored key even when its
      new count is zero; no other key changes. */
  function Bump<T(!new)>(m: map<T, int>, k: T, n: int): (r: map<T, int>)
    ensures r.Keys == m.Keys + {k}
    ensures Lookup(r, k) == Lookup(m, k) + n
    ensures forall j :: j != k ==> Lookup(r, j) == Lookup(m, j)
  {
    m[k := Lookup(m, k) + n]
  }

  /** Two maps that agree on every count and on the stored keys are equal. */
  lemma Extensionality<T(!new)>(m: map<T, int>, m': map<T, int>)
    requires m.Keys == m'.Keys
    requires forall k :: Lookup(m, k) == Lookup(m', k)
    ensures m == m'
  {
    forall k | k in m
      ensures m[k] == m'[k]
    {
      assert Lookup(m, k) == Lookup(m', k);
    }
  }

  /** Adding a and then b to one key is the same as adding a + b once. */
  lemma BumpTwice<T(!new)>(m: map<T, int>, k: T, a: int, b: int)
    ensures Bump(Bump(m, k, a), k, b) == Bump(m, k, a + b)
  {
    var lhs, rhs := Bump(Bump(m, k, a), k, b), Bump(m, k, a + b);
    forall j
      ensures Lookup(lhs, j) == Lookup(rhs, j)
    {
    }
    Extensionality(lhs, rhs);
  }

  /** The sum of all stored counts. */
  ghost function Sum<T(!new)>(m: map<T, int>): int
    decreases |m|
  {
    if m == map[] then 0
    else
      var k :| k in m;
      m[k] + Sum(m - {k})
  }

  /** The sum does not depend on which key is taken out first. */
  lemma {:induction false} SumRemove<T(!new)>(m: map<T, int>, k: T)
    requires k in m
    ensures Sum(m) == m[k] + Sum(m - {k})
    decreases |m|
  {
    var j :| j in m && Sum(m) == m[j] + Sum(m - {j});
    if j != k {
      SumRemove(m - {j}, k);
      SumRemove(m - {k}, j);
      assert m - {j} - {k} == m - {k} - {j};
    }
  }

  /** Adding n to one key adds n to the sum. */
  lemma SumBump<T(!new)>(m: map<T, int>, k: T, n: int)
    ensures Sum(Bump(m, k, n)) == Sum(m) + n
  {
    var r := Bump(m, k, n);
    SumRemove(r, k);
    if k in m {
      SumRemove(m, k);
      assert r - {k} == m - {k};
    } else {
      assert r - {k} == m;
    }
  }

  /** A map whose counts are all zero sums to zero. */
  lemma {:induction false} SumAllZero<T(!new)>(m: map<T, int>)
    requires forall k :: k in m ==> m[k] == 0
    ensures Sum(m) == 0
    decreases |m|
  {
    if m != map[] {
      var k :| k in m;
      SumRemove(m, k);
      SumAllZero(m - {k});
    }
  }

  /** The counts obtained by counting every element of s once, in order. */
  ghost function Tally<T(!new)>(s: seq<T>): map<T, int>
  {
    if s == [] then map[] else Bump(Tally(s[..|s| - 1]), s[|s| - 1], 1)
  }

  /** A tally records how often each key occurs, stores exactly the keys that
      occur, and sums to the length of the sequence. */
  lemma {:induction false} TallyCounts<T(!new)>(s: seq<T>)
    ensures forall k :: Lookup(Tally(s), k) == multiset(s)[k]
    ensures Tally(s).Keys == set x | x in s
    ensures Sum(Tally(s)) == |s|
  {
    if s != [] {
      var p, x := s[..|s| - 1], s[|s| - 1];
      TallyCounts(p);
      assert s == p + [x];
      SumBump(Tally(p), x, 1);
    }
  }

  /** The tally depends only on how often each key occurs, not on the order. */
  lemma TallyOrderIndependent<T(!new)>(s: seq<T>, t: seq<T>)
    requires multiset(s) == multiset(t)
    ensures Tally(s) == Tally(t)
  {
    TallyCounts(s);
    TallyCounts(t);
    assert forall x :: x in s <==> x in multiset(s);
    assert forall x :: x in t <==> x in multiset(t);
    Extensionality(Tally(s), Tally(t));
  }

  class Counter<T(==, !new)> {
    var counts: map<T, int>

    /** An empty counter. */
    constructor ()
      ensures counts == map[]
      ensures forall k :: Get(k) == 0
    {
      counts := map[];
    }

    /** Adds n to the count of k and returns the new count. */
    method CountN(k: T, n: int) returns (c: int)
      modifies this
      ensures counts == Bump(old(counts), k, n)
      ensures c == old(Get(k)) + n && c == Get(k)
      ensures counts.Keys == old(counts.Keys) + {k}
      ensures forall j :: j != k ==> Get(j) == old(Get(j))
    {
      var entry := Lookup(counts, k);
      entry := entry + n;
      counts := counts[k := entry];
      c := entry;
    }

    /** Counting one occurrence of k. */
    method Count(k: T) returns (c: int)
      modifies this
      ensures counts == Bump(old(counts), k, 1)
      ensures c == old(Get(k)) + 1 && c == Get(k)
    {
      c := CountN(k, 1);
    }

    /** True when no key is stored or every stored count is zero, that is,
        when every key has count zero. */
    function IsEmpty(): (r: bool)
      reads this
      ensures r <==> forall k :: Get(k) == 0
      ensures r ==> Sum(counts) == 0
    {
      var r := |counts| == 0 || forall k | k in counts :: counts[k] == 0;
      if r then SumAllZero(counts); r
      else
        assert exists k :: Get(k) != 0 by {
          var k :| k in counts && counts[k] != 0;
          assert Get(k) != 0;
        }
        r
    }

    /** The count of k, zero when k was never counted. */
    function Get(k: T): (c: int)
      reads this
      ensures k in counts ==> c == counts[k]
      ensures k !in counts ==> c == 0
    {
      Lookup(counts, k)
    }

    /** The sum of all stored counts, folded one entry at a time. */
    method Total() returns (t: int)
      ensures t == Sum(counts)
    {
      t := 0;
      var rest := counts;
      while rest != map[]
        invariant t + Sum(rest) == Sum(counts)
        decreases |rest|
      {
        var k :| k in rest;
        SumRemove(rest, k);
        t := t + rest[k];
        rest := rest - {k};
      }
    }

    /** The stored key/count pairs, as iteration exposes them (in no order).
        Every stored key is exposed, zero counts included; the pairs agree
        with Get, and every key left out has count zero. */
    function Entries(): (m: map<T, int>)
      reads this
      ensures m.Keys == counts.Keys
      ensures forall k :: k in m ==> m[k] == Get(k)
      ensures forall k :: k !in m ==> Get(k) == 0
    {
      counts
    }

    /** A counter built by counting every element of s once. */
    static method FromIter(s: seq<T>) returns (c: Counter<T>)
      ensures fresh(c)
      ensures c.counts == Tally(s)
      ensures forall k :: c.Get(k) == multiset(s)[k]
      ensures c.counts.Keys == set x | x in s
      ensures Sum(c.counts) == |s|
    {
      c := new Counter();
      for i := 0 to |s|
        invariant c.counts == Tally(s[..i])
      {
        assert s[..i + 1][..i] == s[..i];
        var _ := c.Count(s[i]);
      }
      assert s[..|s|] == s;
      TallyCounts(s);
    }
  }

  /** Counting a, b, a, c, b, a. */
  method FromIterScenario()
  {
    var c := Counter.FromIter(["a", "b", "a", "c", "b", "a"]);
    var s := ["a", "b", "a", "c", "b", "a"];
    assert multiset(s)["a"] == 3 && multiset(s)["b"] == 2;
    assert multiset(s)["c"] == 1 && multiset(s)["z"] == 0;
    assert c.Get("a") == 3 && c.Get("b") == 2 && c.Get("c") == 1 && c.Get("z") == 0;
    var t := c.Total();
    assert t == 6;
  }

  /** A count cancelled back to zero leaves the counter empty, but the key
      is still stored with count zero. */
  method NetZeroScenario()
  {
    var c := new Counter<string>();
    assert c.IsEmpty();
    var one := c.Count("x");
    var zero := c.CountN("x", -1);
    assert one == 1 && zero == 0;
    assert c.IsEmpty();
    assert "x" in c.Entries() && c.Entries()["x"] == 0;
  }

  /** Counting 2 and then 3 gives the same count as counting 5. */
  method AssociativityScenario(k: int)
  {
    var c := new Counter<int>();
    var d := new Counter<int>();
    var _ := c.CountN(k, 2);
    var x := c.CountN(k, 3);
    var y := d.CountN(k, 5);
    assert x == y;
    BumpTwice(map[], k, 2, 3);
    assert c.counts == d.counts;
  }
}
