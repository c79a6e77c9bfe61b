/** Python's `list(set(xs))`: a duplicate-free list of the distinct values of `xs`,
    in an order the language leaves unspecified. */
module Sets {
  import opened Strings

  predicate NoDuplicates<T(==)>(s: seq<T>)
  {
    forall i, j :: 0 <= i < j < |s| ==> s[i] != s[j]
  }

  function Elements<T>(s: seq<T>): set<T>
  {
    set x | x in s
  }

  /** A duplicate-free list has as many distinct values as entries. */
  lemma {:induction false} DistinctCount<T>(s: seq<T>)
    requires NoDuplicates(s)
    ensures |Elements(s)| == |s|
  {
    if |s| > 0 {
      var init := s[..|s| - 1];
      assert NoDuplicates(init);
      DistinctCount(init);
      assert s == init + [s[|s| - 1]];
      assert Elements(s) == Elements(init) + {s[|s| - 1]};
      assert s[|s| - 1] !in Elements(init);
    }
  }

  /** The list built from a set: every member exactly once, in an unspecified order. */
  method ListOfSet<T>(xs: set<T>) returns (r: seq<T>)
    ensures NoDuplicates(r)
    ensures Elements(r) == xs
    ensures |r| == |xs|
  {
    r := [];
    var rest := xs;
    while rest != {}
      invariant NoDuplicates(r)
      invariant Elements(r) !! rest
      invariant Elements(r) + rest == xs
      invariant |r| + |rest| == |xs|
      decreases |rest|
    {
      var x :| x in rest;
      assert Elements(r + [x]) == Elements(r) + {x};
      r := r + [x];
      rest := rest - {x};
    }
  }

  /** `list(set(xs))[:n]` as a relation: a duplicate-free list of distinct values of
      `xs`, as many as there are of them up to `n`. */
  predicate IsDistinctPrefix<T(==)>(r: seq<T>, xs: seq<T>, n: nat)
  {
    && NoDuplicates(r)
    && Elements(r) <= Elements(xs)
    && |r| == Min(n, |Elements(xs)|)
  }

  /** Deduplicate and cut to `n`, as `list(set(xs))[:n]` does. */
  method DistinctPrefix<T(==)>(xs: seq<T>, n: nat) returns (r: seq<T>)
    ensures IsDistinctPrefix(r, xs, n)
  {
    var all := ListOfSet(Elements(xs));
    r := Take(all, n);
    forall i, j | 0 <= i < j < |r| ensures r[i] != r[j] {
      assert r[i] == all[i] && r[j] == all[j];
    }
  }

  /** When there are at most `n` distinct values, cutting to `n` loses none of them. */
  lemma DistinctPrefixKeepsAll<T>(r: seq<T>, xs: seq<T>, n: nat)
    requires IsDistinctPrefix(r, xs, n)
    requires |Elements(xs)| <= n
    ensures Elements(r) == Elements(xs)
    ensures forall x :: x in xs ==> x in r
  {
    DistinctCount(r);
    var missing := Elements(xs) - Elements(r);
    assert Elements(xs) == Elements(r) + missing;
    assert |Elements(xs)| == |Elements(r)| + |missing|;
    assert missing == {};
    forall x | x in xs ensures x in r {
      assert x in Elements(xs);
    }
  }

  /** The result is empty exactly when the input is. */
  lemma DistinctPrefixEmpty<T>(r: seq<T>, xs: seq<T>, n: nat)
    requires IsDistinctPrefix(r, xs, n)
    requires n > 0
    ensures r == [] <==> xs == []
  {
    if xs != [] {
      assert xs[0] in Elements(xs);
    }
  }
}
