/** The list the analyzer keeps is the twenty smallest of all distinct diagnostics it was given. */
module SmallestLaws {
  import opened Syntax
  import opened Analyzer

  ghost predicate Ordered(ds: seq<Diagnostic>) {
    forall i, j | 0 <= i < j < |ds| :: Before(ds[i], ds[j])
  }

  /** `ds` lists the smallest members of `all`, in order and at most as many as the limit. */
  ghost predicate Smallest(ds: seq<Diagnostic>, all: set<Diagnostic>) {
    && Ordered(ds)
    && |ds| == (if |all| < MAX_SEMANTIC_DIAGNOSTICS then |all| else MAX_SEMANTIC_DIAGNOSTICS)
    && (forall i | 0 <= i < |ds| :: ds[i] in all)
    && (forall d | d in all && d !in ds :: forall i | 0 <= i < |ds| :: Before(ds[i], d))
  }

  lemma BeforeIsTotal(a: Diagnostic, b: Diagnostic)
    ensures a == b || Before(a, b) || Before(b, a)
  {}

  lemma {:induction false} PushSortedInserts(ds: seq<Diagnostic>, d: Diagnostic) returns (p: nat)
    requires Ordered(ds) && d !in ds
    ensures p <= |ds| && PushSorted(ds, d) == ds[..p] + [d] + ds[p..]
    ensures forall i | 0 <= i < p :: Before(ds[i], d)
    ensures forall i | p <= i < |ds| :: Before(d, ds[i])
  {
    if ds == [] || !Before(d, ds[|ds| - 1]) {
      p := |ds|;
      if ds != [] {
        BeforeIsTotal(d, ds[|ds| - 1]);
      }
    } else {
      var front := ds[..|ds| - 1];
      p := PushSortedInserts(front, d);
      assert front[p..] + [ds[|ds| - 1]] == ds[p..];
      assert ds[..p] + [d] + front[p..] + [ds[|ds| - 1]] == ds[..p] + [d] + ds[p..];
    }
  }

  lemma InsertKeepsOrder(ds: seq<Diagnostic>, d: Diagnostic, p: nat)
    requires Ordered(ds) && p <= |ds|
    requires forall i | 0 <= i < p :: Before(ds[i], d)
    requires forall i | p <= i < |ds| :: Before(d, ds[i])
    ensures Ordered(ds[..p] + [d] + ds[p..])
  {
    var r := ds[..p] + [d] + ds[p..];
    forall i, j | 0 <= i < j < |r| ensures Before(r[i], r[j]) {
      assert r[i] == if i < p then ds[i] else if i == p then d else ds[i - 1];
      assert r[j] == if j < p then ds[j] else if j == p then d else ds[j - 1];
    }
  }

  lemma InsertAdds(ds: seq<Diagnostic>, d: Diagnostic, p: nat)
    requires p <= |ds|
    ensures forall x :: x in ds[..p] + [d] + ds[p..] <==> x == d || x in ds
  {
    var r := ds[..p] + [d] + ds[p..];
    assert r[p] == d;
    assert ds == ds[..p] + ds[p..];
  }

  lemma PushKeepsOrder(ds: seq<Diagnostic>, d: Diagnostic)
    requires Ordered(ds) && d !in ds
    ensures Ordered(PushSorted(ds, d))
    ensures forall x :: x in PushSorted(ds, d) <==> x == d || x in ds
  {
    var p := PushSortedInserts(ds, d);
    InsertKeepsOrder(ds, d, p);
    InsertAdds(ds, d, p);
  }

  lemma PushKeepsSmallest(ds: seq<Diagnostic>, all: set<Diagnostic>, d: Diagnostic)
    requires Smallest(ds, all) && d !in all && |ds| < MAX_SEMANTIC_DIAGNOSTICS
    ensures Smallest(PushSorted(ds, d), all + {d})
  {
    var pushed := PushSorted(ds, d);
    PushKeepsOrder(ds, d);
    SmallListIsAll(ds, all);
    assert |all + {d}| == |all| + 1;
    forall i | 0 <= i < |pushed| ensures pushed[i] in all + {d} {
      assert pushed[i] in pushed;
    }
  }

  lemma PushPopOutside(ds: seq<Diagnostic>, all: set<Diagnostic>, d: Diagnostic, x: Diagnostic)
    requires Smallest(ds, all) && d !in all && |ds| == MAX_SEMANTIC_DIAGNOSTICS
    requires x in all + {d} && x !in PushSorted(ds, d)[..|ds|]
    ensures forall i | 0 <= i < |ds| :: Before(PushSorted(ds, d)[i], x)
  {
    var pushed := PushSorted(ds, d);
    PushKeepsOrder(ds, d);
    var last := pushed[|ds|];
    if x != last {
      assert x !in pushed by {
        forall i | 0 <= i < |pushed| ensures pushed[i] != x {
          if i < |ds| { assert pushed[..|ds|][i] == pushed[i]; }
        }
      }
      assert last in pushed;
      forall i | 0 <= i < |ds| ensures Before(pushed[i], x) {
        assert pushed[i] in pushed && Before(pushed[i], last);
        SmallerThanOutside(ds, all, d, last, x);
      }
    }
  }

  lemma PopKeepsSmallest(ds: seq<Diagnostic>, all: set<Diagnostic>, d: Diagnostic)
    requires Smallest(ds, all) && d !in all && |ds| == MAX_SEMANTIC_DIAGNOSTICS
    ensures Smallest(PushSorted(ds, d)[..|ds|], all + {d})
  {
    var pushed := PushSorted(ds, d);
    var kept := pushed[..|ds|];
    PushKeepsOrder(ds, d);
    assert |all + {d}| == |all| + 1;
    forall i | 0 <= i < |kept| ensures kept[i] in all + {d} {
      assert pushed[i] in pushed;
    }
    forall x | x in all + {d} && x !in kept ensures forall i | 0 <= i < |kept| :: Before(kept[i], x) {
      PushPopOutside(ds, all, d, x);
    }
  }

  /** Pushing, sorting and popping keeps the smallest of everything reported so far. */
  lemma PushPopKeepsSmallest(ds: seq<Diagnostic>, all: set<Diagnostic>, d: Diagnostic)
    requires Smallest(ds, all) && d !in all
    ensures var pushed := PushSorted(ds, d);
      Smallest(if |pushed| > MAX_SEMANTIC_DIAGNOSTICS then pushed[..|pushed| - 1] else pushed, all + {d})
  {
    if |ds| < MAX_SEMANTIC_DIAGNOSTICS {
      PushKeepsSmallest(ds, all, d);
    } else {
      PopKeepsSmallest(ds, all, d);
    }
  }

  /** An element of the pushed list is before, or not after, everything left outside. */
  lemma SmallerThanOutside(ds: seq<Diagnostic>, all: set<Diagnostic>, d: Diagnostic, last: Diagnostic, x: Diagnostic)
    requires Smallest(ds, all) && ds != [] && x in all && x !in ds
    requires last == d || last in ds
    requires last == d ==> forall i | 0 <= i < |ds| :: Before(ds[i], d)
    requires Before(ds[|ds| - 1], x)
    ensures forall y | Before(y, last) && (y in ds || y == d) :: Before(y, x)
  {
    forall y | Before(y, last) && (y in ds || y == d) ensures Before(y, x) {
      if y in ds {
        var i :| 0 <= i < |ds| && ds[i] == y;
      } else {
        assert last in ds;
        var i :| 0 <= i < |ds| && ds[i] == last;
        assert Before(ds[i], x);
      }
    }
  }

  lemma SmallListIsAll(ds: seq<Diagnostic>, all: set<Diagnostic>)
    requires Smallest(ds, all) && |ds| < MAX_SEMANTIC_DIAGNOSTICS
    ensures forall x :: x in all ==> x in ds
  {
    var listed := set d | d in ds;
    DistinctSize(ds);
    assert listed <= all && |listed| == |all|;
    if listed != all {
      var x :| x in all && x !in listed;
      SubsetSmaller(listed, all - {x});
    }
  }

  lemma SubsetSmaller(a: set<Diagnostic>, b: set<Diagnostic>)
    requires a <= b
    ensures |a| <= |b|
  {
    assert b == a + (b - a);
  }

  lemma {:induction false} DistinctSize(ds: seq<Diagnostic>)
    requires Ordered(ds)
    ensures |set d | d in ds| == |ds|
  {
    if ds != [] {
      var front, last := ds[..|ds| - 1], ds[|ds| - 1];
      DistinctSize(front);
      assert (set d | d in ds) == (set d | d in front) + {last};
      assert last !in front;
    }
  }

  /** Only one list is the smallest ones of a set. */
  lemma {:induction false} SmallestIsUnique(a: seq<Diagnostic>, b: seq<Diagnostic>, all: set<Diagnostic>)
    requires Smallest(a, all) && Smallest(b, all)
    ensures a == b
  {
    forall i | 0 <= i < |a| ensures a[i] == b[i] {
      SameAt(a, b, all, i);
    }
  }

  lemma {:induction false} SameAt(a: seq<Diagnostic>, b: seq<Diagnostic>, all: set<Diagnostic>, i: nat)
    requires Smallest(a, all) && Smallest(b, all) && i < |a|
    ensures a[i] == b[i]
  {
    forall j | 0 <= j < i ensures a[j] == b[j] {
      SameAt(a, b, all, j);
    }
    BeforeIsTotal(a[i], b[i]);
    if Before(a[i], b[i]) {
      NotInBoth(a, b, all, i);
    } else if Before(b[i], a[i]) {
      NotInBoth(b, a, all, i);
    }
  }

  lemma NotInBoth(a: seq<Diagnostic>, b: seq<Diagnostic>, all: set<Diagnostic>, i: nat)
    requires Smallest(a, all) && Smallest(b, all) && i < |a|
    requires forall j | 0 <= j < i :: a[j] == b[j]
    ensures !Before(a[i], b[i])
  {
    if a[i] in b {
      forall k | 0 <= k < i ensures a[k] != a[i] { assert Before(a[k], a[i]); }
      var j :| 0 <= j < |b| && b[j] == a[i];
    }
  }
}
