/** The order in which listed resources are handed to a function (the sort in Fetch,
    required_resources.go).  sort.Slice is only known to leave a sorted rearrangement. */
module ListOrder {
  import opened Requirements
  import opened Strings

  /** Strings are compared character by character, a prefix first. */
  predicate Before(a: string, b: string) {
    b != [] && (a == [] || a[0] < b[0] || (a[0] == b[0] && Before(a[1..], b[1..])))
  }

  /** a and b agree up to k, where a ends or has the smaller character. */
  predicate LessAt(a: string, b: string, k: nat) {
    k <= |a| && k < |b| && (forall j :: 0 <= j < k ==> a[j] == b[j]) && (k == |a| || a[k] < b[k])
  }

  /** a comes before b: it is a proper prefix, or has the smaller character where they first differ. */
  lemma {:induction false} BeforeIsLexicographic(a: string, b: string)
    ensures Before(a, b) <==> exists k: nat :: LessAt(a, b, k)
  {
    if b != [] && (a == [] || a[0] < b[0]) {
      assert LessAt(a, b, 0);
    } else if b != [] && a[0] == b[0] {
      BeforeIsLexicographic(a[1..], b[1..]);
      if k: nat :| LessAt(a[1..], b[1..], k) {
        TailLess(a, b, k);
      }
      if k: nat :| LessAt(a, b, k) {
        TailLess(a, b, k - 1);
      }
    }
  }

  lemma TailLess(a: string, b: string, k: nat)
    requires a != [] && b != [] && a[0] == b[0]
    ensures LessAt(a[1..], b[1..], k) <==> LessAt(a, b, k + 1)
  {
    if LessAt(a[1..], b[1..], k) {
      forall j | 0 <= j < k + 1 ensures a[j] == b[j] {
        if j > 0 { assert a[1..][j - 1] == b[1..][j - 1]; }
      }
    }
    if LessAt(a, b, k + 1) {
      forall j | 0 <= j < k ensures a[1..][j] == b[1..][j] {
        assert a[j + 1] == b[j + 1];
      }
    }
  }

  function Key(r: Resource): string {
    r.namespace + "/" + r.name
  }

  lemma {:induction false} BeforeIsTotal(a: string, b: string)
    ensures Before(a, b) || a == b || Before(b, a)
    ensures !(Before(a, b) && Before(b, a)) && !Before(a, a)
  {
    if a != [] && b != [] {
      BeforeIsTotal(a[1..], b[1..]);
      BeforeIsTotal(a[1..], a[1..]);
      assert a == [a[0]] + a[1..] && b == [b[0]] + b[1..];
    } else if a != [] {
      BeforeIsTotal(a[1..], a[1..]);
    }
  }

  lemma {:induction false} BeforeIsTransitive(a: string, b: string, c: string)
    requires Before(a, b) && Before(b, c)
    ensures Before(a, c)
  {
    if a != [] && a[0] == b[0] == c[0] {
      BeforeIsTransitive(a[1..], b[1..], c[1..]);
    }
  }

  /** What sort.Slice leaves: no item stands behind one with a greater key. */
  ghost predicate Sorted(s: seq<Resource>) {
    forall i, j :: 0 <= i < j < |s| ==> !Before(Key(s[j]), Key(s[i]))
  }

  ghost predicate Arranges(s: seq<Resource>, items: seq<Resource>) {
    Sorted(s) && multiset(s) == multiset(items)
  }

  /** Different items have different keys. */
  ghost predicate KeysTellApart(items: seq<Resource>) {
    forall x, y :: x in items && y in items && Key(x) == Key(y) ==> x == y
  }

  lemma FirstIsLeast(a: seq<Resource>, b: seq<Resource>)
    requires a != [] && b != [] && Sorted(a) && Sorted(b) && multiset(a) == multiset(b) && KeysTellApart(a)
    ensures a[0] == b[0]
  {
    assert a[0] in multiset(b) && b[0] in multiset(a);
    var i :| 0 <= i < |b| && b[i] == a[0];
    var j :| 0 <= j < |a| && a[j] == b[0];
    BeforeIsTotal(Key(a[0]), Key(b[0]));
    assert i > 0 ==> !Before(Key(b[i]), Key(b[0]));
    assert j > 0 ==> !Before(Key(a[j]), Key(a[0]));
  }

  lemma {:induction false} ArrangementUnique(a: seq<Resource>, b: seq<Resource>)
    requires Sorted(a) && Sorted(b) && multiset(a) == multiset(b) && KeysTellApart(a)
    ensures a == b
  {
    if a == [] {
      assert |multiset(b)| == 0;
    } else {
      assert |multiset(a)| == |multiset(b)|;
      FirstIsLeast(a, b);
      assert a == [a[0]] + a[1..] && b == [b[0]] + b[1..];
      assert multiset(a[1..]) == multiset(a) - multiset{a[0]};
      assert multiset(b[1..]) == multiset(b) - multiset{b[0]};
      ArrangementUnique(a[1..], b[1..]);
    }
  }

  /** Two items with one key can change places: the order then depends on the listing. */
  lemma SwapStaysSorted(s: seq<Resource>, i: nat, j: nat)
    requires Sorted(s) && i < j < |s| && Key(s[i]) == Key(s[j])
    ensures Arranges(s[i := s[j]][j := s[i]], s)
  {
    var t := s[i := s[j]][j := s[i]];
    forall k | 0 <= k < |s| ensures Key(t[k]) == Key(s[k]) { }
    assert multiset(t) == multiset(s) by {
      assert multiset(s[i := s[j]]) == multiset(s) - multiset{s[i]} + multiset{s[j]};
    }
  }

  lemma TwoWithOneKey(s: seq<Resource>) returns (i: nat, j: nat)
    requires !KeysTellApart(s)
    ensures i < j < |s| && Key(s[i]) == Key(s[j]) && s[i] != s[j]
  {
    var x, y :| x in s && y in s && Key(x) == Key(y) && x != y;
    i :| 0 <= i < |s| && s[i] == x;
    j :| 0 <= j < |s| && s[j] == y;
    if j < i {
      i, j := j, i;
    }
  }

  /** The listing is independent of the order the items arrive in exactly when different
      items have different keys. */
  lemma ListingDeterminedIff(s: seq<Resource>)
    requires Sorted(s)
    ensures KeysTellApart(s) <==> forall t :: Arranges(t, s) ==> t == s
  {
    if KeysTellApart(s) {
      forall t | Arranges(t, s) ensures t == s {
        ArrangementUnique(s, t);
      }
    } else {
      var lo, hi := TwoWithOneKey(s);
      SwapStaysSorted(s, lo, hi);
      assert s[lo := s[hi]][hi := s[lo]][lo] != s[lo];
    }
  }

  // ----- Names without a slash -----

  ghost predicate ProperNames(r: Resource) {
    '/' !in r.namespace && '/' !in r.name
  }

  /** Without a slash in either part the joined key determines both. */
  lemma JoinedDetermines(a: string, x: string, b: string, y: string)
    requires '/' !in a && '/' !in b && a + "/" + x == b + "/" + y
    ensures a == b && x == y
  {
    SplitAtFirst('/', a, x, b, y);
  }

  /** Resources with proper names, each namespace and name listed once, always come out in
      the same order. */
  lemma ProperListingIsDetermined(items: seq<Resource>, a: seq<Resource>, b: seq<Resource>)
    requires forall r :: r in items ==> ProperNames(r)
    requires forall x, y :: x in items && y in items && x.namespace == y.namespace && x.name == y.name ==> x == y
    requires Arranges(a, items) && Arranges(b, items)
    ensures a == b
  {
    forall x, y | x in a && y in a && Key(x) == Key(y) ensures x == y {
      assert x in multiset(items) && y in multiset(items);
      assert x in items && y in items;
      assert ProperNames(x) && ProperNames(y);
      JoinedDetermines(x.namespace, x.name, y.namespace, y.name);
    }
    ArrangementUnique(a, b);
  }

  /** With a slash in a name two resources can share a key. */
  lemma SlashConfuses(a: Resource, b: Resource)
    requires a == Resource("x", "y/z", "first") && b == Resource("x/y", "z", "second")
    ensures Key(a) == Key(b) && !KeysTellApart([a, b])
  {
    assert Key(a) == "x/y/z" && Key(b) == "x/y/z";
    assert [a, b][0] == a && [a, b][1] == b;
  }
}
