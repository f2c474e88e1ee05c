/** Byte order on strings, and lists of keys in that order. */
module Ordering {

  predicate Before(s: string, t: string) {
    t != [] && (s == [] || s[0] < t[0] || (s[0] == t[0] && Before(s[1..], t[1..])))
  }

  lemma {:induction false} BeforeTransitive(s: string, t: string, u: string)
    requires Before(s, t) && Before(t, u)
    ensures Before(s, u)
  {
    if s != [] && s[0] == t[0] == u[0] {
      BeforeTransitive(s[1..], t[1..], u[1..]);
    }
  }

  lemma {:induction false} BeforeTrichotomy(s: string, t: string)
    ensures s == t || Before(s, t) || Before(t, s)
    ensures !(Before(s, t) && Before(t, s)) && !(s == t && Before(s, t))
    decreases |s|
  {
    if s != [] && t != [] && s[0] == t[0] {
      BeforeTrichotomy(s[1..], t[1..]);
      assert s == [s[0]] + s[1..] && t == [t[0]] + t[1..];
    } else if s == t {
      assert !Before(s, t);
    }
  }

  /** Byte order: where two strings first differ, the smaller byte comes first, and a proper prefix before the
      longer string. */
  lemma {:induction false} BeforeIff(s: string, t: string)
    ensures Before(s, t) <==> exists k :: 0 <= k <= |s| && DiffersAt(s, t, k)
  {
    if s == [] {
      assert t != [] ==> DiffersAt(s, t, 0);
    } else if t == [] {
      assert !Before(s, t);
    } else if s[0] != t[0] {
      assert s[0] < t[0] ==> DiffersAt(s, t, 0);
      forall k | 0 <= k <= |s| && DiffersAt(s, t, k) ensures k == 0 {
        SameUpTo(s, t, k);
      }
    } else {
      BeforeIff(s[1..], t[1..]);
      if Before(s, t) {
        var k :| 0 <= k <= |s[1..]| && DiffersAt(s[1..], t[1..], k);
        assert s[..k + 1] == [s[0]] + s[1..][..k] && t[..k + 1] == [t[0]] + t[1..][..k];
        assert DiffersAt(s, t, k + 1);
      }
      forall k | 0 <= k <= |s| && DiffersAt(s, t, k) ensures Before(s, t) {
        DiffersLater(s, t, k);
      }
    }
  }

  predicate DiffersAt(s: string, t: string, k: nat) {
    k <= |s| && k < |t| && s[..k] == t[..k] && (k == |s| || s[k] < t[k])
  }

  lemma SameUpTo(s: string, t: string, k: nat)
    requires DiffersAt(s, t, k)
    ensures forall j :: 0 <= j < k ==> s[j] == t[j]
  {
    forall j | 0 <= j < k ensures s[j] == t[j] {
      assert s[..k][j] == t[..k][j];
    }
  }

  lemma DiffersLater(s: string, t: string, k: nat)
    requires s != [] && t != [] && s[0] == t[0] && DiffersAt(s, t, k)
    ensures k > 0 && DiffersAt(s[1..], t[1..], k - 1)
  {
    assert s[1..][..k - 1] == s[..k][1..] && t[1..][..k - 1] == t[..k][1..];
  }

  predicate Ascending(keys: seq<string>) {
    forall i, j :: 0 <= i < j < |keys| ==> Before(keys[i], keys[j])
  }

  function Elements(keys: seq<string>): set<string> {
    set k | k in keys
  }

  /** The keys of a map, in ascending order, each once. */
  method SortKeys(keys: set<string>) returns (sorted: seq<string>)
    ensures Ascending(sorted) && Elements(sorted) == keys
  {
    sorted := [];
    var todo := keys;
    while todo != {}
      invariant todo <= keys && Ascending(sorted) && Elements(sorted) == keys - todo
      decreases |todo|
    {
      var k :| k in todo;
      sorted := Insert(sorted, k);
      todo := todo - {k};
    }
  }

  method Insert(sorted: seq<string>, k: string) returns (r: seq<string>)
    requires Ascending(sorted) && k !in sorted
    ensures Ascending(r) && Elements(r) == Elements(sorted) + {k}
  {
    var i := 0;
    while i < |sorted| && Before(sorted[i], k)
      invariant 0 <= i <= |sorted| && forall j :: 0 <= j < i ==> Before(sorted[j], k)
    {
      i := i + 1;
    }
    forall j | i <= j < |sorted| ensures Before(k, sorted[j]) {
      BeforeTrichotomy(sorted[i], k);
      if i < j {
        BeforeTransitive(k, sorted[i], sorted[j]);
      }
    }
    r := sorted[..i] + [k] + sorted[i..];
    assert forall x :: x in r <==> x in sorted || x == k by {
      assert sorted == sorted[..i] + sorted[i..];
    }
  }

  /** A set has only one ascending listing. */
  lemma {:induction false} AscendingUnique(xs: seq<string>, ys: seq<string>)
    requires Ascending(xs) && Ascending(ys) && Elements(xs) == Elements(ys)
    ensures xs == ys
    decreases |xs|
  {
    NoElements(xs);
    NoElements(ys);
    if xs != [] {
      SameFirst(xs, ys);
      RestElements(xs);
      RestElements(ys);
      AscendingUnique(xs[1..], ys[1..]);
      assert xs == [xs[0]] + xs[1..] && ys == [ys[0]] + ys[1..];
    }
  }

  lemma NoElements(xs: seq<string>)
    ensures Elements(xs) == {} <==> xs == []
  {
    if xs != [] {
      assert xs[0] in Elements(xs);
    }
  }

  lemma SameFirst(xs: seq<string>, ys: seq<string>)
    requires Ascending(xs) && Ascending(ys) && Elements(xs) == Elements(ys) && xs != [] && ys != []
    ensures xs[0] == ys[0]
  {
    assert ys[0] in Elements(xs) && xs[0] in Elements(ys);
    BeforeTrichotomy(xs[0], ys[0]);
  }

  lemma RestElements(xs: seq<string>)
    requires Ascending(xs) && xs != []
    ensures Elements(xs[1..]) == Elements(xs) - {xs[0]}
  {
    forall i | 0 < i < |xs| ensures xs[i] != xs[0] {
      BeforeTrichotomy(xs[0], xs[i]);
    }
    forall x | x in Elements(xs) - {xs[0]} ensures x in xs[1..] {
      var i :| 0 <= i < |xs| && xs[i] == x;
      assert xs[1..][i - 1] == x;
    }
  }
}
