/** Strings in order, as versions and names are sorted. */
module Ordering {
  import opened Common

  /** `a` is before `b`. */
  predicate Before(a: string, b: string) {
    b != "" && (a == "" || a[0] < b[0] || (a[0] == b[0] && Before(a[1..], b[1..])))
  }

  lemma {:induction false} BeforeIsTotal(a: string, b: string)
    ensures a == b || Before(a, b) || Before(b, a)
    ensures !(Before(a, b) && Before(b, a)) && (Before(a, b) ==> a != b)
  {
    if a != "" && b != "" {
      BeforeIsTotal(a[1..], b[1..]);
      assert a == [a[0]] + a[1..] && b == [b[0]] + b[1..];
    }
  }

  /** Where they first differ, `a` is over or has the lesser character. */
  ghost predicate DifferAt(a: string, b: string, k: nat) {
    k <= |a| && k < |b| && a[..k] == b[..k] && (k == |a| || a[k] < b[k])
  }

  lemma {:induction false} BeforeExactly(a: string, b: string)
    ensures Before(a, b) <==> exists k: nat :: DifferAt(a, b, k)
  {
    forall k: nat | k > 0 && DifferAt(a, b, k) ensures a[0] == b[0] {
      HeadsAgree(a, b, k);
    }
    if b != "" && (a == "" || a[0] < b[0]) {
      assert DifferAt(a, b, 0);
    } else if b != "" && a[0] == b[0] {
      BeforeExactly(a[1..], b[1..]);
      if k: nat :| DifferAt(a[1..], b[1..], k) {
        assert a[..k + 1] == [a[0]] + a[1..][..k] && b[..k + 1] == [b[0]] + b[1..][..k];
        assert DifferAt(a, b, k + 1);
      }
      if k: nat :| DifferAt(a, b, k) {
        assert k > 0 && a[..k][1..] == a[1..][..k - 1] && b[..k][1..] == b[1..][..k - 1];
        assert DifferAt(a[1..], b[1..], k - 1);
      }
    }
  }

  lemma HeadsAgree(a: string, b: string, k: nat)
    requires DifferAt(a, b, k) && k > 0
    ensures a[0] == b[0]
  {
    assert a[..k][0] == b[..k][0];
  }

  lemma {:induction false} BeforeIsTransitive(a: string, b: string, c: string)
    requires Before(a, b) && Before(b, c)
    ensures Before(a, c)
  {
    if a != "" && a[0] == b[0] == c[0] {
      BeforeIsTransitive(a[1..], b[1..], c[1..]);
    }
  }

  predicate NotAfter(a: string, b: string) {
    a == b || Before(a, b)
  }

  lemma NotAfterIsTransitive(a: string, b: string, c: string)
    requires NotAfter(a, b) && NotAfter(b, c)
    ensures NotAfter(a, c)
  {
    if a != b && b != c {
      BeforeIsTransitive(a, b, c);
    }
  }

  /** Each before the next. */
  predicate Ascending(versions: seq<string>) {
    forall i, j | 0 <= i < j < |versions| :: Before(versions[i], versions[j])
  }

  predicate Descending(versions: seq<string>) {
    forall i, j | 0 <= i < j < |versions| :: Before(versions[j], versions[i])
  }

  lemma FirstIsIn(s: seq<string>)
    ensures s == [] || s[0] in s
  {
  }

  /** Only one order is descending. */
  lemma {:induction false} DescendingIsUnique(a: seq<string>, b: seq<string>)
    requires Descending(a) && Descending(b) && forall v :: v in a <==> v in b
    ensures a == b
  {
    if a == [] {
      FirstIsIn(b);
    } else {
      assert a[0] in b && b != [] && b[0] in a;
      FirstIsGreatest(a, b[0]);
      FirstIsGreatest(b, a[0]);
      BeforeIsTotal(a[0], b[0]);
      RestOfDescending(a);
      RestOfDescending(b);
      DescendingIsUnique(a[1..], b[1..]);
      assert a == [a[0]] + a[1..] && b == [b[0]] + b[1..];
    }
  }

  lemma FirstIsGreatest(s: seq<string>, v: string)
    requires Descending(s) && v in s
    ensures NotAfter(v, s[0])
  {
  }

  lemma RestOfDescending(s: seq<string>)
    requires Descending(s) && s != []
    ensures Descending(s[1..]) && forall v :: v in s[1..] <==> v in s && v != s[0]
  {
    forall v
      ensures v in s[1..] <==> v in s && v != s[0]
    {
      if v in s[1..] {
        var i :| 0 < i < |s| && s[i] == v;
        BeforeIsTotal(v, s[0]);
      }
    }
  }

  /** The greatest of some versions. */
  method Greatest(versions: set<string>) returns (greatest: string)
    requires versions != {}
    ensures greatest in versions && forall v | v in versions :: NotAfter(v, greatest)
  {
    greatest :| greatest in versions;
    var rest := versions - {greatest};
    while rest != {}
      invariant rest <= versions && greatest in versions
      invariant forall v | v in versions && v !in rest :: NotAfter(v, greatest)
      decreases |rest|
    {
      var v :| v in rest;
      BeforeIsTotal(v, greatest);
      if Before(greatest, v) {
        forall u | u in versions && u !in rest
          ensures NotAfter(u, v)
        {
          NotAfterIsTransitive(u, greatest, v);
        }
        greatest := v;
      }
      rest := rest - {v};
    }
  }

  /** `ORDER BY version DESC`. */
  method SortedDescending(versions: set<string>) returns (sorted: seq<string>)
    ensures Descending(sorted) && forall v :: v in sorted <==> v in versions
  {
    sorted := [];
    var rest := versions;
    while rest != {}
      invariant rest <= versions && Descending(sorted)
      invariant forall v :: v in sorted <==> v in versions && v !in rest
      invariant forall u, v | u in rest && v in sorted :: Before(u, v)
      decreases |rest|
    {
      var v := Greatest(rest);
      forall u | u in rest && u != v
        ensures Before(u, v)
      {
        assert NotAfter(u, v);
      }
      sorted := sorted + [v];
      rest := rest - {v};
    }
  }

  method SortedAscending(names: set<string>) returns (sorted: seq<string>)
    ensures Ascending(sorted) && forall v :: v in sorted <==> v in names
  {
    sorted := [];
    var rest := names;
    while rest != {}
      invariant rest <= names && Ascending(sorted)
      invariant forall v :: v in sorted <==> v in names && v !in rest
      invariant forall u, v | u in rest && v in sorted :: Before(u, v)
      decreases |rest|
    {
      var v := Greatest(rest);
      forall u | u in rest && u != v
        ensures Before(u, v)
      {
        assert NotAfter(u, v);
      }
      sorted := [v] + sorted;
      rest := rest - {v};
    }
  }
}
