/** Options and the byte-wise name order of Go's slices.Sort. */
module Prelude {

  datatype Option<+T> = None | Some(value: T)

  type Name = string

  function Min(a: int, b: int): int {
    if a < b then a else b
  }

  function ToSet<T>(s: seq<T>): set<T> {
    set x | x in s
  }

  // ---- Lexicographic order on names ----

  predicate Less(a: string, b: string) {
    b != "" && (a == "" || a[0] < b[0] || (a[0] == b[0] && Less(a[1..], b[1..])))
  }

  /** Strictly increasing, hence also free of duplicates. */
  ghost predicate Sorted(s: seq<Name>) {
    forall i, j :: 0 <= i < j < |s| ==> Less(s[i], s[j])
  }

  /** The order of byte strings: at the first difference the smaller byte, and a proper prefix first. */
  lemma {:induction false} LessMeaning(a: string, b: string)
    ensures Less(a, b) <==> a < b || exists k :: FirstDifference(a, b, k) && a[k] < b[k]
  {
    if a == "" {
      assert b != "" ==> a < b;
    } else if b != "" {
      assert a == [a[0]] + a[1..] && b == [b[0]] + b[1..];
      if a[0] != b[0] {
        assert FirstDifference(a, b, 0);
        assert forall k :: FirstDifference(a, b, k) ==> k == 0;
      } else {
        LessMeaning(a[1..], b[1..]);
        TailDifference(a, b);
      }
    }
  }

  ghost predicate FirstDifference(a: string, b: string, k: int) {
    0 <= k < |a| && k < |b| && a[k] != b[k] && a[..k] == b[..k]
  }

  lemma TailDifference(a: string, b: string)
    requires a != "" && b != "" && a[0] == b[0]
    ensures a[1..] < b[1..] <==> a < b
    ensures (exists k :: FirstDifference(a[1..], b[1..], k) && a[1..][k] < b[1..][k])
            <==> exists k :: FirstDifference(a, b, k) && a[k] < b[k]
  {
    assert a == [a[0]] + a[1..] && b == [b[0]] + b[1..];
    if k :| FirstDifference(a[1..], b[1..], k) && a[1..][k] < b[1..][k] {
      assert a[..k + 1] == [a[0]] + a[1..][..k] && b[..k + 1] == [b[0]] + b[1..][..k];
      assert FirstDifference(a, b, k + 1) && a[k + 1] < b[k + 1];
    }
    if k :| FirstDifference(a, b, k) && a[k] < b[k] {
      assert k >= 1;
      assert a[1..][..k - 1] == a[..k][1..] && b[1..][..k - 1] == b[..k][1..];
      assert FirstDifference(a[1..], b[1..], k - 1) && a[1..][k - 1] < b[1..][k - 1];
    }
  }

  lemma LessIrreflexive(a: string)
    ensures !Less(a, a)
  {
    if a != "" {
      LessIrreflexive(a[1..]);
    }
  }

  lemma LessTransitive(a: string, b: string, c: string)
    requires Less(a, b) && Less(b, c)
    ensures Less(a, c)
  {
    if a != "" && a[0] == b[0] == c[0] {
      LessTransitive(a[1..], b[1..], c[1..]);
    }
  }

  lemma {:induction false} LessTotal(a: string, b: string)
    ensures Less(a, b) || a == b || Less(b, a)
  {
    if a != "" && b != "" && a[0] == b[0] {
      LessTotal(a[1..], b[1..]);
      assert a == [a[0]] + a[1..] && b == [b[0]] + b[1..];
    }
  }

  ghost predicate Least(m: Name, s: set<Name>) {
    m in s && forall x :: x in s && x != m ==> Less(m, x)
  }

  lemma {:induction false} LeastExists(s: set<Name>)
    requires s != {}
    ensures exists m :: Least(m, s)
  {
    var a :| a in s;
    if s == {a} {
      assert Least(a, s);
    } else {
      LeastExists(s - {a});
      var m :| Least(m, s - {a});
      LessTotal(a, m);
      if Less(a, m) {
        forall x | x in s && x != a ensures Less(a, x) {
          if x != m {
            LessTransitive(a, m, x);
          }
        }
        assert Least(a, s);
      } else {
        assert Least(m, s);
      }
    }
  }

  /** The one increasing enumeration of a set of names. */
  ghost function Order(s: set<Name>): (r: seq<Name>)
    ensures Sorted(r) && ToSet(r) == s && |r| == |s|
  {
    if s == {} then []
    else
      LeastExists(s);
      var m :| Least(m, s);
      ConsSorted(m, Order(s - {m}));
      [m] + Order(s - {m})
  }

  lemma ConsSorted(m: Name, r: seq<Name>)
    requires Sorted(r) && forall x :: x in r ==> Less(m, x)
    ensures Sorted([m] + r) && ToSet([m] + r) == {m} + ToSet(r)
  {
  }

  lemma SortedNoDuplicates(s: seq<Name>, i: int, j: int)
    requires Sorted(s) && 0 <= i < |s| && 0 <= j < |s| && s[i] == s[j]
    ensures i == j
  {
    LessIrreflexive(s[i]);
  }

  lemma EmptyToSet(s: seq<Name>)
    ensures s == [] <==> ToSet(s) == {}
  {
    if s != [] {
      assert s[0] in ToSet(s);
    }
  }

  /** Sorting a given set of names has only one possible result. */
  lemma {:induction false} SortedUnique(s: seq<Name>, t: seq<Name>)
    requires Sorted(s) && Sorted(t) && ToSet(s) == ToSet(t)
    ensures s == t
  {
    if s == [] {
      EmptyToSet(s);
      EmptyToSet(t);
    } else {
      assert s[0] in ToSet(s);
      var j :| 0 <= j < |t| && t[j] == s[0];
      assert t[0] in ToSet(t);
      var i :| 0 <= i < |s| && s[i] == t[0];
      if s[0] != t[0] {
        assert i > 0 && j > 0;
        LessTransitive(s[0], t[0], s[0]);
        LessIrreflexive(s[0]);
        assert false;
      }
      forall x ensures x in ToSet(s[1..]) <==> x in ToSet(t[1..]) {
        TailMembers(s, x);
        TailMembers(t, x);
        assert x in ToSet(s) <==> x in ToSet(t);
      }
      SortedUnique(s[1..], t[1..]);
      assert s == [s[0]] + s[1..] && t == [t[0]] + t[1..];
    }
  }

  lemma TailMembers(s: seq<Name>, x: Name)
    requires Sorted(s) && s != []
    ensures x in s[1..] <==> x in s && x != s[0]
  {
    if x in s[1..] {
      var k :| 0 <= k < |s[1..]| && s[1..][k] == x;
      assert s[k + 1] == x;
      LessIrreflexive(x);
    }
    if x in s && x != s[0] {
      var k :| 0 <= k < |s| && s[k] == x;
      assert s[1..][k - 1] == x;
    }
  }
}
