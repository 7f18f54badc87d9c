/** Code-point order on identifiers, and the two orders on paths that the search relies on.

    `Less` is Python's `<` on `str`; `Sorted` is Python's `sorted` on a set of identifiers.
 */
module Ordering {
  type Id = string
  type Path = seq<Id>

  predicate Less(a: Id, b: Id) {
    if b == [] then false
    else if a == [] then true
    else if a[0] != b[0] then a[0] < b[0]
    else Less(a[1..], b[1..])
  }

  /** One string is before another exactly when it is a proper prefix, or has the lower code point where they
      first differ. */
  lemma {:induction false} LessExactly(a: Id, b: Id)
    ensures Less(a, b) <==>
      || (|a| < |b| && a == b[..|a|])
      || exists k :: 0 <= k < |a| && k < |b| && a[..k] == b[..k] && a[k] < b[k]
  {
    if a != [] && b != [] && a[0] == b[0] {
      var x, y := a[1..], b[1..];
      LessExactly(x, y);
      if |x| < |y| && x == y[..|x|] {
        assert a == [a[0]] + x && b[..|a|] == [b[0]] + y[..|x|];
      }
      if |a| < |b| && a == b[..|a|] {
        assert x == y[..|x|];
      }
      if k :| 0 <= k < |x| && k < |y| && x[..k] == y[..k] && x[k] < y[k] {
        assert a[..k + 1] == [a[0]] + x[..k] && b[..k + 1] == [b[0]] + y[..k];
        assert a[k + 1] < b[k + 1];
      }
      if k :| 0 <= k < |a| && k < |b| && a[..k] == b[..k] && a[k] < b[k] {
        assert x[..k - 1] == a[..k][1..] && y[..k - 1] == b[..k][1..];
        assert x[k - 1] < y[k - 1];
      }
    } else if a != [] && b != [] {
      assert a[..0] == b[..0];
      forall k | 0 < k < |a| && k < |b| ensures a[..k] != b[..k] {
        assert a[..k][0] != b[..k][0];
      }
      assert |a| < |b| ==> a[0] != b[..|a|][0];
    }
  }

  lemma {:induction false} LessIrreflexive(a: Id)
    ensures !Less(a, a)
  {
    if a != [] {
      LessIrreflexive(a[1..]);
    }
  }

  lemma {:induction false} LessTransitive(a: Id, b: Id, c: Id)
    requires Less(a, b) && Less(b, c)
    ensures Less(a, c)
  {
    if a != [] && b != [] && c != [] && a[0] == b[0] == c[0] {
      LessTransitive(a[1..], b[1..], c[1..]);
    }
  }

  lemma {:induction false} LessTotal(a: Id, b: Id)
    ensures a == b || Less(a, b) || Less(b, a)
  {
    if a != [] && b != [] && a[0] == b[0] {
      LessTotal(a[1..], b[1..]);
      assert a == [a[0]] + a[1..] && b == [b[0]] + b[1..];
    }
  }

  lemma LessAsymmetric()
    ensures forall a: Id, b: Id {:trigger Less(a, b)} :: Less(a, b) ==> !Less(b, a)
  {
    forall a: Id, b: Id | Less(a, b) ensures !Less(b, a) {
      if Less(b, a) {
        LessTransitive(a, b, a);
        LessIrreflexive(a);
      }
    }
  }

  ghost predicate IsLeast(m: Id, s: set<Id>) {
    m in s && forall x | x in s :: x == m || Less(m, x)
  }

  lemma {:induction false} LeastExists(s: set<Id>)
    requires s != {}
    ensures exists m :: IsLeast(m, s)
    decreases s
  {
    var x :| x in s;
    if s == {x} {
      assert IsLeast(x, s);
    } else {
      LeastExists(s - {x});
      var m :| IsLeast(m, s - {x});
      LessTotal(m, x);
      if Less(m, x) {
        assert IsLeast(m, s);
      } else {
        forall y | y in s ensures y == x || Less(x, y) {
          if y != x && y != m {
            LessTransitive(x, m, y);
          }
        }
        assert IsLeast(x, s);
      }
    }
  }

  predicate Increasing(ids: seq<Id>) {
    forall i, j | 0 <= i < j < |ids| :: Less(ids[i], ids[j])
  }

  /** The elements of `s` in increasing order. */
  function Sorted(s: set<Id>): (ids: seq<Id>)
    ensures Increasing(ids)
    ensures forall x :: x in ids <==> x in s
    ensures |ids| == |s|
    decreases s
  {
    if s == {} then []
    else
      LeastExists(s);
      LessAsymmetric();
      var m :| m in s && forall x | x in s :: x == m || Less(m, x);
      var rest := Sorted(s - {m});
      assert forall x | x in rest :: Less(m, x);
      [m] + rest
  }

  /** Lexicographic order on paths of equal length: the first difference decides. */
  ghost predicate LexLess(p: Path, q: Path) {
    exists k :: 0 <= k < |p| && k < |q| && p[..k] == q[..k] && Less(p[k], q[k])
  }

  /** Shorter paths first, and paths of equal length lexicographically. */
  ghost predicate Shortlex(p: Path, q: Path) {
    |p| < |q| || (|p| == |q| && LexLess(p, q))
  }

  ghost predicate ShortlexSorted(ps: seq<Path>) {
    forall i, j | 0 <= i < j < |ps| :: Shortlex(ps[i], ps[j])
  }

  lemma ShortlexIrreflexive(p: Path)
    ensures !Shortlex(p, p)
  {
    if LexLess(p, p) {
      var k :| 0 <= k < |p| && Less(p[k], p[k]);
      LessIrreflexive(p[k]);
    }
  }

  lemma ShortlexTransitive(p: Path, q: Path, r: Path)
    requires Shortlex(p, q) && Shortlex(q, r)
    ensures Shortlex(p, r)
  {
    if |p| == |q| == |r| {
      var k :| 0 <= k < |p| && k < |q| && p[..k] == q[..k] && Less(p[k], q[k]);
      var l :| 0 <= l < |q| && l < |r| && q[..l] == r[..l] && Less(q[l], r[l]);
      var m := if k < l then k else l;
      assert p[..m] == p[..k][..m] == q[..k][..m] == q[..m] == q[..l][..m] == r[..m];
      if k == l {
        LessTransitive(p[k], q[k], r[k]);
      } else if k < l {
        assert q[k] == q[..l][k] == r[k];
      } else {
        assert p[l] == p[..k][l] == q[l];
      }
      assert Less(p[m], r[m]);
    }
  }

  /** Extending two ordered paths by any node keeps them ordered. */
  lemma ShortlexExtend(p: Path, q: Path, a: Id, b: Id)
    requires Shortlex(p, q)
    ensures Shortlex(p + [a], q + [b])
  {
    if |p| == |q| {
      var k :| 0 <= k < |p| && k < |q| && p[..k] == q[..k] && Less(p[k], q[k]);
      assert (p + [a])[..k] == (q + [b])[..k] && Less((p + [a])[k], (q + [b])[k]);
    }
  }

  lemma ShortlexSibling(p: Path, a: Id, b: Id)
    requires Less(a, b)
    ensures Shortlex(p + [a], p + [b])
  {
    assert (p + [a])[..|p|] == (p + [b])[..|p|] && Less((p + [a])[|p|], (p + [b])[|p|]);
  }

  /** A strictly ordered list is determined by its elements. */
  lemma {:induction false} ShortlexSortedUnique(ps: seq<Path>, qs: seq<Path>)
    requires ShortlexSorted(ps) && ShortlexSorted(qs)
    requires forall p :: p in ps <==> p in qs
    ensures ps == qs
    decreases |ps|
  {
    SameElementsBothEmpty(ps, qs);
    if ps != [] {
      HeadsAgree(ps, qs);
      forall p ensures p in ps[1..] <==> p in qs[1..] {
        if p in ps[1..] {
          TailAvoidsHead(ps, p);
          assert p in qs;
          assert qs == [qs[0]] + qs[1..];
        }
        if p in qs[1..] {
          TailAvoidsHead(qs, p);
          assert p in ps;
          assert ps == [ps[0]] + ps[1..];
        }
      }
      ShortlexSortedUnique(ps[1..], qs[1..]);
      assert ps == [ps[0]] + ps[1..] && qs == [qs[0]] + qs[1..];
    }
  }

  lemma SameElementsBothEmpty(ps: seq<Path>, qs: seq<Path>)
    requires forall p :: p in ps <==> p in qs
    ensures ps == [] <==> qs == []
  {
    if |ps| > 0 {
      var p := ps[0];
      assert p in qs;
    }
    if |qs| > 0 {
      var p := qs[0];
      assert p in ps;
    }
  }

  lemma TailAvoidsHead(ps: seq<Path>, p: Path)
    requires ShortlexSorted(ps) && ps != [] && p in ps[1..]
    ensures p != ps[0]
  {
    ShortlexIrreflexive(p);
    var i :| 0 <= i < |ps[1..]| && ps[1..][i] == p;
    assert Shortlex(ps[0], ps[i + 1]);
  }

  lemma HeadsAgree(ps: seq<Path>, qs: seq<Path>)
    requires ShortlexSorted(ps) && ShortlexSorted(qs) && ps != [] && qs != []
    requires forall p :: p in ps <==> p in qs
    ensures ps[0] == qs[0]
  {
    assert ps[0] in qs && qs[0] in ps;
    var i :| 0 <= i < |qs| && qs[i] == ps[0];
    var j :| 0 <= j < |ps| && ps[j] == qs[0];
    if ps[0] != qs[0] {
      ShortlexTransitive(ps[0], qs[0], ps[0]);
      ShortlexIrreflexive(ps[0]);
    }
  }
}
