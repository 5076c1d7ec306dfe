/** Python's order on str, and sorted() on a collection without repetitions. */
module Ordering {

  /** Lexicographic by code point. */
  predicate Less(a: string, b: string) {
    if b == "" then false
    else if a == "" then true
    else if a[0] != b[0] then a[0] < b[0]
    else Less(a[1..], b[1..])
  }

  predicate Leq(a: string, b: string) {
    a == b || Less(a, b)
  }

  lemma {:induction false} Irreflexive(a: string)
    ensures !Less(a, a)
  {
    if a != "" {
      Irreflexive(a[1..]);
    }
  }

  lemma {:induction false} Transitive(a: string, b: string, c: string)
    requires Less(a, b) && Less(b, c)
    ensures Less(a, c)
  {
    if a != "" && a[0] == b[0] == c[0] {
      Transitive(a[1..], b[1..], c[1..]);
    }
  }

  lemma {:induction false} Total(a: string, b: string)
    ensures Less(a, b) || a == b || Less(b, a)
  {
    if a != "" && b != "" && a[0] == b[0] {
      Total(a[1..], b[1..]);
      if a[1..] == b[1..] {
        assert a == [a[0]] + a[1..] == [b[0]] + b[1..] == b;
      }
    }
  }

  lemma Antisymmetric(a: string, b: string)
    requires Leq(a, b) && Leq(b, a)
    ensures a == b
  {
    if a != b {
      Transitive(a, b, a);
      Irreflexive(a);
    }
  }

  ghost predicate IsLeast(x: string, s: set<string>) {
    x in s && forall y | y in s :: Leq(x, y)
  }

  lemma {:induction false} LeastExists(s: set<string>) returns (x: string)
    requires s != {}
    ensures IsLeast(x, s)
  {
    x :| x in s;
    if s != {x} {
      var rest := s - {x};
      var y := LeastExists(rest);
      Total(x, y);
      if Less(x, y) {
        forall z | z in s ensures Leq(x, z) {
          if z != x && z != y {
            assert z in rest;
            Transitive(x, y, z);
          }
        }
      } else {
        assert forall z | z in s :: z == x || z in rest;
        x := y;
      }
    }
  }

  function Least(s: set<string>): (x: string)
    requires s != {}
    ensures IsLeast(x, s)
  {
    assert exists x :: x in s && forall y | y in s :: Leq(x, y) by {
      var x := LeastExists(s);
    }
    assert forall x, y | x in s && (forall z | z in s :: Leq(x, z)) && y in s && (forall z | z in s :: Leq(y, z)) ::
      x == y by {
      forall x, y | x in s && (forall z | z in s :: Leq(x, z)) && y in s && (forall z | z in s :: Leq(y, z))
        ensures x == y {
        Antisymmetric(x, y);
      }
    }
    var x :| x in s && forall y | y in s :: Leq(x, y);
    x
  }

  /** sorted(s) */
  function Sorted(s: set<string>): (r: seq<string>)
    ensures forall x :: x in r <==> x in s
    ensures |r| == |s|
  {
    if s == {} then [] else [Least(s)] + Sorted(s - {Least(s)})
  }

  function Elements(xs: seq<string>): set<string> {
    set x | x in xs
  }

  lemma {:induction false} SortedDistinct(s: set<string>)
    ensures forall i, j | 0 <= i < j < |Sorted(s)| :: Sorted(s)[i] != Sorted(s)[j]
  {
    if s != {} {
      SortedDistinct(s - {Least(s)});
    }
  }

  lemma SortedHead(s: set<string>)
    requires Sorted(s) != []
    ensures IsLeast(Sorted(s)[0], s) && Sorted(s)[1..] == Sorted(s - {Sorted(s)[0]})
  {
  }

  lemma ElementsAppend(xs: seq<string>, x: string)
    ensures Elements(xs + [x]) == Elements(xs) + {x}
  {
  }

  lemma ElementsSorted(s: set<string>)
    ensures Elements(Sorted(s)) == s
  {
  }

  /** Walking along sorted(s). */
  lemma SortedWalk(s: set<string>, i: nat)
    requires i < |Sorted(s)|
    ensures Sorted(s)[i] in s && Sorted(s)[i] !in Elements(Sorted(s)[..i])
    ensures Elements(Sorted(s)[..i + 1]) == Elements(Sorted(s)[..i]) + {Sorted(s)[i]}
  {
    SortedDistinct(s);
    var xs := Sorted(s);
    assert xs[..i + 1] == xs[..i] + [xs[i]];
  }

  lemma SameStart(a: string, b: string, k: nat)
    requires 0 < k <= |a| && k <= |b| && a[..k] == b[..k]
    ensures a[0] == b[0]
  {
    assert a[..k][0] == b[..k][0];
  }

  /** a comes before b when it is a proper prefix of b or smaller at the first place where they differ. */
  lemma {:induction false} LessIff(a: string, b: string)
    ensures Less(a, b)
            <==> a < b || exists k :: 0 <= k < |a| && k < |b| && a[..k] == b[..k] && a[k] < b[k]
  {
    if a != "" && b != "" {
      LessIff(a[1..], b[1..]);
      assert a == [a[0]] + a[1..] && b == [b[0]] + b[1..];
      if a[0] == b[0] {
        if k :| 0 <= k < |a| && k < |b| && a[..k] == b[..k] && a[k] < b[k] {
          assert k > 0;
          assert a[1..][..k - 1] == a[..k][1..] && b[1..][..k - 1] == b[..k][1..];
          assert a[1..][k - 1] < b[1..][k - 1];
        }
        if k :| 0 <= k < |a[1..]| && k < |b[1..]| && a[1..][..k] == b[1..][..k] && a[1..][k] < b[1..][k] {
          assert a[..k + 1] == [a[0]] + a[1..][..k] && b[..k + 1] == [b[0]] + b[1..][..k];
          assert a[k + 1] < b[k + 1];
        }
      } else {
        assert a[..0] == b[..0];
        if k :| 0 <= k < |a| && k < |b| && a[..k] == b[..k] && a[k] < b[k] {
          if k > 0 {
            SameStart(a, b, k);
            assert false;
          }
        }
      }
    }
  }
}
