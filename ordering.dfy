/** Python's `sorted(...)` applied to a set of strings: the unique strictly
    increasing listing of the set. */
module Ordering {
  import opened Options
  import opened Text

  predicate StrictlySorted(xs: seq<string>) {
    forall i, j :: 0 <= i < j < |xs| ==> Less(xs[i], xs[j])
  }

  ghost predicate IsLeast(m: string, s: set<string>) {
    m in s && forall x :: x in s && x != m ==> Less(m, x)
  }

  lemma {:induction false} LeastExists(s: set<string>)
    requires s != {}
    ensures exists m :: IsLeast(m, s)
    decreases |s|
  {
    var y :| y in s;
    if s == {y} {
      assert IsLeast(y, s);
    } else {
      LeastExists(s - {y});
      var m :| IsLeast(m, s - {y});
      if Less(m, y) {
        forall x | x in s && x != m
          ensures Less(m, x)
        {
        }
        assert IsLeast(m, s);
      } else {
        LessTotal(m, y);
        forall x | x in s && x != y
          ensures Less(y, x)
        {
          if x != m {
            LessTransitive(y, m, x);
          }
        }
        assert IsLeast(y, s);
      }
    }
  }

  lemma LeastUnique(m1: string, m2: string, s: set<string>)
    requires IsLeast(m1, s) && IsLeast(m2, s)
    ensures m1 == m2
  {
    if m1 != m2 {
      LessAsymmetric(m1, m2);
    }
  }

  ghost function Least(s: set<string>): (m: string)
    requires s != {}
    ensures IsLeast(m, s)
  {
    LeastExists(s);
    var m :| IsLeast(m, s);
    m
  }

  /** The sorted listing of a set: least element first. */
  ghost function SortedOf(s: set<string>): seq<string>
    decreases |s|
  {
    if s == {} then [] else var m := Least(s); [m] + SortedOf(s - {m})
  }

  /** `sorted(s)` lists exactly the set, each element once. */
  lemma {:induction false} SortedOfElems(s: set<string>)
    ensures Elems(SortedOf(s)) == s
    ensures |SortedOf(s)| == |s|
    decreases |s|
  {
    if s != {} {
      var m := Least(s);
      SortedOfElems(s - {m});
      ElemsConcat([m], SortedOf(s - {m}));
    }
  }

  /** Putting an element below all others in front keeps a listing sorted. */
  lemma ConsSorted(m: string, rest: seq<string>)
    requires StrictlySorted(rest)
    requires forall x :: x in Elems(rest) ==> Less(m, x)
    ensures StrictlySorted([m] + rest)
  {
    var xs := [m] + rest;
    forall i, j | 0 <= i < j < |xs|
      ensures Less(xs[i], xs[j])
    {
      assert xs[j] == rest[j - 1];
      if i == 0 {
        assert rest[j - 1] in Elems(rest);
      } else {
        assert xs[i] == rest[i - 1];
      }
    }
  }

  /** `sorted(s)` is strictly increasing. */
  lemma {:induction false} SortedOfSorted(s: set<string>)
    ensures StrictlySorted(SortedOf(s))
    decreases |s|
  {
    if s != {} {
      var m := Least(s);
      SortedOfSorted(s - {m});
      SortedOfElems(s - {m});
      ConsSorted(m, SortedOf(s - {m}));
    }
  }

  /** A strictly sorted listing of a set is THE sorted listing: the order
      `sorted` produces is fully determined by the set. */
  lemma {:induction false} SortedUnique(xs: seq<string>, s: set<string>)
    requires StrictlySorted(xs) && Elems(xs) == s
    ensures xs == SortedOf(s)
    decreases |xs|
  {
    if xs != [] {
      assert IsLeast(xs[0], s) by {
        forall x | x in s && x != xs[0]
          ensures Less(xs[0], x)
        {
          var j :| 0 <= j < |xs| && xs[j] == x;
        }
      }
      LeastUnique(xs[0], Least(s), s);
      assert xs[0] !in Elems(xs[1..]) by {
        if xs[0] in Elems(xs[1..]) {
          var j :| 0 <= j < |xs[1..]| && xs[1..][j] == xs[0];
          assert Less(xs[0], xs[j + 1]);
          LessIrreflexive(xs[0]);
        }
      }
      assert xs == [xs[0]] + xs[1..];
      assert Elems(xs[1..]) == s - {xs[0]};
      SortedUnique(xs[1..], s - {xs[0]});
    }
  }

  /** `sorted(list(s))`: repeatedly takes the least remaining element. */
  method Sorted(s: set<string>) returns (xs: seq<string>)
    ensures StrictlySorted(xs) && Elems(xs) == s
    ensures xs == SortedOf(s)
  {
    xs := [];
    var rest := s;
    while rest != {}
      invariant xs + SortedOf(rest) == SortedOf(s)
      decreases |rest|
    {
      LeastExists(rest);
      var m :| m in rest && forall x :: x in rest && x != m ==> Less(m, x);
      LeastUnique(m, Least(rest), rest);
      xs := xs + [m];
      rest := rest - {m};
    }
    assert xs == SortedOf(s);
    SortedOfElems(s);
    SortedOfSorted(s);
  }
}
