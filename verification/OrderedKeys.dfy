/**
 std::map iterates over its keys in ascending order.  A map field keeps its
 contents; this module supplies the order.
 */
module OrderedKeys {

  predicate LeastOf(s: set<nat>, m: nat) {
    m in s && forall x :: x in s ==> m <= x
  }

  lemma {:induction false} LeastExists(s: set<nat>) returns (m: nat)
    requires s != {}
    ensures LeastOf(s, m)
    decreases s
  {
    m :| m in s;
    var rest := s - {m};
    if rest != {} {
      var n := LeastExists(rest);
      LeastOfMore(s, m, n);
      m := if n < m then n else m;
    } else {
      assert s == {m};
    }
  }

  lemma LeastOfMore(s: set<nat>, y: nat, n: nat)
    requires y in s && LeastOf(s - {y}, n)
    ensures LeastOf(s, if n < y then n else y)
  {
    forall x | x in s ensures (if n < y then n else y) <= x {
      assert x == y || x in s - {y};
    }
  }

  /** The key begin() points at. */
  function Least(s: set<nat>): (m: nat)
    requires s != {}
    ensures m in s && forall x :: x in s ==> m <= x
  {
    assert exists m: nat :: LeastOf(s, m) by { var m := LeastExists(s); }
    var m: nat :| LeastOf(s, m);
    m
  }

  predicate Increasing(ids: seq<nat>) {
    forall i, j :: 0 <= i < j < |ids| ==> ids[i] < ids[j]
  }

  /** The keys in iteration order. */
  function Ascending(s: set<nat>): (ids: seq<nat>)
    ensures Increasing(ids)
    ensures forall x :: x in ids <==> x in s
    ensures |ids| == |s|
    decreases s
  {
    if s == {} then []
    else
      var m := Least(s);
      var rest := Ascending(s - {m});
      assert forall i :: 0 <= i < |rest| ==> rest[i] in s - {m};
      [m] + rest
  }

  /** There is only one increasing sequence of a set. */
  lemma {:induction false} AscendingUnique(a: seq<nat>, b: seq<nat>)
    requires Increasing(a) && Increasing(b)
    requires forall x :: x in a <==> x in b
    ensures a == b
  {
    assert a != [] ==> a[0] in b;
    assert b != [] ==> b[0] in a;
    if a != [] {
      forall x | x in a[1..] ensures x in b[1..] { assert x in b && x != b[0]; }
      forall x | x in b[1..] ensures x in a[1..] { assert x in a && x != a[0]; }
      AscendingUnique(a[1..], b[1..]);
    }
  }
}
