/** Row ids in ascending order: `ORDER BY id LIMIT k` over a finite set of ids. */
module Ordering {

  predicate Ascending(ids: seq<nat>) {
    forall i, j :: 0 <= i < j < |ids| ==> ids[i] < ids[j]
  }

  function Elements(ids: seq<nat>): set<nat> {
    set id | id in ids
  }

  predicate IsLeast(m: nat, s: set<nat>) {
    m in s && forall x :: x in s ==> m <= x
  }

  lemma {:induction false} HasLeast(s: set<nat>)
    requires s != {}
    ensures exists m :: IsLeast(m, s)
  {
    var a :| a in s;
    if s == {a} {
      assert IsLeast(a, s);
    } else {
      HasLeast(s - {a});
      var m :| IsLeast(m, s - {a});
      assert forall x :: x in s ==> x == a || x in s - {a};
      assert IsLeast(if a <= m then a else m, s);
    }
  }

  function Min(s: set<nat>): (m: nat)
    requires s != {}
    ensures IsLeast(m, s)
  {
    HasLeast(s);
    assert forall a, b :: IsLeast(a, s) && IsLeast(b, s) ==> a == b;
    var m :| IsLeast(m, s);
    m
  }

  lemma MinFirst(s: set<nat>, m: nat, rest: seq<nat>)
    requires IsLeast(m, s) && Ascending(rest) && Elements(rest) <= s - {m}
    requires forall id, x :: id in rest && x in s - {m} && x !in rest ==> id < x
    ensures Ascending([m] + rest) && Elements([m] + rest) <= s
    ensures forall id, x :: id in [m] + rest && x in s && x !in [m] + rest ==> id < x
  {
    forall j | 0 <= j < |rest|
      ensures m < rest[j]
    {
      assert rest[j] in Elements(rest);
    }
    assert forall x :: x in rest ==> x in Elements(rest);
  }

  // The k lowest members of s, ascending; all of them when there are fewer.
  function Lowest(s: set<nat>, k: nat): (ids: seq<nat>)
    ensures Ascending(ids) && Elements(ids) <= s
    ensures |ids| == if |s| < k then |s| else k
    ensures forall id, x :: id in ids && x in s && x !in ids ==> id < x
  {
    if k == 0 || s == {} then []
    else
      var m := Min(s);
      var rest := Lowest(s - {m}, k - 1);
      MinFirst(s, m, rest);
      [m] + rest
  }

  lemma {:induction false} AscendingCardinality(ids: seq<nat>)
    requires Ascending(ids)
    ensures |Elements(ids)| == |ids|
  {
    if ids != [] {
      var n := |ids| - 1;
      AscendingCardinality(ids[..n]);
      assert Elements(ids) == Elements(ids[..n]) + {ids[n]};
      assert ids[n] !in ids[..n];
    }
  }

  function Below(s: set<nat>, id: nat): set<nat> {
    set x | x in s && x < id
  }

  lemma {:induction false} NotLarger<T>(a: set<T>, b: set<T>)
    requires a <= b
    ensures |a| <= |b|
  {
    assert b == a + (b - a);
  }

  lemma {:induction false} Smaller<T>(a: set<T>, b: set<T>)
    requires a < b
    ensures |a| < |b|
  {
    var x :| x in b && x !in a;
    NotLarger(a, b - {x});
  }

  // Independent reading of Lowest: a member is taken exactly when fewer than k members lie below it.
  lemma LowestByRank(s: set<nat>, k: nat, id: nat)
    ensures id in Lowest(s, k) <==> id in s && |Below(s, id)| < k
  {
    var ids, below := Lowest(s, k), Below(s, id);
    AscendingCardinality(ids);
    assert forall x :: x in ids ==> x in Elements(ids);
    if id in ids {
      assert below < Elements(ids) by {
        assert id in Elements(ids) && id !in below;
      }
      Smaller(below, Elements(ids));
    } else if id in s {
      assert Elements(ids) <= below;
      NotLarger(Elements(ids), below);
      if |s| < k {
        Smaller(Elements(ids), s);
        assert false;
      }
    }
  }

  // As many as there are, or more, is all of them.
  lemma WholeSet(s: set<nat>, k: nat)
    requires |s| <= k
    ensures Elements(Lowest(s, k)) == s
  {
    var ids := Lowest(s, k);
    AscendingCardinality(ids);
    if Elements(ids) != s {
      Smaller(Elements(ids), s);
    }
  }

  // Two ascending sequences with the same members are the same sequence.
  lemma {:induction false} AscendingUnique(a: seq<nat>, b: seq<nat>)
    requires Ascending(a) && Ascending(b) && Elements(a) == Elements(b)
    ensures a == b
  {
    AscendingCardinality(a);
    AscendingCardinality(b);
    if a != [] {
      var n := |a| - 1;
      assert a[n] in Elements(a) && b[n] in Elements(b);
      assert a[n] in b && b[n] in a;
      assert a[n] == b[n];
      assert Elements(a[..n]) == Elements(a) - {a[n]};
      assert Elements(b[..n]) == Elements(b) - {b[n]};
      AscendingUnique(a[..n], b[..n]);
      assert a == a[..n] + [a[n]] && b == b[..n] + [b[n]];
    }
  }
}
