/** Python's `sorted` on a set of integers. */
module IntSet {

  /** A non-empty finite set of integers has a least element. */
  lemma {:induction false} MinimumExists(s: set<int>)
    requires s != {}
    ensures exists m :: m in s && forall x :: x in s ==> m <= x
    decreases |s|
  {
    if forall z :: z !in s {
      assert false;
    }
    var y :| y in s;
    if s == {y} {
      assert forall x :: x in s ==> y <= x;
    } else {
      var rest := s - {y};
      assert rest != {} by { assert s == rest + {y}; }
      MinimumExists(rest);
      var m :| m in rest && forall x :: x in rest ==> m <= x;
      var lo := if y < m then y else m;
      forall x | x in s ensures lo <= x {
        if x != y { assert x in rest; }
      }
      assert lo in s;
    }
  }

  /** `sorted(s)` for a set of ints: strictly increasing, with exactly the members of `s`. */
  function Sorted(s: set<int>): (r: seq<int>)
    ensures forall i, j :: 0 <= i < j < |r| ==> r[i] < r[j]
    ensures forall x :: x in r <==> x in s
    decreases |s|
  {
    if s == {} then []
    else
      MinimumExists(s);
      var m :| m in s && forall x :: x in s ==> m <= x;
      var tail := Sorted(s - {m});
      ConsLeast(s, m, tail);
      [m] + tail
  }

  /** Putting the least element in front of the sorted rest gives the sorted set. */
  lemma ConsLeast(s: set<int>, m: int, tail: seq<int>)
    requires m in s && forall x :: x in s ==> m <= x
    requires forall i, j :: 0 <= i < j < |tail| ==> tail[i] < tail[j]
    requires forall x :: x in tail <==> x in s - {m}
    ensures forall i, j :: 0 <= i < j < |[m] + tail| ==> ([m] + tail)[i] < ([m] + tail)[j]
    ensures forall x :: x in [m] + tail <==> x in s
  {
    forall j | 0 <= j < |tail|
      ensures m < tail[j]
    {
      assert tail[j] in tail;
    }
  }
}
