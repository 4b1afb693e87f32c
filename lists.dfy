/** Sequence helpers behind the level's actor list: `indexOf` by identity
    and `splice` of one element. */
module Lists {

  /** No element occurs twice. */
  ghost predicate NoDuplicates<T>(s: seq<T>) {
    forall i, j :: 0 <= i < j < |s| ==> s[i] != s[j]
  }

  /** `Array.prototype.indexOf`: the position of the first occurrence of `a`,
      or -1 when `a` does not occur. */
  function IndexOf<T(==)>(s: seq<T>, a: T): (i: int)
    ensures -1 <= i < |s|
    ensures i == -1 <==> a !in s
    ensures 0 <= i ==> s[i] == a && a !in s[..i]
  {
    if |s| == 0 then -1
    else if s[0] == a then 0
    else
      var j := IndexOf(s[1..], a);
      if j < 0 then -1
      else
        assert s[..j + 1] == [s[0]] + s[1..][..j];
        j + 1
  }

  /** `indexOf` followed by `splice(i, 1)`: drops the first occurrence of `a`
      and leaves the sequence alone when `a` is absent. */
  function RemoveFirst<T(==)>(s: seq<T>, a: T): (r: seq<T>)
    ensures a !in s ==> r == s
    ensures |r| == if a in s then |s| - 1 else |s|
  {
    var i := IndexOf(s, a);
    if i < 0 then s else s[..i] + s[i + 1..]
  }

  /** Removing cuts out the first occurrence of `a` and keeps every other
      element in its original order. */
  lemma RemoveFirstSpec<T>(s: seq<T>, a: T)
    ensures a in s ==> exists k :: 0 <= k < |s| && s[k] == a && a !in s[..k] &&
                                   RemoveFirst(s, a) == s[..k] + s[k + 1..]
  {
    var i := IndexOf(s, a);
    if i >= 0 {
      assert s[i] == a && a !in s[..i];
    }
  }

  /** Removing takes exactly one copy of a present `a` out of the multiset of
      elements and nothing else. */
  lemma RemoveFirstMultiset<T>(s: seq<T>, a: T)
    ensures a in s ==> multiset(RemoveFirst(s, a)) + multiset{a} == multiset(s)
    ensures a !in s ==> multiset(RemoveFirst(s, a)) == multiset(s)
  {
    var i := IndexOf(s, a);
    if i >= 0 {
      var front, back := s[..i], s[i + 1..];
      assert s == front + [a] + back;
      assert RemoveFirst(s, a) == front + back;
      calc {
        multiset(s);
        multiset(front + [a] + back);
        multiset(front + [a]) + multiset(back);
        multiset(front) + multiset{a} + multiset(back);
      }
    }
  }

  /** On a duplicate-free sequence, removing `a` leaves exactly the other
      elements, still without duplicates. */
  lemma RemoveFirstDistinct<T>(s: seq<T>, a: T)
    requires NoDuplicates(s)
    ensures NoDuplicates(RemoveFirst(s, a))
    ensures forall b :: b in RemoveFirst(s, a) <==> b in s && b != a
  {
    var i := IndexOf(s, a);
    if i >= 0 {
      var r := s[..i] + s[i + 1..];
      assert forall k :: 0 <= k < |r| ==> r[k] == s[if k < i then k else k + 1];
      forall b
        ensures b in r <==> b in s && b != a
      {
        if b in s && b != a {
          var k :| 0 <= k < |s| && s[k] == b;
          assert r[if k < i then k else k - 1] == b;
        }
      }
    }
  }
}
