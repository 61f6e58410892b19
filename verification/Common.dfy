/** Optional values, and lists without repetitions. */
module Common {

  datatype Option<T> = None | Some(value: T)

  predicate NoRepeats<T(==)>(list: seq<T>) {
    forall i, j :: 0 <= i < j < |list| ==> list[i] != list[j]
  }

  function Members<T>(list: seq<T>): set<T> {
    set x | x in list
  }

  lemma {:induction false} MembersCount<T>(list: seq<T>)
    requires NoRepeats(list)
    ensures |Members(list)| == |list|
  {
    if list != [] {
      var front := list[..|list| - 1];
      assert list[|list| - 1] !in Members(front);
      MembersCount(front);
      assert Members(list) == Members(front) + {list[|list| - 1]};
    }
  }

  function UpTo(n: nat): (r: set<nat>)
    ensures |r| == n
    ensures forall k: nat :: k in r <==> k < n
  {
    if n == 0 then {} else UpTo(n - 1) + {n - 1}
  }

  lemma {:induction false} SubsetSize(a: set<nat>, b: set<nat>)
    requires a <= b
    ensures |a| <= |b|
  {
    if x :| x in a {
      SubsetSize(a - {x}, b - {x});
    }
  }

  /** A set of `n` numbers below `n` has all of them. */
  lemma FullSetHasAll(a: set<nat>, n: nat)
    requires |a| == n && forall k :: k in a ==> k < n
    ensures forall k: nat :: k < n ==> k in a
  {
    if k: nat :| k < n && k !in a {
      assert a <= UpTo(n) - {k};
      SubsetSize(a, UpTo(n) - {k});
    }
  }
}
