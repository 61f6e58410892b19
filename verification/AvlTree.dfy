/** The sample AVL tree: stored heights, rotations that build fresh nodes, duplicates allowed. */
module AvlTree {

  datatype Tree = Nil | Node(key: int, height: nat, left: Tree, right: Tree)

  function Height(p: Tree): nat {
    if p.Node? then p.height else 0
  }

  function BFactor(p: Tree): int
    requires p.Node?
  {
    Height(p.right) - Height(p.left)
  }

  function Max(a: nat, b: nat): nat {
    if a > b then a else b
  }

  /** A node whose height has been recalculated: fixheight. */
  function Fixed(key: int, left: Tree, right: Tree): Tree {
    Node(key, Max(Height(left), Height(right)) + 1, left, right)
  }

  function SmallLeftRotate(a: Tree): Tree
    requires a.Node? && a.right.Node?
  {
    Fixed(a.right.key, Fixed(a.key, a.left, a.right.left), a.right.right)
  }

  function BigLeftRotate(a: Tree): Tree
    requires a.Node? && a.right.Node? && a.right.left.Node?
  {
    var m := a.right.left;
    Fixed(m.key, Fixed(a.key, a.left, m.left), Fixed(a.right.key, m.right, a.right.right))
  }

  function SmallRightRotate(a: Tree): Tree
    requires a.Node? && a.left.Node?
  {
    Fixed(a.left.key, a.left.left, Fixed(a.key, a.left.right, a.right))
  }

  function BigRightRotate(a: Tree): Tree
    requires a.Node? && a.left.Node? && a.left.right.Node?
  {
    var m := a.left.right;
    Fixed(m.key, Fixed(a.left.key, a.left.left, m.left), Fixed(a.key, m.right, a.right))
  }

  /** Heights are stored exactly and siblings differ by at most one. */
  predicate Avl(p: Tree) {
    p.Node? ==>
      && Avl(p.left) && Avl(p.right)
      && p.height == Max(Height(p.left), Height(p.right)) + 1
      && -1 <= BFactor(p) <= 1
  }

  /** The keys from left to right. */
  function InOrder(p: Tree): seq<int> {
    if p.Nil? then [] else InOrder(p.left) + [p.key] + InOrder(p.right)
  }

  /** Keys do not decrease from left to right; equal keys may be on either side. */
  predicate Sorted(s: seq<int>) {
    forall i, j :: 0 <= i < j < |s| ==> s[i] <= s[j]
  }

  predicate Ordered(p: Tree) {
    Sorted(InOrder(p))
  }

  /** What one insertion or removal below can do to a node before it is balanced again. */
  predicate NearlyAvl(p: Tree) {
    p.Node? && Avl(p.left) && Avl(p.right) && -2 <= BFactor(p) <= 2
  }

  function Balance(p: Tree): Tree
    requires NearlyAvl(p)
  {
    var q := Fixed(p.key, p.left, p.right);
    if BFactor(q) == 2 then
      if BFactor(q.right) < 0 then BigLeftRotate(q) else SmallLeftRotate(q)
    else if BFactor(q) == -2 then
      if BFactor(q.left) > 0 then BigRightRotate(q) else SmallRightRotate(q)
    else q
  }

  lemma FixedAvl(key: int, l: Tree, r: Tree)
    requires Avl(l) && Avl(r) && -1 <= Height(r) - Height(l) <= 1
    ensures Avl(Fixed(key, l, r))
  {
  }

  lemma RotateLeftShape(a: Tree)
    requires NearlyAvl(a) && BFactor(a) == 2
    ensures BFactor(a.right) < 0 ==> Avl(BigLeftRotate(a)) && Height(BigLeftRotate(a)) == Height(a.right)
    ensures BFactor(a.right) >= 0 ==> Avl(SmallLeftRotate(a)) && Height(a.right) <= Height(SmallLeftRotate(a)) <= Height(a.right) + 1
  {
    if BFactor(a.right) < 0 {
      var m := a.right.left;
      assert Avl(m);
      FixedAvl(a.key, a.left, m.left);
      FixedAvl(a.right.key, m.right, a.right.right);
    } else {
      FixedAvl(a.key, a.left, a.right.left);
    }
  }

  lemma RotateRightShape(a: Tree)
    requires NearlyAvl(a) && BFactor(a) == -2
    ensures BFactor(a.left) > 0 ==> Avl(BigRightRotate(a)) && Height(BigRightRotate(a)) == Height(a.left)
    ensures BFactor(a.left) <= 0 ==> Avl(SmallRightRotate(a)) && Height(a.left) <= Height(SmallRightRotate(a)) <= Height(a.left) + 1
  {
    if BFactor(a.left) > 0 {
      var m := a.left.right;
      assert Avl(m);
      FixedAvl(a.left.key, a.left.left, m.left);
      FixedAvl(a.key, m.right, a.right);
    } else {
      FixedAvl(a.key, a.left.right, a.right);
    }
  }

  /** Balancing makes an AVL tree of about the same height... */
  lemma BalanceShape(p: Tree)
    requires NearlyAvl(p)
    ensures Avl(Balance(p))
    ensures var h := Max(Height(p.left), Height(p.right)); h <= Height(Balance(p)) <= h + 1
    ensures -1 <= BFactor(p) <= 1 ==> Height(Balance(p)) == Max(Height(p.left), Height(p.right)) + 1
  {
    var q := Fixed(p.key, p.left, p.right);
    if BFactor(q) == 2 {
      RotateLeftShape(q);
    } else if BFactor(q) == -2 {
      RotateRightShape(q);
    }
    hide Avl;
  }

  lemma Regroup(a: seq<int>, x: int, b: seq<int>, y: int, c: seq<int>)
    ensures (a + [x] + b) + [y] + c == a + [x] + (b + [y] + c)
  {
  }

  lemma SmallLeftKeys(a: Tree)
    requires a.Node? && a.right.Node?
    ensures InOrder(SmallLeftRotate(a)) == InOrder(a)
  {
    Regroup(InOrder(a.left), a.key, InOrder(a.right.left), a.right.key, InOrder(a.right.right));
  }

  lemma SmallRightKeys(a: Tree)
    requires a.Node? && a.left.Node?
    ensures InOrder(SmallRightRotate(a)) == InOrder(a)
  {
    Regroup(InOrder(a.left.left), a.left.key, InOrder(a.left.right), a.key, InOrder(a.right));
  }

  lemma BigLeftKeys(a: Tree)
    requires a.Node? && a.right.Node? && a.right.left.Node?
    ensures InOrder(BigLeftRotate(a)) == InOrder(a)
  {
    var r, m := a.right, a.right.left;
    var l1, l2, l3, l4 := InOrder(a.left), InOrder(m.left), InOrder(m.right), InOrder(r.right);
    assert InOrder(r) == (l2 + [m.key] + l3) + [r.key] + l4;
    Regroup(l2, m.key, l3, r.key, l4);
    Regroup(l1, a.key, l2, m.key, l3 + [r.key] + l4);
    assert InOrder(Fixed(a.key, a.left, m.left)) == l1 + [a.key] + l2;
    assert InOrder(Fixed(r.key, m.right, r.right)) == l3 + [r.key] + l4;
  }

  lemma BigRightKeys(a: Tree)
    requires a.Node? && a.left.Node? && a.left.right.Node?
    ensures InOrder(BigRightRotate(a)) == InOrder(a)
  {
    var l, m := a.left, a.left.right;
    var l1, l2, l3, l4 := InOrder(l.left), InOrder(m.left), InOrder(m.right), InOrder(a.right);
    assert InOrder(l) == l1 + [l.key] + (l2 + [m.key] + l3);
    Regroup(l1, l.key, l2, m.key, l3);
    Regroup(l1 + [l.key] + l2, m.key, l3, a.key, l4);
    assert InOrder(Fixed(l.key, l.left, m.left)) == l1 + [l.key] + l2;
    assert InOrder(Fixed(a.key, m.right, a.right)) == l3 + [a.key] + l4;
  }

  /** ... with the same keys in the same order. */
  lemma BalanceKeys(p: Tree)
    requires NearlyAvl(p)
    ensures InOrder(Balance(p)) == InOrder(p)
  {
    var q := Fixed(p.key, p.left, p.right);
    if BFactor(q) == 2 {
      if BFactor(q.right) < 0 { BigLeftKeys(q); } else { SmallLeftKeys(q); }
    } else if BFactor(q) == -2 {
      if BFactor(q.left) > 0 { BigRightKeys(q); } else { SmallRightKeys(q); }
    }
  }

  // ---- Sorted sequences

  /** The key put behind all that are not larger. */
  function Put(s: seq<int>, k: int): seq<int> {
    if s == [] || k < s[0] then [k] + s else [s[0]] + Put(s[1..], k)
  }

  /** One occurrence of the key taken out, if there is one. */
  function Drop(s: seq<int>, k: int): seq<int> {
    if s == [] then [] else if s[0] == k then s[1..] else [s[0]] + Drop(s[1..], k)
  }

  lemma SortedCons(x: int, t: seq<int>)
    requires Sorted(t) && forall y :: y in t ==> x <= y
    ensures Sorted([x] + t)
  {
    var s := [x] + t;
    forall i, j | 0 <= i < j < |s| ensures s[i] <= s[j] {
      assert s[j] == t[j - 1] && t[j - 1] in t;
    }
  }

  lemma SortedTail(s: seq<int>)
    requires Sorted(s) && s != []
    ensures Sorted(s[1..]) && forall y :: y in s[1..] ==> s[0] <= y
  {
  }

  lemma {:induction false} PutKeys(s: seq<int>, k: int)
    ensures multiset(Put(s, k)) == multiset(s) + multiset{k}
  {
    if s != [] && s[0] <= k {
      PutKeys(s[1..], k);
      assert s == [s[0]] + s[1..];
    }
  }

  lemma {:induction false} DropKeys(s: seq<int>, k: int)
    ensures multiset(Drop(s, k)) == multiset(s) - multiset{k}
  {
    if s != [] {
      assert s == [s[0]] + s[1..];
      assert multiset(s) == multiset{s[0]} + multiset(s[1..]);
      if s[0] != k {
        DropKeys(s[1..], k);
        assert multiset(Drop(s, k)) == multiset{s[0]} + multiset(Drop(s[1..], k));
      }
    }
  }

  lemma PutMember(s: seq<int>, k: int, x: int)
    requires x in Put(s, k)
    ensures x in s || x == k
  {
    PutKeys(s, k);
    assert x in multiset(Put(s, k));
  }

  lemma DropMember(s: seq<int>, k: int, x: int)
    requires x in Drop(s, k)
    ensures x in s
  {
    DropKeys(s, k);
    assert x in multiset(Drop(s, k));
  }

  lemma {:induction false} PutKeepsSorted(s: seq<int>, k: int)
    requires Sorted(s)
    ensures Sorted(Put(s, k))
  {
    if s != [] {
      SortedTail(s);
      if s[0] <= k {
        PutKeepsSorted(s[1..], k);
        forall x | x in Put(s[1..], k) ensures s[0] <= x {
          PutMember(s[1..], k, x);
        }
        SortedCons(s[0], Put(s[1..], k));
      }
    }
  }

  lemma {:induction false} DropKeepsSorted(s: seq<int>, k: int)
    requires Sorted(s)
    ensures Sorted(Drop(s, k))
  {
    if s != [] {
      SortedTail(s);
      if s[0] != k {
        DropKeepsSorted(s[1..], k);
        forall x | x in Drop(s[1..], k) ensures s[0] <= x {
          DropMember(s[1..], k, x);
        }
        SortedCons(s[0], Drop(s[1..], k));
      }
    }
  }

  lemma PutCons(y: int, t: seq<int>, k: int)
    ensures Put([y] + t, k) == if k < y then [k] + ([y] + t) else [y] + Put(t, k)
    ensures Put([], k) == [k]
  {
    assert ([y] + t)[1..] == t;
  }

  lemma DropCons(y: int, t: seq<int>, k: int)
    ensures Drop([y] + t, k) == if k == y then t else [y] + Drop(t, k)
    ensures Drop([], k) == []
  {
    assert ([y] + t)[1..] == t;
  }

  /** Splitting a sorted sequence at its first key. */
  lemma Uncons(a: seq<int>, x: int, b: seq<int>)
    requires Sorted(a + [x] + b) && a != []
    ensures a == [a[0]] + a[1..] && a + [x] + b == [a[0]] + (a[1..] + [x] + b)
    ensures Sorted(a[1..] + [x] + b) && a[0] <= x
  {
    var s := a + [x] + b;
    assert s[|a|] == x && s[0] == a[0];
    assert s[1..] == a[1..] + [x] + b;
    SortedTail(s);
  }

  lemma {:induction false} PutAround(a: seq<int>, x: int, b: seq<int>, k: int)
    requires Sorted(a + [x] + b)
    ensures Put(a + [x] + b, k) == if k < x then Put(a, k) + [x] + b else a + [x] + Put(b, k)
  {
    hide Put, Sorted;
    if a == [] {
      assert a + [x] + b == [x] + b;
      PutCons(x, b, k);
    } else {
      Uncons(a, x, b);
      PutAround(a[1..], x, b, k);
      PutCons(a[0], a[1..] + [x] + b, k);
      PutCons(a[0], a[1..], k);
      ConsAround(a[0], a[1..], x, b);
      ConsAround(a[0], Put(a[1..], k), x, b);
      ConsAround(a[0], a[1..], x, Put(b, k));
    }
  }

  lemma ConsAround(y: int, a: seq<int>, x: int, b: seq<int>)
    ensures [y] + (a + [x] + b) == ([y] + a) + [x] + b
  {
  }

  lemma {:induction false} DropAround(a: seq<int>, x: int, b: seq<int>, k: int)
    requires Sorted(a + [x] + b)
    ensures Drop(a + [x] + b, k) == if k < x then Drop(a, k) + [x] + b else if k > x then a + [x] + Drop(b, k) else a + b
  {
    hide Drop, Sorted;
    if a == [] {
      assert a + [x] + b == [x] + b;
      DropFirst(x, b, k);
    } else {
      Uncons(a, x, b);
      DropCons(a[0], a[1..] + [x] + b, k);
      DropCons(a[0], a[1..], k);
      if a[0] == k && k == x {
        AllSame(a + [x] + b, |a|);
        ShiftSame(a, x, b);
      } else {
        DropAround(a[1..], x, b, k);
      }
    }
  }

  lemma DropFirst(x: int, b: seq<int>, k: int)
    requires Sorted([x] + b)
    ensures Drop([x] + b, k) == if k < x then [x] + b else if k > x then [x] + Drop(b, k) else b
    ensures Drop([], k) == []
  {
    hide Drop, Sorted;
    DropCons(x, b, k);
    if k < x {
      SortedTail([x] + b);
      assert ([x] + b)[1..] == b;
      DropAbsent(b, k);
    }
  }

  lemma {:induction false} DropAbsent(s: seq<int>, k: int)
    requires forall y :: y in s ==> y != k
    ensures Drop(s, k) == s
  {
    if s != [] {
      assert s[0] in s;
      assert forall y :: y in s[1..] ==> y in s;
      DropAbsent(s[1..], k);
    }
  }

  lemma AllSame(s: seq<int>, n: nat)
    requires Sorted(s) && n < |s| && s[0] == s[n]
    ensures forall i :: 0 <= i <= n ==> s[i] == s[0]
  {
  }

  lemma ShiftSame(a: seq<int>, x: int, b: seq<int>)
    requires forall i :: 0 <= i <= |a| ==> (a + [x] + b)[i] == x
    ensures (a + [x] + b)[1..] == a + b
  {
    var s := a + [x] + b;
    forall i | 0 <= i < |a| + |b| ensures s[1..][i] == (a + b)[i] {
      assert i < |a| ==> s[i] == a[i] && s[i + 1] == x;
    }
  }

  lemma SortedParts(p: Tree)
    requires p.Node? && Ordered(p)
    ensures Ordered(p.left) && Ordered(p.right) && Sorted(InOrder(p.left) + [p.key] + InOrder(p.right))
  {
    var s := InOrder(p);
    var n := |InOrder(p.left)|;
    assert InOrder(p.left) == s[..n] && InOrder(p.right) == s[n + 1..];
  }

  function Insert(p: Tree, k: int): (r: Tree)
    requires Avl(p)
    ensures Avl(r) && Height(p) <= Height(r) <= Height(p) + 1
  {
    if p.Nil? then Node(k, 1, Nil, Nil)
    else
      var q := if k < p.key then p.(left := Insert(p.left, k)) else p.(right := Insert(p.right, k));
      BalanceShape(q);
      Balance(q)
  }

  /** Insertion is insertion into the sorted sequence of keys. */
  lemma {:induction false} InsertIsPut(p: Tree, k: int)
    requires Avl(p) && Ordered(p)
    ensures InOrder(Insert(p, k)) == Put(InOrder(p), k)
  {
    if p.Node? {
      SortedParts(p);
      PutAround(InOrder(p.left), p.key, InOrder(p.right), k);
      if k < p.key {
        InsertIsPut(p.left, k);
        BalanceKeys(p.(left := Insert(p.left, k)));
      } else {
        InsertIsPut(p.right, k);
        BalanceKeys(p.(right := Insert(p.right, k)));
      }
    }
  }

  /** Insertion adds exactly the key and keeps the order. */
  lemma InsertMeaning(p: Tree, k: int)
    requires Avl(p) && Ordered(p)
    ensures Ordered(Insert(p, k)) && multiset(InOrder(Insert(p, k))) == multiset(InOrder(p)) + multiset{k}
  {
    InsertIsPut(p, k);
    PutKeepsSorted(InOrder(p), k);
    PutKeys(InOrder(p), k);
  }

  function FindMin(p: Tree): Tree
    requires p.Node?
  {
    if p.left.Node? then FindMin(p.left) else p
  }

  lemma FindMinIsNode(p: Tree)
    requires p.Node?
    ensures FindMin(p).Node?
  {
  }

  function RemoveMin(p: Tree): (r: Tree)
    requires Avl(p) && p.Node?
    ensures Avl(r) && Height(p) - 1 <= Height(r) <= Height(p)
  {
    if p.left.Nil? then p.right
    else
      var q := p.(left := RemoveMin(p.left));
      BalanceShape(q);
      Balance(q)
  }

  /** FindMin finds the first key and RemoveMin takes it out. */
  lemma {:induction false} RemoveMinMeaning(p: Tree)
    requires Avl(p) && p.Node?
    ensures FindMin(p).Node? && InOrder(p) == [FindMin(p).key] + InOrder(RemoveMin(p))
  {
    if p.left.Node? {
      RemoveMinMeaning(p.left);
      BalanceKeys(p.(left := RemoveMin(p.left)));
    }
  }

  /** The node that takes the place of the removed root. */
  function Successor(p: Tree): (q: Tree)
    requires Avl(p) && p.Node? && p.right.Node?
    ensures NearlyAvl(q)
  {
    FindMinIsNode(p.right);
    FindMin(p.right).(right := RemoveMin(p.right), left := p.left)
  }

  /** The part of remove where the key is found. */
  function RemoveRoot(p: Tree): (r: Tree)
    requires Avl(p) && p.Node?
    ensures Avl(r) && Height(p) - 1 <= Height(r) <= Height(p)
  {
    if p.right.Nil? then p.left
    else
      BalanceShape(Successor(p));
      Balance(Successor(p))
  }

  function Remove(p: Tree, k: int): (r: Tree)
    requires Avl(p)
    ensures Avl(r) && Height(p) - 1 <= Height(r) <= Height(p)
  {
    if p.Nil? then Nil
    else if k == p.key then RemoveRoot(p)
    else
      var q := if k < p.key then p.(left := Remove(p.left, k)) else p.(right := Remove(p.right, k));
      BalanceShape(q);
      Balance(q)
  }

  lemma InOrderNode(q: Tree)
    requires q.Node?
    ensures InOrder(q) == InOrder(q.left) + [q.key] + InOrder(q.right)
  {
  }

  lemma MoveBracket(l: seq<int>, k: int, r: seq<int>, s: seq<int>)
    requires s == [k] + r
    ensures l + [k] + r == l + s
  {
  }

  lemma SuccessorKeys(p: Tree)
    requires Avl(p) && p.Node? && p.right.Node?
    ensures InOrder(Successor(p)) == InOrder(p.left) + InOrder(p.right)
  {
    RightAvl(p);
    hide InOrder, Avl, FindMin, RemoveMin, NearlyAvl;
    RemoveMinMeaning(p.right);
    var q := Successor(p);
    InOrderNode(q);
    MoveBracket(InOrder(p.left), q.key, InOrder(q.right), InOrder(p.right));
  }

  lemma RightAvl(p: Tree)
    requires Avl(p) && p.Node?
    ensures Avl(p.right)
  {
  }

  lemma RemoveRootKeys(p: Tree)
    requires Avl(p) && p.Node?
    ensures InOrder(RemoveRoot(p)) == InOrder(p.left) + InOrder(p.right)
  {
    if p.right.Node? {
      SuccessorKeys(p);
      BalanceKeys(Successor(p));
      hide Balance, Avl, InOrder, Successor;
    } else {
      assert InOrder(p.left) + [] == InOrder(p.left);
    }
  }

  /** Removal is removal from the sorted sequence of keys. */
  lemma {:induction false} RemoveIsDrop(p: Tree, k: int)
    requires Avl(p) && Ordered(p)
    ensures InOrder(Remove(p, k)) == Drop(InOrder(p), k)
  {
    if p.Node? {
      SortedParts(p);
      DropAround(InOrder(p.left), p.key, InOrder(p.right), k);
      hide Drop, Sorted, Balance, Ordered;
      if k < p.key {
        RemoveIsDrop(p.left, k);
        BalanceKeys(p.(left := Remove(p.left, k)));
      } else if k > p.key {
        RemoveIsDrop(p.right, k);
        BalanceKeys(p.(right := Remove(p.right, k)));
      } else {
        RemoveRootKeys(p);
      }
    }
  }

  /** Removal takes out exactly one occurrence of the key, nothing when it is absent, and keeps the order. */
  lemma RemoveMeaning(p: Tree, k: int)
    requires Avl(p) && Ordered(p)
    ensures Ordered(Remove(p, k)) && multiset(InOrder(Remove(p, k))) == multiset(InOrder(p)) - multiset{k}
  {
    RemoveIsDrop(p, k);
    DropKeepsSorted(InOrder(p), k);
    DropKeys(InOrder(p), k);
  }
}
