/** The page index: a three-level radix tree with reference counts and shared empty levels. */
module IndexTree {
  import opened Common

  const PAGE_SIZE: nat := 4096

  /** Slots of a level: twelve bits of the address at each. */
  const LEVEL_SIZE: nat := 4096

  const POINTER_SPAN: nat := 0x1_0000_0000_0000

  type Descriptor = nat

  /** splitter::split: which slot to take at each level. */
  datatype Path = Path(i: nat, j: nat, k: nat)

  predicate InRange(p: Path) {
    p.i < LEVEL_SIZE && p.j < LEVEL_SIZE && p.k < LEVEL_SIZE
  }

  function Split(addr: nat): Path {
    var x := addr % POINTER_SPAN;
    Path(x / 0x10_0000_0000, (x / 0x100_0000) % 0x1000, (x / 0x1000) % 0x1000)
  }

  function PageOf(addr: nat): nat {
    addr % POINTER_SPAN / PAGE_SIZE
  }

  lemma SplitInRange(addr: nat)
    ensures InRange(Split(addr))
    ensures PageOf(addr) == Split(addr).i * 0x100_0000 + Split(addr).j * 0x1000 + Split(addr).k
  {
    var x := addr % POINTER_SPAN;
    assert x / 0x100_0000 == (x / 0x1000) / 0x1000;
    assert x / 0x10_0000_0000 == (x / 0x100_0000) / 0x1000;
  }

  /** Two addresses take the same path exactly when they are in the same page. */
  lemma SplitSeparatesPages(a: nat, b: nat)
    ensures Split(a) == Split(b) <==> PageOf(a) == PageOf(b)
  {
    SplitInRange(a);
    SplitInRange(b);
  }

  datatype Handle = Handle(ptr: nat, cnt: nat)

  /** The shared empty level of either kind. */
  const NULL: nat := 0

  /** All levels: the first, the second-level ones and the last-level ones by name. */
  datatype Tree = Tree(first: seq<Handle>, second: map<nat, seq<Handle>>, third: map<nat, seq<Option<Descriptor>>>)

  predicate Shaped(t: Tree) {
    && |t.first| == LEVEL_SIZE
    && (forall id :: id in t.second ==> |t.second[id]| == LEVEL_SIZE)
    && (forall id :: id in t.third ==> |t.third[id]| == LEVEL_SIZE)
  }

  /** The shared levels exist and are empty. */
  predicate NullsClean(t: Tree)
    requires Shaped(t)
  {
    && NULL in t.second && NULL in t.third
    && (forall j: nat :: j < LEVEL_SIZE ==> t.second[NULL][j] == Handle(NULL, 0))
    && (forall k: nat :: k < LEVEL_SIZE ==> t.third[NULL][k] == None)
  }

  type Pages = map<Path, Descriptor>

  function Under1(m: Pages, i: nat): set<Path> {
    set p | p in m && p.i == i
  }

  function Under2(m: Pages, i: nat, j: nat): set<Path> {
    set p | p in m && p.i == i && p.j == j
  }

  function Lookup(m: Pages, p: Path): Option<Descriptor> {
    if p in m then Some(m[p]) else None
  }

  /** Which slot each allocated level hangs from. */
  datatype Owners = Owners(second: map<nat, nat>, third: map<nat, (nat, nat)>)

  predicate FirstOk(t: Tree, m: Pages, o: Owners, i: nat)
    requires Shaped(t) && i < LEVEL_SIZE
  {
    var h := t.first[i];
    && h.cnt == |Under1(m, i)|
    && (h.ptr == NULL <==> h.cnt == 0)
    && (h.ptr != NULL ==> h.ptr in t.second && h.ptr in o.second && o.second[h.ptr] == i)
  }

  predicate SecondOk(t: Tree, m: Pages, o: Owners, id: nat, j: nat)
    requires Shaped(t) && id in t.second && j < LEVEL_SIZE && id in o.second
  {
    var h := t.second[id][j];
    && h.cnt == |Under2(m, o.second[id], j)|
    && (h.ptr == NULL <==> h.cnt == 0)
    && (h.ptr != NULL ==> h.ptr in t.third && h.ptr in o.third && o.third[h.ptr] == (o.second[id], j))
  }

  predicate ThirdOk(t: Tree, m: Pages, o: Owners, id: nat, k: nat)
    requires Shaped(t) && id in t.third && k < LEVEL_SIZE && id in o.third
  {
    t.third[id][k] == Lookup(m, Path(o.third[id].0, o.third[id].1, k))
  }

  predicate SecondOwned(t: Tree, o: Owners, id: nat)
    requires Shaped(t)
  {
    id in o.second && o.second[id] < LEVEL_SIZE && t.first[o.second[id]].ptr == id
  }

  predicate ThirdOwned(t: Tree, o: Owners, id: nat)
    requires Shaped(t)
  {
    && id in o.third && o.third[id].0 < LEVEL_SIZE && o.third[id].1 < LEVEL_SIZE
    && var s := t.first[o.third[id].0].ptr;
       s != NULL && s in t.second && t.second[s][o.third[id].1].ptr == id
  }

  /** Every allocated level hangs from the slot that owns it, so no two slots share one. */
  predicate Owned(t: Tree, o: Owners)
    requires Shaped(t)
  {
    && (forall id :: id in t.second && id != NULL ==> SecondOwned(t, o, id))
    && (forall id :: id in t.third && id != NULL ==> ThirdOwned(t, o, id))
  }

  predicate Inv(t: Tree, m: Pages, o: Owners) {
    && Shaped(t) && NullsClean(t) && Owned(t, o)
    && (forall p :: p in m ==> InRange(p))
    && (forall i: nat :: i < LEVEL_SIZE ==> FirstOk(t, m, o, i))
    && (forall id, j: nat :: id in t.second && id != NULL && j < LEVEL_SIZE ==> SecondOk(t, m, o, id, j))
    && (forall id, k: nat :: id in t.third && id != NULL && k < LEVEL_SIZE ==> ThirdOk(t, m, o, id, k))
  }

  // ---- Reading

  predicate Descends(t: Tree, p: Path) {
    && Shaped(t) && InRange(p)
    && t.first[p.i].ptr in t.second && t.second[t.first[p.i].ptr][p.j].ptr in t.third
  }

  /** index_tree::get_descriptor: three loads, never a test for emptiness. */
  function Get(t: Tree, p: Path): Option<Descriptor>
    requires Descends(t, p)
  {
    t.third[t.second[t.first[p.i].ptr][p.j].ptr][p.k]
  }

  lemma UnderMember(m: Pages, p: Path)
    ensures p in m ==> p in Under2(m, p.i, p.j) && p in Under1(m, p.i)
  {
  }

  /** The tree answers like the page map, present or absent. */
  lemma GetIsLookup(t: Tree, m: Pages, o: Owners, p: Path)
    requires Inv(t, m, o) && InRange(p)
    ensures Descends(t, p) && Get(t, p) == Lookup(m, p)
  {
    UnderMember(m, p);
    assert FirstOk(t, m, o, p.i);
    var s := t.first[p.i].ptr;
    if s != NULL {
      assert SecondOk(t, m, o, s, p.j);
      var l := t.second[s][p.j].ptr;
      if l != NULL {
        assert ThirdOk(t, m, o, l, p.k);
      }
    }
  }

  /** The levels that exist besides the shared ones are exactly those that a page hangs from. */
  lemma LevelsInUse(t: Tree, m: Pages, o: Owners, id: nat)
    requires Inv(t, m, o) && id != NULL
    ensures id in t.second <==> exists p :: p in m && t.first[p.i].ptr == id
    ensures id in t.third <==> exists p :: p in m && Descends(t, p) && t.second[t.first[p.i].ptr][p.j].ptr == id
  {
    if id in t.second {
      assert FirstOk(t, m, o, o.second[id]);
      var p :| p in Under1(m, o.second[id]);
      assert p in m && t.first[p.i].ptr == id;
    }
    if id in t.third {
      assert ThirdOwned(t, o, id);
      var i, j := o.third[id].0, o.third[id].1;
      assert FirstOk(t, m, o, i) && SecondOk(t, m, o, t.first[i].ptr, j);
      var p :| p in Under2(m, i, j);
      assert p in m && Descends(t, p) && t.second[t.first[p.i].ptr][p.j].ptr == id;
    }
    forall p | p in m ensures Descends(t, p) && t.first[p.i].ptr in t.second {
      GetIsLookup(t, m, o, p);
    }
  }

  // ---- Adding a page

  /** The tree after one page is added; `s'` and `l'` name the levels made for it, if any. */
  function Inserted(t: Tree, p: Path, d: Descriptor, s': nat, l': nat): Tree
    requires Descends(t, p)
  {
    var h1 := t.first[p.i];
    var h2 := t.second[h1.ptr][p.j];
    var s := if h1.ptr == NULL then s' else h1.ptr;
    var l := if h2.ptr == NULL then l' else h2.ptr;
    Tree(
      t.first[p.i := Handle(s, h1.cnt + 1)],
      t.second[s := t.second[h1.ptr][p.j := Handle(l, h2.cnt + 1)]],
      t.third[l := t.third[h2.ptr][p.k := Some(d)]])
  }

  function OwnersAfter(t: Tree, o: Owners, p: Path, s': nat, l': nat): Owners
    requires Descends(t, p)
  {
    var h1 := t.first[p.i];
    var h2 := t.second[h1.ptr][p.j];
    Owners(
      if h1.ptr == NULL then o.second[s' := p.i] else o.second,
      if h2.ptr == NULL then o.third[l' := (p.i, p.j)] else o.third)
  }

  lemma UnderAdded(m: Pages, p: Path, d: Descriptor, i: nat, j: nat)
    requires p !in m
    ensures |Under1(m[p := d], i)| == |Under1(m, i)| + (if p.i == i then 1 else 0)
    ensures |Under2(m[p := d], i, j)| == |Under2(m, i, j)| + (if p.i == i && p.j == j then 1 else 0)
  {
    Under1Added(m, p, d, i);
    Under2Added(m, p, d, i, j);
  }

  lemma Under1Added(m: Pages, p: Path, d: Descriptor, i: nat)
    requires p !in m
    ensures |Under1(m[p := d], i)| == |Under1(m, i)| + (if p.i == i then 1 else 0)
  {
    assert Under1(m[p := d], i) == if p.i == i then Under1(m, i) + {p} else Under1(m, i);
  }

  lemma Under2Added(m: Pages, p: Path, d: Descriptor, i: nat, j: nat)
    requires p !in m
    ensures |Under2(m[p := d], i, j)| == |Under2(m, i, j)| + (if p.i == i && p.j == j then 1 else 0)
  {
    assert Under2(m[p := d], i, j) == if p.i == i && p.j == j then Under2(m, i, j) + {p} else Under2(m, i, j);
  }

  lemma EmptyBelow(m: Pages, i: nat, j: nat)
    requires |Under1(m, i)| == 0
    ensures |Under2(m, i, j)| == 0
  {
    assert Under1(m, i) == {};
    assert Under2(m, i, j) == {};
  }

  predicate Fresh(t: Tree, s': nat, l': nat) {
    s' != NULL && s' !in t.second && l' != NULL && l' !in t.third
  }

  lemma InsertFirst(t: Tree, m: Pages, o: Owners, p: Path, d: Descriptor, s': nat, l': nat, i: nat)
    requires Inv(t, m, o) && Descends(t, p) && p !in m && Fresh(t, s', l') && i < LEVEL_SIZE
    ensures Shaped(Inserted(t, p, d, s', l')) && FirstOk(Inserted(t, p, d, s', l'), m[p := d], OwnersAfter(t, o, p, s', l'), i)
  {
    assert FirstOk(t, m, o, i) && FirstOk(t, m, o, p.i);
    UnderAdded(m, p, d, i, 0);
  }

  lemma InsertSecond(t: Tree, m: Pages, o: Owners, p: Path, d: Descriptor, s': nat, l': nat, id: nat, j: nat)
    requires Inv(t, m, o) && Descends(t, p) && p !in m && Fresh(t, s', l') && j < LEVEL_SIZE
    requires id in Inserted(t, p, d, s', l').second && id != NULL
    ensures Shaped(Inserted(t, p, d, s', l')) && id in OwnersAfter(t, o, p, s', l').second
    ensures SecondOk(Inserted(t, p, d, s', l'), m[p := d], OwnersAfter(t, o, p, s', l'), id, j)
  {
    assert FirstOk(t, m, o, p.i);
    var i := OwnersAfter(t, o, p, s', l').second[id];
    UnderAdded(m, p, d, i, j);
    if id in t.second {
      assert SecondOk(t, m, o, id, j);
    } else {
      EmptyBelow(m, p.i, j);
    }
  }

  lemma InsertThird(t: Tree, m: Pages, o: Owners, p: Path, d: Descriptor, s': nat, l': nat, id: nat, k: nat)
    requires Inv(t, m, o) && Descends(t, p) && p !in m && Fresh(t, s', l') && k < LEVEL_SIZE
    requires id in Inserted(t, p, d, s', l').third && id != NULL
    ensures Shaped(Inserted(t, p, d, s', l')) && id in OwnersAfter(t, o, p, s', l').third
    ensures ThirdOk(Inserted(t, p, d, s', l'), m[p := d], OwnersAfter(t, o, p, s', l'), id, k)
  {
    assert FirstOk(t, m, o, p.i);
    var s := t.first[p.i].ptr;
    if s != NULL {
      assert SecondOk(t, m, o, s, p.j);
    } else {
      EmptyBelow(m, p.i, p.j);
    }
    if id in t.third {
      assert ThirdOk(t, m, o, id, k);
    } else {
      UnderMember(m, Path(p.i, p.j, k));
      assert Under2(m, p.i, p.j) == {};
    }
  }

  lemma InsertClean(t: Tree, m: Pages, o: Owners, p: Path, d: Descriptor, s': nat, l': nat)
    requires Inv(t, m, o) && Descends(t, p) && Fresh(t, s', l')
    ensures Shaped(Inserted(t, p, d, s', l')) && NullsClean(Inserted(t, p, d, s', l'))
  {
    assert FirstOk(t, m, o, p.i);
    if t.first[p.i].ptr != NULL {
      assert SecondOk(t, m, o, t.first[p.i].ptr, p.j);
    }
  }

  lemma InsertThirdOwned(t: Tree, m: Pages, o: Owners, p: Path, d: Descriptor, s': nat, l': nat, id: nat)
    requires Inv(t, m, o) && Descends(t, p) && Fresh(t, s', l') && Shaped(Inserted(t, p, d, s', l'))
    requires id in Inserted(t, p, d, s', l').third && id != NULL
    ensures ThirdOwned(Inserted(t, p, d, s', l'), OwnersAfter(t, o, p, s', l'), id)
  {
    assert FirstOk(t, m, o, p.i);
    if t.first[p.i].ptr != NULL {
      assert SecondOk(t, m, o, t.first[p.i].ptr, p.j);
    }
    if id in t.third {
      assert ThirdOwned(t, o, id);
    }
    hide FirstOk, SecondOk, ThirdOk, Inv;
  }

  lemma InsertSecondOwned(t: Tree, m: Pages, o: Owners, p: Path, d: Descriptor, s': nat, l': nat, id: nat)
    requires Inv(t, m, o) && Descends(t, p) && Fresh(t, s', l') && Shaped(Inserted(t, p, d, s', l'))
    requires id in Inserted(t, p, d, s', l').second && id != NULL
    ensures SecondOwned(Inserted(t, p, d, s', l'), OwnersAfter(t, o, p, s', l'), id)
  {
    assert FirstOk(t, m, o, p.i);
    if id in t.second {
      assert SecondOwned(t, o, id);
    }
    hide FirstOk, SecondOk, ThirdOk, Inv;
  }

  /** Adding a page that is not there adds exactly it, and keeps counts, sharing and ownership. */
  lemma InsertKeepsInv(t: Tree, m: Pages, o: Owners, p: Path, d: Descriptor, s': nat, l': nat)
    requires Inv(t, m, o) && Descends(t, p) && p !in m && Fresh(t, s', l')
    ensures Inv(Inserted(t, p, d, s', l'), m[p := d], OwnersAfter(t, o, p, s', l'))
  {
    var t', m', o' := Inserted(t, p, d, s', l'), m[p := d], OwnersAfter(t, o, p, s', l');
    InsertClean(t, m, o, p, d, s', l');
    forall id | id in t'.second && id != NULL ensures SecondOwned(t', o', id) {
      InsertSecondOwned(t, m, o, p, d, s', l', id);
    }
    forall id | id in t'.third && id != NULL ensures ThirdOwned(t', o', id) {
      InsertThirdOwned(t, m, o, p, d, s', l', id);
    }
    forall i: nat | i < LEVEL_SIZE ensures FirstOk(t', m', o', i) {
      InsertFirst(t, m, o, p, d, s', l', i);
    }
    forall id, j: nat | id in t'.second && id != NULL && j < LEVEL_SIZE ensures id in o'.second && SecondOk(t', m', o', id, j) {
      InsertSecond(t, m, o, p, d, s', l', id, j);
    }
    forall id, k: nat | id in t'.third && id != NULL && k < LEVEL_SIZE ensures id in o'.third && ThirdOk(t', m', o', id, k) {
      InsertThird(t, m, o, p, d, s', l', id, k);
    }
  }

  // ---- Removing a page

  /** The tree after the page at `p` is removed; a level whose count drops to zero is given back. */
  function Removed(t: Tree, p: Path): Tree
    requires Descends(t, p) && t.first[p.i].cnt > 0 && t.second[t.first[p.i].ptr][p.j].cnt > 0
  {
    var s := t.first[p.i].ptr;
    var h2 := t.second[s][p.j];
    var third := t.third[h2.ptr := t.third[h2.ptr][p.k := None]];
    var second := t.second[s := t.second[s][p.j := if h2.cnt == 1 then Handle(NULL, 0) else Handle(h2.ptr, h2.cnt - 1)]];
    Tree(
      t.first[p.i := if t.first[p.i].cnt == 1 then Handle(NULL, 0) else Handle(s, t.first[p.i].cnt - 1)],
      if t.first[p.i].cnt == 1 then second - {s} else second,
      if h2.cnt == 1 then third - {h2.ptr} else third)
  }

  lemma UnderRemoved(m: Pages, p: Path, i: nat, j: nat)
    requires p in m
    ensures |Under1(m - {p}, i)| == |Under1(m, i)| - (if p.i == i then 1 else 0)
    ensures |Under2(m - {p}, i, j)| == |Under2(m, i, j)| - (if p.i == i && p.j == j then 1 else 0)
  {
    var m' := m - {p};
    assert Under1(m', i) == if p.i == i then Under1(m, i) - {p} else Under1(m, i);
    assert Under2(m', i, j) == if p.i == i && p.j == j then Under2(m, i, j) - {p} else Under2(m, i, j);
  }

  /** When only the page itself is below the first slot, only it is below the second. */
  lemma OnlyOneBelow(m: Pages, p: Path)
    requires p in m && |Under1(m, p.i)| == 1
    ensures |Under2(m, p.i, p.j)| == 1 && forall q :: q in m && q.i == p.i ==> q == p
  {
    assert p in Under1(m, p.i);
    assert |Under1(m, p.i) - {p}| == 0;
    forall q | q in m && q.i == p.i ensures q == p {
      assert q in Under1(m, p.i);
      assert Under1(m, p.i) - {p} == {};
    }
    assert Under2(m, p.i, p.j) == {p};
  }

  /** A page that is there leads through allocated levels with positive counts. */
  lemma PresentDescends(t: Tree, m: Pages, o: Owners, p: Path)
    requires Inv(t, m, o) && p in m
    ensures Descends(t, p) && t.first[p.i].cnt > 0 && t.second[t.first[p.i].ptr][p.j].cnt > 0
    ensures t.first[p.i].ptr != NULL && t.second[t.first[p.i].ptr][p.j].ptr != NULL
    ensures t.first[p.i].cnt == |Under1(m, p.i)| && t.second[t.first[p.i].ptr][p.j].cnt == |Under2(m, p.i, p.j)|
    ensures t.first[p.i].ptr in o.second && o.second[t.first[p.i].ptr] == p.i
    ensures var l := t.second[t.first[p.i].ptr][p.j].ptr; l in o.third && o.third[l] == (p.i, p.j)
  {
    GetIsLookup(t, m, o, p);
    UnderMember(m, p);
    assert FirstOk(t, m, o, p.i);
    assert SecondOk(t, m, o, t.first[p.i].ptr, p.j);
  }

  lemma RemoveFirst(t: Tree, m: Pages, o: Owners, p: Path, i: nat)
    requires Inv(t, m, o) && p in m && i < LEVEL_SIZE
    requires Descends(t, p) && t.first[p.i].cnt > 0 && t.second[t.first[p.i].ptr][p.j].cnt > 0
    ensures Shaped(Removed(t, p)) && FirstOk(Removed(t, p), m - {p}, o, i)
  {
    PresentDescends(t, m, o, p);
    assert FirstOk(t, m, o, i);
    UnderRemoved(m, p, i, 0);
  }

  lemma RemoveSecond(t: Tree, m: Pages, o: Owners, p: Path, id: nat, j: nat)
    requires Inv(t, m, o) && p in m && j < LEVEL_SIZE
    requires Descends(t, p) && t.first[p.i].cnt > 0 && t.second[t.first[p.i].ptr][p.j].cnt > 0
    requires id in Removed(t, p).second && id != NULL
    ensures Shaped(Removed(t, p)) && id in o.second && SecondOk(Removed(t, p), m - {p}, o, id, j)
  {
    PresentDescends(t, m, o, p);
    assert SecondOk(t, m, o, id, j);
    UnderRemoved(m, p, o.second[id], j);
  }

  lemma RemoveThird(t: Tree, m: Pages, o: Owners, p: Path, id: nat, k: nat)
    requires Inv(t, m, o) && p in m && k < LEVEL_SIZE
    requires Descends(t, p) && t.first[p.i].cnt > 0 && t.second[t.first[p.i].ptr][p.j].cnt > 0
    requires id in Removed(t, p).third && id != NULL
    ensures Shaped(Removed(t, p)) && id in o.third && ThirdOk(Removed(t, p), m - {p}, o, id, k)
  {
    PresentDescends(t, m, o, p);
    assert ThirdOk(t, m, o, id, k);
  }

  lemma RemoveClean(t: Tree, m: Pages, o: Owners, p: Path)
    requires Inv(t, m, o) && p in m
    requires Descends(t, p) && t.first[p.i].cnt > 0 && t.second[t.first[p.i].ptr][p.j].cnt > 0
    ensures Shaped(Removed(t, p)) && NullsClean(Removed(t, p))
  {
    PresentDescends(t, m, o, p);
  }

  /** A second level is given back only together with its last child. */
  lemma RemoveOwned(t: Tree, m: Pages, o: Owners, p: Path)
    requires Inv(t, m, o) && p in m
    requires Descends(t, p) && t.first[p.i].cnt > 0 && t.second[t.first[p.i].ptr][p.j].cnt > 0
    requires Shaped(Removed(t, p))
    ensures Owned(Removed(t, p), o)
  {
    PresentDescends(t, m, o, p);
    if t.first[p.i].cnt == 1 {
      OnlyOneBelow(m, p);
      forall j: nat | j < LEVEL_SIZE && j != p.j ensures t.second[t.first[p.i].ptr][j].ptr == NULL {
        assert SecondOk(t, m, o, t.first[p.i].ptr, j);
        assert Under2(m, p.i, j) == {};
      }
    }
    hide FirstOk, SecondOk, ThirdOk;
  }

  /** Removing a page that is there removes exactly it, and keeps counts, sharing and ownership. */
  lemma RemoveKeepsInv(t: Tree, m: Pages, o: Owners, p: Path)
    requires Inv(t, m, o) && p in m
    requires Descends(t, p) && t.first[p.i].cnt > 0 && t.second[t.first[p.i].ptr][p.j].cnt > 0
    ensures Inv(Removed(t, p), m - {p}, o)
  {
    var t', m' := Removed(t, p), m - {p};
    RemoveClean(t, m, o, p);
    RemoveOwned(t, m, o, p);
    forall i: nat | i < LEVEL_SIZE ensures FirstOk(t', m', o, i) {
      RemoveFirst(t, m, o, p, i);
    }
    forall id, j: nat | id in t'.second && id != NULL && j < LEVEL_SIZE ensures id in o.second && SecondOk(t', m', o, id, j) {
      RemoveSecond(t, m, o, p, id, j);
    }
    forall id, k: nat | id in t'.third && id != NULL && k < LEVEL_SIZE ensures id in o.third && ThirdOk(t', m', o, id, k) {
      RemoveThird(t, m, o, p, id, k);
    }
  }
}
