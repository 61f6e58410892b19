/** The page index as an object: levels are created, filled, emptied and given back in place. */
module PageIndex {
  import opened Common
  import opened IndexTree

  /** The pages of the region of `size` bytes at `mem`; a last partial page counts. */
  function Region(mem: nat, size: nat): set<Path> {
    set n: nat | n < size && n * PAGE_SIZE < size :: Split(mem + n * PAGE_SIZE)
  }

  function WithRegion(m: Pages, ps: set<Path>, d: Descriptor): Pages {
    map p | p in m.Keys + ps :: if p in ps then d else m[p]
  }

  lemma RegionGrows(mem: nat, n: nat)
    ensures Region(mem, (n + 1) * PAGE_SIZE) == Region(mem, n * PAGE_SIZE) + {Split(mem + n * PAGE_SIZE)}
  {
    forall p | p in Region(mem, n * PAGE_SIZE) ensures p in Region(mem, (n + 1) * PAGE_SIZE) {
      var k: nat :| k < n * PAGE_SIZE && k * PAGE_SIZE < n * PAGE_SIZE && p == Split(mem + k * PAGE_SIZE);
      assert k < (n + 1) * PAGE_SIZE && k * PAGE_SIZE < (n + 1) * PAGE_SIZE;
    }
    assert n < (n + 1) * PAGE_SIZE && n * PAGE_SIZE < (n + 1) * PAGE_SIZE;
    assert Split(mem + n * PAGE_SIZE) in Region(mem, (n + 1) * PAGE_SIZE);
  }

  lemma RegionSame(mem: nat, size: nat, n: nat)
    requires size <= n * PAGE_SIZE < size + PAGE_SIZE
    ensures Region(mem, size) == Region(mem, n * PAGE_SIZE)
  {
    forall k: nat ensures k < size && k * PAGE_SIZE < size <==> k < n * PAGE_SIZE && k * PAGE_SIZE < n * PAGE_SIZE {
      SamePages(size, n, k);
    }
  }

  lemma SamePages(size: nat, n: nat, k: nat)
    requires size <= n * PAGE_SIZE < size + PAGE_SIZE
    ensures k < size && k * PAGE_SIZE < size <==> k < n * PAGE_SIZE && k * PAGE_SIZE < n * PAGE_SIZE
  {
  }

  /** A region has exactly the pages of its addresses. */
  lemma RegionIsPages(mem: nat, size: nat, p: Path)
    requires mem % PAGE_SIZE == 0
    ensures p in Region(mem, size) <==> exists a :: mem <= a < mem + size && Split(a) == p
  {
    if p in Region(mem, size) {
      var n: nat :| n < size && n * PAGE_SIZE < size && p == Split(mem + n * PAGE_SIZE);
      assert mem <= mem + n * PAGE_SIZE < mem + size;
    }
    if a :| mem <= a < mem + size && Split(a) == p {
      var n := (a - mem) / PAGE_SIZE;
      SamePage(mem, a, n);
      SplitSeparatesPages(a, mem + n * PAGE_SIZE);
      assert n < size && n * PAGE_SIZE < size;
    }
  }

  lemma SamePage(mem: nat, a: nat, n: nat)
    requires mem % PAGE_SIZE == 0 && mem <= a && n == (a - mem) / PAGE_SIZE
    ensures PageOf(a) == PageOf(mem + n * PAGE_SIZE)
  {
    var h := 0x10_0000_0000;
    var q, r := mem / PAGE_SIZE + n, (a - mem) % PAGE_SIZE;
    assert a == q * PAGE_SIZE + r && mem + n * PAGE_SIZE == q * PAGE_SIZE;
    AlignedPage(q);
    assert a == (q / h) * POINTER_SPAN + ((q % h) * PAGE_SIZE + r);
    assert a % POINTER_SPAN == (q % h) * PAGE_SIZE + r;
  }

  /** Pages of a region that does not span the whole address space are all different. */
  lemma RegionDistinct(mem: nat, n: nat)
    requires mem % PAGE_SIZE == 0 && n * PAGE_SIZE < POINTER_SPAN
    ensures Split(mem + n * PAGE_SIZE) !in Region(mem, n * PAGE_SIZE)
  {
    if Split(mem + n * PAGE_SIZE) in Region(mem, n * PAGE_SIZE) {
      var k: nat :| k < n * PAGE_SIZE && k * PAGE_SIZE < n * PAGE_SIZE && Split(mem + n * PAGE_SIZE) == Split(mem + k * PAGE_SIZE);
      SplitSeparatesPages(mem + n * PAGE_SIZE, mem + k * PAGE_SIZE);
      PagesDiffer(mem, k, n);
    }
  }

  lemma PagesDiffer(mem: nat, k: nat, n: nat)
    requires mem % PAGE_SIZE == 0 && k < n && n * PAGE_SIZE < POINTER_SPAN
    ensures PageOf(mem + n * PAGE_SIZE) != PageOf(mem + k * PAGE_SIZE)
  {
    hide PageOf;
    var q := mem / PAGE_SIZE;
    assert mem == q * PAGE_SIZE;
    assert mem + n * PAGE_SIZE == (q + n) * PAGE_SIZE && mem + k * PAGE_SIZE == (q + k) * PAGE_SIZE;
    AlignedPage(q + n);
    AlignedPage(q + k);
    Remainders(q + k, n - k);
  }

  lemma Remainders(a: nat, d: nat)
    requires 0 < d < 0x10_0000_0000
    ensures (a + d) % 0x10_0000_0000 != a % 0x10_0000_0000
  {
  }

  lemma AlignedPage(q: nat)
    ensures PageOf(q * PAGE_SIZE) == q % 0x10_0000_0000
  {
    var h := 0x10_0000_0000;
    assert q * PAGE_SIZE == (q / h) * POINTER_SPAN + (q % h) * PAGE_SIZE;
    assert (q * PAGE_SIZE) % POINTER_SPAN == (q % h) * PAGE_SIZE;
  }

  predicate Bounded(t: Tree, next: nat) {
    next != NULL && (forall id :: id in t.second ==> id < next) && (forall id :: id in t.third ==> id < next)
  }

  lemma InsertBounded(t: Tree, p: Path, d: Descriptor, s': nat, l': nat, next: nat, next': nat)
    requires Descends(t, p) && Bounded(t, next) && next <= next'
    requires t.first[p.i].ptr == NULL ==> s' < next'
    requires t.second[t.first[p.i].ptr][p.j].ptr == NULL ==> l' < next'
    ensures Bounded(Inserted(t, p, d, s', l'), next')
  {
  }

  lemma TwiceSet(m: map<nat, seq<Handle>>, id: nat, j: nat, h: Handle, g: Handle)
    requires id in m && j < |m[id]|
    ensures m[id := m[id][j := g]][id := m[id][j := g][j := h]] == m[id := m[id][j := h]]
  {
    assert m[id][j := g][j := h] == m[id][j := h];
  }

  lemma Nulls(t: Tree, m: Pages, o: Owners, next: nat)
    requires Inv(t, m, o) && Bounded(t, next)
    ensures NULL in t.second && NULL in t.third && Fresh(t, next, next) && Fresh(t, next, next + 1)
  {
  }

  lemma WithNone(m: Pages, d: Descriptor)
    ensures WithRegion(m, {}, d) == m
  {
  }

  lemma WithOneMore(m: Pages, ps: set<Path>, p: Path, d: Descriptor)
    ensures WithRegion(m, ps, d)[p := d] == WithRegion(m, ps + {p}, d)
    ensures p !in m && p !in ps ==> p !in WithRegion(m, ps, d)
  {
  }

  lemma WithoutOneMore(m: Pages, ps: set<Path>, p: Path)
    ensures m - ps - {p} == m - (ps + {p})
    ensures p in m && p !in ps ==> p in m - ps
  {
  }

  lemma NoPages(mem: nat)
    ensures Region(mem, 0) == {}
  {
  }

  class Index {
    var first: seq<Handle>
    var second: map<nat, seq<Handle>>
    var third: map<nat, seq<Option<Descriptor>>>
    var nextId: nat
    ghost var pages: Pages
    ghost var owners: Owners

    ghost function Snap(): Tree
      reads this
    {
      Tree(first, second, third)
    }

    ghost predicate Valid()
      reads this
    {
      Inv(Snap(), pages, owners) && Bounded(Snap(), nextId)
    }

    /** index_tree::init and the constructor: empty first level, the two shared empty levels. */
    constructor ()
      ensures Valid() && pages == map[]
    {
      first := seq(LEVEL_SIZE, _ => Handle(NULL, 0));
      second := map[NULL := seq(LEVEL_SIZE, _ => Handle(NULL, 0))];
      third := map[NULL := seq(LEVEL_SIZE, _ => None)];
      nextId := 1;
      pages := map[];
      owners := Owners(map[], map[]);
    }

    method GetDescriptor(addr: nat) returns (r: Option<Descriptor>)
      requires Valid()
      ensures r == Lookup(pages, Split(addr))
    {
      SplitInRange(addr);
      var p := Split(addr);
      GetIsLookup(Snap(), pages, owners, p);
      r := third[second[first[p.i].ptr][p.j].ptr][p.k];
    }

    /** last_level::index. */
    method IndexLast(id: nat, k: nat, d: Descriptor)
      requires id in third && k < |third[id]|
      modifies this
      ensures Snap() == old(Snap()).(third := old(third)[id := old(third)[id][k := Some(d)]])
      ensures nextId == old(nextId) && pages == old(pages) && owners == old(owners)
    {
      third := third[id := third[id][k := Some(d)]];
    }

    /** internal_level::index of a second level: count up, then go down, through a new copy if need be. */
    method IndexSecond(id: nat, j: nat, k: nat, d: Descriptor)
      requires id in second && j < |second[id]| && second[id][j].ptr in third && NULL in third
      requires k < |third[second[id][j].ptr]| && (second[id][j].ptr == NULL ==> nextId !in third)
      modifies this
      ensures var h := old(second)[id][j]; var l := if h.ptr == NULL then old(nextId) else h.ptr;
        Snap() == Tree(old(first), old(second)[id := old(second)[id][j := Handle(l, h.cnt + 1)]],
                       old(third)[l := old(third)[h.ptr][k := Some(d)]])
      ensures nextId == old(nextId) + (if old(second)[id][j].ptr == NULL then 1 else 0)
      ensures pages == old(pages) && owners == old(owners)
    {
      second := second[id := second[id][j := Handle(second[id][j].ptr, second[id][j].cnt + 1)]];
      var next := second[id][j].ptr;
      if next == NULL {
        var level := nextId;
        nextId := nextId + 1;
        third := third[level := third[NULL]];
        IndexLast(level, k, d);
        second := second[id := second[id][j := Handle(level, second[id][j].cnt)]];
      } else {
        IndexLast(next, k, d);
      }
      TwiceSet(old(second), id, j, second[id][j], Handle(old(second)[id][j].ptr, old(second)[id][j].cnt + 1));
    }

    /** add_page_to_index, with internal_level::index of the first level. */
    method AddPage(addr: nat, d: Descriptor)
      requires Valid() && Split(addr) !in pages
      modifies this
      ensures Valid() && pages == old(pages)[Split(addr) := d]
    {
      hide Inv, FirstOk, SecondOk, ThirdOk, Owned, NullsClean, Lookup, OwnersAfter, Split, Bounded, Get;
      SplitInRange(addr);
      var p := Split(addr);
      ghost var t, n := Snap(), nextId;
      GetIsLookup(t, pages, owners, p);
      Nulls(t, pages, owners, n);
      first := first[p.i := Handle(first[p.i].ptr, first[p.i].cnt + 1)];
      var next := first[p.i].ptr;
      ghost var s', l' := n, if next == NULL then n + 1 else n;
      if next == NULL {
        var level := nextId;
        nextId := nextId + 1;
        second := second[level := second[NULL]];
        IndexSecond(level, p.j, p.k, d);
        first := first[p.i := Handle(level, first[p.i].cnt)];
      } else {
        IndexSecond(next, p.j, p.k, d);
      }
      assert Snap() == Inserted(t, p, d, s', l');
      InsertKeepsInv(t, pages, owners, p, d, s', l');
      InsertBounded(t, p, d, s', l', n, nextId);
      owners := OwnersAfter(t, owners, p, s', l');
      pages := pages[p := d];
    }

    /** last_level::remove_index. */
    method RemoveLast(id: nat, k: nat)
      requires id in third && k < |third[id]|
      modifies this
      ensures Snap() == old(Snap()).(third := old(third)[id := old(third)[id][k := None]])
      ensures nextId == old(nextId) && pages == old(pages) && owners == old(owners)
    {
      third := third[id := third[id][k := None]];
    }

    /** internal_level::remove_index of a second level: down first, then count down and give back. */
    method RemoveSecond(id: nat, j: nat, k: nat)
      requires id in second && j < |second[id]| && second[id][j].ptr in third && k < |third[second[id][j].ptr]|
      requires second[id][j].cnt > 0
      modifies this
      ensures var h := old(second)[id][j]; var lasts := old(third)[h.ptr := old(third)[h.ptr][k := None]];
        Snap() == Tree(old(first),
                       old(second)[id := old(second)[id][j := if h.cnt == 1 then Handle(NULL, 0) else Handle(h.ptr, h.cnt - 1)]],
                       if h.cnt == 1 then lasts - {h.ptr} else lasts)
      ensures nextId == old(nextId) && pages == old(pages) && owners == old(owners)
    {
      var next := second[id][j].ptr;
      RemoveLast(next, k);
      var cnt := second[id][j].cnt;
      second := second[id := second[id][j := Handle(next, cnt - 1)]];
      if cnt == 1 {
        second := second[id := second[id][j := Handle(NULL, 0)]];
        third := third - {next};
      }
      TwiceSet(old(second), id, j, second[id][j], Handle(next, cnt - 1));
    }

    /** remove_page_from_index, with internal_level::remove_index of the first level. */
    method RemovePage(addr: nat)
      requires Valid() && Split(addr) in pages
      modifies this
      ensures Valid() && pages == old(pages) - {Split(addr)}
    {
      hide Inv, FirstOk, SecondOk, ThirdOk, Owned, NullsClean, Split, Under1, Under2;
      var p := Split(addr);
      ghost var t := Snap();
      PresentDescends(t, pages, owners, p);
      var next := first[p.i].ptr;
      RemoveSecond(next, p.j, p.k);
      var cnt := first[p.i].cnt;
      first := first[p.i := Handle(next, cnt - 1)];
      if cnt == 1 {
        first := first[p.i := Handle(NULL, 0)];
        second := second - {next};
      }
      assert Snap() == Removed(t, p);
      RemoveKeepsInv(t, pages, owners, p);
      pages := pages - {p};
    }

    /** index_tree::index over a region of unindexed pages. */
    method IndexRegion(mem: nat, size: nat, d: Descriptor)
      requires Valid() && mem % PAGE_SIZE == 0 && size <= POINTER_SPAN
      requires forall p :: p in Region(mem, size) ==> p !in pages
      modifies this
      ensures Valid() && pages == WithRegion(old(pages), Region(mem, size), d)
    {
      hide Inv, Bounded, Region, WithRegion, Split;
      var it := mem;
      ghost var n := 0;
      NoPages(mem);
      WithNone(pages, d);
      while it < mem + size
        invariant it == mem + n * PAGE_SIZE && Valid()
        invariant n * PAGE_SIZE < size + PAGE_SIZE
        invariant pages == WithRegion(old(pages), Region(mem, n * PAGE_SIZE), d)
        decreases mem + size - it
      {
        RegionDistinct(mem, n);
        PageInRegion(mem, size, n);
        RegionGrows(mem, n);
        WithOneMore(old(pages), Region(mem, n * PAGE_SIZE), Split(it), d);
        AddPage(it, d);
        n := n + 1;
        it := it + PAGE_SIZE;
      }
      RegionSame(mem, size, n);
    }

    /** index_tree::deindex over a region of indexed pages. */
    method DeindexRegion(mem: nat, size: nat)
      requires Valid() && mem % PAGE_SIZE == 0 && size <= POINTER_SPAN
      requires forall p :: p in Region(mem, size) ==> p in pages
      modifies this
      ensures Valid() && pages == old(pages) - Region(mem, size)
    {
      hide Inv, Bounded, Region, Split;
      var it := mem;
      ghost var n := 0;
      NoPages(mem);
      assert pages - {} == pages;
      while it < mem + size
        invariant it == mem + n * PAGE_SIZE && Valid()
        invariant n * PAGE_SIZE < size + PAGE_SIZE
        invariant pages == old(pages) - Region(mem, n * PAGE_SIZE)
        decreases mem + size - it
      {
        RegionDistinct(mem, n);
        PageInRegion(mem, size, n);
        RegionGrows(mem, n);
        WithoutOneMore(old(pages), Region(mem, n * PAGE_SIZE), Split(it));
        RemovePage(it);
        n := n + 1;
        it := it + PAGE_SIZE;
      }
      RegionSame(mem, size, n);
    }
  }

  lemma PageInRegion(mem: nat, size: nat, n: nat)
    requires n * PAGE_SIZE < size
    ensures Split(mem + n * PAGE_SIZE) in Region(mem, size)
  {
    assert n < size;
  }
}
