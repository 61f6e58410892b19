/** gc_heap::collect: every pool is compacted or swept, handles and roots are repaired when a cell has
    moved, and marks are cleared. A large object is a piece of one cell that is swept and has no freelist. */
module HeapCollection {
  import opened Common
  import opened HeapGraph
  import opened Compaction
  import opened Rearrangement
  import opened FixPtrs
  import opened HeapIsomorphism

  // ---- Roots

  predicate GoodRoots(s: Snapshot, roots: seq<Word>) {
    forall i :: 0 <= i < |roots| ==> GoodWord(s, roots[i])
  }

  predicate RootsRenamed(fwd: map<nat, nat>, r0: seq<Word>, r: seq<Word>) {
    |r| == |r0| && forall i :: 0 <= i < |r| ==> r[i] == RelocWord(fwd, r0[i])
  }

  lemma RootsCanBeFixed(types: Types, s0: Snapshot, s: Snapshot, fwd: map<nat, nat>, freed: set<nat>, roots: seq<Word>)
    requires Rearranged(types, s0, s, fwd, freed) && GoodHeap(types, s0) && GoodRoots(s0, roots)
    requires MarkedTraceable(types, s.mark, s.box)
    ensures var boxes := Fixed(types, s.mark, s.box, |s.box|);
      forall i :: 0 <= i < |roots| ==> Followable(boxes, roots[i]) && Forward(boxes, roots[i]) == RelocWord(fwd, roots[i])
  {
    var boxes := Fixed(types, s.mark, s.box, |s.box|);
    FixedSame(types, s.mark, s.box, |s.box|);
    forall i | 0 <= i < |roots|
      ensures Followable(boxes, roots[i]) && Forward(boxes, roots[i]) == RelocWord(fwd, roots[i])
    {
      ForwardIsReloc(types, s0, s, fwd, freed, roots[i]);
      ForwardSame(s.box, boxes, roots[i]);
    }
  }

  lemma NothingMoved(types: Types, s0: Snapshot, s: Snapshot, fwd: map<nat, nat>, freed: set<nat>)
    requires Rearranged(types, s0, s, fwd, freed) && GoodHeap(types, s0) && |fwd| == 0
    ensures Renamed(types, s0, s, fwd)
  {
    assert fwd == map[];
    assert fwd.Values == {};
    forall c | 0 <= c < |s0.mark| && s0.mark[c] ensures RenamedCell(types, s0, s, fwd, c) {
      assert GoodCell(types, s0, c);
    }
    forall t | 0 <= t < |s.mark| && s.mark[t] ensures HasSource(s0, fwd, t) {
      assert Reloc(fwd, t) == t;
    }
  }

  lemma NoRootMoved(fwd: map<nat, nat>, roots: seq<Word>)
    requires |fwd| == 0
    ensures RootsRenamed(fwd, roots, roots)
  {
    assert fwd == map[];
  }

  /** What stays committed: the live cells in their new places, and garbage that was not freed. */
  predicate CommittedAfter(s0: Snapshot, s: Snapshot, freed: set<nat>) {
    && |s.init| == |s.mark| == |s0.mark| == |s0.init|
    && forall c: nat :: c < |s.mark| ==> (s.init[c] <==> s.mark[c] || (!s0.mark[c] && s0.init[c] && c !in freed))
  }

  lemma CommittedCells(types: Types, s0: Snapshot, s: Snapshot, fwd: map<nat, nat>, freed: set<nat>)
    requires Rearranged(types, s0, s, fwd, freed) && GoodHeap(types, s0)
    ensures CommittedAfter(s0, s, freed)
  {
    forall c: nat | c < |s.mark|
      ensures s.init[c] <==> s.mark[c] || (!s0.mark[c] && s0.init[c] && c !in freed)
    {
      assert s0.mark[c] ==> GoodCell(types, s0, c);
      if c in fwd {
        MovedCell(types, s0, s, fwd, freed, c);
      } else if c in fwd.Values {
        var d :| d in fwd && fwd[d] == c;
        MovedCell(types, s0, s, fwd, freed, d);
      }
    }
  }

  // ---- The pieces of the heap

  /** A pool or large object: whether its free cells are threaded, and whether this collection compacts it. */
  datatype Piece = Piece(rng: Range, threaded: bool, compacted: bool)

  /** Nothing to move into and nothing to stop the free finger. */
  predicate Crowded(p: Piece, s: Snapshot) {
    p.compacted && p.rng.lo < p.rng.hi && AllMarked(s, p.rng.lo, p.rng.hi)
  }

  /** The garbage of a swept piece is freed, that of a compacted one up to the frontier, below which every
      cell is in use and beyond which none can be moved. */
  predicate PieceFreed(p: Piece, s0: Snapshot, s: Snapshot, fwd: map<nat, nat>, freed: set<nat>, frontier: nat) {
    && |s0.mark| == |s0.init|
    && (forall c: nat :: Within(p.rng, c) && c < |s0.mark| ==>
          (c in freed <==> !s0.mark[c] && s0.init[c] && (p.compacted ==> c <= frontier)))
    && (if p.compacted then Frontier(p.rng, s, frontier) else forall c :: c in fwd ==> !Within(p.rng, c))
  }

  /** The freelist visits exactly the unmarked cells of a swept piece, or the vacated ones of a compacted one. */
  ghost predicate PieceListed(p: Piece, s0: Snapshot, fwd: map<nat, nat>, boxes: seq<Box>, list: FreeList) {
    && FreeChain(boxes, list.head, list.cells)
    && if p.threaded then
         forall c: nat :: c in list.cells <==> Within(p.rng, c) && if p.compacted then c in fwd else c < |s0.mark| && !s0.mark[c]
       else list.cells == []
  }

  /** What one piece has come to. */
  ghost predicate Finished(p: Piece, s0: Snapshot, s: Snapshot, fwd: map<nat, nat>, freed: set<nat>, frontier: nat, list: FreeList) {
    PieceFreed(p, s0, s, fwd, freed, frontier) && PieceListed(p, s0, fwd, s.box, list)
  }

  /** What an earlier piece has come to is left alone by a later one. */
  lemma FreedStays(p: Piece, rng: Range, s0: Snapshot, s1: Snapshot, s2: Snapshot, frontier: nat,
                   fwd1: map<nat, nat>, freed1: set<nat>, fwd2: map<nat, nat>, freed2: set<nat>)
    requires PieceFreed(p, s0, s1, fwd1, freed1, frontier) && p.rng.hi <= rng.lo && p.rng.hi <= |s0.mark| == |s1.mark|
    requires Outside(rng, s1, s2) && Sized(s1, s2) && Inside(rng, fwd2, freed2)
    ensures PieceFreed(p, s0, s2, fwd1 + fwd2, freed1 + freed2, frontier)
  {
    forall c: nat | Within(p.rng, c) ensures s2.mark[c] == s1.mark[c] && (CanMove(s2, c) <==> CanMove(s1, c)) {
      assert SameAt(s1, s2, c);
    }
  }

  lemma ListedStays(p: Piece, rng: Range, s0: Snapshot, s1: Snapshot, s2: Snapshot, list: FreeList,
                    fwd1: map<nat, nat>, fwd2: map<nat, nat>, freed2: set<nat>)
    requires PieceListed(p, s0, fwd1, s1.box, list) && p.rng.hi <= rng.lo
    requires Outside(rng, s1, s2) && Sized(s1, s2) && Inside(rng, fwd2, freed2)
    ensures PieceListed(p, s0, fwd1 + fwd2, s2.box, list)
  {
    forall c: nat | c < |s1.box| && c in list.cells ensures s2.box[c].count == s1.box[c].count {
      assert SameAt(s1, s2, c);
    }
    ThreadNone(s1.box, s2.box, list.head, list.cells);
    hide FreeChain;
  }

  /** A piece of the heap as the collection finds it looks as it did at the start. */
  lemma Untouched(p: Piece, s0: Snapshot, s1: Snapshot, fwd1: map<nat, nat>, freed1: set<nat>)
    requires Below(p.rng.lo, s0, s1, fwd1, freed1) && p.rng.lo <= p.rng.hi <= |s0.mark|
    ensures Crowded(p, s1) <==> Crowded(p, s0)
    ensures forall c: nat :: Within(p.rng, c) ==> SameAt(s0, s1, c) && c !in fwd1 && c !in freed1
  {
    forall c: nat | Within(p.rng, c) ensures s1.mark[c] == s0.mark[c] {
      assert SameAt(s0, s1, c);
    }
  }

  lemma CompactedNow(types: Types, p: Piece, s0: Snapshot, s1: Snapshot, s2: Snapshot, frontier: nat, list: FreeList,
                     fwd1: map<nat, nat>, freed1: set<nat>, fwd2: map<nat, nat>, freed2: set<nat>)
    requires p.compacted && Below(p.rng.lo, s0, s1, fwd1, freed1) && p.rng.lo <= p.rng.hi <= |s0.mark| == |s0.init|
    requires Slid(types, s1, s2, fwd2, freed2) && Frontier(p.rng, s2, frontier) && freed2 == GarbageUpTo(p.rng, s1, frontier)
    requires FreeChain(s2.box, list.head, list.cells) && VacatedAre(fwd2, list.cells, p.threaded) && Inside(p.rng, fwd2, freed2)
    ensures PieceFreed(p, s0, s2, fwd1 + fwd2, freed1 + freed2, frontier)
    ensures PieceListed(p, s0, fwd1 + fwd2, s2.box, list)
  {
    Untouched(p, s0, s1, fwd1, freed1);
    hide Slid, FreeChain, Frontier, Below;
  }

  lemma SweptNow(p: Piece, s0: Snapshot, s1: Snapshot, s2: Snapshot, list: FreeList, fwd1: map<nat, nat>, freed1: set<nat>)
    requires !p.compacted && Below(p.rng.lo, s0, s1, fwd1, freed1) && p.rng.lo <= p.rng.hi <= |s0.mark| == |s0.init|
    requires SweptBelow(p.rng, s1, s2, p.rng.hi) && FreeChain(s2.box, list.head, list.cells)
    requires UnmarkedAre(p.rng, s1.mark, p.rng.hi, list.cells, p.threaded)
    ensures PieceFreed(p, s0, s2, fwd1 + map[], freed1 + GarbageBelow(p.rng, s1, p.rng.hi), 0)
    ensures PieceListed(p, s0, fwd1 + map[], s2.box, list)
  {
    Untouched(p, s0, s1, fwd1, freed1);
    hide FreeChain, SweptBelow, Below;
    assert fwd1 + map[] == fwd1;
  }

  function PieceOf(pool: Pool, compact: bool): Piece {
    Piece(pool.rng, pool.threaded, compact)
  }

  /** What holds when the pieces below `n` have been collected. */
  predicate Collecting(types: Types, n: nat, s0: Snapshot, s: Snapshot, fwd: map<nat, nat>, freed: set<nat>) {
    Rearranged(types, s0, s, fwd, freed) && Below(n, s0, s, fwd, freed)
  }

  /** Compaction finds every marked cell typed, whatever was moved before. */
  lemma StillTyped(types: Types, n: nat, s0: Snapshot, s: Snapshot, fwd: map<nat, nat>, freed: set<nat>)
    requires Collecting(types, n, s0, s, fwd, freed) && GoodHeap(types, s0)
    ensures AllTyped(types, s) && Sized(s, s) && |s.mark| == |s0.mark| == |s0.init|
  {
    CompactedTraceable(types, s0, s, fwd, freed);
    hide Rearranged, GoodHeap, Below, Typed;
  }

  lemma AfterCompaction(types: Types, p: Piece, s0: Snapshot, s1: Snapshot, s2: Snapshot, frontier: nat, list: FreeList,
                        fwd1: map<nat, nat>, freed1: set<nat>, fwd2: map<nat, nat>, freed2: set<nat>)
    requires p.compacted && Collecting(types, p.rng.lo, s0, s1, fwd1, freed1) && p.rng.lo <= p.rng.hi <= |s0.mark| == |s0.init|
    requires Slid(types, s1, s2, fwd2, freed2) && Frontier(p.rng, s2, frontier) && freed2 == GarbageUpTo(p.rng, s1, frontier)
    requires FreeChain(s2.box, list.head, list.cells) && VacatedAre(fwd2, list.cells, p.threaded) && Inside(p.rng, fwd2, freed2)
    ensures Collecting(types, p.rng.hi, s0, s2, fwd1 + fwd2, freed1 + freed2)
    ensures Outside(p.rng, s1, s2) && Sized(s1, s2)
    ensures Finished(p, s0, s2, fwd1 + fwd2, freed1 + freed2, frontier, list)
  {
    CompactedNow(types, p, s0, s1, s2, frontier, list, fwd1, freed1, fwd2, freed2);
    SlidRearranges(types, s1, s2, fwd2, freed2);
    SlidOutside(types, p.rng, s1, s2, fwd2, freed2);
    RearrangedThen(types, p.rng, s0, s1, s2, fwd1, freed1, fwd2, freed2);
    BelowThen(p.rng, s0, s1, s2, fwd1, freed1, fwd2, freed2);
  }

  lemma AfterSweep(types: Types, p: Piece, s0: Snapshot, s1: Snapshot, s2: Snapshot, list: FreeList,
                   fwd1: map<nat, nat>, freed1: set<nat>)
    requires !p.compacted && Collecting(types, p.rng.lo, s0, s1, fwd1, freed1) && p.rng.lo <= p.rng.hi <= |s0.mark| == |s0.init|
    requires SweptBelow(p.rng, s1, s2, p.rng.hi) && FreeChain(s2.box, list.head, list.cells) && Sized(s1, s1)
    requires UnmarkedAre(p.rng, s1.mark, p.rng.hi, list.cells, p.threaded)
    ensures var freed2 := GarbageBelow(p.rng, s1, p.rng.hi);
      && Collecting(types, p.rng.hi, s0, s2, fwd1 + map[], freed1 + freed2) && Inside(p.rng, map[], freed2)
      && Outside(p.rng, s1, s2) && Sized(s1, s2)
      && Finished(p, s0, s2, fwd1 + map[], freed1 + freed2, 0, list)
  {
    var freed2 := GarbageBelow(p.rng, s1, p.rng.hi);
    SweptNow(p, s0, s1, s2, list, fwd1, freed1);
    SweptRearranges(types, p.rng, s1, s2);
    SweptOutside(p.rng, s1, s2);
    RearrangedThen(types, p.rng, s0, s1, s2, fwd1, freed1, map[], freed2);
    BelowThen(p.rng, s0, s1, s2, fwd1, freed1, map[], freed2);
  }

  lemma Counted(size: nat, total: nat, n: nat)
    requires size > 0 && total == size * n
    ensures total > 0 <==> n > 0
  {
  }

  /** gc_pool_allocator::collect, or what gc_lo_allocator::collect does to one object; `s0` is the heap before
      the collection, of which the pieces below this one have been collected. */
  method CollectPiece(pool: Pool, compact: bool, ghost s0: Snapshot, ghost fwd1: map<nat, nat>, ghost freed1: set<nat>)
    returns (out: Outcome, memMoved: nat, ghost fwd2: map<nat, nat>, ghost freed2: set<nat>, ghost frontier: nat)
    requires pool.Valid() && pool.cellSize > 0 && GoodHeap(pool.types, s0)
    requires Collecting(pool.types, pool.rng.lo, s0, pool.Snap(), fwd1, freed1)
    modifies pool.mark, pool.init, pool.box, pool`freelist, pool`listed
    ensures pool.Valid()
    ensures out.ReadsPastEnd? <==> Crowded(PieceOf(pool, compact), s0)
    ensures Sized(old(pool.Snap()), pool.Snap()) && (out.ReadsPastEnd? ==> pool.Snap() == old(pool.Snap()))
    ensures out.Compacted? ==>
              && Collecting(pool.types, pool.rng.hi, s0, pool.Snap(), fwd1 + fwd2, freed1 + freed2)
              && Outside(pool.rng, old(pool.Snap()), pool.Snap()) && Inside(pool.rng, fwd2, freed2)
              && Finished(PieceOf(pool, compact), s0, pool.Snap(), fwd1 + fwd2, freed1 + freed2, frontier, pool.List())
    ensures memMoved > 0 <==> |fwd2| > 0
  {
    hide Slid, Frontier, FreeChain, VacatedAre, UnmarkedAre, SweptBelow, GarbageUpTo, GarbageBelow, Inside, Sized;
    hide AllTyped, GoodHeap, Collecting, Finished, Outside, AllMarked;
    ghost var s1, p := pool.Snap(), PieceOf(pool, compact);
    StillTyped(pool.types, pool.rng.lo, s0, s1, fwd1, freed1);
    SameCrowd(pool.types, p, s0, s1, fwd1, freed1);
    pool.freelist, pool.listed := 0, [];
    if compact {
      var memFreed;
      out, memFreed, memMoved, fwd2, freed2, frontier := pool.Compact();
      if out.Compacted? {
        Counted(pool.cellSize, memMoved, |fwd2|);
        AfterCompaction(pool.types, p, s0, s1, pool.Snap(), frontier, pool.List(), fwd1, freed1, fwd2, freed2);
      } else {
        memMoved, fwd2 := 0, map[];
      }
    } else {
      var memFreed;
      out, memMoved, fwd2, frontier := Compacted, 0, map[], 0;
      memFreed, freed2 := pool.Sweep();
      AfterSweep(pool.types, p, s0, s1, pool.Snap(), pool.List(), fwd1, freed1);
    }
  }

  lemma SameCrowd(types: Types, p: Piece, s0: Snapshot, s1: Snapshot, fwd1: map<nat, nat>, freed1: set<nat>)
    requires Collecting(types, p.rng.lo, s0, s1, fwd1, freed1) && p.rng.lo <= p.rng.hi <= |s1.mark|
    ensures Crowded(p, s1) <==> Crowded(p, s0)
  {
    Untouched(p, s0, s1, fwd1, freed1);
    hide Rearranged, Below, Crowded;
  }

  // ---- The whole heap

  function EndOf(pools: seq<Pool>, i: nat): nat
    requires i <= |pools|
  {
    if i == 0 then 0 else pools[i - 1].rng.hi
  }

  /** Each piece begins where the one before it ends, and together they hold `n` cells. */
  predicate Laid(pools: seq<Pool>, n: nat) {
    if pools == [] then n == 0
    else
      var last := pools[|pools| - 1].rng;
      last.hi == n && last.lo <= last.hi && Laid(pools[..|pools| - 1], last.lo)
  }

  lemma {:induction false} PieceBounds(pools: seq<Pool>, n: nat, i: nat)
    requires Laid(pools, n) && i < |pools|
    ensures EndOf(pools, i) == pools[i].rng.lo <= pools[i].rng.hi == EndOf(pools, i + 1) <= n
  {
    var front := pools[..|pools| - 1];
    if i < |front| {
      PieceBounds(front, pools[|front|].rng.lo, i);
    } else if i > 0 {
      PieceBounds(front, pools[|front|].rng.lo, i - 1);
      LastEnds(front, pools[|front|].rng.lo);
    }
  }

  lemma LastEnds(pools: seq<Pool>, n: nat)
    requires Laid(pools, n)
    ensures EndOf(pools, |pools|) == n
  {
  }

  lemma {:induction false} LaidInOrder(pools: seq<Pool>, n: nat, j: nat, i: nat)
    requires Laid(pools, n) && j < i <= |pools|
    ensures pools[j].rng.hi <= EndOf(pools, i)
  {
    if j + 1 < i {
      LaidInOrder(pools, n, j, i - 1);
      PieceBounds(pools, n, i - 1);
    }
  }

  lemma FinishedStays(p: Piece, rng: Range, s0: Snapshot, s1: Snapshot, s2: Snapshot, frontier: nat, list: FreeList,
                      fwd1: map<nat, nat>, freed1: set<nat>, fwd2: map<nat, nat>, freed2: set<nat>)
    requires Finished(p, s0, s1, fwd1, freed1, frontier, list) && p.rng.hi <= rng.lo && p.rng.hi <= |s0.mark| == |s1.mark|
    requires Outside(rng, s1, s2) && Sized(s1, s2) && Inside(rng, fwd2, freed2)
    ensures Finished(p, s0, s2, fwd1 + fwd2, freed1 + freed2, frontier, list)
  {
    FreedStays(p, rng, s0, s1, s2, frontier, fwd1, freed1, fwd2, freed2);
    ListedStays(p, rng, s0, s1, s2, list, fwd1, fwd2, freed2);
  }

  lemma SumEmpty(m: map<nat, nat>, n: map<nat, nat>)
    ensures |m + n| > 0 <==> |m| > 0 || |n| > 0
  {
    assert (m + n).Keys == m.Keys + n.Keys;
    assert |m| == |m.Keys| && |n| == |n.Keys| && |m + n| == |(m + n).Keys|;
  }

  /** Live cells and roots are renamed alike; committed are the live cells and the garbage not freed. */
  predicate Collected(types: Types, s0: Snapshot, s: Snapshot, fwd: map<nat, nat>, freed: set<nat>, r0: seq<Word>, r: seq<Word>) {
    Renamed(types, s0, s, fwd) && RootsRenamed(fwd, r0, r) && CommittedAfter(s0, s, freed)
  }

  lemma CollectedParts(types: Types, s0: Snapshot, s: Snapshot, fwd: map<nat, nat>, freed: set<nat>, r0: seq<Word>, r: seq<Word>)
    requires Renamed(types, s0, s, fwd) && RootsRenamed(fwd, r0, r) && CommittedAfter(s0, s, freed)
    ensures Collected(types, s0, s, fwd, freed, r0, r)
  {
  }

  /** Every piece has come to its end. */
  ghost predicate AllFinished(pools: seq<Pool>, compacts: seq<bool>, s0: Snapshot, s: Snapshot, fwd: map<nat, nat>, freed: set<nat>,
                              frontiers: seq<nat>, lists: seq<FreeList>) {
    && |frontiers| == |lists| == |pools| == |compacts|
    && forall i: nat :: i < |pools| ==> Finished(PieceOf(pools[i], compacts[i]), s0, s, fwd, freed, frontiers[i], lists[i])
  }

  /** Repairing handles leaves marks, links and bounds alone. */
  lemma FinishedFixed(p: Piece, types: Types, s0: Snapshot, s: Snapshot, fwd: map<nat, nat>, freed: set<nat>,
                      frontier: nat, list: FreeList)
    requires Finished(p, s0, s, fwd, freed, frontier, list) && MarkedTraceable(types, s.mark, s.box)
    ensures Finished(p, s0, s.(box := Fixed(types, s.mark, s.box, |s.mark|)), fwd, freed, frontier, list)
  {
    var boxes := Fixed(types, s.mark, s.box, |s.mark|);
    assert forall c: nat :: CanMove(s.(box := boxes), c) ==> CanMove(s, c);
    ThreadNone(s.box, boxes, list.head, list.cells);
    hide FreeChain;
  }

  lemma AllFinishedFixed(types: Types, pools: seq<Pool>, compacts: seq<bool>, s0: Snapshot, s: Snapshot, fwd: map<nat, nat>,
                         freed: set<nat>, frontiers: seq<nat>, lists: seq<FreeList>)
    requires CollectedTo(types, pools, compacts, |pools|, s0, s, fwd, freed, frontiers, lists)
    ensures AllFinished(pools, compacts, s0, s, fwd, freed, frontiers, lists)
    ensures MarkedTraceable(types, s.mark, s.box) ==>
              AllFinished(pools, compacts, s0, s.(box := Fixed(types, s.mark, s.box, |s.mark|)), fwd, freed, frontiers, lists)
  {
    hide Finished, MarkedTraceable, Collecting, Crowded;
    if MarkedTraceable(types, s.mark, s.box) {
      var s' := s.(box := Fixed(types, s.mark, s.box, |s.mark|));
      forall i: nat | i < |pools|
        ensures Finished(PieceOf(pools[i], compacts[i]), s0, s', fwd, freed, frontiers[i], lists[i])
      {
        FinishedFixed(PieceOf(pools[i], compacts[i]), types, s0, s, fwd, freed, frontiers[i], lists[i]);
      }
    }
  }

  lemma CommittedFixed(s0: Snapshot, s: Snapshot, freed: set<nat>, boxes: seq<Box>)
    requires CommittedAfter(s0, s, freed)
    ensures CommittedAfter(s0, s.(box := boxes), freed)
  {
  }

  /** The cells that roots lead to. */
  function RootCells(roots: seq<Word>): set<nat> {
    set i | 0 <= i < |roots| && roots[i].Ref? :: roots[i].cell
  }

  /** Whatever was moved and freed in however many pools: from the roots afterwards exactly those cells are
      reachable that were reachable from the roots before, in their new places. */
  lemma SameReachability(types: Types, s0: Snapshot, s: Snapshot, fwd: map<nat, nat>, freed: set<nat>,
                         r0: seq<Word>, r: seq<Word>)
    requires GoodHeap(types, s0) && GoodRoots(s0, r0) && Collected(types, s0, s, fwd, freed, r0, r)
    ensures forall c :: Reachable(GraphOf(types, s0), RootCells(r0), c) ==> c in GraphOf(types, s0)
    ensures forall c :: c in GraphOf(types, s0) ==>
      (Reachable(GraphOf(types, s0), RootCells(r0), c) <==> Reachable(GraphOf(types, s), RootCells(r), Reloc(fwd, c)))
  {
    RootCellsRenamed(fwd, r0, r);
    forall c | c in RootCells(r0) ensures c < |s0.mark| && s0.mark[c] {
      var i :| 0 <= i < |r0| && r0[i].Ref? && r0[i].cell == c;
      assert GoodWord(s0, r0[i]);
    }
    hide GoodHeap, Renamed, CommittedAfter, RootsRenamed, RootCells;
    ReachabilityPreserved(types, s0, s, fwd, RootCells(r0));
  }

  lemma RootCellsRenamed(fwd: map<nat, nat>, r0: seq<Word>, r: seq<Word>)
    requires RootsRenamed(fwd, r0, r)
    ensures RootCells(r) == RelocSet(fwd, RootCells(r0))
  {
    forall c | c in RootCells(r) ensures c in RelocSet(fwd, RootCells(r0)) {
      var i :| 0 <= i < |r| && r[i].Ref? && r[i].cell == c;
      assert r0[i].cell in RootCells(r0) && Reloc(fwd, r0[i].cell) == c;
    }
    forall c | c in RelocSet(fwd, RootCells(r0)) ensures c in RootCells(r) {
      var d :| d in RootCells(r0) && Reloc(fwd, d) == c;
      var i :| 0 <= i < |r0| && r0[i].Ref? && r0[i].cell == d;
      assert r[i].cell == c;
    }
  }

  /** A pinned cell is not moved. */
  predicate PinnedStay(s: Snapshot, fwd: map<nat, nat>) {
    forall c :: c in fwd ==> c < |s.pin| && !s.pin[c]
  }

  lemma PinnedCells(types: Types, s0: Snapshot, s: Snapshot, fwd: map<nat, nat>, freed: set<nat>)
    requires Rearranged(types, s0, s, fwd, freed)
    ensures PinnedStay(s0, fwd)
  {
    forall c | c in fwd ensures c < |s0.pin| && !s0.pin[c] {
      assert Relocated(types, s0, s, c, fwd[c]);
    }
  }

  lemma FirstStarts(pools: seq<Pool>)
    ensures EndOf(pools, 0) == 0
  {
  }

  predicate NoneSet(bits: seq<bool>) {
    forall c :: 0 <= c < |bits| ==> !bits[c]
  }

  lemma FixedNone(types: Types, mark: seq<bool>, boxes: seq<Box>)
    requires MarkedTraceable(types, mark, boxes)
    ensures Fixed(types, mark, boxes, 0) == boxes
  {
  }

  lemma FixedUniform(types: Types, mark: seq<bool>, boxes: seq<Box>, rng: Range, n: nat)
    requires MarkedTraceable(types, mark, boxes) && Uniform(rng, boxes)
    ensures Uniform(rng, Fixed(types, mark, boxes, n))
  {
  }

  ghost predicate SomeCrowded(pools: seq<Pool>, compacts: seq<bool>, s: Snapshot)
    requires |pools| == |compacts|
  {
    exists i: nat :: i < |pools| && Crowded(PieceOf(pools[i], compacts[i]), s)
  }

  /** The pieces before number `i` have been collected. */
  ghost predicate CollectedTo(types: Types, pools: seq<Pool>, compacts: seq<bool>, i: nat, s0: Snapshot, s: Snapshot,
                              fwd: map<nat, nat>, freed: set<nat>, frontiers: seq<nat>, lists: seq<FreeList>) {
    && i <= |pools| == |compacts| == |lists| && |frontiers| == i && Collecting(types, EndOf(pools, i), s0, s, fwd, freed)
    && forall j: nat :: j < i ==>
         && !Crowded(PieceOf(pools[j], compacts[j]), s0)
         && Finished(PieceOf(pools[j], compacts[j]), s0, s, fwd, freed, frontiers[j], lists[j])
  }

  lemma AllRearranged(types: Types, pools: seq<Pool>, compacts: seq<bool>, i: nat, s0: Snapshot, s: Snapshot,
                      fwd: map<nat, nat>, freed: set<nat>, frontiers: seq<nat>, lists: seq<FreeList>)
    requires CollectedTo(types, pools, compacts, i, s0, s, fwd, freed, frontiers, lists)
    ensures Rearranged(types, s0, s, fwd, freed)
    ensures i == |pools| ==> !SomeCrowded(pools, compacts, s0)
  {
  }

  lemma CollectedNext(types: Types, pools: seq<Pool>, compacts: seq<bool>, i: nat, s0: Snapshot, s1: Snapshot, s2: Snapshot,
                      fwd: map<nat, nat>, freed: set<nat>, fwd2: map<nat, nat>, freed2: set<nat>,
                      frontiers: seq<nat>, frontier: nat, lists: seq<FreeList>, list: FreeList)
    requires CollectedTo(types, pools, compacts, i, s0, s1, fwd, freed, frontiers, lists) && i < |pools| && Laid(pools, |s1.mark|)
    requires Collecting(types, pools[i].rng.hi, s0, s2, fwd + fwd2, freed + freed2)
    requires Outside(pools[i].rng, s1, s2) && Sized(s1, s2) && Inside(pools[i].rng, fwd2, freed2)
    requires !Crowded(PieceOf(pools[i], compacts[i]), s0)
    requires Finished(PieceOf(pools[i], compacts[i]), s0, s2, fwd + fwd2, freed + freed2, frontier, list)
    ensures CollectedTo(types, pools, compacts, i + 1, s0, s2, fwd + fwd2, freed + freed2, frontiers + [frontier], lists[i := list])
  {
    PieceBounds(pools, |s1.mark|, i);
    SameSizes(types, EndOf(pools, i), s0, s1, fwd, freed);
    hide Collecting, Finished, Crowded, Outside, Sized, Inside, Laid, EndOf;
    forall j: nat | j < i
      ensures Finished(PieceOf(pools[j], compacts[j]), s0, s2, fwd + fwd2, freed + freed2, frontiers[j], lists[j])
    {
      LaidInOrder(pools, |s1.mark|, j, i);
      FinishedStays(PieceOf(pools[j], compacts[j]), pools[i].rng, s0, s1, s2, frontiers[j], lists[j], fwd, freed, fwd2, freed2);
    }
  }

  lemma SameSizes(types: Types, n: nat, s0: Snapshot, s: Snapshot, fwd: map<nat, nat>, freed: set<nat>)
    requires Collecting(types, n, s0, s, fwd, freed)
    ensures |s.mark| == |s0.mark|
  {
  }

  lemma UniformStays(rng: Range, s1: Snapshot, s2: Snapshot)
    requires Sized(s1, s2) && Uniform(rng, s1.box)
    ensures Uniform(rng, s2.box)
  {
  }

  lemma NothingCollected(types: Types, pools: seq<Pool>, compacts: seq<bool>, s: Snapshot, lists: seq<FreeList>)
    requires |s.mark| == |s.init| == |s.pin| == |s.box| && |pools| == |compacts| == |lists|
    ensures CollectedTo(types, pools, compacts, 0, s, s, map[], {}, [], lists)
  {
    NothingRearranged(types, s);
    NothingBelow(s);
  }

  class Heap {
    const types: Types
    const mark: array<bool>
    const init: array<bool>
    const pin: array<bool>
    const box: array<Box>
    /** The pools of all threads and the large objects. */
    const pools: seq<Pool>

    constructor (types: Types, mark: array<bool>, init: array<bool>, pin: array<bool>, box: array<Box>, pools: seq<Pool>)
      ensures this.types == types && this.mark == mark && this.init == init && this.pin == pin && this.box == box
      ensures this.pools == pools
    {
      this.types, this.mark, this.init, this.pin, this.box, this.pools := types, mark, init, pin, box, pools;
    }

    ghost predicate Valid()
      reads box
    {
      && mark.Length == init.Length == pin.Length == box.Length && mark != init && mark != pin && init != pin
      && NoRepeats(pools) && Laid(pools, mark.Length)
      && forall p :: p in pools ==>
           && p.types == types && p.mark == mark && p.init == init && p.pin == pin && p.box == box
           && p.cellSize > 0 && Uniform(p.rng, box[..])
    }

    ghost function Snap(): (s: Snapshot)
      reads mark, init, pin, box
    {
      Snapshot(mark[..], init[..], pin[..], box[..])
    }

    ghost function Lists(): (r: seq<FreeList>)
      reads pools
      ensures |r| == |pools| && forall i :: 0 <= i < |pools| ==> r[i] == pools[i].List()
    {
      seq(|pools|, i reads pools requires 0 <= i < |pools| => pools[i].List())
    }

    /** One round of the first loop of gc_heap::collect. */
    method CollectNext(i: nat, compacts: seq<bool>, ghost s0: Snapshot,
                       ghost fwd: map<nat, nat>, ghost freed: set<nat>, ghost frontiers: seq<nat>)
      returns (out: Outcome, moved: nat, ghost fwd': map<nat, nat>, ghost freed': set<nat>, ghost frontiers': seq<nat>)
      requires Valid() && i < |pools| && GoodHeap(types, s0)
      requires CollectedTo(types, pools, compacts, i, s0, Snap(), fwd, freed, frontiers, Lists())
      modifies mark, init, box, pools[i]
      ensures Valid()
      ensures out.ReadsPastEnd? <==> Crowded(PieceOf(pools[i], compacts[i]), s0)
      ensures out.ReadsPastEnd? ==> Snap() == old(Snap()) && fwd' == fwd && freed' == freed
      ensures out.Compacted? ==> CollectedTo(types, pools, compacts, i + 1, s0, Snap(), fwd', freed', frontiers', Lists())
      ensures out.Compacted? ==> (|fwd'| > 0 <==> |fwd| > 0 || moved > 0)
    {
      hide Collecting, Finished, Crowded, GoodHeap, Outside, Sized, Inside, FreeChain, Laid, EndOf;
      ghost var s1, lists := Snap(), Lists();
      var pool := pools[i];
      PieceBounds(pools, mark.Length, i);
      assert pool in pools && pool.Valid() && pool.Snap() == s1;
      fwd', freed', frontiers' := fwd, freed, frontiers;
      ghost var fwd2, freed2, frontier;
      out, moved, fwd2, freed2, frontier := CollectPiece(pool, compacts[i], s0, fwd, freed);
      assert pool.Snap() == Snap();
      forall p | p in pools ensures Uniform(p.rng, box[..]) {
        UniformStays(p.rng, s1, Snap());
      }
      assert Lists() == lists[i := pool.List()];
      if out.Compacted? {
        fwd', freed', frontiers' := fwd + fwd2, freed + freed2, frontiers + [frontier];
        SumEmpty(fwd, fwd2);
        CollectedNext(types, pools, compacts, i, s0, s1, Snap(), fwd, freed, fwd2, freed2,
                      frontiers, frontier, lists, pool.List());
      }
    }

    /** The first loop of gc_heap::collect. */
    method CollectPieces(compacts: seq<bool>)
      returns (out: Outcome, moved: bool, ghost fwd: map<nat, nat>, ghost freed: set<nat>, ghost frontiers: seq<nat>)
      requires Valid() && |compacts| == |pools| && GoodHeap(types, Snap())
      modifies mark, init, box, pools
      ensures Valid() && Rearranged(types, old(Snap()), Snap(), fwd, freed)
      ensures out.ReadsPastEnd? <==> SomeCrowded(pools, compacts, old(Snap()))
      ensures out.Compacted? ==> CollectedTo(types, pools, compacts, |pools|, old(Snap()), Snap(), fwd, freed, frontiers, Lists())
      ensures moved <==> |fwd| > 0
    {
      ghost var s0 := Snap();
      out, moved, fwd, freed, frontiers := Compacted, false, map[], {}, [];
      NothingCollected(types, pools, compacts, s0, Lists());
      hide Rearranged, Below, Crowded, GoodHeap, CollectedTo, Valid;
      for i := 0 to |pools|
        invariant Valid() && CollectedTo(types, pools, compacts, i, s0, Snap(), fwd, freed, frontiers, Lists())
        invariant out.Compacted? && (moved <==> |fwd| > 0)
      {
        ghost var s1 := Snap();
        AllRearranged(types, pools, compacts, i, s0, s1, fwd, freed, frontiers, Lists());
        var m;
        out, m, fwd, freed, frontiers := CollectNext(i, compacts, s0, fwd, freed, frontiers);
        if out.ReadsPastEnd? {
          return;
        }
        moved := moved || m > 0;
      }
      AllRearranged(types, pools, compacts, |pools|, s0, Snap(), fwd, freed, frontiers, Lists());
    }

    /** The second loop: the marked cells of every piece are traced. */
    method FixPieces()
      requires Valid() && MarkedTraceable(types, mark[..], box[..])
      modifies box
      ensures Valid() && box[..] == Fixed(types, mark[..], old(box[..]), mark.Length)
    {
      hide MarkedTraceable, Laid, EndOf, NoRepeats;
      ghost var marks, b0 := mark[..], box[..];
      FixedNone(types, marks, b0);
      FirstStarts(pools);
      for i := 0 to |pools|
        invariant mark[..] == marks && box[..] == Fixed(types, marks, b0, EndOf(pools, i))
      {
        PieceBounds(pools, mark.Length, i);
        FixCells(types, mark, box, pools[i].rng, b0);
      }
      LastEnds(pools, mark.Length);
      forall p | p in pools ensures Uniform(p.rng, box[..]) {
        FixedUniform(types, marks, b0, p.rng, mark.Length);
      }
    }

    /** The second phase of gc_heap::collect; it runs only when some cell moved. */
    method Fix(roots: array<Word>, moved: bool, ghost s0: Snapshot, ghost fwd: map<nat, nat>, ghost freed: set<nat>)
      requires Valid() && Rearranged(types, s0, Snap(), fwd, freed) && GoodHeap(types, s0)
      requires GoodRoots(s0, roots[..]) && (moved <==> |fwd| > 0)
      modifies box, roots
      ensures Valid() && Collected(types, s0, Snap(), fwd, freed, old(roots[..]), roots[..])
      ensures Lists() == old(Lists()) && Snap() == old(Snap()).(box := box[..])
      ensures MarkedTraceable(types, old(Snap()).mark, old(Snap()).box)
      ensures box[..] == if moved then Fixed(types, old(Snap()).mark, old(Snap()).box, |old(Snap()).mark|) else old(box[..])
    {
      hide Rearranged, GoodHeap, GoodRoots, Renamed, MarkedTraceable, Followable, Forward, RelocWord, Fixed;
      hide CommittedAfter, Collected, Laid, NoRepeats;
      ghost var s, r0 := Snap(), roots[..];
      CommittedCells(types, s0, s, fwd, freed);
      CompactionRenames(types, s0, s, fwd, freed);
      if moved {
        RootsCanBeFixed(types, s0, s, fwd, freed, r0);
        FixPieces();
        FixRoots(box, roots);
        CommittedFixed(s0, s, freed, box[..]);
        assert Snap() == s.(box := Fixed(types, s.mark, s.box, |s.box|));
      } else {
        NothingMoved(types, s0, s, fwd, freed);
        NoRootMoved(fwd, r0);
      }
      CollectedParts(types, s0, Snap(), fwd, freed, r0, roots[..]);
    }

    /** gc_heap::collect. `compacts` says which pools are to be compacted; `fixed` is the heap just before
        marks are cleared. */
    method Collect(roots: array<Word>, compacts: seq<bool>)
      returns (out: Outcome, ghost fwd: map<nat, nat>, ghost freed: set<nat>, ghost frontiers: seq<nat>, ghost fixed: Snapshot)
      requires Valid() && |compacts| == |pools| && GoodHeap(types, Snap()) && GoodRoots(Snap(), roots[..])
      modifies mark, init, pin, box, pools, roots
      ensures Valid()
      ensures out.ReadsPastEnd? <==> SomeCrowded(pools, compacts, old(Snap()))
      ensures out.ReadsPastEnd? ==> roots[..] == old(roots[..]) && Rearranged(types, old(Snap()), Snap(), fwd, freed)
      ensures PinnedStay(old(Snap()), fwd)
      ensures out.Compacted? ==> Collected(types, old(Snap()), fixed, fwd, freed, old(roots[..]), roots[..])
      ensures out.Compacted? ==> AllFinished(pools, compacts, old(Snap()), fixed, fwd, freed, frontiers, Lists())
      ensures out.Compacted? ==> Snap() == fixed.(mark := mark[..], pin := pin[..]) && NoneSet(mark[..]) && NoneSet(pin[..])
    {
      hide Rearranged, GoodHeap, GoodRoots, CollectedTo, Collected, AllFinished, SomeCrowded, NoneSet, Valid, MarkedTraceable, Fixed;
      hide PinnedStay;
      ghost var s0 := Snap();
      var moved;
      fixed := s0;
      out, moved, fwd, freed, frontiers := CollectPieces(compacts);
      PinnedCells(types, s0, Snap(), fwd, freed);
      if out.ReadsPastEnd? {
        return;
      }
      ghost var s, lists := Snap(), Lists();
      AllFinishedFixed(types, pools, compacts, s0, s, fwd, freed, frontiers, lists);
      Fix(roots, moved, s0, fwd, freed);
      fixed := Snap();
      Finalize();
    }

    /** The last loop: all mark and pin bits are cleared. */
    method Finalize()
      requires Valid()
      modifies mark, pin
      ensures Valid() && NoneSet(mark[..]) && NoneSet(pin[..]) && Lists() == old(Lists())
      ensures Snap() == old(Snap()).(mark := mark[..], pin := pin[..])
    {
      hide Laid, EndOf, NoRepeats;
      FirstStarts(pools);
      for i := 0 to |pools|
        invariant EndOf(pools, i) <= mark.Length == pin.Length
        invariant forall c :: 0 <= c < EndOf(pools, i) ==> !mark[c] && !pin[c]
      {
        PieceBounds(pools, mark.Length, i);
        pools[i].Unmark();
      }
      LastEnds(pools, mark.Length);
    }
  }
}
