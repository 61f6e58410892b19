/** gc_serial::sweep: with the world stopped, roots and pins are traced, the reachable cells are marked, and
    every pool is compacted or swept. One collection leaves the heap ready for the next. */
module SerialCollection {
  import opened Common
  import opened HeapGraph
  import opened Compaction
  import opened FixPtrs
  import opened HeapIsomorphism
  import opened HeapCollection
  import Rearrangement
  import SerialMarker

  // ---- The heap a program sees

  /** The committed cells and their handles. */
  function CommittedGraph(types: Types, s: Snapshot): HeapGraph.Heap
    requires |s.init| == |s.box|
  {
    map c: nat | c < |s.init| && s.init[c] && Readable(types, s.box[c]) :: HandlesOf(types, s.box[c])
  }

  /** A committed cell of known type that has not been vacated, with handles where its type says. */
  predicate LiveCell(types: Types, s: Snapshot, c: nat) {
    && c < |s.init| == |s.box| && s.init[c] && Typed(types, s.box[c]) && !IsForwarded(s.box[c])
    && forall k :: k in SlotsOf(types, s.box[c]) ==> k < |s.box[c].data| && !s.box[c].data[k].Raw?
  }

  ghost predicate InUse(types: Types, s: Snapshot, starts: set<nat>, c: nat)
    requires |s.init| == |s.box|
  {
    Reachable(CommittedGraph(types, s), starts, c)
  }

  /** Everything that can be reached is a live cell; garbage may hold anything. */
  ghost predicate SoundHeap(types: Types, s: Snapshot, starts: set<nat>) {
    && |s.mark| == |s.init| == |s.pin| == |s.box|
    && forall c :: InUse(types, s, starts, c) ==> LiveCell(types, s, c)
  }

  lemma LiveIsReadable(types: Types, s: Snapshot, c: nat)
    requires LiveCell(types, s, c)
    ensures c in CommittedGraph(types, s)
  {
    TypedReadable(types, s.box[c]);
  }

  /** A part of a graph that is closed and holds the starts has all that is reachable. */
  lemma SubgraphReach(g: HeapGraph.Heap, part: HeapGraph.Heap, starts: set<nat>)
    requires ClosedGraph(part) && (forall c :: c in starts ==> c in part)
    requires forall c :: c in part ==> c in g && g[c] == part[c]
    ensures forall c :: Reachable(g, starts, c) ==> c in part
    ensures forall c :: Reachable(g, starts, c) <==> Reachable(part, starts, c)
  {
    var inPart := iset c | c in part && Reachable(part, starts, c);
    forall c | c in starts ensures c in inPart {
      StartIsReachable(part, starts, c);
    }
    forall c, j | c in inPart && 0 <= j < |g[c]| && g[c][j].To? ensures g[c][j].ptr.cell in inPart {
      assert Targets(part[c][j], g[c][j].ptr.cell);
      ReachableStep(part, starts, c, g[c][j].ptr.cell);
    }
    ReachableIsLeast(g, starts, inPart);
    var inWhole := iset c | Reachable(g, starts, c);
    ReachableIsClosed(g, starts);
    assert Closed(part, starts, inWhole);
    ReachableIsLeast(part, starts, inWhole);
  }

  // ---- Marking

  /** The mark bits are those of the cells in use, and nothing but bits has changed. */
  ghost predicate MarkedAs(types: Types, s: Snapshot, s1: Snapshot, starts: set<nat>) {
    && |s.mark| == |s.init| == |s.pin| == |s.box| == |s1.mark| == |s1.pin| && s1 == s.(mark := s1.mark, pin := s1.pin)
    && forall c: nat :: c < |s1.mark| ==> (s1.mark[c] <==> InUse(types, s, starts, c))
  }

  lemma HandleInUse(types: Types, s: Snapshot, starts: set<nat>, c: nat, k: nat)
    requires SoundHeap(types, s, starts) && InUse(types, s, starts, c)
    requires k in SlotsOf(types, s.box[c]) && s.box[c].data[k].Ref?
    ensures InUse(types, s, starts, s.box[c].data[k].cell)
  {
    assert LiveCell(types, s, c);
    LiveIsReadable(types, s, c);
    var g := CommittedGraph(types, s);
    var i :| 0 <= i < |SlotsOf(types, s.box[c])| && SlotsOf(types, s.box[c])[i] == k;
    assert Targets(g[c][i], s.box[c].data[k].cell);
    ReachableStep(g, starts, c, s.box[c].data[k].cell);
  }

  /** After marking, the marked cells are as a collection wants them. */
  lemma MarkedIsGood(types: Types, s: Snapshot, s1: Snapshot, starts: set<nat>)
    requires SoundHeap(types, s, starts) && MarkedAs(types, s, s1, starts)
    ensures GoodHeap(types, s1)
  {
    hide InUse;
    forall c | 0 <= c < |s1.mark| && s1.mark[c] ensures GoodCell(types, s1, c) {
      assert LiveCell(types, s, c);
      forall k | k in SlotsOf(types, s1.box[c]) ensures k < |s1.box[c].data| && GoodWord(s1, s1.box[c].data[k]) {
        if s1.box[c].data[k].Ref? {
          HandleInUse(types, s, starts, c, k);
          assert LiveCell(types, s, s1.box[c].data[k].cell);
        }
      }
    }
  }

  lemma StartsInUse(types: Types, s: Snapshot, starts: set<nat>)
    requires |s.init| == |s.box|
    ensures forall c :: c in starts ==> InUse(types, s, starts, c)
  {
    forall c | c in starts ensures InUse(types, s, starts, c) {
      StartIsReachable(CommittedGraph(types, s), starts, c);
    }
  }

  lemma StartsAreMarked(types: Types, s: Snapshot, s1: Snapshot, starts: set<nat>)
    requires SoundHeap(types, s, starts) && MarkedAs(types, s, s1, starts)
    ensures forall c :: c in starts ==> c < |s1.mark| && s1.mark[c]
  {
    StartsInUse(types, s, starts);
    hide InUse;
    forall c | c in starts ensures c < |s1.mark| && s1.mark[c] {
      assert LiveCell(types, s, c);
    }
  }

  /** What is reachable among the marked cells is what is reachable among the committed ones. */
  lemma MarkedReach(types: Types, s: Snapshot, s1: Snapshot, starts: set<nat>)
    requires SoundHeap(types, s, starts) && MarkedAs(types, s, s1, starts) && GoodHeap(types, s1)
    ensures forall c :: InUse(types, s, starts, c) <==> c in GraphOf(types, s1)
    ensures forall c :: InUse(types, s, starts, c) <==> Reachable(GraphOf(types, s1), starts, c)
  {
    var g, part: HeapGraph.Heap := CommittedGraph(types, s), GraphOf(types, s1);
    GoodGraphIsClosed(types, s1);
    StartsAreMarked(types, s, s1, starts);
    forall c: nat | c < |s1.mark| && s1.mark[c] ensures c in part && c in g && g[c] == part[c] {
      assert GoodCell(types, s1, c);
      TypedReadable(types, s1.box[c]);
    }
    SubgraphReach(g, part, starts);
  }

  // ---- What a collection leaves

  /** A cell in use keeps its type, its contents and its handles in its new place, and is in use there. */
  ghost predicate LivesOn(types: Types, s0: Snapshot, s: Snapshot, fwd: map<nat, nat>, starts': set<nat>, c: nat)
    requires |s.init| == |s.box|
  {
    var t := Reloc(fwd, c);
    c < |s0.box| && t < |s.box| && RenamedBox(types, s0.box[c], s.box[t], fwd) && InUse(types, s, starts', t)
  }

  ghost predicate IsPlace(types: Types, s0: Snapshot, fwd: map<nat, nat>, starts: set<nat>, t: nat)
    requires |s0.init| == |s0.box|
  {
    exists c: nat :: InUse(types, s0, starts, c) && Reloc(fwd, c) == t
  }

  /** A cycle from `s0` to `s`: the cells in use live on in distinct places, nothing else is in use, committed
      are exactly the cells in use and the garbage that was not freed, and the heap is sound again. */
  ghost predicate Cycle(types: Types, s0: Snapshot, s: Snapshot, fwd: map<nat, nat>, freed: set<nat>, starts: set<nat>, starts': set<nat>) {
    && |s0.init| == |s0.box| && |s.init| == |s.box| == |s0.box| && SoundHeap(types, s, starts')
    && (forall c :: InUse(types, s0, starts, c) ==> LivesOn(types, s0, s, fwd, starts', c))
    && (forall c, d :: InUse(types, s0, starts, c) && InUse(types, s0, starts, d) && c != d ==> Reloc(fwd, c) != Reloc(fwd, d))
    && (forall t: nat :: InUse(types, s, starts', t) ==> IsPlace(types, s0, fwd, starts, t))
    && (forall t: nat :: t < |s.init| ==>
          (s.init[t] <==> InUse(types, s, starts', t) || (s0.init[t] && !InUse(types, s0, starts, t) && t !in freed)))
  }

  lemma IsomorphicClosed(g0: HeapGraph.Heap, g: HeapGraph.Heap, fwd: map<nat, nat>)
    requires Isomorphic(g0, g, fwd) && ClosedGraph(g0)
    ensures ClosedGraph(g)
  {
    forall t, i | t in g && 0 <= i < |g[t]| && g[t][i].To? ensures g[t][i].ptr.cell in g {
      var c :| c in g0 && Reloc(fwd, c) == t;
      assert RenamedHandles(g0[c], g[t], fwd);
      assert g[t][i] == RelocHandle(fwd, g0[c][i]) && g0[c][i].To?;
    }
  }

  lemma RenamedStartsIn(g0: HeapGraph.Heap, g: HeapGraph.Heap, fwd: map<nat, nat>, starts: set<nat>)
    requires Isomorphic(g0, g, fwd) && forall c :: c in starts ==> c in g0
    ensures forall t :: t in RelocSet(fwd, starts) ==> t in g
  {
  }

  /** The same bits but for marks and pins. */
  predicate Cleared(fixed: Snapshot, s: Snapshot) {
    s == fixed.(mark := s.mark, pin := s.pin) && |s.mark| == |s.pin| == |s.init| == |s.box| == |fixed.mark|
  }

  /** Afterwards, what is in use are the marked cells in their places. */
  lemma PlacesInUse(types: Types, s0: Snapshot, s1: Snapshot, fixed: Snapshot, s: Snapshot, fwd: map<nat, nat>, freed: set<nat>, starts: set<nat>)
    requires SoundHeap(types, s0, starts) && MarkedAs(types, s0, s1, starts) && Cleared(fixed, s)
    requires Renamed(types, s1, fixed, fwd) && CommittedAfter(s1, fixed, freed)
    ensures |s.init| == |s.box| == |fixed.mark|
    ensures forall t: nat :: InUse(types, s, RelocSet(fwd, starts), t) <==> t < |fixed.mark| && fixed.mark[t]
  {
    MarkedIsGood(types, s0, s1, starts);
    MarkedReach(types, s0, s1, starts);
    StartsAreMarked(types, s0, s1, starts);
    var g1, gf, g: HeapGraph.Heap := GraphOf(types, s1), GraphOf(types, fixed), CommittedGraph(types, s);
    RenamedIsIsomorphic(types, s1, fixed, fwd);
    GoodGraphIsClosed(types, s1);
    IsomorphicClosed(g1, gf, fwd);
    StartsInUse(types, s0, starts);
    RenamedStartsIn(g1, gf, fwd, starts);
    PlacesReadable(types, s1, fixed, fwd);
    assert forall t :: t in gf ==> t in g && g[t] == gf[t];
    SubgraphReach(g, gf, RelocSet(fwd, starts));
    ReachabilityPreserved(types, s1, fixed, fwd, starts);
    hide MarkedAs, SoundHeap, Renamed, CommittedAfter;
    forall t: nat | t in gf ensures Reachable(gf, RelocSet(fwd, starts), t) {
      var c :| c in g1 && Reloc(fwd, c) == t;
      assert InUse(types, s0, starts, c);
    }
  }

  lemma PlacesReadable(types: Types, s1: Snapshot, fixed: Snapshot, fwd: map<nat, nat>)
    requires Renamed(types, s1, fixed, fwd)
    ensures forall t: nat :: t in GraphOf(types, fixed) <==> t < |fixed.mark| && fixed.mark[t]
  {
    forall t: nat | t < |fixed.mark| && fixed.mark[t] ensures Readable(types, fixed.box[t]) {
      assert HasSource(s1, fwd, t);
      var c: nat :| c < |s1.mark| && s1.mark[c] && Reloc(fwd, c) == t;
      assert RenamedCell(types, s1, fixed, fwd, c);
      TypedReadable(types, fixed.box[t]);
    }
  }

  lemma RenamedLive(types: Types, s1: Snapshot, fixed: Snapshot, s: Snapshot, fwd: map<nat, nat>, freed: set<nat>, c: nat)
    requires GoodHeap(types, s1) && Renamed(types, s1, fixed, fwd) && CommittedAfter(s1, fixed, freed) && Cleared(fixed, s)
    requires c < |s1.mark| && s1.mark[c]
    ensures LiveCell(types, s, Reloc(fwd, c))
  {
    assert GoodCell(types, s1, c) && RenamedCell(types, s1, fixed, fwd, c);
    var b0, b := s1.box[c], s.box[Reloc(fwd, c)];
    TypedReadable(types, b);
    forall k | k in SlotsOf(types, b) ensures k < |b.data| && !b.data[k].Raw? {
      assert k in SlotsOf(types, b0);
      SlotInside(types, b0, k);
    }
  }

  /** A collection of the cells in use makes a cycle. */
  lemma CycleHolds(types: Types, s0: Snapshot, s1: Snapshot, fixed: Snapshot, s: Snapshot, fwd: map<nat, nat>, freed: set<nat>, starts: set<nat>)
    requires SoundHeap(types, s0, starts) && MarkedAs(types, s0, s1, starts) && Cleared(fixed, s)
    requires Renamed(types, s1, fixed, fwd) && CommittedAfter(s1, fixed, freed)
    ensures Cycle(types, s0, s, fwd, freed, starts, RelocSet(fwd, starts))
  {
    var starts' := RelocSet(fwd, starts);
    MarkedIsGood(types, s0, s1, starts);
    PlacesInUse(types, s0, s1, fixed, s, fwd, freed, starts);
    hide InUse, GoodHeap, RelocSet;
    forall c: nat | InUse(types, s0, starts, c)
      ensures c < |s1.mark| && s1.mark[c] && LivesOn(types, s0, s, fwd, starts', c) && LiveCell(types, s, Reloc(fwd, c))
    {
      assert LiveCell(types, s0, c);
      assert RenamedCell(types, s1, fixed, fwd, c);
      RenamedLive(types, s1, fixed, s, fwd, freed, c);
    }
    forall t: nat | InUse(types, s, starts', t) ensures IsPlace(types, s0, fwd, starts, t) {
      assert HasSource(s1, fwd, t);
    }
  }

  // ---- Roots and pins

  predicate NoRaw(words: seq<Word>) {
    forall i :: 0 <= i < |words| ==> !words[i].Raw?
  }

  function HandlesTo(words: seq<Word>): (r: seq<Handle>)
    ensures |r| == |words|
  {
    seq(|words|, i requires 0 <= i < |words| => HandleOf(words[i]))
  }

  lemma SameTargets(words: seq<Word>)
    ensures SerialMarker.TargetsOf(HandlesTo(words)) == RootCells(words)
  {
    var hs := HandlesTo(words);
    forall c | c in RootCells(words) ensures c in SerialMarker.TargetsOf(hs) {
      var i :| 0 <= i < |words| && words[i].Ref? && words[i].cell == c;
      assert hs[i] == HandleOf(words[i]);
    }
    forall c | c in SerialMarker.TargetsOf(hs) ensures c in RootCells(words) {
      var i :| 0 <= i < |hs| && hs[i].To? && hs[i].ptr.cell == c;
      assert hs[i] == HandleOf(words[i]);
    }
  }

  lemma SoundIsClosed(types: Types, s: Snapshot, starts: set<nat>)
    requires SoundHeap(types, s, starts)
    ensures SerialMarker.ClosedFrom(CommittedGraph(types, s), starts)
  {
    forall c | Reachable(CommittedGraph(types, s), starts, c) ensures c in CommittedGraph(types, s) {
      assert InUse(types, s, starts, c);
      LiveIsReadable(types, s, c);
    }
  }

  /** The pin bits of `s1` are those of `s` and those of the pins' cells. */
  predicate Pinned(s: Snapshot, s1: Snapshot, pins: seq<Word>) {
    && |s1.pin| == |s.pin| && (forall c :: c in RootCells(pins) ==> c < |s.pin|)
    && forall c :: 0 <= c < |s.pin| ==> (s1.pin[c] <==> s.pin[c] || c in RootCells(pins))
  }

  lemma PinsArePinned(s: Snapshot, s1: Snapshot, pins: seq<Word>)
    requires Pinned(s, s1, pins)
    ensures forall i :: 0 <= i < |pins| && pins[i].Ref? ==> pins[i].cell < |s1.pin| && s1.pin[pins[i].cell]
  {
    forall i | 0 <= i < |pins| && pins[i].Ref? ensures pins[i].cell < |s1.pin| && s1.pin[pins[i].cell] {
      assert pins[i].cell in RootCells(pins);
    }
  }

  lemma RootsAreGood(s: Snapshot, roots: seq<Word>, pins: seq<Word>)
    requires NoRaw(roots) && forall c :: c in RootCells(roots + pins) ==> c < |s.mark| && s.mark[c]
    ensures GoodRoots(s, roots)
  {
    forall i | 0 <= i < |roots| ensures GoodWord(s, roots[i]) {
      assert (roots + pins)[i] == roots[i];
      assert roots[i].Ref? ==> roots[i].cell in RootCells(roots + pins);
    }
  }

  /** Pins stay, roots follow. */
  lemma StartsRenamed(s: Snapshot, s1: Snapshot, fwd: map<nat, nat>, r0: seq<Word>, r: seq<Word>, pins: seq<Word>)
    requires RootsRenamed(fwd, r0, r) && PinnedStay(s1, fwd) && Pinned(s, s1, pins)
    ensures RootCells(r + pins) == RelocSet(fwd, RootCells(r0 + pins))
    ensures forall i :: 0 <= i < |pins| && pins[i].Ref? ==> pins[i].cell !in fwd
  {
    PinsArePinned(s, s1, pins);
    forall i | 0 <= i < |r + pins| ensures (r + pins)[i] == RelocWord(fwd, (r0 + pins)[i]) {
    }
    RootCellsRenamed(fwd, r0 + pins, r + pins);
  }

  lemma StillNoRaw(fwd: map<nat, nat>, r0: seq<Word>, r: seq<Word>)
    requires RootsRenamed(fwd, r0, r) && NoRaw(r0)
    ensures NoRaw(r)
  {
  }

  // ---- When every pool is swept

  lemma {:induction false} PieceAt(pools: seq<Pool>, n: nat, c: nat) returns (i: nat)
    requires Laid(pools, n) && c < n
    ensures i < |pools| && Within(pools[i].rng, c)
  {
    var last := |pools| - 1;
    if c >= pools[last].rng.lo {
      i := last;
    } else {
      i := PieceAt(pools[..last], pools[last].rng.lo, c);
    }
  }

  predicate NoneCompacted(compacts: seq<bool>) {
    forall i :: 0 <= i < |compacts| ==> !compacts[i]
  }

  lemma SweptFreesAll(pools: seq<Pool>, n: nat, compacts: seq<bool>, s1: Snapshot, s: Snapshot, fwd: map<nat, nat>, freed: set<nat>,
                      frontiers: seq<nat>, lists: seq<FreeList>)
    requires Laid(pools, n) && NoneCompacted(compacts) && AllFinished(pools, compacts, s1, s, fwd, freed, frontiers, lists)
    requires |s1.mark| == |s1.init| == |s1.pin| == n && PinnedStay(s1, fwd)
    ensures fwd == map[]
    ensures forall c: nat :: c < n && !s1.mark[c] && s1.init[c] ==> c in freed
  {
    hide PieceListed, Laid;
    forall c: nat | c < n ensures c !in fwd && (!s1.mark[c] && s1.init[c] ==> c in freed) {
      var i := PieceAt(pools, n, c);
      assert Finished(PieceOf(pools[i], compacts[i]), s1, s, fwd, freed, frontiers[i], lists[i]);
    }
    assert fwd == map[];
  }

  lemma SweepIsExact(types: Types, s0: Snapshot, s: Snapshot, freed: set<nat>, starts: set<nat>, starts': set<nat>)
    requires Cycle(types, s0, s, map[], freed, starts, starts')
    requires forall c: nat :: c < |s0.init| && !InUse(types, s0, starts, c) && s0.init[c] ==> c in freed
    ensures forall c: nat :: c < |s.init| ==> (s.init[c] <==> InUse(types, s0, starts, c))
  {
    hide InUse, SoundHeap;
    forall c: nat | c < |s.init| ensures InUse(types, s, starts', c) <==> InUse(types, s0, starts, c) {
      assert Reloc(map[], c) == c;
      if InUse(types, s0, starts, c) {
        assert LivesOn(types, s0, s, map[], starts', c);
      }
      if InUse(types, s, starts', c) {
        assert IsPlace(types, s0, map[], starts, c);
        var d: nat :| InUse(types, s0, starts, d) && Reloc(map[], d) == c;
      }
    }
  }

  // ---- The collection

  datatype Pause = Done | NoPacketLeft | RanPastEnd

  /** Sets the bits that tracing has set. */
  method SetMarks(mark: array<bool>, marks: set<nat>)
    modifies mark
    ensures forall c :: 0 <= c < mark.Length ==> mark[c] == (c in marks)
  {
    for c := 0 to mark.Length
      invariant forall d :: 0 <= d < c ==> mark[d] == (d in marks)
    {
      mark[c] := c in marks;
    }
  }

  method SetPins(pin: array<bool>, pins: seq<Word>)
    requires forall c :: c in RootCells(pins) ==> c < pin.Length
    modifies pin
    ensures forall c :: 0 <= c < pin.Length ==> (pin[c] <==> old(pin[c]) || c in RootCells(pins))
  {
    for k := 0 to |pins|
      invariant forall c :: 0 <= c < pin.Length ==> (pin[c] <==> old(pin[c]) || c in RootCells(pins[..k]))
    {
      OneMorePin(pins, k);
      if pins[k].Ref? {
        pin[pins[k].cell] := true;
      }
    }
    assert pins[..|pins|] == pins;
  }

  lemma OneMorePin(pins: seq<Word>, k: nat)
    requires k < |pins|
    ensures RootCells(pins[..k + 1]) == RootCells(pins[..k]) + (if pins[k].Ref? then {pins[k].cell} else {})
    ensures pins[k].Ref? ==> pins[k].cell in RootCells(pins)
  {
    var p, q := pins[..k], pins[..k + 1];
    forall c | c in RootCells(p) ensures c in RootCells(q) {
      var i :| 0 <= i < |p| && p[i].Ref? && p[i].cell == c;
      assert q[i] == p[i];
    }
    forall c | c in RootCells(q) ensures c in RootCells(p) || (pins[k].Ref? && c == pins[k].cell) {
      var i :| 0 <= i < |q| && q[i].Ref? && q[i].cell == c;
      assert i < k ==> p[i] == q[i];
    }
    if pins[k].Ref? {
      assert q[k] == pins[k];
    }
  }

  /** Some pool that is to be compacted has no cell that is not in use. */
  ghost predicate SomeFull(types: Types, pools: seq<Pool>, compacts: seq<bool>, s: Snapshot, starts: set<nat>)
    requires |pools| == |compacts| && |s.init| == |s.box|
  {
    exists i: nat :: i < |pools| && FullAt(types, PieceOf(pools[i], compacts[i]), s, starts)
  }

  ghost predicate FullAt(types: Types, p: Piece, s: Snapshot, starts: set<nat>)
    requires |s.init| == |s.box|
  {
    p.compacted && p.rng.lo < p.rng.hi && forall c: nat :: Within(p.rng, c) ==> InUse(types, s, starts, c)
  }

  lemma CrowdedIsFull(types: Types, pools: seq<Pool>, n: nat, compacts: seq<bool>, s: Snapshot, s1: Snapshot, starts: set<nat>)
    requires Laid(pools, n) && |pools| == |compacts| && MarkedAs(types, s, s1, starts) && |s.mark| == n
    ensures SomeCrowded(pools, compacts, s1) <==> SomeFull(types, pools, compacts, s, starts)
  {
    hide InUse, Laid, EndOf;
    forall i: nat | i < |pools|
      ensures Crowded(PieceOf(pools[i], compacts[i]), s1) <==> FullAt(types, PieceOf(pools[i], compacts[i]), s, starts)
    {
      PieceBounds(pools, n, i);
      assert forall c: nat :: Within(pools[i].rng, c) ==> c < n && (s1.mark[c] <==> InUse(types, s, starts, c));
    }
  }

  /** A tracer with a bag for the packets can have as many cells queued as all packets but one can be relied on to hold. */
  ghost predicate PacketsRunOut(types: Types, s: Snapshot, words: seq<Word>)
    requires |s.init| == |s.box|
  {
    exists h :: SerialMarker.Overflows(CommittedGraph(types, s), HandlesTo(words), h)
  }

  /** So a marking is sure to finish when the cells in use, the roots and the pins together number fewer, whatever garbage there is. */
  lemma RunOutNeedsLive(types: Types, s: Snapshot, words: seq<Word>, live: set<nat>)
    requires |s.init| == |s.box| && PacketsRunOut(types, s, words)
    requires forall c: nat :: InUse(types, s, RootCells(words), c) ==> c in live
    ensures |live| + |words| >= SerialMarker.CAPACITY
  {
    hide Reachable, RootCells, CommittedGraph;
    var hs := HandlesTo(words);
    var h :| SerialMarker.Overflows(CommittedGraph(types, s), hs, h);
    SameTargets(words);
    SerialMarker.OverflowNeedsLive(CommittedGraph(types, s), hs, h, live);
    SerialMarker.CountAtMost(hs);
  }

  lemma RunOutNeedsAllLive(types: Types, s: Snapshot, words: seq<Word>)
    requires |s.init| == |s.box| && PacketsRunOut(types, s, words)
    ensures forall live: set<nat> :: (forall c: nat :: InUse(types, s, RootCells(words), c) ==> c in live) ==>
              |live| + |words| >= SerialMarker.CAPACITY
  {
    hide PacketsRunOut, InUse;
    forall live: set<nat> | (forall c: nat :: InUse(types, s, RootCells(words), c) ==> c in live)
      ensures |live| + |words| >= SerialMarker.CAPACITY
    {
      RunOutNeedsLive(types, s, words, live);
    }
  }

  /** Marks what is in use and pins what is pinned. */
  method Mark(h: HeapCollection.Heap, roots: array<Word>, pins: seq<Word>) returns (ok: bool)
    requires h.Valid() && NoRaw(roots[..]) && NoRaw(pins) && SoundHeap(h.types, h.Snap(), RootCells(roots[..] + pins))
    modifies h.mark, h.pin
    ensures h.Valid()
    ensures !ok ==> PacketsRunOut(h.types, old(h.Snap()), roots[..] + pins)
    ensures ok ==> MarkedAs(h.types, old(h.Snap()), h.Snap(), RootCells(roots[..] + pins)) && Pinned(old(h.Snap()), h.Snap(), pins)
    ensures ok ==> GoodHeap(h.types, h.Snap()) && GoodRoots(h.Snap(), roots[..])
  {
    hide SoundHeap, GoodHeap, CommittedGraph, MarkedAs, RootCells, Reachable, SerialMarker.ClosedFrom, Laid, NoRepeats, GoodRoots, NoRaw;
    ghost var s, starts := h.Snap(), RootCells(roots[..] + pins);
    var graph := CommittedGraph(h.types, Snapshot(h.mark[..], h.init[..], h.pin[..], h.box[..]));
    var words := roots[..] + pins;
    SameTargets(words);
    SoundIsClosed(h.types, s, starts);
    var r, marks := SerialMarker.MarkHeap(graph, HandlesTo(words));
    if r.Overflow? {
      assert PacketsRunOut(h.types, s, words);
      return false;
    }
    SetMarks(h.mark, marks);
    ghost var s' := h.Snap();
    BitsAreMarks(h.types, s, s', starts, marks);
    StartsAreMarked(h.types, s, s', starts);
    PinCells(s', roots[..], pins);
    SetPins(h.pin, pins);
    MarkedStays(h.types, s, s', h.Snap(), starts);
    StartsAreMarked(h.types, s, h.Snap(), starts);
    MarkedIsGood(h.types, s, h.Snap(), starts);
    RootsAreGood(h.Snap(), roots[..], pins);
    ok := true;
  }

  lemma BitsAreMarks(types: Types, s: Snapshot, s1: Snapshot, starts: set<nat>, marks: set<nat>)
    requires |s.mark| == |s.init| == |s.pin| == |s.box| == |s1.mark| == |s1.pin| && s1 == s.(mark := s1.mark, pin := s1.pin)
    requires forall c: nat :: c < |s1.mark| ==> s1.mark[c] == (c in marks)
    requires forall c :: c in marks <==> Reachable(CommittedGraph(types, s), starts, c)
    ensures MarkedAs(types, s, s1, starts)
  {
  }

  lemma MarkedStays(types: Types, s: Snapshot, s1: Snapshot, s2: Snapshot, starts: set<nat>)
    requires MarkedAs(types, s, s1, starts) && s2 == s1.(pin := s2.pin) && |s2.pin| == |s1.pin|
    ensures MarkedAs(types, s, s2, starts)
  {
  }

  lemma PinCells(s: Snapshot, roots: seq<Word>, pins: seq<Word>)
    requires forall c :: c in RootCells(roots + pins) ==> c < |s.mark|
    ensures forall c :: c in RootCells(pins) ==> c < |s.mark|
  {
    forall c | c in RootCells(pins) ensures c < |s.mark| {
      var i :| 0 <= i < |pins| && pins[i].Ref? && pins[i].cell == c;
      assert (roots + pins)[|roots| + i] == pins[i];
      assert c in RootCells(roots + pins);
    }
  }

  /** What the phases together amount to. */
  lemma Concluded(types: Types, pools: seq<Pool>, n: nat, compacts: seq<bool>, s0: Snapshot, s1: Snapshot, fixed: Snapshot, s: Snapshot,
                  fwd: map<nat, nat>, freed: set<nat>, frontiers: seq<nat>, lists: seq<FreeList>, r0: seq<Word>, r: seq<Word>, pins: seq<Word>)
    requires Laid(pools, n) && |s1.mark| == n && NoRaw(r0)
    requires SoundHeap(types, s0, RootCells(r0 + pins)) && MarkedAs(types, s0, s1, RootCells(r0 + pins)) && Pinned(s0, s1, pins)
    requires Collected(types, s1, fixed, fwd, freed, r0, r) && PinnedStay(s1, fwd)
    requires AllFinished(pools, compacts, s1, fixed, fwd, freed, frontiers, lists)
    requires s == fixed.(mark := s.mark, pin := s.pin) && |s.mark| == |s.pin| == |s.init| == |s.box|
    ensures Cycle(types, s0, s, fwd, freed, RootCells(r0 + pins), RootCells(r + pins))
    ensures RootsRenamed(fwd, r0, r) && NoRaw(r) && forall i :: 0 <= i < |pins| && pins[i].Ref? ==> pins[i].cell !in fwd
    ensures NoneCompacted(compacts) ==> fwd == map[] && |s.init| == |s0.init| == |s0.box|
    ensures NoneCompacted(compacts) ==> forall c: nat :: c < |s.init| ==> (s.init[c] <==> InUse(types, s0, RootCells(r0 + pins), c))
  {
    hide SoundHeap, Renamed, CommittedAfter, AllFinished, RootCells, Laid, Cycle, InUse, RootsRenamed, PinnedStay;
    var starts := RootCells(r0 + pins);
    StartsRenamed(s0, s1, fwd, r0, r, pins);
    StillNoRaw(fwd, r0, r);
    SameCount(types, s1, fixed, fwd, freed);
    CycleHolds(types, s0, s1, fixed, s, fwd, freed, starts);
    if NoneCompacted(compacts) {
      SweptFreesAll(pools, n, compacts, s1, fixed, fwd, freed, frontiers, lists);
      SweepIsExact(types, s0, s, freed, starts, RootCells(r + pins));
    }
  }

  lemma SameCount(types: Types, s1: Snapshot, fixed: Snapshot, fwd: map<nat, nat>, freed: set<nat>)
    requires Renamed(types, s1, fixed, fwd) && CommittedAfter(s1, fixed, freed)
    ensures |fixed.mark| == |fixed.box| == |fixed.init| == |s1.init|
  {
  }

  /** gc_serial::sweep. `compacts` says which pools are to be compacted. */
  method Collect(h: HeapCollection.Heap, roots: array<Word>, pins: seq<Word>, compacts: seq<bool>)
    returns (out: Pause, ghost fwd: map<nat, nat>, ghost freed: set<nat>,
             ghost frontiers: seq<nat>, ghost marked: Snapshot, ghost fixed: Snapshot)
    requires h.Valid() && |compacts| == |h.pools| && NoRaw(roots[..]) && NoRaw(pins)
    requires SoundHeap(h.types, h.Snap(), RootCells(roots[..] + pins))
    modifies h.mark, h.init, h.pin, h.box, h.pools, roots
    ensures h.Valid()
    ensures out.NoPacketLeft? ==> PacketsRunOut(h.types, old(h.Snap()), old(roots[..]) + pins)
    ensures out.NoPacketLeft? ==> forall live: set<nat> ::
              (forall c: nat :: InUse(h.types, old(h.Snap()), old(RootCells(roots[..] + pins)), c) ==> c in live) ==>
              |live| + roots.Length + |pins| >= SerialMarker.CAPACITY
    ensures out.RanPastEnd? ==> SomeFull(h.types, h.pools, compacts, old(h.Snap()), old(RootCells(roots[..] + pins)))
    ensures out.Done? ==> !SomeFull(h.types, h.pools, compacts, old(h.Snap()), old(RootCells(roots[..] + pins)))
    ensures out.Done? ==>
              Cycle(h.types, old(h.Snap()), h.Snap(), fwd, freed, old(RootCells(roots[..] + pins)), RootCells(roots[..] + pins))
    ensures out.Done? ==> RootsRenamed(fwd, old(roots[..]), roots[..]) && NoRaw(roots[..])
    ensures out.Done? ==> forall i :: 0 <= i < |pins| && pins[i].Ref? ==> pins[i].cell !in fwd
    ensures out.Done? ==> NoneSet(h.mark[..]) && NoneSet(h.pin[..]) && h.Snap() == fixed.(mark := h.mark[..], pin := h.pin[..])
    ensures out.Done? ==> MarkedAs(h.types, old(h.Snap()), marked, old(RootCells(roots[..] + pins))) && Pinned(old(h.Snap()), marked, pins)
    ensures out.Done? ==> AllFinished(h.pools, compacts, marked, fixed, fwd, freed, frontiers, h.Lists())
    ensures out.Done? && NoneCompacted(compacts) ==> fwd == map[] && forall c: nat :: c < h.init.Length ==>
              (h.init[c] <==> InUse(h.types, old(h.Snap()), old(RootCells(roots[..] + pins)), c))
  {
    hide SoundHeap, MarkedAs, GoodHeap, GoodRoots, SomeCrowded, SomeFull, Cycle, NoRaw, RootCells, HeapCollection.Collected, AllFinished, PacketsRunOut;
    hide InUse, NoneSet, NoneCompacted, PinnedStay, Pinned, RootsRenamed, Rearrangement.Rearranged, Laid, EndOf, NoRepeats, Uniform;
    fwd, freed, frontiers, marked, fixed := map[], {}, [], h.Snap(), h.Snap();
    ghost var s0, r0 := h.Snap(), roots[..];
    ghost var starts := RootCells(r0 + pins);
    var ok := Mark(h, roots, pins);
    if !ok {
      RunOutNeedsAllLive(h.types, s0, r0 + pins);
      out := NoPacketLeft;
      return;
    }
    ghost var s1 := h.Snap();
    marked := s1;
    var o;
    CrowdedIsFull(h.types, h.pools, h.mark.Length, compacts, s0, s1, starts);
    o, fwd, freed, frontiers, fixed := h.Collect(roots, compacts);
    if o.ReadsPastEnd? {
      out := RanPastEnd;
      return;
    }
    Concluded(h.types, h.pools, h.mark.Length, compacts, s0, s1, fixed, h.Snap(), fwd, freed, frontiers, h.Lists(), r0, roots[..], pins);
    out := Done;
  }
}
