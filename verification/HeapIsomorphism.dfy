/** What compaction and the repair of handles do to the object graph: they rename its cells. */
module HeapIsomorphism {
  import opened HeapGraph
  import opened Compaction
  import opened FixPtrs
  import opened Rearrangement

  /** The handles a collector may meet: null, or into a live cell. */
  predicate GoodWord(s: Snapshot, w: Word) {
    !w.Raw? && (w.Ref? ==> w.cell < |s.mark| && s.mark[w.cell])
  }

  predicate GoodCell(types: Types, s: Snapshot, c: nat) {
    && c < |s.mark| == |s.init| == |s.box|
    && s.init[c] && Typed(types, s.box[c]) && !IsForwarded(s.box[c])
    && forall k :: k in SlotsOf(types, s.box[c]) ==> k < |s.box[c].data| && GoodWord(s, s.box[c].data[k])
  }

  /** A pool after marking: every marked cell is committed and its handles lead to marked cells. */
  predicate GoodHeap(types: Types, s: Snapshot) {
    && |s.mark| == |s.init| == |s.box|
    && forall c :: 0 <= c < |s.mark| && s.mark[c] ==> GoodCell(types, s, c)
  }

  /** Where a live cell is afterwards. */
  function Reloc(fwd: map<nat, nat>, c: nat): nat {
    if c in fwd then fwd[c] else c
  }

  function RelocWord(fwd: map<nat, nat>, w: Word): Word {
    if w.Ref? then Ref(Reloc(fwd, w.cell), w.off) else w
  }

  /** Renaming live cells by `fwd`: the live cells afterwards are their images, and each keeps its
      type and contents, with handles renamed and their interior offsets kept. */
  predicate Renamed(types: Types, s0: Snapshot, s: Snapshot, fwd: map<nat, nat>) {
    && |s.mark| == |s.box| == |s0.mark| == |s0.box|
    && (forall c :: 0 <= c < |s0.mark| && s0.mark[c] ==> RenamedCell(types, s0, s, fwd, c))
    && (forall t :: 0 <= t < |s.mark| && s.mark[t] ==> HasSource(s0, fwd, t))
    && (forall c, d :: 0 <= c < |s0.mark| && s0.mark[c] && 0 <= d < |s0.mark| && s0.mark[d] && c != d ==>
          Reloc(fwd, c) != Reloc(fwd, d))
  }

  predicate HasSource(s0: Snapshot, fwd: map<nat, nat>, t: nat) {
    exists c: nat :: c < |s0.mark| && s0.mark[c] && Reloc(fwd, c) == t
  }

  predicate RenamedCell(types: Types, s0: Snapshot, s: Snapshot, fwd: map<nat, nat>, c: nat) {
    var t := Reloc(fwd, c);
    && c < |s0.box| && t < |s.box| && t < |s.mark| && s.mark[t] && RenamedBox(types, s0.box[c], s.box[t], fwd)
  }

  predicate RenamedBox(types: Types, b0: Box, b: Box, fwd: map<nat, nat>) {
    && Typed(types, b0) && Typed(types, b) && b.count == b0.count && b.meta == b0.meta
    && forall k :: 0 <= k < b0.count * types[TypeOf(b0)].size ==>
         b.data[k] == if k in SlotsOf(types, b0) then RelocWord(fwd, b0.data[k]) else b0.data[k]
  }

  // ---- From the shape of a compacted pool to the renaming

  lemma MovedCell(types: Types, s0: Snapshot, s: Snapshot, fwd: map<nat, nat>, freed: set<nat>, c: nat)
    requires Rearranged(types, s0, s, fwd, freed) && c in fwd
    ensures Relocated(types, s0, s, c, fwd[c])
  {
  }

  lemma TargetIsNoSource(types: Types, s0: Snapshot, s: Snapshot, fwd: map<nat, nat>, freed: set<nat>, c: nat)
    requires Rearranged(types, s0, s, fwd, freed) && c in fwd
    ensures fwd[c] !in fwd
  {
    MovedCell(types, s0, s, fwd, freed, c);
    if fwd[c] in fwd {
      MovedCell(types, s0, s, fwd, freed, fwd[c]);
    }
  }

  lemma LiveIsNoTarget(types: Types, s0: Snapshot, s: Snapshot, fwd: map<nat, nat>, freed: set<nat>, c: nat)
    requires Rearranged(types, s0, s, fwd, freed) && c < |s0.mark| && s0.mark[c]
    ensures c !in fwd.Values
  {
    forall d | d in fwd ensures fwd[d] != c {
      MovedCell(types, s0, s, fwd, freed, d);
    }
  }

  /** A handle into a live cell is forwarded to the cell's new place, offset kept. */
  lemma ForwardIsReloc(types: Types, s0: Snapshot, s: Snapshot, fwd: map<nat, nat>, freed: set<nat>, w: Word)
    requires Rearranged(types, s0, s, fwd, freed) && GoodHeap(types, s0) && GoodWord(s0, w)
    ensures Followable(s.box, w) && Forward(s.box, w) == RelocWord(fwd, w)
  {
    if w.Ref? {
      var c := w.cell;
      assert GoodCell(types, s0, c);
      LiveIsNoTarget(types, s0, s, fwd, freed, c);
      if c in fwd {
        MovedCell(types, s0, s, fwd, freed, c);
      }
    }
  }

  /** A live cell at its new place, before handles are repaired. */
  lemma Copied(types: Types, s0: Snapshot, s: Snapshot, fwd: map<nat, nat>, freed: set<nat>, c: nat)
    requires Rearranged(types, s0, s, fwd, freed) && c < |s0.mark| && s0.mark[c] && GoodCell(types, s0, c)
    ensures var t := Reloc(fwd, c); var b0 := s0.box[c];
      && t < |s.mark| && s.mark[t] && |s.box[t].data| == |b0.data|
      && s.box[t].count == b0.count && s.box[t].meta == TypeOf(b0) == b0.meta
      && Words(types, b0) <= |b0.data| && s.box[t].data[..Words(types, b0)] == b0.data[..Words(types, b0)]
  {
    LiveIsNoTarget(types, s0, s, fwd, freed, c);
    if c in fwd {
      MovedCell(types, s0, s, fwd, freed, c);
    }
  }

  lemma SameWord(a: seq<Word>, b: seq<Word>, n: nat, k: nat)
    requires k < n <= |a| && n <= |b| && a[..n] == b[..n]
    ensures a[k] == b[k]
  {
    assert a[..n][k] == b[..n][k];
  }

  lemma SlotInside(types: Types, b: Box, k: nat)
    requires Typed(types, b) && k in SlotsOf(types, b)
    ensures k < Words(types, b)
  {
    SlotsInside(b.count, types[TypeOf(b)].size, types[TypeOf(b)].offsets, k);
  }

  lemma CopiedWord(types: Types, s0: Snapshot, s: Snapshot, fwd: map<nat, nat>, freed: set<nat>, c: nat, k: nat)
    requires Rearranged(types, s0, s, fwd, freed) && GoodHeap(types, s0) && c < |s0.mark| && s0.mark[c]
    requires GoodCell(types, s0, c) && k in SlotsOf(types, s0.box[c])
    ensures var t := Reloc(fwd, c);
      && t < |s.box| && k < |s.box[t].data| && s.box[t].data[k] == s0.box[c].data[k]
      && Followable(s.box, s.box[t].data[k]) && Forward(s.box, s.box[t].data[k]) == RelocWord(fwd, s0.box[c].data[k])
  {
    Copied(types, s0, s, fwd, freed, c);
    SlotInside(types, s0.box[c], k);
    SameWord(s.box[Reloc(fwd, c)].data, s0.box[c].data, Words(types, s0.box[c]), k);
    ForwardIsReloc(types, s0, s, fwd, freed, s0.box[c].data[k]);
  }

  lemma SameHeader(types: Types, b0: Box, b: Box)
    requires Typed(types, b0) && b.count == b0.count && b.meta == b0.meta && |b.data| == |b0.data|
    ensures Typed(types, b) && TypeOf(b) == TypeOf(b0) && IsForwarded(b) == IsForwarded(b0)
    ensures SlotsOf(types, b) == SlotsOf(types, b0) && Words(types, b) == Words(types, b0)
  {
  }

  lemma CopiedTraceable(types: Types, s0: Snapshot, s: Snapshot, fwd: map<nat, nat>, freed: set<nat>, c: nat)
    requires Rearranged(types, s0, s, fwd, freed) && GoodHeap(types, s0) && c < |s0.mark| && s0.mark[c]
    ensures Reloc(fwd, c) < |s.box| && Traceable(types, s.box, Reloc(fwd, c))
    ensures Typed(types, s0.box[c]) && SlotsOf(types, s.box[Reloc(fwd, c)]) == SlotsOf(types, s0.box[c])
  {
    assert GoodCell(types, s0, c);
    hide GoodHeap, Rearranged, SlotsOf, Words, Typed, Followable, Forward, IsForwarded, TypeOf;
    Copied(types, s0, s, fwd, freed, c);
    SameHeader(types, s0.box[c], s.box[Reloc(fwd, c)]);
    forall k | k in SlotsOf(types, s0.box[c])
      ensures var t := Reloc(fwd, c); k < |s.box[t].data| && Followable(s.box, s.box[t].data[k])
    {
      CopiedWord(types, s0, s, fwd, freed, c, k);
    }
  }

  lemma MarkedHasSource(types: Types, s0: Snapshot, s: Snapshot, fwd: map<nat, nat>, freed: set<nat>, t: nat)
    requires Rearranged(types, s0, s, fwd, freed) && t < |s.mark| && s.mark[t]
    ensures HasSource(s0, fwd, t)
  {
    if t in fwd {
      MovedCell(types, s0, s, fwd, freed, t);
      assert false;
    } else if t in fwd.Values {
      var c :| c in fwd && fwd[c] == t;
      MovedCell(types, s0, s, fwd, freed, c);
      assert Reloc(fwd, c) == t;
    } else {
      assert Reloc(fwd, t) == t;
    }
  }

  /** After compaction every marked cell can be traced: fix_ptrs may run. */
  lemma CompactedTraceable(types: Types, s0: Snapshot, s: Snapshot, fwd: map<nat, nat>, freed: set<nat>)
    requires Rearranged(types, s0, s, fwd, freed) && GoodHeap(types, s0)
    ensures MarkedTraceable(types, s.mark, s.box)
  {
    forall t | 0 <= t < |s.mark| && s.mark[t] ensures Traceable(types, s.box, t) {
      MarkedHasSource(types, s0, s, fwd, freed, t);
      var c: nat :| c < |s0.mark| && s0.mark[c] && Reloc(fwd, c) == t;
      CopiedTraceable(types, s0, s, fwd, freed, c);
    }
  }

  lemma FixedRenames(types: Types, s0: Snapshot, s: Snapshot, fwd: map<nat, nat>, freed: set<nat>, c: nat)
    requires Rearranged(types, s0, s, fwd, freed) && GoodHeap(types, s0) && c < |s0.mark| && s0.mark[c]
    requires Reloc(fwd, c) < |s.box| && Traceable(types, s.box, Reloc(fwd, c))
    ensures RenamedBox(types, s0.box[c], FixedBox(types, s.box, Reloc(fwd, c)), fwd)
  {
    assert GoodCell(types, s0, c);
    hide GoodHeap, Rearranged, SlotsOf, Words, Typed, Followable, Forward, IsForwarded, TypeOf, RelocWord;
    Copied(types, s0, s, fwd, freed, c);
    var t := Reloc(fwd, c);
    var b0, b := s0.box[c], FixedBox(types, s.box, t);
    SameHeader(types, b0, s.box[t]);
    SameHeader(types, s.box[t], b);
    forall k: nat | k < Words(types, b0)
      ensures b.data[k] == if k in SlotsOf(types, b0) then RelocWord(fwd, b0.data[k]) else b0.data[k]
    {
      if k in SlotsOf(types, b0) {
        CopiedWord(types, s0, s, fwd, freed, c, k);
      } else {
        SameWord(s.box[t].data, b0.data, Words(types, b0), k);
      }
    }
  }

  lemma RelocInjective(types: Types, s0: Snapshot, s: Snapshot, fwd: map<nat, nat>, freed: set<nat>, c: nat, d: nat)
    requires Rearranged(types, s0, s, fwd, freed) && c < |s0.mark| && s0.mark[c] && d < |s0.mark| && s0.mark[d] && c != d
    ensures Reloc(fwd, c) != Reloc(fwd, d)
  {
    LiveIsNoTarget(types, s0, s, fwd, freed, c);
    LiveIsNoTarget(types, s0, s, fwd, freed, d);
  }

  /** Compaction followed by the repair of handles renames the live cells and changes nothing else. */
  lemma CompactionRenames(types: Types, s0: Snapshot, s: Snapshot, fwd: map<nat, nat>, freed: set<nat>)
    requires Rearranged(types, s0, s, fwd, freed) && GoodHeap(types, s0)
    ensures MarkedTraceable(types, s.mark, s.box)
    ensures Renamed(types, s0, s.(box := Fixed(types, s.mark, s.box, |s.box|)), fwd)
  {
    CompactedTraceable(types, s0, s, fwd, freed);
    var s' := s.(box := Fixed(types, s.mark, s.box, |s.box|));
    forall c | 0 <= c < |s0.mark| && s0.mark[c] ensures RenamedCell(types, s0, s', fwd, c) {
      assert GoodCell(types, s0, c);
      Copied(types, s0, s, fwd, freed, c);
      CopiedTraceable(types, s0, s, fwd, freed, c);
      FixedRenames(types, s0, s, fwd, freed, c);
    }
    forall t | 0 <= t < |s.mark| && s.mark[t] ensures HasSource(s0, fwd, t) {
      MarkedHasSource(types, s0, s, fwd, freed, t);
    }
    forall c, d | 0 <= c < |s0.mark| && s0.mark[c] && 0 <= d < |s0.mark| && s0.mark[d] && c != d
      ensures Reloc(fwd, c) != Reloc(fwd, d)
    {
      RelocInjective(types, s0, s, fwd, freed, c, d);
    }
  }

  // ---- The renaming is an isomorphism of object graphs

  function HandleOf(w: Word): Handle {
    if w.Ref? then To(Ptr(w.cell, w.off)) else Null
  }

  predicate Readable(types: Types, b: Box) {
    Typed(types, b) && forall k :: k in SlotsOf(types, b) ==> k < |b.data|
  }

  function HandlesOf(types: Types, b: Box): (r: seq<Handle>)
    requires Readable(types, b)
    ensures |r| == |SlotsOf(types, b)|
    ensures forall i :: 0 <= i < |r| ==> SlotsOf(types, b)[i] in SlotsOf(types, b) && r[i] == HandleOf(b.data[SlotsOf(types, b)[i]])
  {
    var slots := SlotsOf(types, b);
    seq(|slots|, i requires 0 <= i < |slots| => assert slots[i] in slots; HandleOf(b.data[slots[i]]))
  }

  /** The object graph of a pool: the marked cells and their handles, in trace order. */
  function GraphOf(types: Types, s: Snapshot): Heap
    requires |s.mark| == |s.box|
  {
    map c: nat | c < |s.mark| && s.mark[c] && Readable(types, s.box[c]) :: HandlesOf(types, s.box[c])
  }

  function RelocHandle(fwd: map<nat, nat>, h: Handle): Handle {
    if h.To? then To(Ptr(Reloc(fwd, h.ptr.cell), h.ptr.off)) else Null
  }

  function RelocSet(fwd: map<nat, nat>, cs: set<nat>): set<nat> {
    set c | c in cs :: Reloc(fwd, c)
  }

  /** `g` is `g0` with its cells renamed by `fwd`. */
  ghost predicate Isomorphic(g0: Heap, g: Heap, fwd: map<nat, nat>) {
    && (forall c :: c in g0 ==> Reloc(fwd, c) in g && RenamedHandles(g0[c], g[Reloc(fwd, c)], fwd))
    && (forall t :: t in g ==> exists c :: c in g0 && Reloc(fwd, c) == t)
    && (forall c, d :: c in g0 && d in g0 && c != d ==> Reloc(fwd, c) != Reloc(fwd, d))
  }

  predicate RenamedHandles(hs0: seq<Handle>, hs: seq<Handle>, fwd: map<nat, nat>) {
    |hs| == |hs0| && forall i :: 0 <= i < |hs| ==> hs[i] == RelocHandle(fwd, hs0[i])
  }

  ghost predicate ClosedGraph(g: Heap) {
    forall c, i :: c in g && 0 <= i < |g[c]| && g[c][i].To? ==> g[c][i].ptr.cell in g
  }

  lemma TypedReadable(types: Types, b: Box)
    requires Typed(types, b)
    ensures Readable(types, b)
  {
    forall k | k in SlotsOf(types, b) ensures k < |b.data| {
      SlotInside(types, b, k);
    }
  }

  lemma RenamedBoxHandles(types: Types, b0: Box, b: Box, fwd: map<nat, nat>)
    requires RenamedBox(types, b0, b, fwd)
    ensures Readable(types, b0) && Readable(types, b)
    ensures RenamedHandles(HandlesOf(types, b0), HandlesOf(types, b), fwd)
  {
    TypedReadable(types, b0);
    TypedReadable(types, b);
    var slots := SlotsOf(types, b0);
    forall i | 0 <= i < |slots|
      ensures slots[i] < Words(types, b0) && HandleOf(b.data[slots[i]]) == RelocHandle(fwd, HandleOf(b0.data[slots[i]]))
    {
      assert slots[i] in slots;
      SlotInside(types, b0, slots[i]);
    }
  }

  lemma RenamedIsIsomorphic(types: Types, s0: Snapshot, s: Snapshot, fwd: map<nat, nat>)
    requires Renamed(types, s0, s, fwd)
    ensures Isomorphic(GraphOf(types, s0), GraphOf(types, s), fwd)
  {
    var g0: Heap, g: Heap := GraphOf(types, s0), GraphOf(types, s);
    forall c: nat | c < |s0.mark| && s0.mark[c]
      ensures c in g0 && Reloc(fwd, c) in g && RenamedHandles(g0[c], g[Reloc(fwd, c)], fwd)
    {
      assert RenamedCell(types, s0, s, fwd, c);
      RenamedBoxHandles(types, s0.box[c], s.box[Reloc(fwd, c)], fwd);
    }
    forall t | t in g ensures exists c :: c in g0 && Reloc(fwd, c) == t {
      assert HasSource(s0, fwd, t);
    }
  }

  lemma GoodGraphIsClosed(types: Types, s: Snapshot)
    requires GoodHeap(types, s)
    ensures ClosedGraph(GraphOf(types, s))
  {
    var g: Heap := GraphOf(types, s);
    forall c, i | c in g && 0 <= i < |g[c]| && g[c][i].To? ensures g[c][i].ptr.cell in g {
      assert GoodCell(types, s, c);
      var k := SlotsOf(types, s.box[c])[i];
      assert GoodWord(s, s.box[c].data[k]);
      var d := g[c][i].ptr.cell;
      assert GoodCell(types, s, d);
      TypedReadable(types, s.box[d]);
    }
  }

  /** Reachability survives the renaming... */
  lemma ReachableRenamed(g0: Heap, g: Heap, fwd: map<nat, nat>, starts: set<nat>)
    requires Isomorphic(g0, g, fwd) && ClosedGraph(g0) && forall c :: c in starts ==> c in g0
    ensures forall c :: Reachable(g0, starts, c) ==> c in g0 && Reachable(g, RelocSet(fwd, starts), Reloc(fwd, c))
  {
    var to := RelocSet(fwd, starts);
    var good := iset c | c in g0 && Reachable(g, to, Reloc(fwd, c));
    forall c | c in starts ensures c in good {
      StartIsReachable(g, to, Reloc(fwd, c));
    }
    forall c, i | c in good && 0 <= i < |g0[c]| && g0[c][i].To? ensures g0[c][i].ptr.cell in good {
      var t := Reloc(fwd, c);
      assert RenamedHandles(g0[c], g[t], fwd);
      assert Targets(g[t][i], Reloc(fwd, g0[c][i].ptr.cell));
      ReachableStep(g, to, t, Reloc(fwd, g0[c][i].ptr.cell));
    }
    ReachableIsLeast(g0, starts, good);
  }

  ghost predicate OnlyFromReachable(g0: Heap, fwd: map<nat, nat>, starts: set<nat>, t: nat) {
    forall c: nat :: c in g0 && Reloc(fwd, c) == t ==> Reachable(g0, starts, c)
  }

  /** ... and nothing else becomes reachable. */
  lemma ReachableRenamedOnly(g0: Heap, g: Heap, fwd: map<nat, nat>, starts: set<nat>)
    requires Isomorphic(g0, g, fwd) && ClosedGraph(g0) && forall c :: c in starts ==> c in g0
    ensures forall c :: c in g0 && Reachable(g, RelocSet(fwd, starts), Reloc(fwd, c)) ==> Reachable(g0, starts, c)
  {
    var good := iset t: nat | OnlyFromReachable(g0, fwd, starts, t);
    forall t | t in RelocSet(fwd, starts) ensures t in good {
      var d :| d in starts && Reloc(fwd, d) == t;
      StartIsReachable(g0, starts, d);
    }
    forall t, i | t in good && t in g && 0 <= i < |g[t]| && g[t][i].To? ensures g[t][i].ptr.cell in good {
      var c :| c in g0 && Reloc(fwd, c) == t;
      assert RenamedHandles(g0[c], g[t], fwd);
      var d := g0[c][i].ptr.cell;
      assert Targets(g0[c][i], d);
      ReachableStep(g0, starts, c, d);
    }
    ReachableIsLeast(g, RelocSet(fwd, starts), good);
  }

  /** Compaction and repair preserve the meaning of the heap: from the renamed roots, exactly the renamed
      cells that were reachable are reachable. */
  lemma ReachabilityPreserved(types: Types, s0: Snapshot, s: Snapshot, fwd: map<nat, nat>, starts: set<nat>)
    requires GoodHeap(types, s0) && Renamed(types, s0, s, fwd)
    requires forall c :: c in starts ==> c < |s0.mark| && s0.mark[c]
    ensures forall c :: Reachable(GraphOf(types, s0), starts, c) ==> c in GraphOf(types, s0)
    ensures forall c :: c in GraphOf(types, s0) ==>
      (Reachable(GraphOf(types, s0), starts, c) <==> Reachable(GraphOf(types, s), RelocSet(fwd, starts), Reloc(fwd, c)))
  {
    var g0: Heap, g: Heap := GraphOf(types, s0), GraphOf(types, s);
    RenamedIsIsomorphic(types, s0, s, fwd);
    GoodGraphIsClosed(types, s0);
    forall c | c in starts ensures c in g0 {
      assert GoodCell(types, s0, c);
      TypedReadable(types, s0.box[c]);
    }
    ReachableRenamed(g0, g, fwd, starts);
    ReachableRenamedOnly(g0, g, fwd, starts);
  }
}
