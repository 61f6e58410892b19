/** Repair of handles after compaction: forwarding of one handle, of every handle of a cell, and
    of every handle of a pool. */
module FixPtrs {
  import opened Compaction

  /** A handle word whose target can be looked up; a forwarded target leads to a settled one. */
  predicate Followable(boxes: seq<Box>, w: Word) {
    && !w.Raw?
    && (w.Ref? ==> w.cell < |boxes|)
    && (w.Ref? && IsForwarded(boxes[w.cell]) ==>
          var b := boxes[w.cell];
          |b.data| > 0 && b.data[0].Ref? && b.data[0].cell < |boxes| && !IsForwarded(boxes[b.data[0].cell]))
  }

  /** forwarding::forward: the new start of the object plus the old interior offset. */
  function Forward(boxes: seq<Box>, w: Word): Word
    requires Followable(boxes, w)
  {
    if w.Ref? && IsForwarded(boxes[w.cell])
    then Ref(boxes[w.cell].data[0].cell, boxes[w.cell].data[0].off + w.off)
    else w
  }

  /** A handle that is visited twice is left where the first visit put it. */
  lemma ForwardIdempotent(boxes: seq<Box>, w: Word)
    requires Followable(boxes, w)
    ensures Followable(boxes, Forward(boxes, w)) && Forward(boxes, Forward(boxes, w)) == Forward(boxes, w)
  {
  }

  /** The places gc_box::trace visits, in order: the offsets of each object in turn. */
  function ObjectSlots(obj: nat, offsets: seq<nat>): (r: seq<nat>)
    ensures |r| == |offsets| && forall j :: 0 <= j < |r| ==> r[j] == obj + offsets[j]
  {
    if offsets == [] then [] else ObjectSlots(obj, offsets[..|offsets| - 1]) + [obj + offsets[|offsets| - 1]]
  }

  function Slots(count: nat, size: nat, offsets: seq<nat>): seq<nat> {
    if count == 0 then [] else Slots(count - 1, size, offsets) + ObjectSlots((count - 1) * size, offsets)
  }

  function SlotsOf(types: Types, b: Box): seq<nat>
    requires Typed(types, b)
  {
    Slots(b.count, types[TypeOf(b)].size, types[TypeOf(b)].offsets)
  }

  lemma {:induction false} SlotsInside(count: nat, size: nat, offsets: seq<nat>, k: nat)
    requires forall j :: 0 <= j < |offsets| ==> offsets[j] < size
    requires k in Slots(count, size, offsets)
    ensures k < count * size
  {
    var before := (count - 1) * size;
    assert count * size == before + size;
    if k in Slots(count - 1, size, offsets) {
      SlotsInside(count - 1, size, offsets, k);
    } else {
      assert k in ObjectSlots(before, offsets);
    }
  }

  lemma {:induction false} SlotsGrow(i: nat, count: nat, size: nat, offsets: seq<nat>, j: nat)
    requires i < count && j < |offsets|
    ensures i * size + offsets[j] in Slots(count, size, offsets)
  {
    if i == count - 1 {
      var last := ObjectSlots(i * size, offsets);
      assert last[j] in last;
    } else {
      SlotsGrow(i, count - 1, size, offsets, j);
    }
  }

  /** Offset `offsets[j]` of object `i`. */
  predicate IsSlot(size: nat, offsets: seq<nat>, i: nat, j: nat, k: nat) {
    j < |offsets| && k == i * size + offsets[j]
  }

  /** A place is visited exactly when it is one of the type's offsets in one of the cell's objects. */
  lemma SlotsExact(count: nat, size: nat, offsets: seq<nat>, k: nat)
    ensures k in Slots(count, size, offsets) <==> exists i: nat, j: nat :: i < count && IsSlot(size, offsets, i, j, k)
  {
    hide Slots;
    if i: nat, j: nat :| i < count && IsSlot(size, offsets, i, j, k) {
      SlotsGrow(i, count, size, offsets, j);
    }
    if k in Slots(count, size, offsets) {
      var i, j := SlotOf(count, size, offsets, k);
    }
  }

  lemma {:induction false} SlotOf(count: nat, size: nat, offsets: seq<nat>, k: nat) returns (i: nat, j: nat)
    requires k in Slots(count, size, offsets)
    ensures i < count && IsSlot(size, offsets, i, j, k)
  {
    if k in Slots(count - 1, size, offsets) {
      i, j := SlotOf(count - 1, size, offsets, k);
    } else {
      var last := ObjectSlots((count - 1) * size, offsets);
      i := count - 1;
      j :| j < |last| && last[j] == k;
    }
  }

  predicate AllFollowable(boxes: seq<Box>, data: seq<Word>, slots: seq<nat>) {
    forall k :: k in slots ==> k < |data| && Followable(boxes, data[k])
  }

  function FixedData(boxes: seq<Box>, data: seq<Word>, slots: seq<nat>): (r: seq<Word>)
    requires AllFollowable(boxes, data, slots)
    ensures |r| == |data|
    ensures forall k :: 0 <= k < |data| ==> r[k] == if k in slots then Forward(boxes, data[k]) else data[k]
  {
    seq(|data|, k requires 0 <= k < |data| => if k in slots then Forward(boxes, data[k]) else data[k])
  }

  /** A cell that can be traced: typed, not itself forwarded, with followable handles. */
  predicate Traceable(types: Types, boxes: seq<Box>, c: nat) {
    && c < |boxes| && Typed(types, boxes[c]) && !IsForwarded(boxes[c])
    && AllFollowable(boxes, boxes[c].data, SlotsOf(types, boxes[c]))
  }

  function FixedBox(types: Types, boxes: seq<Box>, c: nat): Box
    requires Traceable(types, boxes, c)
  {
    boxes[c].(data := FixedData(boxes, boxes[c].data, SlotsOf(types, boxes[c])))
  }

  /** Two memories that agree on headers and on forwarded cells forward handles alike. */
  predicate SameForwarding(b: seq<Box>, b': seq<Box>) {
    && |b'| == |b|
    && (forall d :: 0 <= d < |b| ==> b'[d].meta == b[d].meta)
    && (forall d :: 0 <= d < |b| && IsForwarded(b[d]) ==> b'[d] == b[d])
  }

  lemma ForwardSame(b: seq<Box>, b': seq<Box>, w: Word)
    requires SameForwarding(b, b') && Followable(b, w)
    ensures Followable(b', w) && Forward(b', w) == Forward(b, w)
  {
  }

  function WithWord(boxes: seq<Box>, c: nat, k: nat, w: Word): seq<Box>
    requires c < |boxes| && k < |boxes[c].data|
  {
    boxes[c := boxes[c].(data := boxes[c].data[k := w])]
  }

  /** One handle: reads the target's header, and rewrites the handle when the target has moved. */
  method ForwardHandle(box: array<Box>, c: nat, k: nat)
    requires c < box.Length && k < |box[c].data| && Followable(box[..], box[c].data[k])
    modifies box
    ensures box[..] == WithWord(old(box[..]), c, k, Forward(old(box[..]), old(box[c]).data[k]))
  {
    var from := box[c].data[k];
    assert box[c].data[k := from] == box[c].data;
    if from.Nil? {
      return;
    }
    if !IsForwarded(box[from.cell]) {
      return;
    }
    var start := box[from.cell].data[0];
    box[c] := box[c].(data := box[c].data[k := Ref(start.cell, start.off + from.off)]);
  }

  function WithData(boxes: seq<Box>, c: nat, slots: seq<nat>): seq<Box>
    requires c < |boxes| && AllFollowable(boxes, boxes[c].data, slots)
  {
    boxes[c := boxes[c].(data := FixedData(boxes, boxes[c].data, slots))]
  }

  /** Forwarding one more slot of a cell, which may have been visited before. */
  lemma FixOneMore(boxes: seq<Box>, c: nat, done: seq<nat>, k: nat)
    requires c < |boxes| && !IsForwarded(boxes[c]) && AllFollowable(boxes, boxes[c].data, done + [k])
    requires k < |boxes[c].data|
    ensures AllFollowable(boxes, boxes[c].data, done)
    ensures var cur := WithData(boxes, c, done);
      && Followable(cur, cur[c].data[k])
      && WithWord(cur, c, k, Forward(cur, cur[c].data[k])) == WithData(boxes, c, done + [k])
  {
    assert forall x :: x in done ==> x in done + [k];
    assert k in done + [k];
    var cur := WithData(boxes, c, done);
    var w := boxes[c].data[k];
    ForwardIdempotent(boxes, w);
    ForwardSame(boxes, cur, cur[c].data[k]);
    assert cur[c].data[k := Forward(cur, cur[c].data[k])] == WithData(boxes, c, done + [k])[c].data;
  }

  function SlotAt(meta: TypeMeta, i: nat, j: nat): nat
    requires j < |meta.offsets|
  {
    i * meta.size + meta.offsets[j]
  }

  /** The slots visited before slot `j` of object `i`. */
  function Visited(meta: TypeMeta, i: nat, j: nat): seq<nat>
    requires j <= |meta.offsets|
  {
    Slots(i, meta.size, meta.offsets) + ObjectSlots(i * meta.size, meta.offsets[..j])
  }

  predicate VisitedUpTo(types: Types, b0: seq<Box>, c: nat, cur: seq<Box>, i: nat, j: nat) {
    && Traceable(types, b0, c) && j <= |types[TypeOf(b0[c])].offsets|
    && var done := Visited(types[TypeOf(b0[c])], i, j);
       AllFollowable(b0, b0[c].data, done) && cur == WithData(b0, c, done)
  }

  lemma VisitStarts(types: Types, b0: seq<Box>, c: nat)
    requires Traceable(types, b0, c)
    ensures VisitedUpTo(types, b0, c, b0, 0, 0)
  {
    assert Visited(types[TypeOf(b0[c])], 0, 0) == [];
    assert FixedData(b0, b0[c].data, []) == b0[c].data;
  }

  /** What the callback does to one slot. */
  predicate Forwards(cur: seq<Box>, c: nat, k: nat, cur': seq<Box>) {
    && c < |cur| && k < |cur[c].data| && Followable(cur, cur[c].data[k])
    && cur' == WithWord(cur, c, k, Forward(cur, cur[c].data[k]))
  }

  lemma ForwardsOneMore(boxes: seq<Box>, c: nat, done: seq<nat>, k: nat, cur: seq<Box>)
    requires c < |boxes| && !IsForwarded(boxes[c]) && k < |boxes[c].data| && AllFollowable(boxes, boxes[c].data, done + [k])
    requires AllFollowable(boxes, boxes[c].data, done) && cur == WithData(boxes, c, done)
    ensures Forwards(cur, c, k, WithData(boxes, c, done + [k]))
  {
    FixOneMore(boxes, c, done, k);
  }

  lemma VisitedGrows(types: Types, b0: seq<Box>, c: nat, i: nat, j: nat)
    requires Traceable(types, b0, c) && i < b0[c].count && j < |types[TypeOf(b0[c])].offsets|
    ensures var meta := types[TypeOf(b0[c])]; var k := SlotAt(meta, i, j);
      k in SlotsOf(types, b0[c]) && Visited(meta, i, j + 1) == Visited(meta, i, j) + [k]
  {
    var meta := types[TypeOf(b0[c])];
    SlotsGrow(i, b0[c].count, meta.size, meta.offsets, j);
    OneMoreOffset(meta, i, j);
  }

  lemma OneMoreOffset(meta: TypeMeta, i: nat, j: nat)
    requires j < |meta.offsets|
    ensures Visited(meta, i, j + 1) == Visited(meta, i, j) + [SlotAt(meta, i, j)]
  {
    hide Slots;
    assert meta.offsets[..j + 1][..j] == meta.offsets[..j];
  }

  lemma VisitNext(types: Types, b0: seq<Box>, c: nat, cur: seq<Box>, i: nat, j: nat)
    returns (cur': seq<Box>)
    requires VisitedUpTo(types, b0, c, cur, i, j)
    requires i < b0[c].count && j < |types[TypeOf(b0[c])].offsets|
    ensures Forwards(cur, c, SlotAt(types[TypeOf(b0[c])], i, j), cur')
    ensures VisitedUpTo(types, b0, c, cur', i, j + 1)
  {
    hide Slots, ObjectSlots, Visited, Forwards, FixedData;
    var meta := types[TypeOf(b0[c])];
    var k := SlotAt(meta, i, j);
    var done := Visited(meta, i, j);
    VisitedGrows(types, b0, c, i, j);
    assert AllFollowable(b0, b0[c].data, done + [k]);
    ForwardsOneMore(b0, c, done, k, cur);
    cur' := WithData(b0, c, done + [k]);
  }

  lemma ObjectVisited(types: Types, b0: seq<Box>, c: nat, cur: seq<Box>, i: nat)
    requires Traceable(types, b0, c) && VisitedUpTo(types, b0, c, cur, i, |types[TypeOf(b0[c])].offsets|)
    ensures VisitedUpTo(types, b0, c, cur, i + 1, 0)
  {
    var meta := types[TypeOf(b0[c])];
    assert meta.offsets[..|meta.offsets|] == meta.offsets;
    assert Visited(meta, i, |meta.offsets|) == Visited(meta, i + 1, 0);
  }

  lemma VisitEnds(types: Types, b0: seq<Box>, c: nat, cur: seq<Box>)
    requires Traceable(types, b0, c) && VisitedUpTo(types, b0, c, cur, b0[c].count, 0)
    ensures cur == b0[c := FixedBox(types, b0, c)]
  {
    assert Visited(types[TypeOf(b0[c])], b0[c].count, 0) == SlotsOf(types, b0[c]);
  }

  /** gc_box::trace over one cell with forwarding::forward as the callback. */
  method TraceForward(types: Types, box: array<Box>, c: nat)
    requires Traceable(types, box[..], c)
    modifies box
    ensures box[..] == old(box[..])[c := FixedBox(types, old(box[..]), c)]
  {
    hide VisitedUpTo, SlotsOf, FixedBox, AllFollowable;
    ghost var b0 := box[..];
    var meta := types[TypeOf(box[c])];
    var count, obj := box[c].count, 0;
    VisitStarts(types, b0, c);
    for i := 0 to count
      invariant obj == i * meta.size
      invariant VisitedUpTo(types, b0, c, box[..], i, 0)
    {
      for j := 0 to |meta.offsets|
        invariant VisitedUpTo(types, b0, c, box[..], i, j)
      {
        ghost var next := VisitNext(types, b0, c, box[..], i, j);
        ForwardHandle(box, c, obj + meta.offsets[j]);
      }
      ObjectVisited(types, b0, c, box[..], i);
      obj := obj + meta.size;
    }
    VisitEnds(types, b0, c, box[..]);
  }

  predicate MarkedTraceable(types: Types, mark: seq<bool>, boxes: seq<Box>) {
    |mark| == |boxes| && forall c :: 0 <= c < |mark| && mark[c] ==> Traceable(types, boxes, c)
  }

  /** Memory after the marked cells below `n` have been traced. */
  function Fixed(types: Types, mark: seq<bool>, boxes: seq<Box>, n: nat): (r: seq<Box>)
    requires MarkedTraceable(types, mark, boxes)
    ensures |r| == |boxes|
    ensures forall c :: 0 <= c < |boxes| ==> r[c] == if c < n && mark[c] then FixedBox(types, boxes, c) else boxes[c]
  {
    seq(|boxes|, c requires 0 <= c < |boxes| => if c < n && mark[c] then FixedBox(types, boxes, c) else boxes[c])
  }

  lemma FixedSame(types: Types, mark: seq<bool>, boxes: seq<Box>, n: nat)
    requires MarkedTraceable(types, mark, boxes)
    ensures SameForwarding(boxes, Fixed(types, mark, boxes, n))
  {
  }

  /** Cells already traced forward like the original ones, so the next cell is traced as at the start. */
  lemma FixNext(types: Types, mark: seq<bool>, boxes: seq<Box>, c: nat)
    requires MarkedTraceable(types, mark, boxes) && c < |boxes|
    ensures var cur := Fixed(types, mark, boxes, c);
      if mark[c] then
        Traceable(types, cur, c) && Fixed(types, mark, boxes, c + 1) == cur[c := FixedBox(types, cur, c)]
      else Fixed(types, mark, boxes, c + 1) == cur
  {
    var cur := Fixed(types, mark, boxes, c);
    if mark[c] {
      FixedSame(types, mark, boxes, c);
      forall k | k in SlotsOf(types, boxes[c])
        ensures Followable(cur, boxes[c].data[k]) && Forward(cur, boxes[c].data[k]) == Forward(boxes, boxes[c].data[k])
      {
        ForwardSame(boxes, cur, boxes[c].data[k]);
      }
      assert FixedBox(types, cur, c).data == FixedBox(types, boxes, c).data;
    }
  }

  /** fix_ptrs over the cells of one pool, when all cells below it have been traced already. */
  method FixCells(types: Types, mark: array<bool>, box: array<Box>, rng: Range, ghost b0: seq<Box>)
    requires MarkedTraceable(types, mark[..], b0) && rng.lo <= rng.hi <= |b0|
    requires box[..] == Fixed(types, mark[..], b0, rng.lo)
    modifies box
    ensures box[..] == Fixed(types, mark[..], b0, rng.hi)
  {
    hide Traceable, FixedBox;
    ghost var marks := mark[..];
    for c := rng.lo to rng.hi
      invariant mark[..] == marks && box[..] == Fixed(types, marks, b0, c)
    {
      FixNext(types, marks, b0, c);
      if mark[c] {
        TraceForward(types, box, c);
      }
    }
  }

  predicate RootsFollowable(boxes: seq<Box>, roots: seq<Word>) {
    forall i :: 0 <= i < |roots| ==> Followable(boxes, roots[i])
  }

  /** The root fix-up of gc_heap::collect. */
  method FixRoots(box: array<Box>, roots: array<Word>)
    requires RootsFollowable(box[..], roots[..])
    modifies roots
    ensures forall i :: 0 <= i < roots.Length ==> roots[i] == Forward(box[..], old(roots[i]))
  {
    for i := 0 to roots.Length
      invariant forall j :: 0 <= j < i ==> roots[j] == Forward(box[..], old(roots[j]))
      invariant forall j :: i <= j < roots.Length ==> roots[j] == old(roots[j])
    {
      var from := roots[i];
      if from.Ref? && IsForwarded(box[from.cell]) {
        var start := box[from.cell].data[0];
        roots[i] := Ref(start.cell, start.off + from.off);
      }
    }
  }
}
