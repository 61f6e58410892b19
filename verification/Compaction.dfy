/** Two-finger compaction of a pool of equal cells around pinned ones, with the forwarding pointer
    stored in the vacated cell, and the sweep of a pool that is not compacted. */
module Compaction {
  import opened Common

  /** A word of object memory. Handles are `Nil` or `Ref`; a forwarding pointer is a `Ref` to the
      start of the object in another cell. */
  datatype Word = Nil | Ref(cell: nat, off: nat) | Raw(v: int)

  /** A cell: object count, the type word whose lowest bit is the forward bit, object memory. */
  datatype Box = Box(count: nat, meta: nat, data: seq<Word>)

  datatype TypeMeta = TypeMeta(size: nat, offsets: seq<nat>)

  datatype Tag = FREE | GARBAGE | ALLOCATED | LIVE

  function TagOf(mark: bool, init: bool): Tag {
    if mark then (if init then LIVE else ALLOCATED) else (if init then GARBAGE else FREE)
  }

  predicate IsForwarded(b: Box) {
    b.meta % 2 == 1
  }

  /** gc_box::get_type_meta: the type word without the forward bit. */
  function TypeOf(b: Box): nat {
    b.meta - b.meta % 2
  }

  /** A vacated cell: forward bit and forwarding pointer set; `word` is in the first header word. */
  function SetForward(b: Box, to: nat, word: nat): Box
    requires |b.data| > 0
  {
    Box(word, TypeOf(b) + 1, b.data[0 := Ref(to, 0)])
  }

  /** gc_box::move: a fresh header and the objects of `from`; move constructors copy. */
  function MoveInto(to: Box, from: Box, words: nat): Box
    requires words <= |from.data| && words <= |to.data|
  {
    Box(from.count, TypeOf(from), from.data[..words] + to.data[words..])
  }

  type Types = map<nat, TypeMeta>

  /** The box holds whole objects of a known type. */
  predicate Typed(types: Types, b: Box) {
    && TypeOf(b) in types
    && b.count > 0
    && b.count * types[TypeOf(b)].size <= |b.data|
    && forall j :: 0 <= j < |types[TypeOf(b)].offsets| ==> types[TypeOf(b)].offsets[j] < types[TypeOf(b)].size
  }

  function Words(types: Types, b: Box): nat
    requires Typed(types, b)
  {
    b.count * types[TypeOf(b)].size
  }

  datatype Outcome = Compacted | ReadsPastEnd

  /** The numbers of a pool's cells, and the words of object memory each of them has. */
  datatype Range = Range(lo: nat, hi: nat, width: nat)

  predicate Within(rng: Range, c: nat) {
    rng.lo <= c < rng.hi
  }

  predicate Uniform(rng: Range, boxes: seq<Box>) {
    rng.lo <= rng.hi <= |boxes| && rng.width > 0 && forall c :: rng.lo <= c < rng.hi ==> |boxes[c].data| == rng.width
  }

  /** A freelist: its head and the cells it visits. */
  datatype FreeList = FreeList(head: nat, cells: seq<nat>)

  /** One pool of equal cells. The arrays hold the bitmaps and the memory of the whole heap. */
  class Pool {
    const types: Types
    const cellSize: nat
    const rng: Range
    const mark: array<bool>
    const init: array<bool>
    const pin: array<bool>
    const box: array<Box>
    /** Whether vacated cells are threaded into a freelist, as gc_pool_allocator::compact does; the link
        takes the first word of the cell, which is the object count. Zero ends the list. */
    const threaded: bool
    var freelist: nat
    ghost var listed: seq<nat>

    constructor (threaded: bool, types: Types, cellSize: nat, rng: Range,
                 mark: array<bool>, init: array<bool>, pin: array<bool>, box: array<Box>)
      ensures this.types == types && this.cellSize == cellSize && this.rng == rng
      ensures this.mark == mark && this.init == init && this.pin == pin && this.box == box
      ensures this.threaded == threaded && freelist == 0 && listed == []
    {
      this.threaded, freelist, listed := threaded, 0, [];
      this.types, this.cellSize, this.rng := types, cellSize, rng;
      this.mark, this.init, this.pin, this.box := mark, init, pin, box;
    }

    ghost predicate Valid()
      reads this, box
    {
      && mark.Length == init.Length == pin.Length == box.Length
      && mark != init && mark != pin && init != pin
      && Uniform(rng, box[..])
    }

    method FindFree(to: nat, from: nat) returns (r: nat)
      requires Valid() && rng.lo <= to <= from <= rng.hi
      ensures to <= r <= from
      ensures AllMarked(Snap(), to, r)
      ensures r < from ==> !Snap().mark[r]
    {
      r := to;
      while r < from && TagOf(mark[r], init[r]) != FREE && TagOf(mark[r], init[r]) != GARBAGE
        invariant to <= r <= from
        invariant forall c :: to <= c < r ==> mark[c]
      {
        r := r + 1;
      }
    }

    /** The reverse search: one past the last movable cell of [to, from), or `to`. */
    method FindMovable(from: nat, to: nat) returns (r: nat)
      requires Valid() && rng.lo <= to <= from <= rng.hi
      ensures to <= r <= from
      ensures NoneMovable(Snap(), r, from)
      ensures r > to ==> CanMove(Snap(), r - 1)
    {
      r := from;
      while r > to && !(TagOf(mark[r - 1], init[r - 1]) == LIVE && !pin[r - 1])
        invariant to <= r <= from
        invariant forall c :: r <= c < from ==> !(mark[c] && init[c] && !pin[c])
      {
        r := r - 1;
      }
    }

    /** gc_pool_descriptor::move and ::finalize of the source, forwarding::create, insert_into_freelist. */
    method MoveCell(from: nat, to: nat)
      requires Valid() && rng.lo <= to < from < rng.hi
      requires mark[from] && init[from] && !mark[to] && !init[to] && Typed(types, box[from])
      requires FreeChain(box[..], freelist, listed) && from !in listed && to !in listed
      modifies mark, init, box, this`freelist, this`listed
      ensures Valid()
      ensures Snap() == AfterMove(types, old(Snap()), from, to, if threaded then old(freelist) else old(box[from].count))
      ensures FreeChain(box[..], freelist, listed) && listed == if threaded then [from] + old(listed) else old(listed)
    {
      hide FreeChain;
      ghost var b0 := box[..];
      box[to] := MoveInto(box[to], box[from], box[from].count * types[TypeOf(box[from])].size);
      ThreadNone(b0, box[..], freelist, listed);
      mark[from] := false;
      mark[to] := true;
      init[to] := true;
      init[from] := false;
      Vacate(from, to);
    }

    /** forwarding::create on a cell that has been moved, and insert_into_freelist. */
    method Vacate(from: nat, to: nat)
      requires from < box.Length && |box[from].data| > 0
      requires FreeChain(box[..], freelist, listed) && from !in listed
      modifies box, this`freelist, this`listed
      ensures box[..] == old(box[..])[from := SetForward(old(box[from]), to, if threaded then old(freelist) else old(box[from].count))]
      ensures FreeChain(box[..], freelist, listed) && listed == if threaded then [from] + old(listed) else old(listed)
    {
      hide FreeChain;
      ghost var b0 := box[..];
      box[from] := SetForward(box[from], to, box[from].count);
      if threaded {
        box[from] := box[from].(count := freelist);
        freelist := from + 1;
        listed := [from] + listed;
        ThreadOne(b0, box[..], old(freelist), old(listed), from);
      } else {
        ThreadNone(b0, box[..], freelist, listed);
      }
    }

    /** Finalizes the cell the free finger stopped at when it is garbage. */
    method Reclaim(to: nat, hi: nat, ghost s0: Snapshot, ghost fwd: map<nat, nat>, ghost freed: set<nat>)
      returns (garbage: bool, ghost freed': set<nat>)
      requires Valid() && to < rng.hi && !Snap().mark[to]
      requires Slid(types, s0, Snap(), fwd, freed) && Fingers(rng, s0, Snap(), fwd, to, hi) && AllTyped(types, Snap())
      requires Swept(rng, s0, fwd, freed, to)
      modifies init
      ensures Valid() && AllTyped(types, Snap()) && Snap() == old(Snap()).(init := old(Snap()).init[to := false])
      ensures Slid(types, s0, Snap(), fwd, freed') && |freed'| == |freed| + (if garbage then 1 else 0)
      ensures SweptTo(rng, s0, fwd, freed', to)
    {
      hide Slid, Fingers, AllTyped, Swept, SweptTo, Sized;
      freed' := freed;
      ReclaimTyped(types, Snap(), to);
      ReclaimSweeps(types, rng, s0, Snap(), fwd, freed, to, hi);
      ReclaimKeeps(types, rng, s0, Snap(), fwd, freed, to, hi);
      garbage := TagOf(mark[to], init[to]) == GARBAGE;
      if garbage {
        init[to] := false;
        freed' := freed + {to};
      }
    }

    /** The second half of a round: the other finger comes down from `hi` to a movable cell above `to`. */
    method BringDown(to: nat, hi: nat, ghost s0: Snapshot, ghost s1: Snapshot, ghost fwd: map<nat, nat>, ghost freed: set<nat>)
      returns (from: nat, moved: bool, ghost fwd': map<nat, nat>)
      requires Valid() && AllTyped(types, Snap()) && to < rng.hi
      requires Fingers(rng, s0, s1, fwd, to, hi) && to < |s1.mark| && !s1.mark[to] && Snap() == s1.(init := s1.init[to := false])
      requires Slid(types, s0, Snap(), fwd, freed) && Listing(fwd)
      modifies mark, init, box, this`freelist, this`listed
      ensures Valid() && AllTyped(types, Snap()) && Listing(fwd')
      ensures to <= from && (moved ==> from < hi) && (!moved ==> from == to)
      ensures Fingers(rng, s0, Snap(), fwd', to, from) && Slid(types, s0, Snap(), fwd', freed)
      ensures |fwd'| == |fwd| + (if moved then 1 else 0) && fwd' == (if moved then fwd[from := to] else fwd)
    {
      moved, fwd' := false, fwd;
      ghost var s2 := Snap();
      from := FindMovable(hi, to);
      if from != to {
        from := from - 1;
        moved := true;
        ghost var word := if threaded then freelist else box[from].count;
        MovedTyped(types, s2, from, to, word);
        FingersMoved(types, rng, s0, s1, s2, fwd, to, hi, from, word);
        MoveKeeps(types, s0, s2, fwd, freed, from, to, word);
        ListBeyond(fwd, listed, threaded, from, to);
        MoveCell(from, to);
        fwd' := fwd[from := to];
      } else {
        FingersMet(rng, s0, s1, s2, fwd, to, hi);
      }
    }

    /** One round of the loop: the free finger advances, then the other one comes down to a movable cell. */
    method Round(lo: nat, hi: nat, ghost s0: Snapshot, ghost fwd: map<nat, nat>, ghost freed: set<nat>)
      returns (pastEnd: bool, to: nat, from: nat, garbage: bool, moved: bool, ghost fwd': map<nat, nat>, ghost freed': set<nat>)
      requires Valid() && lo < hi && Working(types, rng, s0, Snap(), fwd, freed, lo, hi) && Listing(fwd)
      modifies mark, init, box, this`freelist, this`listed
      ensures Valid() && Listing(fwd')
      ensures pastEnd <==> hi == rng.hi && AllMarked(old(Snap()), lo, hi)
      ensures pastEnd ==> Snap() == old(Snap())
      ensures !pastEnd ==> rng.lo <= to <= from < rng.hi && from - to < hi - lo
      ensures !pastEnd ==> Working(types, rng, s0, Snap(), fwd', freed', to, from)
      ensures |fwd'| == |fwd| + (if moved then 1 else 0) && |freed'| == |freed| + (if garbage then 1 else 0)
    {
      hide Slid, AllTyped, Swept, SweptTo, FreeChain, VacatedAre;
      ghost var s1 := Snap();
      pastEnd, garbage, moved, fwd', freed', from := false, false, false, fwd, freed, hi;
      to := FindFree(lo, hi);
      if to == rng.hi {
        pastEnd := true;
        return;
      }
      FingersUp(rng, s0, s1, fwd, lo, hi, to);
      SweptUp(rng, s0, fwd, freed, lo, to);
      garbage, freed' := Reclaim(to, hi, s0, fwd, freed);
      from, moved, fwd' := BringDown(to, hi, s0, s1, fwd, freed');
      SweptMoved(rng, s0, fwd, freed', to, from);
    }

    /** The loop over rounds, until the fingers meet. */
    method Rounds(ghost s0: Snapshot) returns (pastEnd: bool, memFreed: nat, memMoved: nat,
                                               ghost fwd: map<nat, nat>, ghost freed: set<nat>, ghost frontier: nat)
      requires Valid() && AllTyped(types, s0) && Sized(s0, s0) && Uniform(rng, s0.box) && s0 == Snap() && rng.lo < rng.hi
      requires freelist == 0 && listed == []
      modifies mark, init, box, this`freelist, this`listed
      ensures Valid() && Listing(fwd)
      ensures pastEnd <==> AllMarked(s0, rng.lo, rng.hi)
      ensures pastEnd ==> Snap() == s0
      ensures !pastEnd ==> Working(types, rng, s0, Snap(), fwd, freed, frontier, frontier)
      ensures !pastEnd ==> Accounted(cellSize, memMoved, memFreed, fwd, freed)
    {
      hide *;
      NothingListed();
      Start(types, rng, s0, cellSize);
      memFreed, memMoved, fwd, freed, frontier, pastEnd := 0, 0, map[], {}, 0, false;
      var to: nat, from: nat := rng.lo, rng.hi;
      ghost var cur := s0;
      while from != to
        invariant Valid() && Snap() == cur && Listing(fwd)
        invariant rng.lo <= to <= from <= rng.hi && Working(types, rng, s0, cur, fwd, freed, to, from)
        invariant Progress(rng, s0, cur, to, from) && Accounted(cellSize, memMoved, memFreed, fwd, freed)
        decreases from - to
      {
        var garbage, moved;
        ghost var fwd0, freed0, before, lo, hi := fwd, freed, cur, to, from;
        pastEnd, to, from, garbage, moved, fwd, freed := Round(to, from, s0, fwd, freed);
        cur := Snap();
        ProgressNext(rng, s0, before, lo, hi, pastEnd, cur, to, from);
        if pastEnd {
          return;
        }
        AccountedNext(cellSize, memMoved, memFreed, fwd0, freed0, fwd, freed, moved, garbage);
        memFreed := if garbage then memFreed + cellSize else memFreed;
        memMoved := if moved then memMoved + cellSize else memMoved;
      }
      frontier := to;
      ProgressEnds(rng, s0, cur, to);
    }

    /** gc_pool_allocator::sweep: unmarked cells are finalized if committed, and threaded into the freelist. */
    method Sweep() returns (memFreed: nat, ghost freed: set<nat>)
      requires Valid() && freelist == 0 && listed == []
      modifies init, box, this`freelist, this`listed
      ensures Valid() && SweptBelow(rng, old(Snap()), Snap(), rng.hi)
      ensures freed == GarbageBelow(rng, old(Snap()), rng.hi) && memFreed == cellSize * |freed|
      ensures FreeChain(box[..], freelist, listed) && UnmarkedAre(rng, mark[..], rng.hi, listed, threaded)
    {
      hide FreeChain, SweptBelow, UnmarkedAre, GarbageBelow;
      ghost var s0 := Snap();
      memFreed, freed := 0, {};
      StartSweep(rng, s0, threaded);
      for c := rng.lo to rng.hi
        invariant Valid() && SweptBelow(rng, s0, Snap(), c) && Snap().mark == s0.mark
        invariant freed == GarbageBelow(rng, s0, c) && memFreed == cellSize * |freed|
        invariant FreeChain(box[..], freelist, listed) && UnmarkedAre(rng, s0.mark, c, listed, threaded)
      {
        ghost var s := Snap();
        SweepOne(rng, s0, s, c, threaded, freelist, listed);
        var garbage := SweepAt(c);
        if garbage {
          memFreed := memFreed + cellSize;
          freed := freed + {c};
        }
      }
    }

    /** The body of the sweep's loop. */
    method SweepAt(c: nat) returns (garbage: bool)
      requires Valid() && Within(rng, c) && FreeChain(box[..], freelist, listed) && c !in listed
      modifies init, box, this`freelist, this`listed
      ensures Valid() && Snap() == SweepCell(old(Snap()), c, threaded, old(freelist))
      ensures garbage == (!old(Snap()).mark[c] && old(Snap()).init[c])
      ensures FreeChain(box[..], freelist, listed)
      ensures listed == if threaded && !old(Snap()).mark[c] then [c] + old(listed) else old(listed)
    {
      hide FreeChain;
      ghost var b0 := box[..];
      garbage := false;
      if !mark[c] {
        if init[c] {
          init[c] := false;
          garbage := true;
        }
        if threaded {
          box[c] := box[c].(count := freelist);
          freelist := c + 1;
          ThreadOne(b0, box[..], old(freelist), listed, c);
          listed := [c] + listed;
        }
      }
      assert !old(init[c]) ==> old(init[..]) == old(init[..])[c := false];
    }

    /** gc_pool_descriptor::unmark for all blocks of the pool. */
    method Unmark()
      requires Valid()
      modifies mark, pin
      ensures forall c :: 0 <= c < mark.Length ==> mark[c] == (old(mark[c]) && !Within(rng, c))
      ensures forall c :: 0 <= c < pin.Length ==> pin[c] == (old(pin[c]) && !Within(rng, c))
    {
      for c := rng.lo to rng.hi
        invariant forall d :: 0 <= d < mark.Length ==> mark[d] == (old(mark[d]) && !(rng.lo <= d < c))
        invariant forall d :: 0 <= d < pin.Length ==> pin[d] == (old(pin[d]) && !(rng.lo <= d < c))
      {
        mark[c] := false;
        pin[c] := false;
      }
    }

    /** two_finger_compactor and gc_pool_allocator::compact. */
    method Compact() returns (out: Outcome, memFreed: nat, memMoved: nat,
                              ghost fwd: map<nat, nat>, ghost freed: set<nat>, ghost frontier: nat)
      requires Valid() && AllTyped(types, Snap()) && freelist == 0 && listed == []
      modifies mark, init, box, this`freelist, this`listed
      ensures Valid() && Listing(fwd)
      ensures out.ReadsPastEnd? <==> rng.lo < rng.hi && AllMarked(old(Snap()), rng.lo, rng.hi)
      ensures out.ReadsPastEnd? ==> Snap() == old(Snap())
      ensures out.Compacted? ==> Slid(types, old(Snap()), Snap(), fwd, freed) && Frontier(rng, Snap(), frontier)
      ensures out.Compacted? ==> freed == GarbageUpTo(rng, old(Snap()), frontier) && Inside(rng, fwd, freed)
      ensures out.Compacted? ==> memMoved == cellSize * |fwd| && memFreed == cellSize * |freed|
    {
      hide *;
      ghost var s0 := Snap();
      StartsWell();
      NothingListed();
      if rng.lo == rng.hi {
        out, memFreed, memMoved, fwd, freed, frontier := Compacted, 0, 0, map[], {}, rng.lo;
        return;
      }
      var pastEnd;
      pastEnd, memFreed, memMoved, fwd, freed, frontier := Rounds(Snap());
      if pastEnd {
        out := ReadsPastEnd;
      } else {
        out := Compacted;
        AccountedMeans(cellSize, memMoved, memFreed, fwd, freed);
        GarbageIsFreed(types, rng, s0, Snap(), fwd, freed, frontier);
        StaysInside(types, rng, s0, Snap(), fwd, freed, frontier);
      }
    }

    /** The freelist visits exactly the vacated cells, lowest first. */
    ghost predicate Listing(fwd: map<nat, nat>)
      reads this, box
    {
      FreeChain(box[..], freelist, listed) && VacatedAre(fwd, listed, threaded)
    }

    ghost function List(): FreeList
      reads this
    {
      FreeList(freelist, listed)
    }

    lemma StartsWell()
      requires Valid()
      ensures Sized(Snap(), Snap()) && Uniform(rng, Snap().box)
      ensures Slid(types, Snap(), Snap(), map[], {}) && Inside(rng, map[], {})
      ensures rng.lo == rng.hi ==> Frontier(rng, Snap(), rng.lo) && GarbageUpTo(rng, Snap(), rng.lo) == {}
      ensures rng.lo <= rng.hi
    {
      StartPool(types, rng, Snap());
    }

    lemma NothingListed()
      requires freelist == 0 && listed == []
      ensures Listing(map[])
    {
    }

    ghost function Snap(): (s: Snapshot)
      requires Valid()
      reads this, mark, init, pin, box
      ensures |s.mark| == mark.Length
    {
      Snapshot(mark[..], init[..], pin[..], box[..])
    }
  }

  /** The bitmaps and the memory at one moment. */
  datatype Snapshot = Snapshot(mark: seq<bool>, init: seq<bool>, pin: seq<bool>, box: seq<Box>)

  predicate Sized(s0: Snapshot, s: Snapshot) {
    && |s.mark| == |s0.mark| == |s.init| == |s0.init| == |s0.pin| == |s.box| == |s0.box| && s.pin == s0.pin
    && (forall c :: 0 <= c < |s.box| ==> |s.box[c].data| == |s0.box[c].data|)
  }

  /** One relocation: a movable live cell went down into an unmarked one, leaving its new place behind. */
  predicate Relocated(types: Types, s0: Snapshot, s: Snapshot, c: nat, t: nat) {
    && t < c < |s0.mark| == |s0.init| == |s0.pin| == |s0.box| == |s.mark| == |s.init| == |s.box|
    && s0.mark[c] && s0.init[c] && !s0.pin[c] && !s0.mark[t]
    && !s.mark[c] && !s.init[c] && s.mark[t] && s.init[t]
    && Typed(types, s0.box[c]) && |s0.box[t].data| == |s0.box[c].data| > 0
    && s.box[c] == SetForward(s0.box[c], t, s.box[c].count)
    && s.box[t] == MoveInto(s0.box[t], s0.box[c], Words(types, s0.box[c]))
  }

  function LinkTo(list: seq<nat>, i: nat): nat {
    if i < |list| then list[i] + 1 else 0
  }

  /** The freelist visits the cells of `list`, each once. */
  predicate FreeChain(boxes: seq<Box>, freelist: nat, list: seq<nat>) {
    && NoRepeats(list)
    && (forall i :: 0 <= i < |list| ==> list[i] < |boxes| && boxes[list[i]].count == LinkTo(list, i + 1))
    && freelist == LinkTo(list, 0)
  }

  predicate Ascending(list: seq<nat>) {
    forall i, j :: 0 <= i < j < |list| ==> list[i] < list[j]
  }

  predicate Beyond(list: seq<nat>, from: nat) {
    forall i :: 0 <= i < |list| ==> from < list[i]
  }

  lemma ThreadNone(b: seq<Box>, b': seq<Box>, freelist: nat, list: seq<nat>)
    requires FreeChain(b, freelist, list) && |b'| == |b|
    requires forall c: nat :: c < |b| && c in list ==> b'[c].count == b[c].count
    ensures FreeChain(b', freelist, list)
  {
  }

  lemma ThreadOne(b: seq<Box>, b': seq<Box>, freelist: nat, list: seq<nat>, from: nat)
    requires FreeChain(b, freelist, list) && from !in list && from < |b| && |b'| == |b|
    requires forall c: nat :: c < |b| && c != from ==> b'[c] == b[c]
    requires b'[from].count == freelist
    ensures FreeChain(b', from + 1, [from] + list)
  {
    NoRepeatsOne(list, from);
    hide NoRepeats;
    var list' := [from] + list;
    forall i | 0 <= i < |list'| ensures list'[i] < |b'| && b'[list'[i]].count == LinkTo(list', i + 1) {
      if i > 0 {
        assert list'[i] == list[i - 1] && list[i - 1] in list && LinkTo(list', i + 1) == LinkTo(list, i);
      }
    }
  }

  lemma NoRepeatsOne(list: seq<nat>, from: nat)
    requires NoRepeats(list) && from !in list
    ensures NoRepeats([from] + list)
  {
    assert forall i :: 0 <= i < |list| ==> list[i] in list;
  }

  lemma AscendingOne(list: seq<nat>, from: nat)
    requires Ascending(list) && Beyond(list, from)
    ensures Ascending([from] + list) && from !in list
  {
  }

  /** The list names the cells that moved, lowest first. */
  ghost predicate VacatedAre(fwd: map<nat, nat>, list: seq<nat>, threaded: bool) {
    Ascending(list) && if threaded then forall c :: c in list <==> c in fwd else list == []
  }

  lemma ListBeyond(fwd: map<nat, nat>, list: seq<nat>, threaded: bool, from: nat, to: nat)
    requires VacatedAre(fwd, list, threaded) && forall c :: c in fwd ==> from < c
    ensures Beyond(list, from) && (to < from ==> to !in list && from !in list)
    ensures VacatedAre(fwd[from := to], if threaded then [from] + list else list, threaded)
  {
    forall i | 0 <= i < |list| ensures from < list[i] {
      assert list[i] in list;
    }
    AscendingOne(list, from);
  }

  predicate Injective(fwd: map<nat, nat>) {
    forall c, d :: c in fwd && d in fwd && c != d ==> fwd[c] != fwd[d]
  }

  /** A cell that neither moved nor received another keeps everything, but garbage may be freed. */
  predicate Untouched(s0: Snapshot, s: Snapshot, fwd: map<nat, nat>, freed: set<nat>)
    requires Sized(s0, s)
  {
    forall c :: 0 <= c < |s0.mark| && c !in fwd && c !in fwd.Values ==>
      s.mark[c] == s0.mark[c] && s.init[c] == (s0.init[c] && c !in freed) && s.box[c] == s0.box[c]
  }

  predicate Freed(s0: Snapshot, freed: set<nat>)
    requires |s0.init| == |s0.mark|
  {
    forall c :: c in freed ==> c < |s0.mark| && !s0.mark[c] && s0.init[c]
  }

  /** How compaction by `fwd`, freeing the garbage cells `freed`, changes a pool. */
  predicate Slid(types: Types, s0: Snapshot, s: Snapshot, fwd: map<nat, nat>, freed: set<nat>) {
    && Sized(s0, s)
    && (forall c :: c in fwd ==> Relocated(types, s0, s, c, fwd[c]))
    && Injective(fwd)
    && Untouched(s0, s, fwd, freed)
    && Freed(s0, freed)
  }

  /** Garbage that was moved onto has been freed, and none beyond the free finger has. */
  predicate Swept(rng: Range, s0: Snapshot, fwd: map<nat, nat>, freed: set<nat>, to: nat) {
    && (forall c :: c in fwd && fwd[c] < |s0.init| && fwd[c] < |s0.mark| && !s0.mark[fwd[c]] && s0.init[fwd[c]] ==> fwd[c] in freed)
    && (forall c :: c in freed ==> Within(rng, c) && c <= to)
  }

  predicate SweptTo(rng: Range, s0: Snapshot, fwd: map<nat, nat>, freed: set<nat>, to: nat) {
    Swept(rng, s0, fwd, freed, to) && (to < |s0.init| && to < |s0.mark| && !s0.mark[to] && s0.init[to] ==> to in freed)
  }

  function GarbageUpTo(rng: Range, s: Snapshot, f: nat): set<nat> {
    set c: nat | c < |s.mark| && c < |s.init| && Within(rng, c) && c <= f && !s.mark[c] && s.init[c]
  }

  predicate AllMarked(s: Snapshot, lo: nat, hi: nat) {
    hi <= |s.mark| && forall c :: lo <= c < hi ==> s.mark[c]
  }

  predicate CanMove(s: Snapshot, c: nat) {
    c < |s.mark| == |s.init| == |s.pin| && s.mark[c] && s.init[c] && !s.pin[c]
  }

  predicate NoneMovable(s: Snapshot, lo: nat, hi: nat) {
    forall c :: lo <= c < hi ==> !CanMove(s, c)
  }

  /** Every initialised marked cell holds whole objects. */
  predicate AllTyped(types: Types, s: Snapshot) {
    && |s.mark| == |s.init| == |s.box|
    && forall c :: 0 <= c < |s.mark| && s.mark[c] && s.init[c] ==> Typed(types, s.box[c])
  }

  /** Where the two fingers stand: in use below `to`, nothing movable from `from` on. */
  predicate Fingers(rng: Range, s0: Snapshot, s: Snapshot, fwd: map<nat, nat>, to: nat, from: nat) {
    && Sized(s0, s) && Uniform(rng, s.box) && rng.lo <= to <= from <= rng.hi
    && (forall c :: c in fwd ==> from <= c < rng.hi && rng.lo <= fwd[c] <= to)
    && AllMarked(s, rng.lo, to) && NoneMovable(s, from, rng.hi)
    && (from < rng.hi ==> !s.mark[from] && !s.init[from])
  }

  /** What holds between two rounds. */
  predicate Working(types: Types, rng: Range, s0: Snapshot, s: Snapshot, fwd: map<nat, nat>, freed: set<nat>, to: nat, from: nat) {
    AllTyped(types, s) && Slid(types, s0, s, fwd, freed) && Fingers(rng, s0, s, fwd, to, from) && Swept(rng, s0, fwd, freed, to)
  }

  /** Only the first round sees the whole range, so only it can run past the end. */
  predicate Progress(rng: Range, s0: Snapshot, s: Snapshot, to: nat, from: nat) {
    && (from == rng.hi ==> to == rng.lo && s == s0)
    && (from < rng.hi ==> !AllMarked(s0, rng.lo, rng.hi))
  }

  lemma ProgressNext(rng: Range, s0: Snapshot, s: Snapshot, lo: nat, hi: nat, pastEnd: bool, s': Snapshot, to: nat, from: nat)
    requires Progress(rng, s0, s, lo, hi) && hi <= rng.hi
    requires pastEnd <==> hi == rng.hi && AllMarked(s, lo, hi)
    requires if pastEnd then s' == s else from < rng.hi
    ensures pastEnd ==> s' == s0 && AllMarked(s0, rng.lo, rng.hi)
    ensures !pastEnd ==> Progress(rng, s0, s', to, from) && !AllMarked(s0, rng.lo, rng.hi)
  {
  }

  lemma ProgressEnds(rng: Range, s0: Snapshot, s: Snapshot, to: nat)
    requires Progress(rng, s0, s, to, to) && to <= rng.hi && rng.lo < rng.hi
    ensures !AllMarked(s0, rng.lo, rng.hi)
  {
  }

  lemma StartSlid(types: Types, s0: Snapshot)
    requires Sized(s0, s0)
    ensures Slid(types, s0, s0, map[], {})
  {
    assert Untouched(s0, s0, map[], {});
  }

  lemma Start(types: Types, rng: Range, s0: Snapshot, cellSize: nat)
    requires AllTyped(types, s0) && Sized(s0, s0) && Uniform(rng, s0.box)
    ensures Working(types, rng, s0, s0, map[], {}, rng.lo, rng.hi) && Progress(rng, s0, s0, rng.lo, rng.hi)
    ensures Accounted(cellSize, 0, 0, map[], {})
  {
    hide Slid, AllTyped;
    StartSlid(types, s0);
    assert Fingers(rng, s0, s0, map[], rng.lo, rng.hi);
  }

  lemma FingersUp(rng: Range, s0: Snapshot, s: Snapshot, fwd: map<nat, nat>, lo: nat, hi: nat, to: nat)
    requires Fingers(rng, s0, s, fwd, lo, hi) && lo <= to <= hi && AllMarked(s, lo, to)
    ensures Fingers(rng, s0, s, fwd, to, hi)
  {
  }

  lemma FingersMet(rng: Range, s0: Snapshot, s1: Snapshot, s2: Snapshot, fwd: map<nat, nat>, to: nat, hi: nat)
    requires Fingers(rng, s0, s1, fwd, to, hi) && to < |s1.mark| && !s1.mark[to]
    requires s2 == s1.(init := s1.init[to := false]) && NoneMovable(s2, to, hi)
    ensures Fingers(rng, s0, s2, fwd, to, to)
  {
    forall c | to <= c < rng.hi ensures !CanMove(s2, c) {
      assert c >= hi ==> !CanMove(s1, c);
    }
  }

  lemma FingersMoved(types: Types, rng: Range, s0: Snapshot, s1: Snapshot, s2: Snapshot, fwd: map<nat, nat>,
                     to: nat, hi: nat, from: nat, word: nat)
    requires Fingers(rng, s0, s1, fwd, to, hi) && to < from < hi && !s1.mark[to]
    requires s2 == s1.(init := s1.init[to := false]) && CanMove(s2, from) && NoneMovable(s2, from + 1, hi)
    requires Typed(types, s2.box[from])
    ensures Sized(s0, s2) && Fingers(rng, s0, AfterMove(types, s2, from, to, word), fwd[from := to], to, from)
  {
    var s3 := AfterMove(types, s2, from, to, word);
    forall c | from <= c < rng.hi ensures !CanMove(s3, c) {
      assert c > from && c < hi ==> !CanMove(s2, c);
      assert c >= hi ==> !CanMove(s1, c);
    }
    MovedSized(types, s0, s2, from, to, word);
  }

  lemma MovedSized(types: Types, s0: Snapshot, s: Snapshot, from: nat, to: nat, word: nat)
    requires Sized(s0, s) && to < from < |s.mark| && Typed(types, s.box[from]) && |s.box[from].data| == |s.box[to].data| > 0
    ensures Sized(s0, AfterMove(types, s, from, to, word))
  {
  }

  lemma MovedTyped(types: Types, s: Snapshot, from: nat, to: nat, word: nat)
    requires AllTyped(types, s) && to < from < |s.mark| && s.mark[from] && s.init[from]
    requires |s.box[from].data| == |s.box[to].data| > 0
    ensures AllTyped(types, AfterMove(types, s, from, to, word))
  {
  }

  /** The statistics count one cell size for every relocation and every reclaimed garbage cell. */
  predicate Accounted(cellSize: nat, memMoved: nat, memFreed: nat, fwd: map<nat, nat>, freed: set<nat>) {
    memMoved == cellSize * |fwd| && memFreed == cellSize * |freed|
  }

  lemma AccountedMeans(cellSize: nat, memMoved: nat, memFreed: nat, fwd: map<nat, nat>, freed: set<nat>)
    requires Accounted(cellSize, memMoved, memFreed, fwd, freed)
    ensures memMoved == cellSize * |fwd| && memFreed == cellSize * |freed|
  {
  }

  lemma AccountedNext(cellSize: nat, memMoved: nat, memFreed: nat, fwd: map<nat, nat>, freed: set<nat>,
                      fwd': map<nat, nat>, freed': set<nat>, moved: bool, garbage: bool)
    requires Accounted(cellSize, memMoved, memFreed, fwd, freed)
    requires |fwd'| == |fwd| + (if moved then 1 else 0) && |freed'| == |freed| + (if garbage then 1 else 0)
    ensures Accounted(cellSize,
                      if moved then memMoved + cellSize else memMoved,
                      if garbage then memFreed + cellSize else memFreed, fwd', freed')
  {
  }

  function AfterMove(types: Types, s: Snapshot, from: nat, to: nat, word: nat): Snapshot
    requires to < from < |s.mark| == |s.init| == |s.box|
    requires Typed(types, s.box[from]) && |s.box[from].data| == |s.box[to].data| > 0
  {
    Snapshot(
      s.mark[from := false][to := true],
      s.init[from := false][to := true],
      s.pin,
      s.box[from := SetForward(s.box[from], to, word)][to := MoveInto(s.box[to], s.box[from], Words(types, s.box[from]))])
  }

  predicate SameAt(s: Snapshot, s': Snapshot, c: nat) {
    && c < |s.mark| == |s.init| == |s.box| == |s'.mark| == |s'.init| == |s'.box|
    && s'.mark[c] == s.mark[c] && s'.init[c] == s.init[c] && s'.box[c] == s.box[c]
  }

  lemma RelocatedStays(types: Types, s0: Snapshot, s: Snapshot, s': Snapshot, c: nat, t: nat)
    requires Relocated(types, s0, s, c, t) && SameAt(s, s', c) && SameAt(s, s', t)
    ensures Relocated(types, s0, s', c, t)
  {
  }

  lemma ReclaimUntouched(s0: Snapshot, s: Snapshot, fwd: map<nat, nat>, freed: set<nat>, to: nat)
    requires Sized(s0, s) && Untouched(s0, s, fwd, freed) && Freed(s0, freed)
    requires to < |s.mark| && !s.mark[to] && s.init[to] && to !in fwd && to !in fwd.Values
    ensures Sized(s0, s.(init := s.init[to := false])) && to !in freed
    ensures Untouched(s0, s.(init := s.init[to := false]), fwd, freed + {to}) && Freed(s0, freed + {to})
  {
  }

  lemma ReclaimKeeps(types: Types, rng: Range, s0: Snapshot, s: Snapshot, fwd: map<nat, nat>, freed: set<nat>, to: nat, from: nat)
    requires Slid(types, s0, s, fwd, freed) && Fingers(rng, s0, s, fwd, to, from) && to < |s.mark| && !s.mark[to]
    ensures var s' := s.(init := s.init[to := false]);
      && Sized(s0, s') && (s.init[to] ==> to !in freed)
      && Slid(types, s0, s', fwd, if s.init[to] then freed + {to} else freed)
  {
    var s' := s.(init := s.init[to := false]);
    if s.init[to] {
      forall c | c in fwd ensures Relocated(types, s0, s', c, fwd[c]) && c != to && fwd[c] != to {
        assert Relocated(types, s0, s, c, fwd[c]);
        RelocatedStays(types, s0, s, s', c, fwd[c]);
      }
      ReclaimUntouched(s0, s, fwd, freed, to);
    } else {
      assert s' == s;
    }
  }

  lemma ReclaimTyped(types: Types, s: Snapshot, to: nat)
    requires AllTyped(types, s) && to < |s.mark|
    ensures AllTyped(types, s.(init := s.init[to := false]))
    ensures !s.init[to] ==> s.(init := s.init[to := false]) == s
  {
  }

  lemma ReclaimSweeps(types: Types, rng: Range, s0: Snapshot, s: Snapshot, fwd: map<nat, nat>, freed: set<nat>,
                      to: nat, from: nat)
    requires Slid(types, s0, s, fwd, freed) && Fingers(rng, s0, s, fwd, to, from) && to < rng.hi && !s.mark[to]
    requires Swept(rng, s0, fwd, freed, to)
    ensures SweptTo(rng, s0, fwd, if s.init[to] then freed + {to} else freed, to)
  {
    assert forall c :: c in fwd ==> Relocated(types, s0, s, c, fwd[c]);
    assert to in fwd ==> s0.mark[to];
  }

  lemma SweptUp(rng: Range, s0: Snapshot, fwd: map<nat, nat>, freed: set<nat>, lo: nat, to: nat)
    requires Swept(rng, s0, fwd, freed, lo) && lo <= to
    ensures Swept(rng, s0, fwd, freed, to)
  {
  }

  lemma SweptMoved(rng: Range, s0: Snapshot, fwd: map<nat, nat>, freed: set<nat>, to: nat, from: nat)
    requires SweptTo(rng, s0, fwd, freed, to)
    ensures Swept(rng, s0, fwd, freed, to) && Swept(rng, s0, fwd[from := to], freed, to)
  {
  }

  /** The garbage that compaction frees is exactly that up to the frontier; what lies above stays. */
  lemma GarbageIsFreed(types: Types, rng: Range, s0: Snapshot, s: Snapshot, fwd: map<nat, nat>, freed: set<nat>, f: nat)
    requires Working(types, rng, s0, s, fwd, freed, f, f)
    ensures Slid(types, s0, s, fwd, freed) && freed == GarbageUpTo(rng, s0, f) && Frontier(rng, s, f)
  {
    forall c: nat | c in GarbageUpTo(rng, s0, f) ensures c in freed {
      assert c in fwd ==> Relocated(types, s0, s, c, fwd[c]);
      if c in fwd.Values {
        var d :| d in fwd && fwd[d] == c;
      } else {
        assert s.mark[c] == s0.mark[c];
        assert c == f;
      }
    }
  }

  lemma MoveUntouched(types: Types, s0: Snapshot, s: Snapshot, fwd: map<nat, nat>, freed: set<nat>, from: nat, to: nat, word: nat)
    requires Sized(s0, s) && Untouched(s0, s, fwd, freed) && from !in fwd && to < from < |s.mark|
    requires Typed(types, s.box[from]) && |s.box[from].data| == |s.box[to].data| > 0
    ensures Sized(s0, AfterMove(types, s, from, to, word))
    ensures Untouched(s0, AfterMove(types, s, from, to, word), fwd[from := to], freed)
  {
    var fwd' := fwd[from := to];
    assert from in fwd' && fwd'[from] == to && to in fwd'.Values;
    forall c | c in fwd.Values ensures c in fwd'.Values {
      var d :| d in fwd && fwd[d] == c;
      assert d in fwd' && fwd'[d] == c;
    }
    var s' := AfterMove(types, s, from, to, word);
    forall c: nat | c < |s.mark| && c != from && c != to ensures SameAt(s, s', c) {
    }
  }

  lemma OthersAway(types: Types, s0: Snapshot, s: Snapshot, fwd: map<nat, nat>, from: nat, to: nat, c: nat, word: nat)
    requires c in fwd && Relocated(types, s0, s, c, fwd[c]) && to < from < c && fwd[c] <= to && !s.mark[to]
    requires Sized(s0, s) && Typed(types, s.box[from]) && |s.box[from].data| == |s.box[to].data| > 0
    ensures fwd[c] != to && Relocated(types, s0, AfterMove(types, s, from, to, word), c, fwd[c])
  {
    RelocatedStays(types, s0, s, AfterMove(types, s, from, to, word), c, fwd[c]);
  }

  lemma MoveKeeps(types: Types, s0: Snapshot, s: Snapshot, fwd: map<nat, nat>, freed: set<nat>, from: nat, to: nat, word: nat)
    requires Slid(types, s0, s, fwd, freed) && to < from < |s.mark|
    requires s.mark[from] && s.init[from] && !s.pin[from] && !s.mark[to] && !s.init[to]
    requires Typed(types, s.box[from]) && |s.box[from].data| == |s.box[to].data| > 0
    requires forall c :: c in fwd ==> from < c && fwd[c] <= to
    ensures Slid(types, s0, AfterMove(types, s, from, to, word), fwd[from := to], freed)
    ensures |fwd[from := to]| == |fwd| + 1
  {
    hide Relocated, Typed, Untouched, SetForward, MoveInto, Words;
    var s' := AfterMove(types, s, from, to, word);
    forall c | c in fwd ensures Relocated(types, s0, s', c, fwd[c]) && fwd[c] != to {
      OthersAway(types, s0, s, fwd, from, to, c, word);
    }
    FreshMove(types, s0, s, fwd, freed, from, to, word);
    MoveUntouched(types, s0, s, fwd, freed, from, to, word);
  }

  lemma FreshMove(types: Types, s0: Snapshot, s: Snapshot, fwd: map<nat, nat>, freed: set<nat>, from: nat, to: nat, word: nat)
    requires Slid(types, s0, s, fwd, freed) && to < from < |s.mark|
    requires s.mark[from] && s.init[from] && !s.pin[from] && !s.mark[to] && !s.init[to]
    requires Typed(types, s.box[from]) && |s.box[from].data| == |s.box[to].data| > 0
    requires forall c :: c in fwd ==> from < c && fwd[c] <= to
    ensures Relocated(types, s0, AfterMove(types, s, from, to, word), from, to)
  {
    assert forall c :: c in fwd ==> Relocated(types, s0, s, c, fwd[c]);
    assert from !in fwd && from !in fwd.Values && to !in fwd && to !in fwd.Values;
  }

  /** Compaction concerns the cells of its range alone. */
  predicate Inside(rng: Range, fwd: map<nat, nat>, freed: set<nat>) {
    && (forall c :: c in fwd ==> Within(rng, c) && Within(rng, fwd[c]))
    && (forall c :: c in freed ==> Within(rng, c))
  }

  lemma StaysInside(types: Types, rng: Range, s0: Snapshot, s: Snapshot, fwd: map<nat, nat>, freed: set<nat>, f: nat)
    requires Working(types, rng, s0, s, fwd, freed, f, f)
    ensures Inside(rng, fwd, freed)
  {
    forall c | c in fwd ensures Within(rng, c) && Within(rng, fwd[c]) {
      assert Relocated(types, s0, s, c, fwd[c]);
    }
  }

  /** Before the first round; an empty pool is done with. */
  lemma StartPool(types: Types, rng: Range, s: Snapshot)
    requires |s.mark| == |s.init| == |s.pin| == |s.box| && Uniform(rng, s.box)
    ensures Sized(s, s) && Slid(types, s, s, map[], {}) && Inside(rng, map[], {})
    ensures rng.lo == rng.hi ==> Frontier(rng, s, rng.lo) && GarbageUpTo(rng, s, rng.lo) == {}
  {
    StartSlid(types, s);
  }

  // ---- Sweeping a pool

  function GarbageBelow(rng: Range, s: Snapshot, n: nat): set<nat> {
    set c: nat | c < |s.mark| && c < |s.init| && rng.lo <= c < n && !s.mark[c] && s.init[c]
  }

  /** What a sweep does to cell `c`: garbage is no longer committed, and a threaded free cell holds a link. */
  function SweepCell(s: Snapshot, c: nat, threaded: bool, link: nat): Snapshot
    requires c < |s.mark| == |s.init| == |s.box|
  {
    if s.mark[c] then s
    else s.(init := s.init[c := false], box := if threaded then s.box[c := s.box[c].(count := link)] else s.box)
  }

  /** The pool's cells below `n` have been swept. */
  predicate SweptBelow(rng: Range, s0: Snapshot, s: Snapshot, n: nat) {
    && s.mark == s0.mark && s.pin == s0.pin && |s.init| == |s0.init| == |s.box| == |s0.box| == |s0.mark|
    && forall c :: 0 <= c < |s.mark| ==>
         if rng.lo <= c < n && !s0.mark[c] then !s.init[c] && s.box[c] == s0.box[c].(count := s.box[c].count)
         else s.init[c] == s0.init[c] && s.box[c] == s0.box[c]
  }

  /** The list names the unmarked cells below `n`. */
  ghost predicate UnmarkedAre(rng: Range, mark: seq<bool>, n: nat, list: seq<nat>, threaded: bool) {
    if threaded then forall c: nat :: c in list <==> rng.lo <= c < n && c < |mark| && !mark[c] else list == []
  }

  lemma StartSweep(rng: Range, s: Snapshot, threaded: bool)
    requires |s.mark| == |s.init| == |s.box| && rng.lo <= |s.mark|
    ensures SweptBelow(rng, s, s, rng.lo) && UnmarkedAre(rng, s.mark, rng.lo, [], threaded) && GarbageBelow(rng, s, rng.lo) == {}
    ensures FreeChain(s.box, 0, [])
  {
  }

  lemma SweepOne(rng: Range, s0: Snapshot, s: Snapshot, c: nat, threaded: bool, link: nat, list: seq<nat>)
    requires SweptBelow(rng, s0, s, c) && rng.lo <= c < |s.mark| && UnmarkedAre(rng, s.mark, c, list, threaded)
    ensures SweptBelow(rng, s0, SweepCell(s, c, threaded, link), c + 1) && c !in list
    ensures UnmarkedAre(rng, s.mark, c + 1, if threaded && !s.mark[c] then [c] + list else list, threaded)
    ensures GarbageBelow(rng, s0, c + 1) == GarbageBelow(rng, s0, c) + (if !s.mark[c] && s.init[c] then {c} else {})
    ensures c !in GarbageBelow(rng, s0, c)
  {
  }

  /** Below `f` every cell is in use; from `f` on no cell could still be moved. */
  predicate Frontier(rng: Range, s: Snapshot, f: nat) {
    rng.lo <= f <= rng.hi && AllMarked(s, rng.lo, f) && NoneMovable(s, f, rng.hi)
  }
}
