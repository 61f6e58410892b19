/** The marker run by one thread: roots are queued in packets, and the worker loop drains them. */
module SerialMarker {
  import opened Common
  import opened HeapGraph
  import opened Packets

  datatype Outcome = Finished | Overflow

  predicate Queued(cells: seq<seq<nat>>, c: nat) {
    exists p: nat :: p < |cells| && c in cells[p]
  }

  /** The first `n` handles of `c` lead to marked cells. */
  predicate ScannedTo(heap: Heap, marks: set<nat>, c: nat, n: nat)
    requires c in heap
  {
    forall j: nat :: j < n && j < |heap[c]| && heap[c][j].To? ==> heap[c][j].ptr.cell in marks
  }

  predicate Scanned(heap: Heap, marks: set<nat>, c: nat)
    requires c in heap
  {
    ScannedTo(heap, marks, c, |heap[c]|)
  }

  /** The starts and the handles of reachable cells lead into the heap; what garbage holds does not matter. */
  ghost predicate ClosedFrom(heap: Heap, starts: set<nat>) {
    forall c :: Reachable(heap, starts, c) ==> c in heap
  }

  /** The cell being scanned, and how far. */
  datatype Focus = Nowhere | At(c: nat, n: nat)

  /** Marked cells are queued, in focus or scanned; queued cells are marked. */
  predicate Colours(heap: Heap, marks: set<nat>, cells: seq<seq<nat>>, focus: Focus) {
    && (forall c :: c in marks ==> c in heap)
    && (forall p: nat, c :: p < |cells| && c in cells[p] ==> c in marks)
    && (forall c :: c in marks ==> Queued(cells, c) || (focus.At? && focus.c == c) || Scanned(heap, marks, c))
    && (focus.At? ==> focus.c in marks && ScannedTo(heap, marks, focus.c, focus.n))
  }

  ghost predicate OnlyReachable(heap: Heap, starts: set<nat>, marks: set<nat>) {
    forall c :: c in marks ==> Reachable(heap, starts, c)
  }

  /** The cells that handles or pins lead to. */
  function TargetsOf(roots: seq<Handle>): set<nat> {
    set i | 0 <= i < |roots| && roots[i].To? :: roots[i].ptr.cell
  }

  // ---- How the steps keep the colours

  lemma PopColours(heap: Heap, marks: set<nat>, cells: seq<seq<nat>>, p: nat)
    requires Colours(heap, marks, cells, Nowhere) && p < |cells| && |cells[p]| > 0
    ensures var n := |cells[p]| - 1; Colours(heap, marks, cells[p := cells[p][..n]], At(cells[p][n], 0))
  {
    var n := |cells[p]| - 1;
    var cells' := cells[p := cells[p][..n]];
    forall c | c in marks && c != cells[p][n]
      ensures Queued(cells', c) || Scanned(heap, marks, c)
    {
      if Queued(cells, c) {
        var q: nat :| q < |cells| && c in cells[q];
        assert q != p ==> c in cells'[q];
        assert q == p ==> c in cells'[p];
      }
    }
  }

  lemma SkipColours(heap: Heap, marks: set<nat>, cells: seq<seq<nat>>, c: nat, n: nat)
    requires Colours(heap, marks, cells, At(c, n)) && c in heap && n < |heap[c]|
    requires heap[c][n].To? ==> heap[c][n].ptr.cell in marks
    ensures Colours(heap, marks, cells, At(c, n + 1))
  {
  }

  lemma PushColours(heap: Heap, marks: set<nat>, cells: seq<seq<nat>>, c: nat, n: nat, p: nat)
    requires Colours(heap, marks, cells, At(c, n)) && c in heap && n < |heap[c]| && p < |cells|
    requires heap[c][n].To? && heap[c][n].ptr.cell in heap
    ensures var d := heap[c][n].ptr.cell; Colours(heap, marks + {d}, cells[p := cells[p] + [d]], At(c, n + 1))
  {
    var d := heap[c][n].ptr.cell;
    MarkMoreColours(heap, marks, cells, At(c, n), d, p);
  }

  lemma MarkMoreColours(heap: Heap, marks: set<nat>, cells: seq<seq<nat>>, focus: Focus, d: nat, p: nat)
    requires Colours(heap, marks, cells, focus) && p < |cells| && d in heap
    ensures Colours(heap, marks + {d}, cells[p := cells[p] + [d]], focus)
  {
    var marks', cells' := marks + {d}, cells[p := cells[p] + [d]];
    assert d in cells'[p];
    forall x | x in marks && Queued(cells, x) ensures Queued(cells', x) {
      var q: nat :| q < |cells| && x in cells[q];
      assert x in cells'[q];
    }
    forall x | x in marks && Scanned(heap, marks, x) ensures Scanned(heap, marks', x) {
    }
  }

  lemma EndColours(heap: Heap, marks: set<nat>, cells: seq<seq<nat>>, c: nat)
    requires c in heap && Colours(heap, marks, cells, At(c, |heap[c]|))
    ensures Colours(heap, marks, cells, Nowhere)
  {
  }

  lemma TargetReachable(heap: Heap, starts: set<nat>, marks: set<nat>, cells: seq<seq<nat>>, c: nat, n: nat)
    requires OnlyReachable(heap, starts, marks) && Colours(heap, marks, cells, At(c, n)) && c in heap && n < |heap[c]| && heap[c][n].To?
    ensures OnlyReachable(heap, starts, marks + {heap[c][n].ptr.cell})
    ensures ClosedFrom(heap, starts) ==> heap[c][n].ptr.cell in heap
  {
    assert Targets(heap[c][n], heap[c][n].ptr.cell);
    ReachableStep(heap, starts, c, heap[c][n].ptr.cell);
  }

  lemma RootReachable(heap: Heap, starts: set<nat>, marks: set<nat>, c: nat)
    requires OnlyReachable(heap, starts, marks) && c in starts
    ensures OnlyReachable(heap, starts, marks + {c})
    ensures ClosedFrom(heap, starts) ==> c in heap
  {
    StartIsReachable(heap, starts, c);
  }

  /** With nothing queued, exactly the reachable cells are marked. */
  lemma MarkingExact(heap: Heap, starts: set<nat>, marks: set<nat>, cells: seq<seq<nat>>)
    requires Colours(heap, marks, cells, Nowhere) && OnlyReachable(heap, starts, marks) && starts <= marks
    requires forall p: nat :: p < |cells| ==> cells[p] == []
    ensures forall c :: c in marks <==> Reachable(heap, starts, c)
  {
    forall c | c in marks ensures Scanned(heap, marks, c) {
      assert !Queued(cells, c);
    }
    var good := iset c | c in marks;
    assert Closed(heap, starts, good);
    ReachableIsLeast(heap, starts, good);
  }

  // ---- What makes the loops end

  function Total(cells: seq<seq<nat>>): nat {
    if cells == [] then 0 else Total(cells[..|cells| - 1]) + |cells[|cells| - 1]|
  }

  lemma {:induction false} TotalUpdate(cells: seq<seq<nat>>, p: nat, s: seq<nat>)
    requires p < |cells|
    ensures Total(cells[p := s]) + |cells[p]| == Total(cells) + |s|
  {
    var n := |cells| - 1;
    if p == n {
      assert cells[p := s][..n] == cells[..n];
    } else {
      assert cells[p := s][..n] == cells[..n][p := s];
      TotalUpdate(cells[..n], p, s);
    }
  }

  /** Unmarked cells count twice, queued ones once. */
  function Work(heap: Heap, marks: set<nat>, cells: seq<seq<nat>>): nat {
    2 * |heap.Keys - marks| + Total(cells)
  }

  lemma PopLowersWork(heap: Heap, marks: set<nat>, cells: seq<seq<nat>>, p: nat)
    requires p < |cells| && |cells[p]| > 0
    ensures Work(heap, marks, cells[p := cells[p][..|cells[p]| - 1]]) < Work(heap, marks, cells)
  {
    TotalUpdate(cells, p, cells[p][..|cells[p]| - 1]);
  }

  lemma MarkLowersWork(heap: Heap, marks: set<nat>, cells: seq<seq<nat>>, d: nat, p: nat)
    requires p < |cells| && d in heap && d !in marks
    ensures Work(heap, marks + {d}, cells[p := cells[p] + [d]]) < Work(heap, marks, cells)
  {
    TotalUpdate(cells, p, cells[p] + [d]);
    assert heap.Keys - (marks + {d}) == (heap.Keys - marks) - {d};
    assert |(heap.Keys - marks) - {d}| == |heap.Keys - marks| - 1;
  }

  // ---- When packets run out

  /** What all packets but one hold at least when none of them is empty or partial. */
  const CAPACITY: nat := (PACKETS_COUNT - 1) * (PACKET_SIZE / 2)

  lemma {:induction false} TotalAtLeast(cells: seq<seq<nat>>, p: int)
    requires forall q: nat :: q < |cells| && q != p ==> |cells[q]| >= PACKET_SIZE / 2
    ensures Total(cells) >= (if 0 <= p < |cells| then |cells| - 1 else |cells|) * (PACKET_SIZE / 2)
  {
    if cells != [] {
      TotalAtLeast(cells[..|cells| - 1], p);
    }
  }

  /** The packets that are out are exactly these; NIL stands for none. */
  predicate HeldAre(place: seq<Place>, hs: set<int>) {
    |place| == PACKETS_COUNT && forall p: nat :: p < PACKETS_COUNT ==> (place[p].Held? <==> p in hs)
  }

  predicate NoneToGive(place: seq<Place>) {
    |place| == PACKETS_COUNT && forall q: nat :: q < PACKETS_COUNT ==> !place[q].InEmpty? && !place[q].InPartial?
  }

  /** An output packet is refused only when all packets but at most one are at least half full. */
  lemma RefusedWhenFull(cells: seq<seq<nat>>, place: seq<Place>, p: int)
    requires Sorted(cells, place) && NoneToGive(place)
    requires forall q: nat :: q < PACKETS_COUNT && place[q].Held? && q != p ==> |cells[q]| >= PACKET_SIZE / 2
    ensures Total(cells) >= CAPACITY
  {
    TotalAtLeast(cells, p);
  }

  lemma OneHeldTotal(cells: seq<seq<nat>>, place: seq<Place>, p: int)
    requires Sorted(cells, place) && HeldAre(place, {p, NIL}) && NoneToGive(place)
    ensures Total(cells) >= CAPACITY
  {
    RefusedWhenFull(cells, place, p);
  }

  // ---- The bag that the packets are

  function Bag(cells: seq<seq<nat>>): multiset<nat> {
    if cells == [] then multiset{} else Bag(cells[..|cells| - 1]) + multiset(cells[|cells| - 1])
  }

  lemma {:induction false} BagTotal(cells: seq<seq<nat>>)
    ensures |Bag(cells)| == Total(cells)
  {
    if cells != [] {
      BagTotal(cells[..|cells| - 1]);
    }
  }

  lemma BothGrow(a: multiset<nat>, b: multiset<nat>, c: multiset<nat>, d: multiset<nat>, rest: multiset<nat>)
    requires a + b == c + d
    ensures (a + rest) + b == (c + rest) + d
  {
    assert (a + rest) + b == (a + b) + rest;
    assert (c + rest) + d == (c + d) + rest;
  }

  lemma Cancel(a: multiset<nat>, b: multiset<nat>, c: multiset<nat>, d: multiset<nat>)
    requires a + b == c + (b + d)
    ensures a == c + d
  {
    forall x ensures a[x] == (c + d)[x] {
      assert (a + b)[x] == (c + (b + d))[x];
    }
  }

  lemma {:induction false} BagUpdate(cells: seq<seq<nat>>, p: nat, s: seq<nat>)
    requires p < |cells|
    ensures Bag(cells[p := s]) + multiset(cells[p]) == Bag(cells) + multiset(s)
  {
    var n := |cells| - 1;
    if p == n {
      assert cells[p := s][..n] == cells[..n];
    } else {
      var front, rest := cells[..n], multiset(cells[n]);
      BagUpdate(front, p, s);
      assert cells[p := s][..n] == front[p := s] && front[p] == cells[p];
      BothGrow(Bag(front[p := s]), multiset(cells[p]), Bag(front), multiset(s), rest);
    }
  }

  lemma BagPush(cells: seq<seq<nat>>, p: nat, d: nat)
    requires p < |cells|
    ensures Bag(cells[p := cells[p] + [d]]) == Bag(cells) + multiset{d}
  {
    BagUpdate(cells, p, cells[p] + [d]);
    assert multiset(cells[p] + [d]) == multiset(cells[p]) + multiset{d};
    Cancel(Bag(cells[p := cells[p] + [d]]), multiset(cells[p]), Bag(cells), multiset{d});
  }

  lemma TakeOne(all: multiset<nat>, less: multiset<nat>, d: nat)
    requires all == less + multiset{d}
    ensures d in all && less == all - multiset{d}
  {
  }

  lemma BagPop(cells: seq<seq<nat>>, p: nat)
    requires p < |cells| && |cells[p]| > 0
    ensures var n := |cells[p]| - 1;
      cells[p][n] in Bag(cells) && Bag(cells[p := cells[p][..n]]) == Bag(cells) - multiset{cells[p][n]}
  {
    hide Bag;
    var n := |cells[p]| - 1;
    var front, d := cells[p][..n], cells[p][n];
    assert front + [d] == cells[p];
    assert cells[p := front][p := front + [d]] == cells;
    BagPush(cells[p := front], p, d);
    TakeOne(Bag(cells), Bag(cells[p := front]), d);
  }

  lemma {:induction false} EmptyBag(cells: seq<seq<nat>>)
    requires forall p :: 0 <= p < |cells| ==> cells[p] == []
    ensures Bag(cells) == multiset{}
  {
    if cells != [] {
      EmptyBag(cells[..|cells| - 1]);
    }
  }

  // ---- The marker's work with a bag for the packets

  /** How many roots have been looked at, the marked cells, the queued ones and the cell being scanned. */
  datatype Tracer = Tracer(next: nat, marks: set<nat>, queue: multiset<nat>, focus: Focus)

  predicate AddsRoot(roots: seq<Handle>, a: Tracer, b: Tracer) {
    && a.next < |roots| && a.focus.Nowhere?
    && b == match roots[a.next]
            case Null => a.(next := a.next + 1)
            case To(p) => a.(next := a.next + 1, marks := a.marks + {p.cell}, queue := a.queue + multiset{p.cell})
  }

  /** Any queued cell may come next. */
  predicate Takes(roots: seq<Handle>, a: Tracer, b: Tracer) {
    && a.next == |roots| && a.focus.Nowhere? && b.focus.At? && b.focus.c in a.queue
    && b == a.(queue := a.queue - multiset{b.focus.c}, focus := At(b.focus.c, 0))
  }

  predicate Reads(heap: Heap, a: Tracer, b: Tracer) {
    && a.focus.At? && a.focus.c in heap && a.focus.n < |heap[a.focus.c]|
    && var past := a.(focus := At(a.focus.c, a.focus.n + 1));
       b == match heap[a.focus.c][a.focus.n]
            case Null => past
            case To(p) =>
              if p.cell in a.marks then past else past.(marks := a.marks + {p.cell}, queue := a.queue + multiset{p.cell})
  }

  predicate Leaves(heap: Heap, a: Tracer, b: Tracer) {
    a.focus.At? && a.focus.c in heap && a.focus.n == |heap[a.focus.c]| && b == a.(focus := Nowhere)
  }

  predicate Steps(heap: Heap, roots: seq<Handle>, a: Tracer, b: Tracer) {
    AddsRoot(roots, a, b) || Takes(roots, a, b) || Reads(heap, a, b) || Leaves(heap, a, b)
  }

  /** A run of the tracer from its start. */
  predicate TracerRun(heap: Heap, roots: seq<Handle>, h: seq<Tracer>) {
    && |h| > 0 && h[0] == Tracer(0, {}, multiset{}, Nowhere)
    && forall i :: 0 <= i < |h| - 1 ==> Steps(heap, roots, h[i], h[i + 1])
  }

  predicate Overflows(heap: Heap, roots: seq<Handle>, h: seq<Tracer>) {
    TracerRun(heap, roots, h) && |h[|h| - 1].queue| >= CAPACITY
  }

  predicate EndsAt(heap: Heap, roots: seq<Handle>, h: seq<Tracer>, a: Tracer) {
    TracerRun(heap, roots, h) && h[|h| - 1] == a
  }

  lemma RunGrows(heap: Heap, roots: seq<Handle>, h: seq<Tracer>, a: Tracer, b: Tracer)
    requires EndsAt(heap, roots, h, a) && Steps(heap, roots, a, b)
    ensures EndsAt(heap, roots, h + [b], b)
  {
    hide Steps;
  }

  lemma RunOverflows(heap: Heap, roots: seq<Handle>, h: seq<Tracer>, a: Tracer, cells: seq<seq<nat>>)
    requires EndsAt(heap, roots, h, a) && a.queue == Bag(cells) && Total(cells) >= CAPACITY
    ensures Overflows(heap, roots, h)
  {
    BagTotal(cells);
  }

  lemma RunPushes(heap: Heap, roots: seq<Handle>, h: seq<Tracer>, a: Tracer, b: Tracer, cells: seq<seq<nat>>, p: nat, d: nat)
    requires EndsAt(heap, roots, h, a) && Steps(heap, roots, a, b)
    requires a.queue == Bag(cells) && p < |cells| && b.queue == a.queue + multiset{d}
    ensures EndsAt(heap, roots, h + [b], b) && b.queue == Bag(cells[p := cells[p] + [d]])
  {
    hide EndsAt, Steps;
    RunGrows(heap, roots, h, a, b);
    BagPush(cells, p, d);
  }

  lemma RunPops(heap: Heap, roots: seq<Handle>, h: seq<Tracer>, a: Tracer, cells: seq<seq<nat>>, p: nat)
    requires EndsAt(heap, roots, h, a) && a.next == |roots| && a.focus.Nowhere?
    requires a.queue == Bag(cells) && p < |cells| && |cells[p]| > 0
    ensures var n := |cells[p]| - 1;
      var b := a.(queue := Bag(cells[p := cells[p][..n]]), focus := At(cells[p][n], 0)); EndsAt(heap, roots, h + [b], b)
  {
    hide EndsAt, Bag, TracerRun, Reads, AddsRoot, Leaves;
    BagPop(cells, p);
    var n := |cells[p]| - 1;
    RunGrows(heap, roots, h, a, a.(queue := Bag(cells[p := cells[p][..n]]), focus := At(cells[p][n], 0)));
  }

  /** Handles that are not null. */
  function Count(roots: seq<Handle>): nat {
    if roots == [] then 0 else Count(roots[..|roots| - 1]) + if roots[|roots| - 1].To? then 1 else 0
  }

  lemma {:induction false} CountGrows(roots: seq<Handle>, n: nat)
    requires n <= |roots|
    ensures Count(roots[..n]) <= Count(roots)
  {
    if n < |roots| {
      var front := roots[..|roots| - 1];
      assert roots[..n] == front[..n];
      CountGrows(front, n);
    } else {
      assert roots[..n] == roots;
    }
  }

  lemma {:induction false} CountAtMost(roots: seq<Handle>)
    ensures Count(roots) <= |roots|
  {
    if roots != [] {
      CountAtMost(roots[..|roots| - 1]);
    }
  }

  lemma CountNext(roots: seq<Handle>, n: nat)
    requires n < |roots|
    ensures Count(roots[..n + 1]) == Count(roots[..n]) + if roots[n].To? then 1 else 0
  {
    assert roots[..n + 1][..n] == roots[..n];
  }

  /** Each cell is queued once when it is marked, and once more by each root that finds it marked. */
  lemma {:induction false} QueueBound(heap: Heap, roots: seq<Handle>, h: seq<Tracer>, i: nat)
    requires TracerRun(heap, roots, h) && i < |h|
    ensures h[i].next <= |roots| && |h[i].queue| <= |h[i].marks| + Count(roots[..h[i].next])
    ensures OnlyReachable(heap, TargetsOf(roots), h[i].marks)
    ensures (forall c :: c in h[i].queue ==> c in h[i].marks) && (h[i].focus.At? ==> h[i].focus.c in h[i].marks)
  {
    if i > 0 {
      QueueBound(heap, roots, h, i - 1);
      assert Steps(heap, roots, h[i - 1], h[i]);
      StepBound(heap, roots, h[i - 1], h[i]);
    }
  }

  lemma StepBound(heap: Heap, roots: seq<Handle>, a: Tracer, b: Tracer)
    requires a.next <= |roots| && |a.queue| <= |a.marks| + Count(roots[..a.next])
    requires OnlyReachable(heap, TargetsOf(roots), a.marks)
    requires (forall c :: c in a.queue ==> c in a.marks) && (a.focus.At? ==> a.focus.c in a.marks)
    requires Steps(heap, roots, a, b)
    ensures b.next <= |roots| && |b.queue| <= |b.marks| + Count(roots[..b.next])
    ensures OnlyReachable(heap, TargetsOf(roots), b.marks)
    ensures (forall c :: c in b.queue ==> c in b.marks) && (b.focus.At? ==> b.focus.c in b.marks)
  {
    hide Reachable, Count;
    if AddsRoot(roots, a, b) {
      CountNext(roots, a.next);
      if roots[a.next].To? {
        RootReachable(heap, TargetsOf(roots), a.marks, roots[a.next].ptr.cell);
        MarksGrow(a.marks, roots[a.next].ptr.cell);
      }
    } else if Reads(heap, a, b) && heap[a.focus.c][a.focus.n].To? {
      var d := heap[a.focus.c][a.focus.n].ptr.cell;
      assert Targets(heap[a.focus.c][a.focus.n], d);
      ReachableStep(heap, TargetsOf(roots), a.focus.c, d);
      MarksGrow(a.marks, d);
    }
  }

  lemma MarksGrow(marks: set<nat>, d: nat)
    ensures |marks + {d}| == |marks| + if d in marks then 0 else 1
  {
    if d in marks {
      assert marks + {d} == marks;
    }
  }

  /** So the queue never holds more than the reachable cells and the roots together, whatever garbage there is. */
  lemma OverflowNeedsLive(heap: Heap, roots: seq<Handle>, h: seq<Tracer>, live: set<nat>)
    requires Overflows(heap, roots, h) && forall c :: Reachable(heap, TargetsOf(roots), c) ==> c in live
    ensures |live| + Count(roots) >= CAPACITY
  {
    var last := h[|h| - 1];
    QueueBound(heap, roots, h, |h| - 1);
    CountGrows(roots, last.next);
    assert last.marks <= live;
    SubsetSize(last.marks, live);
  }

  // ---- The marker

  /** Either every packet is empty, or a worker that holds none finds one with cells. */
  lemma SomeInput(place: seq<Place>)
    requires HeldAre(place, {NIL}) && !(forall p: nat :: p < PACKETS_COUNT ==> place[p].InEmpty?)
    ensures !(forall p: nat :: p < PACKETS_COUNT ==> !place[p].InFull? && !place[p].InPartial?)
  {
  }

  lemma AllPooled(place: seq<Place>)
    requires |place| == PACKETS_COUNT && forall p: nat :: p < PACKETS_COUNT ==> place[p].InEmpty?
    ensures HeldAre(place, {NIL})
  {
  }

  lemma NothingMarked(heap: Heap, starts: set<nat>, cells: seq<seq<nat>>)
    requires cells == seq(PACKETS_COUNT, _ => [])
    ensures Colours(heap, {}, cells, Nowhere) && OnlyReachable(heap, starts, {})
  {
  }

  class Marker {
    const pm: PacketManager
    const heap: Heap
    ghost const roots: seq<Handle>
    /** What the marker has done so far, seen as a tracer with a bag. */
    ghost var history: seq<Tracer>
    /** How many roots have been looked at. */
    ghost var seen: nat
    /** The cells whose mark bit is set. */
    var marks: set<nat>
    var rootsPacket: int

    constructor (heap: Heap, ghost roots: seq<Handle>)
      requires ClosedFrom(heap, TargetsOf(roots))
      ensures fresh(pm) && this.heap == heap && this.roots == roots && marks == {} && rootsPacket == NIL && seen == 0
      ensures Going(Nowhere) && HeldAre(pm.place, {NIL}) && forall p :: 0 <= p < |pm.cells| ==> pm.cells[p] == []
    {
      this.heap, this.roots, marks, rootsPacket, seen, history := heap, roots, {}, NIL, 0, [Tracer(0, {}, multiset{}, Nowhere)];
      pm := new PacketManager();
      new;
      AllPooled(pm.place);
      NothingMarked(heap, TargetsOf(roots), pm.cells);
      EmptyBag(pm.cells);
    }

    ghost predicate Going(focus: Focus)
      reads this, pm
    {
      && pm.Valid() && ClosedFrom(heap, TargetsOf(roots))
      && Colours(heap, marks, pm.cells, focus) && OnlyReachable(heap, TargetsOf(roots), marks)
      && Tracks(focus)
    }

    /** The marker is where its history ends. */
    ghost predicate Tracks(focus: Focus)
      reads this, pm
    {
      EndsAt(heap, roots, history, Now(focus))
    }

    ghost function Now(focus: Focus): Tracer
      reads this, pm
    {
      Tracer(seen, marks, Bag(pm.cells), focus)
    }

    ghost function WorkLeft(): nat
      reads this, pm
    {
      Work(heap, marks, pm.cells)
    }

    /** marker::push_to_packet: makes room, and fails when no packet is left. */
    method MakeRoom(input: int, output: nat) returns (out: int)
      requires pm.Valid() && output < PACKETS_COUNT && input != output && HeldAre(pm.place, {input, output})
      modifies pm`next, pm`full, pm`partial, pm`empty, pm`place, pm`fulls, pm`partials, pm`empties
      ensures pm.Valid() && pm.cells == old(pm.cells)
      ensures out != NIL ==> 0 <= out < PACKETS_COUNT && out != input && HeldAre(pm.place, {input, out}) && |pm.cells[out]| < PACKET_SIZE
      ensures out == NIL ==> Total(pm.cells) >= CAPACITY
    {
      hide Chain, Holds;
      out := output;
      if |pm.cells[output]| == PACKET_SIZE {
        if NoneToGive(pm.place) {
          RefusedWhenFull(pm.cells, pm.place, input);
        }
        out := pm.PopOutput();
        pm.PushPacket(output);
      }
    }

    /** marker::trace on handle `n` of the cell in focus. */
    method Trace(c: nat, n: nat, input: int, output: nat) returns (out: int)
      requires Going(At(c, n)) && c in heap && n < |heap[c]|
      requires output < PACKETS_COUNT && input != output && HeldAre(pm.place, {input, output})
      modifies this`marks, this`history, pm
      ensures pm.Valid()
      ensures out != NIL ==> 0 <= out < PACKETS_COUNT && out != input && HeldAre(pm.place, {input, out})
      ensures out != NIL ==> Going(At(c, n + 1)) && WorkLeft() <= old(WorkLeft()) && seen == old(seen)
      ensures out == NIL ==> Overflows(heap, roots, history)
      ensures old(marks) <= marks
    {
      hide Colours, OnlyReachable, ClosedFrom, Work, Reachable, EndsAt, TracerRun, Bag, Overflows, AddsRoot, Takes, Leaves, Chain, Holds;
      var h := heap[c][n];
      ghost var now := Now(At(c, n));
      if h.Null? || h.ptr.cell in marks {
        SkipColours(heap, marks, pm.cells, c, n);
        ghost var next := now.(focus := At(c, n + 1));
        RunGrows(heap, roots, history, now, next);
        history := history + [next];
        return output;
      }
      var d := h.ptr.cell;
      TargetReachable(heap, TargetsOf(roots), marks, pm.cells, c, n);
      ghost var before := marks;
      marks := marks + {d};
      out := MakeRoom(input, output);
      if out == NIL {
        RunOverflows(heap, roots, history, now, pm.cells);
        return;
      }
      PushColours(heap, before, pm.cells, c, n, out);
      MarkLowersWork(heap, before, pm.cells, d, out);
      ghost var next := now.(marks := marks, queue := now.queue + multiset{d}, focus := At(c, n + 1));
      RunPushes(heap, roots, history, now, next, pm.cells, out, d);
      history := history + [next];
      pm.PushCell(out, d);
    }

    /** gc_cell::trace: every handle of the cell in focus, in order. */
    method ScanCell(c: nat, input: int, output: nat) returns (out: int)
      requires Going(At(c, 0)) && c in heap
      requires output < PACKETS_COUNT && input != output && HeldAre(pm.place, {input, output})
      modifies this`marks, this`history, pm
      ensures pm.Valid()
      ensures out != NIL ==> 0 <= out < PACKETS_COUNT && out != input && HeldAre(pm.place, {input, out})
      ensures out != NIL ==> Going(Nowhere) && WorkLeft() <= old(WorkLeft()) && seen == old(seen)
      ensures out == NIL ==> Overflows(heap, roots, history)
      ensures old(marks) <= marks
    {
      hide Colours, OnlyReachable, ClosedFrom, Work, HeldAre, Chain, Holds, Sorted, EndsAt, TracerRun, Bag, Overflows, AddsRoot, Takes, Reads;
      out := output;
      for n := 0 to |heap[c]|
        invariant Going(At(c, n)) && WorkLeft() <= old(WorkLeft()) && old(marks) <= marks && seen == old(seen)
        invariant 0 <= out < PACKETS_COUNT && out != input && HeldAre(pm.place, {input, out})
      {
        out := Trace(c, n, input, out);
        if out == NIL {
          return;
        }
      }
      EndColours(heap, marks, pm.cells, c);
      RunGrows(heap, roots, history, Now(At(c, |heap[c]|)), Now(Nowhere));
      history := history + [Now(Nowhere)];
    }

    /** The loop that empties the input packet. */
    method Drain(input: nat, output: nat) returns (out: int)
      requires Going(Nowhere) && seen == |roots| && input < PACKETS_COUNT && |pm.cells[input]| > 0
      requires output < PACKETS_COUNT && input != output && HeldAre(pm.place, {input, output})
      modifies this`marks, this`history, pm
      ensures pm.Valid()
      ensures out != NIL ==> 0 <= out < PACKETS_COUNT && out != input && HeldAre(pm.place, {input, out})
      ensures out != NIL ==> Going(Nowhere) && WorkLeft() < old(WorkLeft()) && pm.cells[input] == [] && seen == |roots|
      ensures out == NIL ==> Overflows(heap, roots, history)
      ensures old(marks) <= marks
    {
      hide Colours, OnlyReachable, ClosedFrom, Work, Chain, Holds, EndsAt, TracerRun, Bag, Overflows, Steps;
      out := output;
      while |pm.cells[input]| > 0
        invariant Going(Nowhere) && WorkLeft() <= old(WorkLeft()) && old(marks) <= marks && seen == |roots|
        invariant |pm.cells[input]| == 0 ==> WorkLeft() < old(WorkLeft())
        invariant 0 <= out < PACKETS_COUNT && out != input && HeldAre(pm.place, {input, out})
        decreases WorkLeft()
      {
        PopColours(heap, marks, pm.cells, input);
        PopLowersWork(heap, marks, pm.cells, input);
        FocusInHeap(heap, marks, pm.cells, input);
        RunPops(heap, roots, history, Now(Nowhere), pm.cells, input);
        var c := pm.PopCell(input);
        history := history + [Now(At(c, 0))];
        out := ScanCell(c, input, out);
        if out == NIL {
          return;
        }
      }
    }

    /** root_trace_cb or pin_trace_cb with marker::push_root_to_packet; false when no packet is left. */
    method AddRoot(c: nat) returns (ok: bool)
      requires Going(Nowhere) && seen < |roots| && roots[seen].To? && roots[seen].ptr.cell == c
      requires HeldAre(pm.place, {rootsPacket}) && (rootsPacket == NIL || 0 <= rootsPacket < PACKETS_COUNT)
      modifies this, pm
      ensures ok ==> Going(Nowhere) && marks == old(marks) + {c} && seen == old(seen) + 1
      ensures ok ==> HeldAre(pm.place, {rootsPacket}) && 0 <= rootsPacket < PACKETS_COUNT
      ensures !ok ==> Overflows(heap, roots, history)
    {
      hide Colours, OnlyReachable, ClosedFrom, Chain, Holds, Reachable, TargetsOf, EndsAt, TracerRun, Bag, Overflows, Takes, Reads, Leaves;
      ghost var before, now := marks, Now(Nowhere);
      OneMoreTarget(roots, seen);
      RootReachable(heap, TargetsOf(roots), before, c);
      marks := marks + {c};
      var room := RootRoom();
      if !room {
        RunOverflows(heap, roots, history, now, pm.cells);
        return false;
      }
      MarkMoreColours(heap, before, pm.cells, Nowhere, c, rootsPacket);
      ghost var next := now.(next := now.next + 1, marks := marks, queue := now.queue + multiset{c});
      RunPushes(heap, roots, history, now, next, pm.cells, rootsPacket, c);
      history, seen := history + [next], seen + 1;
      pm.PushCell(rootsPacket, c);
      ok := true;
    }

    /** The roots packet is replaced when it is full. */
    method RootRoom() returns (ok: bool)
      requires pm.Valid() && HeldAre(pm.place, {rootsPacket}) && (rootsPacket == NIL || 0 <= rootsPacket < PACKETS_COUNT)
      modifies this`rootsPacket, pm`next, pm`full, pm`partial, pm`empty, pm`place, pm`fulls, pm`partials, pm`empties
      ensures pm.Valid() && pm.cells == old(pm.cells)
      ensures ok ==> HeldAre(pm.place, {rootsPacket}) && 0 <= rootsPacket < PACKETS_COUNT && |pm.cells[rootsPacket]| < PACKET_SIZE
      ensures !ok ==> Total(pm.cells) >= CAPACITY
    {
      hide Chain, Holds;
      if rootsPacket == NIL || |pm.cells[rootsPacket]| == PACKET_SIZE {
        if rootsPacket != NIL {
          pm.PushPacket(rootsPacket);
        }
        if NoneToGive(pm.place) {
          OneHeldTotal(pm.cells, pm.place, NIL);
        }
        rootsPacket := pm.PopOutput();
      }
      ok := rootsPacket != NIL;
    }

    /** A null root is passed over. */
    ghost method SkipRoot()
      requires Going(Nowhere) && seen < |roots| && roots[seen].Null?
      modifies this`history, this`seen
      ensures Going(Nowhere) && seen == old(seen) + 1
    {
      hide Colours, OnlyReachable, ClosedFrom, Chain, Holds, Reachable, TargetsOf, EndsAt, TracerRun, Bag, Takes, Reads, Leaves;
      var next := Now(Nowhere).(next := seen + 1);
      RunGrows(heap, roots, history, Now(Nowhere), next);
      history, seen := history + [next], seen + 1;
    }

    /** The loop of marker::worker_routine that looks for input: `done` when no packet has a cell. */
    method FindInput(input0: int, output0: int) returns (done: bool, input: int, output: int)
      requires pm.Valid() && HeldAre(pm.place, {input0, output0}) && (input0 == output0 ==> input0 == NIL)
      requires input0 == NIL || (0 <= input0 < PACKETS_COUNT && |pm.cells[input0]| > 0)
      requires output0 == NIL || 0 <= output0 < PACKETS_COUNT
      modifies pm`next, pm`full, pm`partial, pm`empty, pm`place, pm`fulls, pm`partials, pm`empties
      ensures pm.Valid() && pm.cells == old(pm.cells)
      ensures done ==> HeldAre(pm.place, {NIL}) && forall p: nat :: p < PACKETS_COUNT ==> pm.cells[p] == []
      ensures !done ==> 0 <= input < PACKETS_COUNT && |pm.cells[input]| > 0 && input != output
      ensures !done ==> HeldAre(pm.place, {input, output}) && (output == NIL || 0 <= output < PACKETS_COUNT)
    {
      hide Chain, Holds;
      input, output := input0, output0;
      while input == NIL
        invariant pm.Valid() && HeldAre(pm.place, {input, output}) && (input == output ==> input == NIL)
        invariant input == NIL || (0 <= input < PACKETS_COUNT && |pm.cells[input]| > 0)
        invariant output == NIL || 0 <= output < PACKETS_COUNT
        decreases if input == NIL then 1 else 0
      {
        if output != NIL {
          pm.PushPacket(output);
          output := NIL;
        }
        assert HeldAre(pm.place, {NIL});
        var none := pm.IsNoInput();
        if none {
          return true, input, output;
        }
        SomeInput(pm.place);
        input := pm.PopInput();
      }
      done := false;
    }

    /** marker::worker_routine without a remembered set. */
    method WorkerRoutine() returns (r: Outcome)
      requires Going(Nowhere) && HeldAre(pm.place, {NIL}) && TargetsOf(roots) <= marks && seen == |roots|
      modifies this`marks, this`history, pm
      ensures r.Finished? ==> forall c :: c in marks <==> Reachable(heap, TargetsOf(roots), c)
      ensures r.Finished? ==> Going(Nowhere) && HeldAre(pm.place, {NIL})
      ensures r.Overflow? ==> Overflows(heap, roots, history)
    {
      hide Colours, OnlyReachable, ClosedFrom, Work, Chain, Holds, Reachable, EndsAt, TracerRun, Bag, Overflows, TargetsOf;
      var input := pm.PopInput();
      var output := NIL;
      while true
        invariant Going(Nowhere) && TargetsOf(roots) <= marks && HeldAre(pm.place, {input, output}) && seen == |roots|
        invariant input == NIL || (0 <= input < PACKETS_COUNT && |pm.cells[input]| > 0)
        invariant output == NIL || 0 <= output < PACKETS_COUNT
        invariant input == output ==> input == NIL
        decreases WorkLeft()
      {
        var done;
        done, input, output := FindInput(input, output);
        if done {
          MarkingExact(heap, TargetsOf(roots), marks, pm.cells);
          return Finished;
        }
        var ok;
        ok, input, output := WorkPacket(input, output);
        if !ok {
          return Overflow;
        }
      }
    }

    /** One round of the worker loop: an output packet, the input packet emptied, the next one taken. */
    method WorkPacket(input0: nat, output0: int) returns (ok: bool, input: int, output: int)
      requires Going(Nowhere) && HeldAre(pm.place, {input0, output0}) && input0 != output0 && seen == |roots|
      requires input0 < PACKETS_COUNT && |pm.cells[input0]| > 0 && (output0 == NIL || 0 <= output0 < PACKETS_COUNT)
      modifies this`marks, this`history, pm
      ensures ok ==> Going(Nowhere) && HeldAre(pm.place, {input, output}) && WorkLeft() < old(WorkLeft()) && seen == |roots|
      ensures ok ==> input == NIL || (0 <= input < PACKETS_COUNT && |pm.cells[input]| > 0 && input != output)
      ensures ok ==> 0 <= output < PACKETS_COUNT
      ensures !ok ==> Overflows(heap, roots, history)
      ensures old(marks) <= marks
    {
      hide Colours, OnlyReachable, ClosedFrom, Work, Chain, Holds, Reachable, EndsAt, TracerRun, Bag, Overflows;
      ok, input, output := false, input0, output0;
      if output == NIL {
        ghost var none := NoneToGive(pm.place);
        if none {
          OneHeldTotal(pm.cells, pm.place, input0);
        }
        output := pm.PopOutput();
        if output == NIL {
          RunOverflows(heap, roots, history, Now(Nowhere), pm.cells);
          return;
        }
      }
      output := Drain(input0, output);
      if output == NIL {
        return;
      }
      input := pm.PopInput();
      pm.PushPacket(input0);
      ok := true;
    }
  }

  /** A whole stop-the-world marking: every root and pin is marked and queued, then the queue is drained.
      When it finishes, the marked cells are exactly the reachable ones. It fails only where a tracer with a
      bag would have as many cells queued as all packets but one can be relied on to hold. */
  method MarkHeap(heap: Heap, roots: seq<Handle>) returns (r: Outcome, marks: set<nat>)
    requires ClosedFrom(heap, TargetsOf(roots))
    ensures r.Finished? ==> forall c :: c in marks <==> Reachable(heap, TargetsOf(roots), c)
    ensures r.Overflow? ==> exists h :: Overflows(heap, roots, h)
    ensures forall live: set<nat> :: (forall c :: Reachable(heap, TargetsOf(roots), c) ==> c in live) && |live| + Count(roots) < CAPACITY ==>
              r.Finished?
  {
    hide Colours, OnlyReachable, ClosedFrom, Work, Chain, Holds, Reachable, TargetsOf, EndsAt, TracerRun, Bag, Overflows;
    var m := new Marker(heap, roots);
    NoTargets(roots);
    r := Finished;
    for i := 0 to |roots|
      invariant fresh(m) && fresh(m.pm) && m.heap == heap && m.roots == roots && m.seen == i && r.Finished?
      invariant m.Going(Nowhere) && HeldAre(m.pm.place, {m.rootsPacket}) && (m.rootsPacket == NIL || 0 <= m.rootsPacket < PACKETS_COUNT)
      invariant TargetsOf(roots[..i]) <= m.marks
    {
      OneMoreTarget(roots, i);
      if roots[i].To? {
        var ok := m.AddRoot(roots[i].ptr.cell);
        if !ok {
          SmallNeverOverflows(heap, roots, m.history);
          return Overflow, m.marks;
        }
      } else {
        m.SkipRoot();
      }
    }
    assert roots[..|roots|] == roots;
    if m.rootsPacket != NIL {
      m.pm.PushPacket(m.rootsPacket);
    }
    r := m.WorkerRoutine();
    if r.Overflow? {
      SmallNeverOverflows(heap, roots, m.history);
    }
    marks := m.marks;
  }

  lemma SmallNeverOverflows(heap: Heap, roots: seq<Handle>, h: seq<Tracer>)
    requires Overflows(heap, roots, h)
    ensures forall live: set<nat> :: (forall c :: Reachable(heap, TargetsOf(roots), c) ==> c in live) ==> |live| + Count(roots) >= CAPACITY
  {
    hide Overflows, Reachable;
    forall live: set<nat> | (forall c :: Reachable(heap, TargetsOf(roots), c) ==> c in live) ensures |live| + Count(roots) >= CAPACITY {
      OverflowNeedsLive(heap, roots, h, live);
    }
  }

  lemma NoTargets(roots: seq<Handle>)
    ensures TargetsOf(roots[..0]) == {}
  {
  }

  lemma OneMoreTarget(roots: seq<Handle>, i: nat)
    requires i < |roots|
    ensures TargetsOf(roots[..i + 1]) == TargetsOf(roots[..i]) + (if roots[i].To? then {roots[i].ptr.cell} else {})
    ensures roots[i].To? ==> roots[i].ptr.cell in TargetsOf(roots)
  {
    assert roots[..i + 1] == roots[..i] + [roots[i]];
    TargetsOneMore(roots[..i], roots[i]);
  }

  lemma TargetsOneMore(roots: seq<Handle>, h: Handle)
    ensures TargetsOf(roots + [h]) == TargetsOf(roots) + (if h.To? then {h.ptr.cell} else {})
  {
    var more := roots + [h];
    assert more[|roots|] == h;
    forall i | 0 <= i < |roots| ensures more[i] == roots[i] {
    }
    forall c | c in TargetsOf(roots) ensures c in TargetsOf(more) {
      var i :| 0 <= i < |roots| && roots[i].To? && roots[i].ptr.cell == c;
      assert more[i] == roots[i];
    }
  }

  lemma FocusInHeap(heap: Heap, marks: set<nat>, cells: seq<seq<nat>>, p: nat)
    requires Colours(heap, marks, cells, Nowhere) && p < |cells| && |cells[p]| > 0
    ensures cells[p][|cells[p]| - 1] in heap
  {
    assert cells[p][|cells[p]| - 1] in cells[p];
  }
}
