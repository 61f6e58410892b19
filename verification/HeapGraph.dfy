/** The object graph a collector works on: cells holding handles, and what is
    reachable from a set of starting cells. */
module HeapGraph {

  /** A pointer into a cell; `off` is the interior offset inside the object. */
  datatype Ptr = Ptr(cell: nat, off: nat)

  datatype Handle = Null | To(ptr: Ptr)

  /** Every committed cell with its traced handles, in trace order. */
  type Heap = map<nat, seq<Handle>>

  predicate Targets(h: Handle, d: nat) {
    h.To? && h.ptr.cell == d
  }

  ghost predicate Edge(heap: Heap, c: nat, d: nat) {
    c in heap && exists j :: 0 <= j < |heap[c]| && Targets(heap[c][j], d)
  }

  /** `path` starts in `starts` and follows edges of `heap`. */
  ghost predicate ReachesBy(heap: Heap, starts: set<nat>, path: seq<nat>) {
    |path| > 0 &&
    if |path| == 1 then path[0] in starts
    else ReachesBy(heap, starts, path[..|path| - 1]) && Edge(heap, path[|path| - 2], path[|path| - 1])
  }

  ghost predicate Reachable(heap: Heap, starts: set<nat>, c: nat) {
    exists path :: ReachesBy(heap, starts, path) && path[|path| - 1] == c
  }

  ghost predicate Closed(heap: Heap, starts: set<nat>, good: iset<nat>) {
    && (forall c :: c in starts ==> c in good)
    && (forall c, j :: c in good && c in heap && 0 <= j < |heap[c]| && heap[c][j].To? ==> heap[c][j].ptr.cell in good)
  }

  lemma StartIsReachable(heap: Heap, starts: set<nat>, c: nat)
    requires c in starts
    ensures Reachable(heap, starts, c)
  {
    assert ReachesBy(heap, starts, [c]);
  }

  lemma ReachableStep(heap: Heap, starts: set<nat>, c: nat, d: nat)
    requires Reachable(heap, starts, c) && Edge(heap, c, d)
    ensures Reachable(heap, starts, d)
  {
    var path :| ReachesBy(heap, starts, path) && path[|path| - 1] == c;
    assert (path + [d])[..|path + [d]| - 1] == path;
    assert ReachesBy(heap, starts, path + [d]);
  }

  lemma {:induction false} PathStaysInClosed(heap: Heap, starts: set<nat>, good: iset<nat>, path: seq<nat>)
    requires Closed(heap, starts, good) && ReachesBy(heap, starts, path)
    ensures path[|path| - 1] in good
  {
    if |path| > 1 {
      PathStaysInClosed(heap, starts, good, path[..|path| - 1]);
    }
  }

  /** Reachability is the least closed set: everything reachable lies in every closed set. */
  lemma ReachableIsLeast(heap: Heap, starts: set<nat>, good: iset<nat>)
    requires Closed(heap, starts, good)
    ensures forall c :: Reachable(heap, starts, c) ==> c in good
  {
    forall c | Reachable(heap, starts, c) ensures c in good {
      var path :| ReachesBy(heap, starts, path) && path[|path| - 1] == c;
      PathStaysInClosed(heap, starts, good, path);
    }
  }

  /** ... and it is closed itself. */
  lemma ReachableIsClosed(heap: Heap, starts: set<nat>)
    ensures Closed(heap, starts, iset c | Reachable(heap, starts, c))
  {
    forall c | c in starts ensures Reachable(heap, starts, c) {
      StartIsReachable(heap, starts, c);
    }
    forall c, j | Reachable(heap, starts, c) && c in heap && 0 <= j < |heap[c]| && heap[c][j].To?
      ensures Reachable(heap, starts, heap[c][j].ptr.cell)
    {
      assert Targets(heap[c][j], heap[c][j].ptr.cell);
      ReachableStep(heap, starts, c, heap[c][j].ptr.cell);
    }
  }
}
