/** A pool of equal cells: bump allocation in the newest block, a freelist threaded through free
    cells, and the sweep that rebuilds it from the mark bits. */
module PoolAllocator {
  import opened Common

  /** Cell number `i` of the block at `blk`. */
  datatype Cell = Cell(blk: nat, i: nat)

  /** A freelist pointer, kept in the first word of a free cell. */
  datatype Link = End | To(c: Cell)

  function Nth(list: seq<Cell>, i: nat): Link {
    if i < |list| then To(list[i]) else End
  }

  /** `list` is what following the links from `head` visits. */
  predicate Chain(link: map<Cell, Link>, head: Link, list: seq<Cell>) {
    && NoRepeats(list) && head == Nth(list, 0)
    && forall i :: 0 <= i < |list| ==> list[i] in link && link[list[i]] == Nth(list, i + 1)
  }

  lemma ChainInsert(link: map<Cell, Link>, head: Link, list: seq<Cell>, c: Cell)
    requires Chain(link, head, list) && c !in list
    ensures Chain(link[c := head], To(c), [c] + list)
  {
    var link', list' := link[c := head], [c] + list;
    forall i | 0 <= i < |list'| ensures list'[i] in link' && link'[list'[i]] == Nth(list', i + 1) {
      assert i > 0 ==> list'[i] == list[i - 1] && list[i - 1] in list;
    }
  }

  lemma ChainTake(link: map<Cell, Link>, head: Link, list: seq<Cell>)
    requires Chain(link, head, list) && head.To?
    ensures list != [] && head.c == list[0] && head.c in link && Chain(link, link[head.c], list[1..])
    ensures forall c :: c in list <==> c == list[0] || c in list[1..]
    ensures list[0] !in list[1..]
  {
    assert list == [list[0]] + list[1..];
  }

  predicate IsCell(n: nat, descrs: seq<nat>, c: Cell) {
    c.blk in descrs && c.i < n
  }

  /** The untouched rest of the newest block. */
  predicate InBump(descrs: seq<nat>, top: nat, end: nat, c: Cell) {
    |descrs| > 0 && c.blk == descrs[|descrs| - 1] && top <= c.i < end
  }

  /** The blocks that still have a marked cell, in order. */
  function Used(descrs: seq<nat>, mark: set<Cell>): seq<nat> {
    if descrs == [] then []
    else
      var rest := Used(descrs[..|descrs| - 1], mark);
      var last := descrs[|descrs| - 1];
      if HasMark(last, mark) then rest + [last] else rest
  }

  predicate HasMark(blk: nat, mark: set<Cell>) {
    exists c :: c in mark && c.blk == blk
  }

  lemma {:induction false} UsedMembers(descrs: seq<nat>, mark: set<Cell>)
    ensures forall b :: b in Used(descrs, mark) <==> b in descrs && HasMark(b, mark)
    ensures NoRepeats(descrs) ==> NoRepeats(Used(descrs, mark))
  {
    if descrs != [] {
      var front, last := descrs[..|descrs| - 1], descrs[|descrs| - 1];
      UsedMembers(front, mark);
      assert descrs == front + [last];
      if NoRepeats(descrs) {
        assert last !in front;
      }
    }
  }

  /** What a client sees of the pool: a cell is handed out, or a collection has marked some cells. */
  datatype Event = Allocated(c: Cell) | Collected(marks: set<Cell>)

  /** The cells that are out after the events. */
  function OutAfter(h: set<Cell>, log: seq<Event>): set<Cell> {
    if log == [] then h else OutWith(OutAfter(h, log[..|log| - 1]), log[|log| - 1])
  }

  function OutWith(h: set<Cell>, e: Event): set<Cell> {
    if e.Allocated? then h + {e.c} else e.marks
  }

  /** A collection between the two events that did not mark the cell. */
  predicate Released(log: seq<Event>, i: nat, j: nat, c: Cell) {
    exists k :: i < k < j && k < |log| && log[k].Collected? && c !in log[k].marks
  }

  /** No cell comes out twice without having been released in between. */
  predicate NeverTwice(log: seq<Event>) {
    forall i: nat, j: nat :: i < j < |log| && log[i].Allocated? && log[j].Allocated? && log[i].c == log[j].c ==>
      Released(log, i, j, log[i].c)
  }

  /** A cell that came out and is not out any more has been released. */
  lemma {:induction false} GoneMeansReleased(h: set<Cell>, log: seq<Event>, i: nat, c: Cell)
    requires i < |log| && log[i] == Allocated(c) && c !in OutAfter(h, log)
    ensures Released(log, i, |log|, c)
  {
    var n := |log| - 1;
    if log[n].Collected? {
      assert i < n && c !in log[n].marks;
    } else {
      assert i != n;
      GoneMeansReleased(h, log[..n], i, c);
      var k :| i < k < n && log[..n][k].Collected? && c !in log[..n][k].marks;
      assert log[k].Collected? && c !in log[k].marks;
    }
  }

  lemma ReleasedStays(log: seq<Event>, e: Event, i: nat, j: nat, c: Cell)
    requires Released(log, i, j, c)
    ensures Released(log + [e], i, j, c)
  {
    var k :| i < k < j && k < |log| && log[k].Collected? && c !in log[k].marks;
    assert (log + [e])[k] == log[k];
  }

  /** A run goes on by handing out a cell that is not out, or by a collection. */
  lemma NeverTwiceGrows(h: set<Cell>, log: seq<Event>, e: Event)
    requires NeverTwice(log) && (e.Allocated? ==> e.c !in OutAfter(h, log))
    ensures NeverTwice(log + [e])
  {
    var log' := log + [e];
    forall i: nat, j: nat | i < j < |log'| && log'[i].Allocated? && log'[j].Allocated? && log'[i].c == log'[j].c
      ensures Released(log', i, j, log'[i].c)
    {
      assert log'[i] == log[i];
      if j == |log| {
        GoneMeansReleased(h, log, i, e.c);
        ReleasedStays(log, e, i, j, e.c);
      } else {
        assert log'[j] == log[j];
        ReleasedStays(log, e, i, j, log[i].c);
      }
    }
  }

  /** One call from outside: an allocation, a collection of the whole heap, or a commit. */
  datatype Request =
    | Want(offers: seq<Option<nat>>, marks: set<Cell>)
    | Reclaim(marks: set<Cell>)
    | Initialised(c: Cell)

  /** What the core allocator may answer: a block the pool does not have, at the first attempt one that it
      has not now, later one that it has not kept through the collection. */
  predicate Fits(descrs: seq<nat>, offers: seq<Option<nat>>, marks: set<Cell>) {
    && |offers| == 3
    && (offers[0].Some? ==> offers[0].value !in descrs)
    && NoneIn(offers, 1, Used(descrs, marks))
  }

  ghost predicate AllIn(n: nat, descrs: seq<nat>, cells: set<Cell>) {
    forall c :: IsCell(n, descrs, c) ==> c in cells
  }

  predicate NoneIn(offers: seq<Option<nat>>, from: nat, descrs: seq<nat>) {
    forall k :: from <= k < |offers| && offers[k].Some? ==> offers[k].value !in descrs
  }

  /** What a call gives: nothing, because it was not a proper one; perhaps a cell, after a collection or
      without one; or just an end. */
  datatype Answer = Refused | Given(c: Option<Cell>, collected: bool) | Done

  /** The cells that are out, the pool's blocks, and the cells whose init bit is set. */
  datatype Moment = Moment(out: set<Cell>, blocks: seq<nat>, committed: set<Cell>)

  /** Only cells that are out can be marked or committed. */
  predicate Proper(r: Request, m: Moment) {
    match r
    case Want(offers, marks) => marks <= m.out && Fits(m.blocks, offers, marks)
    case Reclaim(marks) => marks <= m.out
    case Initialised(c) => c in m.out
  }

  function EventsOf(r: Request, a: Answer): seq<Event> {
    if r.Want? && a.Given? then
      (if a.collected then [Collected(r.marks)] else []) + (if a.c.Some? then [Allocated(a.c.value)] else [])
    else if r.Reclaim? && a.Done? then [Collected(r.marks)]
    else []
  }

  /** A collection in the call does not mark the cell. */
  predicate Releases(r: Request, a: Answer, c: Cell) {
    (r.Want? && a.Given? && a.collected && c !in r.marks) || (r.Reclaim? && a.Done? && c !in r.marks)
  }

  predicate Commits(r: Request, a: Answer, c: Cell) {
    r == Initialised(c) && a.Done?
  }

  /** The cell has been committed, and no collection has released it since. */
  predicate IsCommitted(requests: seq<Request>, answers: seq<Answer>, c: Cell)
    requires |requests| == |answers|
  {
    exists i :: 0 <= i < |requests| && Commits(requests[i], answers[i], c) &&
      forall j :: i < j < |requests| ==> !Releases(requests[j], answers[j], c)
  }

  lemma CommittedMore(requests: seq<Request>, answers: seq<Answer>, r: Request, a: Answer, c: Cell)
    requires |requests| == |answers|
    ensures IsCommitted(requests + [r], answers + [a], c) <==>
              Commits(r, a, c) || (IsCommitted(requests, answers, c) && !Releases(r, a, c))
  {
    var n, rs, ans := |requests|, requests + [r], answers + [a];
    if Commits(r, a, c) {
      assert Commits(rs[n], ans[n], c);
    } else if IsCommitted(requests, answers, c) && !Releases(r, a, c) {
      var i :| 0 <= i < n && Commits(requests[i], answers[i], c) && forall j :: i < j < n ==> !Releases(requests[j], answers[j], c);
      assert Commits(rs[i], ans[i], c);
    }
    if IsCommitted(rs, ans, c) && !Commits(r, a, c) {
      CommittedBefore(requests, answers, r, a, c);
    }
  }

  lemma CommittedBefore(requests: seq<Request>, answers: seq<Answer>, r: Request, a: Answer, c: Cell)
    requires |requests| == |answers| && IsCommitted(requests + [r], answers + [a], c) && !Commits(r, a, c)
    ensures IsCommitted(requests, answers, c) && !Releases(r, a, c)
  {
    var n, rs, ans := |requests|, requests + [r], answers + [a];
    var i :| 0 <= i <= n && Commits(rs[i], ans[i], c) && forall j :: i < j <= n ==> !Releases(rs[j], ans[j], c);
    assert i < n && Commits(requests[i], answers[i], c);
    assert !Releases(rs[n], ans[n], c);
    assert forall j :: i < j < n ==> rs[j] == requests[j] && ans[j] == answers[j];
  }

  function History(requests: seq<Request>, answers: seq<Answer>): seq<Event>
    requires |requests| == |answers|
  {
    if requests == [] then []
    else
      var n := |requests| - 1;
      History(requests[..n], answers[..n]) + EventsOf(requests[n], answers[n])
  }

  /** Every cell of the blocks is out. */
  ghost predicate NoneFree(n: nat, m: Moment) {
    AllIn(n, m.blocks, m.out)
  }

  /** The pool once a collection has marked these cells and given back the blocks without one. */
  function Collectible(m: Moment, marks: set<Cell>): Moment {
    Moment(marks, Used(m.blocks, marks), m.committed * marks)
  }

  /** What an allocation does to the blocks: none, or one of those offered, behind those it has kept. */
  predicate TakesBlock(offers: seq<Option<nat>>, kept: seq<nat>, blocks: seq<nat>) {
    blocks == kept || exists k :: 0 <= k < |offers| && offers[k].Some? && blocks == kept + [offers[k].value]
  }

  /** `a` is a right answer to `r`: exactly the improper calls are refused, a collection runs exactly when no cell is
      free and no block is offered, an allocation fails exactly when that is so after the collection too, at both
      further attempts, and a cell that is given lies in a block of the pool. */
  ghost predicate Answers(n: nat, r: Request, a: Answer, m: Moment, m': Moment) {
    && (a.Refused? <==> !Proper(r, m)) && (a.Given? ==> r.Want?) && (a.Done? ==> !r.Want?)
    && (a.Given? ==> |r.offers| == 3)
    && (a.Given? ==> (a.collected <==> NoneFree(n, m) && r.offers[0].None?))
    && (a.Given? ==> (a.c.None? <==> a.collected && NoneFree(n, Collectible(m, r.marks)) && r.offers[1].None? && r.offers[2].None?))
    && (a.Given? && a.c.Some? ==> IsCell(n, m'.blocks, a.c.value))
    && (if a.Given? then TakesBlock(r.offers, if a.collected then Used(m.blocks, r.marks) else m.blocks, m'.blocks)
        else if r.Reclaim? && a.Done? then m'.blocks == Used(m.blocks, r.marks)
        else m'.blocks == m.blocks)
    && m'.out == OutAfter(m.out, EventsOf(r, a))
    && (forall c :: c in m'.committed <==> Commits(r, a, c) || (c in m.committed && !Releases(r, a, c)))
  }

  /** Events that hand out no cell that is out. */
  predicate Fresh(h: set<Cell>, log: seq<Event>) {
    forall i :: 0 <= i < |log| && log[i].Allocated? ==> log[i].c !in OutAfter(h, log[..i])
  }

  lemma {:induction false} OutThen(h: set<Cell>, log: seq<Event>, more: seq<Event>)
    ensures OutAfter(h, log + more) == OutAfter(OutAfter(h, log), more)
  {
    if more == [] {
      assert log + more == log;
    } else {
      var front := more[..|more| - 1];
      OutThen(h, log, front);
      assert (log + more)[..|log + more| - 1] == log + front;
    }
  }

  lemma {:induction false} FreshNeverTwice(log: seq<Event>, more: seq<Event>)
    requires NeverTwice(log) && Fresh(OutAfter({}, log), more)
    ensures NeverTwice(log + more)
  {
    if more == [] {
      assert log + more == log;
    } else {
      var n := |more| - 1;
      forall i | 0 <= i < n && more[..n][i].Allocated? ensures more[..n][i].c !in OutAfter(OutAfter({}, log), more[..n][..i]) {
        assert more[..n][..i] == more[..i];
      }
      FreshNeverTwice(log, more[..n]);
      OutThen({}, log, more[..n]);
      NeverTwiceGrows({}, log + more[..n], more[n]);
      assert log + more == log + more[..n] + [more[n]];
    }
  }

  class Pool {
    const n: nat
    var descrs: seq<nat>
    /** The bitmaps of all blocks. */
    var mark: set<Cell>
    var init: set<Cell>
    var link: map<Cell, Link>
    var freelist: Link
    var top: nat
    var end: nat
    /** What the freelist visits, and the cells that are handed out. */
    ghost var free: seq<Cell>
    ghost var handed: set<Cell>

    constructor (n: nat)
      requires n > 0
      ensures Valid() && this.n == n && handed == {} && descrs == []
    {
      this.n := n;
      descrs, mark, init, link, freelist, top, end := [], {}, {}, map[], End, 0, 0;
      free, handed := [], {};
    }

    /** Every cell of every block is in exactly one of three places: free, not yet reached, handed out. */
    ghost predicate Placed(c: Cell)
      reads this
    {
      && (c in free ==> IsCell(n, descrs, c) && !InBump(descrs, top, end, c) && c !in handed)
      && (c in handed ==> IsCell(n, descrs, c) && !InBump(descrs, top, end, c))
      && (IsCell(n, descrs, c) ==> c in free || InBump(descrs, top, end, c) || c in handed)
    }

    ghost predicate Valid()
      reads this
    {
      && n > 0 && NoRepeats(descrs) && top <= end <= n && (top < end ==> |descrs| > 0)
      && Chain(link, freelist, free)
      && (forall c :: Placed(c))
      && mark <= handed && init <= handed
    }

    method StackAllocation() returns (c: Cell)
      requires Valid() && top < end
      modifies this
      ensures Valid() && c !in old(handed) && handed == old(handed) + {c}
      ensures descrs == old(descrs) && free == old(free) && mark == old(mark) && init == old(init)
      ensures IsCell(n, descrs, c)
    {
      c := Cell(descrs[|descrs| - 1], top);
      assert InBump(descrs, top, end, c);
      assert Placed(c);
      top := top + 1;
      handed := handed + {c};
      assert forall x :: old(Placed(x)) ==> Placed(x);
    }

    method FreelistAllocation() returns (c: Cell)
      requires Valid() && freelist.To?
      modifies this
      ensures Valid() && c !in old(handed) && handed == old(handed) + {c}
      ensures descrs == old(descrs) && old(free) == [c] + free && mark == old(mark) && init == old(init)
      ensures IsCell(n, descrs, c)
    {
      ChainTake(link, freelist, free);
      c := freelist.c;
      assert Placed(c);
      freelist := link[c];
      free := free[1..];
      handed := handed + {c};
      assert forall x :: old(Placed(x)) ==> Placed(x);
    }

    /** Nothing is left to hand out exactly when every cell is out. */
    lemma ExhaustedIff()
      requires Valid()
      ensures top == end && freelist.End? <==> AllIn(n, descrs, handed)
    {
      assert free != [] ==> free[0] in free;
      if top == end && freelist.End? {
        forall c | IsCell(n, descrs, c) ensures c in handed {
          assert Placed(c);
        }
      } else if freelist.To? {
        assert Placed(free[0]);
      } else {
        var c := Cell(descrs[|descrs| - 1], top);
        assert InBump(descrs, top, end, c) && Placed(c);
      }
    }

    /** create_descriptor and the assignments after it: a new block, to be bumped through. */
    method AddBlock(blk: nat)
      requires Valid() && top == end && blk !in descrs
      modifies this
      ensures Valid() && top == 0 && end == n && descrs == old(descrs) + [blk]
      ensures handed == old(handed) && free == old(free) && mark == old(mark) && init == old(init)
    {
      assert forall x :: x in free || x in handed ==> Placed(x);
      descrs := descrs + [blk];
      top, end := 0, n;
      assert forall x :: old(Placed(x)) ==> Placed(x);
    }

    method InsertIntoFreelist(c: Cell)
      requires Chain(link, freelist, free) && c !in free
      modifies this`link, this`freelist, this`free
      ensures Chain(link, freelist, free) && free == [c] + old(free)
    {
      ChainInsert(link, freelist, free, c);
      link := link[c := freelist];
      freelist := To(c);
      free := [c] + free;
    }

    /** sweep of one block: unmarked cells are finalized if committed, and threaded if asked for. */
    method SweepBlock(blk: nat, add: bool)
      requires Chain(link, freelist, free) && (add ==> forall c :: c in free ==> c.blk != blk)
      modifies this`link, this`freelist, this`free, this`init
      ensures Chain(link, freelist, free) && (!add ==> free == old(free))
      ensures forall c :: c in free <==> c in old(free) || (add && c.blk == blk && c.i < n && c !in mark)
      ensures forall c :: c in init <==> c in old(init) && (c.blk == blk && c.i < n ==> c in mark)
    {
      hide Chain;
      for i := 0 to n
        invariant Chain(link, freelist, free) && (!add ==> free == old(free))
        invariant forall c :: c in free <==> c in old(free) || (add && c.blk == blk && c.i < i && c !in mark)
        invariant forall c :: c in init <==> c in old(init) && (c.blk == blk && c.i < i ==> c in mark)
      {
        var c := Cell(blk, i);
        if c !in mark {
          if c in init {
            init := init - {c};
            if add {
              InsertIntoFreelist(c);
            }
          } else if add {
            InsertIntoFreelist(c);
          }
        }
      }
    }

    /** sweep of all blocks. */
    method Sweep()
      requires free == [] && freelist == End && NoRepeats(descrs)
      modifies this`link, this`freelist, this`free, this`init
      ensures Chain(link, freelist, free)
      ensures forall c :: c in free <==> IsCell(n, descrs, c) && c !in mark
      ensures forall c :: c in init <==> c in old(init) && (IsCell(n, descrs, c) ==> c in mark)
    {
      for k := 0 to |descrs|
        invariant Chain(link, freelist, free)
        invariant forall c :: c in free <==> IsCell(n, descrs[..k], c) && c !in mark
        invariant forall c :: c in init <==> c in old(init) && (IsCell(n, descrs[..k], c) ==> c in mark)
      {
        assert descrs[..k + 1] == descrs[..k] + [descrs[k]];
        assert descrs[k] !in descrs[..k];
        SweepBlock(descrs[k], true);
      }
      assert descrs[..|descrs|] == descrs;
    }

    /** shrink: blocks without a marked cell are finalized and given back. */
    method Shrink()
      requires NoRepeats(descrs) && Chain(link, freelist, free)
      modifies this`descrs, this`link, this`freelist, this`free, this`init
      ensures descrs == Used(old(descrs), mark) && Chain(link, freelist, free)
      ensures forall c :: c in init <==> c in old(init) && (IsCell(n, old(descrs), c) && c.blk !in descrs ==> c in mark)
    {
      ghost var all := descrs;
      var kept: seq<nat> := [];
      var k := 0;
      while k < |descrs|
        invariant k <= |descrs| && descrs == all
        invariant kept == Used(all[..k], mark) && Chain(link, freelist, free)
        invariant forall c :: c in init <==> c in old(init) && (IsCell(n, all[..k], c) && c.blk !in kept ==> c in mark)
      {
        assert all[..k + 1][..k] == all[..k];
        UsedMembers(all[..k], mark);
        assert all[k] !in all[..k];
        if HasMark(descrs[k], mark) {
          kept := kept + [descrs[k]];
        } else {
          SweepBlock(descrs[k], false);
        }
        k := k + 1;
      }
      assert all[..|all|] == all;
      descrs := kept;
    }

    /** gc_pool_allocator::collect without compaction, for the marks a collector has left. */
    method Collect()
      requires Valid()
      modifies this
      ensures Valid() && descrs == Used(old(descrs), mark) && mark == old(mark)
      ensures handed == mark && init == old(init) * mark
      ensures forall c :: c in free <==> IsCell(n, descrs, c) && c !in mark
      ensures top == end
    {
      UsedMembers(descrs, mark);
      MarkedAreCells();
      if |descrs| == 0 {
        assert forall c :: Placed(c);
        Nothing();
        return;
      }
      Shrink();
      top, end, freelist := 0, 0, End;
      free := [];
      Sweep();
      handed := mark;
      assert init == old(init) * mark;
    }

    lemma MarkedAreCells()
      requires Valid()
      ensures forall c :: c in mark || c in init ==> IsCell(n, descrs, c)
      ensures forall c :: c in mark ==> HasMark(c.blk, mark)
    {
      forall c | c in mark || c in init ensures IsCell(n, descrs, c) {
        assert Placed(c);
      }
    }

    lemma Nothing()
      requires Valid() && descrs == []
      ensures handed == {} && free == [] && mark == {} && init == {} && top == end
    {
      assert free != [] ==> free[0] in free;
      forall c ensures c !in free && c !in handed {
        assert Placed(c) && !IsCell(n, descrs, c);
      }
    }

    /** finalize: marks are cleared on every block. */
    method Finalize()
      requires Valid()
      modifies this`mark
      ensures Valid() && mark == {} && top == old(top)
    {
      mark := {};
      assert forall c :: old(Placed(c)) ==> Placed(c);
    }

    method Commit(c: Cell)
      requires Valid() && c in handed
      modifies this`init
      ensures Valid() && init == old(init) + {c} && handed == old(handed)
    {
      init := init + {c};
      assert forall x :: old(Placed(x)) ==> Placed(x);
    }

    /** What a collection of the whole heap does to this pool: some handed-out cells get marked, the rest
        is swept, and the marks are cleared. */
    method Gc(marks: set<Cell>)
      requires Valid() && marks <= handed
      modifies this
      ensures Valid() && top == end && handed == marks && mark == {} && init == old(init) * marks
      ensures descrs == Used(old(descrs), marks)
      ensures forall c :: c in free <==> IsCell(n, descrs, c) && c !in marks
    {
      mark := marks;
      assert forall c :: old(Placed(c)) ==> Placed(c);
      Collect();
      Finalize();
    }

    /** try_expand_and_allocate: a new block, else the freelist, else a collection, then a larger heap.
        `offers` is what the core allocator answers at each attempt, `marks` what the collection marks. */
    method TryExpandAndAllocate(offers: seq<Option<nat>>, marks: set<Cell>, attempt: nat)
      returns (c: Option<Cell>, collected: bool)
      requires Valid() && top == end && |offers| == 3 && attempt <= 2
      requires attempt == 0 ==> marks <= handed
      requires if attempt == 0 then Fits(descrs, offers, marks) else NoneIn(offers, attempt, descrs)
      modifies this
      ensures Valid()
      ensures collected <==> attempt == 0 && old(freelist).End? && offers[0].None?
      ensures var kept := if collected then Used(old(descrs), marks) else old(descrs);
        descrs == kept || exists k :: attempt <= k < 3 && offers[k].Some? && descrs == kept + [offers[k].value]
      ensures attempt > 0 ==> (c.None? <==> old(freelist).End? && forall k :: attempt <= k < 3 ==> offers[k].None?)
      ensures attempt == 0 ==> (c.None? <==> collected && AllIn(n, Used(old(descrs), marks), marks) && offers[1].None? && offers[2].None?)
      ensures c.Some? ==> IsCell(n, descrs, c.value)
      ensures var kept := if collected then marks else old(handed);
        if c.Some? then c.value !in kept && handed == kept + {c.value} else handed == kept
      ensures init == if collected then old(init) * marks else old(init)
      decreases 2 - attempt
    {
      collected := false;
      if offers[attempt].Some? {
        AddBlock(offers[attempt].value);
        var p := StackAllocation();
        return Some(p), collected;
      }
      if freelist.To? {
        var p := FreelistAllocation();
        return Some(p), collected;
      }
      if attempt == 0 {
        UsedMembers(descrs, marks);
        Gc(marks);
        collected := true;
      } else if attempt == 2 {
        return None, collected;
      }
      var again;
      c, again := TryExpandAndAllocate(offers, marks, attempt + 1);
    }

    /** allocate: a cell that is handed out already is never handed out again, and no handed-out cell
        is given up except by a collection that did not mark it. */
    method Allocate(offers: seq<Option<nat>>, marks: set<Cell>) returns (c: Option<Cell>, collected: bool)
      requires Valid() && Fits(descrs, offers, marks) && marks <= handed
      modifies this
      ensures Valid()
      ensures collected <==> old(top) == old(end) && old(freelist).End? && offers[0].None?
      ensures TakesBlock(offers, if collected then Used(old(descrs), marks) else old(descrs), descrs)
      ensures c.None? <==> collected && AllIn(n, Used(old(descrs), marks), marks) && offers[1].None? && offers[2].None?
      ensures c.Some? ==> IsCell(n, descrs, c.value)
      ensures var kept := if collected then marks else old(handed);
        if c.Some? then c.value !in kept && handed == kept + {c.value} else handed == kept
      ensures init == if collected then old(init) * marks else old(init)
    {
      if top == end {
        c, collected := TryExpandAndAllocate(offers, marks, 0);
      } else {
        var p := StackAllocation();
        return Some(p), false;
      }
    }
  }

  /** One call; what it hands out is not out. `out` is the set of cells that are. */
  method Serve(pool: Pool, r: Request, out: set<Cell>) returns (a: Answer)
    requires pool.Valid() && out == pool.handed
    modifies pool
    ensures pool.Valid() && Answers(pool.n, r, a, Moment(out, old(pool.descrs), old(pool.init)), Moment(pool.handed, pool.descrs, pool.init))
    ensures Fresh(out, EventsOf(r, a))
  {
    hide Used, NoneIn, Chain;
    if !CanServe(pool, r, out) {
      return Refused;
    }
    match r
    case Want(offers, marks) =>
      pool.ExhaustedIff();
      var c, collected := pool.Allocate(offers, marks);
      a := Given(c, collected);
      Outcome(out, r, a);
    case Reclaim(marks) =>
      pool.Gc(marks);
      a := Done;
      Outcome(out, r, a);
    case Initialised(c) =>
      pool.Commit(c);
      a := Done;
  }

  function CanServe(pool: Pool, r: Request, out: set<Cell>): (b: bool)
    reads pool
    ensures b == Proper(r, Moment(out, pool.descrs, pool.init))
  {
    Proper(r, Moment(out, pool.descrs, pool.init))
  }

  lemma Outcome(out: set<Cell>, r: Request, a: Answer)
    requires a.Given? ==> r.Want? && (a.c.Some? ==> a.c.value !in (if a.collected then r.marks else out))
    ensures Fresh(out, EventsOf(r, a))
    ensures a.Given? ==>
              OutAfter(out, EventsOf(r, a)) == (if a.collected then r.marks else out) + (if a.c.Some? then {a.c.value} else {})
    ensures a.Done? && r.Reclaim? ==> OutAfter(out, EventsOf(r, a)) == r.marks
  {
    var log := EventsOf(r, a);
    if |log| == 2 {
      assert log[..1] == [Collected(r.marks)] && log[..1][..0] == [];
    }
  }

  /** A run of calls on a new pool: each is answered rightly, what is out is what the events say, no cell
      comes out twice without having been released in between, and committed are exactly the cells whose
      commit was accepted and that no collection has released since. */
  ghost predicate Served(n: nat, requests: seq<Request>, answers: seq<Answer>, trace: seq<Moment>) {
    && |answers| == |requests| && |trace| == |requests| + 1 && trace[0] == Moment({}, [], {})
    && (forall i :: 0 <= i < |requests| ==> AnsweredAt(n, requests, answers, trace, i))
    && trace[|requests|].out == OutAfter({}, History(requests, answers))
    && NeverTwice(History(requests, answers))
    && (forall c :: c in trace[|requests|].committed <==> IsCommitted(requests, answers, c))
  }

  ghost predicate AnsweredAt(n: nat, requests: seq<Request>, answers: seq<Answer>, trace: seq<Moment>, i: nat) {
    i < |requests| && i < |answers| && i + 1 < |trace| && Answers(n, requests[i], answers[i], trace[i], trace[i + 1])
  }

  lemma AnsweredMore(n: nat, requests: seq<Request>, answers: seq<Answer>, trace: seq<Moment>, r: Request, a: Answer, m: Moment, i: nat)
    requires |answers| == |requests| && |trace| == |requests| + 1 && i <= |requests|
    requires if i < |requests| then AnsweredAt(n, requests, answers, trace, i) else Answers(n, r, a, trace[i], m)
    ensures AnsweredAt(n, requests + [r], answers + [a], trace + [m], i)
  {
    hide Answers;
  }

  lemma HistoryMore(requests: seq<Request>, answers: seq<Answer>, r: Request, a: Answer)
    requires |answers| == |requests|
    ensures History(requests + [r], answers + [a]) == History(requests, answers) + EventsOf(r, a)
  {
    hide EventsOf;
    assert (requests + [r])[..|requests|] == requests && (answers + [a])[..|requests|] == answers;
  }

  lemma ServedMore(n: nat, requests: seq<Request>, answers: seq<Answer>, trace: seq<Moment>, r: Request, a: Answer, m: Moment)
    requires Served(n, requests, answers, trace)
    requires Answers(n, r, a, trace[|requests|], m) && Fresh(trace[|requests|].out, EventsOf(r, a))
    ensures Served(n, requests + [r], answers + [a], trace + [m])
  {
    hide Answers, AnsweredAt, NeverTwice, Fresh, EventsOf, OutAfter, History, IsCommitted, Commits, Releases;
    var log := History(requests, answers);
    FreshNeverTwice(log, EventsOf(r, a));
    OutThen({}, log, EventsOf(r, a));
    AnswerOut(n, r, a, trace[|requests|], m);
    HistoryMore(requests, answers, r, a);
    forall i: nat | i <= |requests| ensures AnsweredAt(n, requests + [r], answers + [a], trace + [m], i) {
      AnsweredMore(n, requests, answers, trace, r, a, m, i);
    }
    forall c ensures c in m.committed <==> IsCommitted(requests + [r], answers + [a], c) {
      CommittedMore(requests, answers, r, a, c);
    }
  }

  lemma AnswerOut(n: nat, r: Request, a: Answer, m: Moment, m': Moment)
    requires Answers(n, r, a, m, m')
    ensures m'.out == OutAfter(m.out, EventsOf(r, a))
    ensures forall c :: c in m'.committed <==> Commits(r, a, c) || (c in m.committed && !Releases(r, a, c))
  {
  }

  lemma ServedNothing(n: nat, requests: seq<Request>)
    ensures Served(n, requests[..0], [], [Moment({}, [], {})])
  {
    assert requests[..0] == [];
  }

  lemma ServedHas(n: nat, requests: seq<Request>, answers: seq<Answer>, trace: seq<Moment>)
    requires Served(n, requests, answers, trace)
    ensures |answers| == |requests| && |trace| == |requests| + 1
  {
  }

  /** Any sequence of calls on a new pool. Calls that their callers may not make are refused, so every run
      of proper calls is a run of this method. */
  method Drive(pool: Pool, requests: seq<Request>) returns (answers: seq<Answer>, ghost trace: seq<Moment>)
    requires pool.Valid() && pool.handed == {} && pool.descrs == []
    modifies pool
    ensures pool.Valid() && Served(pool.n, requests, answers, trace) && trace[|requests|] == Moment(pool.handed, pool.descrs, pool.init)
  {
    hide Answers, Served, Fresh, EventsOf, OutAfter;
    answers, trace := [], [Moment({}, [], {})];
    var out: set<Cell> := {};
    ServedNothing(pool.n, requests);
    ServedHas(pool.n, requests[..0], answers, trace);
    for i := 0 to |requests|
      invariant pool.Valid() && |answers| == i && |trace| == i + 1 && Served(pool.n, requests[..i], answers, trace)
      invariant trace[i] == Moment(pool.handed, pool.descrs, pool.init) && pool.handed == out
    {
      var a := Serve(pool, requests[i], out);
      ServedMore(pool.n, requests[..i], answers, trace, requests[i], a, Moment(pool.handed, pool.descrs, pool.init));
      AnswerOut(pool.n, requests[i], a, trace[i], Moment(pool.handed, pool.descrs, pool.init));
      out := OutAfter(out, EventsOf(requests[i], a));
      answers, trace := answers + [a], trace + [Moment(pool.handed, pool.descrs, pool.init)];
      assert requests[..i + 1] == requests[..i] + [requests[i]];
    }
    assert requests[..|requests|] == requests;
  }
}
