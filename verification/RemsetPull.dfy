/** The opportunistic pull in the worker loop takes a remembered pointer out of the hash set and
    queues its cell without setting the mark. That is harmless while something else covers the cell, or
    while nothing that has been traced leads to it; otherwise it breaks the tri-colour invariant, and a
    live object can be swept. */
module RemsetPull {
  import opened Common
  import opened HeapGraph
  import opened ConcurrentMark
  import opened MarkSafety
  import opened MarkTheorems

  /** A pull keeps the collector's invariant exactly when its cell stays covered without the pointer, or no
      scanned handle and no traced root leads to the cell. */
  lemma PullKeepsInvIff(s: State, w: nat, k: nat, p: Ptr)
    requires Inv(s) && WorkerEnabled(s, w, PullRemset(k, p))
    ensures Inv(WorkerEffect(s, w, PullRemset(k, p))) <==> StillCovered(s, p) || !ReliedOn(s, p.cell)
  {
    if MayForget(s, p) {
      PullKeepsInv(s, w, k, p);
    } else {
      PullUncovers(s, w, k, p);
      PullLeavesReliance(s, w, k, p);
    }
  }

  /** What the pull leaves covers the cell only if it was covered otherwise. */
  lemma PullUncovers(s: State, w: nat, k: nat, p: Ptr)
    requires WorkerEnabled(s, w, PullRemset(k, p)) && !StillCovered(s, p)
    ensures !Covered(WorkerEffect(s, w, PullRemset(k, p)), p.cell)
  {
    var s', u := WorkerEffect(s, w, PullRemset(k, p)), s.(remset := s.remset - {p});
    assert s'.marks == u.marks && s'.remset == u.remset && s'.ssb == u.ssb && s'.muts == u.muts && s'.workers == u.workers;
    assert InRemset(s', p.cell) ==> InRemset(u, p.cell);
    assert InBuffer(s', p.cell) ==> InBuffer(u, p.cell);
    assert InBarrier(s', p.cell) ==> InBarrier(u, p.cell);
    assert Claimed(s', p.cell) ==> Claimed(u, p.cell);
  }

  /** Queuing the cell makes no handle pending but its own, so a scanned handle to it stays scanned. */
  lemma PullLeavesReliance(s: State, w: nat, k: nat, p: Ptr)
    requires Inv(s) && WorkerEnabled(s, w, PullRemset(k, p)) && ReliedOn(s, p.cell)
    requires !Covered(WorkerEffect(s, w, PullRemset(k, p)), p.cell)
    ensures !TriColour(WorkerEffect(s, w, PullRemset(k, p)))
  {
    var s' := WorkerEffect(s, w, PullRemset(k, p));
    if r :| r in s.roots && TracedTo(s, r, p.cell) {
      assert s'.roots == s.roots && s'.col == s.col && s'.phase == s.phase;
      assert !CoveredHandle(s', s'.roots[r]);
    } else {
      var c, j :| c in s.marks && c in s.heap && 0 <= j < |s.heap[c]| && Targets(s.heap[c][j], p.cell) && !Pending(s, c, j);
      PullQueuesOne(s, w, k, p, c, j);
      assert !CoveredHandle(s', s'.heap[c][j]);
    }
  }

  lemma PullQueuesOne(s: State, w: nat, k: nat, p: Ptr, c: nat, j: nat)
    requires WorkerEnabled(s, w, PullRemset(k, p)) && !Pending(s, c, j) && c != p.cell
    ensures !Pending(WorkerEffect(s, w, PullRemset(k, p)), c, j)
  {
    var s' := WorkerEffect(s, w, PullRemset(k, p));
    assert forall o :: 0 <= o < |s.packets| && c in s'.packets[o].cells ==> c in s.packets[o].cells;
    assert Queued(s', c) ==> Queued(s, c);
    assert Owed(s', c, j) ==> Owed(s, c, j);
  }

  // A whole run, from the empty system, that loses a live cell. Cell 1 hangs from a field of the only root's
  // cell; when marking has begun a program moves it to a second root and clears the field, so only
  // the barrier knows of it. A worker takes it out of the remembered set before the collector gets to it.

  const IDLE := Packet(EmptyPool, [])
  const LOST := Ptr(1, 0)
  const TO1 := To(LOST)
  const TO2 := To(Ptr(2, 0))
  const LINKED: Heap := map[2 := [TO1], 1 := []]
  const APART: Heap := map[2 := [Null], 1 := []]
  const ONE_ROOT: map<nat, Handle> := map[0 := TO2]
  const TWO_ROOTS: map<nat, Handle> := map[0 := TO2, 1 := TO1]
  const RESTING: map<nat, MutatorPc> := map[0 := Rest]

  /** The step that pulls the unmarked cell, and the number of steps. */
  const PULL: nat := 31
  const STEPS: nat := 48

  function Packets(p0: Packet, p1: Packet): (r: seq<Packet>)
    ensures |r| == PACKETS_COUNT && r[0] == p0 && r[1] == p1
    ensures forall k :: 2 <= k < PACKETS_COUNT ==> r[k] == IDLE
  {
    seq(PACKETS_COUNT, k => if k == 0 then p0 else if k == 1 then p1 else IDLE)
  }

  lemma PacketsSet(p0: Packet, p1: Packet, q: Packet)
    ensures Packets(p0, p1)[0 := q] == Packets(q, p1)
    ensures Packets(p0, p1)[1 := q] == Packets(p0, q)
  {
  }

  function Scene(heap: Heap, roots: map<nat, Handle>, marks: set<nat>, phase: Phase, muts: map<nat, MutatorPc>, ssb: map<nat, seq<Ptr>>,
                 remset: set<Ptr>, p0: Packet, p1: Packet, workers: map<nat, WorkerPc>, col: CollectorPc): State {
    State(heap, roots, map[], marks, phase, muts, ssb, remset, Packets(p0, p1), workers, col)
  }

  /** Two cells, one a field of the other, and one root. */
  function Building(heap: Heap, roots: map<nat, Handle>, muts: map<nat, MutatorPc>): State {
    Scene(heap, roots, {}, Idle, muts, map[], {}, IDLE, IDLE, map[], Running)
  }

  /** Marking starts: the root is traced and one worker runs. */
  function Starting(marks: set<nat>, p0: Packet, col: CollectorPc): State {
    Scene(LINKED, ONE_ROOT, marks, Idle, RESTING, map[], {}, p0, IDLE, map[], col)
  }

  /** The mutator takes cell 1 to a new root and clears the field. */
  function Hiding(heap: Heap, roots: map<nat, Handle>, muts: map<nat, MutatorPc>, ssb: map<nat, seq<Ptr>>): State {
    Scene(heap, roots, {2}, Mark, muts, ssb, {}, Packet(PartialPool, [2]), IDLE, map[1 := NoInput], Running)
  }

  /** The worker scans cell 2, finds nothing and keeps its output packet. */
  function Scanning(p0: Packet, p1: Packet, w1: WorkerPc): State {
    Scene(APART, TWO_ROOTS, {2}, Mark, RESTING, map[0 := [LOST]], {}, p0, p1, map[1 := w1], Running)
  }

  /** The final stop: the worker pulls the pointer just after the flush. */
  function Stopping(ssb: map<nat, seq<Ptr>>, remset: set<Ptr>, p0: Packet, p1: Packet, col: CollectorPc): State {
    Scene(APART, TWO_ROOTS, {2}, Mark, RESTING, ssb, remset, p0, p1, map[1 := NoInput], col)
  }

  /** The collector thread drains what the worker queued. */
  function Draining(p0: Packet, p1: Packet, w1: WorkerPc, w0: WorkerPc): State {
    Scene(APART, TWO_ROOTS, {2}, Mark, RESTING, map[0 := []], {}, p0, p1, map[1 := w1, 0 := w0], Marking)
  }

  /** Both workers leave. */
  function Ending(p0: Packet, w1: WorkerPc, w0: WorkerPc): State {
    Scene(APART, TWO_ROOTS, {2}, Mark, RESTING, map[0 := []], {}, p0, IDLE, map[1 := w1, 0 := w0], Marking)
  }

  function BuildingAt(i: nat): State {
    match i
    case 0 => Building(map[], map[], map[])
    case 1 => Building(map[], map[], RESTING)
    case 2 => Building(map[2 := [Null]], ONE_ROOT, RESTING)
    case 3 => Building(APART, TWO_ROOTS, RESTING)
    case 4 => Building(APART, TWO_ROOTS, map[0 := Loaded(Field(2, 0), TO1)])
    case 5 => Building(LINKED, TWO_ROOTS, map[0 := Stored(TO1)])
    case _ => Building(LINKED, TWO_ROOTS, RESTING)
  }

  function StartingAt(i: nat): State {
    match i
    case 7 => Starting({}, IDLE, Running)
    case 8 => Starting({}, IDLE, Roots({0}, false, None))
    case 9 => Starting({2}, IDLE, Roots({}, false, Some(2)))
    case 10 => Starting({2}, Packet(RootsSlot, []), Roots({}, false, Some(2)))
    case 11 => Starting({2}, Packet(RootsSlot, [2]), Roots({}, false, None))
    case _ => Starting({2}, Packet(PartialPool, [2]), Roots({}, false, None))
  }

  function HidingAt(i: nat): State {
    match i
    case 13 => Hiding(LINKED, ONE_ROOT, RESTING, map[])
    case 14 => Hiding(LINKED, map[0 := TO2, 1 := Null], RESTING, map[])
    case 15 => Hiding(LINKED, map[0 := TO2, 1 := Null], map[0 := Loaded(Root(1), TO1)], map[])
    case 16 => Hiding(LINKED, TWO_ROOTS, map[0 := Stored(TO1)], map[])
    case 17 => Hiding(LINKED, TWO_ROOTS, RESTING, map[0 := [LOST]])
    case 18 => Hiding(LINKED, TWO_ROOTS, map[0 := Loaded(Field(2, 0), Null)], map[0 := [LOST]])
    case _ => Hiding(APART, TWO_ROOTS, map[0 := Stored(Null)], map[0 := [LOST]])
  }

  function ScanningAt(i: nat): State {
    match i
    case 20 => Scanning(Packet(PartialPool, [2]), IDLE, NoInput)
    case 21 => Scanning(Packet(Input(1), [2]), IDLE, Ready)
    case 22 => Scanning(Packet(Input(1), [2]), Packet(Output(1), []), Ready)
    case 23 => Scanning(Packet(Input(1), []), Packet(Output(1), []), Scan(2, 0))
    case 24 => Scanning(Packet(Input(1), []), Packet(Output(1), []), Scan(2, 1))
    case 25 => Scanning(Packet(Input(1), []), Packet(Output(1), []), Ready)
    case 26 => Scanning(Packet(Stash(1), []), Packet(Output(1), []), RetirePop)
    case _ => Scanning(Packet(Stash(1), []), Packet(Output(1), []), RetirePush(false))
  }

  function StoppingAt(i: nat): State {
    match i
    case 28 => Stopping(map[0 := [LOST]], {}, IDLE, Packet(Output(1), []), Running)
    case 29 => Stopping(map[0 := [LOST]], {}, IDLE, Packet(Output(1), []), Pins({}, None))
    case 30 => Stopping(map[0 := [LOST]], {}, IDLE, Packet(Output(1), []), FlushBuffers)
    case 31 => Stopping(map[0 := []], {LOST}, IDLE, Packet(Output(1), []), Remset({LOST}, None))
    case 32 => Stopping(map[0 := []], {}, IDLE, Packet(Output(1), [1]), Remset({LOST}, None))
    case 33 => Stopping(map[0 := []], {}, IDLE, Packet(Output(1), [1]), Remset({}, None))
    case 34 => Stopping(map[0 := []], {}, Packet(RemsetSlot, []), Packet(Output(1), [1]), Remset({}, None))
    case _ => Stopping(map[0 := []], {}, IDLE, Packet(Output(1), [1]), PreMark)
  }

  function DrainingAt(i: nat): State {
    match i
    case 36 => Draining(IDLE, Packet(Output(1), [1]), NoInput, NoInput)
    case 37 => Draining(IDLE, Packet(PartialPool, [1]), NoInput, NoInput)
    case 38 => Draining(IDLE, Packet(Input(0), [1]), NoInput, Ready)
    case 39 => Draining(Packet(Output(0), []), Packet(Input(0), [1]), NoInput, Ready)
    case 40 => Draining(Packet(Output(0), []), Packet(Input(0), []), NoInput, Scan(1, 0))
    case 41 => Draining(Packet(Output(0), []), Packet(Input(0), []), NoInput, Ready)
    case 42 => Draining(Packet(Output(0), []), Packet(Stash(0), []), NoInput, RetirePop)
    case _ => Draining(Packet(Output(0), []), Packet(Stash(0), []), NoInput, RetirePush(false))
  }

  function EndingAt(i: nat): State {
    match i
    case 44 => Ending(Packet(Output(0), []), NoInput, NoInput)
    case 45 => Ending(IDLE, NoInput, NoInput)
    case 46 => Ending(IDLE, NoInput, Done)
    case 47 => Ending(IDLE, Done, Done)
    case _ => Scene(map[2 := [Null]], TWO_ROOTS, {}, Idle, RESTING, map[0 := []], {}, IDLE, IDLE, map[], Running)
  }

  function SceneAt(i: nat): State {
    if i < 7 then BuildingAt(i) else
    if i < 13 then StartingAt(i) else
    if i < 20 then HidingAt(i) else
    if i < 28 then ScanningAt(i) else
    if i < 36 then StoppingAt(i) else
    if i < 44 then DrainingAt(i) else
    EndingAt(i)
  }

  function StepAt(i: nat): Step {
    match i
    case 0 => Attach(0)
    case 1 => Mutate(0, Alloc(0, 2, 1))
    case 2 => Mutate(0, Alloc(1, 1, 0))
    case 3 => Mutate(0, LoadSrc(Root(1), Field(2, 0)))
    case 4 => Mutate(0, StoreDst)
    case 5 => Mutate(0, Record)
    case 6 => Mutate(0, DropRoot(1))
    case 7 => Control(StopForMark)
    case 8 => Control(RootCb(0))
    case 9 => Control(ColTake(0))
    case 10 => Control(ColPush(0))
    case 11 => Control(GiveRoots(0))
    case 12 => Control(StartConcurrent({1}))
    case 13 => Mutate(0, NewRoot(1))
    case 14 => Mutate(0, LoadSrc(Field(2, 0), Root(1)))
    case 15 => Mutate(0, StoreDst)
    case 16 => Mutate(0, Record)
    case 17 => Mutate(0, LoadSrc(NullHandle, Field(2, 0)))
    case 18 => Mutate(0, StoreDst)
    case 19 => Mutate(0, Record)
    case 20 => Work(1, PopInput(0))
    case 21 => Work(1, TakeOutput(1))
    case 22 => Work(1, PopCell(0))
    case 23 => Work(1, ReadField)
    case 24 => Work(1, EndScan)
    case 25 => Work(1, StashInput(0))
    case 26 => Work(1, MissInput)
    case 27 => Work(1, GiveStash(0))
    case 28 => Control(StopForSweep)
    case 29 => Control(PinsDone)
    case 30 => Control(Flush)
    case 31 => Work(1, PullRemset(1, LOST))
    case 32 => Control(RemsetSkip(LOST))
    case 33 => Control(ColTake(0))
    case 34 => Control(RemsetDone(0))
    case 35 => Control(StartMarking({}))
    case 36 => Work(1, GiveOutput(1))
    case 37 => Work(0, PopInput(1))
    case 38 => Work(0, TakeOutput(0))
    case 39 => Work(0, PopCell(1))
    case 40 => Work(0, EndScan)
    case 41 => Work(0, StashInput(1))
    case 42 => Work(0, MissInput)
    case 43 => Work(0, GiveStash(1))
    case 44 => Work(0, GiveOutput(0))
    case 45 => Work(0, Exit)
    case 46 => Work(1, Exit)
    case _ => Control(Collect)
  }

  ghost predicate Leads(i: nat) {
    Enabled(SceneAt(i), StepAt(i)) && Effect(SceneAt(i), StepAt(i)) == SceneAt(i + 1)
  }

  lemma Whereabouts(s: State, p0: Packet, p1: Packet, at: Where)
    requires s.packets == Packets(p0, p1) && !at.EmptyPool?
    ensures Has(s, at) <==> p0.at == at || p1.at == at
  {
    assert s.packets[0] == p0 && s.packets[1] == p1;
  }

  lemma CellTwoLives(i: nat)
    requires 0 in SceneAt(i).roots && SceneAt(i).roots[0] == TO2
    ensures Live(SceneAt(i), 2)
  {
    StartIsReachable(SceneAt(i).heap, Starts(SceneAt(i)), 2);
  }

  lemma AllIdle(s: State)
    requires s.packets == Packets(IDLE, IDLE)
    ensures IsNoInput(s)
  {
    assert forall k :: 0 <= k < PACKETS_COUNT ==> s.packets[k] == IDLE;
    IdleCount(s, PACKETS_COUNT);
  }

  lemma IdleCount(s: State, n: nat)
    requires |s.packets| == n && forall k :: 0 <= k < n ==> s.packets[k] == IDLE
    ensures |set k: nat | k < |s.packets| && s.packets[k].at.EmptyPool?| == n
  {
    assert (set k: nat | k < |s.packets| && s.packets[k].at.EmptyPool?) == UpTo(n);
  }

  lemma Leads0()
    ensures Leads(0)
  {
    hide StartingAt, HidingAt, ScanningAt, StoppingAt, DrainingAt, EndingAt;
    hide Has, IsNoInput, OutputFull, Reachable;
    hide MutatorEnabled, MutatorEffect, WorkerEnabled, WorkerEffect, CollectorEnabled, CollectorEffect;
    var s := Effect(SceneAt(0), StepAt(0));
    assert s.muts == SceneAt(1).muts;
  }

  lemma Leads1()
    ensures Leads(1)
  {
    hide StartingAt, HidingAt, ScanningAt, StoppingAt, DrainingAt, EndingAt;
    hide Has, IsNoInput, OutputFull, Reachable;
    hide WorkerEnabled, WorkerEffect, CollectorEnabled, CollectorEffect;
    assert seq(1, _ => Null) == [Null];
    var s := Effect(SceneAt(1), StepAt(1));
    assert s.heap == SceneAt(2).heap && s.roots == SceneAt(2).roots;
  }

  lemma Leads2()
    ensures Leads(2)
  {
    hide StartingAt, HidingAt, ScanningAt, StoppingAt, DrainingAt, EndingAt;
    hide Has, IsNoInput, OutputFull, Reachable;
    hide WorkerEnabled, WorkerEffect, CollectorEnabled, CollectorEffect;
    assert seq(0, _ => Null) == [];
    var s := Effect(SceneAt(2), StepAt(2));
    assert s.heap == SceneAt(3).heap && s.roots == SceneAt(3).roots;
  }

  lemma Leads3()
    ensures Leads(3)
  {
    hide StartingAt, HidingAt, ScanningAt, StoppingAt, DrainingAt, EndingAt;
    hide Has, IsNoInput, OutputFull, Reachable;
    hide WorkerEnabled, WorkerEffect, CollectorEnabled, CollectorEffect;
    CellTwoLives(3);
    var s := Effect(SceneAt(3), StepAt(3));
    assert s.muts == SceneAt(4).muts;
  }

  lemma Leads4()
    ensures Leads(4)
  {
    hide StartingAt, HidingAt, ScanningAt, StoppingAt, DrainingAt, EndingAt;
    hide Has, IsNoInput, OutputFull, Reachable;
    hide WorkerEnabled, WorkerEffect, CollectorEnabled, CollectorEffect;
    assert [Null][0 := TO1] == [TO1];
    var s := Effect(SceneAt(4), StepAt(4));
    assert s.heap == SceneAt(5).heap && s.muts == SceneAt(5).muts;
  }

  lemma Leads5()
    ensures Leads(5)
  {
    hide StartingAt, HidingAt, ScanningAt, StoppingAt, DrainingAt, EndingAt;
    hide Has, IsNoInput, OutputFull, Reachable;
    hide WorkerEnabled, WorkerEffect, CollectorEnabled, CollectorEffect;
    var s := Effect(SceneAt(5), StepAt(5));
    assert s.muts == SceneAt(6).muts;
  }

  lemma Leads6()
    ensures Leads(6)
  {
    hide HidingAt, ScanningAt, StoppingAt, DrainingAt, EndingAt;
    hide Has, IsNoInput, OutputFull, Reachable;
    hide WorkerEnabled, WorkerEffect, CollectorEnabled, CollectorEffect;
    var s := Effect(SceneAt(6), StepAt(6));
    assert s.roots == SceneAt(7).roots;
  }

  lemma Leads7()
    ensures Leads(7)
  {
    hide BuildingAt, HidingAt, ScanningAt, StoppingAt, DrainingAt, EndingAt;
    hide Has, IsNoInput, OutputFull, Reachable;
    hide MutatorEnabled, MutatorEffect, WorkerEnabled, WorkerEffect;
    assert SceneAt(7).roots.Keys == {0};
  }

  lemma Leads8()
    ensures Leads(8)
  {
    hide BuildingAt, HidingAt, ScanningAt, StoppingAt, DrainingAt, EndingAt;
    hide Has, IsNoInput, OutputFull, Reachable;
    hide MutatorEnabled, MutatorEffect, WorkerEnabled, WorkerEffect;
    assert {0} - {0} == {};
    var s := Effect(SceneAt(8), StepAt(8));
    assert s.marks == SceneAt(9).marks;
  }

  lemma Leads9()
    ensures Leads(9)
  {
    hide BuildingAt, HidingAt, ScanningAt, StoppingAt, DrainingAt, EndingAt;
    hide Has, IsNoInput, OutputFull, Reachable;
    hide MutatorEnabled, MutatorEffect, WorkerEnabled, WorkerEffect;
    Whereabouts(SceneAt(9), IDLE, IDLE, RootsSlot);
    PacketsSet(IDLE, IDLE, Packet(RootsSlot, []));
  }

  lemma Leads10()
    ensures Leads(10)
  {
    hide BuildingAt, HidingAt, ScanningAt, StoppingAt, DrainingAt, EndingAt;
    hide Has, IsNoInput, OutputFull, Reachable;
    hide MutatorEnabled, MutatorEffect, WorkerEnabled, WorkerEffect;
    assert [] + [2] == [2];
    PacketsSet(Packet(RootsSlot, []), IDLE, Packet(RootsSlot, [2]));
  }

  lemma Leads11()
    ensures Leads(11)
  {
    hide BuildingAt, HidingAt, ScanningAt, StoppingAt, DrainingAt, EndingAt;
    hide Has, IsNoInput, OutputFull, Reachable;
    hide MutatorEnabled, MutatorEffect, WorkerEnabled, WorkerEffect;
    PacketsSet(Packet(RootsSlot, [2]), IDLE, Packet(PartialPool, [2]));
  }

  lemma Leads12()
    ensures Leads(12)
  {
    hide BuildingAt, ScanningAt, StoppingAt, DrainingAt, EndingAt;
    hide Has, IsNoInput, OutputFull, Reachable;
    hide MutatorEnabled, MutatorEffect, WorkerEnabled, WorkerEffect;
    Whereabouts(SceneAt(12), Packet(PartialPool, [2]), IDLE, RootsSlot);
    var s := Effect(SceneAt(12), StepAt(12));
    assert s.workers == SceneAt(13).workers;
  }

  lemma Leads13()
    ensures Leads(13)
  {
    hide BuildingAt, StartingAt, ScanningAt, StoppingAt, DrainingAt, EndingAt;
    hide Has, IsNoInput, OutputFull, Reachable;
    hide WorkerEnabled, WorkerEffect, CollectorEnabled, CollectorEffect;
    var s := Effect(SceneAt(13), StepAt(13));
    assert s.roots == SceneAt(14).roots;
  }

  lemma Leads14()
    ensures Leads(14)
  {
    hide BuildingAt, StartingAt, ScanningAt, StoppingAt, DrainingAt, EndingAt;
    hide Has, IsNoInput, OutputFull, Reachable;
    hide WorkerEnabled, WorkerEffect, CollectorEnabled, CollectorEffect;
    CellTwoLives(14);
    var s := Effect(SceneAt(14), StepAt(14));
    assert s.muts == SceneAt(15).muts;
  }

  lemma Leads15()
    ensures Leads(15)
  {
    hide BuildingAt, StartingAt, ScanningAt, StoppingAt, DrainingAt, EndingAt;
    hide Has, IsNoInput, OutputFull, Reachable;
    hide WorkerEnabled, WorkerEffect, CollectorEnabled, CollectorEffect;
    var s := Effect(SceneAt(15), StepAt(15));
    assert s.roots == SceneAt(16).roots && s.muts == SceneAt(16).muts;
  }

  lemma Leads16()
    ensures Leads(16)
  {
    hide BuildingAt, StartingAt, ScanningAt, StoppingAt, DrainingAt, EndingAt;
    hide Has, IsNoInput, OutputFull, Reachable;
    hide WorkerEnabled, WorkerEffect, CollectorEnabled, CollectorEffect;
    assert [] + [LOST] == [LOST];
    var s := Effect(SceneAt(16), StepAt(16));
    assert s.muts == SceneAt(17).muts && s.ssb == SceneAt(17).ssb;
  }

  lemma Leads17()
    ensures Leads(17)
  {
    hide BuildingAt, StartingAt, ScanningAt, StoppingAt, DrainingAt, EndingAt;
    hide Has, IsNoInput, OutputFull, Reachable;
    hide WorkerEnabled, WorkerEffect, CollectorEnabled, CollectorEffect;
    CellTwoLives(17);
    var s := Effect(SceneAt(17), StepAt(17));
    assert s.muts == SceneAt(18).muts;
  }

  lemma Leads18()
    ensures Leads(18)
  {
    hide BuildingAt, StartingAt, ScanningAt, StoppingAt, DrainingAt, EndingAt;
    hide Has, IsNoInput, OutputFull, Reachable;
    hide WorkerEnabled, WorkerEffect, CollectorEnabled, CollectorEffect;
    assert [TO1][0 := Null] == [Null];
    var s := Effect(SceneAt(18), StepAt(18));
    assert s.heap == SceneAt(19).heap && s.muts == SceneAt(19).muts;
  }

  lemma Leads19()
    ensures Leads(19)
  {
    hide BuildingAt, StartingAt, StoppingAt, DrainingAt, EndingAt;
    hide Has, IsNoInput, OutputFull, Reachable;
    hide WorkerEnabled, WorkerEffect, CollectorEnabled, CollectorEffect;
    var s := Effect(SceneAt(19), StepAt(19));
    assert s.muts == SceneAt(20).muts;
  }

  lemma Leads20()
    ensures Leads(20)
  {
    hide BuildingAt, StartingAt, HidingAt, StoppingAt, DrainingAt, EndingAt;
    hide Has, IsNoInput, OutputFull, Reachable;
    hide MutatorEnabled, MutatorEffect, CollectorEnabled, CollectorEffect;
    PacketsSet(Packet(PartialPool, [2]), IDLE, Packet(Input(1), [2]));
    var s := Effect(SceneAt(20), StepAt(20));
    assert s.workers == SceneAt(21).workers;
  }

  lemma Leads21()
    ensures Leads(21)
  {
    hide BuildingAt, StartingAt, HidingAt, StoppingAt, DrainingAt, EndingAt;
    hide Has, IsNoInput, OutputFull, Reachable;
    hide MutatorEnabled, MutatorEffect, CollectorEnabled, CollectorEffect;
    Whereabouts(SceneAt(21), Packet(Input(1), [2]), IDLE, Output(1));
    PacketsSet(Packet(Input(1), [2]), IDLE, Packet(Output(1), []));
  }

  lemma Leads22()
    ensures Leads(22)
  {
    hide BuildingAt, StartingAt, HidingAt, StoppingAt, DrainingAt, EndingAt;
    hide Has, IsNoInput, OutputFull, Reachable;
    hide MutatorEnabled, MutatorEffect, CollectorEnabled, CollectorEffect;
    Whereabouts(SceneAt(22), Packet(Input(1), [2]), Packet(Output(1), []), Output(1));
    assert [2][..0] == [];
    PacketsSet(Packet(Input(1), [2]), Packet(Output(1), []), Packet(Input(1), []));
    var s := Effect(SceneAt(22), StepAt(22));
    assert s.workers == SceneAt(23).workers;
  }

  lemma Leads23()
    ensures Leads(23)
  {
    hide BuildingAt, StartingAt, HidingAt, StoppingAt, DrainingAt, EndingAt;
    hide Has, IsNoInput, OutputFull, Reachable;
    hide MutatorEnabled, MutatorEffect, CollectorEnabled, CollectorEffect;
    var s := Effect(SceneAt(23), StepAt(23));
    assert s.workers == SceneAt(24).workers;
  }

  lemma Leads24()
    ensures Leads(24)
  {
    hide BuildingAt, StartingAt, HidingAt, StoppingAt, DrainingAt, EndingAt;
    hide Has, IsNoInput, OutputFull, Reachable;
    hide MutatorEnabled, MutatorEffect, CollectorEnabled, CollectorEffect;
    var s := Effect(SceneAt(24), StepAt(24));
    assert s.workers == SceneAt(25).workers;
  }

  lemma Ready25()
    ensures Enabled(SceneAt(25), StepAt(25))
  {
    hide BuildingAt, StartingAt, HidingAt, StoppingAt, DrainingAt, EndingAt;
    hide Has, IsNoInput, OutputFull, Reachable;
    hide MutatorEnabled, MutatorEffect, CollectorEnabled, CollectorEffect;
    Whereabouts(SceneAt(25), Packet(Input(1), []), Packet(Output(1), []), Output(1));
  }

  lemma Changes25()
    ensures StepAt(25) == Work(1, StashInput(0))
    ensures var s := SceneAt(25);
      && |s.packets| > 1
      && SceneAt(26) == s.(packets := s.packets[0 := s.packets[0].(at := Stash(1))], workers := s.workers[1 := RetirePop])
  {
    hide BuildingAt, StartingAt, HidingAt, StoppingAt, DrainingAt, EndingAt;
    PacketsSet(Packet(Input(1), []), Packet(Output(1), []), Packet(Stash(1), []));
    assert SceneAt(26).workers == SceneAt(25).workers[1 := RetirePop];
  }

  lemma Leads25()
    ensures Leads(25)
  {
    Ready25();
    Changes25();
    hide SceneAt, StepAt, WorkerEnabled, MutatorEnabled, MutatorEffect, CollectorEnabled, CollectorEffect;
  }

  lemma Leads26()
    ensures Leads(26)
  {
    hide BuildingAt, StartingAt, HidingAt, StoppingAt, DrainingAt, EndingAt;
    hide Has, IsNoInput, OutputFull, Reachable;
    hide MutatorEnabled, MutatorEffect, CollectorEnabled, CollectorEffect;
    var s := Effect(SceneAt(26), StepAt(26));
    assert s.workers == SceneAt(27).workers;
  }

  lemma Leads27()
    ensures Leads(27)
  {
    hide BuildingAt, StartingAt, HidingAt, DrainingAt, EndingAt;
    hide Has, IsNoInput, OutputFull, Reachable;
    hide MutatorEnabled, MutatorEffect, CollectorEnabled, CollectorEffect;
    PacketsSet(Packet(Stash(1), []), Packet(Output(1), []), IDLE);
    var s := Effect(SceneAt(27), StepAt(27));
    assert s.workers == SceneAt(28).workers;
  }

  lemma Leads28()
    ensures Leads(28)
  {
    hide BuildingAt, StartingAt, HidingAt, ScanningAt, DrainingAt, EndingAt;
    hide Has, IsNoInput, OutputFull, Reachable;
    hide MutatorEnabled, MutatorEffect, WorkerEnabled, WorkerEffect;
    assert SceneAt(28).pins.Keys == {};
  }

  lemma Leads29()
    ensures Leads(29)
  {
    hide BuildingAt, StartingAt, HidingAt, ScanningAt, DrainingAt, EndingAt;
    hide Has, IsNoInput, OutputFull, Reachable;
    hide MutatorEnabled, MutatorEffect, WorkerEnabled, WorkerEffect;
  }

  lemma Buffered30()
    ensures Buffered(SceneAt(30)) == {LOST} && (map t | t in SceneAt(30).ssb :: []) == SceneAt(31).ssb
  {
    assert LOST in SceneAt(30).ssb[0];
  }

  lemma Leads30()
    ensures Leads(30)
  {
    Buffered30();
    hide BuildingAt, StartingAt, HidingAt, ScanningAt, DrainingAt, EndingAt;
    hide Has, IsNoInput, OutputFull, Reachable, Buffered;
    hide MutatorEnabled, MutatorEffect, WorkerEnabled, WorkerEffect;
    var s := Effect(SceneAt(30), StepAt(30));
    assert s.ssb == SceneAt(31).ssb && s.remset == SceneAt(31).remset;
  }

  lemma Leads31()
    ensures Leads(31)
  {
    hide BuildingAt, StartingAt, HidingAt, ScanningAt, DrainingAt, EndingAt;
    hide Has, IsNoInput, OutputFull, Reachable;
    hide MutatorEnabled, MutatorEffect, CollectorEnabled, CollectorEffect;
    assert [] + [1] == [1];
    PacketsSet(IDLE, Packet(Output(1), []), Packet(Output(1), [1]));
    var s := Effect(SceneAt(31), StepAt(31));
    assert s.remset == SceneAt(32).remset;
  }

  lemma Leads32()
    ensures Leads(32)
  {
    hide BuildingAt, StartingAt, HidingAt, ScanningAt, DrainingAt, EndingAt;
    hide Has, IsNoInput, OutputFull, Reachable;
    hide MutatorEnabled, MutatorEffect, WorkerEnabled, WorkerEffect;
    assert {LOST} - {LOST} == {};
  }

  lemma Leads33()
    ensures Leads(33)
  {
    hide BuildingAt, StartingAt, HidingAt, ScanningAt, DrainingAt, EndingAt;
    hide Has, IsNoInput, OutputFull, Reachable;
    hide MutatorEnabled, MutatorEffect, WorkerEnabled, WorkerEffect;
    Whereabouts(SceneAt(33), IDLE, Packet(Output(1), [1]), RemsetSlot);
    PacketsSet(IDLE, Packet(Output(1), [1]), Packet(RemsetSlot, []));
  }

  lemma Leads34()
    ensures Leads(34)
  {
    hide BuildingAt, StartingAt, HidingAt, ScanningAt, DrainingAt, EndingAt;
    hide Has, IsNoInput, OutputFull, Reachable;
    hide MutatorEnabled, MutatorEffect, WorkerEnabled, WorkerEffect;
    PacketsSet(Packet(RemsetSlot, []), Packet(Output(1), [1]), IDLE);
  }

  lemma Leads35()
    ensures Leads(35)
  {
    hide BuildingAt, StartingAt, HidingAt, ScanningAt, EndingAt;
    hide Has, IsNoInput, OutputFull, Reachable;
    hide MutatorEnabled, MutatorEffect, WorkerEnabled, WorkerEffect;
    Whereabouts(SceneAt(35), IDLE, Packet(Output(1), [1]), RootsSlot);
    var s := Effect(SceneAt(35), StepAt(35));
    assert s.workers == SceneAt(36).workers;
  }

  lemma Leads36()
    ensures Leads(36)
  {
    hide BuildingAt, StartingAt, HidingAt, ScanningAt, StoppingAt, EndingAt;
    hide Has, IsNoInput, OutputFull, Reachable;
    hide MutatorEnabled, MutatorEffect, CollectorEnabled, CollectorEffect;
    PacketsSet(IDLE, Packet(Output(1), [1]), Packet(PartialPool, [1]));
  }

  lemma Leads37()
    ensures Leads(37)
  {
    hide BuildingAt, StartingAt, HidingAt, ScanningAt, StoppingAt, EndingAt;
    hide Has, IsNoInput, OutputFull, Reachable;
    hide MutatorEnabled, MutatorEffect, CollectorEnabled, CollectorEffect;
    PacketsSet(IDLE, Packet(PartialPool, [1]), Packet(Input(0), [1]));
    var s := Effect(SceneAt(37), StepAt(37));
    assert s.workers == SceneAt(38).workers;
  }

  lemma Leads38()
    ensures Leads(38)
  {
    hide BuildingAt, StartingAt, HidingAt, ScanningAt, StoppingAt, EndingAt;
    hide Has, IsNoInput, OutputFull, Reachable;
    hide MutatorEnabled, MutatorEffect, CollectorEnabled, CollectorEffect;
    Whereabouts(SceneAt(38), IDLE, Packet(Input(0), [1]), Output(0));
    PacketsSet(IDLE, Packet(Input(0), [1]), Packet(Output(0), []));
  }

  lemma Ready39()
    ensures Enabled(SceneAt(39), StepAt(39))
  {
    hide BuildingAt, StartingAt, HidingAt, ScanningAt, StoppingAt, EndingAt;
    hide Has, IsNoInput, OutputFull, Reachable;
    hide MutatorEnabled, MutatorEffect, CollectorEnabled, CollectorEffect;
    Whereabouts(SceneAt(39), Packet(Output(0), []), Packet(Input(0), [1]), Output(0));
  }

  lemma Changes39()
    ensures StepAt(39) == Work(0, PopCell(1))
    ensures var s := SceneAt(39);
      && |s.packets| > 1 && s.packets[1].cells == [1]
      && SceneAt(40) == s.(packets := s.packets[1 := s.packets[1].(cells := [])], workers := s.workers[0 := Scan(1, 0)])
  {
    hide BuildingAt, StartingAt, HidingAt, ScanningAt, StoppingAt, EndingAt;
    PacketsSet(Packet(Output(0), []), Packet(Input(0), [1]), Packet(Input(0), []));
    assert SceneAt(40).workers == SceneAt(39).workers[0 := Scan(1, 0)];
  }

  lemma Leads39()
    ensures Leads(39)
  {
    Ready39();
    Changes39();
    hide SceneAt, StepAt, WorkerEnabled, MutatorEnabled, MutatorEffect, CollectorEnabled, CollectorEffect;
    assert [1][..0] == [];
  }

  lemma Leads40()
    ensures Leads(40)
  {
    hide BuildingAt, StartingAt, HidingAt, ScanningAt, StoppingAt, EndingAt;
    hide Has, IsNoInput, OutputFull, Reachable;
    hide MutatorEnabled, MutatorEffect, CollectorEnabled, CollectorEffect;
    var s := Effect(SceneAt(40), StepAt(40));
    assert s.workers == SceneAt(41).workers;
  }

  lemma Ready41()
    ensures Enabled(SceneAt(41), StepAt(41))
  {
    hide BuildingAt, StartingAt, HidingAt, ScanningAt, StoppingAt, EndingAt;
    hide Has, IsNoInput, OutputFull, Reachable;
    hide MutatorEnabled, MutatorEffect, CollectorEnabled, CollectorEffect;
    Whereabouts(SceneAt(41), Packet(Output(0), []), Packet(Input(0), []), Output(0));
  }

  lemma Changes41()
    ensures StepAt(41) == Work(0, StashInput(1))
    ensures var s := SceneAt(41);
      && |s.packets| > 1
      && SceneAt(42) == s.(packets := s.packets[1 := s.packets[1].(at := Stash(0))], workers := s.workers[0 := RetirePop])
  {
    hide BuildingAt, StartingAt, HidingAt, ScanningAt, StoppingAt, EndingAt;
    PacketsSet(Packet(Output(0), []), Packet(Input(0), []), Packet(Stash(0), []));
    assert SceneAt(42).workers == SceneAt(41).workers[0 := RetirePop];
  }

  lemma Leads41()
    ensures Leads(41)
  {
    Ready41();
    Changes41();
    hide SceneAt, StepAt, WorkerEnabled, MutatorEnabled, MutatorEffect, CollectorEnabled, CollectorEffect;
  }

  lemma Leads42()
    ensures Leads(42)
  {
    hide BuildingAt, StartingAt, HidingAt, ScanningAt, StoppingAt, EndingAt;
    hide Has, IsNoInput, OutputFull, Reachable;
    hide MutatorEnabled, MutatorEffect, CollectorEnabled, CollectorEffect;
    var s := Effect(SceneAt(42), StepAt(42));
    assert s.workers == SceneAt(43).workers;
  }

  lemma Leads43()
    ensures Leads(43)
  {
    hide BuildingAt, StartingAt, HidingAt, ScanningAt, StoppingAt;
    hide Has, IsNoInput, OutputFull, Reachable;
    hide MutatorEnabled, MutatorEffect, CollectorEnabled, CollectorEffect;
    PacketsSet(Packet(Output(0), []), Packet(Stash(0), []), IDLE);
    var s := Effect(SceneAt(43), StepAt(43));
    assert s.workers == SceneAt(44).workers;
  }

  lemma Leads44()
    ensures Leads(44)
  {
    hide BuildingAt, StartingAt, HidingAt, ScanningAt, StoppingAt, DrainingAt;
    hide Has, IsNoInput, OutputFull, Reachable;
    hide MutatorEnabled, MutatorEffect, CollectorEnabled, CollectorEffect;
    PacketsSet(Packet(Output(0), []), IDLE, IDLE);
  }

  lemma Leads45()
    ensures Leads(45)
  {
    hide BuildingAt, StartingAt, HidingAt, ScanningAt, StoppingAt, DrainingAt;
    hide Has, IsNoInput, OutputFull, Reachable;
    hide MutatorEnabled, MutatorEffect, CollectorEnabled, CollectorEffect;
    Whereabouts(SceneAt(45), IDLE, IDLE, Output(0));
    AllIdle(SceneAt(45));
    var s := Effect(SceneAt(45), StepAt(45));
    assert s.workers == SceneAt(46).workers;
  }

  lemma Leads46()
    ensures Leads(46)
  {
    hide BuildingAt, StartingAt, HidingAt, ScanningAt, StoppingAt, DrainingAt;
    hide Has, IsNoInput, OutputFull, Reachable;
    hide MutatorEnabled, MutatorEffect, CollectorEnabled, CollectorEffect;
    Whereabouts(SceneAt(46), IDLE, IDLE, Output(1));
    AllIdle(SceneAt(46));
    var s := Effect(SceneAt(46), StepAt(46));
    assert s.workers == SceneAt(47).workers;
  }

  lemma Leads47()
    ensures Leads(47)
  {
    hide BuildingAt, StartingAt, HidingAt, ScanningAt, StoppingAt, DrainingAt;
    hide Has, IsNoInput, OutputFull, Reachable;
    hide MutatorEnabled, MutatorEffect, WorkerEnabled, WorkerEffect;
    hide Shape, TriColour;
    var s := Effect(SceneAt(47), StepAt(47));
    assert s.heap.Keys == SceneAt(48).heap.Keys;
    assert s.heap == SceneAt(48).heap && s.marks == SceneAt(48).marks && s.workers == SceneAt(48).workers;
  }

  lemma AllLead()
    ensures forall i: nat :: i < STEPS ==> Leads(i)
  {
    hide Leads;
    Leads0(); Leads1(); Leads2(); Leads3(); Leads4(); Leads5(); Leads6(); Leads7();
    Leads8(); Leads9(); Leads10(); Leads11(); Leads12(); Leads13(); Leads14(); Leads15();
    Leads16(); Leads17(); Leads18(); Leads19(); Leads20(); Leads21(); Leads22(); Leads23();
    Leads24(); Leads25(); Leads26(); Leads27(); Leads28(); Leads29(); Leads30(); Leads31();
    Leads32(); Leads33(); Leads34(); Leads35(); Leads36(); Leads37(); Leads38(); Leads39();
    Leads40(); Leads41(); Leads42(); Leads43(); Leads44(); Leads45(); Leads46(); Leads47();
  }

  lemma StartsEmpty()
    ensures Init(SceneAt(0))
  {
    assert Packets(IDLE, IDLE) == seq(PACKETS_COUNT, _ => IDLE);
  }

  /** When the worker pulls, only the pulled pointer covers cell 1, and root 1 leads to it. */
  lemma PullUnsound()
    ensures !Sound(SceneAt(PULL), StepAt(PULL))
  {
    var s := SceneAt(PULL);
    assert 1 in s.roots && TracedTo(s, 1, 1);
    var u := s.(remset := s.remset - {LOST});
    assert u.remset == {} && u.ssb == map[0 := []];
    assert !InRemset(u, 1) && !InBuffer(u, 1) && !InBarrier(u, 1) && !Claimed(u, 1);
  }

  lemma OthersSound(i: nat)
    requires i < STEPS && i != PULL
    ensures Sound(SceneAt(i), StepAt(i))
  {
    hide SceneAt, MayForget;
  }

  /** A run of the whole system in which every step but one pull is sound, and after which a root leads to
      a cell that the sweep has taken. */
  lemma PullLosesLiveCell() returns (states: seq<State>, steps: seq<Step>)
    ensures Run(states, steps) && PULL < |steps|
    ensures steps[PULL].Work? && steps[PULL].a.PullRemset? && !Sound(states[PULL], steps[PULL])
    ensures forall i :: 0 <= i < |steps| && i != PULL ==> Sound(states[i], steps[i])
    ensures var last := states[|steps|];
      0 in last.roots && 1 in last.roots && last.roots[1] == To(Ptr(1, 0)) && Live(last, 1) && 1 !in last.heap
  {
    states, steps := seq(STEPS + 1, i requires 0 <= i => SceneAt(i)), seq(STEPS, i requires 0 <= i => StepAt(i));
    AllLead();
    StartsEmpty();
    forall i | 0 <= i < |steps| ensures Follows(states, steps, i) {
      assert Leads(i);
    }
    forall i | 0 <= i < |steps| && i != PULL ensures Sound(states[i], steps[i]) {
      OthersSound(i);
    }
    PullUnsound();
    var last := states[STEPS];
    assert last == SceneAt(STEPS) && last.roots[1] == TO1;
    StartIsReachable(last.heap, Starts(last), 1);
  }
}
