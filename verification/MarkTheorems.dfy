/** What the invariants of MarkSafety give for whole runs: safety over any number of cycles,
    bounded floating garbage, exactness of a stop-the-world collection, detection of the end
    of marking, and the one worker step that can lose a live cell. */
module MarkTheorems {
  import opened Common
  import opened HeapGraph
  import opened ConcurrentMark
  import opened MarkSafety

  ghost predicate Follows(states: seq<State>, steps: seq<Step>, i: nat)
    requires i < |steps| && |states| == |steps| + 1
  {
    Enabled(states[i], steps[i]) && states[i + 1] == Effect(states[i], steps[i])
  }

  ghost predicate Run(states: seq<State>, steps: seq<Step>) {
    && |states| == |steps| + 1
    && Init(states[0])
    && forall i :: 0 <= i < |steps| ==> Follows(states, steps, i)
  }

  predicate SoundRun(states: seq<State>, steps: seq<Step>)
    requires |states| == |steps| + 1
  {
    forall i :: 0 <= i < |steps| ==> Sound(states[i], steps[i])
  }

  // ---------------------------------------------------------------- safety

  lemma {:induction false} RunKeepsInv(states: seq<State>, steps: seq<Step>, n: nat)
    requires Run(states, steps) && SoundRun(states, steps) && n < |states|
    ensures Inv(states[n])
  {
    if n == 0 {
      InitInv(states[0]);
    } else {
      RunKeepsInv(states, steps, n - 1);
      assert Follows(states, steps, n - 1);
      StepKeepsInv(states[n - 1], steps[n - 1]);
    }
  }

  /** In every state of every sound run no root, pin or field dangles: what the program can
      reach is always an existing cell, through any number of collections. */
  lemma NoLiveCellIsEverLost(states: seq<State>, steps: seq<Step>, n: nat, c: nat)
    requires Run(states, steps) && SoundRun(states, steps) && n < |states| && Live(states[n], c)
    ensures c in states[n].heap
  {
    RunKeepsInv(states, steps, n);
    var s := states[n];
    var cells := iset d | d in s.heap;
    assert Closed(s.heap, Starts(s), cells);
    ReachableIsLeast(s.heap, Starts(s), cells);
  }

  /** A collection keeps every reachable cell with its contents, and reaches the same cells after. */
  lemma CollectKeepsReachable(s: State)
    requires Inv(s) && CollectorEnabled(s, Collect)
    ensures var s' := CollectorEffect(s, Collect);
      forall c :: Live(s, c) ==> c in s.heap && c in s'.heap && s'.heap[c] == s.heap[c] && Live(s', c)
  {
    var s' := CollectorEffect(s, Collect);
    ReachableIsMarked(s);
    assert Starts(s') == Starts(s);
    var stay := iset c | Live(s', c);
    ReachableIsClosed(s'.heap, Starts(s'));
    MarkingComplete(s);
    forall c | Live(s, c) ensures Live(s', c) {
      var path :| ReachesBy(s.heap, Starts(s), path) && path[|path| - 1] == c;
      PathSurvives(s, path);
    }
  }

  lemma {:induction false} PathSurvives(s: State, path: seq<nat>)
    requires Inv(s) && CollectorEnabled(s, Collect) && ReachesBy(s.heap, Starts(s), path)
    ensures Live(CollectorEffect(s, Collect), path[|path| - 1])
  {
    var s' := CollectorEffect(s, Collect);
    var c := path[|path| - 1];
    if |path| == 1 {
      StartIsReachable(s'.heap, Starts(s'), c);
    } else {
      var d := path[|path| - 2];
      PathSurvives(s, path[..|path| - 1]);
      assert Live(s, d) by {
        var before := path[..|path| - 1];
        assert before[|before| - 1] == d;
      }
      ReachableIsMarked(s);
      assert Edge(s.heap, d, c) && d in s.marks;
      var j :| 0 <= j < |s.heap[d]| && Targets(s.heap[d][j], c);
      assert s'.heap[d] == s.heap[d] && Targets(s'.heap[d][j], c);
      ReachableStep(s'.heap, Starts(s'), d, c);
    }
  }

  // ---------------------------------------------------------------- floating garbage

  /** The graph part: roots, pins and the fields of good cells lead to good cells; a cell not
      yet allocated counts as good. */
  ghost predicate GraphIn(s: State, good: iset<nat>) {
    && (forall c: nat :: c !in s.heap ==> c in good)
    && (forall r :: r in s.roots && s.roots[r].To? ==> s.roots[r].ptr.cell in good)
    && (forall p :: p in s.pins ==> s.pins[p].cell in good)
    && (forall c, j :: c in s.heap && c in good && 0 <= j < |s.heap[c]| && s.heap[c][j].To? ==> s.heap[c][j].ptr.cell in good)
  }

  /** The barrier part: what mutators hold and have recorded is good. */
  ghost predicate BarrierIn(s: State, good: iset<nat>) {
    && (forall t :: t in s.muts && !s.muts[t].Rest? && s.muts[t].val.To? ==> s.muts[t].val.ptr.cell in good)
    && (forall t, i :: t in s.ssb && 0 <= i < |s.ssb[t]| ==> s.ssb[t][i].cell in good)
    && (forall p :: p in s.remset ==> p.cell in good)
  }

  ghost predicate QueuesIn(packets: seq<Packet>, good: iset<nat>) {
    forall k, c :: 0 <= k < |packets| && c in packets[k].cells ==> c in good
  }

  /** The marking part: marked cells, queued cells and cells in the hands of markers are good. */
  ghost predicate MarkersIn(s: State, good: iset<nat>) {
    && (forall c :: c in s.marks ==> c in good)
    && QueuesIn(s.packets, good)
    && (forall w :: w in s.workers ==> WorkerIn(s.workers[w], good))
    && (s.col.Remset? ==> forall p :: p in s.col.entries ==> p.cell in good)
  }

  ghost predicate WorkerIn(pc: WorkerPc, good: iset<nat>) {
    && (pc.Scan? || pc.Read? || pc.Claim? || pc.Push? ==> pc.c in good)
    && (pc.Read? || pc.Claim? || pc.Push? ==> pc.p.cell in good)
  }

  /** Everything the system holds, marks or reaches lies in `good`. */
  ghost predicate Contained(s: State, good: iset<nat>) {
    GraphIn(s, good) && BarrierIn(s, good) && MarkersIn(s, good)
  }

  lemma UsableIsGood(s: State, good: iset<nat>, loc: Loc)
    requires GraphIn(s, good) && CanUse(s, loc)
    ensures Value(s, loc).To? ==> Value(s, loc).ptr.cell in good
  {
    assert Closed(s.heap, Starts(s), good);
    ReachableIsLeast(s.heap, Starts(s), good);
  }

  lemma WriteContained(s: State, good: iset<nat>, loc: Loc, h: Handle)
    requires GraphIn(s, good) && ValidLoc(s, loc) && (h.To? ==> h.ptr.cell in good)
    ensures GraphIn(Write(s, loc, h), good)
  {
  }

  lemma MutatorGraphIn(s: State, good: iset<nat>, t: nat, m: MutatorStep)
    requires GraphIn(s, good) && BarrierIn(s, good) && MutatorEnabled(s, t, m)
    ensures GraphIn(MutatorEffect(s, t, m), good)
  {
    match m
    case StoreDst => WriteContained(s, good, s.muts[t].dst, s.muts[t].val);
    case Advance(loc, off) =>
      UsableIsGood(s, good, loc);
      WriteContained(s, good, loc, To(Ptr(Value(s, loc).ptr.cell, off)));
    case AddPin(_, src) => UsableIsGood(s, good, src);
    case Alloc(r, c, n) => AllocGraphIn(s, good, t, r, c, n);
    case Record => RecordGraphIn(s, good, t);
    case _ =>
      hide Live, Write, AddToBuffer;
  }

  lemma AllocGraphIn(s: State, good: iset<nat>, t: nat, r: nat, c: nat, n: nat)
    requires GraphIn(s, good) && MutatorEnabled(s, t, Alloc(r, c, n))
    ensures GraphIn(MutatorEffect(s, t, Alloc(r, c, n)), good)
  {
  }

  lemma RecordGraphIn(s: State, good: iset<nat>, t: nat)
    requires GraphIn(s, good) && MutatorEnabled(s, t, Record)
    ensures GraphIn(MutatorEffect(s, t, Record), good)
  {
  }

  lemma RecordBarrierIn(s: State, good: iset<nat>, t: nat)
    requires BarrierIn(s, good) && MutatorEnabled(s, t, Record)
    ensures BarrierIn(MutatorEffect(s, t, Record), good)
  {
    var v := s.muts[t].val;
    if s.phase.Mark? && v.To? && v.ptr.cell !in s.marks {
      AddedBarrierIn(SetMut(s, t, Rest), good, t, v.ptr);
    }
  }

  lemma AddedBarrierIn(s: State, good: iset<nat>, t: nat, p: Ptr)
    requires BarrierIn(s, good) && p.cell in good
    ensures BarrierIn(AddToBuffer(s, t, p), good)
  {
    var b := if t in s.ssb then s.ssb[t] else [];
    forall q | q in b ensures q.cell in good {
      var i :| 0 <= i < |b| && b[i] == q;
    }
  }

  lemma MutatorBarrierIn(s: State, good: iset<nat>, t: nat, m: MutatorStep)
    requires GraphIn(s, good) && BarrierIn(s, good) && MutatorEnabled(s, t, m)
    ensures BarrierIn(MutatorEffect(s, t, m), good)
  {
    match m
    case LoadSrc(src, dst) =>
      if !src.NullHandle? {
        UsableIsGood(s, good, src);
      }
    case Record => RecordBarrierIn(s, good, t);
    case _ =>
  }

  lemma MutatorContained(s: State, good: iset<nat>, t: nat, m: MutatorStep)
    requires Contained(s, good) && MutatorEnabled(s, t, m)
    ensures Contained(MutatorEffect(s, t, m), good)
  {
    MutatorGraphIn(s, good, t, m);
    MutatorBarrierIn(s, good, t, m);
    MutatorMarkersIn(s, good, t, m);
    hide GraphIn, BarrierIn, MarkersIn, MutatorEffect, MutatorEnabled;
  }

  lemma MutatorMarkersIn(s: State, good: iset<nat>, t: nat, m: MutatorStep)
    requires GraphIn(s, good) && MarkersIn(s, good) && MutatorEnabled(s, t, m)
    ensures MarkersIn(MutatorEffect(s, t, m), good)
  {
    MutatorMarks(s, t, m);
    hide MutatorEffect, MutatorEnabled, QueuesIn, WorkerIn;
  }

  /** A mutator marks nothing but the cell it allocates. */
  lemma MutatorMarks(s: State, t: nat, m: MutatorStep)
    requires MutatorEnabled(s, t, m)
    ensures var s' := MutatorEffect(s, t, m);
      && s'.packets == s.packets && s'.workers == s.workers && s'.col == s.col
      && (forall c :: c in s'.marks ==> c in s.marks || c !in s.heap)
  {
    hide Live, Write, AddToBuffer;
    match m
    case StoreDst => WriteFrame(s, s.muts[t].dst, s.muts[t].val);
    case Advance(loc, off) => WriteFrame(s, loc, To(Ptr(Value(s, loc).ptr.cell, off)));
    case Record =>
      if s.muts[t].val.To? {
        AddFrame(SetMut(s, t, Rest), t, s.muts[t].val.ptr);
      }
    case _ =>
  }

  lemma WriteFrame(s: State, loc: Loc, h: Handle)
    requires ValidLoc(s, loc)
    ensures var s' := Write(s, loc, h); s' == s.(heap := s'.heap, roots := s'.roots)
  {
  }

  lemma AddFrame(s: State, t: nat, p: Ptr)
    ensures var s' := AddToBuffer(s, t, p); s' == s.(ssb := s'.ssb, remset := s'.remset)
  {
  }

  lemma WorkerContained(s: State, good: iset<nat>, w: nat, a: WorkerStep)
    requires Contained(s, good) && WorkerEnabled(s, w, a)
    ensures Contained(WorkerEffect(s, w, a), good)
  {
    WorkerFrame(s, w, a);
    WorkerMarks(s, w, a);
    WorkerStaysIn(s, good, w, a);
    WorkerQueuesIn(s, good, w, a);
    hide WorkerEffect, WorkerEnabled, WorkerIn, QueuesIn;
    var s' := WorkerEffect(s, w, a);
    forall c | c in s'.marks ensures c in good {
      if c !in s.marks {
        assert s.workers[w].Claim? && c == s.workers[w].p.cell;
        ClaimIn(s.workers[w], good);
      }
    }
  }

  lemma WorkerQueuesIn(s: State, good: iset<nat>, w: nat, a: WorkerStep)
    requires BarrierIn(s, good) && MarkersIn(s, good) && WorkerEnabled(s, w, a)
    ensures QueuesIn(WorkerEffect(s, w, a).packets, good)
  {
    hide Has, IsNoInput, OutputFull, PoolFor, QueuesIn;
    match a
    case PopInput(k) => MovedQueuesIn(s, k, Input(w), good);
    case GiveStash(k) => MovedQueuesIn(s, k, PoolFor(s.packets[k].cells), good);
    case TakeOutput(k) => MovedQueuesIn(s, k, Output(w), good);
    case GiveOutput(k) => MovedQueuesIn(s, k, PoolFor(s.packets[k].cells), good);
    case PopCell(k) => PoppedQueuesIn(s, k, good);
    case StashInput(k) => MovedQueuesIn(s, k, Stash(w), good);
    case PushCell(k) =>
      WorkerIsIn(s, w, good);
      PushedQueuesIn(s, k, s.workers[w].p.cell, good);
    case TakeFresh(k) => MovedQueuesIn(s, k, Fresh(w), good);
    case SwapOutput(k, spare) =>
      MovedQueuesIn(s, k, PoolFor(s.packets[k].cells), good);
      MovedQueuesIn(ToPool(s, k), spare, Output(w), good);
    case PullRemset(k, p) => PushedQueuesIn(s, k, p.cell, good);
    case _ =>
  }

  lemma WorkerIsIn(s: State, w: nat, good: iset<nat>)
    requires MarkersIn(s, good) && w in s.workers && s.workers[w].Push?
    ensures s.workers[w].p.cell in good
  {
  }

  lemma MovedQueuesIn(s: State, k: nat, at: Where, good: iset<nat>)
    requires QueuesIn(s.packets, good) && k < |s.packets|
    ensures QueuesIn(SetAt(s, k, at).packets, good)
  {
  }

  lemma PushedQueuesIn(s: State, k: nat, c: nat, good: iset<nat>)
    requires QueuesIn(s.packets, good) && k < |s.packets| && c in good
    ensures QueuesIn(Append(s, k, c).packets, good)
  {
  }

  lemma PoppedQueuesIn(s: State, k: nat, good: iset<nat>)
    requires QueuesIn(s.packets, good) && k < |s.packets| && |s.packets[k].cells| > 0
    ensures QueuesIn(SetCells(s, k, s.packets[k].cells[..|s.packets[k].cells| - 1]).packets, good)
  {
  }

  lemma ClaimIn(pc: WorkerPc, good: iset<nat>)
    requires WorkerIn(pc, good) && pc.Claim?
    ensures pc.p.cell in good
  {
  }

  /** What a worker's step leaves alone. */
  lemma WorkerFrame(s: State, w: nat, a: WorkerStep)
    requires WorkerEnabled(s, w, a)
    ensures var s' := WorkerEffect(s, w, a);
      s' == s.(marks := s'.marks, workers := s'.workers, packets := s'.packets, remset := s'.remset) && s'.remset <= s.remset
  {
    hide Has, IsNoInput, OutputFull, At, Poppable, PoolFor;
  }

  lemma WorkerMarks(s: State, w: nat, a: WorkerStep)
    requires WorkerEnabled(s, w, a)
    ensures var s' := WorkerEffect(s, w, a);
      && w in s.workers && s'.workers == s.workers[w := s'.workers[w]]
      && (forall c :: c in s'.marks && c !in s.marks ==> s.workers[w].Claim? && c == s.workers[w].p.cell)
  {
    hide Has, IsNoInput, OutputFull, At, Poppable, PoolFor;
    var s' := WorkerEffect(s, w, a);
    assert s'.workers == s.workers[w := s'.workers[w]];
  }

  lemma WorkerStaysIn(s: State, good: iset<nat>, w: nat, a: WorkerStep)
    requires GraphIn(s, good) && MarkersIn(s, good) && WorkerEnabled(s, w, a)
    ensures WorkerIn(WorkerEffect(s, w, a).workers[w], good)
  {
    match a
    case PopCell(k) =>
      var cells := s.packets[k].cells;
      assert cells[|cells| - 1] in cells;
    case _ =>
  }

  lemma CollectorContained(s: State, good: iset<nat>, a: CollectorStep)
    requires Contained(s, good) && CollectorOk(s) && CollectorEnabled(s, a) && !a.Collect?
    ensures Contained(CollectorEffect(s, a), good)
  {
    CollectorFrame(s, a);
    CollectorBarrierIn(s, good, a);
    CollectorMarkersIn(s, good, a);
    hide CollectorEffect, CollectorEnabled, BarrierIn, MarkersIn;
  }

  /** What a collector's step other than the sweep leaves alone. */
  lemma CollectorFrame(s: State, a: CollectorStep)
    requires CollectorEnabled(s, a) && !a.Collect?
    ensures var s' := CollectorEffect(s, a);
      s' == s.(marks := s'.marks, phase := s'.phase, workers := s'.workers, packets := s'.packets,
               ssb := s'.ssb, remset := s'.remset, col := s'.col)
  {
    hide Has, IsNoInput, At, Poppable, PoolFor, Slot, Buffered, Spawn, AllRest, AllDone;
  }

  lemma CollectorBuffers(s: State, a: CollectorStep)
    requires CollectorEnabled(s, a) && !a.Collect? && !a.Flush? && !a.RemsetDone?
    ensures CollectorEffect(s, a).(ssb := s.ssb, remset := s.remset) == CollectorEffect(s, a)
  {
    hide Has, IsNoInput, At, Poppable, PoolFor, Slot, Buffered, Spawn, AllRest, AllDone;
  }

  lemma StaysStopped(s: State, a: CollectorStep)
    requires Stopped(s.col) && CollectorEnabled(s, a) && !a.Collect?
    ensures Stopped(CollectorEffect(s, a).col)
  {
    hide Has, IsNoInput, At, Poppable, PoolFor, Slot, Buffered, Spawn, AllRest, AllDone;
  }

  lemma CollectorBarrierIn(s: State, good: iset<nat>, a: CollectorStep)
    requires BarrierIn(s, good) && CollectorEnabled(s, a) && !a.Collect?
    ensures BarrierIn(CollectorEffect(s, a), good)
  {
    CollectorFrame(s, a);
    if !a.Flush? && !a.RemsetDone? {
      CollectorBuffers(s, a);
      hide CollectorEffect, CollectorEnabled;
    }
  }

  lemma CollectorMarkersIn(s: State, good: iset<nat>, a: CollectorStep)
    requires Contained(s, good) && CollectorOk(s) && CollectorEnabled(s, a) && !a.Collect?
    ensures MarkersIn(CollectorEffect(s, a), good)
  {
    CollectorQueuesIn(s, good, a);
    CollectorMarksIn(s, good, a);
    CollectorWorkersIn(s, good, a);
    CollectorEntriesIn(s, good, a);
    hide QueuesIn, CollectorEffect, CollectorEnabled, WorkerIn, GraphIn, BarrierIn;
  }

  lemma CollectorEntriesIn(s: State, good: iset<nat>, a: CollectorStep)
    requires BarrierIn(s, good) && MarkersIn(s, good) && CollectorEnabled(s, a) && !a.Collect?
    ensures var s' := CollectorEffect(s, a); s'.col.Remset? ==> forall p :: p in s'.col.entries ==> p.cell in good
  {
    CollectorEntries(s, a);
    BufferedIn(s, good);
    hide CollectorEffect, CollectorEnabled, QueuesIn, WorkerIn, Buffered;
  }

  /** The collector's list of remembered pointers only shrinks, but at the flush it is filled. */
  lemma CollectorEntries(s: State, a: CollectorStep)
    requires CollectorEnabled(s, a) && !a.Collect?
    ensures var s' := CollectorEffect(s, a); s'.col.Remset? ==>
      if a.Flush? then s'.col.entries == s.remset + Buffered(s) else s.col.Remset? && s'.col.entries <= s.col.entries
  {
    hide Has, IsNoInput, AllDone, AllRest, Spawn, PoolFor, At, Poppable, Buffered;
  }

  lemma BufferedIn(s: State, good: iset<nat>)
    requires BarrierIn(s, good)
    ensures forall q :: q in Buffered(s) ==> q.cell in good
  {
  }

  lemma CollectorMarksIn(s: State, good: iset<nat>, a: CollectorStep)
    requires Contained(s, good) && CollectorOk(s) && CollectorEnabled(s, a) && !a.Collect?
    ensures forall c :: c in CollectorEffect(s, a).marks ==> c in good
  {
    hide QueuesIn, Has, IsNoInput, AllDone, AllRest, WorkerIn, Buffered, Spawn;
  }

  lemma CollectorWorkersIn(s: State, good: iset<nat>, a: CollectorStep)
    requires MarkersIn(s, good) && CollectorEnabled(s, a) && !a.Collect?
    ensures var s' := CollectorEffect(s, a); forall w :: w in s'.workers ==> WorkerIn(s'.workers[w], good)
  {
    hide QueuesIn, Has, IsNoInput, AllDone, AllRest, Buffered;
  }

  lemma CollectorQueuesIn(s: State, good: iset<nat>, a: CollectorStep)
    requires MarkersIn(s, good) && CollectorOk(s) && CollectorEnabled(s, a) && !a.Collect?
    ensures QueuesIn(CollectorEffect(s, a).packets, good)
  {
    hide Has, IsNoInput, AllDone, AllRest, Buffered, Spawn, QueuesIn, PoolFor;
    match a
    case ColTake(k) => MovedQueuesIn(s, k, Slot(s.col), good);
    case ColGive(k) => MovedQueuesIn(s, k, PoolFor(s.packets[k].cells), good);
    case ColPush(k) => PushedQueuesIn(s, k, Reg(s.col).value, good);
    case GiveRoots(k) => MovedQueuesIn(s, k, PoolFor(s.packets[k].cells), good);
    case RemsetDone(k) => MovedQueuesIn(s, k, PoolFor(s.packets[k].cells), good);
    case _ =>
  }

  /** Cells live when the cycle began, and cells that did not exist then. */
  ghost function LiveOrNew(s0: State): iset<nat> {
    iset c: nat | c !in s0.heap || Live(s0, c)
  }

  lemma CycleStartsContained(s0: State)
    requires Inv(s0) && s0.phase.Idle? && s0.col.Running? && AllRest(s0)
    ensures Contained(s0, LiveOrNew(s0))
  {
    ReachableIsClosed(s0.heap, Starts(s0));
  }

  /** Steps a..b of the run form a cycle: it starts idle with the world stopped and has no sweep inside. */
  ghost predicate Cycle(states: seq<State>, steps: seq<Step>, a: nat, b: nat)
    requires |states| == |steps| + 1
  {
    && a < b < |steps|
    && (steps[a] == Control(StopForMark) || steps[a] == Control(StopForSweep))
    && states[a].phase.Idle?
    && steps[b] == Control(Collect)
    && forall i :: a <= i < b ==> steps[i] != Control(Collect)
  }

  lemma StepContained(s: State, step: Step, good: iset<nat>)
    requires Inv(s) && Contained(s, good) && Enabled(s, step) && step != Control(Collect)
    ensures Contained(Effect(s, step), good)
  {
    match step
    case Attach(_) =>
    case Mutate(t, m) => MutatorContained(s, good, t, m);
    case Work(w, a) => WorkerContained(s, good, w, a);
    case Control(g) => CollectorContained(s, good, g);
  }

  lemma CycleBegins(s0: State, step: Step)
    requires Inv(s0) && Enabled(s0, step) && s0.phase.Idle?
    requires step == Control(StopForMark) || step == Control(StopForSweep)
    ensures Contained(s0, LiveOrNew(s0))
  {
    assert s0.col.Running? && AllRest(s0);
    CycleStartsContained(s0);
  }

  lemma {:induction false} CycleContained(states: seq<State>, steps: seq<Step>, a: nat, b: nat, n: nat)
    requires Run(states, steps) && SoundRun(states, steps) && Cycle(states, steps, a, b) && a <= n <= b
    ensures Contained(states[n], LiveOrNew(states[a]))
  {
    hide Contained, LiveOrNew, Inv;
    if n == a {
      RunKeepsInv(states, steps, n);
      assert Follows(states, steps, a);
      CycleBegins(states[a], steps[a]);
    } else {
      CycleContained(states, steps, a, b, n - 1);
      RunKeepsInv(states, steps, n - 1);
      CycleStep(states, steps, n - 1, LiveOrNew(states[a]));
    }
  }

  lemma CycleStep(states: seq<State>, steps: seq<Step>, i: nat, good: iset<nat>)
    requires Run(states, steps) && i < |steps| && steps[i] != Control(Collect)
    requires Inv(states[i]) && Contained(states[i], good)
    ensures Contained(states[i + 1], good)
  {
    assert Follows(states, steps, i);
    StepContained(states[i], steps[i], good);
  }

  /** Bounded floating garbage: a cell that was already unreachable when the cycle stopped the
      world is never marked in that cycle, and is gone after its sweep. */
  lemma GarbageAtStartIsSwept(states: seq<State>, steps: seq<Step>, a: nat, b: nat, c: nat)
    requires Run(states, steps) && SoundRun(states, steps) && Cycle(states, steps, a, b)
    requires c in states[a].heap && !Live(states[a], c)
    ensures forall n :: a <= n <= b ==> c !in states[n].marks
    ensures c !in states[b + 1].heap
  {
    forall n | a <= n <= b ensures c !in states[n].marks {
      CycleContained(states, steps, a, b, n);
    }
    assert Follows(states, steps, b);
  }

  // ---------------------------------------------------------------- stop-the-world exactness

  /** Positions of the collector that follow a full stop and lead to a sweep without a restart. */
  predicate Stopped(col: CollectorPc) {
    match col
    case Running => false
    case Roots(_, full, _) => full
    case _ => true
  }

  lemma StoppedWorkerStep(s: State, w: nat, a: WorkerStep)
    requires WorkerEnabled(s, w, a)
    ensures var s' := WorkerEffect(s, w, a);
      s'.col == s.col && s'.heap == s.heap && s'.roots == s.roots && s'.pins == s.pins
  {
    WorkerFrame(s, w, a);
    hide WorkerEffect, WorkerEnabled;
  }

  lemma StoppedCollectorStep(s: State, a: CollectorStep)
    requires Stopped(s.col) && CollectorEnabled(s, a) && !a.Collect?
    ensures var s' := CollectorEffect(s, a);
      Stopped(s'.col) && s'.heap == s.heap && s'.roots == s.roots && s'.pins == s.pins
  {
    CollectorFrame(s, a);
    StaysStopped(s, a);
    hide CollectorEffect, CollectorEnabled;
  }

  lemma StoppedStep(s: State, step: Step)
    requires Stopped(s.col) && Enabled(s, step) && step != Control(Collect)
    ensures var s' := Effect(s, step);
      Stopped(s'.col) && s'.heap == s.heap && s'.roots == s.roots && s'.pins == s.pins
  {
    match step
    case Work(w, a) => StoppedWorkerStep(s, w, a);
    case Control(g) => StoppedCollectorStep(s, g);
    case _ => assert false;
  }

  lemma {:induction false} StoppedSegment(states: seq<State>, steps: seq<Step>, a: nat, b: nat, n: nat)
    requires Run(states, steps) && SoundRun(states, steps) && Cycle(states, steps, a, b) && steps[a] == Control(StopForSweep)
    requires a < n <= b
    ensures Stopped(states[n].col)
    ensures states[n].heap == states[a].heap && states[n].roots == states[a].roots && states[n].pins == states[a].pins
  {
    RunKeepsInv(states, steps, n - 1);
    assert Follows(states, steps, n - 1);
    if n > a + 1 {
      StoppedSegment(states, steps, a, b, n - 1);
      StoppedStep(states[n - 1], steps[n - 1]);
    }
  }

  /** A collection that stops the world for its whole length leaves exactly the reachable cells,
      and no mark bit survives it. */
  lemma FullCollectionIsExact(states: seq<State>, steps: seq<Step>, a: nat, b: nat)
    requires Run(states, steps) && SoundRun(states, steps) && Cycle(states, steps, a, b)
    requires steps[a] == Control(StopForSweep)
    ensures forall c :: c in states[b + 1].heap <==> Live(states[a], c)
    ensures states[b + 1].marks == {}
  {
    StoppedSegment(states, steps, a, b, b);
    RunKeepsInv(states, steps, b);
    assert Follows(states, steps, b);
    ReachableIsMarked(states[b]);
    assert Starts(states[b]) == Starts(states[a]);
    forall c | c in states[b + 1].heap ensures Live(states[a], c) {
      CycleContained(states, steps, a, b, b);
    }
    forall c | Live(states[a], c) ensures c in states[b + 1].heap {
      NoLiveCellIsEverLost(states, steps, a, c);
    }
  }

  // ---------------------------------------------------------------- termination detection

  /** With the world stopped for marking, once is_no_input holds no cell is grey and no worker
      holds anything. */
  lemma NoInputMeansNoGrey(s: State)
    requires Inv(s) && IsNoInput(s)
    ensures forall c :: !Queued(s, c)
    ensures forall w :: w in s.workers ==> s.workers[w].NoInput? || s.workers[w].Done?
    ensures s.col.Marking? ==> forall c, j :: c in s.marks && c in s.heap && 0 <= j < |s.heap[c]| && s.heap[c][j].To? ==> s.heap[c][j].ptr.cell in s.marks
  {
    NoInputMeansAllEmpty(s);
    forall w | w in s.workers ensures s.workers[w].NoInput? || s.workers[w].Done? {
      assert HoldsFor(s, w, s.workers[w]);
    }
    assert forall d :: !Claimed(s, d);
    assert forall c, j :: !Owed(s, c, j);
    if s.col.Marking? {
      assert forall d :: !InBarrier(s, d) && !InBuffer(s, d) && !InRemset(s, d);
    }
  }

  /** ... and it stays so until the sweep: workers that look later see the same. */
  lemma NoInputIsStable(s: State, step: Step)
    requires Inv(s) && s.col.Marking? && IsNoInput(s) && Enabled(s, step) && step != Control(Collect)
    ensures var s' := Effect(s, step); IsNoInput(s') && s'.marks == s.marks && s'.packets == s.packets
  {
    NoInputMeansAllEmpty(s);
    match step
    case Work(w, a) =>
      OnlyExits(s, w, a);
    case Control(g) => OnlyCollects(s, g);
    case _ =>
  }

  /** With every packet in the empty pool a worker can only leave. */
  lemma OnlyExits(s: State, w: nat, a: WorkerStep)
    requires PacketsOk(s) && AllEmpty(s) && WorkerEnabled(s, w, a)
    ensures a.Exit?
  {
    assert HoldsFor(s, w, s.workers[w]);
    hide IsNoInput, OutputFull;
  }

  lemma OnlyCollects(s: State, g: CollectorStep)
    requires s.col.Marking? && CollectorEnabled(s, g)
    ensures g.Collect?
  {
    hide IsNoInput, Has, AllDone;
  }
}
