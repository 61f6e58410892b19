/** What a program sees of its memory: what each of its steps does to the handles it can name, and that neither
    the workers nor the collector change any of them. */
module ProgramView {
  import opened Common
  import opened HeapGraph
  import opened ConcurrentMark
  import opened MarkSafety
  import opened MarkTheorems

  // ---------------------------------------------------------------- the memory, place by place

  /** The same places exist, and all but `dst` hold what they held. */
  ghost predicate SameBut(s: State, s': State, dst: Loc) {
    && s'.roots.Keys == s.roots.Keys && s'.heap.Keys == s.heap.Keys && s'.pins == s.pins
    && (forall r :: r in s.roots && dst != Root(r) ==> s'.roots[r] == s.roots[r])
    && (forall c :: c in s.heap ==> |s'.heap[c]| == |s.heap[c]|)
    && (forall c, j :: c in s.heap && 0 <= j < |s.heap[c]| && dst != Field(c, j) ==> s'.heap[c][j] == s.heap[c][j])
  }

  /** Nothing of the memory changes: the null handle is no place. */
  ghost predicate SameMemory(s: State, s': State) {
    SameBut(s, s', NullHandle)
  }

  /** What the collector and the workers have, and the program has no hand in. */
  predicate SameCollector(s: State, s': State) {
    s'.marks == s.marks && s'.phase == s.phase && s'.packets == s.packets && s'.workers == s.workers && s'.col == s.col
  }

  /** Pointers recorded by write barriers. */
  function Remembered(s: State): set<Ptr> {
    s.remset + Buffered(s)
  }

  /** The place exists and holds `h`. */
  predicate Holds(s: State, loc: Loc, h: Handle) {
    match loc
    case Root(r) => r in s.roots && s.roots[r] == h
    case Field(c, j) => c in s.heap && j < |s.heap[c]| && s.heap[c][j] == h
    case NullHandle => h.Null?
  }

  // ---------------------------------------------------------------- the write barrier

  lemma OthersKeepPc(s: State, step: Step, t: nat)
    requires Enabled(s, step) && t in s.muts && !(step.Mutate? && step.t == t)
    ensures t in Effect(s, step).muts && Effect(s, step).muts[t] == s.muts[t]
  {
    match step
    case Attach(_) =>
    case Mutate(u, m) => MutatorKeepsOthers(s, u, m, t);
    case Work(w, a) => WorkerKeepsProgram(s, w, a);
    case Control(g) => CollectorKeepsProgram(s, g);
  }

  lemma MutatorKeepsOthers(s: State, u: nat, m: MutatorStep, t: nat)
    requires MutatorEnabled(s, u, m) && t in s.muts && t != u
    ensures t in MutatorEffect(s, u, m).muts && MutatorEffect(s, u, m).muts[t] == s.muts[t]
  {
    match m
    case Alloc(_, _, _) =>
    case StoreDst =>
    case Record =>
    case Advance(_, _) =>
    case _ =>
      hide Write, AddToBuffer, Live;
  }

  lemma WorkerKeepsProgram(s: State, w: nat, a: WorkerStep)
    requires WorkerEnabled(s, w, a)
    ensures var s' := WorkerEffect(s, w, a);
      s'.roots == s.roots && s'.pins == s.pins && s'.muts == s.muts && s'.ssb == s.ssb && s'.heap == s.heap
  {
    hide IsNoInput, OutputFull;
  }

  lemma CollectorKeepsProgram(s: State, a: CollectorStep)
    requires CollectorEnabled(s, a)
    ensures var s' := CollectorEffect(s, a);
      s'.roots == s.roots && s'.pins == s.pins && s'.muts == s.muts && (!a.Collect? ==> s'.heap == s.heap)
  {
    hide Buffered, AllDone, AllRest, Poppable, PoolFor, Has, Spawn;
    match a
    case RootCb(_) =>
    case PinCb(_) =>
    case RemsetCb(_) =>
    case ColPush(_) =>
    case Flush =>
    case StartMarking(_) =>
    case Collect =>
    case _ =>
  }

  /** A load changes no memory, and the thread keeps what its source holds. */
  lemma LoadLaw(s: State, t: nat, src: Loc, dst: Loc)
    requires MutatorEnabled(s, t, LoadSrc(src, dst))
    ensures var s' := MutatorEffect(s, t, LoadSrc(src, dst));
      && SameMemory(s, s') && SameCollector(s, s') && Remembered(s') == Remembered(s)
      && t in s'.muts && s'.muts.Keys == s.muts.Keys && s'.muts[t].Loaded? && s'.muts[t].dst == dst && Holds(s, src, s'.muts[t].val)
  {
    hide Live;
  }

  lemma StoreLaw(s: State, t: nat)
    requires MutatorEnabled(s, t, StoreDst)
    ensures var s', dst, val := MutatorEffect(s, t, StoreDst), s.muts[t].dst, s.muts[t].val;
      && SameBut(s, s', dst) && SameCollector(s, s') && Remembered(s') == Remembered(s)
      && Holds(s', dst, val) && s'.muts == s.muts[t := Stored(val)]
  {
    hide Remembered, CanUse, Value, AddToBuffer;
    var s' := MutatorEffect(s, t, StoreDst);
    SameRemembered(s, s');
    match s.muts[t].dst
    case Root(r) => assert s' == s.(roots := s'.roots, muts := s'.muts);
    case Field(c, j) => assert s' == s.(heap := s'.heap, muts := s'.muts);
  }

  lemma SameRemembered(s: State, s': State)
    requires s'.remset == s.remset && s'.ssb == s.ssb
    ensures Remembered(s') == Remembered(s)
  {
  }

  /** While the collector marks, the barrier's last step remembers what was stored when its cell is unmarked. */
  lemma RecordLaw(s: State, t: nat)
    requires MutatorEnabled(s, t, Record)
    ensures var s', val := MutatorEffect(s, t, Record), s.muts[t].val;
      && SameMemory(s, s') && SameCollector(s, s') && s'.muts == s.muts[t := Rest]
      && Remembered(s') == Remembered(s) + (if s.phase.Mark? && val.To? && val.ptr.cell !in s.marks then {val.ptr} else {})
  {
    hide Remembered, CanUse, Value, Write, AddToBuffer;
    var s', val, s1 := MutatorEffect(s, t, Record), s.muts[t].val, SetMut(s, t, Rest);
    SameRemembered(s, s1);
    if s.phase.Mark? && val.To? && val.ptr.cell !in s.marks {
      AddRemembers(s1, t, val.ptr);
      AddLeavesRest(s1, t, val.ptr);
    }
  }

  lemma AddLeavesRest(s: State, t: nat, p: Ptr)
    ensures var s' := AddToBuffer(s, t, p); s' == s.(remset := s'.remset, ssb := s'.ssb)
  {
  }

  lemma AddRemembers(s: State, t: nat, p: Ptr)
    ensures Remembered(AddToBuffer(s, t, p)) == Remembered(s) + {p}
  {
    var s' := AddToBuffer(s, t, p);
    forall q ensures q in Remembered(s') <==> q in Remembered(s) + {p} {
      hide AddToBuffer;
      if q in Remembered(s) + {p} {
        AddKeeps(s, t, p, q);
      }
      if q in Remembered(s') {
        AddsOnly(s, t, p, q);
      }
    }
  }

  lemma InBuffer(s: State, u: nat, q: Ptr)
    requires u in s.ssb && q in s.ssb[u]
    ensures q in Remembered(s)
  {
  }

  lemma AddKeeps(s: State, t: nat, p: Ptr, q: Ptr)
    requires q in Remembered(s) + {p}
    ensures q in Remembered(AddToBuffer(s, t, p))
  {
    var s' := AddToBuffer(s, t, p);
    AddsLast(s, t, p);
    hide AddToBuffer;
    if q == p {
      InBuffer(s', t, p);
    } else if q !in s.remset {
      var u :| u in s.ssb && q in s.ssb[u];
      StaysBuffered(s, t, p, u, q);
      if q !in s'.remset {
        InBuffer(s', u, q);
      }
    }
  }

  lemma AddsLast(s: State, t: nat, p: Ptr)
    ensures var s' := AddToBuffer(s, t, p); t in s'.ssb && p in s'.ssb[t] && s.remset <= s'.remset
  {
    var s' := AddToBuffer(s, t, p);
    var b := s'.ssb[t];
    assert b[|b| - 1] == p;
    assert p in b;
  }

  lemma StaysBuffered(s: State, t: nat, p: Ptr, u: nat, q: Ptr)
    requires u in s.ssb && q in s.ssb[u]
    ensures var s' := AddToBuffer(s, t, p); q in s'.remset || (u in s'.ssb && q in s'.ssb[u])
  {
  }

  lemma AddsOnly(s: State, t: nat, p: Ptr, q: Ptr)
    requires q in Remembered(AddToBuffer(s, t, p))
    ensures q in Remembered(s) + {p}
  {
    var s' := AddToBuffer(s, t, p);
    if q !in s.remset && q != p {
      var u := WasBuffered(s, t, p, q);
      InBuffer(s, u, q);
    }
  }

  lemma WasBuffered(s: State, t: nat, p: Ptr, q: Ptr) returns (u: nat)
    requires q in Remembered(AddToBuffer(s, t, p)) && q !in s.remset && q != p
    ensures u in s.ssb && q in s.ssb[u]
  {
    var s' := AddToBuffer(s, t, p);
    if q in s'.remset {
      u := t;
    } else {
      u :| u in s'.ssb && q in s'.ssb[u];
    }
  }

  /** The thread's load and store of one barrier, with any steps of others between them. */
  ghost predicate BarrierRun(states: seq<State>, steps: seq<Step>, i: nat, j: nat, t: nat, src: Loc, dst: Loc) {
    && Run(states, steps) && i < j < |steps|
    && steps[i] == Mutate(t, LoadSrc(src, dst)) && steps[j] == Mutate(t, StoreDst)
    && forall k :: i < k < j ==> !(steps[k].Mutate? && steps[k].t == t)
  }

  lemma {:induction false} LoadedUntil(states: seq<State>, steps: seq<Step>, i: nat, j: nat, t: nat, src: Loc, dst: Loc, k: nat)
    requires BarrierRun(states, steps, i, j, t, src, dst) && i < k <= j
    ensures t in states[k].muts && states[k].muts[t].Loaded? && states[k].muts[t].dst == dst
    ensures Holds(states[i], src, states[k].muts[t].val)
  {
    hide Enabled, Effect;
    assert Follows(states, steps, k - 1);
    if k == i + 1 {
      LoadStep(states[i], states[k], t, src, dst);
    } else {
      LoadedUntil(states, steps, i, j, t, src, dst, k - 1);
      OthersKeepPc(states[k - 1], steps[k - 1], t);
    }
  }

  lemma LoadStep(s: State, s': State, t: nat, src: Loc, dst: Loc)
    requires Enabled(s, Mutate(t, LoadSrc(src, dst))) && s' == Effect(s, Mutate(t, LoadSrc(src, dst)))
    ensures t in s'.muts && s'.muts[t].Loaded? && s'.muts[t].dst == dst && Holds(s, src, s'.muts[t].val)
  {
    hide MutatorEnabled, MutatorEffect;
    LoadLaw(s, t, src, dst);
  }

  /** The write barrier stores what its source held when it was loaded, there and nowhere else. */
  lemma BarrierCopies(states: seq<State>, steps: seq<Step>, i: nat, j: nat, t: nat, src: Loc, dst: Loc)
    requires BarrierRun(states, steps, i, j, t, src, dst)
    ensures exists h :: Holds(states[i], src, h) && Holds(states[j + 1], dst, h)
    ensures SameBut(states[j], states[j + 1], dst) && SameCollector(states[j], states[j + 1])
    ensures j == i + 1 ==> SameBut(states[i], states[j + 1], dst) && SameCollector(states[i], states[j + 1])
  {
    hide MutatorEnabled, MutatorEffect;
    LoadedUntil(states, steps, i, j, t, src, dst, j);
    assert Follows(states, steps, i) && Follows(states, steps, j);
    LoadLaw(states[i], t, src, dst);
    StoreLaw(states[j], t);
  }

  // ---------------------------------------------------------------- other steps of a program

  /** An allocation gives a new cell of null handles and a new root to it; it is marked exactly while the collector marks. */
  lemma AllocLaw(s: State, t: nat, r: nat, c: nat, n: nat)
    requires MutatorEnabled(s, t, Alloc(r, c, n))
    ensures var s' := MutatorEffect(s, t, Alloc(r, c, n));
      && c !in s.heap && s'.heap.Keys == s.heap.Keys + {c} && (forall d :: d in s.heap ==> s'.heap[d] == s.heap[d])
      && |s'.heap[c]| == n && (forall j :: 0 <= j < n ==> s'.heap[c][j].Null?)
      && r !in s.roots && s'.roots.Keys == s.roots.Keys + {r} && (forall q :: q in s.roots ==> s'.roots[q] == s.roots[q])
      && s'.roots[r] == To(Ptr(c, 0)) && s'.pins == s.pins && s'.muts == s.muts
      && (forall d :: d in s'.marks <==> d in s.marks || (d == c && s.phase.Mark?))
  {
  }

  /** A handle moved within its cell leads to the same cell. */
  lemma AdvanceLaw(s: State, t: nat, loc: Loc, off: nat, c: nat, was: nat)
    requires MutatorEnabled(s, t, Advance(loc, off)) && Holds(s, loc, To(Ptr(c, was)))
    ensures var s' := MutatorEffect(s, t, Advance(loc, off));
      SameBut(s, s', loc) && SameCollector(s, s') && Holds(s', loc, To(Ptr(c, off))) && s'.muts == s.muts
  {
    hide Live;
  }

  lemma RootLaw(s: State, t: nat, r: nat)
    ensures MutatorEnabled(s, t, NewRoot(r)) ==> var s' := MutatorEffect(s, t, NewRoot(r));
      && s'.heap == s.heap && s'.pins == s.pins && SameCollector(s, s')
      && r !in s.roots && s'.roots.Keys == s.roots.Keys + {r} && s'.roots[r].Null? && forall q :: q in s.roots ==> s'.roots[q] == s.roots[q]
    ensures MutatorEnabled(s, t, DropRoot(r)) ==> var s' := MutatorEffect(s, t, DropRoot(r));
      && s'.heap == s.heap && s'.pins == s.pins && SameCollector(s, s')
      && r in s.roots && s'.roots.Keys == s.roots.Keys - {r} && forall q :: q in s'.roots ==> s'.roots[q] == s.roots[q]
  {
  }

  /** A pin holds the pointer that its source held, until it is dropped; other pins stay. */
  lemma PinLaw(s: State, t: nat, pin: nat, src: Loc)
    ensures MutatorEnabled(s, t, AddPin(pin, src)) ==> var s' := MutatorEffect(s, t, AddPin(pin, src));
      && s'.heap == s.heap && s'.roots == s.roots && SameCollector(s, s') && pin !in s.pins && s'.pins.Keys == s.pins.Keys + {pin}
      && Holds(s, src, To(s'.pins[pin])) && forall q :: q in s.pins ==> s'.pins[q] == s.pins[q]
    ensures MutatorEnabled(s, t, DropPin(pin)) ==> var s' := MutatorEffect(s, t, DropPin(pin));
      && s'.heap == s.heap && s'.roots == s.roots && SameCollector(s, s') && pin in s.pins && s'.pins.Keys == s.pins.Keys - {pin}
      && forall q :: q in s'.pins ==> s'.pins[q] == s.pins[q]
  {
    hide Live;
  }

  /** Threads come and go without touching memory. */
  lemma ThreadLaw(s: State, t: nat)
    ensures Enabled(s, Attach(t)) ==> var s' := Effect(s, Attach(t));
      SameMemory(s, s') && SameCollector(s, s') && s'.muts == s.muts[t := Rest] && Remembered(s') == Remembered(s)
    ensures MutatorEnabled(s, t, Detach) ==> var s' := MutatorEffect(s, t, Detach);
      SameMemory(s, s') && SameCollector(s, s') && s'.muts == s.muts - {t} && Remembered(s') == Remembered(s)
  {
  }

  // ---------------------------------------------------------------- the collector is not seen

  /** No step of a worker or of the collector changes what the program can see: its roots, its pins, its threads'
      progress, which cells it can reach and what these hold. */
  lemma CollectorIsNotSeen(s: State, step: Step)
    requires Inv(s) && Enabled(s, step) && (step.Work? || step.Control?)
    ensures var s' := Effect(s, step);
      && s'.roots == s.roots && s'.pins == s.pins && s'.muts == s.muts
      && (forall c :: Live(s', c) <==> Live(s, c))
      && (forall c :: Live(s, c) ==> c in s.heap && c in s'.heap && s'.heap[c] == s.heap[c])
      && (forall c :: c in s'.heap ==> c in s.heap)
  {
    hide Live;
    LiveExists(s);
    match step
    case Work(w, a) =>
      WorkerKeepsProgram(s, w, a);
      SameLive(s, Effect(s, step));
    case Control(g) =>
      CollectorKeepsProgram(s, g);
      if g.Collect? {
        CollectKeepsReachable(s);
        CollectAddsNone(s);
      } else {
        SameLive(s, Effect(s, step));
      }
  }

  lemma SameLive(s: State, s': State)
    requires s'.heap == s.heap && s'.roots == s.roots && s'.pins == s.pins
    ensures forall c :: Live(s', c) <==> Live(s, c)
  {
    hide Reachable;
    assert Starts(s') == Starts(s);
  }

  lemma LiveExists(s: State)
    requires Inv(s)
    ensures forall c :: Live(s, c) ==> c in s.heap
  {
    var cells := iset d | d in s.heap;
    assert Closed(s.heap, Starts(s), cells);
    ReachableIsLeast(s.heap, Starts(s), cells);
  }

  /** A sweep lets nothing become reachable. */
  lemma CollectAddsNone(s: State)
    requires Inv(s) && CollectorEnabled(s, Collect)
    ensures var s' := CollectorEffect(s, Collect);
      (forall c :: Live(s', c) ==> Live(s, c)) && forall c :: c in s'.heap ==> c in s.heap && s'.heap[c] == s.heap[c]
  {
    var s' := CollectorEffect(s, Collect);
    assert Starts(s') == Starts(s);
    ReachableIsClosed(s.heap, Starts(s));
    ReachableIsLeast(s'.heap, Starts(s'), iset c | Live(s, c));
  }
}
