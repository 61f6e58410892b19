/** Invariants of the concurrent collector and what every run keeps: no reachable cell is
    ever swept, whatever the interleaving, over any number of cycles. */
module MarkSafety {
  import opened Common
  import opened HeapGraph
  import opened ConcurrentMark

  // ---------------------------------------------------------------- well-formedness

  predicate Ok(s: State, h: Handle) {
    h.To? ==> h.ptr.cell in s.heap
  }

  predicate WorkerOk(s: State, pc: WorkerPc) {
    && (pc.Scan? || pc.Read? || pc.Claim? || pc.Push? ==> pc.c in s.heap)
    && (pc.Read? || pc.Claim? || pc.Push? ==> pc.p.cell in s.heap)
    && (pc.Push? ==> pc.p.cell in s.marks)
  }

  predicate MutatorOk(s: State, pc: MutatorPc) {
    match pc
    case Rest => true
    case Loaded(dst, val) => ValidLoc(s, dst) && Ok(s, val)
    case Stored(val) => Ok(s, val)
  }

  predicate CollectorOk(s: State) {
    && (Reg(s.col).Some? ==> Reg(s.col).value in s.heap && Reg(s.col).value in s.marks)
    && (s.col.Roots? ==> s.col.roots <= s.roots.Keys)
    && (s.col.Pins? ==> s.col.pins <= s.pins.Keys)
    && (s.col.Remset? ==> forall p :: p in s.col.entries ==> p.cell in s.heap)
  }

  /** Nothing the system holds dangles: every pointer leads to a cell of the heap. */
  predicate NoDangling(s: State) {
    && (forall r :: r in s.roots ==> Ok(s, s.roots[r]))
    && (forall p :: p in s.pins ==> s.pins[p].cell in s.heap)
    && (forall c, j :: c in s.heap && 0 <= j < |s.heap[c]| ==> Ok(s, s.heap[c][j]))
  }

  predicate WellFormed(s: State) {
    && NoDangling(s)
    && (forall t :: t in s.muts ==> MutatorOk(s, s.muts[t]))
    && (forall t, i :: t in s.ssb && 0 <= i < |s.ssb[t]| ==> s.ssb[t][i].cell in s.heap)
    && (forall p :: p in s.remset ==> p.cell in s.heap)
    && (forall c :: c in s.marks ==> c in s.heap)
    && (forall w :: w in s.workers ==> WorkerOk(s, s.workers[w]))
    && CollectorOk(s)
  }

  // ---------------------------------------------------------------- packets

  /** What a worker's position says about the packets it holds. */
  predicate HoldsFor(s: State, w: nat, pc: WorkerPc) {
    && (Busy(pc) || pc == RetirePush(true) ==> Has(s, Input(w)))
    && (pc.RetirePop? || pc.RetirePush? ==> Has(s, Stash(w)))
  }

  predicate PacketsOk(s: State) {
    && |s.packets| == PACKETS_COUNT
    && (forall k :: 0 <= k < |s.packets| && s.packets[k].at.EmptyPool? ==> s.packets[k].cells == [])
    && (forall k, c :: 0 <= k < |s.packets| && c in s.packets[k].cells ==> c in s.heap)
    && (forall w :: w in s.workers ==> HoldsFor(s, w, s.workers[w]))
  }

  // ---------------------------------------------------------------- stages of a cycle

  predicate Stages(s: State) {
    && (s.phase.Idle? ==> s.workers == map[] && s.remset == {} && BuffersEmpty(s))
    && (s.phase.Idle? && s.col.Running? ==> s.marks == {} && AllEmpty(s))
    && (!s.col.Running? ==> AllRest(s))
    && (s.col.Remset? || s.col.PreMark? || s.col.Marking? ==> BuffersEmpty(s))
    && (s.col.PreMark? || s.col.Marking? ==> s.remset == {})
    && (s.col.Roots? ==> s.phase.Idle?)
    && (0 in s.workers ==> s.col.Marking?)
    && (s.col.Marking? ==> s.phase.Mark? && 0 in s.workers && (s.workers[0].Done? ==> AllEmpty(s)))
  }

  // ---------------------------------------------------------------- the tri-colour invariant

  predicate InRemset(s: State, d: nat) {
    exists p :: p in s.remset && p.cell == d
  }

  predicate InBuffer(s: State, d: nat) {
    exists t, i :: t in s.ssb && 0 <= i < |s.ssb[t]| && s.ssb[t][i].cell == d
  }

  predicate InBarrier(s: State, d: nat) {
    exists t :: t in s.muts && s.muts[t].Stored? && Targets(s.muts[t].val, d)
  }

  predicate Claims(pc: WorkerPc, d: nat) {
    (pc.Read? || pc.Claim?) && pc.p.cell == d
  }

  predicate Claimed(s: State, d: nat) {
    exists w :: w in s.workers && Claims(s.workers[w], d)
  }

  /** `d` is marked, or somebody has undertaken to mark it. */
  predicate Covered(s: State, d: nat) {
    d in s.marks || InRemset(s, d) || InBuffer(s, d) || InBarrier(s, d) || Claimed(s, d)
  }

  predicate CoveredHandle(s: State, h: Handle) {
    h.To? ==> Covered(s, h.ptr.cell)
  }

  predicate Queued(s: State, c: nat) {
    exists k :: 0 <= k < |s.packets| && c in s.packets[k].cells
  }

  /** This worker will still read handle `j` of `c` or push `c`. */
  predicate Owes(pc: WorkerPc, c: nat, j: nat) {
    match pc
    case Scan(d, i) => c == d && i <= j
    case Read(d, i, _) => c == d && i <= j
    case Claim(d, i, _) => c == d && i <= j
    case Push(d, i, p) => (c == d && i <= j) || c == p.cell
    case _ => false
  }

  predicate Owed(s: State, c: nat, j: nat) {
    exists w :: w in s.workers && Owes(s.workers[w], c, j)
  }

  predicate Pending(s: State, c: nat, j: nat) {
    Queued(s, c) || Owed(s, c, j) || Reg(s.col) == Some(c)
  }

  /** A handle of a marked cell either will still be read, or leads to a covered cell. */
  predicate Scanned(s: State) {
    forall c, j :: c in s.marks && c in s.heap && 0 <= j < |s.heap[c]| ==>
      CoveredHandle(s, s.heap[c][j]) || Pending(s, c, j)
  }

  /** Roots are traced once, at the start; the barrier keeps them covered afterwards. */
  predicate RootsCovered(s: State) {
    !(s.phase.Idle? && s.col.Running?) ==>
      forall r :: r in s.roots && !(s.col.Roots? && r in s.col.roots) ==> CoveredHandle(s, s.roots[r])
  }

  predicate PinsMarked(s: State) {
    s.col.Pins? || s.col.FlushBuffers? || s.col.Remset? || s.col.PreMark? || s.col.Marking? ==>
      forall p :: p in s.pins && !(s.col.Pins? && p in s.col.pins) ==> s.pins[p].cell in s.marks
  }

  predicate RemsetTraced(s: State) {
    s.col.Remset? ==> forall p :: p in s.remset ==> p in s.col.entries || p.cell in s.marks
  }

  /** The cell of the remembered pointer `p` is covered without it. */
  predicate StillCovered(s: State, p: Ptr) {
    Covered(s.(remset := s.remset - {p}), p.cell)
  }

  /** A handle that has been scanned, or a root that has been traced, leads to `d`. */
  predicate ReliedOn(s: State, d: nat) {
    || (exists c, j :: c in s.marks && c in s.heap && 0 <= j < |s.heap[c]| && Targets(s.heap[c][j], d) && !Pending(s, c, j))
    || (exists r :: r in s.roots && TracedTo(s, r, d))
  }

  predicate TracedTo(s: State, r: nat, d: nat)
    requires r in s.roots
  {
    !(s.col.Roots? && r in s.col.roots) && Targets(s.roots[r], d)
  }

  predicate MayForget(s: State, p: Ptr) {
    StillCovered(s, p) || !ReliedOn(s, p.cell)
  }

  /** The worker loop may move a remembered pointer to its packet without marking the cell. A step is sound
      when it is not such a pull, or the cell stays covered without the pointer, or nothing relies on it. */
  predicate Sound(s: State, step: Step) {
    step.Work? && step.a.PullRemset? ==> MayForget(s, step.a.p)
  }

  predicate TriColour(s: State) {
    Scanned(s) && RootsCovered(s) && PinsMarked(s) && RemsetTraced(s)
  }

  predicate Shape(s: State) {
    WellFormed(s) && PacketsOk(s) && Stages(s)
  }

  predicate Inv(s: State) {
    Shape(s) && TriColour(s)
  }

  // ---------------------------------------------------------------- preservation

  lemma InitInv(s: State)
    requires Init(s)
    ensures Inv(s)
  {
  }

  ghost predicate CoverLe(s: State, s': State) {
    forall d :: Covered(s, d) ==> Covered(s', d)
  }

  ghost predicate PendLe(s: State, s': State) {
    forall c, j :: Pending(s, c, j) ==> Pending(s', c, j)
  }

  /** Coverage carries over when each undertaking is kept or fulfilled. */
  lemma CoverKept(s: State, s': State)
    requires s.marks <= s'.marks
    requires forall p :: p in s.remset ==> p in s'.remset || p.cell in s'.marks
    requires forall t, i :: t in s.ssb && 0 <= i < |s.ssb[t]| ==> Covered(s', s.ssb[t][i].cell)
    requires forall t :: t in s.muts && s.muts[t].Stored? && s.muts[t].val.To? ==>
                           (t in s'.muts && s'.muts[t] == s.muts[t]) || Covered(s', s.muts[t].val.ptr.cell)
    requires forall w :: w in s.workers && (s.workers[w].Read? || s.workers[w].Claim?) ==>
                           (w in s'.workers && s'.workers[w] == s.workers[w]) || Covered(s', s.workers[w].p.cell)
    ensures CoverLe(s, s')
  {
  }

  lemma PendKept(s: State, s': State)
    requires |s'.packets| == |s.packets| && Reg(s'.col) == Reg(s.col)
    requires forall k :: 0 <= k < |s.packets| ==> s'.packets[k].cells == s.packets[k].cells
    requires forall w :: w in s.workers ==>
                           (w in s'.workers && s'.workers[w] == s.workers[w]) || (forall c, j :: !Owes(s.workers[w], c, j))
    ensures PendLe(s, s')
  {
  }

  /** The invariant on handles carries over when roots, pins and marked handles lead where they did. */
  lemma TriKept(s: State, s': State)
    requires TriColour(s) && CoverLe(s, s') && PendLe(s, s')
    requires s'.marks == s.marks && s'.col == s.col && s'.phase == s.phase
    requires s.col.Remset? ==> s'.remset <= s.remset
    requires forall c, j :: c in s.marks && c in s'.heap && 0 <= j < |s'.heap[c]| ==>
                              CoveredHandle(s', s'.heap[c][j]) || (c in s.heap && j < |s.heap[c]| && s'.heap[c][j] == s.heap[c][j])
    requires forall r :: r in s'.roots ==>
                           CoveredHandle(s', s'.roots[r]) || (r in s.roots && s'.roots[r] == s.roots[r])
    requires s.col.Running? || s'.pins == s.pins
    ensures TriColour(s')
  {
  }

  lemma ScannedKept(s: State, s': State)
    requires Scanned(s) && CoverLe(s, s') && PendLe(s, s') && s'.heap == s.heap && s'.marks == s.marks
    ensures Scanned(s')
  {
    hide Covered, Pending;
  }

  lemma RootsKept(s: State, s': State)
    requires RootsCovered(s) && CoverLe(s, s') && s'.roots == s.roots && !(s.phase.Idle? && s.col.Running?)
    requires s.col.Roots? ==> s'.col.Roots? && s.col.roots <= s'.col.roots
    ensures RootsCovered(s')
  {
    hide Covered, Pending;
  }

  // Mutator steps, from three ways a mutator changes the state

  lemma SetMutShape(s: State, t: nat, pc: MutatorPc)
    requires Shape(s) && s.col.Running? && MutatorOk(s, pc)
    ensures Shape(SetMut(s, t, pc))
  {
  }

  lemma SetMutKeepsInv(s: State, t: nat, pc: MutatorPc)
    requires Inv(s) && s.col.Running? && MutatorOk(s, pc)
    requires t in s.muts && s.muts[t].Stored? && s.muts[t].val.To? ==> Covered(SetMut(s, t, pc), s.muts[t].val.ptr.cell)
    ensures Inv(SetMut(s, t, pc))
  {
    SetMutShape(s, t, pc);
    var s' := SetMut(s, t, pc);
    BuffersCover(s, s');
    CoverKept(s, s');
    PendKept(s, s');
    TriKept(s, s');
  }

  lemma BuffersCover(s: State, s': State)
    requires s'.ssb == s.ssb
    ensures forall t, i :: t in s.ssb && 0 <= i < |s.ssb[t]| ==> Covered(s', s.ssb[t][i].cell)
  {
    forall t, i | t in s.ssb && 0 <= i < |s.ssb[t]| ensures Covered(s', s.ssb[t][i].cell) {
      assert InBuffer(s', s.ssb[t][i].cell);
    }
  }

  lemma WriteShape(s: State, loc: Loc, h: Handle)
    requires Shape(s) && s.col.Running? && ValidLoc(s, loc) && Ok(s, h)
    ensures Shape(Write(s, loc, h))
  {
  }

  /** Storing a handle is safe when its target is covered, or is the cell it led to before. */
  lemma WriteKeepsInv(s: State, loc: Loc, h: Handle)
    requires Inv(s) && s.col.Running? && ValidLoc(s, loc) && Ok(s, h)
    requires s.phase.Mark? ==> CoveredHandle(s, h) || (h.To? && Targets(Value(s, loc), h.ptr.cell))
    ensures Inv(Write(s, loc, h))
  {
    WriteShape(s, loc, h);
    var s' := Write(s, loc, h);
    BuffersCover(s, s');
    CoverKept(s, s');
    PendKept(s, s');
    if s.phase.Mark? {
      WriteScanned(s, loc, h);
    }
  }

  lemma WriteScanned(s: State, loc: Loc, h: Handle)
    requires TriColour(s) && s.phase.Mark? && ValidLoc(s, loc)
    requires CoveredHandle(s, h) || (h.To? && Targets(Value(s, loc), h.ptr.cell))
    requires CoverLe(s, Write(s, loc, h)) && PendLe(s, Write(s, loc, h))
    ensures Scanned(Write(s, loc, h)) && (s.col.Running? ==> RootsCovered(Write(s, loc, h)))
  {
  }

  lemma AddToBufferEntries(s: State, t: nat, p: Ptr)
    requires WellFormed(s) && p.cell in s.heap
    ensures var s' := AddToBuffer(s, t, p);
      && (forall u, i :: u in s'.ssb && 0 <= i < |s'.ssb[u]| ==> s'.ssb[u][i].cell in s.heap)
      && (forall q :: q in s'.remset ==> q.cell in s.heap)
  {
  }

  lemma AddToBufferShape(s: State, t: nat, p: Ptr)
    requires Shape(s) && s.col.Running? && s.phase.Mark? && p.cell in s.heap
    ensures Shape(AddToBuffer(s, t, p))
  {
    AddToBufferEntries(s, t, p);
    var s' := AddToBuffer(s, t, p);
    assert s' == s.(ssb := s'.ssb, remset := s'.remset);
    NewBuffersShape(s, s'.ssb, s'.remset);
  }

  lemma NewBuffersShape(s: State, ssb: map<nat, seq<Ptr>>, remset: set<Ptr>)
    requires Shape(s) && s.col.Running? && s.phase.Mark?
    requires forall u, i :: u in ssb && 0 <= i < |ssb[u]| ==> ssb[u][i].cell in s.heap
    requires forall q :: q in remset ==> q.cell in s.heap
    ensures Shape(s.(ssb := ssb, remset := remset))
  {
  }

  lemma AddToBufferCovers(s: State, t: nat, p: Ptr)
    ensures var s' := AddToBuffer(s, t, p); CoverLe(s, s') && Covered(s', p.cell)
  {
    var s' := AddToBuffer(s, t, p);
    AddedIsCovered(s, t, p);
    hide Covered;
    forall u, i | u in s.ssb && 0 <= i < |s.ssb[u]| ensures Covered(s', s.ssb[u][i].cell) {
      FlushedStaysCovered(s, t, p, u, i);
    }
    CoverKept(s, s');
  }

  lemma AddedIsCovered(s: State, t: nat, p: Ptr)
    ensures Covered(AddToBuffer(s, t, p), p.cell)
  {
    var s' := AddToBuffer(s, t, p);
    var b := s'.ssb[t];
    assert b[|b| - 1] == p && InBuffer(s', p.cell);
  }

  lemma FlushedStaysCovered(s: State, t: nat, p: Ptr, u: nat, i: nat)
    requires u in s.ssb && i < |s.ssb[u]|
    ensures Covered(AddToBuffer(s, t, p), s.ssb[u][i].cell)
  {
    hide InBarrier, Claimed;
    var s' := AddToBuffer(s, t, p);
    var q := s.ssb[u][i];
    if u == t && |s.ssb[t]| == SSB_SIZE {
      assert q in s'.remset && InRemset(s', q.cell);
    } else {
      assert s'.ssb[u][i] == q && InBuffer(s', q.cell);
    }
  }

  lemma AddToBufferKeepsInv(s: State, t: nat, p: Ptr)
    requires Inv(s) && s.col.Running? && s.phase.Mark? && p.cell in s.heap
    ensures Inv(AddToBuffer(s, t, p)) && Covered(AddToBuffer(s, t, p), p.cell)
  {
    AddToBufferShape(s, t, p);
    AddToBufferCovers(s, t, p);
    PendKept(s, AddToBuffer(s, t, p));
    TriKept(s, AddToBuffer(s, t, p));
  }

  lemma StoreKeepsInv(s: State, t: nat)
    requires Inv(s) && MutatorEnabled(s, t, StoreDst)
    ensures Inv(MutatorEffect(s, t, StoreDst))
  {
    var dst, v := s.muts[t].dst, s.muts[t].val;
    var s1 := SetMut(s, t, Stored(v));
    assert v.To? ==> Targets(s1.muts[t].val, v.ptr.cell) && InBarrier(s1, v.ptr.cell);
    SetMutKeepsInv(s, t, Stored(v));
    WriteKeepsInv(s1, dst, v);
    assert MutatorEffect(s, t, StoreDst) == Write(s1, dst, v);
  }

  lemma RecordKeepsInv(s: State, t: nat)
    requires Inv(s) && MutatorEnabled(s, t, Record)
    ensures Inv(MutatorEffect(s, t, Record))
  {
    var v := s.muts[t].val;
    if !s.phase.Mark? {
      IdleRecordKeepsInv(s, t);
    } else if v.To? && v.ptr.cell !in s.marks {
      AddToBufferKeepsInv(s, t, v.ptr);
      AddToBufferCovers(SetMut(s, t, Rest), t, v.ptr);
      assert MutatorEffect(s, t, Record) == SetMut(AddToBuffer(s, t, v.ptr), t, Rest);
      SetMutKeepsInv(AddToBuffer(s, t, v.ptr), t, Rest);
    } else {
      SetMutKeepsInv(s, t, Rest);
    }
  }

  lemma IdleRecordKeepsInv(s: State, t: nat)
    requires Inv(s) && s.col.Running? && s.phase.Idle?
    ensures Inv(SetMut(s, t, Rest))
  {
    SetMutShape(s, t, Rest);
  }

  lemma AllocShape(s: State, t: nat, r: nat, c: nat, n: nat)
    requires Shape(s) && s.col.Running? && MutatorEnabled(s, t, Alloc(r, c, n))
    ensures Shape(MutatorEffect(s, t, Alloc(r, c, n)))
  {
  }

  lemma AllocKeepsInv(s: State, t: nat, r: nat, c: nat, n: nat)
    requires Inv(s) && MutatorEnabled(s, t, Alloc(r, c, n))
    ensures Inv(MutatorEffect(s, t, Alloc(r, c, n)))
  {
    var s' := MutatorEffect(s, t, Alloc(r, c, n));
    AllocShape(s, t, r, c, n);
    BuffersCover(s, s');
    CoverKept(s, s');
    PendKept(s, s');
  }

  predicate RootOrPinStep(m: MutatorStep) {
    m.NewRoot? || m.DropRoot? || m.AddPin? || m.DropPin? || m.Detach?
  }

  lemma RootOrPinShape(s: State, t: nat, m: MutatorStep)
    requires Shape(s) && MutatorEnabled(s, t, m) && RootOrPinStep(m)
    ensures Shape(MutatorEffect(s, t, m))
  {
    var s' := MutatorEffect(s, t, m);
    RootOrPinWellFormed(s, t, m);
    RootOrPinEffect(s, t, m);
    hide MutatorEffect, MutatorEnabled, WellFormed, CollectorOk;
  }

  lemma RootOrPinWellFormed(s: State, t: nat, m: MutatorStep)
    requires WellFormed(s) && MutatorEnabled(s, t, m) && RootOrPinStep(m)
    ensures WellFormed(MutatorEffect(s, t, m))
  {
    RootOrPinEffect(s, t, m);
    RootOrPinDangles(s, t, m);
    RootOrPinMutators(s, t, m);
    hide MutatorEffect, MutatorEnabled, NoDangling, WorkerOk, MutatorOk;
  }

  lemma RootOrPinDangles(s: State, t: nat, m: MutatorStep)
    requires WellFormed(s) && MutatorEnabled(s, t, m) && RootOrPinStep(m)
    ensures NoDangling(MutatorEffect(s, t, m))
  {
    hide Live, WorkerOk, CollectorOk;
  }

  lemma RootOrPinMutators(s: State, t: nat, m: MutatorStep)
    requires WellFormed(s) && MutatorEnabled(s, t, m) && RootOrPinStep(m)
    ensures var s' := MutatorEffect(s, t, m); forall u :: u in s'.muts ==> MutatorOk(s', s'.muts[u])
  {
    hide Live, WorkerOk, CollectorOk, NoDangling;
  }

  /** Such a step neither stores a pointer nor ends a barrier. */
  lemma RootOrPinEffect(s: State, t: nat, m: MutatorStep)
    requires MutatorEnabled(s, t, m) && RootOrPinStep(m)
    ensures var s' := MutatorEffect(s, t, m);
      && s.col.Running? && s' == s.(roots := s'.roots, pins := s'.pins, muts := s'.muts)
      && (forall r :: r in s'.roots ==> s'.roots[r].Null? || (r in s.roots && s'.roots[r] == s.roots[r]))
      && (forall u :: u in s.muts && s.muts[u].Stored? ==> u in s'.muts && s'.muts[u] == s.muts[u])
  {
    hide Live;
  }

  lemma RootOrPinStepKeepsInv(s: State, t: nat, m: MutatorStep)
    requires Inv(s) && MutatorEnabled(s, t, m) && RootOrPinStep(m)
    ensures Inv(MutatorEffect(s, t, m))
  {
    hide Shape, TriColour, Covered, Pending, Owes;
    var s' := MutatorEffect(s, t, m);
    RootOrPinShape(s, t, m);
    RootOrPinEffect(s, t, m);
    hide MutatorEffect, MutatorEnabled;
    BuffersCover(s, s');
    CoverKept(s, s');
    PendKept(s, s');
    TriKept(s, s');
  }

  lemma MutatorKeepsInv(s: State, t: nat, m: MutatorStep)
    requires Inv(s) && MutatorEnabled(s, t, m)
    ensures Inv(MutatorEffect(s, t, m))
  {
    match m
    case Alloc(r, c, n) => AllocKeepsInv(s, t, r, c, n);
    case LoadSrc(src, dst) =>
      SetMutKeepsInv(s, t, Loaded(dst, Value(s, src)));
    case StoreDst => StoreKeepsInv(s, t);
    case Record => RecordKeepsInv(s, t);
    case Advance(loc, off) =>
      WriteKeepsInv(s, loc, To(Ptr(Value(s, loc).ptr.cell, off)));
    case _ => RootOrPinStepKeepsInv(s, t, m);
  }

  // Worker steps

  /** A packet may move unless some worker's position depends on where it was. */
  predicate MayMove(s: State, k: nat, at: Where) {
    && k < |s.packets|
    && (at.EmptyPool? ==> s.packets[k].cells == [])
    && (forall w :: w in s.workers && (Busy(s.workers[w]) || s.workers[w] == RetirePush(true)) ==> s.packets[k].at != Input(w))
    && (forall w :: w in s.workers && (s.workers[w].RetirePop? || s.workers[w].RetirePush?) ==> s.packets[k].at != Stash(w))
    && !(s.phase.Idle? && s.col.Running?)
    && !(s.col.Marking? && AllEmpty(s))
  }

  lemma MoveShape(s: State, k: nat, at: Where)
    requires Shape(s) && MayMove(s, k, at)
    ensures k < |s.packets| && Shape(SetAt(s, k, at))
  {
    var s' := SetAt(s, k, at);
    MoveHolds(s, k, at);
    hide HoldsFor, NoDangling, MutatorOk, WorkerOk, CollectorOk;
    forall o | 0 <= o < |s.packets| && o != k ensures s'.packets[o] == s.packets[o] {
    }
  }

  lemma MoveHolds(s: State, k: nat, at: Where)
    requires PacketsOk(s) && MayMove(s, k, at)
    ensures forall w :: w in s.workers ==> HoldsFor(SetAt(s, k, at), w, s.workers[w])
  {
    var s' := SetAt(s, k, at);
    forall w | w in s.workers ensures HoldsFor(s', w, s.workers[w]) {
      if s.packets[k].at != Input(w) && Has(s, Input(w)) {
        HasKept(s, k, at, Input(w));
      }
      if s.packets[k].at != Stash(w) && Has(s, Stash(w)) {
        HasKept(s, k, at, Stash(w));
      }
    }
  }

  lemma MoveKeepsInv(s: State, k: nat, at: Where)
    requires Inv(s) && MayMove(s, k, at)
    ensures Inv(SetAt(s, k, at))
  {
    var s' := SetAt(s, k, at);
    MoveShape(s, k, at);
    hide Shape, MayMove, TriColour, Covered, Pending, CoveredHandle, Owes;
    BuffersCover(s, s');
    CoverKept(s, s');
    PendKept(s, s');
    TriKept(s, s');
  }

  lemma HasKept(s: State, k: nat, at: Where, h: Where)
    requires k < |s.packets| && Has(s, h) && s.packets[k].at != h
    ensures Has(SetAt(s, k, at), h)
  {
    var o :| 0 <= o < |s.packets| && s.packets[o].at == h;
    assert SetAt(s, k, at).packets[o] == s.packets[o];
  }

  /** Positions that read no cell: moving between them undertakes and gives up nothing. */
  predicate Idling(pc: WorkerPc) {
    pc.NoInput? || pc.Ready? || pc.RetirePop? || pc.RetirePush? || pc.Done?
  }

  lemma SetPcShape(s: State, w: nat, pc: WorkerPc)
    requires Shape(s) && w in s.workers && WorkerOk(s, pc) && HoldsFor(s, w, pc)
    requires w == 0 && pc.Done? && s.col.Marking? ==> AllEmpty(s)
    ensures Shape(SetPc(s, w, pc))
  {
  }

  lemma PacedKeepsInv(s: State, w: nat, pc: WorkerPc)
    requires Inv(s) && w in s.workers && Idling(s.workers[w]) && Idling(pc) && HoldsFor(s, w, pc)
    requires w == 0 && pc.Done? && s.col.Marking? ==> AllEmpty(s)
    ensures Inv(SetPc(s, w, pc))
  {
    var s' := SetPc(s, w, pc);
    SetPcShape(s, w, pc);
    BuffersCover(s, s');
    CoverKept(s, s');
    PendKept(s, s');
    TriKept(s, s');
  }
  lemma PopInputKeepsInv(s: State, w: nat, k: nat)
    requires Inv(s) && WorkerEnabled(s, w, PopInput(k))
    ensures Inv(WorkerEffect(s, w, PopInput(k)))
  {
    var s1 := SetAt(s, k, Input(w));
    MoveKeepsInv(s, k, Input(w));
    assert s1.packets[k].at == Input(w);
    var pc := if s.workers[w].NoInput? then Ready else RetirePush(true);
    PacedKeepsInv(s1, w, pc);
  }

  lemma OthersHold(s: State, k: nat, at: Where, w: nat, u: nat)
    requires k < |s.packets| && u != w && s.packets[k].at == Input(w) && u in s.workers && HoldsFor(s, u, s.workers[u])
    ensures HoldsFor(SetAt(s, k, at), u, s.workers[u])
  {
    if Has(s, Input(u)) {
      HasKept(s, k, at, Input(u));
    }
    if Has(s, Stash(u)) {
      HasKept(s, k, at, Stash(u));
    }
  }

  lemma StashInputShape(s: State, w: nat, k: nat)
    requires Shape(s) && WorkerEnabled(s, w, StashInput(k))
    ensures Shape(WorkerEffect(s, w, StashInput(k)))
  {
    StashPackets(s, w, k);
    StashWellFormed(s, w, k);
    hide PacketsOk, HoldsFor, WellFormed;
  }

  lemma StashWellFormed(s: State, w: nat, k: nat)
    requires WellFormed(s) && WorkerEnabled(s, w, StashInput(k))
    ensures WellFormed(WorkerEffect(s, w, StashInput(k)))
  {
    hide Has;
  }

  lemma StashPackets(s: State, w: nat, k: nat)
    requires PacketsOk(s) && WorkerEnabled(s, w, StashInput(k))
    ensures PacketsOk(WorkerEffect(s, w, StashInput(k)))
  {
    var s1 := SetAt(s, k, Stash(w));
    assert s1.packets[k].at == Stash(w);
    StashHolds(s, w, k);
  }

  lemma StashHolds(s: State, w: nat, k: nat)
    requires PacketsOk(s) && WorkerEnabled(s, w, StashInput(k))
    ensures forall u :: u in s.workers && u != w ==> HoldsFor(SetAt(s, k, Stash(w)), u, s.workers[u])
  {
    hide HoldsFor;
    forall u | u in s.workers && u != w ensures HoldsFor(SetAt(s, k, Stash(w)), u, s.workers[u]) {
      OthersHold(s, k, Stash(w), w, u);
    }
  }

  lemma StashPending(s: State, w: nat, k: nat)
    requires WorkerEnabled(s, w, StashInput(k))
    ensures PendLe(s, WorkerEffect(s, w, StashInput(k)))
  {
    hide Has, Queued, Owed;
    PendKept(s, WorkerEffect(s, w, StashInput(k)));
  }

  lemma StashInputKeepsInv(s: State, w: nat, k: nat)
    requires Inv(s) && WorkerEnabled(s, w, StashInput(k))
    ensures Inv(WorkerEffect(s, w, StashInput(k)))
  {
    hide Shape, TriColour, Covered, Pending, CoveredHandle, Owes;
    var s' := WorkerEffect(s, w, StashInput(k));
    StashInputShape(s, w, k);
    BuffersCover(s, s');
    CoverKept(s, s');
    StashPending(s, w, k);
    TriKept(s, s');
  }

  /** is_no_input really means that no packet is anywhere but in the empty pool. */
  lemma NoInputMeansAllEmpty(s: State)
    requires |s.packets| == PACKETS_COUNT && IsNoInput(s)
    ensures AllEmpty(s)
  {
    var empties := set k: nat | k < |s.packets| && s.packets[k].at.EmptyPool?;
    FullSetHasAll(empties, |s.packets|);
    forall k | 0 <= k < |s.packets| ensures s.packets[k].at.EmptyPool? {
      assert k in empties;
    }
  }

  lemma SetPcKeepsInv(s: State, w: nat, pc: WorkerPc)
    requires Inv(s) && w in s.workers && WorkerOk(s, pc) && HoldsFor(s, w, pc) && !pc.Done?
    requires forall d :: Claims(s.workers[w], d) ==> Claims(pc, d) || d in s.marks
    requires forall c: nat, j: nat :: Owes(s.workers[w], c, j) && c in s.heap && j < |s.heap[c]| ==>
                              Owes(pc, c, j) || Queued(s, c) || CoveredHandle(SetPc(s, w, pc), s.heap[c][j])
    ensures Inv(SetPc(s, w, pc))
  {
    var s' := SetPc(s, w, pc);
    SetPcShape(s, w, pc);
    BuffersCover(s, s');
    assert s'.workers[w] == pc;
    forall d | Claims(pc, d) ensures Claimed(s', d) {
      assert Claims(s'.workers[w], d);
    }
    CoverKept(s, s');
    SetPcScanned(s, w, pc);
  }

  lemma SetPcScanned(s: State, w: nat, pc: WorkerPc)
    requires Inv(s) && w in s.workers && CoverLe(s, SetPc(s, w, pc))
    requires forall c: nat, j: nat :: Owes(s.workers[w], c, j) && c in s.heap && j < |s.heap[c]| ==>
                              Owes(pc, c, j) || Queued(s, c) || CoveredHandle(SetPc(s, w, pc), s.heap[c][j])
    ensures Scanned(SetPc(s, w, pc))
  {
    var s' := SetPc(s, w, pc);
    forall c, j | c in s.marks && c in s.heap && 0 <= j < |s.heap[c]|
      ensures CoveredHandle(s', s.heap[c][j]) || Pending(s', c, j)
    {
      if Owed(s, c, j) {
        var u :| u in s.workers && Owes(s.workers[u], c, j);
        assert u != w ==> Owes(s'.workers[u], c, j);
        assert Owes(pc, c, j) ==> Owes(s'.workers[w], c, j);
      }
    }
  }

  lemma ReadStepKeepsInv(s: State, w: nat, a: WorkerStep)
    requires Inv(s) && WorkerEnabled(s, w, a) && (a.ReadField? || a.EndScan? || a.TestMark?)
    ensures Inv(WorkerEffect(s, w, a))
  {
    var s' := WorkerEffect(s, w, a);
    if a.ReadField? && s'.workers[w].Read? {
      assert Claims(s'.workers[w], s'.workers[w].p.cell);
    }
    SetPcKeepsInv(s, w, s'.workers[w]);
  }

  lemma SetMarkKeepsInv(s: State, w: nat)
    requires Inv(s) && WorkerEnabled(s, w, SetMark)
    ensures Inv(WorkerEffect(s, w, SetMark))
  {
    var s' := WorkerEffect(s, w, SetMark);
    BuffersCover(s, s');
    SetMarkShape(s, w);
    CoverKept(s, s');
    SetMarkScanned(s, w);
    hide Shape, Scanned, Covered, Pending;
  }

  lemma SetMarkShape(s: State, w: nat)
    requires Shape(s) && WorkerEnabled(s, w, SetMark)
    ensures Shape(WorkerEffect(s, w, SetMark))
  {
    hide Covered, Owes;
  }

  lemma SetMarkScanned(s: State, w: nat)
    requires Inv(s) && WorkerEnabled(s, w, SetMark) && CoverLe(s, WorkerEffect(s, w, SetMark))
    ensures Scanned(WorkerEffect(s, w, SetMark))
  {
    var s' := WorkerEffect(s, w, SetMark);
    forall c, j | c in s'.marks && c in s.heap && 0 <= j < |s.heap[c]|
      ensures CoveredHandle(s', s.heap[c][j]) || Pending(s', c, j)
    {
      if c == s.workers[w].p.cell {
        assert Owes(s'.workers[w], c, j);
      } else if Owed(s, c, j) {
        var u :| u in s.workers && Owes(s.workers[u], c, j);
        assert Owes(s'.workers[u], c, j);
      }
    }
  }

  lemma AppendKeepsInv(s: State, k: nat, c: nat)
    requires Inv(s) && k < |s.packets| && !s.packets[k].at.EmptyPool? && c in s.heap
    ensures Inv(Append(s, k, c)) && Queued(Append(s, k, c), c)
  {
    var s' := Append(s, k, c);
    assert c in s'.packets[k].cells;
    SetCellsShape(s, k, s.packets[k].cells + [c]);
    BuffersCover(s, s');
    CoverKept(s, s');
    AppendQueues(s, k, c);
    TriKept(s, s');
  }

  lemma AppendQueues(s: State, k: nat, c: nat)
    requires k < |s.packets|
    ensures PendLe(s, Append(s, k, c))
  {
    var s' := Append(s, k, c);
    forall d, j | Pending(s, d, j) ensures Pending(s', d, j) {
      if Queued(s, d) {
        var o :| 0 <= o < |s.packets| && d in s.packets[o].cells;
        assert d in s'.packets[o].cells;
      }
    }
  }

  lemma PushCellKeepsInv(s: State, w: nat, k: nat)
    requires Inv(s) && WorkerEnabled(s, w, PushCell(k))
    ensures Inv(WorkerEffect(s, w, PushCell(k)))
  {
    var pc := s.workers[w];
    AppendKeepsInv(s, k, pc.p.cell);
    var s1 := Append(s, k, pc.p.cell);
    SetCellsShape(s, k, s.packets[k].cells + [pc.p.cell]);
    SetPcKeepsInv(s1, w, Scan(pc.c, pc.i));
  }

  lemma SetCellsShape(s: State, k: nat, cells: seq<nat>)
    requires Shape(s) && k < |s.packets| && (s.packets[k].at.EmptyPool? ==> cells == [])
    requires forall c :: c in cells ==> c in s.heap
    ensures Shape(SetCells(s, k, cells))
    ensures forall at :: Has(s, at) ==> Has(SetCells(s, k, cells), at)
  {
    var s1 := SetCells(s, k, cells);
    assert forall o :: 0 <= o < |s.packets| ==> s1.packets[o].at == s.packets[o].at;
  }

  lemma PopCellShape(s: State, w: nat, k: nat)
    requires Shape(s) && WorkerEnabled(s, w, PopCell(k))
    ensures Shape(WorkerEffect(s, w, PopCell(k)))
  {
    var cells := s.packets[k].cells;
    SetCellsShape(s, k, cells[..|cells| - 1]);
    assert cells[|cells| - 1] in cells && cells[|cells| - 1] in s.heap;
    SetPcShape(SetCells(s, k, cells[..|cells| - 1]), w, Scan(cells[|cells| - 1], 0));
  }

  lemma PopCellKeepsInv(s: State, w: nat, k: nat)
    requires Inv(s) && WorkerEnabled(s, w, PopCell(k))
    ensures Inv(WorkerEffect(s, w, PopCell(k)))
  {
    var s' := WorkerEffect(s, w, PopCell(k));
    PopCellShape(s, w, k);
    BuffersCover(s, s');
    CoverKept(s, s');
    PopCellScanned(s, w, k);
  }

  lemma PopCellScanned(s: State, w: nat, k: nat)
    requires Inv(s) && WorkerEnabled(s, w, PopCell(k)) && CoverLe(s, WorkerEffect(s, w, PopCell(k)))
    ensures Scanned(WorkerEffect(s, w, PopCell(k)))
  {
    var s' := WorkerEffect(s, w, PopCell(k));
    forall c, j | c in s.marks && c in s.heap && 0 <= j < |s.heap[c]|
      ensures CoveredHandle(s', s.heap[c][j]) || Pending(s', c, j)
    {
      if Queued(s, c) {
        var o :| 0 <= o < |s.packets| && c in s.packets[o].cells;
        if c !in s'.packets[o].cells {
          assert c == s.packets[k].cells[|s.packets[k].cells| - 1];
          assert Owes(s'.workers[w], c, j);
        }
      } else if Owed(s, c, j) {
        var u :| u in s.workers && Owes(s.workers[u], c, j);
        assert Owes(s'.workers[u], c, j);
      }
    }
  }

  /** The remembered pointer `p` may go when its cell stays covered or nothing relies on it. */
  lemma ForgetKeepsInv(s: State, p: Ptr)
    requires Inv(s) && p in s.remset && MayForget(s, p)
    ensures Inv(s.(remset := s.remset - {p}))
  {
    var s' := s.(remset := s.remset - {p});
    ForgetShape(s, p);
    ForgetCovers(s, p);
    PendKept(s, s');
    hide Shape, Covered, Pending;
    if StillCovered(s, p) {
      TriKept(s, s');
    }
  }

  lemma ForgetShape(s: State, p: Ptr)
    requires Shape(s) && p in s.remset
    ensures Shape(s.(remset := s.remset - {p})) && !(s.phase.Idle? && s.col.Running?)
  {
  }

  /** Only the pointer's own cell can lose its cover. */
  lemma ForgetCovers(s: State, p: Ptr)
    ensures forall d :: Covered(s, d) && d != p.cell ==> Covered(s.(remset := s.remset - {p}), d)
  {
    var s' := s.(remset := s.remset - {p});
    forall d | Covered(s, d) && d != p.cell ensures Covered(s', d) {
      if InRemset(s, d) {
        var q :| q in s.remset && q.cell == d;
        assert q in s'.remset;
      }
    }
  }

  lemma PullKeepsInv(s: State, w: nat, k: nat, p: Ptr)
    requires Inv(s) && WorkerEnabled(s, w, PullRemset(k, p)) && MayForget(s, p)
    ensures Inv(WorkerEffect(s, w, PullRemset(k, p)))
  {
    var s1 := Append(s, k, p.cell);
    AppendKeepsInv(s, k, p.cell);
    AppendQueues(s, k, p.cell);
    AppendForgets(s, k, p);
    ForgetKeepsInv(s1, p);
  }

  /** Queuing the cell first changes neither what covers it nor who relies on it, but for being pending. */
  lemma AppendForgets(s: State, k: nat, p: Ptr)
    requires k < |s.packets| && MayForget(s, p) && PendLe(s, Append(s, k, p.cell))
    ensures MayForget(Append(s, k, p.cell), p)
  {
    var s1 := Append(s, k, p.cell);
    assert Covered(s.(remset := s.remset - {p}), p.cell) ==> Covered(s1.(remset := s.remset - {p}), p.cell);
  }

  predicate MovesPacket(a: WorkerStep) {
    a.PopInput? || a.GiveStash? || a.TakeOutput? || a.GiveOutput? || a.StashInput? || a.TakeFresh? || a.SwapOutput?
  }

  lemma MayGiveStash(s: State, w: nat, k: nat)
    requires Shape(s) && WorkerEnabled(s, w, GiveStash(k))
    ensures MayMove(SetPc(s, w, if s.workers[w].got then Ready else NoInput), k, PoolFor(s.packets[k].cells))
  {
  }

  lemma GiveStashKeepsInv(s: State, w: nat, k: nat)
    requires Inv(s) && WorkerEnabled(s, w, GiveStash(k))
    ensures Inv(WorkerEffect(s, w, GiveStash(k)))
  {
    var pc := if s.workers[w].got then Ready else NoInput;
    PacedKeepsInv(s, w, pc);
    MayGiveStash(s, w, k);
    MoveKeepsInv(SetPc(s, w, pc), k, PoolFor(s.packets[k].cells));
    assert WorkerEffect(s, w, GiveStash(k)) == SetAt(SetPc(s, w, pc), k, PoolFor(s.packets[k].cells));
  }

  lemma SwapOutputKeepsInv(s: State, w: nat, k: nat, spare: nat)
    requires Inv(s) && WorkerEnabled(s, w, SwapOutput(k, spare))
    ensures Inv(WorkerEffect(s, w, SwapOutput(k, spare)))
  {
    MoveKeepsInv(s, k, PoolFor(s.packets[k].cells));
    MoveKeepsInv(ToPool(s, k), spare, Output(w));
  }

  lemma MoveStepKeepsInv(s: State, w: nat, a: WorkerStep)
    requires Inv(s) && WorkerEnabled(s, w, a) && MovesPacket(a)
    ensures Inv(WorkerEffect(s, w, a))
  {
    match a
    case PopInput(k) => PopInputKeepsInv(s, w, k);
    case GiveStash(k) => GiveStashKeepsInv(s, w, k);
    case TakeOutput(k) => MoveKeepsInv(s, k, Output(w));
    case GiveOutput(k) => MoveKeepsInv(s, k, PoolFor(s.packets[k].cells));
    case StashInput(k) => StashInputKeepsInv(s, w, k);
    case TakeFresh(k) => MoveKeepsInv(s, k, Fresh(w));
    case SwapOutput(k, spare) => SwapOutputKeepsInv(s, w, k, spare);
  }

  lemma WorkerKeepsInv(s: State, w: nat, a: WorkerStep)
    requires Inv(s) && WorkerEnabled(s, w, a) && Sound(s, Work(w, a))
    ensures Inv(WorkerEffect(s, w, a))
  {
    if MovesPacket(a) {
      MoveStepKeepsInv(s, w, a);
    } else {
      match a
      case MissInput => PacedKeepsInv(s, w, RetirePush(false));
      case Exit =>
        NoInputMeansAllEmpty(s);
        PacedKeepsInv(s, w, Done);
      case PopCell(k) => PopCellKeepsInv(s, w, k);
      case SetMark => SetMarkKeepsInv(s, w);
      case PushCell(k) => PushCellKeepsInv(s, w, k);
      case PullRemset(k, p) => PullKeepsInv(s, w, k, p);
      case _ => ReadStepKeepsInv(s, w, a);
    }
  }

  // Collector steps

  lemma StopKeepsInv(s: State, a: CollectorStep)
    requires Inv(s) && CollectorEnabled(s, a) && (a.StopForMark? || a.StopForSweep?)
    ensures Inv(CollectorEffect(s, a))
  {
    var s' := CollectorEffect(s, a);
    StopShape(s, a);
    BuffersCover(s, s');
    CoverKept(s, s');
    PendKept(s, s');
    hide Shape, Covered, Pending;
    ScannedKept(s, s');
  }

  lemma StopShape(s: State, a: CollectorStep)
    requires Shape(s) && CollectorEnabled(s, a) && (a.StopForMark? || a.StopForSweep?)
    ensures Shape(CollectorEffect(s, a))
  {
    hide Covered, Owes;
  }

  predicate TracesOne(a: CollectorStep) {
    a.RootCb? || a.PinCb? || a.RemsetCb?
  }

  /** The same kind of stage, with its work list or pending cell changed. */
  predicate SameStage(a: CollectorPc, b: CollectorPc) {
    (a.Roots? && b.Roots?) || (a.Pins? && b.Pins?) || (a.Remset? && b.Remset?)
  }

  lemma RestageShape(s: State, marks: set<nat>, col: CollectorPc)
    requires Shape(s) && SameStage(s.col, col) && s.marks <= marks && (forall c :: c in marks ==> c in s.heap)
    requires CollectorOk(s.(marks := marks, col := col))
    ensures Shape(s.(marks := marks, col := col))
  {
  }

  lemma TraceOneShape(s: State, a: CollectorStep)
    requires Shape(s) && CollectorEnabled(s, a) && TracesOne(a)
    ensures Shape(CollectorEffect(s, a))
  {
    var s' := CollectorEffect(s, a);
    TraceOneEffect(s, a);
    TraceOneCollector(s, a);
    hide CollectorEffect, CollectorEnabled, WellFormed, PacketsOk, Stages, CollectorOk;
    RestageShape(s, s'.marks, s'.col);
  }

  lemma TraceOneCollector(s: State, a: CollectorStep)
    requires WellFormed(s) && CollectorEnabled(s, a) && TracesOne(a)
    ensures var s' := CollectorEffect(s, a);
      CollectorOk(s') && SameStage(s.col, s'.col) && s.marks <= s'.marks && forall c :: c in s'.marks ==> c in s.heap
  {
    hide MutatorOk, WorkerOk;
  }

  /** Tracing one root, pin or remembered pointer marks its cell and leaves it to be pushed. */
  lemma TraceOneKeepsInv(s: State, a: CollectorStep)
    requires Inv(s) && CollectorEnabled(s, a) && TracesOne(a)
    ensures Inv(CollectorEffect(s, a))
  {
    var s' := CollectorEffect(s, a);
    TraceOneShape(s, a);
    TraceOneCovers(s, a);
    TraceOneScanned(s, a);
    TraceOneStarts(s, a);
    hide Shape, Scanned, RootsCovered, PinsMarked, RemsetTraced, CollectorEffect, CollectorEnabled, Covered;
  }

  lemma TraceOneCovers(s: State, a: CollectorStep)
    requires CollectorEnabled(s, a) && TracesOne(a)
    ensures CoverLe(s, CollectorEffect(s, a))
  {
    var s' := CollectorEffect(s, a);
    TraceOneEffect(s, a);
    hide CollectorEnabled, CollectorEffect;
    BuffersCover(s, s');
    CoverKept(s, s');
  }

  lemma TraceOneStarts(s: State, a: CollectorStep)
    requires Inv(s) && CollectorEnabled(s, a) && TracesOne(a) && CoverLe(s, CollectorEffect(s, a))
    ensures RootsCovered(CollectorEffect(s, a)) && PinsMarked(CollectorEffect(s, a)) && RemsetTraced(CollectorEffect(s, a))
  {
    hide Shape, Scanned, InRemset, InBuffer, InBarrier, Claimed;
  }

  lemma TraceOneEffect(s: State, a: CollectorStep)
    requires CollectorEnabled(s, a) && TracesOne(a)
    ensures var s' := CollectorEffect(s, a);
      && s' == s.(marks := s'.marks, col := s'.col) && Reg(s.col).None?
      && (forall c :: c in s'.marks ==> c in s.marks || Reg(s'.col) == Some(c))
  {
  }

  lemma TraceOneScanned(s: State, a: CollectorStep)
    requires Scanned(s) && CollectorEnabled(s, a) && TracesOne(a) && CoverLe(s, CollectorEffect(s, a))
    ensures Scanned(CollectorEffect(s, a))
  {
    TraceOneEffect(s, a);
    MarkedOneScanned(s, CollectorEffect(s, a));
  }

  lemma MarkedOneScanned(s: State, s': State)
    requires Scanned(s) && CoverLe(s, s') && s' == s.(marks := s'.marks, col := s'.col) && Reg(s.col).None?
    requires forall c :: c in s'.marks ==> c in s.marks || Reg(s'.col) == Some(c)
    ensures Scanned(s')
  {
    hide Covered, Owes;
    assert PendLe(s, s');
  }

  /** The pending cell may be dropped once it is queued. */
  lemma DropRegKeepsInv(s: State)
    requires Inv(s) && Reg(s.col).Some? && Queued(s, Reg(s.col).value)
    ensures Inv(s.(col := WithReg(s.col, None)))
  {
    var s' := s.(col := WithReg(s.col, None));
    RestageShape(s, s.marks, s'.col);
    BuffersCover(s, s');
    CoverKept(s, s');
    forall d, j | Pending(s, d, j) ensures Pending(s', d, j) {
      if Owed(s, d, j) {
        var u :| u in s.workers && Owes(s.workers[u], d, j);
        assert Owes(s'.workers[u], d, j);
      }
    }
  }

  lemma ColPushKeepsInv(s: State, k: nat)
    requires Inv(s) && CollectorEnabled(s, ColPush(k))
    ensures Inv(CollectorEffect(s, ColPush(k)))
  {
    AppendKeepsInv(s, k, Reg(s.col).value);
    DropRegKeepsInv(Append(s, k, Reg(s.col).value));
  }

  lemma StartConcurrentKeepsInv(s: State, ids: set<nat>)
    requires Inv(s) && CollectorEnabled(s, StartConcurrent(ids))
    ensures Inv(CollectorEffect(s, StartConcurrent(ids)))
  {
    var s' := CollectorEffect(s, StartConcurrent(ids));
    StartConcurrentShape(s, ids);
    BuffersCover(s, s');
    CoverKept(s, s');
    PendKept(s, s');
    hide Shape, Covered, Pending;
    ScannedKept(s, s');
  }

  lemma StartConcurrentShape(s: State, ids: set<nat>)
    requires Shape(s) && CollectorEnabled(s, StartConcurrent(ids))
    ensures Shape(CollectorEffect(s, StartConcurrent(ids)))
  {
  }

  /** Skipping a pointer that has left the remembered set forgets nothing. */
  lemma SkipKeepsInv(s: State, p: Ptr)
    requires Inv(s) && CollectorEnabled(s, RemsetSkip(p))
    ensures Inv(CollectorEffect(s, RemsetSkip(p)))
  {
    var s' := CollectorEffect(s, RemsetSkip(p));
    SkipShape(s, p);
    BuffersCover(s, s');
    CoverKept(s, s');
    PendKept(s, s');
  }

  lemma SkipShape(s: State, p: Ptr)
    requires Shape(s) && CollectorEnabled(s, RemsetSkip(p))
    ensures Shape(CollectorEffect(s, RemsetSkip(p)))
  {
  }

  lemma RootsDoneKeepsInv(s: State)
    requires Inv(s) && CollectorEnabled(s, RootsDone)
    ensures Inv(CollectorEffect(s, RootsDone))
  {
    SetColKeeps(s, Pins(s.pins.Keys, None));
  }

  lemma PinsDoneKeepsInv(s: State)
    requires Inv(s) && CollectorEnabled(s, PinsDone)
    ensures Inv(CollectorEffect(s, PinsDone))
  {
    SetColKeeps(s, FlushBuffers);
  }

  lemma SetColKeeps(s: State, col: CollectorPc)
    requires Inv(s) && ((s.col == Roots({}, true, None) && col == Pins(s.pins.Keys, None)) || (s.col == Pins({}, None) && col == FlushBuffers))
    ensures Inv(s.(col := col))
  {
    var s' := s.(col := col);
    BuffersCover(s, s');
    CoverKept(s, s');
    PendKept(s, s');
    SetColShape(s, col);
  }

  lemma SetColShape(s: State, col: CollectorPc)
    requires Shape(s) && ((s.col == Roots({}, true, None) && col == Pins(s.pins.Keys, None)) || (s.col == Pins({}, None) && col == FlushBuffers))
    ensures Shape(s.(col := col))
  {
  }

  lemma FlushShape(s: State)
    requires Shape(s) && CollectorEnabled(s, Flush)
    ensures Shape(CollectorEffect(s, Flush)) && !(s.phase.Idle? && s.col.Running?)
  {
    var s' := CollectorEffect(s, Flush);
    FlushEntries(s);
    assert NoDangling(s') && (forall t :: t in s'.muts ==> MutatorOk(s', s'.muts[t]));
    hide Buffered, NoDangling, MutatorOk;
  }

  lemma FlushEntries(s: State)
    requires WellFormed(s)
    ensures forall q :: q in Buffered(s) ==> q.cell in s.heap
  {
  }

  lemma FlushCovers(s: State)
    requires CollectorEnabled(s, Flush)
    ensures var s' := CollectorEffect(s, Flush);
      forall t, i :: t in s.ssb && 0 <= i < |s.ssb[t]| ==> Covered(s', s.ssb[t][i].cell)
  {
    var s' := CollectorEffect(s, Flush);
    forall t, i | t in s.ssb && 0 <= i < |s.ssb[t]| ensures Covered(s', s.ssb[t][i].cell) {
      var q := s.ssb[t][i];
      assert q in s.ssb[t];
      assert q in Buffered(s) && q in s'.remset;
      assert InRemset(s', s.ssb[t][i].cell);
    }
  }

  lemma FlushKeepsInv(s: State)
    requires Inv(s) && CollectorEnabled(s, Flush)
    ensures Inv(CollectorEffect(s, Flush))
  {
    var s' := CollectorEffect(s, Flush);
    FlushShape(s);
    FlushCovers(s);
    hide Shape, Covered, Pending, CoveredHandle;
    CoverKept(s, s');
    PendKept(s, s');
    ScannedKept(s, s');
    RootsKept(s, s');
    hide Scanned, RootsCovered;
  }

  lemma ClearRemsetShape(s: State)
    requires Shape(s) && s.col == Remset({}, None)
    ensures Shape(s.(remset := {}, col := PreMark))
  {
  }

  lemma RemsetDoneKeepsInv(s: State, k: nat)
    requires Inv(s) && CollectorEnabled(s, RemsetDone(k))
    ensures Inv(CollectorEffect(s, RemsetDone(k)))
  {
    MoveKeepsInv(s, k, PoolFor(s.packets[k].cells));
    var s1 := ToPool(s, k);
    var s' := CollectorEffect(s, RemsetDone(k));
    ClearRemsetShape(s1);
    BuffersCover(s1, s');
    CoverKept(s1, s');
    PendKept(s1, s');
  }

  lemma StartMarkingKeepsInv(s: State, ids: set<nat>)
    requires Inv(s) && CollectorEnabled(s, StartMarking(ids))
    ensures Inv(CollectorEffect(s, StartMarking(ids)))
  {
    var s' := CollectorEffect(s, StartMarking(ids));
    StartMarkingShape(s, ids);
    BuffersCover(s, s');
    CoverKept(s, s');
    PendKept(s, s');
    hide Shape, Covered, Pending;
    ScannedKept(s, s');
  }

  lemma StartMarkingShape(s: State, ids: set<nat>)
    requires Shape(s) && CollectorEnabled(s, StartMarking(ids))
    ensures Shape(CollectorEffect(s, StartMarking(ids)))
  {
  }

  // The end of a cycle

  /** When the marking thread has seen no input with the world stopped, every packet is empty, so
      no worker is reading and nothing is owed: what a marked cell points to is marked. */
  lemma MarkingComplete(s: State)
    requires Inv(s) && s.col.Marking? && s.workers[0].Done?
    ensures forall c, j :: c in s.marks && c in s.heap && 0 <= j < |s.heap[c]| && s.heap[c][j].To? ==> s.heap[c][j].ptr.cell in s.marks
    ensures forall r :: r in s.roots && s.roots[r].To? ==> s.roots[r].ptr.cell in s.marks
    ensures forall p :: p in s.pins ==> s.pins[p].cell in s.marks
  {
    assert AllEmpty(s);
    forall w, at | w in s.workers && (at == Input(w) || at == Stash(w)) ensures !Has(s, at) {
    }
    assert forall w :: w in s.workers ==> !Busy(s.workers[w]);
    assert forall d :: !Claimed(s, d) && !InBarrier(s, d) && !InBuffer(s, d) && !InRemset(s, d);
    assert forall c, j :: !Owed(s, c, j);
    assert forall c :: !Queued(s, c);
  }

  ghost function MarkedCells(s: State): iset<nat> {
    iset c | c in s.marks
  }

  /** Safety of one cycle: every reachable cell is marked when the collector sweeps. */
  lemma ReachableIsMarked(s: State)
    requires Inv(s) && s.col.Marking? && s.workers[0].Done?
    ensures forall c :: Live(s, c) ==> c in s.marks
  {
    MarkingComplete(s);
    assert Closed(s.heap, Starts(s), MarkedCells(s));
    ReachableIsLeast(s.heap, Starts(s), MarkedCells(s));
  }

  lemma CollectKeepsInv(s: State)
    requires Inv(s) && CollectorEnabled(s, Collect)
    ensures Inv(CollectorEffect(s, Collect))
  {
    MarkingComplete(s);
  }

  lemma CollectorKeepsInv(s: State, a: CollectorStep)
    requires Inv(s) && CollectorEnabled(s, a)
    ensures Inv(CollectorEffect(s, a))
  {
    match a
    case ColTake(k) => MoveKeepsInv(s, k, Slot(s.col));
    case ColGive(k) => MoveKeepsInv(s, k, PoolFor(s.packets[k].cells));
    case ColPush(k) => ColPushKeepsInv(s, k);
    case GiveRoots(k) => MoveKeepsInv(s, k, PoolFor(s.packets[k].cells));
    case StartConcurrent(ids) => StartConcurrentKeepsInv(s, ids);
    case RootsDone => RootsDoneKeepsInv(s);
    case PinsDone => PinsDoneKeepsInv(s);
    case Flush => FlushKeepsInv(s);
    case RemsetDone(k) => RemsetDoneKeepsInv(s, k);
    case StartMarking(ids) => StartMarkingKeepsInv(s, ids);
    case Collect => CollectKeepsInv(s);
    case RootCb(_) => TraceOneKeepsInv(s, a);
    case PinCb(_) => TraceOneKeepsInv(s, a);
    case RemsetCb(_) => TraceOneKeepsInv(s, a);
    case RemsetSkip(p) => SkipKeepsInv(s, p);
    case _ => StopKeepsInv(s, a);
  }

  /** Every sound step keeps the invariant. */
  lemma StepKeepsInv(s: State, step: Step)
    requires Inv(s) && Enabled(s, step) && Sound(s, step)
    ensures Inv(Effect(s, step))
  {
    match step
    case Attach(t) => SetMutKeepsInv(s, t, Rest);
    case Mutate(t, m) => MutatorKeepsInv(s, t, m);
    case Work(w, a) => WorkerKeepsInv(s, w, a);
    case Control(g) => CollectorKeepsInv(s, g);
  }
}
