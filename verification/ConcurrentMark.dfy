/** The concurrent mark-sweep collector as a state machine: mutators with the
    incremental-update write barrier, marking workers sharing packets of grey cells, and the
    collector thread that stops the world. One step is one field read, one mark-bit access,
    one barrier action, or one push or pop on a pool. */
module ConcurrentMark {
  import opened Common
  import opened HeapGraph

  const PACKETS_COUNT: nat := 256
  const PACKET_SIZE: nat := 512
  const SSB_SIZE: nat := 64

  /** A handle's place: a stack or static root, a field of a cell, or the constant null handle. */
  datatype Loc = Root(r: nat) | Field(c: nat, j: nat) | NullHandle

  datatype Phase = Idle | Mark

  /** Where a mark packet is: in one of the three pools, or held. */
  datatype Where =
    | EmptyPool | PartialPool | FullPool
    | Input(w: nat) | Output(w: nat) | Fresh(w: nat) | Stash(w: nat)
    | RootsSlot | RemsetSlot

  datatype Packet = Packet(at: Where, cells: seq<nat>)

  /** Progress of a mutator through the write barrier. */
  datatype MutatorPc = Rest | Loaded(dst: Loc, val: Handle) | Stored(val: Handle)

  /** Progress of a worker: `Scan(c, i)` is about to read handle `i` of `c`; `Read` has read a
      pointer, `Claim` found its cell unmarked, `Push` has set the mark and must push. */
  datatype WorkerPc =
    | NoInput | Ready | RetirePop | RetirePush(got: bool) | Done
    | Scan(c: nat, i: nat)
    | Read(c: nat, i: nat, p: Ptr)
    | Claim(c: nat, i: nat, p: Ptr)
    | Push(c: nat, i: nat, p: Ptr)

  /** Progress of the collector thread; `reg` is a cell marked but not yet pushed. */
  datatype CollectorPc =
    | Running
    | Roots(roots: set<nat>, full: bool, reg: Option<nat>)
    | Pins(pins: set<nat>, reg: Option<nat>)
    | FlushBuffers
    | Remset(entries: set<Ptr>, reg: Option<nat>)
    | PreMark
    | Marking

  datatype State = State(
    heap: Heap,
    roots: map<nat, Handle>,
    pins: map<nat, Ptr>,
    marks: set<nat>,
    phase: Phase,
    muts: map<nat, MutatorPc>,
    ssb: map<nat, seq<Ptr>>,
    remset: set<Ptr>,
    packets: seq<Packet>,
    workers: map<nat, WorkerPc>,
    col: CollectorPc)

  /** What one mutator thread does; a barrier `dst = src` is LoadSrc, StoreDst, Record. */
  datatype MutatorStep =
    | Alloc(r: nat, c: nat, n: nat)
    | LoadSrc(src: Loc, dst: Loc)
    | StoreDst
    | Record
    | Advance(loc: Loc, off: nat)
    | NewRoot(r: nat)
    | DropRoot(r: nat)
    | AddPin(pin: nat, src: Loc)
    | DropPin(pin: nat)
    | Detach

  /** What one marking worker does; `k` is the packet it handles. */
  datatype WorkerStep =
    | PopInput(k: nat)
    | MissInput
    | GiveStash(k: nat)
    | TakeOutput(k: nat)
    | GiveOutput(k: nat)
    | Exit
    | PopCell(k: nat)
    | StashInput(k: nat)
    | ReadField
    | EndScan
    | TestMark
    | SetMark
    | PushCell(k: nat)
    | TakeFresh(k: nat)
    | SwapOutput(k: nat, spare: nat)
    | PullRemset(k: nat, p: Ptr)

  /** What the collector thread does. Its walk over the remembered set does not see pointers that a
      worker has taken out meanwhile: it skips them. */
  datatype CollectorStep =
    | StopForMark
    | StopForSweep
    | RootCb(r: nat)
    | PinCb(pin: nat)
    | RemsetCb(p: Ptr)
    | RemsetSkip(p: Ptr)
    | ColTake(k: nat)
    | ColGive(k: nat)
    | ColPush(k: nat)
    | GiveRoots(k: nat)
    | StartConcurrent(ids: set<nat>)
    | RootsDone
    | PinsDone
    | Flush
    | RemsetDone(k: nat)
    | StartMarking(ids: set<nat>)
    | Collect

  datatype Step =
    | Attach(t: nat)
    | Mutate(t: nat, m: MutatorStep)
    | Work(w: nat, a: WorkerStep)
    | Control(g: CollectorStep)

  // ---------------------------------------------------------------- observations

  /** The cells a program reaches directly: targets of roots and pinned cells. */
  function Starts(s: State): (res: set<nat>)
    ensures forall r :: r in s.roots && s.roots[r].To? ==> s.roots[r].ptr.cell in res
    ensures forall p :: p in s.pins ==> s.pins[p].cell in res
  {
    (set r | r in s.roots && s.roots[r].To? :: s.roots[r].ptr.cell) + (set p | p in s.pins :: s.pins[p].cell)
  }

  ghost predicate Live(s: State, c: nat) {
    Reachable(s.heap, Starts(s), c)
  }

  predicate ValidLoc(s: State, loc: Loc) {
    match loc
    case Root(r) => r in s.roots
    case Field(c, j) => c in s.heap && j < |s.heap[c]|
    case NullHandle => false
  }

  /** A program can name a handle only if it is a root or lies in a cell it can reach. */
  ghost predicate CanUse(s: State, loc: Loc) {
    ValidLoc(s, loc) && (loc.Field? ==> Live(s, loc.c))
  }

  function Value(s: State, loc: Loc): Handle
    requires loc.NullHandle? || ValidLoc(s, loc)
  {
    match loc
    case Root(r) => s.roots[r]
    case Field(c, j) => s.heap[c][j]
    case NullHandle => Null
  }

  predicate Has(s: State, at: Where) {
    exists k :: 0 <= k < |s.packets| && s.packets[k].at == at
  }

  predicate At(s: State, k: nat, at: Where) {
    k < |s.packets| && s.packets[k].at == at
  }

  predicate Poppable(s: State, k: nat) {
    At(s, k, EmptyPool) || At(s, k, PartialPool)
  }

  predicate AllRest(s: State) {
    forall t :: t in s.muts ==> s.muts[t].Rest?
  }

  predicate AllEmpty(s: State) {
    forall k :: 0 <= k < |s.packets| ==> s.packets[k].at.EmptyPool?
  }

  predicate AllDone(s: State) {
    forall w :: w in s.workers ==> s.workers[w].Done?
  }

  predicate BuffersEmpty(s: State) {
    forall t :: t in s.ssb ==> s.ssb[t] == []
  }

  /** packet_manager::is_no_input: the empty pool counts every packet. */
  predicate IsNoInput(s: State) {
    |set k: nat | k < |s.packets| && s.packets[k].at.EmptyPool?| == PACKETS_COUNT
  }

  function PoolFor(cells: seq<nat>): Where {
    if |cells| == 0 then EmptyPool
    else if |cells| < PACKET_SIZE / 2 then PartialPool
    else FullPool
  }

  predicate Busy(pc: WorkerPc) {
    pc.Ready? || pc.Scan? || pc.Read? || pc.Claim? || pc.Push?
  }

  /** The collector's current packet slot and pending cell. */
  function Slot(col: CollectorPc): Where {
    if col.Remset? then RemsetSlot else RootsSlot
  }

  function Reg(col: CollectorPc): Option<nat> {
    if col.Roots? || col.Pins? || col.Remset? then col.reg else None
  }

  function WithReg(col: CollectorPc, reg: Option<nat>): CollectorPc {
    match col
    case Roots(todo, full, _) => Roots(todo, full, reg)
    case Pins(todo, _) => Pins(todo, reg)
    case Remset(todo, _) => Remset(todo, reg)
    case _ => col
  }

  // ---------------------------------------------------------------- steps

  ghost predicate MutatorEnabled(s: State, t: nat, m: MutatorStep) {
    s.col.Running? && t in s.muts &&
    var rest := s.muts[t].Rest?;
    match m
    case Alloc(r, c, n) => rest && c !in s.heap && r !in s.roots
    case LoadSrc(src, dst) => rest && (src.NullHandle? || CanUse(s, src)) && CanUse(s, dst)
    case StoreDst => s.muts[t].Loaded? && ValidLoc(s, s.muts[t].dst)
    case Record => s.muts[t].Stored?
    case Advance(loc, off) => rest && CanUse(s, loc) && Value(s, loc).To?
    case NewRoot(r) => rest && r !in s.roots
    case DropRoot(r) =>
      rest && r in s.roots && (forall u :: u in s.muts && s.muts[u].Loaded? ==> s.muts[u].dst != Root(r))
    case AddPin(pin, src) => rest && pin !in s.pins && CanUse(s, src) && Value(s, src).To?
    case DropPin(pin) => rest && pin in s.pins
    case Detach => rest
  }

  ghost predicate WorkerEnabled(s: State, w: nat, a: WorkerStep) {
    w in s.workers &&
    var pc := s.workers[w];
    match a
    case PopInput(k) => (pc.NoInput? || pc.RetirePop?) && (At(s, k, FullPool) || At(s, k, PartialPool))
    case MissInput => pc.RetirePop?
    case GiveStash(k) => pc.RetirePush? && At(s, k, Stash(w))
    case TakeOutput(k) => pc.Ready? && !Has(s, Output(w)) && Poppable(s, k)
    case GiveOutput(k) => pc.NoInput? && At(s, k, Output(w))
    case Exit => pc.NoInput? && !Has(s, Output(w)) && IsNoInput(s)
    case PopCell(k) => pc.Ready? && Has(s, Output(w)) && At(s, k, Input(w)) && |s.packets[k].cells| > 0
    case StashInput(k) => pc.Ready? && Has(s, Output(w)) && At(s, k, Input(w)) && |s.packets[k].cells| == 0
    case ReadField => pc.Scan? && pc.c in s.heap && pc.i < |s.heap[pc.c]|
    case EndScan => pc.Scan? && pc.c in s.heap && pc.i >= |s.heap[pc.c]|
    case TestMark => pc.Read?
    case SetMark => pc.Claim?
    case PushCell(k) => pc.Push? && At(s, k, Output(w)) && |s.packets[k].cells| < PACKET_SIZE
    case TakeFresh(k) => pc.Push? && !Has(s, Fresh(w)) && Poppable(s, k) && OutputFull(s, w)
    case SwapOutput(k, spare) =>
      pc.Push? && At(s, k, Output(w)) && At(s, spare, Fresh(w)) && |s.packets[k].cells| == PACKET_SIZE
    case PullRemset(k, p) => pc.NoInput? && At(s, k, Output(w)) && |s.packets[k].cells| < PACKET_SIZE && p in s.remset
  }

  ghost predicate CollectorEnabled(s: State, a: CollectorStep) {
    match a
    case StopForMark => s.col.Running? && s.phase.Idle? && AllRest(s)
    case StopForSweep => s.col.Running? && AllRest(s)
    case RootCb(r) => s.col.Roots? && s.col.reg.None? && r in s.col.roots && r in s.roots
    case PinCb(pin) => s.col.Pins? && s.col.reg.None? && pin in s.col.pins && pin in s.pins
    case RemsetCb(p) => s.col.Remset? && s.col.reg.None? && p in s.col.entries && p in s.remset
    case RemsetSkip(p) => s.col.Remset? && p in s.col.entries && p !in s.remset
    case ColTake(k) => (Reg(s.col).Some? || s.col.Remset?) && !Has(s, Slot(s.col)) && Poppable(s, k)
    case ColGive(k) => Reg(s.col).Some? && At(s, k, Slot(s.col)) && |s.packets[k].cells| == PACKET_SIZE
    case ColPush(k) => Reg(s.col).Some? && At(s, k, Slot(s.col)) && |s.packets[k].cells| < PACKET_SIZE
    case GiveRoots(k) => (s.col == Roots({}, false, None) || s.col.PreMark?) && At(s, k, RootsSlot)
    case StartConcurrent(ids) => s.col == Roots({}, false, None) && !Has(s, RootsSlot) && 0 !in ids
    case RootsDone => s.col == Roots({}, true, None)
    case PinsDone => s.col == Pins({}, None)
    case Flush => s.col.FlushBuffers?
    case RemsetDone(k) => s.col == Remset({}, None) && At(s, k, RemsetSlot)
    case StartMarking(ids) => s.col.PreMark? && !Has(s, RootsSlot) && 0 !in ids
    case Collect => s.col.Marking? && AllDone(s)
  }

  ghost predicate Enabled(s: State, step: Step) {
    match step
    case Attach(t) => s.col.Running? && t !in s.muts
    case Mutate(t, m) => MutatorEnabled(s, t, m)
    case Work(w, a) => WorkerEnabled(s, w, a)
    case Control(g) => CollectorEnabled(s, g)
  }

  predicate OutputFull(s: State, w: nat) {
    forall k :: 0 <= k < |s.packets| && s.packets[k].at == Output(w) ==> |s.packets[k].cells| == PACKET_SIZE
  }

  function SetAt(s: State, k: nat, at: Where): State
    requires k < |s.packets|
  {
    s.(packets := s.packets[k := s.packets[k].(at := at)])
  }

  /** packet_manager::push_packet */
  function ToPool(s: State, k: nat): State
    requires k < |s.packets|
  {
    SetAt(s, k, PoolFor(s.packets[k].cells))
  }

  function SetCells(s: State, k: nat, cells: seq<nat>): State
    requires k < |s.packets|
  {
    s.(packets := s.packets[k := s.packets[k].(cells := cells)])
  }

  function Append(s: State, k: nat, c: nat): State
    requires k < |s.packets|
  {
    SetCells(s, k, s.packets[k].cells + [c])
  }

  function SetPc(s: State, w: nat, pc: WorkerPc): State {
    s.(workers := s.workers[w := pc])
  }

  function SetMut(s: State, t: nat, pc: MutatorPc): State {
    s.(muts := s.muts[t := pc])
  }

  function Write(s: State, loc: Loc, h: Handle): State
    requires ValidLoc(s, loc)
  {
    match loc
    case Root(r) => s.(roots := s.roots[r := h])
    case Field(c, j) => s.(heap := s.heap[c := s.heap[c][j := h]])
  }

  /** remset::add: a full store buffer is flushed into the hash set first. */
  function AddToBuffer(s: State, t: nat, p: Ptr): State {
    var b := if t in s.ssb then s.ssb[t] else [];
    if |b| == SSB_SIZE
    then s.(remset := s.remset + (set q | q in b), ssb := s.ssb[t := [p]])
    else s.(ssb := s.ssb[t := b + [p]])
  }

  function Buffered(s: State): set<Ptr> {
    set t, q | t in s.ssb && q in s.ssb[t] :: q
  }

  function Spawn(ids: set<nat>): map<nat, WorkerPc> {
    map w | w in ids :: NoInput
  }

  function MutatorEffect(s: State, t: nat, m: MutatorStep): State
    requires MutatorEnabled(s, t, m)
  {
    match m
    case Alloc(r, c, n) =>
      s.(heap := s.heap[c := seq(n, _ => Null)],
         roots := s.roots[r := To(Ptr(c, 0))],
         marks := if s.phase.Mark? then s.marks + {c} else s.marks)
    case LoadSrc(src, dst) => SetMut(s, t, Loaded(dst, Value(s, src)))
    case StoreDst => SetMut(Write(s, s.muts[t].dst, s.muts[t].val), t, Stored(s.muts[t].val))
    case Record =>
      var v := s.muts[t].val;
      var s1 := SetMut(s, t, Rest);
      if s.phase.Mark? && v.To? && v.ptr.cell !in s.marks then AddToBuffer(s1, t, v.ptr) else s1
    case Advance(loc, off) => Write(s, loc, To(Ptr(Value(s, loc).ptr.cell, off)))
    case NewRoot(r) => s.(roots := s.roots[r := Null])
    case DropRoot(r) => s.(roots := s.roots - {r})
    case AddPin(pin, src) => s.(pins := s.pins[pin := Value(s, src).ptr])
    case DropPin(pin) => s.(pins := s.pins - {pin})
    case Detach => s.(muts := s.muts - {t})
  }

  function WorkerEffect(s: State, w: nat, a: WorkerStep): State
    requires WorkerEnabled(s, w, a)
  {
    var pc := s.workers[w];
    match a
    case PopInput(k) => SetPc(SetAt(s, k, Input(w)), w, if pc.NoInput? then Ready else RetirePush(true))
    case MissInput => SetPc(s, w, RetirePush(false))
    case GiveStash(k) => SetPc(ToPool(s, k), w, if pc.got then Ready else NoInput)
    case TakeOutput(k) => SetAt(s, k, Output(w))
    case GiveOutput(k) => ToPool(s, k)
    case Exit => SetPc(s, w, Done)
    case PopCell(k) =>
      var cells := s.packets[k].cells;
      SetPc(SetCells(s, k, cells[..|cells| - 1]), w, Scan(cells[|cells| - 1], 0))
    case StashInput(k) => SetPc(SetAt(s, k, Stash(w)), w, RetirePop)
    case ReadField =>
      var h := s.heap[pc.c][pc.i];
      SetPc(s, w, if h.Null? then Scan(pc.c, pc.i + 1) else Read(pc.c, pc.i + 1, h.ptr))
    case EndScan => SetPc(s, w, Ready)
    case TestMark => SetPc(s, w, if pc.p.cell in s.marks then Scan(pc.c, pc.i) else Claim(pc.c, pc.i, pc.p))
    case SetMark => SetPc(s, w, Push(pc.c, pc.i, pc.p)).(marks := s.marks + {pc.p.cell})
    case PushCell(k) => SetPc(Append(s, k, pc.p.cell), w, Scan(pc.c, pc.i))
    case TakeFresh(k) => SetAt(s, k, Fresh(w))
    case SwapOutput(k, spare) => SetAt(ToPool(s, k), spare, Output(w))
    case PullRemset(k, p) => Append(s, k, p.cell).(remset := s.remset - {p})
  }

  function CollectorEffect(s: State, a: CollectorStep): State
    requires CollectorEnabled(s, a)
  {
    match a
    case StopForMark => s.(col := Roots(s.roots.Keys, false, None))
    case StopForSweep =>
      s.(col := if s.phase.Idle? then Roots(s.roots.Keys, true, None) else Pins(s.pins.Keys, None))
    case RootCb(r) =>
      var todo := s.col.roots - {r};
      if s.roots[r].Null? then s.(col := s.col.(roots := todo))
      else
        var c := s.roots[r].ptr.cell;
        s.(marks := s.marks + {c}, col := s.col.(roots := todo, reg := Some(c)))
    case PinCb(pin) =>
      var c := s.pins[pin].cell;
      s.(marks := s.marks + {c}, col := Pins(s.col.pins - {pin}, Some(c)))
    case RemsetCb(p) =>
      s.(marks := s.marks + {p.cell}, col := Remset(s.col.entries - {p}, Some(p.cell)))
    case RemsetSkip(p) => s.(col := s.col.(entries := s.col.entries - {p}))
    case ColTake(k) => SetAt(s, k, Slot(s.col))
    case ColGive(k) => ToPool(s, k)
    case ColPush(k) => Append(s, k, Reg(s.col).value).(col := WithReg(s.col, None))
    case GiveRoots(k) => ToPool(s, k)
    case StartConcurrent(ids) => s.(phase := Mark, workers := Spawn(ids), col := Running)
    case RootsDone => s.(col := Pins(s.pins.Keys, None))
    case PinsDone => s.(col := FlushBuffers)
    case Flush =>
      var all := s.remset + Buffered(s);
      s.(remset := all, ssb := map t | t in s.ssb :: [], col := Remset(all, None))
    case RemsetDone(k) => ToPool(s, k).(remset := {}, col := PreMark)
    case StartMarking(ids) =>
      s.(phase := Mark, workers := (if s.phase.Idle? then Spawn(ids) else s.workers)[0 := NoInput], col := Marking)
    case Collect =>
      s.(heap := map c | c in s.heap && c in s.marks :: s.heap[c],
         marks := {}, phase := Idle, workers := map[], col := Running)
  }

  function Effect(s: State, step: Step): State
    requires Enabled(s, step)
  {
    match step
    case Attach(t) => SetMut(s, t, Rest)
    case Mutate(t, m) => MutatorEffect(s, t, m)
    case Work(w, a) => WorkerEffect(s, w, a)
    case Control(g) => CollectorEffect(s, g)
  }

  predicate Init(s: State) {
    && s.heap == map[] && s.roots == map[] && s.pins == map[] && s.marks == {} && s.phase.Idle?
    && s.muts == map[] && s.ssb == map[] && s.remset == {} && s.workers == map[] && s.col.Running?
    && s.packets == seq(PACKETS_COUNT, _ => Packet(EmptyPool, []))
  }
}
