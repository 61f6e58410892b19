/** Marking can end: from every state that a run can be in while the collector marks, steps of the workers lead
    to the sweep, unless at some point all packets are in use. */
module MarkProgress {
  import opened Common
  import opened HeapGraph
  import opened ConcurrentMark
  import opened MarkSafety
  import opened MarkTheorems
  import opened MarkOrder

  // ---------------------------------------------------------------- runs of workers

  /** From `s`, doing `steps` one after the other leads to `s'`. */
  ghost predicate Path(s: State, steps: seq<Step>, s': State)
    decreases |steps|
  {
    if steps == [] then s' == s
    else Enabled(s, steps[0]) && Path(Effect(s, steps[0]), steps[1..], s')
  }

  datatype Crew = Workers | Everybody

  /** Nobody takes pointers out of the remembered set. */
  predicate Allowed(crew: Crew, step: Step) {
    !(step.Work? && step.a.PullRemset?) && (crew.Workers? ==> step.Work?)
  }

  predicate AllAllowed(crew: Crew, steps: seq<Step>) {
    forall i :: 0 <= i < |steps| ==> Allowed(crew, steps[i])
  }

  ghost predicate Leads(crew: Crew, s: State, s': State) {
    exists steps :: Path(s, steps, s') && AllAllowed(crew, steps)
  }

  lemma LeadsHere(crew: Crew, s: State)
    ensures Leads(crew, s, s)
  {
    assert Path(s, [], s) && AllAllowed(crew, []);
  }

  lemma LeadsOn(crew: Crew, s: State, step: Step, s': State)
    requires Allowed(crew, step) && Enabled(s, step) && Leads(crew, Effect(s, step), s')
    ensures Leads(crew, s, s')
  {
    hide Enabled, Effect;
    var rest :| Path(Effect(s, step), rest, s') && AllAllowed(crew, rest);
    var steps := [step] + rest;
    assert steps[1..] == rest;
    assert Path(s, steps, s');
  }

  lemma LeadsFurther(crew: Crew, s: State, m: State, s': State)
    requires Leads(crew, s, m) && Leads(crew, m, s')
    ensures Leads(crew, s, s')
  {
    var steps :| Path(s, steps, m) && AllAllowed(crew, steps);
    PathThen(crew, s, steps, m, s');
  }

  lemma {:induction false} PathThen(crew: Crew, s: State, steps: seq<Step>, m: State, s': State)
    requires Path(s, steps, m) && AllAllowed(crew, steps) && Leads(crew, m, s')
    ensures Leads(crew, s, s')
    decreases |steps|
  {
    hide Enabled, Effect, Allowed;
    if steps != [] {
      assert AllAllowed(crew, steps[1..]) by {
        forall i | 0 <= i < |steps[1..]| ensures Allowed(crew, steps[1..][i]) {
          assert steps[1..][i] == steps[i + 1];
        }
      }
      PathThen(crew, Effect(s, steps[0]), steps[1..], m, s');
      LeadsOn(crew, s, steps[0], s');
    }
  }

  // ---------------------------------------------------------------- what is left to do

  /** Cells in packets. */
  function Grey(packets: seq<Packet>): nat {
    if packets == [] then 0 else Grey(packets[..|packets| - 1]) + |packets[|packets| - 1].cells|
  }

  lemma {:induction false} GreyUpdate(packets: seq<Packet>, k: nat, p: Packet)
    requires k < |packets|
    ensures Grey(packets[k := p]) + |packets[k].cells| == Grey(packets) + |p.cells|
  {
    var n := |packets| - 1;
    if k == n {
      assert packets[k := p][..n] == packets[..n];
    } else {
      assert packets[k := p][..n] == packets[..n][k := p];
      GreyUpdate(packets[..n], k, p);
    }
  }

  function Unmarked(heap: Heap, marks: set<nat>): nat {
    |heap.Keys - marks|
  }

  /** Unmarked cells, queued ones, and the one that the worker is bound to push without marking a further cell. */
  function Load(s: State, w: nat): nat
    requires w in s.workers
  {
    var pc := s.workers[w];
    Unmarked(s.heap, s.marks) + Grey(s.packets) + if pc.Push? || (pc.Claim? && pc.p.cell in s.marks) then 1 else 0
  }

  function Unread(heap: Heap, c: nat, i: nat): nat {
    if c in heap && i < |heap[c]| then |heap[c]| - i else 0
  }

  /** Steps until the cell in hand is scanned, at most. */
  function ScanLeft(s: State, w: nat): nat
    requires w in s.workers
  {
    match s.workers[w]
    case Scan(c, i) => 8 * Unread(s.heap, c, i) + 1
    case Read(c, i, _) => 8 * Unread(s.heap, c, i) + 7
    case Claim(c, i, _) => 8 * Unread(s.heap, c, i) + 6
    case Push(c, i, _) =>
      8 * Unread(s.heap, c, i) + if !OutputFull(s, w) then 3 else if Has(s, Fresh(w)) then 4 else 5
    case _ => 0
  }

  predicate HasInput(s: State, w: nat) {
    exists k :: 0 <= k < |s.packets| && s.packets[k].at == Input(w) && |s.packets[k].cells| > 0
  }

  /** How far the worker is from its next cell. */
  function Turns(s: State, w: nat): nat
    requires w in s.workers
  {
    match s.workers[w]
    case Ready =>
      if HasInput(s, w) then (if Has(s, Output(w)) then 0 else 1)
      else if Has(s, Output(w)) then 7 else 8
    case NoInput => if Has(s, Output(w)) then 4 else 3
    case RetirePush(got) => if got then 2 else 5
    case RetirePop => 6
    case _ => 0
  }

  ghost predicate Nearer(s: State, s': State, w: nat)
    requires w in s.workers && w in s'.workers
  {
    || Load(s', w) < Load(s, w)
    || (Load(s', w) == Load(s, w) && ScanLeft(s', w) < ScanLeft(s, w))
    || (Load(s', w) == Load(s, w) && ScanLeft(s', w) == ScanLeft(s, w) && Turns(s', w) < Turns(s, w))
  }

  /** No pool holds a packet with cells. */
  predicate Dry(s: State) {
    forall k :: 0 <= k < |s.packets| ==> !s.packets[k].at.PartialPool? && !s.packets[k].at.FullPool?
  }

  predicate AtRest(s: State, w: nat)
    requires w in s.workers
  {
    s.workers[w].Done? || (s.workers[w].NoInput? && !Has(s, Output(w)))
  }

  /** The worker cannot go on without a packet of output. */
  predicate Needs(s: State, w: nat)
    requires w in s.workers
  {
    || (s.workers[w].Ready? && !Has(s, Output(w)))
    || (s.workers[w].Push? && OutputFull(s, w) && !Has(s, Fresh(w)))
  }

  predicate NoneLeft(s: State) {
    forall k: nat :: k < |s.packets| ==> !Poppable(s, k)
  }

  predicate Starved(s: State) {
    NoneLeft(s) && exists w :: w in s.workers && Needs(s, w)
  }

  // ---------------------------------------------------------------- one step of one worker

  lemma OneAt(s: State, at: Where, k: nat)
    requires Orderly(s) && Held(at) && At(s, k, at)
    ensures forall o :: 0 <= o < |s.packets| && s.packets[o].at == at ==> o == k
  {
    forall o | 0 <= o < |s.packets| && s.packets[o].at == at ensures o == k {
      assert o != k ==> PairOk(s.packets[o], s.packets[k]);
    }
  }

  /** A worker that has no input can take any pooled packet that has cells. */
  lemma NoInputCanPop(s: State, w: nat, k: nat)
    requires Orderly(s) && w in s.workers && s.workers[w].NoInput?
    requires k < |s.packets| && !Held(s.packets[k].at) && |s.packets[k].cells| > 0
    ensures WorkerEnabled(s, w, PopInput(k))
  {
    assert PacketOk(s.workers, s.col, s.packets[k]);
  }

  lemma SamePlace(s: State, k: nat, at: Where)
    requires k < |s.packets|
    ensures Grey(SetAt(s, k, at).packets) == Grey(s.packets)
  {
    GreyUpdate(s.packets, k, s.packets[k].(at := at));
  }

  /** Moving a packet does not touch other places. */
  lemma ElsewhereSame(s: State, k: nat, at: Where, other: Where)
    requires k < |s.packets| && s.packets[k].at != other && at != other
    ensures Has(SetAt(s, k, at), other) <==> Has(s, other)
  {
    var s' := SetAt(s, k, at);
    if Has(s, other) {
      var o :| 0 <= o < |s.packets| && s.packets[o].at == other;
      assert s'.packets[o].at == other;
    }
  }

  /** The worker may do `a`, and is nearer to rest after it. */
  ghost predicate Helps(s: State, w: nat, a: WorkerStep)
    requires w in s.workers
  {
    && WorkerEnabled(s, w, a) && !a.PullRemset?
    && var s' := WorkerEffect(s, w, a); w in s'.workers && !s'.workers[w].Done? && Nearer(s, s', w)
  }

  lemma GivesOutput(s: State, w: nat, k: nat)
    requires Orderly(s) && w in s.workers && s.workers[w].NoInput? && At(s, k, Output(w))
    ensures Helps(s, w, GiveOutput(k))
  {
    OneAt(s, Output(w), k);
    hide Orderly, Grey, Unmarked;
    SamePlace(s, k, PoolFor(s.packets[k].cells));
  }

  lemma TakesInput(s: State, w: nat, k: nat)
    requires w in s.workers && s.workers[w].NoInput? && !Has(s, Output(w))
    requires (At(s, k, PartialPool) || At(s, k, FullPool)) && |s.packets[k].cells| > 0
    ensures Helps(s, w, PopInput(k))
  {
    hide Grey, Unmarked;
    SamePlace(s, k, Input(w));
    assert WorkerEffect(s, w, PopInput(k)).packets[k].at == Input(w);
  }

  lemma WithoutInput(s: State, w: nat) returns (a: WorkerStep)
    requires Orderly(s) && w in s.workers && s.workers[w].NoInput? && !(AtRest(s, w) && Dry(s))
    ensures Helps(s, w, a)
  {
    hide Orderly, Helps;
    if Has(s, Output(w)) {
      var k: nat :| k < |s.packets| && s.packets[k].at == Output(w);
      a := GiveOutput(k);
      GivesOutput(s, w, k);
    } else {
      var k: nat :| k < |s.packets| && (s.packets[k].at.PartialPool? || s.packets[k].at.FullPool?);
      PooledHasCells(s, k);
      a := PopInput(k);
      TakesInput(s, w, k);
    }
  }

  lemma PooledHasCells(s: State, k: nat)
    requires Orderly(s) && k < |s.packets| && (s.packets[k].at.PartialPool? || s.packets[k].at.FullPool?)
    ensures |s.packets[k].cells| > 0
  {
    assert PacketOk(s.workers, s.col, s.packets[k]);
  }

  lemma GivesStash(s: State, w: nat, k: nat)
    requires Orderly(s) && PacketsOk(s) && w in s.workers && s.workers[w].RetirePush? && At(s, k, Stash(w))
    ensures Helps(s, w, GiveStash(k))
  {
    if s.workers[w].got {
      assert HoldsFor(s, w, s.workers[w]);
      hide Orderly, Helps;
      var o: nat :| o < |s.packets| && s.packets[o].at == Input(w);
      InputHasCells(s, w, o);
      GivesStashWithInput(s, w, k, o);
    } else {
      GivesStashWithout(s, w, k);
    }
  }

  lemma GivesStashWithout(s: State, w: nat, k: nat)
    requires w in s.workers && s.workers[w] == RetirePush(false) && At(s, k, Stash(w))
    ensures Helps(s, w, GiveStash(k))
  {
    hide Grey, Unmarked;
    SamePlace(s, k, PoolFor(s.packets[k].cells));
    ElsewhereSame(s, k, PoolFor(s.packets[k].cells), Output(w));
  }

  lemma GivesStashWithInput(s: State, w: nat, k: nat, o: nat)
    requires w in s.workers && s.workers[w] == RetirePush(true) && At(s, k, Stash(w)) && At(s, o, Input(w)) && |s.packets[o].cells| > 0
    ensures Helps(s, w, GiveStash(k))
  {
    hide Grey, Unmarked;
    SamePlace(s, k, PoolFor(s.packets[k].cells));
    assert WorkerEffect(s, w, GiveStash(k)).packets[o] == s.packets[o];
  }

  lemma StashOf(s: State, w: nat) returns (k: nat)
    requires PacketsOk(s) && w in s.workers && s.workers[w].RetirePush?
    ensures At(s, k, Stash(w))
  {
    assert HoldsFor(s, w, s.workers[w]);
    k :| k < |s.packets| && s.packets[k].at == Stash(w);
  }

  lemma Retiring(s: State, w: nat) returns (a: WorkerStep)
    requires w in s.workers && s.workers[w].RetirePop?
    ensures Helps(s, w, a)
  {
    hide Helps;
    if o: nat :| o < |s.packets| && (s.packets[o].at.PartialPool? || s.packets[o].at.FullPool?) {
      a := PopInput(o);
      PopsInput(s, w, o);
    } else {
      a := MissInput;
      Misses(s, w);
    }
  }

  lemma Misses(s: State, w: nat)
    requires w in s.workers && s.workers[w].RetirePop?
    ensures Helps(s, w, MissInput)
  {
    hide Grey, Unmarked, HasInput, Has, IsNoInput, OutputFull;
  }

  lemma PopsInput(s: State, w: nat, k: nat)
    requires w in s.workers && s.workers[w].RetirePop? && (At(s, k, PartialPool) || At(s, k, FullPool))
    ensures Helps(s, w, PopInput(k))
  {
    hide Grey, Unmarked;
    SamePlace(s, k, Input(w));
  }

  lemma InputHasCells(s: State, w: nat, k: nat)
    requires Orderly(s) && w in s.workers && s.workers[w] == RetirePush(true) && At(s, k, Input(w))
    ensures |s.packets[k].cells| > 0
  {
    assert PacketOk(s.workers, s.col, s.packets[k]);
  }

  lemma TakesOutput(s: State, w: nat, o: nat)
    requires w in s.workers && s.workers[w].Ready? && !Has(s, Output(w)) && Poppable(s, o)
    ensures Helps(s, w, TakeOutput(o))
  {
    hide Grey, Unmarked;
    SamePlace(s, o, Output(w));
    var s' := WorkerEffect(s, w, TakeOutput(o));
    assert s'.packets[o].at == Output(w);
    if HasInput(s, w) {
      var k :| 0 <= k < |s.packets| && s.packets[k].at == Input(w) && |s.packets[k].cells| > 0;
      assert s'.packets[k] == s.packets[k];
    }
  }

  lemma StashesInput(s: State, w: nat, k: nat)
    requires Orderly(s) && w in s.workers && s.workers[w].Ready? && Has(s, Output(w))
    requires At(s, k, Input(w)) && |s.packets[k].cells| == 0
    ensures Helps(s, w, StashInput(k))
  {
    hide Grey, Unmarked;
    OneAt(s, Input(w), k);
    hide Orderly;
    SamePlace(s, k, Stash(w));
  }

  lemma PopsCell(s: State, w: nat, k: nat)
    requires w in s.workers && s.workers[w].Ready? && Has(s, Output(w)) && At(s, k, Input(w)) && |s.packets[k].cells| > 0
    ensures Helps(s, w, PopCell(k))
  {
    hide Grey, Unmarked;
    var n := |s.packets[k].cells| - 1;
    GreyUpdate(s.packets, k, s.packets[k].(cells := s.packets[k].cells[..n]));
  }

  lemma WithInput(s: State, w: nat) returns (a: WorkerStep)
    requires Orderly(s) && PacketsOk(s) && w in s.workers && s.workers[w].Ready? && !Starved(s)
    ensures Helps(s, w, a)
  {
    hide Orderly, Helps;
    assert HoldsFor(s, w, s.workers[w]);
    var k: nat :| k < |s.packets| && s.packets[k].at == Input(w);
    if !Has(s, Output(w)) {
      var o: nat :| o < |s.packets| && Poppable(s, o);
      a := TakeOutput(o);
      TakesOutput(s, w, o);
    } else if |s.packets[k].cells| == 0 {
      a := StashInput(k);
      StashesInput(s, w, k);
    } else {
      a := PopCell(k);
      PopsCell(s, w, k);
    }
  }

  lemma ReadsOn(s: State, w: nat)
    requires w in s.workers && s.workers[w].Scan? && s.workers[w].c in s.heap && s.workers[w].i < |s.heap[s.workers[w].c]|
    ensures Helps(s, w, ReadField)
  {
    hide Grey, Unmarked, HasInput, Has, OutputFull;
  }

  lemma EndsScan(s: State, w: nat)
    requires w in s.workers && s.workers[w].Scan? && s.workers[w].c in s.heap && s.workers[w].i >= |s.heap[s.workers[w].c]|
    ensures Helps(s, w, EndScan)
  {
    hide Grey, Unmarked, HasInput, Has, OutputFull;
  }

  lemma Tests(s: State, w: nat)
    requires w in s.workers && s.workers[w].Read?
    ensures Helps(s, w, TestMark)
  {
    hide Grey, Unmarked, HasInput, Has, IsNoInput, OutputFull;
  }

  lemma Marks(s: State, w: nat)
    requires w in s.workers && s.workers[w].Claim? && s.workers[w].p.cell in s.heap
    ensures Helps(s, w, SetMark)
  {
    hide Grey, HasInput;
    var c := s.workers[w].p.cell;
    if c in s.marks {
      assert s.marks + {c} == s.marks;
    } else {
      assert s.heap.Keys - (s.marks + {c}) == s.heap.Keys - s.marks - {c};
    }
  }

  lemma Scanning(s: State, w: nat) returns (a: WorkerStep)
    requires WellFormed(s) && w in s.workers && (s.workers[w].Scan? || s.workers[w].Read? || s.workers[w].Claim?)
    ensures Helps(s, w, a)
  {
    hide Helps;
    assert WorkerOk(s, s.workers[w]);
    match s.workers[w]
    case Scan(c, i) =>
      if i < |s.heap[c]| {
        a := ReadField;
        ReadsOn(s, w);
      } else {
        a := EndScan;
        EndsScan(s, w);
      }
    case Read(_, _, _) =>
      a := TestMark;
      Tests(s, w);
    case Claim(_, _, _) =>
      a := SetMark;
      Marks(s, w);
  }

  lemma Pushes(s: State, w: nat, k: nat)
    requires Orderly(s) && w in s.workers && s.workers[w].Push? && At(s, k, Output(w)) && |s.packets[k].cells| < PACKET_SIZE
    ensures Helps(s, w, PushCell(k))
  {
    hide Orderly, Grey, Unmarked;
    GreyUpdate(s.packets, k, s.packets[k].(cells := s.packets[k].cells + [s.workers[w].p.cell]));
  }

  lemma Swaps(s: State, w: nat, k: nat, spare: nat)
    requires Orderly(s) && w in s.workers && s.workers[w].Push? && At(s, k, Output(w)) && |s.packets[k].cells| == PACKET_SIZE
    requires At(s, spare, Fresh(w))
    ensures Helps(s, w, SwapOutput(k, spare))
  {
    hide Grey, Unmarked;
    OneAt(s, Output(w), k);
    AtMostFull(s, spare);
    hide Orderly;
    SamePlace(s, k, PoolFor(s.packets[k].cells));
    SamePlace(ToPool(s, k), spare, Output(w));
    var s' := WorkerEffect(s, w, SwapOutput(k, spare));
    assert s'.packets[spare].at == Output(w) && !OutputFull(s', w);
  }

  lemma TakesFresh(s: State, w: nat, o: nat)
    requires w in s.workers && s.workers[w].Push? && OutputFull(s, w) && !Has(s, Fresh(w)) && Poppable(s, o)
    ensures Helps(s, w, TakeFresh(o))
  {
    hide Grey, Unmarked;
    SamePlace(s, o, Fresh(w));
    var s' := WorkerEffect(s, w, TakeFresh(o));
    assert s'.packets[o].at == Fresh(w);
  }

  lemma Pushing(s: State, w: nat) returns (a: WorkerStep)
    requires Orderly(s) && w in s.workers && s.workers[w].Push? && !Starved(s)
    ensures Helps(s, w, a)
  {
    hide PacketOk, PairOk, Helps;
    assert Has(s, Output(w));
    var k: nat :| k < |s.packets| && s.packets[k].at == Output(w);
    OneAt(s, Output(w), k);
    AtMostFull(s, k);
    hide Orderly;
    if |s.packets[k].cells| < PACKET_SIZE {
      a := PushCell(k);
      Pushes(s, w, k);
    } else if Has(s, Fresh(w)) {
      var spare: nat :| spare < |s.packets| && s.packets[spare].at == Fresh(w);
      a := SwapOutput(k, spare);
      Swaps(s, w, k, spare);
    } else {
      var o: nat :| o < |s.packets| && Poppable(s, o);
      a := TakeFresh(o);
      TakesFresh(s, w, o);
    }
  }

  lemma AtMostFull(s: State, k: nat)
    requires Orderly(s) && k < |s.packets|
    ensures |s.packets[k].cells| <= PACKET_SIZE && (s.packets[k].at.Fresh? ==> |s.packets[k].cells| < PACKET_SIZE)
  {
    assert PacketOk(s.workers, s.col, s.packets[k]);
  }

  /** A worker that is not at rest has a step that brings it nearer to it, unless it lacks a packet. */
  lemma NextStep(s: State, w: nat) returns (a: WorkerStep)
    requires Inv(s) && Orderly(s) && w in s.workers && !s.workers[w].Done? && !(AtRest(s, w) && Dry(s)) && !Starved(s)
    ensures Helps(s, w, a)
  {
    hide Orderly, TriColour, WellFormed, PacketsOk, Stages, Starved, Helps;
    match s.workers[w]
    case NoInput => a := WithoutInput(s, w);
    case RetirePop => a := Retiring(s, w);
    case RetirePush(_) =>
      var k := StashOf(s, w);
      a := GiveStash(k);
      GivesStash(s, w, k);
    case Ready => a := WithInput(s, w);
    case Push(_, _, _) => a := Pushing(s, w);
    case _ => a := Scanning(s, w);
  }

  // ---------------------------------------------------------------- runs to the end

  /** A state of a run in which the collector marks. */
  ghost predicate Standing(s: State) {
    Inv(s) && Orderly(s) && s.col.Marking?
  }

  /** Cells that are still to be marked, and cells that are queued. */
  function Left(s: State): nat {
    Unmarked(s.heap, s.marks) + Grey(s.packets)
  }

  /** The collector still marks the same heap with the same workers. */
  ghost predicate SameMarking(s: State, s': State) {
    Standing(s') && s'.heap == s.heap && s'.workers.Keys == s.workers.Keys
  }

  lemma WorkKeeps(s: State, w: nat, a: WorkerStep)
    requires Standing(s) && WorkerEnabled(s, w, a) && !a.PullRemset?
    ensures SameMarking(s, WorkerEffect(s, w, a))
  {
    hide Inv, Orderly, WorkerEnabled, WorkerEffect;
    StepKeepsInv(s, Work(w, a));
    StepKeepsOrder(s, Work(w, a));
    WorkFrame(s, w, a);
  }

  lemma WorkFrame(s: State, w: nat, a: WorkerStep)
    requires WorkerEnabled(s, w, a)
    ensures var s' := WorkerEffect(s, w, a); s'.heap == s.heap && s'.col == s.col && s'.workers.Keys == s.workers.Keys
  {
    hide IsNoInput, OutputFull;
  }

  lemma OthersRest(s: State, w: nat, a: WorkerStep, u: nat)
    requires WorkerEnabled(s, w, a) && u in s.workers && u != w && AtRest(s, u)
    ensures u in WorkerEffect(s, w, a).workers && AtRest(WorkerEffect(s, w, a), u)
  {
    var s' := WorkerEffect(s, w, a);
    if Has(s', Output(u)) {
      var k :| 0 <= k < |s'.packets| && s'.packets[k].at == Output(u);
      assert s.packets[k].at == Output(u);
    }
  }

  lemma DoneRests(s: State, w: nat)
    requires w in s.workers
    ensures s.workers[w].Done? ==> AtRest(s, w)
  {
  }

  /** One worker alone comes to rest with the pools dry, or lacks a packet. */
  lemma {:induction false} WorkerComesToRest(s: State, w: nat) returns (s': State)
    requires Standing(s) && w in s.workers && (s.workers[w].Done? ==> Dry(s))
    ensures Leads(Workers, s, s') && SameMarking(s, s') && Load(s', w) <= Load(s, w)
    ensures forall u :: u in s.workers && u != w && AtRest(s, u) ==> AtRest(s', u)
    ensures Starved(s') || (AtRest(s', w) && Dry(s'))
    decreases Load(s, w), ScanLeft(s, w), Turns(s, w)
  {
    hide Inv, Orderly, AtRest, Dry, Starved, Load, ScanLeft, Turns, Leads, WorkerEnabled, WorkerEffect;
    if Starved(s) || (AtRest(s, w) && Dry(s)) {
      LeadsHere(Workers, s);
      return s;
    }
    DoneRests(s, w);
    var a := NextStep(s, w);
    WorkKeeps(s, w, a);
    var s1 := WorkerEffect(s, w, a);
    s' := WorkerComesToRest(s1, w);
    LeadsOn(Workers, s, Work(w, a), s');
    forall u | u in s.workers && u != w && AtRest(s, u) ensures AtRest(s', u) {
      OthersRest(s, w, a, u);
    }
  }

  lemma LoadIsLeft(s: State, w: nat)
    requires w in s.workers
    ensures Left(s) <= Load(s, w) <= Left(s) + 1
  {
  }

  /** One worker after the other comes to rest. */
  lemma {:induction false} WorkersComeToRest(s: State, todo: set<nat>) returns (s': State)
    requires Standing(s) && Dry(s) && todo <= s.workers.Keys && forall u :: u in s.workers && u !in todo ==> AtRest(s, u)
    ensures Leads(Workers, s, s') && SameMarking(s, s') && Left(s') <= Left(s) + |todo|
    ensures Starved(s') || (Dry(s') && forall u :: u in s'.workers ==> AtRest(s', u))
    decreases |todo|
  {
    hide Inv, Orderly, AtRest, Dry, Starved, Load, Leads, Left;
    if todo == {} {
      LeadsHere(Workers, s);
      return s;
    }
    var w :| w in todo;
    var s1 := WorkerComesToRest(s, w);
    LoadIsLeft(s, w);
    LoadIsLeft(s1, w);
    if Starved(s1) {
      return s1;
    }
    s' := WorkersComeToRest(s1, todo - {w});
    LeadsFurther(Workers, s, s1, s');
  }

  lemma AllIsEmpty(s: State)
    requires Standing(s) && Dry(s) && forall u :: u in s.workers ==> AtRest(s, u)
    ensures AllEmpty(s)
  {
    hide Inv;
    PlacesHeld(s);
    forall k | 0 <= k < |s.packets| ensures s.packets[k].at.EmptyPool? {
      assert PacketOk(s.workers, s.col, s.packets[k]);
    }
  }

  lemma PlacesHeld(s: State)
    ensures forall k :: 0 <= k < |s.packets| ==> Has(s, s.packets[k].at)
  {
  }

  lemma EmptyMeansNoInput(s: State)
    requires |s.packets| == PACKETS_COUNT && AllEmpty(s)
    ensures IsNoInput(s)
  {
    assert (set k: nat | k < |s.packets| && s.packets[k].at.EmptyPool?) == UpTo(PACKETS_COUNT);
  }

  /** When every packet is empty and in its pool, each worker exits. */
  lemma {:induction false} WorkersExit(s: State, todo: set<nat>) returns (s': State)
    requires Standing(s) && AllEmpty(s) && todo <= s.workers.Keys
    requires forall u :: u in s.workers ==> if u in todo then s.workers[u].NoInput? else s.workers[u].Done?
    ensures Leads(Workers, s, s') && SameMarking(s, s') && AllDone(s')
    decreases |todo|
  {
    hide Inv, Leads;
    if todo == {} {
      LeadsHere(Workers, s);
      return s;
    }
    var w :| w in todo;
    EmptyMeansNoInput(s);
    WorkKeeps(s, w, Exit);
    s' := WorkersExit(WorkerEffect(s, w, Exit), todo - {w});
    LeadsOn(Workers, s, Work(w, Exit), s');
  }

  lemma DoneMeansDry(s: State)
    requires Standing(s) && s.workers[0].Done?
    ensures Dry(s)
  {
    assert Stages(s);
  }

  /** Steps of workers lead to the sweep, or to a point at which some worker lacks a packet. */
  lemma MarkingCanFinish(s: State)
    requires Inv(s) && Orderly(s) && s.col.Marking?
    ensures exists s' ::
              Leads(Workers, s, s') && SameMarking(s, s') &&
              (CollectorEnabled(s', Collect) || (Starved(s') && Left(s') <= Left(s) + |s.workers|))
  {
    hide Orderly, WellFormed, PacketsOk, TriColour, AtRest, Dry, Starved, Load, Leads, Left, AllEmpty;
    assert Stages(s);
    if s.workers[0].Done? {
      DoneMeansDry(s);
    }
    var s1 := WorkerComesToRest(s, 0);
    LoadIsLeft(s, 0);
    LoadIsLeft(s1, 0);
    KeysBut(s.workers, 0);
    if !Starved(s1) {
      hide Inv;
      var s2 := WorkersComeToRest(s1, s1.workers.Keys - {0});
      LeadsFurther(Workers, s, s1, s2);
      if !Starved(s2) {
        AllIsEmpty(s2);
        RestingExit(s2);
        var s3 := WorkersExit(s2, set u | u in s2.workers && s2.workers[u].NoInput?);
        LeadsFurther(Workers, s, s2, s3);
      }
    }
  }

  lemma KeysBut(m: map<nat, WorkerPc>, w: nat)
    requires w in m
    ensures |m.Keys - {w}| + 1 == |m|
  {
  }

  lemma RestingExit(s: State)
    requires forall u :: u in s.workers ==> AtRest(s, u)
    ensures forall u :: u in s.workers ==> s.workers[u].NoInput? || s.workers[u].Done?
  {
  }

  // ---------------------------------------------------------------- when packets run out

  lemma {:induction false} GreyAtLeast(packets: seq<Packet>, full: set<nat>)
    requires forall k :: k in full ==> k < |packets| && |packets[k].cells| >= PACKET_SIZE / 2
    ensures Grey(packets) >= |full| * (PACKET_SIZE / 2)
  {
    if packets != [] {
      var n := |packets| - 1;
      GreyAtLeast(packets[..n], full - {n});
      if n in full {
        assert |full - {n}| == |full| - 1;
      } else {
        assert full - {n} == full;
      }
    }
  }

  function PacketsAt(s: State, at: Where): set<nat> {
    set k: nat | k < |s.packets| && s.packets[k].at == at
  }

  function HeldBy(s: State, w: nat): set<nat> {
    (PacketsAt(s, Input(w)) + PacketsAt(s, Output(w))) + (PacketsAt(s, Fresh(w)) + PacketsAt(s, Stash(w)))
  }

  function HeldByAny(s: State, ws: set<nat>): set<nat> {
    set w, k | w in ws && k in HeldBy(s, w) :: k
  }

  lemma AtMostOne(s: State, at: Where)
    requires Orderly(s) && Held(at)
    ensures |PacketsAt(s, at)| <= 1
  {
    if k :| k in PacketsAt(s, at) {
      OneAt(s, at, k);
      hide Orderly;
      assert PacketsAt(s, at) == {k};
    }
  }

  /** A spare is held only while pushing, a used input only while retiring. */
  lemma SparePushes(s: State, w: nat)
    requires Orderly(s)
    ensures PacketsAt(s, Fresh(w)) != {} ==> w in s.workers && s.workers[w].Push?
    ensures PacketsAt(s, Stash(w)) != {} ==> w in s.workers && !s.workers[w].Push?
  {
    forall k: nat | k < |s.packets| ensures PacketOk(s.workers, s.col, s.packets[k]) {
    }
  }

  lemma HeldByOne(s: State, w: nat)
    requires Orderly(s)
    ensures |HeldBy(s, w)| <= 3
  {
    hide Orderly, PacketsAt;
    AtMostOne(s, Input(w));
    AtMostOne(s, Output(w));
    AtMostOne(s, Fresh(w));
    AtMostOne(s, Stash(w));
    SparePushes(s, w);
  }

  lemma {:induction false} HeldCount(s: State, ws: set<nat>)
    requires Orderly(s)
    ensures |HeldByAny(s, ws)| <= 3 * |ws|
  {
    hide Orderly, HeldBy;
    if w :| w in ws {
      HeldCount(s, ws - {w});
      HeldByOne(s, w);
      assert HeldByAny(s, ws) == HeldByAny(s, ws - {w}) + HeldBy(s, w);
    } else {
      assert HeldByAny(s, ws) == {};
    }
  }

  /** How many packets the collector may hold. */
  function InSlots(col: CollectorPc): nat {
    if col.Running? || col.Marking? then 0 else 2
  }

  /** No packet is to be had, and all but those in hands are at least half full. */
  predicate OutOfPackets(s: State) {
    NoneLeft(s) && Grey(s.packets) >= (PACKETS_COUNT - 3 * |s.workers| - InSlots(s.col)) * (PACKET_SIZE / 2)
  }

  /** No packet is to be had only when all packets but three for each worker and the collector's are at least half full. */
  lemma NoneLeftIsFull(s: State)
    requires Orderly(s) && NoneLeft(s)
    ensures OutOfPackets(s)
  {
    hide Orderly, InHands, Grey, NoneLeft;
    var full := UpTo(PACKETS_COUNT) - InHands(s);
    forall k | k in full ensures k < |s.packets| && |s.packets[k].cells| >= PACKET_SIZE / 2 {
      HeldOrFull(s, k);
    }
    InHandsCount(s);
    GreyAtLeast(s.packets, full);
    FewTaken(UpTo(PACKETS_COUNT), InHands(s));
  }

  function InHands(s: State): set<nat> {
    HeldByAny(s, s.workers.Keys) + (PacketsAt(s, RootsSlot) + PacketsAt(s, RemsetSlot))
  }

  lemma InHandsCount(s: State)
    requires Orderly(s)
    ensures |InHands(s)| <= 3 * |s.workers| + InSlots(s.col)
  {
    hide Orderly, HeldByAny, PacketsAt;
    HeldCount(s, s.workers.Keys);
    if InSlots(s.col) == 0 {
      NoSlots(s);
    } else {
      AtMostOne(s, RootsSlot);
      AtMostOne(s, RemsetSlot);
    }
  }

  lemma NoSlots(s: State)
    requires Orderly(s) && (s.col.Running? || s.col.Marking?)
    ensures PacketsAt(s, RootsSlot) == {} && PacketsAt(s, RemsetSlot) == {}
  {
    forall k: nat | k < |s.packets| ensures PacketOk(s.workers, s.col, s.packets[k]) {
    }
  }

  lemma FewTaken(all: set<nat>, a: set<nat>)
    ensures |all - a| >= |all| - |a|
  {
    assert all == (all - a) + (all * a);
    assert all * a <= a;
    SubsetSize(all * a, a);
  }

  lemma HeldOrFull(s: State, k: nat)
    requires Orderly(s) && NoneLeft(s) && k < PACKETS_COUNT
    ensures k < |s.packets| && (k in InHands(s) || |s.packets[k].cells| >= PACKET_SIZE / 2)
  {
    assert PacketOk(s.workers, s.col, s.packets[k]);
    hide Orderly;
    assert !Poppable(s, k);
    var at := s.packets[k].at;
    if Held(at) {
      assert k in PacketsAt(s, at);
      assert at.RootsSlot? || at.RemsetSlot? || k in HeldBy(s, s.packets[k].at.w);
    }
  }

  lemma GreyIsLeft(s: State)
    ensures Grey(s.packets) <= Left(s)
  {
  }

  /** So with fewer cells to mark and in packets than those hold, the sweep can always be reached. */
  lemma CollectCanBeReached(s: State)
    requires Inv(s) && Orderly(s) && s.col.Marking?
    requires Left(s) + |s.workers| < (PACKETS_COUNT - 3 * |s.workers|) * (PACKET_SIZE / 2)
    ensures exists s' :: Leads(Workers, s, s') && CollectorEnabled(s', Collect)
  {
    hide Inv, Orderly, Starved, Leads, CollectorEnabled, Left, Grey;
    MarkingCanFinish(s);
    var s' :| Leads(Workers, s, s') && SameMarking(s, s') &&
      (CollectorEnabled(s', Collect) || (Starved(s') && Left(s') <= Left(s) + |s.workers|));
    if Starved(s') {
      StarvedHasNone(s');
      NoneLeftIsFull(s');
      GreyIsLeft(s');
      SameCount(s.workers, s'.workers);
    }
  }

  lemma SameCount(m: map<nat, WorkerPc>, m': map<nat, WorkerPc>)
    requires m.Keys == m'.Keys
    ensures |m| == |m'|
  {
    assert |m| == |m.Keys| && |m'| == |m'.Keys|;
  }

  lemma StarvedHasNone(s: State)
    requires Starved(s)
    ensures NoneLeft(s)
  {
  }

  /** The same for every state of every run. */
  lemma EveryMarkingCanFinish(states: seq<State>, steps: seq<Step>, n: nat)
    requires Run(states, steps) && SoundRun(states, steps) && n < |states| && states[n].col.Marking?
    ensures exists s' :: Leads(Workers, states[n], s') && (CollectorEnabled(s', Collect) || (Starved(s') && OutOfPackets(s')))
  {
    hide Inv, Orderly, Starved, Leads, CollectorEnabled;
    RunKeepsInv(states, steps, n);
    RunKeepsOrder(states, steps, n);
    MarkingCanFinish(states[n]);
    var s := states[n];
    var s' :| Leads(Workers, s, s') && SameMarking(s, s') &&
      (CollectorEnabled(s', Collect) || (Starved(s') && Left(s') <= Left(s) + |s.workers|));
    if Starved(s') {
      StarvedHasNone(s');
      NoneLeftIsFull(s');
    }
  }
}
