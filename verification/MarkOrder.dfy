/** Where packets may be: each in the pool of its kind or in the one place that holds it, and no place holds two. */
module MarkOrder {
  import opened Common
  import opened HeapGraph
  import opened ConcurrentMark
  import opened MarkSafety
  import opened MarkTheorems

  predicate Held(at: Where) {
    !at.EmptyPool? && !at.PartialPool? && !at.FullPool?
  }

  predicate Scans(pc: WorkerPc) {
    pc.Scan? || pc.Read? || pc.Claim? || pc.Push?
  }

  /** A packet's contents fit its pool, and whoever holds it is at a point of its code where it may. */
  predicate PacketOk(workers: map<nat, WorkerPc>, col: CollectorPc, p: Packet) {
    |p.cells| <= PACKET_SIZE &&
    match p.at
    case EmptyPool => |p.cells| == 0
    case PartialPool => 0 < |p.cells| < PACKET_SIZE / 2
    case FullPool => |p.cells| >= PACKET_SIZE / 2
    case Input(w) => w in workers && (Busy(workers[w]) || (workers[w] == RetirePush(true) && |p.cells| > 0))
    case Output(w) => w in workers && !workers[w].Done?
    case Fresh(w) => w in workers && workers[w].Push? && |p.cells| < PACKET_SIZE / 2
    case Stash(w) => w in workers && (workers[w].RetirePop? || workers[w].RetirePush?)
    case RootsSlot => col.Roots? || col.Pins? || col.FlushBuffers? || col.Remset? || col.PreMark?
    case RemsetSlot => col.Remset?
  }

  /** No place holds two packets; a spare is taken only when the output packet is full. */
  predicate PairOk(p: Packet, q: Packet) {
    && (Held(p.at) ==> p.at != q.at)
    && (p.at.Fresh? && q.at == Output(p.at.w) ==> |q.cells| == PACKET_SIZE)
  }

  predicate Orderly(s: State) {
    && |s.packets| == PACKETS_COUNT
    && (forall k :: 0 <= k < |s.packets| ==> PacketOk(s.workers, s.col, s.packets[k]))
    && (forall k, o :: 0 <= k < |s.packets| && 0 <= o < |s.packets| && k != o ==> PairOk(s.packets[k], s.packets[o]))
    && (forall w :: w in s.workers && Scans(s.workers[w]) ==> Has(s, Output(w)))
  }

  lemma InitOrderly(s: State)
    requires Init(s)
    ensures Orderly(s)
  {
  }

  /** The packet at `k` is replaced, and worker `w` goes on to `pc`. */
  lemma Replaced(s: State, s': State, w: nat, k: nat)
    requires Orderly(s) && k < |s.packets| && |s'.packets| == |s.packets| && s'.col == s.col
    requires w in s.workers && w in s'.workers && s'.workers == s.workers[w := s'.workers[w]]
    requires s'.packets == s.packets[k := s'.packets[k]] && PacketOk(s'.workers, s.col, s'.packets[k])
    requires forall o :: 0 <= o < |s.packets| && o != k ==>
      PacketOk(s'.workers, s.col, s.packets[o]) && PairOk(s'.packets[k], s.packets[o]) && PairOk(s.packets[o], s'.packets[k])
    requires s.packets[k].at.Output? && s'.packets[k].at != s.packets[k].at ==> s.packets[k].at.w == w && !Scans(s'.workers[w])
    requires Scans(s'.workers[w]) ==> Scans(s.workers[w]) || Has(s, Output(w))
    ensures Orderly(s')
  {
    hide PacketOk, PairOk;
    forall u | u in s'.workers && Scans(s'.workers[u]) ensures Has(s', Output(u)) {
      assert Has(s, Output(u));
      var o :| 0 <= o < |s.packets| && s.packets[o].at == Output(u);
      assert s'.packets[o].at == Output(u);
    }
  }

  lemma PcKeepsOrder(s: State, w: nat, a: WorkerStep)
    requires Orderly(s) && WorkerEnabled(s, w, a)
    requires a.MissInput? || a.Exit? || a.ReadField? || a.EndScan? || a.TestMark? || a.SetMark?
    ensures Orderly(WorkerEffect(s, w, a))
  {
    SamePackets(s, WorkerEffect(s, w, a), w);
  }

  lemma SamePackets(s: State, s': State, w: nat)
    requires Orderly(s) && s'.packets == s.packets && s'.col == s.col && w in s.workers && w in s'.workers
    requires s'.workers == s.workers[w := s'.workers[w]]
    requires forall k :: 0 <= k < |s.packets| ==> PacketOk(s'.workers, s.col, s.packets[k])
    requires Scans(s'.workers[w]) ==> Scans(s.workers[w])
    ensures Orderly(s')
  {
    hide PacketOk, PairOk;
    forall u | u in s'.workers && Scans(s'.workers[u]) ensures Has(s', Output(u)) {
      assert Has(s, Output(u));
    }
  }

  lemma TakeKeepsOrder(s: State, w: nat, a: WorkerStep, k: nat)
    requires Orderly(s) && WorkerEnabled(s, w, a) && (a == PopInput(k) || a == TakeOutput(k) || a == TakeFresh(k))
    ensures Orderly(WorkerEffect(s, w, a))
  {
    hide IsNoInput;
    var s' := WorkerEffect(s, w, a);
    assert s'.packets == s.packets[k := s.packets[k].(at := s'.packets[k].at)];
    Replaced(s, s', w, k);
  }

  lemma PutKeepsOrder(s: State, w: nat, a: WorkerStep, k: nat)
    requires Orderly(s) && WorkerEnabled(s, w, a) && (a == GiveStash(k) || a == GiveOutput(k) || a == StashInput(k))
    ensures Orderly(WorkerEffect(s, w, a))
  {
    hide IsNoInput;
    var s' := WorkerEffect(s, w, a);
    assert s'.packets == s.packets[k := s.packets[k].(at := s'.packets[k].at)];
    Replaced(s, s', w, k);
  }

  lemma CellKeepsOrder(s: State, w: nat, a: WorkerStep, k: nat)
    requires Orderly(s) && WorkerEnabled(s, w, a) && (a == PopCell(k) || a == PushCell(k) || (a.PullRemset? && a.k == k))
    ensures Orderly(WorkerEffect(s, w, a))
  {
    Replaced(s, WorkerEffect(s, w, a), w, k);
  }

  lemma SwapKeepsOrder(s: State, w: nat, k: nat, spare: nat)
    requires Orderly(s) && WorkerEnabled(s, w, SwapOutput(k, spare))
    ensures Orderly(WorkerEffect(s, w, SwapOutput(k, spare)))
  {
    var s' := WorkerEffect(s, w, SwapOutput(k, spare));
    assert s'.packets[spare].at == Output(w);
    forall u | u in s'.workers && Scans(s'.workers[u]) ensures Has(s', Output(u)) {
      assert Has(s, Output(u));
      var o :| 0 <= o < |s.packets| && s.packets[o].at == Output(u);
      assert s'.packets[if u == w then spare else o].at == Output(u);
    }
  }

  lemma WorkerKeepsOrder(s: State, w: nat, a: WorkerStep)
    requires Orderly(s) && WorkerEnabled(s, w, a)
    ensures Orderly(WorkerEffect(s, w, a))
  {
    hide Orderly, WorkerEffect, WorkerEnabled;
    match a
    case PopInput(k) => TakeKeepsOrder(s, w, a, k);
    case GiveStash(k) => PutKeepsOrder(s, w, a, k);
    case TakeOutput(k) => TakeKeepsOrder(s, w, a, k);
    case GiveOutput(k) => PutKeepsOrder(s, w, a, k);
    case StashInput(k) => PutKeepsOrder(s, w, a, k);
    case TakeFresh(k) => TakeKeepsOrder(s, w, a, k);
    case PopCell(k) => CellKeepsOrder(s, w, a, k);
    case PushCell(k) => CellKeepsOrder(s, w, a, k);
    case PullRemset(k, p) => CellKeepsOrder(s, w, a, k);
    case SwapOutput(k, spare) => SwapKeepsOrder(s, w, k, spare);
    case _ => PcKeepsOrder(s, w, a);
  }

  /** The collector takes, fills or gives back the packet at `k`, or none. */
  lemma SlotReplaced(s: State, s': State, k: nat)
    requires Orderly(s) && k < |s.packets| && |s'.packets| == |s.packets| && s'.workers == s.workers
    requires s'.packets == s.packets[k := s'.packets[k]] && PacketOk(s.workers, s'.col, s'.packets[k])
    requires forall o :: 0 <= o < |s.packets| && o != k ==>
      PacketOk(s.workers, s'.col, s.packets[o]) && PairOk(s'.packets[k], s.packets[o]) && PairOk(s.packets[o], s'.packets[k])
    requires s.packets[k].at.Output? ==> s'.packets[k].at == s.packets[k].at
    ensures Orderly(s')
  {
    hide PacketOk, PairOk;
    forall u | u in s'.workers && Scans(s'.workers[u]) ensures Has(s', Output(u)) {
      assert Has(s, Output(u));
      var o :| 0 <= o < |s.packets| && s.packets[o].at == Output(u);
      assert s'.packets[o].at == Output(u);
    }
  }

  lemma SlotKeepsOrder(s: State, a: CollectorStep, k: nat)
    requires Orderly(s) && CollectorEnabled(s, a)
    requires a == ColTake(k) || a == ColGive(k) || a == ColPush(k) || a == GiveRoots(k) || a == RemsetDone(k)
    ensures Orderly(CollectorEffect(s, a))
  {
    SlotReplaced(s, CollectorEffect(s, a), k);
  }

  lemma Restaged(s: State, s': State)
    requires Orderly(s) && s'.packets == s.packets && s'.workers == s.workers
    requires forall k :: 0 <= k < |s.packets| ==> PacketOk(s.workers, s'.col, s.packets[k])
    ensures Orderly(s')
  {
    hide PacketOk, PairOk;
    forall u | u in s'.workers && Scans(s'.workers[u]) ensures Has(s', Output(u)) {
      assert Has(s, Output(u));
    }
  }

  /** Where the collector goes on from such a step it may hold what it held. */
  lemma ColMovesNone(s: State, a: CollectorStep)
    requires Orderly(s) && CollectorEnabled(s, a)
    requires a.StopForMark? || a.StopForSweep? || a.RootCb? || a.PinCb? || a.RemsetCb? || a.RemsetSkip? || a.RootsDone? || a.PinsDone? || a.Flush?
    ensures var s' := CollectorEffect(s, a);
      && s'.packets == s.packets && s'.workers == s.workers
      && forall k :: 0 <= k < |s.packets| ==> PacketOk(s.workers, s'.col, s.packets[k])
  {
    hide PairOk, IsNoInput, Buffered;
    match a
    case StopForMark =>
    case StopForSweep =>
    case RootCb(_) =>
    case PinCb(_) =>
    case RemsetCb(_) =>
    case Flush =>
    case _ =>
  }

  lemma ColKeepsOrder(s: State, a: CollectorStep)
    requires Orderly(s) && CollectorEnabled(s, a)
    requires a.StopForMark? || a.StopForSweep? || a.RootCb? || a.PinCb? || a.RemsetCb? || a.RemsetSkip? || a.RootsDone? || a.PinsDone? || a.Flush?
    ensures Orderly(CollectorEffect(s, a))
  {
    hide PairOk, PacketOk, Orderly, CollectorEnabled, CollectorEffect;
    ColMovesNone(s, a);
    Restaged(s, CollectorEffect(s, a));
  }

  /** Workers come or go only when none of them holds a packet. */
  lemma CrewKeepsOrder(s: State, a: CollectorStep)
    requires Orderly(s) && CollectorEnabled(s, a) && (a.StartConcurrent? || a.StartMarking? || a.Collect?)
    requires s.phase.Idle? || a.StartConcurrent? ==> s.workers == map[]
    requires 0 in s.workers ==> s.col.Marking?
    ensures Orderly(CollectorEffect(s, a))
  {
    hide PairOk, Live, Starts;
  }

  lemma CollectorKeepsOrder(s: State, a: CollectorStep)
    requires Inv(s) && Orderly(s) && CollectorEnabled(s, a)
    ensures Orderly(CollectorEffect(s, a))
  {
    hide Orderly, WellFormed, PacketsOk, TriColour, CollectorEffect;
    match a
    case ColTake(k) => SlotKeepsOrder(s, a, k);
    case ColGive(k) => SlotKeepsOrder(s, a, k);
    case ColPush(k) => SlotKeepsOrder(s, a, k);
    case GiveRoots(k) => SlotKeepsOrder(s, a, k);
    case RemsetDone(k) => SlotKeepsOrder(s, a, k);
    case StartConcurrent(_) => CrewKeepsOrder(s, a);
    case StartMarking(_) => CrewKeepsOrder(s, a);
    case Collect => CrewKeepsOrder(s, a);
    case _ => ColKeepsOrder(s, a);
  }

  lemma StepKeepsOrder(s: State, step: Step)
    requires Inv(s) && Orderly(s) && Enabled(s, step)
    ensures Orderly(Effect(s, step))
  {
    hide Inv, Orderly, MutatorEnabled, WorkerEnabled, CollectorEnabled, WorkerEffect, CollectorEffect, MutatorEffect;
    match step
    case Work(w, a) => WorkerKeepsOrder(s, w, a);
    case Control(g) => CollectorKeepsOrder(s, g);
    case Attach(t) => Unmoved(s, Effect(s, step));
    case Mutate(t, m) =>
      MutatorMovesNone(s, t, m);
      Unmoved(s, Effect(s, step));
  }

  lemma MutatorMovesNone(s: State, t: nat, m: MutatorStep)
    requires MutatorEnabled(s, t, m)
    ensures var s' := MutatorEffect(s, t, m); s'.packets == s.packets && s'.workers == s.workers && s'.col == s.col
  {
    match m
    case Alloc(_, _, _) =>
    case StoreDst =>
    case Record =>
    case Advance(_, _) =>
    case _ =>
      hide Write, AddToBuffer, Live;
  }

  lemma Unmoved(s: State, s': State)
    requires Orderly(s) && s'.packets == s.packets && s'.workers == s.workers && s'.col == s.col
    ensures Orderly(s')
  {
    hide PacketOk, PairOk;
    Restaged(s, s');
  }

  lemma {:induction false} RunKeepsOrder(states: seq<State>, steps: seq<Step>, n: nat)
    requires Run(states, steps) && SoundRun(states, steps) && n < |states|
    ensures Orderly(states[n])
  {
    if n == 0 {
      InitOrderly(states[0]);
    } else {
      RunKeepsOrder(states, steps, n - 1);
      RunKeepsInv(states, steps, n - 1);
      assert Follows(states, steps, n - 1);
      StepKeepsOrder(states[n - 1], steps[n - 1]);
    }
  }

  /** The worker has no input, and holds no packet. */
  predicate AtStart(s: State, w: nat) {
    && w in s.workers && s.workers[w].NoInput?
    && forall k :: 0 <= k < |s.packets| ==> !HeldAt(s.packets[k].at, w)
  }

  predicate HeldAt(at: Where, w: nat) {
    at == Input(w) || at == Output(w) || at == Fresh(w) || at == Stash(w)
  }

  lemma NobodyHolds(s: State, w: nat)
    requires Orderly(s) && w !in s.workers
    ensures forall k :: 0 <= k < |s.packets| ==> !HeldAt(s.packets[k].at, w)
  {
    forall k | 0 <= k < |s.packets| ensures !HeldAt(s.packets[k].at, w) {
      assert PacketOk(s.workers, s.col, s.packets[k]);
    }
  }

  /** Concurrent marking starts with exactly the workers asked for, none of them with a packet. */
  lemma ConcurrentCrew(s: State, ids: set<nat>)
    requires Inv(s) && Orderly(s) && CollectorEnabled(s, StartConcurrent(ids))
    ensures var s' := CollectorEffect(s, StartConcurrent(ids));
      s'.workers.Keys == ids && (forall w :: w in ids ==> AtStart(s', w)) && s'.phase.Mark? && s'.col.Running?
  {
    assert Stages(s);
    hide Inv, Orderly, HeldAt;
    forall w | w in ids ensures AtStart(CollectorEffect(s, StartConcurrent(ids)), w) {
      NobodyHolds(s, w);
    }
  }

  /** At the final stop those that run go on, and the collector's own thread joins them as worker 0; without
      concurrent marking before it, the workers asked for start with it. */
  lemma FinalCrew(s: State, ids: set<nat>)
    requires Inv(s) && Orderly(s) && CollectorEnabled(s, StartMarking(ids))
    ensures var s' := CollectorEffect(s, StartMarking(ids));
      && s'.workers.Keys == s.workers.Keys + {0} + (if s.phase.Idle? then ids else {})
      && (forall w :: w in s'.workers && w !in s.workers ==> AtStart(s', w))
      && 0 !in s.workers && (forall w :: w in s.workers ==> s'.workers[w] == s.workers[w]) && s'.phase.Mark? && s'.col.Marking?
  {
    assert Stages(s);
    hide Inv, Orderly, HeldAt;
    forall w | w !in s.workers ensures forall k :: 0 <= k < |s.packets| ==> !HeldAt(s.packets[k].at, w) {
      NobodyHolds(s, w);
    }
  }
}
