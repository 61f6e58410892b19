/** Whole cycles can end: from every state of every run there is a run to a sweep, unless at some point no packet
    is to be had. */
module CycleProgress {
  import opened Common
  import opened HeapGraph
  import opened ConcurrentMark
  import opened MarkSafety
  import opened MarkTheorems
  import opened MarkOrder
  import opened MarkProgress

  /** What every state of a sound run meets. */
  ghost predicate Sane(s: State) {
    Inv(s) && Orderly(s)
  }

  // ---------------------------------------------------------------- mutators finish their barriers

  /** What a mutator's steps at rest or in a barrier do not change. */
  predicate SameMarkers(s: State, s': State) {
    s'.packets == s.packets && s'.workers == s.workers && s'.col == s.col && s'.phase == s.phase
  }

  lemma StepKeepsBoth(s: State, step: Step)
    requires Sane(s) && Enabled(s, step) && Allowed(Everybody, step)
    ensures Sane(Effect(s, step))
  {
    hide Inv, Orderly, Enabled, Effect;
    StepKeepsInv(s, step);
    StepKeepsOrder(s, step);
  }

  lemma Stores(s: State, t: nat)
    requires Inv(s) && s.col.Running? && t in s.muts && s.muts[t].Loaded?
    ensures MutatorEnabled(s, t, StoreDst)
    ensures var s' := MutatorEffect(s, t, StoreDst); SameMarkers(s, s') && s'.muts == s.muts[t := Stored(s.muts[t].val)]
  {
    assert MutatorOk(s, s.muts[t]);
  }

  lemma Records(s: State, t: nat)
    requires s.col.Running? && t in s.muts && s.muts[t].Stored?
    ensures MutatorEnabled(s, t, Record)
    ensures var s' := MutatorEffect(s, t, Record); SameMarkers(s, s') && s'.muts == s.muts[t := Rest]
  {
  }

  function BarrierLeft(pc: MutatorPc): nat {
    match pc
    case Rest => 0
    case Loaded(_, _) => 2
    case Stored(_) => 1
  }

  /** One mutator finishes its barrier. */
  lemma {:induction false} MutatorRests(s: State, t: nat) returns (s': State)
    requires Sane(s) && s.col.Running? && t in s.muts
    ensures Leads(Everybody, s, s') && Sane(s') && SameMarkers(s, s') && s'.muts == s.muts[t := Rest]
    decreases BarrierLeft(s.muts[t])
  {
    hide Inv, Orderly, Leads, MutatorEnabled, MutatorEffect;
    if s.muts[t].Rest? {
      LeadsHere(Everybody, s);
      return s;
    }
    var m := if s.muts[t].Loaded? then StoreDst else Record;
    if s.muts[t].Loaded? {
      Stores(s, t);
    } else {
      Records(s, t);
    }
    StepKeepsBoth(s, Mutate(t, m));
    s' := MutatorRests(MutatorEffect(s, t, m), t);
    LeadsOn(Everybody, s, Mutate(t, m), s');
  }

  lemma {:induction false} MutatorsRest(s: State, todo: set<nat>) returns (s': State)
    requires Sane(s) && s.col.Running? && todo <= s.muts.Keys
    requires forall t :: t in s.muts && t !in todo ==> s.muts[t].Rest?
    ensures Leads(Everybody, s, s') && Sane(s') && SameMarkers(s, s') && AllRest(s')
    decreases |todo|
  {
    hide Inv, Orderly, Leads;
    if todo == {} {
      LeadsHere(Everybody, s);
      return s;
    }
    var t :| t in todo;
    var s1 := MutatorRests(s, t);
    s' := MutatorsRest(s1, todo - {t});
    LeadsFurther(Everybody, s, s1, s');
  }

  // ---------------------------------------------------------------- the collector goes on

  function Stage(col: CollectorPc): nat {
    match col
    case Roots(_, full, _) => if full then 5 else 7
    case Running => 6
    case Pins(_, _) => 4
    case FlushBuffers => 3
    case Remset(_, _) => 2
    case PreMark => 1
    case Marking => 0
  }

  function ToTrace(col: CollectorPc): nat {
    match col
    case Roots(todo, _, _) => |todo|
    case Pins(todo, _) => |todo|
    case Remset(todo, _) => |todo|
    case _ => 0
  }

  predicate SlotFull(s: State) {
    forall k :: 0 <= k < |s.packets| && s.packets[k].at == Slot(s.col) ==> |s.packets[k].cells| == PACKET_SIZE
  }

  /** Steps until the pending cell is pushed; a packet to take for the remembered set or to give back for the roots. */
  function ToPush(s: State): nat {
    if Reg(s.col).Some? then (if !Has(s, Slot(s.col)) then 3 else if SlotFull(s) then 4 else 2)
    else if Has(s, Slot(s.col)) == s.col.Remset? then 0 else 1
  }

  predicate Further(s: State, s': State) {
    Stage(s'.col) < Stage(s.col) || (Stage(s'.col) == Stage(s.col) && 5 * ToTrace(s'.col) + ToPush(s') < 5 * ToTrace(s.col) + ToPush(s))
  }

  ghost predicate Advances(s: State, a: CollectorStep) {
    CollectorEnabled(s, a) && Further(s, CollectorEffect(s, a))
  }

  lemma SlotAt(s: State, k: nat, at: Where)
    requires k < |s.packets|
    ensures Has(SetAt(s, k, at), at)
  {
    assert SetAt(s, k, at).packets[k].at == at;
  }

  lemma TakesSlot(s: State, k: nat)
    requires (Reg(s.col).Some? || s.col.Remset?) && !Has(s, Slot(s.col)) && Poppable(s, k)
    requires |s.packets[k].cells| < PACKET_SIZE
    ensures Advances(s, ColTake(k))
  {
    var s' := CollectorEffect(s, ColTake(k));
    SlotAt(s, k, Slot(s.col));
    assert s'.packets[k].at == Slot(s.col);
  }

  lemma GivesSlot(s: State, k: nat)
    requires Orderly(s) && Reg(s.col).Some? && At(s, k, Slot(s.col)) && |s.packets[k].cells| == PACKET_SIZE
    ensures Advances(s, ColGive(k))
  {
    OneAt(s, Slot(s.col), k);
    hide Orderly;
  }

  lemma PushesSlot(s: State, k: nat)
    requires Reg(s.col).Some? && At(s, k, Slot(s.col)) && |s.packets[k].cells| < PACKET_SIZE
    ensures Advances(s, ColPush(k))
  {
    var s' := CollectorEffect(s, ColPush(k));
    assert s'.packets[k].at == Slot(s.col);
  }

  lemma PushesPending(s: State) returns (a: CollectorStep)
    requires Orderly(s) && Reg(s.col).Some? && !NoneLeft(s)
    ensures Advances(s, a)
  {
    hide Orderly, Advances;
    if k: nat :| k < |s.packets| && s.packets[k].at == Slot(s.col) {
      AtMostFull(s, k);
      if |s.packets[k].cells| == PACKET_SIZE {
        a := ColGive(k);
        GivesSlot(s, k);
      } else {
        a := ColPush(k);
        PushesSlot(s, k);
      }
    } else {
      a := Takes(s);
    }
  }

  lemma Takes(s: State) returns (a: CollectorStep)
    requires Orderly(s) && (Reg(s.col).Some? || s.col.Remset?) && !Has(s, Slot(s.col)) && !NoneLeft(s)
    ensures Advances(s, a)
  {
    hide Advances;
    var k: nat :| k < |s.packets| && Poppable(s, k);
    a := ColTake(k);
    assert PacketOk(s.workers, s.col, s.packets[k]);
    hide Orderly;
    TakesSlot(s, k);
  }

  lemma GivesRoots(s: State, k: nat)
    requires Orderly(s) && (s.col == Roots({}, false, None) || s.col.PreMark?) && At(s, k, RootsSlot)
    ensures Advances(s, GiveRoots(k))
  {
    OneAt(s, RootsSlot, k);
    hide Orderly;
  }

  lemma TracesRoot(s: State, r: nat)
    requires CollectorOk(s) && s.col.Roots? && s.col.reg.None? && r in s.col.roots
    ensures Advances(s, RootCb(r))
  {
  }

  lemma StartsConcurrent(s: State)
    requires s.col == Roots({}, false, None) && !Has(s, RootsSlot)
    ensures Advances(s, StartConcurrent({}))
  {
  }

  lemma TracesRoots(s: State) returns (a: CollectorStep)
    requires CollectorOk(s) && Orderly(s) && s.col.Roots? && s.col.reg.None?
    ensures Advances(s, a)
  {
    hide Orderly, Advances, CollectorOk;
    if r :| r in s.col.roots {
      a := RootCb(r);
      TracesRoot(s, r);
    } else if s.col.full {
      a := RootsDone;
      EndsRoots(s);
    } else if k: nat :| k < |s.packets| && s.packets[k].at == RootsSlot {
      a := GiveRoots(k);
      GivesRoots(s, k);
    } else {
      a := StartConcurrent({});
      StartsConcurrent(s);
    }
  }

  lemma EndsRoots(s: State)
    requires s.col == Roots({}, true, None)
    ensures Advances(s, RootsDone)
  {
  }

  lemma TracesPins(s: State) returns (a: CollectorStep)
    requires CollectorOk(s) && s.col.Pins? && s.col.reg.None?
    ensures Advances(s, a)
  {
    if p :| p in s.col.pins {
      a := PinCb(p);
    } else {
      a := PinsDone;
    }
  }

  lemma TracesRemset(s: State) returns (a: CollectorStep)
    requires Orderly(s) && s.col.Remset? && s.col.reg.None? && !NoneLeft(s)
    ensures Advances(s, a)
  {
    hide Orderly, Advances;
    if p :| p in s.col.entries {
      a := if p in s.remset then RemsetCb(p) else RemsetSkip(p);
      TracesEntry(s, p);
    } else if k: nat :| k < |s.packets| && s.packets[k].at == RemsetSlot {
      a := RemsetDone(k);
      EndsRemset(s, k);
    } else {
      a := Takes(s);
    }
  }

  lemma TracesEntry(s: State, p: Ptr)
    requires s.col.Remset? && s.col.reg.None? && p in s.col.entries
    ensures Advances(s, if p in s.remset then RemsetCb(p) else RemsetSkip(p))
  {
    hide SlotFull;
  }

  lemma EndsRemset(s: State, k: nat)
    requires s.col == Remset({}, None) && At(s, k, RemsetSlot)
    ensures Advances(s, RemsetDone(k))
  {
    hide SlotFull, ToPush;
  }

  lemma StartsMarking(s: State) returns (a: CollectorStep)
    requires Orderly(s) && s.col.PreMark?
    ensures Advances(s, a)
  {
    if k: nat :| k < |s.packets| && s.packets[k].at == RootsSlot {
      a := GiveRoots(k);
      GivesRoots(s, k);
    } else {
      a := StartMarking({});
    }
  }

  /** While it stops the world and traces, the collector always has a step that takes it further. */
  lemma CollectorGoesOn(s: State) returns (a: CollectorStep)
    requires Sane(s) && !s.col.Running? && !s.col.Marking? && !NoneLeft(s)
    ensures Advances(s, a)
  {
    assert CollectorOk(s);
    hide Inv, Orderly, Advances, CollectorOk;
    if Reg(s.col).Some? {
      a := PushesPending(s);
      return;
    }
    match s.col
    case Roots(_, _, _) => a := TracesRoots(s);
    case Pins(_, _) => a := TracesPins(s);
    case FlushBuffers =>
      a := Flush;
      Flushes(s);
    case Remset(_, _) => a := TracesRemset(s);
    case PreMark => a := StartsMarking(s);
  }

  lemma Flushes(s: State)
    requires s.col.FlushBuffers?
    ensures Advances(s, Flush)
  {
  }

  lemma Stops(s: State)
    requires s.col.Running? && AllRest(s)
    ensures CollectorEnabled(s, StopForSweep) && Stage(CollectorEffect(s, StopForSweep).col) < Stage(s.col)
  {
  }

  // ---------------------------------------------------------------- to the sweep

  /** From anywhere in a cycle the collector comes to the final marking, or no packet is to be had. */
  lemma {:induction false} MarkingCanStart(s: State) returns (s': State)
    requires Sane(s)
    ensures Leads(Everybody, s, s') && Sane(s') && (s'.col.Marking? || NoneLeft(s'))
    decreases Stage(s.col), 5 * ToTrace(s.col) + ToPush(s)
  {
    hide Inv, Orderly, Leads, NoneLeft, CollectorEnabled, CollectorEffect, ToPush;
    if s.col.Marking? || NoneLeft(s) {
      LeadsHere(Everybody, s);
      return s;
    }
    var s1 := s;
    if s.col.Running? {
      s1 := MutatorsRest(s, s.muts.Keys);
      Stops(s1);
      var s2 := CollectorEffect(s1, StopForSweep);
      StepKeepsBoth(s1, Control(StopForSweep));
      s' := MarkingCanStart(s2);
      LeadsOn(Everybody, s1, Control(StopForSweep), s');
      LeadsFurther(Everybody, s, s1, s');
    } else {
      var a := CollectorGoesOn(s);
      StepKeepsBoth(s, Control(a));
      s' := MarkingCanStart(CollectorEffect(s, a));
      LeadsOn(Everybody, s, Control(a), s');
    }
  }

  lemma {:induction false} WorkersAmongAll(s: State, steps: seq<Step>)
    requires AllAllowed(Workers, steps)
    ensures AllAllowed(Everybody, steps)
  {
    forall i | 0 <= i < |steps| ensures Allowed(Everybody, steps[i]) {
      assert Allowed(Workers, steps[i]);
    }
  }

  lemma LeadsAll(s: State, s': State)
    requires Leads(Workers, s, s')
    ensures Leads(Everybody, s, s')
  {
    var steps :| Path(s, steps, s') && AllAllowed(Workers, steps);
    WorkersAmongAll(s, steps);
  }

  /** From every state of every sound run there is a run on to a sweep, or to a state without a packet to be had. */
  lemma EveryRunCanCollect(states: seq<State>, steps: seq<Step>, n: nat)
    requires Run(states, steps) && SoundRun(states, steps) && n < |states|
    ensures exists s' :: Leads(Everybody, states[n], s') && (CollectorEnabled(s', Collect) || OutOfPackets(s'))
  {
    hide Inv, Orderly, Leads, CollectorEnabled, NoneLeft, OutOfPackets, Starved;
    RunKeepsInv(states, steps, n);
    RunKeepsOrder(states, steps, n);
    var s := states[n];
    var s1 := MarkingCanStart(s);
    if NoneLeft(s1) {
      NoneLeftIsFull(s1);
    } else {
      MarkingCanFinish(s1);
      var s2 :| Leads(Workers, s1, s2) && SameMarking(s1, s2) &&
        (CollectorEnabled(s2, Collect) || (Starved(s2) && Left(s2) <= Left(s1) + |s1.workers|));
      LeadsAll(s1, s2);
      LeadsFurther(Everybody, s, s1, s2);
      if Starved(s2) {
        StarvedHasNone(s2);
        NoneLeftIsFull(s2);
      }
    }
  }
}
