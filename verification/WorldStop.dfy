/** What the handshake keeps in every run, and what its two waits therefore guarantee. */
module WorldStop {
  import opened PendingCall
  import opened StopTheWorld

  // ---- Counting threads

  datatype Class = Suspended | InStop | Resumed | Done

  predicate In(t: Thread, c: Class) {
    match c
    case Suspended => t.h.Counted? || t.h.Stored? || t.h.Parked? || t.h.Woken?
    case InStop => t.h.Parked?
    case Resumed => t.h.Woken? || t.h.Uncounted? || (t.h.Out? && t.turn.Back?)
    case Done => t.h.Out? && t.turn.Back?
  }

  function CountIn(ts: seq<Thread>, c: Class): nat {
    if ts == [] then 0 else CountIn(ts[..|ts| - 1], c) + if In(ts[|ts| - 1], c) then 1 else 0
  }

  lemma {:induction false} CountUpdate(ts: seq<Thread>, i: nat, t: Thread, c: Class)
    requires i < |ts|
    ensures CountIn(ts[i := t], c) + (if In(ts[i], c) then 1 else 0) == CountIn(ts, c) + (if In(t, c) then 1 else 0)
  {
    var n := |ts| - 1;
    if i == n {
      assert ts[i := t][..n] == ts[..n];
    } else {
      assert ts[i := t][..n] == ts[..n][i := t];
      CountUpdate(ts[..n], i, t, c);
    }
  }

  lemma {:induction false} CountNone(ts: seq<Thread>, c: Class)
    requires forall i :: 0 <= i < |ts| ==> !In(ts[i], c)
    ensures CountIn(ts, c) == 0
  {
    if ts != [] {
      CountNone(ts[..|ts| - 1], c);
    }
  }

  lemma {:induction false} CountAtMost(ts: seq<Thread>, c: Class)
    ensures CountIn(ts, c) <= |ts|
  {
    if ts != [] {
      CountAtMost(ts[..|ts| - 1], c);
    }
  }

  lemma {:induction false} CountFull(ts: seq<Thread>, c: Class, i: nat)
    requires CountIn(ts, c) == |ts| && i < |ts|
    ensures In(ts[i], c)
  {
    var n := |ts| - 1;
    CountAtMost(ts[..n], c);
    if i < n {
      CountFull(ts[..n], c, i);
    }
  }

  lemma {:induction false} CountPositive(ts: seq<Thread>, c: Class, i: nat)
    requires i < |ts| && In(ts[i], c)
    ensures CountIn(ts, c) > 0
  {
    if i < |ts| - 1 {
      CountPositive(ts[..|ts| - 1], c, i);
    }
  }

  lemma CountLess(ts: seq<Thread>, c: Class, i: nat)
    requires i < |ts| && !In(ts[i], c)
    ensures CountIn(ts, c) < |ts|
  {
    CountAtMost(ts, c);
    if CountIn(ts, c) == |ts| {
      CountFull(ts, c, i);
    }
  }

  // ---- The invariant

  /** A thread that is before its token to the manager. */
  predicate GoingIn(h: Handler) {
    h.Out? || h.Entered? || h.Counted? || h.Stored? || h.Parked?
  }

  /** Where a thread may be in each phase. */
  predicate TurnOk(t: Thread, phase: Phase, i: nat) {
    match phase
    case Idle => t.h.Out? && !t.turn.Called?
    case Signalling(k) => GoingIn(t.h) && (if i < k then t.turn.Called? else t.turn.Fresh?)
    case Stopping(_) => GoingIn(t.h) && t.turn.Called?
    case Stopped => t.h.Parked? && t.turn.Called?
    case _ => if t.h.Out? then t.turn.Back? else t.turn.Called? && (t.h.Parked? || t.h.Woken? || t.h.Uncounted?)
  }

  /** A thread in the handler is outside of its unsafe scopes and has nothing more to answer; a thread
      that was called and has not entered it yet has the signal coming or deferred, not both. */
  predicate ThreadOk(t: Thread, phase: Phase, i: nat) {
    && PendingCall.Inv(t.p, t.nest)
    && TurnOk(t, phase, i)
    && (!t.h.Out? ==> t.p.depth == 0 && !Owed(t.p) && !t.sent && t.turn.Called?)
    && (t.h.Out? && t.turn.Called? ==> t.sent != Owed(t.p))
    && (t.h.Out? && !t.turn.Called? ==> !t.sent && !Owed(t.p))
  }

  predicate Threads(w: World) {
    forall i: nat :: i < |w.ts| ==> ThreadOk(w.ts[i], w.phase, i)
  }

  /** The tokens in the pipes are exactly those that were written and not read. */
  predicate Tokens(w: World) {
    match w.phase
    case Idle => w.threadsCnt == 0 && w.barrier == 0 && w.event == 0
    case Signalling(k) => w.threadsCnt == k <= |w.ts| && w.event == 0 && w.barrier == CountIn(w.ts, InStop)
    case Stopping(r) => w.threadsCnt == |w.ts| && w.event == 0 && w.barrier + r == CountIn(w.ts, InStop)
    case Stopped => w.threadsCnt == |w.ts| && w.barrier == 0 && w.event == 0
    case Starting(n) => w.threadsCnt == |w.ts| && w.event + CountIn(w.ts, Resumed) == n <= |w.ts| && w.barrier == CountIn(w.ts, Done)
    case Restarting(r) => w.threadsCnt == |w.ts| && w.event + CountIn(w.ts, Resumed) == |w.ts| && w.barrier + r == CountIn(w.ts, Done)
  }

  predicate Holds(h: Handler, idx: nat) {
    (h.Counted? || h.Stored? || h.Parked?) && h.idx == idx
  }

  predicate HasHolder(ts: seq<Thread>, idx: nat) {
    exists i: nat :: i < |ts| && Holds(ts[i].h, idx)
  }

  /** Until the world starts again, the suspended threads hold the first entries, one each. */
  predicate Places(w: World) {
    && |w.ends| == MAX_THREAD_NUM
    && (w.phase.Idle? || w.phase.Signalling? || w.phase.Stopping? || w.phase.Stopped? ==>
        && (forall i: nat :: i < |w.ts| ==> PlaceOk(w.ts[i].h, w.suspended, w.ends, i))
        && (forall i: nat, j: nat :: i < |w.ts| && j < |w.ts| && i != j ==> Apart(w.ts[i].h, w.ts[j].h))
        && (forall x: nat :: x < w.suspended ==> HasHolder(w.ts, x)))
  }

  predicate PlaceOk(h: Handler, suspended: nat, ends: seq<Entry>, i: nat) {
    && (h.Counted? || h.Stored? || h.Parked? ==> h.idx < suspended && h.idx < |ends|)
    && (h.Stored? || h.Parked? ==> h.idx < |ends| && ends[h.idx] == Entry(i, h.frame))
  }

  predicate Apart(h: Handler, g: Handler) {
    (h.Counted? || h.Stored? || h.Parked?) && (g.Counted? || g.Stored? || g.Parked?) ==> h.idx != g.idx
  }

  predicate WorldInv(w: World) {
    && |w.ts| <= MAX_THREAD_NUM
    && Threads(w)
    && w.suspended == CountIn(w.ts, Suspended)
    && Tokens(w)
    && Places(w)
  }

  /** Before anything has run: threads at rest outside of all scopes, nothing sent. */
  predicate Init(w: World) {
    && |w.ts| <= MAX_THREAD_NUM && |w.ends| == MAX_THREAD_NUM
    && w.phase.Idle? && w.threadsCnt == w.suspended == w.barrier == w.event == 0
    && forall i: nat :: i < |w.ts| ==> w.ts[i] == Thread(Start(), [0], false, Out, Fresh)
  }

  lemma InitInv(w: World)
    requires Init(w)
    ensures WorldInv(w)
  {
    CountNone(w.ts, Suspended);
    StartInv();
  }

  // ---- Steps of a thread keep the invariant

  lemma MovedThreadOk(w: World, i: nat, m: Move)
    requires WorldInv(w) && CanMove(w, i, m)
    ensures ThreadOk(MovedThread(w, i, m), w.phase, i)
  {
    hide CountIn, Places, PendingCall.Inv;
    assert ThreadOk(w.ts[i], w.phase, i);
    var t := w.ts[i];
    match m
    case Begins(op) => BeginKeepsInv(t.p, t.nest, op);
    case Continues => ContinueKeepsInv(t.p, t.nest);
    case Calls => CallKeepsInv(t.p, t.nest);
    case Delivered => if t.p.depth > 0 { DeferKeepsInv(t.p, t.nest); }
    case _ =>
  }

  lemma MoveKeepsThreads(w: World, i: nat, m: Move)
    requires WorldInv(w) && CanMove(w, i, m)
    ensures Threads(Moved(w, i, m))
  {
    MovedThreadOk(w, i, m);
    hide ThreadOk, CountIn, Places, Tokens, CanMove, MovedThread;
    var w' := Moved(w, i, m);
    assert w'.ts == w.ts[i := MovedThread(w, i, m)] && w'.phase == w.phase;
  }

  lemma MoveKeepsSuspended(w: World, i: nat, m: Move)
    requires WorldInv(w) && CanMove(w, i, m)
    ensures Moved(w, i, m).suspended == CountIn(Moved(w, i, m).ts, Suspended)
  {
    assert ThreadOk(w.ts[i], w.phase, i);
    CountUpdate(w.ts, i, MovedThread(w, i, m), Suspended);
    hide CountIn, Places, Tokens, PendingCall.Inv, CanBegin, CanContinue, CanCall, Begin, Continue, Call, Deferred, Owed, NestAfterContinue;
  }

  lemma MoveKeepsTokens(w: World, i: nat, m: Move)
    requires WorldInv(w) && CanMove(w, i, m)
    ensures Tokens(Moved(w, i, m))
  {
    var t' := MovedThread(w, i, m);
    assert ThreadOk(w.ts[i], w.phase, i);
    CountUpdate(w.ts, i, t', InStop);
    CountUpdate(w.ts, i, t', Resumed);
    CountUpdate(w.ts, i, t', Done);
    hide CountIn, Places, PendingCall.Inv, CanBegin, CanContinue, CanCall, Begin, Continue, Call, Deferred, Owed, NestAfterContinue;
  }

  // ---- Places

  /** A move that leaves the holdings of its thread alone keeps the places. */
  lemma SamePlace(w: World, i: nat, t: Thread)
    requires Places(w) && i < |w.ts|
    requires PlaceOk(t.h, w.suspended, w.ends, i)
    requires forall x: nat :: Holds(t.h, x) <==> Holds(w.ts[i].h, x)
    ensures Places(w.(ts := w.ts[i := t]))
  {
    var ts := w.ts[i := t];
    if w.phase.Idle? || w.phase.Signalling? || w.phase.Stopping? || w.phase.Stopped? {
      forall x: nat | x < w.suspended ensures HasHolder(ts, x) {
        assert HasHolder(w.ts, x);
        var j: nat :| j < |w.ts| && Holds(w.ts[j].h, x);
        assert Holds(ts[j].h, x);
      }
      forall j: nat, k: nat | j < |ts| && k < |ts| && j != k ensures Apart(ts[j].h, ts[k].h) {
        assert Apart(w.ts[j].h, w.ts[k].h);
        assert t.h.Counted? || t.h.Stored? || t.h.Parked? ==> Holds(t.h, t.h.idx);
      }
    }
  }

  lemma Freestanding(w: World, w': World)
    requires Places(w) && w'.ts == w.ts && w'.phase == w.phase && w'.suspended == w.suspended && w'.ends == w.ends
    ensures Places(w')
  {
  }

  /** The next suspended thread takes the next entry. */
  lemma TakePlace(w: World, i: nat, t: Thread)
    requires Places(w) && i < |w.ts| && w.suspended < |w.ends|
    requires w.phase.Signalling? || w.phase.Stopping?
    requires w.ts[i].h.Entered? && t.h == Counted(w.suspended)
    ensures Places(w.(ts := w.ts[i := t], suspended := w.suspended + 1))
  {
    var ts := w.ts[i := t];
    forall j: nat | j < |ts| ensures PlaceOk(ts[j].h, w.suspended + 1, w.ends, j) {
      assert PlaceOk(w.ts[j].h, w.suspended, w.ends, j);
    }
    forall x: nat | x < w.suspended + 1 ensures HasHolder(ts, x) {
      if x == w.suspended {
        assert Holds(ts[i].h, x);
      } else {
        assert HasHolder(w.ts, x);
        var j: nat :| j < |w.ts| && Holds(w.ts[j].h, x);
        assert Holds(ts[j].h, x);
      }
    }
    forall j: nat, k: nat | j < |ts| && k < |ts| && j != k ensures Apart(ts[j].h, ts[k].h) {
      assert Apart(w.ts[j].h, w.ts[k].h);
      assert PlaceOk(w.ts[j].h, w.suspended, w.ends, j) && PlaceOk(w.ts[k].h, w.suspended, w.ends, k);
    }
  }

  /** Writing one's own entry leaves the others' alone. */
  lemma FillPlace(w: World, i: nat, t: Thread, frame: nat)
    requires Places(w) && i < |w.ts| && (w.phase.Signalling? || w.phase.Stopping?)
    requires w.ts[i].h.Counted? && w.ts[i].h.idx < |w.ends| && t.h == Stored(w.ts[i].h.idx, frame)
    ensures Places(w.(ts := w.ts[i := t], ends := w.ends[w.ts[i].h.idx := Entry(i, frame)]))
  {
    var x := w.ts[i].h.idx;
    var ends := w.ends[x := Entry(i, frame)];
    var u := w.(ends := ends);
    forall j: nat | j < |w.ts| ensures PlaceOk(u.ts[j].h, u.suspended, ends, j) {
      assert PlaceOk(w.ts[j].h, w.suspended, w.ends, j);
      assert j != i ==> Apart(w.ts[j].h, w.ts[i].h);
    }
    assert PlaceOk(t.h, u.suspended, ends, i) by {
      assert PlaceOk(w.ts[i].h, w.suspended, w.ends, i);
    }
    SamePlace(u, i, t);
  }

  lemma MoveKeepsPlaces(w: World, i: nat, m: Move)
    requires WorldInv(w) && CanMove(w, i, m)
    ensures Places(Moved(w, i, m))
  {
    var t, t', w' := w.ts[i], MovedThread(w, i, m), Moved(w, i, m);
    assert ThreadOk(t, w.phase, i);
    hide CountIn, PendingCall.Inv, CanBegin, CanContinue, CanCall, Begin, Continue, Call, Deferred, Owed, NestAfterContinue;
    if w.phase.Starting? || w.phase.Restarting? {
      assert |w'.ends| == MAX_THREAD_NUM;
    } else {
      assert PlaceOk(t.h, w.suspended, w.ends, i);
      hide Places;
      if m.Count? {
        CountLess(w.ts, Suspended, i);
        TakePlace(w, i, t');
      } else if m.Store? {
        FillPlace(w, i, t', m.frame);
      } else if m.Wake? || m.Uncount? || m.NotifyStart? {
        assert false;
      } else {
        SamePlace(w, i, t');
        Freestanding(w.(ts := w.ts[i := t']), w');
      }
    }
  }

  lemma MoveKeepsInv(w: World, i: nat, m: Move)
    requires WorldInv(w) && CanMove(w, i, m)
    ensures WorldInv(Moved(w, i, m))
  {
    MoveKeepsThreads(w, i, m);
    MoveKeepsSuspended(w, i, m);
    MoveKeepsTokens(w, i, m);
    MoveKeepsPlaces(w, i, m);
  }

  // ---- Steps of the manager keep the invariant

  lemma PhaseStart(w: World)
    requires WorldInv(w) && w.phase.Idle?
    ensures w.suspended == 0
  {
    forall i: nat | i < |w.ts| ensures !In(w.ts[i], Suspended) {
      assert ThreadOk(w.ts[i], w.phase, i);
    }
    CountNone(w.ts, Suspended);
  }

  lemma RequestKeepsInv(w: World)
    requires WorldInv(w) && w.phase.Idle?
    ensures WorldInv(Ordered(w, Request))
  {
    PhaseStart(w);
    var w' := Ordered(w, Request);
    hide PendingCall.Inv, Owed, CountIn;
    forall i: nat | i < |w.ts| ensures ThreadOk(w'.ts[i], w'.phase, i) && w'.ts[i].h.Out? {
      assert ThreadOk(w.ts[i], w.phase, i);
    }
    CountNone(w'.ts, Suspended);
    CountNone(w'.ts, InStop);
  }

  lemma SendKeepsInv(w: World)
    requires WorldInv(w) && CanOrder(w, Send)
    ensures WorldInv(Ordered(w, Send))
  {
    var k, w' := w.phase.k, Ordered(w, Send);
    hide PendingCall.Inv, Owed, CountIn;
    assert ThreadOk(w.ts[k], w.phase, k);
    forall i: nat | i < |w.ts| ensures ThreadOk(w'.ts[i], w'.phase, i) {
      assert ThreadOk(w.ts[i], w.phase, i);
    }
    CountUpdate(w.ts, k, w'.ts[k], Suspended);
    CountUpdate(w.ts, k, w'.ts[k], InStop);
    hide Threads, ThreadOk;
    SamePlace(w, k, w'.ts[k]);
  }

  /** All tokens read: all threads have parked. */
  lemma StopEndsKeepsInv(w: World)
    requires WorldInv(w) && CanOrder(w, StopEnds)
    ensures WorldInv(Ordered(w, StopEnds))
  {
    hide PendingCall.Inv, Owed;
    CountAtMost(w.ts, InStop);
    assert CountIn(w.ts, InStop) == |w.ts|;
    forall i: nat | i < |w.ts| ensures ThreadOk(w.ts[i], Stopped, i) {
      assert ThreadOk(w.ts[i], w.phase, i);
      CountFull(w.ts, InStop, i);
    }
    hide CountIn;
  }

  lemma ResumeKeepsInv(w: World)
    requires WorldInv(w) && CanOrder(w, Resume)
    ensures WorldInv(Ordered(w, Resume))
  {
    hide PendingCall.Inv, Owed, CountIn;
    forall i: nat | i < |w.ts| ensures ThreadOk(w.ts[i], Starting(0), i) && w.ts[i].h.Parked? {
      assert ThreadOk(w.ts[i], w.phase, i);
    }
    CountNone(w.ts, Resumed);
    CountNone(w.ts, Done);
  }

  /** All tokens of the second half read: all threads have left the handler. */
  lemma StartEndsKeepsInv(w: World)
    requires WorldInv(w) && CanOrder(w, StartEnds)
    ensures WorldInv(Ordered(w, StartEnds)) && Ordered(w, StartEnds).suspended == 0
  {
    hide PendingCall.Inv, Owed;
    DoneAreResumed(w.ts);
    CountAtMost(w.ts, Resumed);
    CountAtMost(w.ts, Done);
    forall i: nat | i < |w.ts| ensures ThreadOk(w.ts[i], Idle, i) && w.ts[i].h.Out? {
      assert ThreadOk(w.ts[i], w.phase, i);
      CountFull(w.ts, Done, i);
    }
    CountNone(w.ts, Suspended);
    hide CountIn;
  }

  lemma {:induction false} DoneAreResumed(ts: seq<Thread>)
    ensures CountIn(ts, Done) <= CountIn(ts, Resumed)
  {
    if ts != [] {
      DoneAreResumed(ts[..|ts| - 1]);
    }
  }

  lemma OtherOrdersKeepInv(w: World, o: Order)
    requires WorldInv(w) && CanOrder(w, o)
    requires o.StopBegins? || o.ReadStop? || o.Write? || o.Written? || o.ReadStart?
    ensures WorldInv(Ordered(w, o))
  {
    hide PendingCall.Inv, Owed, CountIn, Places;
    var w' := Ordered(w, o);
    CountAtMost(w.ts, Resumed);
    CountAtMost(w.ts, InStop);
    CountAtMost(w.ts, Done);
    forall i: nat | i < |w.ts| ensures ThreadOk(w.ts[i], w'.phase, i) {
      assert ThreadOk(w.ts[i], w.phase, i);
    }
    PlacesCarryOver(w, w');
  }

  lemma PlacesCarryOver(w: World, w': World)
    requires Places(w) && w'.ts == w.ts && w'.suspended == w.suspended && w'.ends == w.ends
    requires w.phase.Starting? || w.phase.Restarting? ==> w'.phase.Starting? || w'.phase.Restarting?
    ensures Places(w')
  {
  }

  lemma StepKeepsInv(w: World, e: StopTheWorld.Step)
    requires WorldInv(w) && StopTheWorld.Enabled(w, e)
    ensures WorldInv(StopTheWorld.Next(w, e))
  {
    hide WorldInv, CanMove, CanOrder, Moved, Ordered;
    match e {
      case ByThread(i, m) => MoveKeepsInv(w, i, m);
      case ByManager(o) => OrderKeepsInv(w, o);
    }
  }

  lemma OrderKeepsInv(w: World, o: Order)
    requires WorldInv(w) && CanOrder(w, o)
    ensures WorldInv(Ordered(w, o))
  {
    OrderPhase(w, o);
    hide WorldInv, CanOrder, Ordered;
    match o
    case Request => RequestKeepsInv(w);
    case Send => SendKeepsInv(w);
    case StopEnds => StopEndsKeepsInv(w);
    case Resume => ResumeKeepsInv(w);
    case StartEnds => StartEndsKeepsInv(w);
    case _ => OtherOrdersKeepInv(w, o);
  }

  lemma OrderPhase(w: World, o: Order)
    requires CanOrder(w, o)
    ensures o.Request? ==> w.phase.Idle?
  {
  }

  // ---- Whole runs

  predicate Run(ws: seq<World>, es: seq<StopTheWorld.Step>) {
    && |ws| == |es| + 1 && Init(ws[0])
    && forall i :: 0 <= i < |es| ==> StopTheWorld.Enabled(ws[i], es[i]) && ws[i + 1] == StopTheWorld.Next(ws[i], es[i])
  }

  lemma {:induction false} RunKeepsInv(ws: seq<World>, es: seq<StopTheWorld.Step>, i: nat)
    requires Run(ws, es) && i < |ws|
    ensures WorldInv(ws[i])
  {
    hide WorldInv, StopTheWorld.Enabled, StopTheWorld.Next;
    if i == 0 {
      InitInv(ws[0]);
    } else {
      RunKeepsInv(ws, es, i - 1);
      StepKeepsInv(ws[i - 1], es[i - 1]);
    }
  }

  /** When wait_for_world_stop has returned, in any round of any run, every thread is parked outside of
      its unsafe scopes, and no thread can take any step, its own or the handler's. */
  lemma StoppedWorldIsStill(ws: seq<World>, es: seq<StopTheWorld.Step>, n: nat, i: nat)
    requires Run(ws, es) && n < |ws| && ws[n].phase.Stopped? && i < |ws[n].ts|
    ensures ws[n].ts[i].h.Parked? && ws[n].ts[i].p.depth == 0
    ensures |ws[n].ts[i].nest| > 0 && Innermost(ws[n].ts[i].nest) == 0
    ensures forall m :: !CanMove(ws[n], i, m)
  {
    RunKeepsInv(ws, es, n);
    assert ThreadOk(ws[n].ts[i], Stopped, i);
  }

  /** ... so the threads stay exactly as they are until m_event.notify begins. */
  lemma StoppedUntilNotified(ws: seq<World>, es: seq<StopTheWorld.Step>, n: nat)
    requires Run(ws, es) && n < |es| && ws[n].phase.Stopped?
    ensures es[n] == ByManager(Resume) && ws[n + 1].ts == ws[n].ts && ws[n + 1].ends == ws[n].ends
  {
    if es[n].ByThread? {
      StoppedWorldIsStill(ws, es, n, es[n].i);
    }
  }

  /** A thread anywhere in the handler, in any phase, is outside of its unsafe scopes. */
  lemma NeverStoppedInUnsafeScope(ws: seq<World>, es: seq<StopTheWorld.Step>, n: nat, i: nat)
    requires Run(ws, es) && n < |ws| && i < |ws[n].ts| && !ws[n].ts[i].h.Out?
    ensures ws[n].ts[i].p.depth == 0 && |ws[n].ts[i].nest| > 0 && Innermost(ws[n].ts[i].nest) == 0
    ensures forall m :: IsMutatorMove(m) ==> !CanMove(ws[n], i, m)
  {
    RunKeepsInv(ws, es, n);
    assert ThreadOk(ws[n].ts[i], ws[n].phase, i);
  }

  /** When wait_for_world_start has returned, nobody is suspended, both pipes are empty and no thread
      has anything left from the round. */
  lemma StartedWorldIsClean(ws: seq<World>, es: seq<StopTheWorld.Step>, n: nat)
    requires Run(ws, es) && n < |ws| && ws[n].phase.Idle?
    ensures ws[n].suspended == 0 && ws[n].barrier == 0 && ws[n].event == 0 && ws[n].threadsCnt == 0
    ensures forall i: nat :: i < |ws[n].ts| ==> ws[n].ts[i].h.Out? && !ws[n].ts[i].sent && !Owed(ws[n].ts[i].p)
  {
    RunKeepsInv(ws, es, n);
    PhaseStart(ws[n]);
    forall i: nat | i < |ws[n].ts| ensures ws[n].ts[i].h.Out? && !ws[n].ts[i].sent && !Owed(ws[n].ts[i].p) {
      assert ThreadOk(ws[n].ts[i], Idle, i);
    }
  }

  /** `frame` is what thread `i` stored in the last of its steps that stored one. */
  predicate LastStored(es: seq<StopTheWorld.Step>, n: nat, i: nat, frame: nat)
    requires n <= |es|
  {
    exists k :: 0 <= k < n && es[k] == ByThread(i, Store(frame)) && NoneStored(es, k + 1, n, i)
  }

  predicate NoneStored(es: seq<StopTheWorld.Step>, from: nat, n: nat, i: nat)
    requires n <= |es|
  {
    forall j :: from <= j < n ==> !(es[j].ByThread? && es[j].i == i && es[j].m.Store?)
  }

  /** A thread that has stored a frame and not left its place holds the last one it stored. */
  lemma FrameNext(w: World, e: StopTheWorld.Step, i: nat)
    requires StopTheWorld.Enabled(w, e) && i < |w.ts|
    ensures var w' := StopTheWorld.Next(w, e); i < |w'.ts| && (w'.ts[i].h.Stored? || w'.ts[i].h.Parked? ==>
      e == ByThread(i, Store(w'.ts[i].h.frame)) ||
      ((w.ts[i].h.Stored? || w.ts[i].h.Parked?) && w'.ts[i].h.frame == w.ts[i].h.frame && !(e.ByThread? && e.i == i && e.m.Store?)))
  {
  }

  lemma {:induction false} HoldsLastStored(ws: seq<World>, es: seq<StopTheWorld.Step>, n: nat, i: nat)
    requires Run(ws, es) && n <= |es| && i < |ws[n].ts| && (ws[n].ts[i].h.Stored? || ws[n].ts[i].h.Parked?)
    ensures LastStored(es, n, i, ws[n].ts[i].h.frame)
  {
    hide StopTheWorld.Enabled, StopTheWorld.Next;
    if n > 0 {
      SameThreads(ws, es, n - 1);
      FrameNext(ws[n - 1], es[n - 1], i);
      var frame := ws[n].ts[i].h.frame;
      if es[n - 1] == ByThread(i, Store(frame)) {
        assert NoneStored(es, n, n, i);
      } else {
        HoldsLastStored(ws, es, n - 1, i);
        var k :| 0 <= k < n - 1 && es[k] == ByThread(i, Store(frame)) && NoneStored(es, k + 1, n - 1, i);
        assert NoneStored(es, k + 1, n, i);
      }
    }
  }

  lemma SameThreads(ws: seq<World>, es: seq<StopTheWorld.Step>, n: nat)
    requires Run(ws, es) && n < |es|
    ensures |ws| == |es| + 1 && StopTheWorld.Enabled(ws[n], es[n]) && ws[n + 1] == StopTheWorld.Next(ws[n], es[n])
    ensures |ws[n].ts| == |ws[n + 1].ts|
  {
  }

  /** While the world is stopped the manager finds for every thread the frame that thread recorded. */
  lemma StackEndsFound(ws: seq<World>, es: seq<StopTheWorld.Step>, n: nat, i: nat)
    requires Run(ws, es) && n < |ws| && ws[n].phase.Stopped? && i < |ws[n].ts|
    ensures var w := ws[n];
      && w.suspended <= |w.ends| && w.ts[i].h.Parked?
      && var x := FindStackEnd(w.ends, 0, w.suspended, i);
         x < w.suspended && w.ends[x] == Entry(i, w.ts[i].h.frame)
    ensures GetThreadStackEnd(ws[n].ends, ws[n].suspended, i) == Frame(ws[n].ts[i].h.frame)
    ensures n <= |es| && LastStored(es, n, i, ws[n].ts[i].h.frame)
  {
    StoppedWorldIsStill(ws, es, n, i);
    HoldsLastStored(ws, es, n, i);
    var w := ws[n];
    RunKeepsInv(ws, es, n);
    CountAtMost(w.ts, Suspended);
    assert ThreadOk(w.ts[i], Stopped, i);
    assert PlaceOk(w.ts[i].h, w.suspended, w.ends, i);
    var x := FindStackEnd(w.ends, 0, w.suspended, i);
    assert HasHolder(w.ts, x);
    var j: nat :| j < |w.ts| && Holds(w.ts[j].h, x);
    assert ThreadOk(w.ts[j], Stopped, j) && PlaceOk(w.ts[j].h, w.suspended, w.ends, j);
  }

  // ---- The manager never waits for a token nobody can write

  lemma {:induction false} SomeoneNot(ts: seq<Thread>, c: Class) returns (i: nat)
    requires CountIn(ts, c) < |ts|
    ensures i < |ts| && !In(ts[i], c)
  {
    if In(ts[|ts| - 1], c) {
      i := SomeoneNot(ts[..|ts| - 1], c);
    } else {
      i := |ts| - 1;
    }
  }
}
