/** Both waits of the handshake can always be completed: how many steps every thread is away from the
    token the manager waits for, and the runs that follow from it. */
module WorldProgress {
  import opened PendingCall
  import opened StopTheWorld
  import opened WorldStop

  // ---- Towards the first token

  /** Steps until the deferred call, for a thread that ends its operation and leaves its unsafe scopes. */
  function StepsToCall(p: State): nat {
    match p.pc
    case Rest => 2 * p.depth + 3
    case Entering(d) => 2 * d + 6
    case Leaving(d) => if d > 0 then 2 * d + 2 else 3
    case Check => 3
    case Checked(_) => 2
    case Cleared(_) => 1
    case SafeAt(_) => 7
    case SafeSaving(_, _) => 6
    case SafePushed(_) => 5
    case SafeDropping => 4
    case UnsafeAt(_) => 3
    case UnsafePopping(_) => 2 * p.depth + 4
  }

  /** Steps until the thread's token is in the pipe, the signal's delivery and the handler included. */
  function StepsToToken(t: Thread): nat {
    match t.h
    case Out =>
      if t.sent then 4 + (if t.p.depth > 0 then StepsToCall(t.p) else 0) else 3 + StepsToCall(t.p)
    case Entered => 3
    case Counted(_) => 2
    case Stored(_, _) => 1
    case _ => 0
  }

  /** The step that brings the thread nearer: it leaves scopes and never enters one. */
  function Towards(t: Thread): Move {
    match t.h
    case Out =>
      if t.sent then Delivered
      else if t.p.pc == Cleared(true) then Move.Calls
      else if t.p.pc.Rest? then Move.Begins(LeavePending)
      else Move.Continues
    case Entered => Count
    case Counted(_) => Store(0)
    case _ => NotifyStop
  }

  lemma OwedMovesCloser(p: State, nest: Nesting)
    requires PendingCall.Inv(p, nest) && Owed(p) && p.pc != Cleared(true)
    ensures p.pc.Rest? ==> CanBegin(p, LeavePending) && StepsToCall(Begin(p, LeavePending)) + 1 == StepsToCall(p)
    ensures !p.pc.Rest? ==> CanContinue(p) && StepsToCall(Continue(p)) + 1 == StepsToCall(p)
  {
  }

  /** Before the first token, the thread can take that step and is one step nearer afterwards. */
  lemma MovesCloser(w: World, i: nat)
    requires WorldInv(w) && w.phase.Stopping? && i < |w.ts| && !w.ts[i].h.Parked?
    ensures CanMove(w, i, Towards(w.ts[i]))
    ensures StepsToToken(MovedThread(w, i, Towards(w.ts[i]))) + 1 == StepsToToken(w.ts[i])
  {
    var t := w.ts[i];
    assert ThreadOk(t, w.phase, i);
    if t.h.Out? && !t.sent && t.p.pc != Cleared(true) {
      OwedMovesCloser(t.p, t.nest);
    }
    if t.h.Counted? {
      assert PlaceOk(t.h, w.suspended, w.ends, i);
    }
    hide PendingCall.Inv, Tokens, CountIn, Places;
  }

  predicate Closer(w: World, i: nat)
    requires i < |w.ts|
  {
    && CanMove(w, i, Towards(w.ts[i])) && !w.ts[i].h.Parked?
    && StepsToToken(MovedThread(w, i, Towards(w.ts[i]))) < StepsToToken(w.ts[i])
  }

  /** In the first wait, an empty pipe means that some thread can get nearer to its token. */
  lemma StopNotStuck(ws: seq<World>, es: seq<StopTheWorld.Step>, n: nat)
    requires WorldStop.Run(ws, es) && n < |ws| && ws[n].phase.Stopping? && ws[n].phase.read < ws[n].threadsCnt && ws[n].barrier == 0
    ensures exists i: nat :: i < |ws[n].ts| && Closer(ws[n], i)
  {
    var w := ws[n];
    WorldStop.RunKeepsInv(ws, es, n);
    var i := SomeoneNot(w.ts, InStop);
    MovesCloser(w, i);
    assert Closer(w, i);
  }

  // ---- Towards the second token

  function StepsToLeave(t: Thread): nat {
    match t.h
    case Parked(_, _) => 3
    case Woken => 2
    case Uncounted => 1
    case _ => 0
  }

  /** In the second wait, an empty pipe means that some thread can take its next step of the handler. */
  lemma StartNotStuck(w: World) returns (i: nat, m: Move)
    requires WorldInv(w) && w.phase.Restarting? && w.phase.read < w.threadsCnt && w.barrier == 0
    ensures CanMove(w, i, m) && (m.Wake? || m.Uncount? || m.NotifyStart?)
    ensures StepsToLeave(MovedThread(w, i, m)) + 1 == StepsToLeave(w.ts[i])
  {
    if w.event == 0 {
      i := SomeoneNot(w.ts, Done);
      CountFull(w.ts, Resumed, i);
    } else {
      i := SomeoneNot(w.ts, Resumed);
    }
    var t := w.ts[i];
    assert ThreadOk(t, w.phase, i);
    if t.h.Woken? {
      CountPositive(w.ts, Suspended, i);
    }
    m := if t.h.Woken? then Uncount else if t.h.Uncounted? then NotifyStart else Wake;
  }

  // ---- Runs to the end of a round

  /** Taking the steps `es` one after the other leads from `w` to `w'`. */
  predicate Path(w: World, es: seq<StopTheWorld.Step>, w': World)
    decreases |es|
  {
    if es == [] then w' == w
    else StopTheWorld.Enabled(w, es[0]) && Path(StopTheWorld.Next(w, es[0]), es[1..], w')
  }

  function StepsOf(t: Thread, stop: bool): nat {
    if stop then StepsToToken(t) else StepsToLeave(t)
  }

  function Sum(ts: seq<Thread>, stop: bool): nat {
    if ts == [] then 0 else Sum(ts[..|ts| - 1], stop) + StepsOf(ts[|ts| - 1], stop)
  }

  lemma {:induction false} SumUpdate(ts: seq<Thread>, i: nat, t: Thread, stop: bool)
    requires i < |ts|
    ensures Sum(ts[i := t], stop) + StepsOf(ts[i], stop) == Sum(ts, stop) + StepsOf(t, stop)
  {
    hide StepsOf;
    var n := |ts| - 1;
    if i == n {
      assert ts[i := t][..n] == ts[..n];
    } else {
      assert ts[i := t][..n] == ts[..n][i := t];
      SumUpdate(ts[..n], i, t, stop);
    }
  }

  /** How far the round is from its end: the phases to come, then the work left in this one. */
  function PhasesLeft(w: World): nat {
    match w.phase
    case Signalling(_) => 5
    case Stopping(_) => 4
    case Stopped => 3
    case Starting(_) => 2
    case Restarting(_) => 1
    case Idle => 0
  }

  function Less(n: nat, k: nat): nat {
    if k < n then n - k else 0
  }

  function WorkLeft(w: World): nat {
    match w.phase
    case Signalling(k) => Less(|w.ts|, k)
    case Stopping(r) => Sum(w.ts, true) + Less(|w.ts|, r)
    case Starting(n) => Less(|w.ts|, n)
    case Restarting(r) => Sum(w.ts, false) + Less(|w.ts|, r)
    case _ => 0
  }

  predicate Progresses(w: World, e: StopTheWorld.Step) {
    && StopTheWorld.Enabled(w, e)
    && var w' := StopTheWorld.Next(w, e);
       PhasesLeft(w') < PhasesLeft(w) || (PhasesLeft(w') == PhasesLeft(w) && WorkLeft(w') < WorkLeft(w))
  }

  /** A thread's step that brings it nearer brings the round nearer to its end. */
  lemma MoveProgresses(w: World, i: nat, m: Move, stop: bool)
    requires CanMove(w, i, m) && (if stop then w.phase.Stopping? else w.phase.Restarting?)
    requires StepsOf(MovedThread(w, i, m), stop) < StepsOf(w.ts[i], stop)
    ensures Progresses(w, ByThread(i, m))
  {
    SumUpdate(w.ts, i, MovedThread(w, i, m), stop);
    assert Moved(w, i, m).ts == w.ts[i := MovedThread(w, i, m)] && Moved(w, i, m).phase == w.phase;
    hide StepsOf, CanMove, MovedThread, Moved, Sum;
  }

  /** The first wait: read a token, or bring a thread nearer to one. */
  lemma StopProgresses(w: World) returns (e: StopTheWorld.Step)
    requires WorldInv(w) && w.phase.Stopping?
    ensures Progresses(w, e)
  {
    CountAtMost(w.ts, InStop);
    if w.barrier > 0 {
      e := ByManager(ReadStop(1));
    } else if w.phase.read == |w.ts| {
      e := ByManager(StopEnds);
    } else {
      var i := SomeoneNot(w.ts, InStop);
      MovesCloser(w, i);
      MoveProgresses(w, i, Towards(w.ts[i]), true);
      e := ByThread(i, Towards(w.ts[i]));
    }
  }

  /** The second wait: likewise. */
  lemma StartProgresses(w: World) returns (e: StopTheWorld.Step)
    requires WorldInv(w) && w.phase.Restarting?
    ensures Progresses(w, e)
  {
    CountAtMost(w.ts, Done);
    if w.barrier > 0 {
      e := ByManager(ReadStart(1));
    } else if w.phase.read == |w.ts| {
      e := ByManager(StartEnds);
    } else {
      var i, m := StartNotStuck(w);
      MoveProgresses(w, i, m, false);
      e := ByThread(i, m);
    }
  }

  lemma OtherProgresses(w: World) returns (e: StopTheWorld.Step)
    requires WorldInv(w) && (w.phase.Signalling? || w.phase.Stopped? || w.phase.Starting?)
    ensures Progresses(w, e)
  {
    hide Threads, Places, CountIn, Sum;
    match w.phase
    case Signalling(k) => e := ByManager(if k < |w.ts| then Send else StopBegins);
    case Stopped => e := ByManager(Resume);
    case Starting(n) => e := ByManager(if n < |w.ts| then Write(1) else Written);
  }

  /** Wherever the manager and the threads are in a round, there is a run from there on in which both waits
      return and the round ends. */
  lemma RoundCanFinish(w: World) returns (es: seq<StopTheWorld.Step>, w': World)
    requires WorldInv(w)
    ensures Path(w, es, w') && w'.phase.Idle? && WorldInv(w')
    decreases PhasesLeft(w), WorkLeft(w)
  {
    hide WorldInv, StopTheWorld.Enabled, StopTheWorld.Next, WorkLeft;
    if w.phase.Idle? {
      return [], w;
    }
    var e;
    if w.phase.Stopping? {
      e := StopProgresses(w);
    } else if w.phase.Restarting? {
      e := StartProgresses(w);
    } else {
      e := OtherProgresses(w);
    }
    StepKeepsInv(w, e);
    var rest;
    rest, w' := RoundCanFinish(StopTheWorld.Next(w, e));
    es := [e] + rest;
    assert es[1..] == rest;
  }

  /** In particular no reachable world is stuck: whatever has happened in a run, its round can be finished. */
  lemma EveryRunCanFinish(ws: seq<World>, es: seq<StopTheWorld.Step>, n: nat)
    requires WorldStop.Run(ws, es) && n < |ws|
    ensures exists fs, w' :: Path(ws[n], fs, w') && w'.phase.Idle?
  {
    WorldStop.RunKeepsInv(ws, es, n);
    var fs, w' := RoundCanFinish(ws[n]);
  }
}
