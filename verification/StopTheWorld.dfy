/** The stop-the-world handshake: a manager that signals every other thread and counts tokens in
    two pipes, against threads that may be anywhere in their signal-deferral code. */
module StopTheWorld {
  import opened PendingCall

  const MAX_THREAD_NUM: nat := 128

  const BUF_SIZE: nat := 64

  /** Where a thread is in stw_manager::sighandler; `Out` is not in it. */
  datatype Handler =
    | Out
    | Entered
    | Counted(idx: nat)
    | Stored(idx: nat, frame: nat)
    | Parked(idx: nat, frame: nat)
    | Woken
    | Uncounted

  /** History: where the thread is in the current round. */
  datatype Turn = Fresh | Called | Back

  /** `sent` is a signal on its way to the thread; `nest` is the nesting of its scopes. */
  datatype Thread = Thread(p: State, nest: Nesting, sent: bool, h: Handler, turn: Turn)

  /** Where the manager is: between rounds, sending signals, in wait_for_world_stop, between the two
      waits, in m_event.notify, and in the second half of wait_for_world_start. */
  datatype Phase =
    | Idle
    | Signalling(k: nat)
    | Stopping(read: nat)
    | Stopped
    | Starting(written: nat)
    | Restarting(read: nat)

  datatype Entry = Entry(id: nat, frame: nat)

  /** `barrier` and `event` are the bytes in the two pipes. */
  datatype World = World(ts: seq<Thread>, phase: Phase, threadsCnt: nat, suspended: nat,
                         barrier: nat, event: nat, ends: seq<Entry>)

  function Min(a: nat, b: nat): nat {
    if a < b then a else b
  }

  // ---- Steps of a thread

  datatype Move =
    | Begins(op: Op)
    | Continues
    | Calls
    | Delivered
    | Count
    | Store(frame: nat)
    | NotifyStop
    | Wake
    | Uncount
    | NotifyStart

  predicate CanMove(w: World, i: nat, m: Move) {
    i < |w.ts| &&
    var t := w.ts[i];
    match m
    case Begins(op) => t.h.Out? && CanBegin(t.p, op) && Nested(t.p, op)
    case Continues => t.h.Out? && CanContinue(t.p) && |t.nest| > 0
    case Calls => t.h.Out? && CanCall(t.p)
    case Delivered => t.sent
    case Count => t.h.Entered?
    case Store(_) => t.h.Counted? && t.h.idx < |w.ends|
    case NotifyStop => t.h.Stored?
    case Wake => t.h.Parked? && w.event > 0
    case Uncount => t.h.Woken? && w.suspended > 0
    case NotifyStart => t.h.Uncounted?
  }

  /** The moves of the thread's own program, as opposed to those of the handler. */
  predicate IsMutatorMove(m: Move) {
    m.Begins? || m.Continues? || m.Calls?
  }

  function MovedThread(w: World, i: nat, m: Move): Thread
    requires CanMove(w, i, m)
  {
    var t := w.ts[i];
    match m
    case Begins(op) => t.(p := Begin(t.p, op))
    case Continues => t.(p := Continue(t.p), nest := NestAfterContinue(t.nest, t.p))
    case Calls => t.(p := Call(t.p), h := Entered)
    case Delivered =>
      if t.p.depth > 0 then t.(sent := false, p := Deferred(t.p)) else t.(sent := false, h := Entered)
    case Count => t.(h := Counted(w.suspended))
    case Store(frame) => t.(h := Stored(t.h.idx, frame))
    case NotifyStop => t.(h := Parked(t.h.idx, t.h.frame))
    case Wake => t.(h := Woken)
    case Uncount => t.(h := Uncounted)
    case NotifyStart => t.(h := Out, turn := Back)
  }

  function Moved(w: World, i: nat, m: Move): World
    requires CanMove(w, i, m)
  {
    var t := w.ts[i];
    var w' := w.(ts := w.ts[i := MovedThread(w, i, m)]);
    match m
    case Count => w'.(suspended := w.suspended + 1)
    case Store(frame) => w'.(ends := w.ends[t.h.idx := Entry(i, frame)])
    case NotifyStop => w'.(barrier := w.barrier + 1)
    case Wake => w'.(event := w.event - 1)
    case Uncount => w'.(suspended := w.suspended - 1)
    case NotifyStart => w'.(barrier := w.barrier + 1)
    case _ => w'
  }

  // ---- Steps of the manager

  datatype Order = Request | Send | StopBegins | ReadStop(n: nat) | StopEnds | Resume | Write(n: nat) | Written | ReadStart(n: nat) | StartEnds

  predicate CanOrder(w: World, o: Order) {
    match o
    case Request => w.phase.Idle?
    case Send => w.phase.Signalling? && w.phase.k < |w.ts|
    case StopBegins => w.phase == Signalling(|w.ts|)
    case ReadStop(n) => w.phase.Stopping? && w.phase.read < w.threadsCnt &&
      0 < n <= Min(Min(w.threadsCnt - w.phase.read, BUF_SIZE), w.barrier)
    case StopEnds => w.phase.Stopping? && w.phase.read >= w.threadsCnt
    case Resume => w.phase.Stopped?
    case Write(n) => w.phase.Starting? && w.phase.written < w.threadsCnt &&
      0 < n <= Min(w.threadsCnt - w.phase.written, BUF_SIZE)
    case Written => w.phase.Starting? && w.phase.written >= w.threadsCnt
    case ReadStart(n) => w.phase.Restarting? && w.phase.read < w.threadsCnt &&
      0 < n <= Min(Min(w.threadsCnt - w.phase.read, BUF_SIZE), w.barrier)
    case StartEnds => w.phase.Restarting? && w.phase.read >= w.threadsCnt
  }

  /** A new round: history only. */
  function Freshened(ts: seq<Thread>): (r: seq<Thread>)
    ensures |r| == |ts| && forall i :: 0 <= i < |ts| ==> r[i] == ts[i].(turn := Fresh)
  {
    seq(|ts|, i requires 0 <= i < |ts| => ts[i].(turn := Fresh))
  }

  function Ordered(w: World, o: Order): World
    requires CanOrder(w, o)
  {
    match o
    case Request => w.(phase := Signalling(0), ts := Freshened(w.ts))
    case Send =>
      var k := w.phase.k;
      w.(phase := Signalling(k + 1), threadsCnt := w.threadsCnt + 1, ts := w.ts[k := w.ts[k].(sent := true, turn := Called)])
    case StopBegins => w.(phase := Stopping(0))
    case ReadStop(n) => w.(phase := Stopping(w.phase.read + n), barrier := w.barrier - n)
    case StopEnds => w.(phase := Stopped)
    case Resume => w.(phase := Starting(0))
    case Write(n) => w.(phase := Starting(w.phase.written + n), event := w.event + n)
    case Written => w.(phase := Restarting(0))
    case ReadStart(n) => w.(phase := Restarting(w.phase.read + n), barrier := w.barrier - n)
    case StartEnds => w.(phase := Idle, threadsCnt := 0)
  }

  datatype Step = ByThread(i: nat, m: Move) | ByManager(o: Order)

  predicate Enabled(w: World, e: Step) {
    match e
    case ByThread(i, m) => CanMove(w, i, m)
    case ByManager(o) => CanOrder(w, o)
  }

  function Next(w: World, e: Step): World
    requires Enabled(w, e)
  {
    match e
    case ByThread(i, m) => Moved(w, i, m)
    case ByManager(o) => Ordered(w, o)
  }

  /** stw_manager::get_thread_stack_end: the first of the suspended entries with this id. */
  function FindStackEnd(ends: seq<Entry>, from: nat, cnt: nat, id: nat): (r: nat)
    requires from <= cnt <= |ends|
    ensures from <= r <= cnt && (r < cnt ==> ends[r].id == id)
    ensures forall j :: from <= j < r ==> ends[j].id != id
    decreases cnt - from
  {
    if from == cnt || ends[from].id == id then from else FindStackEnd(ends, from + 1, cnt, id)
  }

  datatype Found = Null | Frame(frame: nat)

  /** What the search's result is turned into: it is compared with the end of the whole array. */
  function GetThreadStackEnd(ends: seq<Entry>, cnt: nat, id: nat): Found
    requires cnt <= |ends|
  {
    var it := FindStackEnd(ends, 0, cnt, id);
    if it != |ends| then Frame(ends[it].frame) else Null
  }

  /** For a thread that is not suspended the answer is null only if all entries are in use; otherwise
      it is whatever the first unused entry holds. */
  lemma MissingThread(ends: seq<Entry>, cnt: nat, id: nat)
    requires cnt <= |ends| && forall j :: 0 <= j < cnt ==> ends[j].id != id
    ensures GetThreadStackEnd(ends, cnt, id).Null? <==> cnt == |ends|
    ensures cnt < |ends| ==> GetThreadStackEnd(ends, cnt, id) == Frame(ends[cnt].frame)
  {
    var it := FindStackEnd(ends, 0, cnt, id);
    if it < cnt {
      assert false;
    }
  }
}
