/** The deferral of a signal handler, with a signal allowed between any two atomic steps. */
module PendingCall {

  const DEPTH_STACK_SIZE: nat := 8

  datatype Op = EnterPending | LeavePending | EnterSafe | LeaveSafe

  /** Where a thread stands inside an operation; `Rest` is outside of all of them. */
  datatype Pc =
    | Rest
    | Entering(d: nat)
    | Leaving(d: nat)
    | Check
    | Checked(pending: bool)
    | Cleared(pending: bool)
    | SafeAt(i: nat)
    | SafeSaving(i: nat, d: nat)
    | SafePushed(i: nat)
    | SafeDropping
    | UnsafeAt(i: nat)
    | UnsafePopping(i: nat)

  /** m_depth, m_pending_flag, m_depth_stack_top, m_depth_stack. */
  datatype State = State(depth: nat, flag: bool, top: nat, stack: seq<nat>, pc: Pc)

  predicate CanBegin(s: State, op: Op) {
    s.pc.Rest? &&
    match op
    case EnterPending => true
    case LeavePending => s.depth > 0
    case EnterSafe => s.top < DEPTH_STACK_SIZE
    case LeaveSafe => s.top > 0
  }

  /** The first load of an operation. */
  function Begin(s: State, op: Op): State
    requires CanBegin(s, op)
  {
    match op
    case EnterPending => s.(pc := Entering(s.depth))
    case LeavePending => s.(pc := Leaving(s.depth))
    case EnterSafe => s.(pc := SafeAt(s.top))
    case LeaveSafe => s.(pc := UnsafeAt(s.top - 1))
  }

  predicate CanContinue(s: State) {
    !s.pc.Rest? && s.pc != Cleared(true)
    && (s.pc.SafeSaving? || s.pc.UnsafeAt? ==> s.pc.i < |s.stack|)
  }

  /** The next load or store of the operation under way. */
  function Continue(s: State): State
    requires CanContinue(s)
  {
    match s.pc
    case Entering(d) => s.(depth := d + 1, pc := Rest)
    case Leaving(d) => if d <= 1 then s.(depth := 0, pc := Check) else s.(depth := d - 1, pc := Rest)
    case Check => s.(pc := Checked(s.flag))
    case Checked(p) => s.(flag := false, pc := Cleared(p))
    case Cleared(_) => s.(pc := Rest)
    case SafeAt(i) => s.(pc := SafeSaving(i, s.depth))
    case SafeSaving(i, d) => s.(stack := s.stack[i := d], pc := SafePushed(i))
    case SafePushed(i) => s.(top := i + 1, pc := SafeDropping)
    case SafeDropping => s.(depth := 0, pc := Check)
    case UnsafeAt(i) => s.(depth := s.stack[i], pc := UnsafePopping(i))
    case UnsafePopping(i) => s.(top := i, pc := Rest)
  }

  /** call_if_pended runs the handler. */
  predicate CanCall(s: State) {
    s.pc == Cleared(true)
  }

  function Call(s: State): State
    requires CanCall(s)
  {
    s.(pc := Rest)
  }

  /** pending_call::operator(), which a signal runs: it defers, or lets the handler run at once. */
  function Deferred(s: State): State
    requires s.depth > 0
  {
    s.(flag := true)
  }

  function Start(): State {
    State(0, false, 0, seq(DEPTH_STACK_SIZE, i => 0), Rest)
  }

  // ---- What the scopes mean

  /** The nesting of scopes: for the thread and every open safe scope, how many pending scopes are
      open in it; the last element is the innermost. */
  type Nesting = seq<nat>

  function Innermost(nest: Nesting): nat
    requires |nest| > 0
  {
    nest[|nest| - 1]
  }

  function AfterOp(nest: Nesting, op: Op): Nesting
    requires |nest| > 0
  {
    match op
    case EnterPending => nest[|nest| - 1 := Innermost(nest) + 1]
    case LeavePending => if Innermost(nest) > 0 then nest[|nest| - 1 := Innermost(nest) - 1] else nest
    case EnterSafe => nest + [0]
    case LeaveSafe => if |nest| > 1 then nest[..|nest| - 1] else nest
  }

  /** Every operation takes effect when it stores the depth. */
  function NestAfterContinue(nest: Nesting, s: State): Nesting
    requires |nest| > 0
  {
    match s.pc
    case Entering(_) => AfterOp(nest, EnterPending)
    case Leaving(_) => AfterOp(nest, LeavePending)
    case SafeDropping => AfterOp(nest, EnterSafe)
    case UnsafeAt(_) => AfterOp(nest, LeaveSafe)
    case _ => nest
  }

  /** Scopes are objects with nested lifetimes: a safe scope ends after the unsafe ones inside it. */
  predicate Nested(s: State, op: Op) {
    op.LeaveSafe? ==> s.depth == 0
  }

  /** A deferred signal has not been handled yet. */
  predicate Owed(s: State) {
    s.flag || s.pc == Checked(true) || s.pc == Cleared(true)
  }

  predicate PcOk(s: State, nest: Nesting)
    requires |nest| > 0 && |s.stack| == DEPTH_STACK_SIZE
  {
    var base := |nest| - 1;
    match s.pc
    case Rest => s.top == base
    case Entering(d) => s.top == base && d == s.depth
    case Leaving(d) => s.top == base && d == s.depth && d > 0
    case Check => s.top == base && s.depth == 0
    case Checked(p) => s.top == base && s.depth == 0 && s.flag == p
    case Cleared(_) => s.top == base && s.depth == 0
    case SafeAt(i) => s.top == base == i < DEPTH_STACK_SIZE
    case SafeSaving(i, d) => s.top == base == i < DEPTH_STACK_SIZE && d == s.depth
    case SafePushed(i) => s.top == base == i < DEPTH_STACK_SIZE && s.stack[i] == s.depth
    case SafeDropping => s.top == base + 1 <= DEPTH_STACK_SIZE && s.stack[base] == s.depth
    case UnsafeAt(i) => s.top == base == i + 1 && s.depth == 0
    case UnsafePopping(i) => s.top == base + 1 <= DEPTH_STACK_SIZE && i == base
  }

  /** The depth is that of the innermost scope, the stack holds those of the outer ones, and with
      the depth at zero the flag is up only until the next check of it. */
  predicate Inv(s: State, nest: Nesting) {
    && 0 < |nest| <= DEPTH_STACK_SIZE + 1 && |s.stack| == DEPTH_STACK_SIZE
    && s.depth == Innermost(nest)
    && (forall j: nat :: j < |nest| - 1 ==> s.stack[j] == nest[j])
    && PcOk(s, nest)
    && (s.flag && s.depth == 0 ==> s.pc.Check? || s.pc.Checked?)
  }

  lemma StartInv()
    ensures Inv(Start(), [0]) && !Owed(Start())
  {
  }

  /** No operation of a properly nested program can get stuck on its assertions. */
  lemma BeginKeepsInv(s: State, nest: Nesting, op: Op)
    requires Inv(s, nest) && CanBegin(s, op) && Nested(s, op)
    ensures Inv(Begin(s, op), nest) && Owed(Begin(s, op)) == Owed(s)
  {
  }

  lemma ContinueKeepsInv(s: State, nest: Nesting)
    requires Inv(s, nest) && !s.pc.Rest? && s.pc != Cleared(true)
    ensures CanContinue(s) && Inv(Continue(s), NestAfterContinue(nest, s)) && Owed(Continue(s)) == Owed(s)
  {
  }

  lemma CallKeepsInv(s: State, nest: Nesting)
    requires Inv(s, nest) && CanCall(s)
    ensures s.depth == 0 && Inv(Call(s), nest) && Owed(s) && !Owed(Call(s))
  {
  }

  lemma DeferKeepsInv(s: State, nest: Nesting)
    requires Inv(s, nest) && s.depth > 0
    ensures Inv(Deferred(s), nest) && Owed(Deferred(s))
  {
  }

  /** A signal at any moment: it waits at a positive depth and is handled at once at depth zero. */
  function Signalled(s: State): State {
    if s.depth > 0 then Deferred(s) else s
  }

  function Signals(s: State, n: nat): State {
    if n == 0 then s else Signalled(Signals(s, n - 1))
  }

  lemma {:induction false} SignalsOnlyRaise(s: State, n: nat)
    ensures Signals(s, n) == if n > 0 && s.depth > 0 then s.(flag := true) else s
  {
    if n > 0 {
      SignalsOnlyRaise(s, n - 1);
    }
  }

  predicate CanLeave(s: State) {
    CanBegin(s, LeaveSafe) && s.top <= |s.stack|
  }

  /** leave_safe_scope with any number of signals before it, between its steps and after it. */
  function LeaveAmid(s: State, n0: nat, n1: nat, n2: nat, n3: nat): State
    requires CanLeave(s)
  {
    SignalsOnlyRaise(s, n0);
    var s1 := Begin(Signals(s, n0), LeaveSafe);
    SignalsOnlyRaise(s1, n1);
    var s2 := Continue(Signals(s1, n1));
    SignalsOnlyRaise(s2, n2);
    Signals(Continue(Signals(s2, n2)), n3)
  }

  /** At rest outside of all unsafe scopes with a signal that nobody will answer. */
  predicate Stranded(s: State) {
    s.pc.Rest? && s.depth == 0 && s.flag
  }

  /** Why nesting matters: some arrival of signals around and inside leave_safe_scope strands one exactly
      when it is called inside an unsafe scope and the scope around the safe one is not unsafe. A signal
      that waits already is one such case, but one that comes after the first load does as well. */
  lemma LeaveSafeStrandsIff(s: State, nest: Nesting)
    requires Inv(s, nest) && CanBegin(s, LeaveSafe)
    ensures CanLeave(s)
    ensures (exists n0, n1, n2, n3 :: Stranded(LeaveAmid(s, n0, n1, n2, n3))) <==> s.depth > 0 && s.stack[s.top - 1] == 0
  {
    if s.depth > 0 && s.stack[s.top - 1] == 0 {
      LeaveAmidIs(s, 0, 1, 0, 0);
      assert Stranded(LeaveAmid(s, 0, 1, 0, 0));
    }
    forall n0, n1, n2, n3 | Stranded(LeaveAmid(s, n0, n1, n2, n3)) ensures s.depth > 0 && s.stack[s.top - 1] == 0 {
      LeaveAmidIs(s, n0, n1, n2, n3);
    }
  }

  /** The depth is the restored one, and the flag is up if a signal waited or came at a positive depth. */
  lemma LeaveAmidIs(s: State, n0: nat, n1: nat, n2: nat, n3: nat)
    requires CanLeave(s)
    ensures var saved := s.stack[s.top - 1];
      LeaveAmid(s, n0, n1, n2, n3) == State(saved, s.flag || (s.depth > 0 && n0 + n1 > 0) || (saved > 0 && n2 + n3 > 0), s.top - 1, s.stack, Rest)
  {
    SignalsOnlyRaise(s, n0);
    var s1 := Begin(Signals(s, n0), LeaveSafe);
    SignalsOnlyRaise(s1, n1);
    var s2 := Continue(Signals(s1, n1));
    SignalsOnlyRaise(s2, n2);
    SignalsOnlyRaise(Continue(Signals(s2, n2)), n3);
  }

  /** Runs the operation under way to its end. */
  function Finish(s: State, steps: nat): State
    decreases steps
  {
    if steps > 0 && CanContinue(s) then Finish(Continue(s), steps - 1) else s
  }

  lemma EnterSafeAtStart()
    ensures Finish(Begin(Start(), EnterSafe), 7) == State(0, false, 1, seq(DEPTH_STACK_SIZE, i => 0), Rest)
  {
    var s := Begin(Start(), EnterSafe);
    assert Finish(s, 7) == Finish(Continue(Continue(s)), 5);
    assert Finish(Continue(Continue(s)), 5) == Finish(Continue(Continue(Continue(Continue(s)))), 3);
    assert Start().stack[0 := 0] == Start().stack;
  }

  /** ... and that does happen: a safe scope, an unsafe one in it, a signal, and the wrong order of exits
      leave the thread at rest, outside of all scopes, with an unanswered signal. */
  lemma SignalStranded()
    ensures var s1 := Finish(Begin(Start(), EnterSafe), 7);
      CanBegin(s1, EnterPending) &&
      var s2 := Finish(Begin(s1, EnterPending), 1);
      s2.depth > 0 && CanBegin(Deferred(s2), LeaveSafe) &&
      var s3 := Finish(Begin(Deferred(s2), LeaveSafe), 2);
      s3.pc.Rest? && s3.depth == 0 && s3.top == 0 && s3.flag
  {
    EnterSafeAtStart();
    var s1 := State(0, false, 1, seq(DEPTH_STACK_SIZE, i => 0), Rest);
    assert Finish(Begin(s1, EnterPending), 1) == s1.(depth := 1);
  }

  /** At rest, a signal is owed exactly when the flag is up, and then the depth is positive. */
  lemma OwedAtRest(s: State, nest: Nesting)
    requires Inv(s, nest) && s.pc.Rest?
    ensures Owed(s) == s.flag && (s.flag ==> s.depth > 0)
  {
  }

  // ---- Whole runs

  /** One thread with the history of its signals: how many came, how many were answered by running
      the handler at once or by a later call, and how many are waiting. */
  datatype Config = Config(s: State, nest: Nesting, came: nat, atOnce: nat, later: nat, waiting: nat)

  datatype Step = Begins(op: Op) | Continues | Calls | Signal

  predicate Enabled(c: Config, e: Step) {
    match e
    case Begins(op) => CanBegin(c.s, op) && Nested(c.s, op)
    case Continues => CanContinue(c.s) && |c.nest| > 0
    case Calls => CanCall(c.s)
    case Signal => true
  }

  function Next(c: Config, e: Step): Config
    requires Enabled(c, e)
  {
    match e
    case Begins(op) => c.(s := Begin(c.s, op))
    case Continues => c.(s := Continue(c.s), nest := NestAfterContinue(c.nest, c.s))
    case Calls => c.(s := Call(c.s), later := c.later + c.waiting, waiting := 0)
    case Signal =>
      if c.s.depth > 0 then c.(s := Deferred(c.s), came := c.came + 1, waiting := c.waiting + 1)
      else c.(came := c.came + 1, atOnce := c.atOnce + 1)
  }

  /** The handler runs in this step. */
  predicate RunsHandler(c: Config, e: Step) {
    e.Calls? || (e.Signal? && c.s.depth == 0)
  }

  predicate ConfigInv(c: Config) {
    && Inv(c.s, c.nest)
    && (c.waiting > 0 <==> Owed(c.s))
    && c.came == c.atOnce + c.later + c.waiting
  }

  lemma NextKeepsInv(c: Config, e: Step)
    requires ConfigInv(c) && Enabled(c, e)
    ensures ConfigInv(Next(c, e))
    ensures RunsHandler(c, e) ==> Innermost(c.nest) == 0 && c.s.depth == 0
    ensures e.Calls? ==> c.waiting > 0
  {
    match e
    case Begins(op) => BeginKeepsInv(c.s, c.nest, op);
    case Continues => ContinueKeepsInv(c.s, c.nest);
    case Calls => CallKeepsInv(c.s, c.nest);
    case Signal => if c.s.depth > 0 { DeferKeepsInv(c.s, c.nest); }
  }

  predicate Run(cs: seq<Config>, es: seq<Step>) {
    && |cs| == |es| + 1 && cs[0] == Config(Start(), [0], 0, 0, 0, 0)
    && forall i :: 0 <= i < |es| ==> Enabled(cs[i], es[i]) && cs[i + 1] == Next(cs[i], es[i])
  }

  lemma {:induction false} RunKeepsInv(cs: seq<Config>, es: seq<Step>, i: nat)
    requires Run(cs, es) && i < |cs|
    ensures ConfigInv(cs[i])
  {
    if i == 0 {
      StartInv();
    } else {
      RunKeepsInv(cs, es, i - 1);
      NextKeepsInv(cs[i - 1], es[i - 1]);
    }
  }

  lemma RunStep(cs: seq<Config>, es: seq<Step>, k: nat)
    requires Run(cs, es) && k < |es|
    ensures |cs| == |es| + 1 && ConfigInv(cs[k]) && ConfigInv(cs[k + 1]) && |cs[k].nest| > 0
    ensures Enabled(cs[k], es[k]) && cs[k + 1] == Next(cs[k], es[k])
  {
    RunKeepsInv(cs, es, k);
    RunKeepsInv(cs, es, k + 1);
  }

  /** In every run the handler only runs outside of all unsafe scopes. */
  lemma HandlerNeverInUnsafeScope(cs: seq<Config>, es: seq<Step>, i: nat)
    requires Run(cs, es) && i < |es| && RunsHandler(cs[i], es[i])
    ensures |cs[i].nest| > 0 && Innermost(cs[i].nest) == 0 && cs[i].s.depth == 0
  {
    RunKeepsInv(cs, es, i);
    NextKeepsInv(cs[i], es[i]);
  }

  /** In every run, once the thread is at rest outside of all unsafe scopes, every signal that came
      has been answered, and the handler was never called without one. */
  lemma NoSignalLost(cs: seq<Config>, es: seq<Step>, i: nat)
    requires Run(cs, es) && i < |cs| && cs[i].s.pc.Rest? && cs[i].s.depth == 0
    ensures cs[i].waiting == 0 && cs[i].came == cs[i].atOnce + cs[i].later && !cs[i].s.flag
  {
    RunKeepsInv(cs, es, i);
    OwedAtRest(cs[i].s, cs[i].nest);
  }

  // ---- Signals and handlers in a run

  /** What a step does to what is owed. */
  lemma OwedNext(c: Config, e: Step)
    requires ConfigInv(c) && Enabled(c, e)
    ensures Owed(Next(c, e).s) == (!e.Calls? && (Owed(c.s) || (e.Signal? && c.s.depth > 0)))
    ensures e.Calls? ==> Owed(c.s)
  {
    match e
    case Begins(op) => BeginKeepsInv(c.s, c.nest, op);
    case Continues => ContinueKeepsInv(c.s, c.nest);
    case Calls => CallKeepsInv(c.s, c.nest);
    case Signal => if c.s.depth > 0 { DeferKeepsInv(c.s, c.nest); }
  }

  lemma {:induction false} OwedUntilCalled(cs: seq<Config>, es: seq<Step>, i: nat, n: nat)
    requires Run(cs, es) && i < n <= |es| && es[i].Signal? && cs[i].s.depth > 0
    ensures Owed(cs[n].s) || exists k :: i < k < n && es[k].Calls?
  {
    hide ConfigInv, Enabled, Next, Owed;
    RunStep(cs, es, n - 1);
    OwedNext(cs[n - 1], es[n - 1]);
    if n > i + 1 {
      OwedUntilCalled(cs, es, i, n - 1);
    }
  }

  /** A signal runs the handler at once, or it is run later, before the thread is next at rest outside of all
      unsafe scopes. */
  lemma SignalIsAnswered(cs: seq<Config>, es: seq<Step>, i: nat, n: nat)
    requires Run(cs, es) && i < n <= |es| && es[i].Signal? && cs[n].s.pc.Rest? && cs[n].s.depth == 0
    ensures exists k :: i <= k < n && RunsHandler(cs[k], es[k])
  {
    hide ConfigInv, Enabled, Next, Inv;
    if cs[i].s.depth == 0 {
      assert RunsHandler(cs[i], es[i]);
    } else {
      OwedUntilCalled(cs, es, i, n);
      NoSignalLost(cs, es, n);
      var k :| i < k < n && es[k].Calls?;
      assert RunsHandler(cs[k], es[k]);
    }
  }

  lemma {:induction false} OwedHasSignal(cs: seq<Config>, es: seq<Step>, n: nat) returns (i: nat)
    requires Run(cs, es) && n <= |es| && Owed(cs[n].s)
    ensures i < n && es[i].Signal? && cs[i].s.depth > 0 && forall j :: i < j < n ==> !es[j].Calls?
  {
    hide ConfigInv, Enabled, Next, Inv;
    if n == 0 {
      StartInv();
      assert false;
    }
    RunStep(cs, es, n - 1);
    OwedNext(cs[n - 1], es[n - 1]);
    if es[n - 1].Signal? && cs[n - 1].s.depth > 0 {
      i := n - 1;
    } else {
      i := OwedHasSignal(cs, es, n - 1);
    }
  }

  /** A deferred call of the handler answers a signal that came inside an unsafe scope after the last such call. */
  lemma CallHasSignal(cs: seq<Config>, es: seq<Step>, n: nat)
    requires Run(cs, es) && n < |es| && es[n].Calls?
    ensures exists i :: 0 <= i < n && es[i].Signal? && cs[i].s.depth > 0 && forall j :: i < j < n ==> !es[j].Calls?
  {
    hide ConfigInv, Enabled, Next, Inv;
    RunStep(cs, es, n);
    OwedNext(cs[n], es[n]);
    var i := OwedHasSignal(cs, es, n);
  }

  // ---- The depth counts the open scopes

  /** Scanning a run backwards: the unsafe scopes entered and not left in the safe scope that is `skip` open safe
      scopes further out than the innermost one. */
  function OpenUnsafe(es: seq<Step>, skip: nat): int {
    if es == [] then 0
    else
      var before := es[..|es| - 1];
      match es[|es| - 1]
      case Begins(EnterPending) => OpenUnsafe(before, skip) + if skip == 0 then 1 else 0
      case Begins(LeavePending) => OpenUnsafe(before, skip) - if skip == 0 then 1 else 0
      case Begins(EnterSafe) => if skip == 0 then 0 else OpenUnsafe(before, skip - 1)
      case Begins(LeaveSafe) => OpenUnsafe(before, skip + 1)
      case _ => OpenUnsafe(before, skip)
  }

  /** The safe scopes entered and not left. */
  function OpenSafe(es: seq<Step>): int {
    if es == [] then 0
    else
      OpenSafe(es[..|es| - 1]) +
      match es[|es| - 1] case Begins(EnterSafe) => 1 case Begins(LeaveSafe) => -1 case _ => 0
  }

  /** The nesting when the operation under way has taken effect. */
  function Ahead(c: Config): (r: Nesting)
    requires |c.nest| > 0
    ensures |r| > 0
  {
    match c.s.pc
    case Entering(_) => AfterOp(c.nest, EnterPending)
    case Leaving(_) => AfterOp(c.nest, LeavePending)
    case SafeAt(_) => AfterOp(c.nest, EnterSafe)
    case SafeSaving(_, _) => AfterOp(c.nest, EnterSafe)
    case SafePushed(_) => AfterOp(c.nest, EnterSafe)
    case SafeDropping => AfterOp(c.nest, EnterSafe)
    case UnsafeAt(_) => AfterOp(c.nest, LeaveSafe)
    case _ => c.nest
  }

  /** Only the beginning of an operation changes what is ahead. */
  lemma AheadNext(c: Config, e: Step)
    requires ConfigInv(c) && Enabled(c, e)
    ensures |Next(c, e).nest| > 0
    ensures Ahead(Next(c, e)) == if e.Begins? then AfterOp(c.nest, e.op) else Ahead(c)
    ensures e.Begins? ==> Ahead(c) == c.nest && (e.op.LeavePending? ==> Innermost(c.nest) > 0) && (e.op.LeaveSafe? ==> |c.nest| > 1)
  {
    match e
    case Begins(op) => AheadBegins(c, op);
    case Continues => AheadContinues(c);
    case _ => hide Inv;
  }

  lemma AheadBegins(c: Config, op: Op)
    requires Inv(c.s, c.nest) && CanBegin(c.s, op)
    ensures Ahead(c) == c.nest && Ahead(c.(s := Begin(c.s, op))) == AfterOp(c.nest, op)
    ensures (op.LeavePending? ==> Innermost(c.nest) > 0) && (op.LeaveSafe? ==> |c.nest| > 1)
  {
    hide AfterOp;
  }

  lemma AheadContinues(c: Config)
    requires Inv(c.s, c.nest) && CanContinue(c.s)
    ensures |NestAfterContinue(c.nest, c.s)| > 0
    ensures Ahead(c.(s := Continue(c.s), nest := NestAfterContinue(c.nest, c.s))) == Ahead(c)
  {
  }

  predicate CountsAre(nest: Nesting, es: seq<Step>) {
    && |nest| == OpenSafe(es) + 1
    && forall k :: 0 <= k < |nest| ==> nest[k] == OpenUnsafe(es, |nest| - 1 - k)
  }

  lemma CountsNext(nest: Nesting, es: seq<Step>, e: Step)
    requires |nest| > 0 && CountsAre(nest, es)
    requires e.Begins? && e.op.LeavePending? ==> Innermost(nest) > 0
    requires e.Begins? && e.op.LeaveSafe? ==> |nest| > 1
    ensures CountsAre(if e.Begins? then AfterOp(nest, e.op) else nest, es + [e])
  {
    assert (es + [e])[..|es|] == es;
    var after := if e.Begins? then AfterOp(nest, e.op) else nest;
    forall k | 0 <= k < |after| ensures after[k] == OpenUnsafe(es + [e], |after| - 1 - k) {
      if k < |nest| {
        assert nest[k] == OpenUnsafe(es, |nest| - 1 - k);
      }
    }
  }

  lemma StartCounts(cs: seq<Config>, es: seq<Step>)
    requires Run(cs, es)
    ensures |cs| == |es| + 1 && |cs[0].nest| > 0 && CountsAre(Ahead(cs[0]), es[..0])
  {
    assert es[..0] == [];
  }

  lemma {:induction false} RunCounts(cs: seq<Config>, es: seq<Step>, n: nat)
    requires Run(cs, es) && n < |cs|
    ensures |cs| == |es| + 1 && |cs[n].nest| > 0 && CountsAre(Ahead(cs[n]), es[..n])
  {
    hide *;
    StartCounts(cs, es);
    if n > 0 {
      RunCounts(cs, es, n - 1);
      RunStep(cs, es, n - 1);
      AheadNext(cs[n - 1], es[n - 1]);
      CountsNext(Ahead(cs[n - 1]), es[..n - 1], es[n - 1]);
      assert es[..n] == es[..n - 1] + [es[n - 1]];
    }
  }

  lemma CountsAtRest(c: Config, es: seq<Step>)
    requires ConfigInv(c) && c.s.pc.Rest? && CountsAre(Ahead(c), es)
    ensures c.s.depth == OpenUnsafe(es, 0) && c.s.top == OpenSafe(es) <= |c.s.stack|
    ensures forall k :: 0 <= k < c.s.top ==> c.s.stack[k] == OpenUnsafe(es, c.s.top - k)
  {
    hide OpenUnsafe, OpenSafe;
    assert forall k :: 0 <= k < c.s.top ==> c.s.stack[k] == c.nest[k];
  }

  /** At rest, the depth is the number of unsafe scopes that were entered and not left since the last open safe
      scope was entered, and the stack holds those numbers for the safe scopes around it. */
  lemma DepthCounts(cs: seq<Config>, es: seq<Step>, n: nat)
    requires Run(cs, es) && n <= |es| && cs[n].s.pc.Rest?
    ensures cs[n].s.depth == OpenUnsafe(es[..n], 0) && cs[n].s.top == OpenSafe(es[..n]) <= |cs[n].s.stack|
    ensures forall k :: 0 <= k < cs[n].s.top ==> cs[n].s.stack[k] == OpenUnsafe(es[..n], cs[n].s.top - k)
  {
    hide *;
    StartCounts(cs, es);
    RunCounts(cs, es, n);
    RunKeepsInv(cs, es, n);
    CountsAtRest(cs[n], es[..n]);
  }

  // ---- Safe scopes restore the depth

  /** Where a thread can be from entering a safe scope at `c0` until it has left it: on the way in, inside, with
      the scopes around it as they were, or on the way out. */
  predicate Scoped(c0: Config, c: Config) {
    if |c.nest| > |c0.nest| then c.nest[..|c0.nest|] == c0.nest
    else c.nest == c0.nest && (c.s.pc.SafeAt? || c.s.pc.SafeSaving? || c.s.pc.SafePushed? || c.s.pc.SafeDropping? || c.s.pc.UnsafePopping?)
  }

  /** A step inside the scope, or one that ends it. */
  lemma ScopedNext(c0: Config, c: Config, e: Step)
    requires ConfigInv(c) && |c0.nest| > 0 && Scoped(c0, c) && Enabled(c, e)
    ensures Scoped(c0, Next(c, e)) || (Next(c, e).s.pc.Rest? && Next(c, e).nest == c0.nest)
  {
  }

  /** The thread enters a safe scope at `i`, and at `j` it is at rest outside of it for the first time. */
  predicate SafeScope(cs: seq<Config>, es: seq<Step>, i: nat, j: nat) {
    && i < j < |cs| == |es| + 1 && es[i] == Begins(EnterSafe) && cs[j].s.pc.Rest? && |cs[j].nest| <= |cs[i].nest|
    && forall k :: i < k < j && cs[k].s.pc.Rest? ==> |cs[k].nest| > |cs[i].nest|
  }

  lemma ScopedOrLonger(c0: Config, c: Config)
    ensures Scoped(c0, c) && c.s.pc.Rest? ==> |c.nest| > |c0.nest|
  {
  }

  lemma ScopeBegins(c: Config)
    requires Enabled(c, Begins(EnterSafe))
    ensures c.s.pc.Rest? && Scoped(c, Next(c, Begins(EnterSafe))) && !Next(c, Begins(EnterSafe)).s.pc.Rest?
  {
  }

  /** At rest, depth, top and stack are given by the nesting. */
  lemma RestMeans(c: Config)
    requires ConfigInv(c) && c.s.pc.Rest?
    ensures |c.nest| > 0 && c.s.depth == Innermost(c.nest) && c.s.top == |c.nest| - 1 < |c.s.stack| + 1 == DEPTH_STACK_SIZE + 1
    ensures c.s.stack[..c.s.top] == c.nest[..c.s.top]
  {
  }

  lemma {:induction false} StaysScoped(cs: seq<Config>, es: seq<Step>, i: nat, j: nat, k: nat)
    requires Run(cs, es) && SafeScope(cs, es, i, j) && i < k < j
    ensures Scoped(cs[i], cs[k])
  {
    hide ConfigInv, Scoped, Enabled, Next, Run;
    RunStep(cs, es, i);
    RunStep(cs, es, k - 1);
    if k == i + 1 {
      ScopeBegins(cs[i]);
    } else {
      StaysScoped(cs, es, i, j, k - 1);
      ScopedNext(cs[i], cs[k - 1], es[k - 1]);
    }
  }

  /** In every run, leaving a safe scope brings back the depth, the stack and the nesting it was entered with,
      whatever scopes, signals and handlers came inside. */
  lemma SafeScopeRestoresDepth(cs: seq<Config>, es: seq<Step>, i: nat, j: nat)
    requires Run(cs, es) && SafeScope(cs, es, i, j)
    ensures cs[j].nest == cs[i].nest && cs[j].s.depth == cs[i].s.depth && cs[j].s.top == cs[i].s.top
    ensures cs[j].s.top <= |cs[j].s.stack| == |cs[i].s.stack| && cs[j].s.stack[..cs[j].s.top] == cs[i].s.stack[..cs[i].s.top]
  {
    hide ConfigInv, Scoped, Enabled, Next, Run;
    RunStep(cs, es, i);
    RunStep(cs, es, j - 1);
    ScopeBegins(cs[i]);
    StaysScoped(cs, es, i, j, j - 1);
    ScopedNext(cs[i], cs[j - 1], es[j - 1]);
    ScopedOrLonger(cs[i], cs[j]);
    RestMeans(cs[i]);
    RestMeans(cs[j]);
  }
}
