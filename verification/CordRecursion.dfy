/** CORD_cat, CORD_balance and the functions between them as they call each other, as functions of their
    arguments. The recursion is cut off after `fuel` rebalances; `junk` is what a forest array contains
    before it is initialised. */
module CordRecursion {
  import opened Cords

  const MAX_DEPTH: nat := 48

  const WORD: nat := 0x1_0000_0000_0000_0000

  datatype Slot = Slot(c: Cord, len: int)

  /** A value; the abort "Cord too long"; no fuel left; an index beyond the tables. */
  datatype Run<T> = Returns(value: T) | TooLong | StillRunning | OutOfTable

  /** The state of one of the three loops over the forest. */
  datatype Loop = Loop(i: nat, sum: Cord, sumLen: int, f: seq<Slot>)

  function Size(x: Cord): nat {
    if x.Concat? then 1 + Size(x.left) + Size(x.right) else 1
  }

  /** One side is empty, so that the other is the result. */
  predicate Trivial(x: Cord, y: Cord) {
    x.Empty? || y.Empty? || (y.Leaf? && y.s == "")
  }

  /** CORD_cat. */
  function Concatenate(limit: nat, x: Cord, y: Cord, fuel: nat, junk: seq<Slot>): Run<Cord>
    decreases fuel, 0, 0
  {
    var node := Join(limit, x, y);
    if Trivial(x, y) || Depth(node) < MAX_DEPTH then Returns(node)
    else if fuel == 0 then StillRunning
    else Rebalance(limit, node, fuel - 1, junk)
  }

  /** CORD_balance. */
  function Rebalance(limit: nat, x: Cord, fuel: nat, junk: seq<Slot>): Run<Cord>
    decreases fuel, 4, 0
  {
    if !x.Concat? then Returns(x)
    else
      match Initialised(junk, x.len, 0)
      case Returns(f) =>
        (match InsertFrontier(limit, f, x, x.len, fuel, junk)
         case Returns(g) => Collect(limit, Loop(0, Empty, 0, g), x.len, fuel, junk)
         case TooLong => TooLong
         case StillRunning => StillRunning
         case OutOfTable => OutOfTable)
      case TooLong => TooLong
      case StillRunning => StillRunning
      case OutOfTable => OutOfTable
  }

  /** CORD_init_forest from level `i` on. */
  function Initialised(f: seq<Slot>, maxLen: int, i: nat): (r: Run<seq<Slot>>)
    ensures r.Returns? || r.TooLong?
    ensures r.Returns? ==> |r.value| == |f|
    decreases MAX_DEPTH - i
  {
    if i >= MAX_DEPTH || i >= |f| then TooLong
    else
      var g := f[i := f[i].(c := Empty)];
      if MinLen(i) > maxLen then Returns(g) else Initialised(g, maxLen, i + 1)
  }

  /** CORD_balance_insert. */
  function InsertFrontier(limit: nat, f: seq<Slot>, x: Cord, len: int, fuel: nat, junk: seq<Slot>): Run<seq<Slot>>
    decreases fuel, 3, Size(x)
  {
    if x.Concat? && (x.depth >= MAX_DEPTH || len < MinLen(x.depth)) then
      match InsertFrontier(limit, f, x.left, LeftLen(x), fuel, junk)
      case Returns(g) => InsertFrontier(limit, g, x.right, len - LeftLen(x), fuel, junk)
      case TooLong => TooLong
      case StillRunning => StillRunning
      case OutOfTable => OutOfTable
    else AddTree(limit, f, x, len, fuel, junk)
  }

  /** CORD_add_forest. */
  function AddTree(limit: nat, f: seq<Slot>, x: Cord, len: int, fuel: nat, junk: seq<Slot>): Run<seq<Slot>>
    decreases fuel, 2, 0
  {
    match Gather(limit, Loop(0, Empty, 0, f), len, fuel, junk)
    case Returns(s) =>
      (match Concatenate(limit, s.sum, x, fuel, junk)
       case Returns(sum) => Carry(limit, s.(sum := sum, sumLen := s.sumLen + len), fuel, junk)
       case TooLong => TooLong
       case StillRunning => StillRunning
       case OutOfTable => OutOfTable)
    case TooLong => TooLong
    case StillRunning => StillRunning
    case OutOfTable => OutOfTable
  }

  /** One turn of a loop: an occupied slot goes in front of the sum, and is cleared if asked for. */
  function Turn(limit: nat, s: Loop, clear: bool, fuel: nat, junk: seq<Slot>): (r: Run<Loop>)
    requires s.i < |s.f|
    ensures r.Returns? ==> r.value.i == s.i + 1 && |r.value.f| == |s.f|
    decreases fuel, 1, 0
  {
    var slot := s.f[s.i];
    if slot.c.Empty? then Returns(s.(i := s.i + 1))
    else
      match Concatenate(limit, slot.c, s.sum, fuel, junk)
      case Returns(sum) =>
        Returns(Loop(s.i + 1, sum, s.sumLen + slot.len, if clear then s.f[s.i := slot.(c := Empty)] else s.f))
      case TooLong => TooLong
      case StillRunning => StillRunning
      case OutOfTable => OutOfTable
  }

  function Left(i: nat): nat {
    if i < MAX_DEPTH then MAX_DEPTH - i else 0
  }

  /** The first loop of CORD_add_forest. */
  function Gather(limit: nat, s: Loop, len: int, fuel: nat, junk: seq<Slot>): Run<Loop>
    decreases fuel, 1, 1 + Left(s.i)
  {
    if s.i + 1 >= MAX_DEPTH || s.i >= |s.f| then OutOfTable
    else if len <= MinLen(s.i + 1) then Returns(s)
    else
      match Turn(limit, s, true, fuel, junk)
      case Returns(t) => Gather(limit, t, len, fuel, junk)
      case TooLong => TooLong
      case StillRunning => StillRunning
      case OutOfTable => OutOfTable
  }

  /** The second loop of CORD_add_forest and the store after it. */
  function Carry(limit: nat, s: Loop, fuel: nat, junk: seq<Slot>): Run<seq<Slot>>
    decreases fuel, 1, 1 + Left(s.i)
  {
    if s.i >= MAX_DEPTH || s.i >= |s.f| then OutOfTable
    else if s.sumLen < MinLen(s.i) then
      if s.i == 0 then OutOfTable else Returns(s.f[s.i - 1 := Slot(s.sum, s.sumLen)])
    else
      match Turn(limit, s, true, fuel, junk)
      case Returns(t) => Carry(limit, t, fuel, junk)
      case TooLong => TooLong
      case StillRunning => StillRunning
      case OutOfTable => OutOfTable
  }

  /** CORD_concat_forest. */
  function Collect(limit: nat, s: Loop, expectedLen: int, fuel: nat, junk: seq<Slot>): Run<Cord>
    decreases fuel, 1, 1 + Left(s.i)
  {
    if s.sumLen == expectedLen then Returns(s.sum)
    else if s.i >= MAX_DEPTH || s.i >= |s.f| then OutOfTable
    else
      match Turn(limit, s, false, fuel, junk)
      case Returns(t) => Collect(limit, t, expectedLen, fuel, junk)
      case TooLong => TooLong
      case StillRunning => StillRunning
      case OutOfTable => OutOfTable
  }
}
