/** Why the lengths of rebalancing are limited: for every length out of range there are cords on which
    CORD_cat and CORD_balance call each other for ever. */
module CordEndless {
  import opened Cords
  import opened CordRecursion
  import opened CordBalance
  import opened CordTheorems

  // ---- Runs of the loops over empty slots

  predicate EmptyFrom(f: seq<Slot>, i: nat, k: nat) {
    k <= |f| && forall j: nat :: i <= j < k ==> f[j].c.Empty?
  }

  lemma {:induction false} GatherSkips(limit: nat, s: Loop, len: int, fuel: nat, junk: seq<Slot>, k: nat)
    requires s.i <= k && k + 1 < MAX_DEPTH == |s.f| && EmptyFrom(s.f, s.i, k)
    requires (k > s.i ==> MinLen(k) < len) && len <= MinLen(k + 1)
    ensures Gather(limit, s, len, fuel, junk) == Returns(s.(i := k))
    decreases k - s.i
  {
    hide MinLen;
    if s.i < k {
      MinLenMonotone(s.i + 1, k);
      GatherSkips(limit, s.(i := s.i + 1), len, fuel, junk, k);
    }
  }

  lemma {:induction false} CollectSkips(limit: nat, s: Loop, expectedLen: int, fuel: nat, junk: seq<Slot>, k: nat)
    requires s.i <= k < MAX_DEPTH == |s.f| && EmptyFrom(s.f, s.i, k) && s.sumLen != expectedLen
    ensures Collect(limit, s, expectedLen, fuel, junk) == Collect(limit, s.(i := k), expectedLen, fuel, junk)
    decreases k - s.i
  {
    if s.i < k {
      CollectSkips(limit, s.(i := s.i + 1), expectedLen, fuel, junk, k);
    }
  }

  /** A tree carried over empty slots is stored in the one whose length range it is in. */
  lemma {:induction false} CarryStores(limit: nat, s: Loop, fuel: nat, junk: seq<Slot>, k: nat)
    requires s.i <= k && k + 1 < MAX_DEPTH == |s.f| && EmptyFrom(s.f, s.i, k + 1) && MinLen(k) <= s.sumLen < MinLen(k + 1)
    ensures Carry(limit, s, fuel, junk) == Returns(s.f[k := Slot(s.sum, s.sumLen)])
    decreases k - s.i
  {
    hide MinLen;
    MinLenMonotone(s.i, k);
    var t := s.(i := s.i + 1);
    assert Turn(limit, s, true, fuel, junk) == Returns(t);
    if s.i < k {
      CarryStores(limit, t, fuel, junk, k);
    } else {
      assert Carry(limit, t, fuel, junk) == Returns(t.f[t.i - 1 := Slot(t.sum, t.sumLen)]);
    }
  }

  // ---- The trap

  /** A character, a balanced cord of depth 46, and another character, together shorter than the second limit. */
  predicate Trap(a: Cord, x: Cord, b: Cord) {
    && a.Leaf? && |a.s| == 1 && b.Leaf? && |b.s| == 1
    && x.Concat? && x.depth == 46 && LIMIT <= x.len && x.len + 2 < TOO_LONG
    && LeftLen(x) > 0 && x.len - LeftLen(x) > 0
  }

  /** CORD_cat(a, x), and CORD_cat of that and b before it is rebalanced. */
  function Inner(limit: nat, a: Cord, x: Cord): Cord {
    Join(limit, a, x)
  }

  function Outer(limit: nat, a: Cord, x: Cord, b: Cord): Cord {
    Join(limit, Inner(limit, a, x), b)
  }

  lemma TrapShape(limit: nat, a: Cord, x: Cord, b: Cord)
    requires Trap(a, x, b)
    ensures Inner(limit, a, x) == Node(47, 1, 1 + x.len, a, x)
    ensures Outer(limit, a, x, b) == Node(48, 1 + x.len, 2 + x.len, Inner(limit, a, x), b)
    ensures LeftLen(Inner(limit, a, x)) == 1 && LeftLen(Outer(limit, a, x, b)) == 1 + x.len
  {
  }

  /** Adding one character to a forest whose lowest slot is free. */
  lemma AddCharacter(limit: nat, f: seq<Slot>, a: Cord, fuel: nat, junk: seq<Slot>)
    requires |f| == MAX_DEPTH && f[0].c.Empty? && a.Leaf? && |a.s| == 1
    ensures AddTree(limit, f, a, 1, fuel, junk) == Returns(f[0 := Slot(a, 1)])
  {
    hide MinLen;
    FirstLengths();
    GatherSkips(limit, Loop(0, Empty, 0, f), 1, fuel, junk, 0);
    assert Concatenate(limit, Empty, a, fuel, junk) == Returns(a);
    CarryStores(limit, Loop(0, a, 1, f), fuel, junk, 0);
  }

  /** Adding the balanced cord gathers the character below it: the last slot then holds both. */
  lemma AddBalanced(limit: nat, f: seq<Slot>, a: Cord, x: Cord, b: Cord, fuel: nat, junk: seq<Slot>)
    requires Trap(a, x, b) && |f| == MAX_DEPTH && f[0] == Slot(a, 1) && EmptyFrom(f, 1, 47)
    ensures AddTree(limit, f, x, x.len, fuel, junk) == Returns(f[0 := Slot(Empty, 1)][46 := Slot(Inner(limit, a, x), 1 + x.len)])
  {
    hide MinLen;
    Limits();
    FirstLengths();
    MinLenGrows(45, 46);
    TrapShape(limit, a, x, b);
    var s0 := Loop(0, Empty, 0, f);
    var g := f[0 := Slot(Empty, 1)];
    var s1 := Loop(1, a, 1, g);
    assert Concatenate(limit, a, Empty, fuel, junk) == Returns(a);
    assert Turn(limit, s0, true, fuel, junk) == Returns(s1);
    assert Gather(limit, s0, x.len, fuel, junk) == Gather(limit, s1, x.len, fuel, junk);
    var i := if x.len == LIMIT then 45 else 46;
    GatherSkips(limit, s1, x.len, fuel, junk, i);
    assert Concatenate(limit, a, x, fuel, junk) == Returns(Inner(limit, a, x));
    CarryStores(limit, Loop(i, Inner(limit, a, x), 1 + x.len, g), fuel, junk, 46);
  }

  /** The forest after the whole frontier of the outer cord: the inner cord again, and the second character. */
  predicate Final(limit: nat, a: Cord, x: Cord, b: Cord, f: seq<Slot>)
    requires x.Concat?
  {
    |f| == MAX_DEPTH && f[0] == Slot(b, 1) && EmptyFrom(f, 1, 46) && f[46] == Slot(Inner(limit, a, x), 1 + x.len)
  }

  /** The outer cord and the inner one count as unbalanced, so exactly their three parts are inserted. */
  lemma FrontierInserted(limit: nat, f: seq<Slot>, a: Cord, x: Cord, b: Cord, fuel: nat, junk: seq<Slot>) returns (g: seq<Slot>)
    requires Trap(a, x, b) && |f| == MAX_DEPTH && EmptyFrom(f, 0, 47)
    ensures InsertFrontier(limit, f, Outer(limit, a, x, b), 2 + x.len, fuel, junk) == Returns(g)
    ensures Final(limit, a, x, b, g)
  {
    hide MinLen, AddTree;
    Limits();
    TrapShape(limit, a, x, b);
    var f1 := f[0 := Slot(a, 1)];
    AddCharacter(limit, f, a, fuel, junk);
    AddBalanced(limit, f1, a, x, b, fuel, junk);
    var f2 := f1[0 := Slot(Empty, 1)][46 := Slot(Inner(limit, a, x), 1 + x.len)];
    assert InsertFrontier(limit, f, a, 1, fuel, junk) == Returns(f1);
    assert InsertFrontier(limit, f1, x, x.len, fuel, junk) == Returns(f2);
    assert InsertFrontier(limit, f, Inner(limit, a, x), 1 + x.len, fuel, junk) == Returns(f2);
    AddCharacter(limit, f2, b, fuel, junk);
    g := f2[0 := Slot(b, 1)];
  }

  /** Collecting that forest concatenates the inner cord and the second character once more. */
  lemma CollectRepeats(limit: nat, f: seq<Slot>, a: Cord, x: Cord, b: Cord, fuel: nat, junk: seq<Slot>)
    requires Trap(a, x, b) && Final(limit, a, x, b, f) && Concatenate(limit, Inner(limit, a, x), b, fuel, junk).StillRunning?
    ensures Collect(limit, Loop(0, Empty, 0, f), 2 + x.len, fuel, junk).StillRunning?
  {
    var s0, s1 := Loop(0, Empty, 0, f), Loop(1, b, 1, f);
    assert Concatenate(limit, b, Empty, fuel, junk) == Returns(b);
    assert Turn(limit, s0, false, fuel, junk) == Returns(s1);
    TrapShape(limit, a, x, b);
    CollectSkips(limit, s1, 2 + x.len, fuel, junk, 46);
    assert Turn(limit, s1.(i := 46), false, fuel, junk).StillRunning?;
  }

  lemma OuterFacts(limit: nat, a: Cord, x: Cord, b: Cord)
    requires Trap(a, x, b)
    ensures Outer(limit, a, x, b).Concat? && Outer(limit, a, x, b).len == 2 + x.len && Depth(Outer(limit, a, x, b)) == 48
    ensures !Trivial(Inner(limit, a, x), b)
  {
  }

  /** A text of such a length may use every level up to 46. */
  lemma AllCleared(junk: seq<Slot>, n: nat) returns (f: seq<Slot>)
    requires |junk| == MAX_DEPTH && LIMIT <= n < TOO_LONG
    ensures Initialised(junk, n, 0) == Returns(f) && |f| == MAX_DEPTH && EmptyFrom(f, 0, 47)
  {
    hide MinLen, Initialised;
    Limits();
    var k;
    k, f := InitialisedMeets(junk, n, 0);
    MinLenReflects(46, k);
  }

  /** However many rebalances it is given, this concatenation of one character does not finish. */
  lemma {:induction false} NeverFinishes(limit: nat, a: Cord, x: Cord, b: Cord, fuel: nat, junk: seq<Slot>)
    requires Trap(a, x, b) && |junk| == MAX_DEPTH
    ensures Concatenate(limit, Inner(limit, a, x), b, fuel, junk).StillRunning?
  {
    hide MinLen, Join, InsertFrontier, Collect, Final, Initialised;
    OuterFacts(limit, a, x, b);
    if fuel > 0 {
      NeverFinishes(limit, a, x, b, fuel - 1, junk);
      var f := AllCleared(junk, 2 + x.len);
      var g := FrontierInserted(limit, f, a, x, b, fuel - 1, junk);
      CollectRepeats(limit, g, a, x, b, fuel - 1, junk);
      assert Rebalance(limit, Outer(limit, a, x, b), fuel - 1, junk).StillRunning?;
    }
  }

  // ---- Such cords exist for every length out of range

  function Piece(n: nat): Cord {
    Leaf(seq(n, _ => 'x'))
  }

  /** A string and `k` pieces appended to it, each too long to be merged. */
  function Chain(limit: nat, n: nat, k: nat): Cord {
    if k == 0 then Piece(n) else Join(limit, Chain(limit, n, k - 1), Piece(limit + 1))
  }

  lemma PieceIsClient(limit: nat, n: nat)
    requires n > 0
    ensures Client(limit, Piece(n)) && |Text(Piece(n))| == n && Depth(Piece(n)) == 0 && Piece(n).Leaf?
  {
  }

  /** Joining two cords that are too long to merge: a level deeper, as long as both. */
  lemma JoinedClient(limit: nat, x: Cord, y: Cord)
    requires Client(limit, x) && Client(limit, y) && !x.Empty? && Depth(x) >= Depth(y) && Depth(x) < 46
    requires |Text(x)| > limit && |Text(y)| > limit
    ensures var r := Join(limit, x, y);
      Client(limit, r) && r.Concat? && r.depth == Depth(x) + 1 && r.len == |Text(r)| == |Text(x)| + |Text(y)|
  {
    JoinIsGood(limit, x, y);
    JoinMeaning(limit, x, y);
    LengthIsExact(x);
    LengthIsExact(y);
  }

  lemma {:induction false} ChainShape(limit: nat, n: nat, k: nat)
    requires n > limit && k <= 46
    ensures Client(limit, Chain(limit, n, k)) && Depth(Chain(limit, n, k)) == k
    ensures |Text(Chain(limit, n, k))| == n + k * (limit + 1)
    ensures k > 0 ==> Chain(limit, n, k).Concat? && Chain(limit, n, k).len == |Text(Chain(limit, n, k))|
  {
    hide Text, Cords.Valid, ShortAreFlat, Join;
    PieceIsClient(limit, n);
    if k > 0 {
      ChainShape(limit, n, k - 1);
      PieceIsClient(limit, limit + 1);
      NotEmpty(Chain(limit, n, k - 1));
      JoinedClient(limit, Chain(limit, n, k - 1), Piece(limit + 1));
      assert (k - 1) * (limit + 1) + (limit + 1) == k * (limit + 1);
    }
  }

  lemma NotEmpty(x: Cord)
    requires |Text(x)| > 0
    ensures !x.Empty?
  {
  }

  lemma CharacterIsClient(limit: nat, s: string)
    requires |s| == 1 && s[0] != '\0'
    ensures Client(limit, Leaf(s)) && |Text(Leaf(s))| == 1
  {
  }

  lemma InnerIsClient(limit: nat, a: Cord, x: Cord, b: Cord)
    requires Trap(a, x, b) && Client(limit, a) && Client(limit, x)
    ensures Client(limit, Inner(limit, a, x)) && Text(Inner(limit, a, x)) == Text(a) + Text(x)
  {
    JoinIsGood(limit, a, x);
    TrapShape(limit, a, x, b);
  }

  /** The call ends with a cord or with the abort, whatever the forest array contains before. */
  ghost predicate Ends(limit: nat, x: Cord, y: Cord) {
    forall junk: seq<Slot> :: |junk| == MAX_DEPTH ==> EndsOn(limit, x, y, junk)
  }

  ghost predicate EndsOn(limit: nat, x: Cord, y: Cord, junk: seq<Slot>) {
    exists fuel: nat :: Concatenate(limit, x, y, fuel, junk).Returns? || Concatenate(limit, x, y, fuel, junk).TooLong?
  }

  ghost predicate AlwaysEnds(limit: nat, n: nat) {
    forall x, y :: Client(limit, x) && Client(limit, y) && |Text(x)| + |Text(y)| == n ==> Ends(limit, x, y)
  }

  lemma TrapFor(limit: nat, n: nat) returns (a: Cord, x: Cord, b: Cord)
    requires !InRange(n) && limit <= 0x1_0000
    ensures Trap(a, x, b) && Client(limit, Inner(limit, a, x)) && Client(limit, b)
    ensures |Text(Inner(limit, a, x))| + |Text(b)| == n
  {
    hide MinLen, Text, Cords.Valid, ShortAreFlat, Join, Chain, Client, Inner;
    a, x, b := Leaf("a"), Chain(limit, n - 2 - 46 * (limit + 1), 46), Leaf("b");
    CharacterIsClient(limit, "a");
    CharacterIsClient(limit, "b");
    ChainShape(limit, n - 2 - 46 * (limit + 1), 46);
    ClientLengths(limit, x);
    InnerIsClient(limit, a, x, b);
  }

  lemma ClientLengths(limit: nat, x: Cord)
    requires Client(limit, x) && x.Concat?
    ensures x.depth == Depth(x) && LeftLen(x) > 0 && x.len - LeftLen(x) > 0
  {
    LeftLenIsExact(x);
  }

  lemma TrapNeverEnds(limit: nat, a: Cord, x: Cord, b: Cord)
    requires Trap(a, x, b)
    ensures !Ends(limit, Inner(limit, a, x), b)
  {
    hide Concatenate, Inner, Trap;
    var junk := seq(MAX_DEPTH, _ => Slot(Empty, 0));
    forall fuel: nat ensures Concatenate(limit, Inner(limit, a, x), b, fuel, junk).StillRunning? {
      NeverFinishes(limit, a, x, b, fuel, junk);
    }
    assert |junk| == MAX_DEPTH && !EndsOn(limit, Inner(limit, a, x), b, junk);
  }

  lemma InRangeEnds(limit: nat, x: Cord, y: Cord)
    requires Client(limit, x) && Client(limit, y) && InRange(|Text(x)| + |Text(y)|)
    ensures Ends(limit, x, y)
  {
    hide Concatenate, Text, InRange, Good, Rebalanced, Join;
    forall junk: seq<Slot> | |junk| == MAX_DEPTH
      ensures EndsOn(limit, x, y, junk)
    {
      ConcatenateMeets(limit, x, y, 1, junk);
    }
  }

  /** The recursion of CORD_cat and CORD_balance ends for all cords of a total length exactly if the length is
      at most LIMIT + 1, or at least TOO_LONG, where the abort cuts it short. */
  lemma RecursionEndsIff(limit: nat, n: nat)
    requires limit <= 0x1_0000
    ensures AlwaysEnds(limit, n) <==> InRange(n)
  {
    hide Client, Ends, Text, Inner, Trap;
    if InRange(n) {
      forall x, y | Client(limit, x) && Client(limit, y) && |Text(x)| + |Text(y)| == n ensures Ends(limit, x, y) {
        InRangeEnds(limit, x, y);
      }
    } else {
      var a, x, b := TrapFor(limit, n);
      TrapNeverEnds(limit, a, x, b);
    }
  }

  // ---- Such cords are cheap: doubling shares its parts

  function Doubled(n: nat): Cord {
    if n == 0 then Piece(37) else Join(31, Doubled(n - 1), Doubled(n - 1))
  }

  function Lengthened(n: nat): Cord {
    if n == 0 then Doubled(27) else Join(31, Lengthened(n - 1), Piece(37))
  }

  function Power(n: nat): nat {
    if n == 0 then 37 else 2 * Power(n - 1)
  }

  lemma {:induction false} DoubledShape(n: nat)
    requires n <= 27
    ensures Client(31, Doubled(n)) && Depth(Doubled(n)) == n && |Text(Doubled(n))| == Power(n) >= 37
  {
    hide Text, Cords.Valid, ShortAreFlat, Join;
    PieceIsClient(31, 37);
    if n > 0 {
      DoubledShape(n - 1);
      NotEmpty(Doubled(n - 1));
      JoinedClient(31, Doubled(n - 1), Doubled(n - 1));
    }
  }

  lemma {:induction false} LengthenedShape(n: nat)
    requires n <= 19
    ensures Client(31, Lengthened(n)) && Depth(Lengthened(n)) == 27 + n
    ensures |Text(Lengthened(n))| == Power(27) + 37 * n
    ensures n > 0 ==> Lengthened(n).Concat? && Lengthened(n).len == |Text(Lengthened(n))|
  {
    hide Text, Cords.Valid, ShortAreFlat, Join, Doubled, Power;
    DoubledShape(27);
    if n > 0 {
      LengthenedShape(n - 1);
      PieceIsClient(31, 37);
      NotEmpty(Lengthened(n - 1));
      JoinedClient(31, Lengthened(n - 1), Piece(37));
    }
  }

  lemma PowerAt27()
    ensures Power(27) == 4966055936
  {
    assert Power(9) == 18944;
    assert Power(18) == 9699328;
  }

  /** A cord of 47 nodes, built by 27 doublings and 19 appends, for which prepending a character and then
      appending another one never ends. */
  lemma EndlessCordExists() returns (a: Cord, x: Cord, b: Cord)
    ensures x == Lengthened(19) && Trap(a, x, b) && Client(31, Inner(31, a, x)) && Client(31, b)
    ensures !Ends(31, Inner(31, a, x), b)
  {
    hide MinLen, Text, Cords.Valid, ShortAreFlat, Join, Lengthened, Power, Client, Inner, Ends;
    a, x, b := Leaf("a"), Lengthened(19), Leaf("b");
    CharacterIsClient(31, "a");
    CharacterIsClient(31, "b");
    LengthenedShape(19);
    PowerAt27();
    ClientLengths(31, x);
    InnerIsClient(31, a, x, b);
    TrapNeverEnds(31, a, x, b);
  }
}
