/** The recursion of CORD_cat and CORD_balance meets its meaning: it stays inside its tables, keeps the
    text, balances, and ends after one rebalance for every length in range. */
module CordTheorems {
  import opened Cords
  import opened CordRecursion
  import opened CordBalance

  /** The invariant of the first loop over the forest `f0`. */
  predicate Gathering(limit: nat, f0: seq<Slot>, s: Loop) {
    && s.i <= |s.f| == |f0| == MAX_DEPTH && Gathered(limit, s.sum, s.i) && Good(limit, s.sum) && s.sumLen == |Text(s.sum)|
    && Text(s.sum) == ForestText(f0, s.i) && Cleared(f0, s.f, s.i)
  }

  /** The forest fits below level `k`, and with `n` more characters stays in range. */
  predicate Fits(limit: nat, f0: seq<Slot>, n: nat, k: nat) {
    && k <= 47 && |f0| == MAX_DEPTH && ForestOk(limit, f0, k)
    && |ForestText(f0, k)| + n < MinLen(k) && |ForestText(f0, k)| + n <= LIMIT + 1
  }

  lemma ShallowReturns(limit: nat, x: Cord, y: Cord, fuel: nat, junk: seq<Slot>)
    requires Shallow(limit, x, y)
    ensures Concatenate(limit, x, y, fuel, junk) == Returns(Join(limit, x, y))
  {
  }

  /** A turn of the first loop. */
  lemma TurnGathers(limit: nat, f0: seq<Slot>, s: Loop, k: nat, fuel: nat, junk: seq<Slot>) returns (t: Loop)
    requires Gathering(limit, f0, s) && Fits(limit, f0, 0, k) && s.i < k
    ensures Turn(limit, s, true, fuel, junk) == Returns(t) && t.i == s.i + 1 && Gathering(limit, f0, t)
  {
    hide Text, Cords.Valid, ShortAreFlat, MinLen, Join, Depth, ForestText, Gathered, Shallow, SlotOk, ForestOk, Cleared, Good, Concatenate;
    var slot := s.f[s.i];
    ClearedNext(f0, s.f, s.i);
    ForestTextNext(f0, s.i);
    SlotAt(limit, f0, k, s.i);
    ForestTextLonger(f0, s.i + 1, k);
    if slot.c.Empty? {
      GatherNone(limit, s.sum, s.i);
      t := s.(i := s.i + 1);
    } else {
      GatherOne(limit, slot, s.sum, s.i);
      ShallowReturns(limit, slot.c, s.sum, fuel, junk);
      t := Loop(s.i + 1, Join(limit, slot.c, s.sum), s.sumLen + slot.len, s.f[s.i := slot.(c := Empty)]);
      GatheredDepth(limit, t.sum, t.i);
    }
  }

  /** The first loop of CORD_add_forest stops in range with everything shorter gathered. */
  lemma {:induction false} GatherMeets(limit: nat, f0: seq<Slot>, s: Loop, len: nat, k: nat, fuel: nat, junk: seq<Slot>) returns (t: Loop)
    requires Gathering(limit, f0, s) && Fits(limit, f0, len, k) && s.i < k && (s.i > 0 ==> MinLen(s.i) < len)
    ensures Gather(limit, s, len, fuel, junk) == Returns(t)
    ensures t.i < k && Gathering(limit, f0, t) && len <= MinLen(t.i + 1) && (t.i > 0 ==> MinLen(t.i) < len)
    decreases k - s.i
  {
    hide Text, Cords.Valid, ShortAreFlat, MinLen, Join, Depth, ForestText, Gathered, SlotOk, ForestOk, Cleared, Good, Turn;
    if len <= MinLen(s.i + 1) {
      t := s;
    } else {
      MinLenReflects(s.i + 1, k);
      var u := TurnGathers(limit, f0, s, k, fuel, junk);
      t := GatherMeets(limit, f0, u, len, k, fuel, junk);
    }
  }

  /** The invariant of the second loop, which carries the text `t` behind the forest's up to level `k`. */
  predicate Carrying(limit: nat, f0: seq<Slot>, t: string, s: Loop) {
    && s.i <= |s.f| == |f0| == MAX_DEPTH && Carried(limit, s.sum, s.i) && Good(limit, s.sum) && s.sumLen == |Text(s.sum)|
    && Text(s.sum) == ForestText(f0, s.i) + t && Cleared(f0, s.f, s.i)
  }

  lemma TurnCarries(limit: nat, f0: seq<Slot>, t: string, s: Loop, k: nat, fuel: nat, junk: seq<Slot>) returns (u: Loop)
    requires Carrying(limit, f0, t, s) && Fits(limit, f0, |t|, k) && s.i < k && MinLen(s.i) <= s.sumLen
    ensures Turn(limit, s, true, fuel, junk) == Returns(u) && u.i == s.i + 1 && Carrying(limit, f0, t, u)
    ensures u.sumLen >= s.sumLen
  {
    hide Text, Cords.Valid, ShortAreFlat, MinLen, Join, Depth, ForestText, Carried, Shallow, SlotOk, ForestOk, Cleared, Good, Concatenate;
    var slot := s.f[s.i];
    ClearedNext(f0, s.f, s.i);
    ForestTextNext(f0, s.i);
    SlotAt(limit, f0, k, s.i);
    ForestTextLonger(f0, s.i + 1, k);
    if slot.c.Empty? {
      CarryPast(limit, s.sum, s.i);
      u := s.(i := s.i + 1);
    } else {
      CarryMerge(limit, slot, s.sum, s.i);
      ShallowReturns(limit, slot.c, s.sum, fuel, junk);
      u := Loop(s.i + 1, Join(limit, slot.c, s.sum), s.sumLen + slot.len, s.f[s.i := slot.(c := Empty)]);
    }
  }

  /** The second loop stores the carried tree in a level whose range its length is in. */
  lemma {:induction false} CarryMeets(limit: nat, f0: seq<Slot>, t: string, s: Loop, i0: nat, k: nat, fuel: nat, junk: seq<Slot>)
    returns (g: seq<Slot>)
    requires Carrying(limit, f0, t, s) && Fits(limit, f0, |t|, k) && i0 <= s.i <= k
    requires if s.i == i0 then MinLen(s.i) <= s.sumLen else MinLen(s.i - 1) <= s.sumLen
    ensures Carry(limit, s, fuel, junk) == Returns(g)
    ensures |g| == MAX_DEPTH && ForestOk(limit, g, k) && ForestText(g, k) == ForestText(f0, k) + t
    decreases k - s.i
  {
    hide Text, Cords.Valid, ShortAreFlat, MinLen, Join, Depth, ForestText, Carried, SlotOk, ForestOk, Cleared, Good, Turn;
    ForestTextLonger(f0, s.i, k);
    if s.sumLen < MinLen(s.i) {
      g := s.f[s.i - 1 := Slot(s.sum, s.sumLen)];
      CarryStored(limit, f0, s.f, s.sum, s.i - 1, k, t);
    } else {
      MinLenReflects(s.i, k);
      var u := TurnCarries(limit, f0, t, s, k, fuel, junk);
      g := CarryMeets(limit, f0, t, u, i0, k, fuel, junk);
    }
  }

  /** CORD_add_forest appends a balanced tree to the forest. */
  lemma AddTreeMeets(limit: nat, f: seq<Slot>, x: Cord, k: nat, fuel: nat, junk: seq<Slot>) returns (g: seq<Slot>)
    requires Good(limit, x) && !x.Empty? && Balanced(x) && Fits(limit, f, |Text(x)|, k)
    ensures AddTree(limit, f, x, |Text(x)|, fuel, junk) == Returns(g)
    ensures |g| == MAX_DEPTH && ForestOk(limit, g, k) && ForestText(g, k) == ForestText(f, k) + Text(x)
  {
    hide Text, Cords.Valid, ShortAreFlat, MinLen, Join, Depth, ForestText, Balanced, Gathered, Carried, Shallow, SlotOk, ForestOk, Cleared, Good;
    GoodText(limit, x);
    StartsBelow(k, |Text(x)|);
    NothingGathered(limit, f);
    var s := GatherMeets(limit, f, Loop(0, Empty, 0, f), |Text(x)|, k, fuel, junk);
    ForestTextLonger(f, s.i, k);
    CarryStart(limit, s.sum, x, s.i);
    ShallowReturns(limit, s.sum, x, fuel, junk);
    var u := s.(sum := Join(limit, s.sum, x), sumLen := s.sumLen + |Text(x)|);
    g := CarryMeets(limit, f, Text(x), u, s.i, k, fuel, junk);
  }

  /** CORD_balance_insert appends the frontier of a cord: forest and unscanned part spell the original. */
  lemma {:induction false} InsertMeets(limit: nat, f: seq<Slot>, x: Cord, k: nat, fuel: nat, junk: seq<Slot>) returns (g: seq<Slot>)
    requires Good(limit, x) && !x.Empty? && Fits(limit, f, |Text(x)|, k)
    ensures InsertFrontier(limit, f, x, |Text(x)|, fuel, junk) == Returns(g)
    ensures |g| == MAX_DEPTH && ForestOk(limit, g, k) && ForestText(g, k) == ForestText(f, k) + Text(x)
    decreases Size(x)
  {
    hide Text, Cords.Valid, ShortAreFlat, MinLen, ForestText, SlotOk, ForestOk, Good, LeftLen, AddTree;
    Parts(limit, x);
    if x.Concat? && (x.depth >= MAX_DEPTH || |Text(x)| < MinLen(x.depth)) {
      var h := InsertMeets(limit, f, x.left, k, fuel, junk);
      g := InsertMeets(limit, h, x.right, k, fuel, junk);
    } else {
      g := AddTreeMeets(limit, f, x, k, fuel, junk);
    }
  }

  /** The invariant of CORD_concat_forest, which leaves the forest alone. */
  predicate Collecting(limit: nat, f: seq<Slot>, s: Loop) {
    && s.i <= |f| == MAX_DEPTH && s.f == f && Gathered(limit, s.sum, s.i) && Good(limit, s.sum)
    && s.sumLen == |Text(s.sum)| && Text(s.sum) == ForestText(f, s.i) && Depth(s.sum) < MAX_DEPTH
  }

  lemma TurnCollects(limit: nat, f: seq<Slot>, s: Loop, k: nat, fuel: nat, junk: seq<Slot>) returns (t: Loop)
    requires Collecting(limit, f, s) && Fits(limit, f, 0, k) && s.i < k
    ensures Turn(limit, s, false, fuel, junk) == Returns(t) && t.i == s.i + 1 && Collecting(limit, f, t)
  {
    hide Text, Cords.Valid, ShortAreFlat, MinLen, Join, Depth, ForestText, Gathered, SlotOk, ForestOk, Good, Concatenate;
    var slot := f[s.i];
    ForestTextNext(f, s.i);
    SlotAt(limit, f, k, s.i);
    ForestTextLonger(f, s.i + 1, k);
    if slot.c.Empty? {
      GatherNone(limit, s.sum, s.i);
      t := s.(i := s.i + 1);
    } else {
      GatherOne(limit, slot, s.sum, s.i);
      ShallowReturns(limit, slot.c, s.sum, fuel, junk);
      t := Loop(s.i + 1, Join(limit, slot.c, s.sum), s.sumLen + slot.len, f);
      GatheredDepth(limit, t.sum, t.i);
      JoinedStaysShallow(limit, slot, s.sum, s.i);
    }
  }

  lemma JoinedStaysShallow(limit: nat, slot: Slot, sum: Cord, i: nat)
    requires SlotOk(limit, slot, i) && !slot.c.Empty? && i <= 46 && Shallow(limit, slot.c, sum) && Depth(sum) < MAX_DEPTH
    ensures Depth(Join(limit, slot.c, sum)) < MAX_DEPTH
  {
    SlotDepth(limit, slot, i);
    hide MinLen;
  }

  lemma {:induction false} CollectMeets(limit: nat, f: seq<Slot>, s: Loop, n: nat, k: nat, fuel: nat, junk: seq<Slot>) returns (c: Cord)
    requires Collecting(limit, f, s) && Fits(limit, f, 0, k) && s.i <= k && n == |ForestText(f, k)|
    ensures Collect(limit, s, n, fuel, junk) == Returns(c)
    ensures Good(limit, c) && Text(c) == ForestText(f, k) && Depth(c) <= k + 1 && Depth(c) < MAX_DEPTH
    decreases k - s.i
  {
    hide Text, Cords.Valid, ShortAreFlat, MinLen, Join, Depth, ForestText, Gathered, SlotOk, ForestOk, Good, Turn;
    if s.sumLen == n {
      ForestTextTail(f, s.i, k);
      GatheredDepth(limit, s.sum, s.i);
      c := s.sum;
    } else {
      var t := TurnCollects(limit, f, s, k, fuel, junk);
      c := CollectMeets(limit, f, t, n, k, fuel, junk);
    }
  }

  /** CORD_init_forest clears every level a text can use, or finds the text too long. */
  lemma {:induction false} InitialisedMeets(f: seq<Slot>, n: nat, i: nat) returns (k: nat, g: seq<Slot>)
    requires i <= |f| == MAX_DEPTH && forall j: nat :: j < i ==> f[j].c.Empty?
    requires forall j: nat :: j < i ==> MinLen(j) <= n
    ensures n >= TOO_LONG ==> Initialised(f, n, i) == TooLong
    ensures n < TOO_LONG ==> Initialised(f, n, i) == Returns(g) && |g| == MAX_DEPTH
    ensures n < TOO_LONG ==> k < MAX_DEPTH && n < MinLen(k) && ClearBelow(g, k) && forall j: nat :: j < k ==> MinLen(j) <= n
    decreases MAX_DEPTH - i
  {
    hide MinLen;
    Limits();
    k, g := 0, f;
    if i < MAX_DEPTH {
      var h := f[i := f[i].(c := Empty)];
      if MinLen(i) > n {
        MinLenMonotone(i, 47);
        k, g := i, h;
      } else {
        k, g := InitialisedMeets(h, n, i + 1);
      }
    } else {
      assert MinLen(47) <= n;
    }
  }

  lemma LevelsUsed(n: nat, k: nat)
    requires forall j: nat :: j < k ==> MinLen(j) <= n
    ensures forall j: nat :: n < MinLen(j) ==> k <= j
  {
    hide MinLen;
  }

  /** CORD_balance in range: the same text at logarithmic depth, or the abort. */
  lemma RebalanceMeets(limit: nat, x: Cord, fuel: nat, junk: seq<Slot>)
    requires Good(limit, x) && |junk| == MAX_DEPTH && InRange(|Text(x)|)
    ensures BalanceMeets(limit, x, Rebalance(limit, x, fuel, junk))
  {
    if x.Concat? {
      Parts(limit, x);
      hide Text, Cords.Valid, ShortAreFlat, MinLen, Depth, ForestText, SlotOk, ForestOk, Good, ClearBelow, LeftLen, Rebalanced, InsertFrontier, Collect, Initialised, Cleared, Gathered;
      var n := |Text(x)|;
      var k, f := InitialisedMeets(junk, n, 0);
      if n < TOO_LONG {
        ClearForest(limit, f, k);
        var g := InsertMeets(limit, f, x, k, fuel, junk);
        assert ForestText(g, k) == Text(x);
        NothingGathered(limit, g);
        EmptyCord();
        var c := CollectMeets(limit, g, Loop(0, Empty, 0, g), n, k, fuel, junk);
        LevelsUsed(n, k);
        IsRebalanced(limit, x, c, k);
      }
    }
  }

  /** CORD_cat in range ends after at most one rebalance, with the concatenation or the abort. */
  lemma ConcatenateMeets(limit: nat, x: Cord, y: Cord, fuel: nat, junk: seq<Slot>)
    requires Good(limit, x) && Good(limit, y) && |junk| == MAX_DEPTH
    requires Shallow(limit, x, y) || (fuel > 0 && InRange(|Text(x) + Text(y)|))
    ensures CatMeets(limit, x, y, Concatenate(limit, x, y, fuel, junk))
  {
    hide Text, Cords.Valid, ShortAreFlat, MinLen, Join, Rebalanced, Rebalance, Good, InRange;
    JoinIsGood(limit, x, y);
    if Shallow(limit, x, y) {
      ShallowReturns(limit, x, y, fuel, junk);
    } else {
      RebalanceMeets(limit, Join(limit, x, y), fuel - 1, junk);
      DeepIsConcat(limit, x, y);
    }
  }

  lemma DeepIsConcat(limit: nat, x: Cord, y: Cord)
    requires !Shallow(limit, x, y)
    ensures Join(limit, x, y).Concat?
  {
  }
}
