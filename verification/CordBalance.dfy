/** What concatenation with rebalancing means: texts, depths, and when the mutual recursion of CORD_cat and
    CORD_balance ends. */
module CordBalance {
  import opened Cords
  import opened CordRecursion

  predicate Good(limit: nat, x: Cord) {
    Valid(x) && ShortAreFlat(limit, x)
  }

  /** A slot of the forest at level `i`: empty, or a tree of the right length range, balanced but for one
      level, so no deeper than `i + 1`. */
  predicate SlotOk(limit: nat, s: Slot, i: nat) {
    s.c.Empty? ||
    (Good(limit, s.c) && s.len == |Text(s.c)| && MinLen(i) <= s.len < MinLen(i + 1) && AlmostBalanced(s.c))
  }

  lemma SlotDepth(limit: nat, s: Slot, i: nat)
    requires SlotOk(limit, s, i) && !s.c.Empty?
    ensures Good(limit, s.c) && s.len == |Text(s.c)| && Depth(s.c) <= i + 1
  {
    if Depth(s.c) > 0 {
      MinLenReflects(Depth(s.c) - 1, i + 1);
    }
  }

  predicate ForestOk(limit: nat, f: seq<Slot>, k: nat) {
    k <= |f| && forall i: nat :: i < k ==> SlotOk(limit, f[i], i)
  }

  /** `f` is the forest `f0` with the levels below `i` emptied. */
  predicate Cleared(f0: seq<Slot>, f: seq<Slot>, i: nat) {
    && i <= |f| == |f0|
    && (forall j: nat :: j < i ==> f[j].c.Empty?)
    && (forall j: nat :: i <= j < |f| ==> f[j] == f0[j])
  }

  lemma ClearedNext(f0: seq<Slot>, f: seq<Slot>, i: nat)
    requires Cleared(f0, f, i) && i < |f|
    ensures f[i] == f0[i] && Cleared(f0, f[i := f[i].(c := Empty)], i + 1)
    ensures f[i].c.Empty? ==> Cleared(f0, f, i + 1)
  {
  }

  lemma SlotAt(limit: nat, f: seq<Slot>, k: nat, i: nat)
    requires ForestOk(limit, f, k) && i < k
    ensures i < |f| && SlotOk(limit, f[i], i)
  {
  }

  predicate ClearBelow(f: seq<Slot>, i: nat) {
    i <= |f| && forall j: nat :: j < i ==> f[j].c.Empty?
  }

  /** The forest below level `k`, in decreasing order of levels. */
  function ForestText(f: seq<Slot>, k: nat): string
    requires k <= |f|
  {
    if k == 0 then "" else Text(f[k - 1].c) + ForestText(f, k - 1)
  }

  lemma ForestTextNext(f: seq<Slot>, i: nat)
    requires i < |f|
    ensures ForestText(f, i + 1) == Text(f[i].c) + ForestText(f, i)
    ensures f[i].c.Empty? ==> ForestText(f, i + 1) == ForestText(f, i)
  {
  }

  lemma {:induction false} ForestTextClear(f: seq<Slot>, k: nat)
    requires ClearBelow(f, k)
    ensures ForestText(f, k) == ""
  {
    if k > 0 {
      ForestTextClear(f, k - 1);
    }
  }

  /** Replacing everything up to level `i` by one tree there. */
  lemma {:induction false} ForestTextPut(f: seq<Slot>, g: seq<Slot>, i: nat, k: nat, t: string)
    requires i < k <= |f| == |g|
    requires ClearBelow(g, i) && Text(g[i].c) == ForestText(f, i + 1) + t
    requires forall j: nat :: i < j < k ==> g[j].c == f[j].c
    ensures ForestText(g, k) == ForestText(f, k) + t
  {
    hide Text, ForestText, ClearBelow;
    ForestTextNext(f, k - 1);
    ForestTextNext(g, k - 1);
    if k == i + 1 {
      ForestTextClear(g, i);
      assert Text(g[i].c) + "" == Text(g[i].c);
    } else {
      ForestTextPut(f, g, i, k - 1, t);
      Regroup(Text(f[k - 1].c), ForestText(f, k - 1), t);
    }
  }

  lemma Regroup(a: string, b: string, c: string)
    ensures a + (b + c) == (a + b) + c
  {
  }

  lemma {:induction false} ForestTextLonger(f: seq<Slot>, i: nat, k: nat)
    requires i <= k <= |f|
    ensures |ForestText(f, i)| <= |ForestText(f, k)|
  {
    if i < k {
      ForestTextLonger(f, i, k - 1);
    }
  }

  lemma {:induction false} ForestTextTail(f: seq<Slot>, i: nat, k: nat)
    requires i <= k <= |f| && |ForestText(f, i)| == |ForestText(f, k)|
    ensures ForestText(f, i) == ForestText(f, k)
  {
    if i < k {
      ForestTextLonger(f, i, k - 1);
      ForestTextTail(f, i, k - 1);
      assert Text(f[k - 1].c) == "";
    }
  }

  lemma NothingGathered(limit: nat, f: seq<Slot>)
    ensures Gathered(limit, Empty, 0) && Good(limit, Empty)
    ensures Text(Empty) == ForestText(f, 0) == "" && Cleared(f, f, 0)
  {
  }

  // ---- The arithmetic of one step

  /** The concatenation needs no rebalancing. */
  predicate Shallow(limit: nat, x: Cord, y: Cord) {
    Trivial(x, y) || Depth(Join(limit, x, y)) < MAX_DEPTH
  }

  /** What is gathered from the levels below `i`: at most one level too deep, and only if long. */
  predicate Gathered(limit: nat, sum: Cord, i: nat) {
    && Good(limit, sum)
    && if i == 0 then sum.Empty? else Depth(sum) <= i + 1 && (Depth(sum) == i + 1 ==> MinLen(i - 1) <= |Text(sum)|)
  }

  lemma GatherNone(limit: nat, sum: Cord, i: nat)
    requires Gathered(limit, sum, i)
    ensures Gathered(limit, sum, i + 1)
  {
  }

  lemma GatherOne(limit: nat, s: Slot, sum: Cord, i: nat)
    requires SlotOk(limit, s, i) && !s.c.Empty? && Gathered(limit, sum, i)
    requires i <= 46 && |Text(s.c)| + |Text(sum)| <= LIMIT + 1
    ensures s.len == |Text(s.c)| && Shallow(limit, s.c, sum)
    ensures Text(Join(limit, s.c, sum)) == Text(s.c) + Text(sum) && Gathered(limit, Join(limit, s.c, sum), i + 1)
  {
    hide Text, Valid, ShortAreFlat, Join, MinLen, Depth, SlotOk, AlmostBalanced;
    SlotDepth(limit, s, i);
    JoinMeaning(limit, s.c, sum);
    JoinKeepsShortFlat(limit, s.c, sum);
    if i == 46 {
      TopSlot(limit, s, sum);
    }
    GatheredDepth(limit, sum, i);
    SlotLength(limit, s, i);
  }

  lemma SlotLength(limit: nat, s: Slot, i: nat)
    requires SlotOk(limit, s, i) && !s.c.Empty?
    ensures MinLen(i) <= |Text(s.c)|
  {
  }

  /** Next to a tree in the last usable level there is room for one character only. */
  lemma TopSlot(limit: nat, s: Slot, sum: Cord)
    requires SlotOk(limit, s, 46) && !s.c.Empty? && Good(limit, sum) && |Text(s.c)| + |Text(sum)| <= LIMIT + 1
    ensures sum.Empty? || (Depth(sum) == 0 && Depth(s.c) <= 46)
  {
    hide MinLen;
    Limits();
    if !sum.Empty? {
      GoodText(limit, sum);
      ShortIsFlat(limit, sum);
      if Depth(s.c) > 0 {
        MinLenReflects(Depth(s.c) - 1, 46);
      }
    }
  }

  lemma ShortIsFlat(limit: nat, x: Cord)
    requires Good(limit, x) && |Text(x)| <= 1
    ensures Depth(x) == 0
  {
    if x.Concat? {
      NonEmptyText(x.left);
      NonEmptyText(x.right);
    }
  }

  /** The tree being carried up to level `i`: balanced but for one level. */
  predicate Carried(limit: nat, sum: Cord, i: nat) {
    && Good(limit, sum) && !sum.Empty?
    && AlmostBalanced(sum) && Depth(sum) <= i + 2
  }

  lemma CarryStart(limit: nat, sum: Cord, x: Cord, i: nat)
    requires Gathered(limit, sum, i) && Good(limit, x) && !x.Empty? && Balanced(x)
    requires |Text(x)| <= MinLen(i + 1) && (i > 0 ==> MinLen(i) < |Text(x)|)
    requires |Text(sum)| + |Text(x)| <= LIMIT + 1
    ensures Shallow(limit, sum, x)
    ensures Text(Join(limit, sum, x)) == Text(sum) + Text(x)
    ensures Carried(limit, Join(limit, sum, x), i) && Good(limit, Join(limit, sum, x)) && MinLen(i) <= |Text(sum)| + |Text(x)|
  {
    hide Text, Valid, ShortAreFlat, Join, MinLen, Depth;
    JoinMeaning(limit, sum, x);
    JoinKeepsShortFlat(limit, sum, x);
    GoodText(limit, x);
    FirstLengths();
    DepthFits(Depth(x), |Text(x)|, i + 1);
    if sum.Empty? {
      EmptyCord();
      BalancedIsAlmost(x);
    } else {
      GoodText(limit, sum);
      JoinedDepth(Depth(sum), Depth(x), |Text(sum)|, |Text(x)|, i);
      DepthAllowed(Max(Depth(sum), Depth(x)), |Text(sum)| + |Text(x)|);
      AlmostFrom(Join(limit, sum, x), Max(Depth(sum), Depth(x)));
    }
  }

  /** A tree one level above depth `d` stays under the limit. */
  lemma DepthAllowed(d: nat, n: nat)
    requires MinLen(d) < n <= LIMIT + 1
    ensures d <= 46
  {
    Limits();
    hide MinLen;
    if d > 46 {
      MinLenGrows(46, d);
    }
  }

  lemma EmptyCord()
    ensures Text(Empty) == "" && Depth(Empty) == 0
  {
  }

  lemma DepthFits(d: nat, n: nat, i: nat)
    requires MinLen(d) <= n <= MinLen(i)
    ensures d <= i
  {
    if d > i {
      MinLenGrows(i, d);
    }
  }

  lemma BalancedIsAlmost(x: Cord)
    requires Balanced(x)
    ensures AlmostBalanced(x)
  {
    if Depth(x) > 0 {
      MinLenGrows(Depth(x) - 1, Depth(x));
    }
  }

  lemma AlmostFrom(x: Cord, d: nat)
    requires Depth(x) <= d + 1 && MinLen(d) < |Text(x)|
    ensures AlmostBalanced(x)
  {
    if Depth(x) > 0 {
      MinLenMonotone(Depth(x) - 1, d);
    }
  }

  lemma JoinedDepth(ds: nat, dx: nat, ns: nat, nx: nat, i: nat)
    requires i > 0 && ds <= i + 1 && (ds == i + 1 ==> MinLen(i - 1) <= ns) && MinLen(dx) <= nx && MinLen(i) < nx && 0 < ns
    ensures MinLen(Max(ds, dx)) < ns + nx
  {
    if ds <= i {
      MinLenMonotone(ds, i);
    }
  }

  lemma CarryPast(limit: nat, sum: Cord, i: nat)
    requires Carried(limit, sum, i)
    ensures Carried(limit, sum, i + 1)
  {
  }

  lemma CarryMerge(limit: nat, s: Slot, sum: Cord, i: nat)
    requires SlotOk(limit, s, i) && !s.c.Empty? && Carried(limit, sum, i) && MinLen(i) <= |Text(sum)|
    requires |Text(s.c)| + |Text(sum)| <= LIMIT + 1
    ensures s.len == |Text(s.c)| && Good(limit, s.c) && Shallow(limit, s.c, sum)
    ensures Text(Join(limit, s.c, sum)) == Text(s.c) + Text(sum)
    ensures Carried(limit, Join(limit, s.c, sum), i + 1) && Good(limit, Join(limit, s.c, sum))
  {
    SlotLength(limit, s, i);
    if i == 0 {
      BottomSlot(limit, s);
    }
    hide Text, Cords.Valid, ShortAreFlat, Join, Depth, MinLen, SlotOk;
    SlotDepth(limit, s, i);
    JoinMeaning(limit, s.c, sum);
    JoinKeepsShortFlat(limit, s.c, sum);
    MergedDepth(Depth(s.c), Depth(sum), |Text(s.c)|, |Text(sum)|, i);
    DepthAllowed(Max(Depth(s.c), Depth(sum)), |Text(s.c)| + |Text(sum)|);
    AlmostFrom(Join(limit, s.c, sum), Max(Depth(s.c), Depth(sum)));
  }

  lemma BottomSlot(limit: nat, s: Slot)
    requires SlotOk(limit, s, 0) && !s.c.Empty?
    ensures Depth(s.c) == 0
  {
    ShortIsFlat(limit, s.c);
  }

  lemma MergedDepth(df: nat, ds: nat, nf: nat, ns: nat, i: nat)
    requires df <= i + 1 && ds <= i + 2 && MinLen(i) <= nf && MinLen(i) <= ns && (i == 0 ==> df == 0)
    requires ds == 0 || MinLen(ds - 1) < ns
    ensures MinLen(Max(df, ds)) < nf + ns
  {
    hide MinLen;
    var d := Max(df, ds);
    MinLenStep(i);
    FirstLengths();
    if d == i + 2 {
      assert ds == i + 2;
    } else if i > 0 {
      MinLenStep(i - 1);
      MinLenGrows(i - 1, i);
      MinLenMonotone(d, i + 1);
    } else {
      assert d == ds;
    }
  }

  /** A carried tree fits the level whose range its length is in. */
  lemma CarryEnds(limit: nat, sum: Cord, i: nat)
    requires Carried(limit, sum, i + 1) && MinLen(i) <= |Text(sum)| < MinLen(i + 1)
    ensures SlotOk(limit, Slot(sum, |Text(sum)|), i)
  {
    if Depth(sum) > 0 {
      MinLenReflects(Depth(sum) - 1, i + 1);
    }
  }

  /** The lengths for which concatenation and rebalancing always end. */
  predicate InRange(n: nat) {
    n <= LIMIT + 1 || TOO_LONG <= n
  }

  lemma GatheredDepth(limit: nat, sum: Cord, i: nat)
    requires Gathered(limit, sum, i)
    ensures Good(limit, sum) && Depth(sum) <= i + 1
  {
  }

  lemma CarryStored(limit: nat, f0: seq<Slot>, f: seq<Slot>, sum: Cord, i: nat, k: nat, t: string)
    requires ForestOk(limit, f0, k) && Cleared(f0, f, i + 1) && i < k <= |f0|
    requires Carried(limit, sum, i + 1) && MinLen(i) <= |Text(sum)| < MinLen(i + 1)
    requires Text(sum) == ForestText(f0, i + 1) + t
    ensures var f' := f[i := Slot(sum, |Text(sum)|)];
      ForestOk(limit, f', k) && ForestText(f', k) == ForestText(f0, k) + t
  {
    hide Text, Cords.Valid, ShortAreFlat, MinLen, Depth, ForestText, SlotOk;
    var f' := f[i := Slot(sum, |Text(sum)|)];
    CarryEnds(limit, sum, i);
    forall j: nat | j < k && j != i ensures SlotOk(limit, f'[j], j) {
      if j < i {
        EmptySlotOk(limit, f'[j], j);
      }
    }
    ForestTextPut(f0, f', i, k, t);
  }

  lemma EmptySlotOk(limit: nat, s: Slot, i: nat)
    requires s.c.Empty?
    ensures SlotOk(limit, s, i)
  {
  }

  /** A cord's parts, and when it counts as balanced. */
  lemma Parts(limit: nat, x: Cord)
    requires Good(limit, x) && !x.Empty?
    ensures x.Leaf? ==> Balanced(x)
    ensures x.Concat? ==> x.depth == Depth(x)
    ensures x.Concat? ==> LeftLen(x) == |Text(x.left)| && x.len - LeftLen(x) == |Text(x.right)|
    ensures x.Concat? ==> Good(limit, x.left) && Good(limit, x.right) && !x.left.Empty? && !x.right.Empty?
    ensures x.Concat? ==> Text(x) == Text(x.left) + Text(x.right) && |Text(x)| == x.len > 0
  {
    if x.Concat? {
      LeftLenIsExact(x);
    }
  }

  lemma IsRebalanced(limit: nat, x: Cord, c: Cord, k: nat)
    requires Good(limit, c) && Text(c) == Text(x) && Depth(c) <= k + 1 && Depth(c) < MAX_DEPTH
    requires forall j: nat :: |Text(x)| < MinLen(j) ==> k <= j
    ensures Rebalanced(limit, Text(x), c)
  {
  }

  lemma GoodText(limit: nat, x: Cord)
    requires Good(limit, x) && !x.Empty?
    ensures |Text(x)| > 0
  {
    NonEmptyText(x);
  }

  lemma ClearForest(limit: nat, f: seq<Slot>, k: nat)
    requires ClearBelow(f, k)
    ensures ForestOk(limit, f, k) && ForestText(f, k) == ""
  {
    ForestTextClear(f, k);
  }

  lemma StartsBelow(k: nat, len: nat)
    requires 0 < len < MinLen(k)
    ensures 0 < k
  {
  }

  /** What rebalancing promises: the same text, at logarithmic depth. */
  predicate Rebalanced(limit: nat, text: string, r: Cord) {
    && Good(limit, r) && Text(r) == text && Depth(r) < MAX_DEPTH
    && forall k: nat :: |text| < MinLen(k) ==> Depth(r) <= k + 1
  }

  predicate BalanceMeets(limit: nat, x: Cord, r: Run<Cord>) {
    if !x.Concat? then r == Returns(x)
    else if TOO_LONG <= |Text(x)| then r == TooLong
    else r.Returns? && Rebalanced(limit, Text(x), r.value)
  }

  predicate CatMeets(limit: nat, x: Cord, y: Cord, r: Run<Cord>) {
    if Shallow(limit, x, y) then r == Returns(Join(limit, x, y))
    else if TOO_LONG <= |Text(x) + Text(y)| then r == TooLong
    else r.Returns? && Rebalanced(limit, Text(x) + Text(y), r.value)
  }

  /** The cords clients hold: well formed and never deeper than rebalancing allows. */
  predicate Client(limit: nat, x: Cord) {
    Good(limit, x) && Depth(x) < MAX_DEPTH
  }

  /** Concatenating clients' cords of reasonable length gives a client's cord and never ends the program. */
  lemma ClientCat(limit: nat, x: Cord, y: Cord)
    requires Client(limit, x) && Client(limit, y) && |Text(x) + Text(y)| <= LIMIT + 1
    ensures InRange(|Text(x) + Text(y)|)
    ensures forall r :: CatMeets(limit, x, y, r) ==> r.Returns? && Client(limit, r.value) && Text(r.value) == Text(x) + Text(y)
  {
    Limits();
    hide MinLen, Text, Cords.Valid, ShortAreFlat, Join, Depth;
    JoinIsGood(limit, x, y);
    JoinMeaning(limit, x, y);
    TrivialJoin(limit, x, y);
  }

  lemma ClientParts(limit: nat, x: Cord)
    requires Client(limit, x) && |Text(x)| > 0
    ensures Good(limit, x) && !x.Empty? && (x.Leaf? ==> Text(x) == x.s)
    ensures x.Concat? ==> Client(limit, x.left) && Client(limit, x.right)
    ensures x.Concat? ==> Text(x) == Text(x.left) + Text(x.right) && |Text(x)| == x.len
    ensures x.Concat? ==> LeftLen(x) == |Text(x.left)| > 0 && Depth(x.left) < Depth(x) && Depth(x.right) < Depth(x)
  {
    Parts(limit, x);
    if x.Concat? {
      GoodText(limit, x.left);
    }
  }

  /** Joining slices of both parts is no deeper than the cord they come from. */
  lemma SliceJoin(limit: nat, x: Cord, l: Cord, r: Cord)
    requires Client(limit, x) && x.Concat? && Client(limit, l) && Client(limit, r)
    requires Depth(l) <= Depth(x.left) && Depth(r) <= Depth(x.right)
    ensures Shallow(limit, l, r) && Depth(Join(limit, l, r)) <= Depth(x)
    ensures Client(limit, Join(limit, l, r)) && Text(Join(limit, l, r)) == Text(l) + Text(r)
  {
    JoinMeaning(limit, l, r);
    JoinIsGood(limit, l, r);
    hide Join;
  }

  lemma LeafSlice(limit: nat, x: Cord, i: nat, n: nat)
    requires Client(limit, x) && x.Leaf? && 0 < n && i + n <= |x.s|
    ensures Client(limit, Leaf(x.s[i..i + n])) && Text(Leaf(x.s[i..i + n])) == x.s[i..i + n] && Depth(Leaf(x.s[i..i + n])) == Depth(x)
  {
  }

  lemma Slices(a: string, b: string, i: nat, n: nat)
    requires i + n <= |a| + |b|
    ensures i >= |a| ==> (a + b)[i..i + n] == b[i - |a|..i - |a| + n]
    ensures i + n <= |a| ==> (a + b)[i..i + n] == a[i..i + n]
    ensures i < |a| < i + n ==> (a + b)[i..i + n] == a[i..i + (|a| - i)] + b[0..n - (|a| - i)]
    ensures a[0..|a|] == a && b[0..|b|] == b
  {
  }

  lemma MinLenNext(i: nat)
    requires 2 <= i < MAX_DEPTH
    ensures MinLen(i) == MinLen(i - 1) + MinLen(i - 2) && MinLen(i - 1) <= MinLen(i) < WORD
  {
    MinLenFits(i);
    MinLenGrows(i - 1, i);
  }

  lemma TrivialJoin(limit: nat, x: Cord, y: Cord)
    requires Good(limit, x) && Good(limit, y)
    ensures Cords.Valid(x) && (x.Empty? ==> Join(limit, x, y) == y) && (y.Empty? && !x.Empty? ==> Join(limit, x, y) == x)
    ensures y.Leaf? ==> Text(y) == y.s && NoNul(y.s) && y.s != ""
  {
  }

  lemma JoinIsGood(limit: nat, x: Cord, y: Cord)
    requires Good(limit, x) && Good(limit, y)
    ensures Good(limit, Join(limit, x, y)) && Text(Join(limit, x, y)) == Text(x) + Text(y)
    ensures !Trivial(x, y) && !y.Leaf? ==> Join(limit, x, y).Concat?
  {
    JoinMeaning(limit, x, y);
    JoinKeepsShortFlat(limit, x, y);
  }
}
