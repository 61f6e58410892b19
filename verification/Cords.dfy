/** Cords: immutable trees of strings with cached depth, length and left length. */
module Cords {

  datatype Cord =
    | Empty
    | Leaf(s: string)
    | Concat(depth: nat, leftLen: nat, len: nat, left: Cord, right: Cord)

  const MAX_LEFT_LEN: nat := 255

  /** The string a cord stands for. */
  function Text(x: Cord): string {
    match x
    case Empty => ""
    case Leaf(s) => s
    case Concat(_, _, _, l, r) => Text(l) + Text(r)
  }

  predicate NoNul(s: string) {
    forall i :: 0 <= i < |s| ==> s[i] != '\0'
  }

  function Max(a: nat, b: nat): nat {
    if a < b then b else a
  }

  function StoredLeftLen(n: nat): nat {
    if n <= MAX_LEFT_LEN then n else 0
  }

  function Depth(x: Cord): nat {
    if x.Concat? then x.depth else 0
  }

  /** Well-formed cords: no empty part below the root, and every cached number exact. */
  predicate Valid(x: Cord) {
    match x
    case Empty => true
    case Leaf(s) => s != "" && NoNul(s)
    case Concat(d, ll, n, l, r) =>
      && Valid(l) && Valid(r) && !l.Empty? && !r.Empty?
      && d == 1 + Max(Depth(l), Depth(r))
      && n == |Text(x)|
      && ll == StoredLeftLen(|Text(l)|)
  }

  lemma {:induction false} NonEmptyText(x: Cord)
    requires Valid(x) && !x.Empty?
    ensures |Text(x)| > 0
  {
    if x.Concat? {
      NonEmptyText(x.left);
    }
  }

  /** CORD_len. */
  function Length(x: Cord): nat {
    match x
    case Empty => 0
    case Leaf(s) => |s|
    case Concat(_, _, n, _, _) => n
  }

  lemma LengthIsExact(x: Cord)
    requires Valid(x)
    ensures Length(x) == |Text(x)|
  {
  }

  /** LEFT_LEN and left_len_helper: the cached value, or what the other cached lengths leave. */
  function LeftLen(x: Cord): int
    requires x.Concat?
  {
    if x.leftLen != 0 then x.leftLen
    else if x.left.Leaf? then x.len - Length(x.right)
    else Length(x.left)
  }

  lemma LeftLenIsExact(x: Cord)
    requires Valid(x) && x.Concat?
    ensures LeftLen(x) == |Text(x.left)|
    ensures 0 < LeftLen(x) < x.len && x.len - LeftLen(x) == |Text(x.right)|
  {
    NonEmptyText(x.left);
    NonEmptyText(x.right);
  }

  /** A concatenation node; the constructor stores the left length only when it fits in a byte. */
  function Node(depth: nat, leftLen: nat, len: nat, left: Cord, right: Cord): Cord {
    Concat(depth, StoredLeftLen(leftLen), len, left, right)
  }

  /** The length of the right part of `x`, the way CORD_cat_char_star finds it. */
  function RightLen(x: Cord): int
    requires x.Concat? && x.right.Leaf?
  {
    if !x.left.Leaf? then x.len - Length(x.left)
    else if x.leftLen != 0 then x.len - x.leftLen
    else |x.right.s|
  }

  lemma RightLenIsExact(x: Cord)
    requires Valid(x) && x.Concat? && x.right.Leaf?
    ensures RightLen(x) == |x.right.s| <= x.len
  {
    NonEmptyText(x.left);
    LengthIsExact(x.left);
    assert Text(x) == Text(x.left) + x.right.s;
  }

  /** Whether y is short enough to be merged into the right part of x, whose length is never out of range
      in a well-formed cord. */
  predicate Merges(limit: nat, x: Cord, y: string) {
    && x.Concat? && |y| <= limit / 2
    && x.right.Leaf? && 0 <= RightLen(x) <= x.len && RightLen(x) + |y| <= limit
  }

  /** CORD_cat_char_star without the final rebalancing; strings of up to `limit` characters merge. */
  function JoinString(limit: nat, x: Cord, y: string): Cord {
    if x.Empty? then Leaf(y)
    else if y == "" then x
    else if x.Leaf? then
      if |x.s| + |y| <= limit then Leaf(x.s + y)
      else Node(1, |x.s|, |x.s| + |y|, x, Leaf(y))
    else if Merges(limit, x, y) then
      Node(Depth(x.left) + 1, x.len - RightLen(x), x.len + |y|, x.left, Leaf(x.right.s + y))
    else Node(x.depth + 1, x.len, x.len + |y|, x, Leaf(y))
  }

  /** CORD_cat without the final rebalancing. */
  function Join(limit: nat, x: Cord, y: Cord): Cord {
    if x.Empty? then y
    else if y.Empty? then x
    else if y.Leaf? then JoinString(limit, x, y.s)
    else if x.Leaf? then Node(y.depth + 1, |x.s|, |x.s| + y.len, x, y)
    else Node(Max(x.depth, y.depth) + 1, x.len, x.len + y.len, x, y)
  }

  /** Appending a string appends it to the text, whichever way the pieces are merged. */
  lemma JoinStringMeaning(limit: nat, x: Cord, y: string)
    requires Valid(x) && NoNul(y) && (x.Empty? ==> y != "")
    ensures Valid(JoinString(limit, x, y)) && !JoinString(limit, x, y).Empty?
    ensures Text(JoinString(limit, x, y)) == Text(x) + y
    ensures Depth(JoinString(limit, x, y)) <= 1 + Depth(x)
  {
    var r := JoinString(limit, x, y);
    if x.Concat? && y != "" {
      if Merges(limit, x, y) {
        RightLenIsExact(x);
        assert Text(x.left) + (x.right.s + y) == Text(x) + y;
      }
    } else if y == "" {
      assert Text(x) + y == Text(x);
    }
  }

  /** The two ways an appended string is merged: with a short string, or with the short right part of a node
      when it is at most half as long as a short string. */
  predicate MergesInto(limit: nat, x: Cord, y: string) {
    if x.Leaf? then |x.s| + |y| <= limit
    else x.Concat? && x.right.Leaf? && |x.right.s| + |y| <= limit && |y| <= limit / 2
  }

  /** Appending a string deepens a cord exactly when it is not merged, and shares all that it does not change. */
  lemma AppendedWhere(limit: nat, x: Cord, y: string)
    requires Valid(x) && !x.Empty? && y != ""
    ensures var r := JoinString(limit, x, y);
      if MergesInto(limit, x, y) then
        Depth(r) == Depth(x) && if x.Leaf? then r == Leaf(x.s + y) else r.Concat? && r.left == x.left && r.right == Leaf(x.right.s + y)
      else r.Concat? && r.left == x && r.right == Leaf(y) && Depth(r) == Depth(x) + 1
  {
    if x.Concat? && x.right.Leaf? {
      RightLenIsExact(x);
    }
  }

  /** Any other concatenation is one new node over the two cords. */
  lemma JoinedWhere(limit: nat, x: Cord, y: Cord)
    requires Valid(x) && Valid(y) && !x.Empty? && y.Concat?
    ensures var r := Join(limit, x, y); r.Concat? && r.left == x && r.right == y && Depth(r) == 1 + Max(Depth(x), Depth(y))
  {
  }

  /** The left length is cached up to 255 characters. */
  lemma LeftLenCached(x: Cord)
    requires Valid(x) && x.Concat? && |Text(x.left)| <= 255
    ensures x.leftLen == |Text(x.left)|
  {
  }

  /** Concatenation concatenates the texts and adds at most one level. */
  lemma JoinMeaning(limit: nat, x: Cord, y: Cord)
    requires Valid(x) && Valid(y)
    ensures Valid(Join(limit, x, y)) && Text(Join(limit, x, y)) == Text(x) + Text(y)
    ensures Join(limit, x, y).Empty? <==> x.Empty? && y.Empty?
    ensures x.Empty? ==> Join(limit, x, y) == y
    ensures Depth(Join(limit, x, y)) <= 1 + Max(Depth(x), Depth(y))
  {
    if y.Empty? {
      assert Text(x) + Text(y) == Text(x);
    } else if y.Leaf? {
      JoinStringMeaning(limit, x, y.s);
    }
  }

  /** "Cords shorter than SHORT_LIMIT are C strings": every concatenation node is longer. */
  predicate ShortAreFlat(limit: nat, x: Cord) {
    x.Concat? ==> x.len > limit && ShortAreFlat(limit, x.left) && ShortAreFlat(limit, x.right)
  }

  lemma JoinKeepsShortFlat(limit: nat, x: Cord, y: Cord)
    requires Valid(x) && Valid(y) && ShortAreFlat(limit, x) && ShortAreFlat(limit, y)
    ensures ShortAreFlat(limit, Join(limit, x, y))
  {
    if !x.Empty? && y.Leaf? {
      JoinStringKeepsShortFlat(limit, x, y.s);
    }
  }

  lemma JoinStringKeepsShortFlat(limit: nat, x: Cord, y: string)
    requires Valid(x) && ShortAreFlat(limit, x)
    ensures ShortAreFlat(limit, JoinString(limit, x, y))
  {
  }

  // ---- Balance

  /** The least length of a balanced cord of the given depth: Fibonacci numbers. */
  function MinLen(i: nat): nat {
    if i == 0 then 1 else if i == 1 then 2 else MinLen(i - 1) + MinLen(i - 2)
  }

  predicate Balanced(x: Cord) {
    MinLen(Depth(x)) <= |Text(x)|
  }

  /** Balanced but for one extra level. */
  predicate AlmostBalanced(x: Cord) {
    Depth(x) == 0 || MinLen(Depth(x) - 1) < |Text(x)|
  }

  lemma {:induction false} MinLenGrows(i: nat, j: nat)
    requires i < j
    ensures 0 < MinLen(i) < MinLen(j)
  {
    if j > i + 1 {
      MinLenGrows(i, j - 1);
    }
    MinLenPositive(j - 1);
    if j >= 2 {
      MinLenPositive(j - 2);
    }
  }

  lemma {:induction false} MinLenPositive(i: nat)
    ensures MinLen(i) > 0
  {
    if i >= 2 {
      MinLenPositive(i - 1);
      MinLenPositive(i - 2);
    }
  }

  lemma {:induction false} MinLenDoubles(i: nat)
    ensures MinLen(i + 1) <= 2 * MinLen(i)
  {
    if i >= 1 {
      MinLenGrows(i - 1, i);
    }
  }

  lemma MinLenMonotone(i: nat, j: nat)
    requires i <= j
    ensures MinLen(i) <= MinLen(j)
  {
    if i < j {
      MinLenGrows(i, j);
    }
  }

  lemma MinLenReflects(i: nat, j: nat)
    requires MinLen(i) < MinLen(j)
    ensures i < j
  {
    if j <= i {
      MinLenMonotone(j, i);
    }
  }

  lemma MinLenSkip(i: nat)
    ensures MinLen(i + 4) <= 16 * MinLen(i)
  {
    MinLenDoubles(i);
    MinLenDoubles(i + 1);
    MinLenDoubles(i + 2);
    MinLenDoubles(i + 3);
  }

  /** The table of minimum lengths fits in machine words. */
  lemma MinLenFits(i: nat)
    requires i < 48
    ensures 2 * MinLen(i) < 0x1_0000_0000_0000_0000
  {
    forall j: nat ensures MinLen(j + 4) <= 16 * MinLen(j) {
      MinLenSkip(j);
    }
    assert MinLen(24) <= 0x100_0000 by {
      assert MinLen(0 + 4) <= 16;
      assert MinLen(4 + 4) <= 0x100;
      assert MinLen(8 + 4) <= 0x1000;
      assert MinLen(12 + 4) <= 0x1_0000;
      assert MinLen(16 + 4) <= 0x10_0000;
      assert MinLen(20 + 4) <= 0x100_0000;
    }
    assert MinLen(24 + 4) <= 0x1000_0000;
    assert MinLen(28 + 4) <= 0x1_0000_0000;
    assert MinLen(32 + 4) <= 0x10_0000_0000;
    assert MinLen(36 + 4) <= 0x100_0000_0000;
    assert MinLen(40 + 4) <= 0x1000_0000_0000;
    assert MinLen(44 + 4) <= 0x1_0000_0000_0000;
    MinLenMonotone(i, 48);
  }

  /** The last two minimum lengths: below the first every rebalanced cord is shallow enough, from the
      second on a cord is too long to be rebalanced at all. */
  const LIMIT: nat := 4807526976
  const TOO_LONG: nat := 7778742049

  lemma EightSteps(i: nat)
    ensures MinLen(i + 8) == 21 * MinLen(i + 1) + 13 * MinLen(i)
    ensures MinLen(i + 9) == 34 * MinLen(i + 1) + 21 * MinLen(i)
  {
    hide MinLen;
    MinLenStep(i);
    MinLenStep(i + 1);
    MinLenStep(i + 2);
    MinLenStep(i + 3);
    MinLenStep(i + 4);
    MinLenStep(i + 5);
    MinLenStep(i + 6);
    MinLenStep(i + 7);
  }

  lemma MinLenStep(i: nat)
    ensures MinLen(i + 2) == MinLen(i + 1) + MinLen(i)
  {
  }

  lemma FirstLengths()
    ensures MinLen(0) == 1 && MinLen(1) == 2
  {
  }

  lemma LimitsFrom(z: nat)
    requires MinLen(z) == 1 && MinLen(z + 1) == 2
    ensures MinLen(z + 46) == LIMIT && MinLen(z + 47) == TOO_LONG
  {
    hide MinLen;
    EightSteps(z);
    EightSteps(z + 8);
    EightSteps(z + 16);
    EightSteps(z + 24);
    EightSteps(z + 32);
    MinLenStep(z + 40);
    MinLenStep(z + 41);
    MinLenStep(z + 42);
    MinLenStep(z + 43);
    MinLenStep(z + 44);
    MinLenStep(z + 45);
  }

  lemma Limits()
    ensures MinLen(46) == LIMIT && MinLen(47) == TOO_LONG
  {
    hide MinLen;
    FirstLengths();
    LimitsFrom(0);
  }
}
