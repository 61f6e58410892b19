/** The cord library as the program runs it: the table of minimum lengths, the forest array and its loops.
    Every method gives what the functions of the recursion give. */
module CordLibrary {
  import opened Cords
  import opened CordRecursion
  import opened CordBalance
  import opened CordTheorems

  lemma SomeJunk() returns (junk: seq<Slot>)
    ensures |junk| == MAX_DEPTH
  {
    junk := seq(MAX_DEPTH, _ => Slot(Empty, 0));
  }

  /** A concatenation that needs no rebalance does not look at any array. */
  lemma AnyJunk(limit: nat, x: Cord, y: Cord, fuel: nat)
    ensures Shallow(limit, x, y) ==> exists junk: seq<Slot> :: |junk| == MAX_DEPTH && Concatenate(limit, x, y, fuel, junk) == Returns(Join(limit, x, y))
  {
    var junk := SomeJunk();
    if Shallow(limit, x, y) {
      ShallowReturns(limit, x, y, fuel, junk);
    }
  }

  lemma SameWithoutFuel(limit: nat, x: Cord, y: Cord, r: Run<Cord>, junk: seq<Slot>)
    requires Shallow(limit, x, y) && exists j: seq<Slot> :: |j| == MAX_DEPTH && r == Concatenate(limit, x, y, 0, j)
    ensures r == Concatenate(limit, x, y, 0, junk) == Returns(Join(limit, x, y))
  {
    var j: seq<Slot> :| |j| == MAX_DEPTH && r == Concatenate(limit, x, y, 0, j);
    ShallowReturns(limit, x, y, 0, j);
    ShallowReturns(limit, x, y, 0, junk);
  }

  lemma LeafText(y: string)
    ensures Text(Leaf(y)) == y
  {
  }

  /** Inside a rebalance no concatenation needs another one. */
  lemma NoFuelMeansShallow(limit: nat, x: Cord, y: Cord, junk: seq<Slot>)
    requires Concatenate(limit, x, y, 0, junk).Returns?
    ensures Shallow(limit, x, y)
  {
  }

  class CordBase {
    /** SHORT_LIMIT, which depends on the size of a pointer. */
    const shortLimit: nat
    const minLen: array<nat>
    var minLenInit: bool

    constructor (limit: nat)
      ensures Valid() && fresh(minLen) && shortLimit == limit
    {
      shortLimit := limit;
      minLen := new nat[MAX_DEPTH];
      minLenInit := false;
    }

    ghost predicate Valid()
      reads this, minLen
    {
      minLen.Length == MAX_DEPTH && (minLenInit ==> Ready())
    }

    ghost predicate Ready()
      reads minLen
    {
      minLen.Length == MAX_DEPTH && forall i: nat {:trigger minLen[i]} :: i < MAX_DEPTH ==> minLen[i] == MinLen(i)
    }

    /** CORD_init_min_len: machine addition, and a guard against its overflow. */
    method InitMinLen()
      requires Valid()
      modifies this, minLen
      ensures Valid() && Ready() && minLenInit
    {
      hide MinLen;
      FirstLengths();
      var previous, last := 1, 2;
      minLen[0] := previous;
      minLen[1] := last;
      for i := 2 to MAX_DEPTH
        invariant forall j: nat :: j < i ==> minLen[j] == MinLen(j)
        invariant previous == MinLen(i - 2) && last == MinLen(i - 1)
      {
        MinLenNext(i);
        var current := (last + previous) % WORD;
        if current < last {
          current := last;
        }
        minLen[i] := current;
        previous := last;
        last := current;
      }
      minLenInit := true;
    }

    /** CORD_init_forest; false when the text is too long. */
    method InitForest(forest: array<Slot>, maxLen: int) returns (ok: bool)
      requires Ready() && forest.Length == MAX_DEPTH
      modifies forest
      ensures Initialised(old(forest[..]), maxLen, 0) == if ok then Returns(forest[..]) else TooLong
    {
      hide MinLen;
      for i := 0 to MAX_DEPTH
        invariant Initialised(old(forest[..]), maxLen, 0) == Initialised(forest[..], maxLen, i)
      {
        ghost var f := forest[..];
        forest[i] := forest[i].(c := Empty);
        assert forest[..] == f[i := f[i].(c := Empty)];
        if minLen[i] > maxLen {
          return true;
        }
      }
      return false;
    }

    /** CORD_cat_char_star. `fuel` is zero inside a rebalance and one outside. */
    method CatCharStar(x: Cord, y: string, ghost fuel: nat) returns (r: Run<Cord>)
      requires Valid() && fuel <= 1
      requires Shallow(shortLimit, x, Leaf(y)) || (fuel > 0 && Good(shortLimit, x) && Good(shortLimit, Leaf(y)) && InRange(|Text(x) + y|))
      modifies if fuel > 0 then {this, minLen} else {}
      ensures Valid()
      ensures exists junk: seq<Slot> :: |junk| == MAX_DEPTH && r == Concatenate(shortLimit, x, Leaf(y), fuel, junk)
      ensures Good(shortLimit, x) && Good(shortLimit, Leaf(y)) ==> CatMeets(shortLimit, x, Leaf(y), r)
      decreases fuel, 1, 0
    {
      hide Text, Cords.Valid, ShortAreFlat, MinLen, Rebalanced, Good, InRange, Rebalance;
      AnyJunk(shortLimit, x, Leaf(y), fuel);
      if x.Empty? {
        return Returns(Leaf(y));
      }
      if y == "" {
        return Returns(x);
      }
      var node := JoinString(shortLimit, x, y);
      if node.Concat? && node.depth >= MAX_DEPTH {
        LeafText(y);
        JoinIsGood(shortLimit, x, Leaf(y));
        r := Balance(node);
      } else {
        r := Returns(node);
      }
    }

    /** CORD_cat. */
    method Cat(x: Cord, y: Cord, ghost fuel: nat) returns (r: Run<Cord>)
      requires Valid() && fuel <= 1
      requires Shallow(shortLimit, x, y) || (fuel > 0 && Good(shortLimit, x) && Good(shortLimit, y) && InRange(|Text(x) + Text(y)|))
      modifies if fuel > 0 then {this, minLen} else {}
      ensures Valid()
      ensures exists junk: seq<Slot> :: |junk| == MAX_DEPTH && r == Concatenate(shortLimit, x, y, fuel, junk)
      ensures Good(shortLimit, x) && Good(shortLimit, y) ==> CatMeets(shortLimit, x, y, r)
      decreases fuel, 1, 1
    {
      hide Text, Cords.Valid, ShortAreFlat, MinLen, Rebalanced, Good, InRange, Rebalance;
      AnyJunk(shortLimit, x, y, fuel);
      if x.Empty? {
        return Returns(y);
      }
      if y.Empty? {
        return Returns(x);
      }
      if y.Leaf? {
        LeafText(y.s);
        r := CatCharStar(x, y.s, fuel);
        return;
      }
      var node := Join(shortLimit, x, y);
      if node.depth >= MAX_DEPTH {
        JoinIsGood(shortLimit, x, y);
        r := Balance(node);
      } else {
        r := Returns(node);
      }
    }

    /** CORD_add_forest. */
    method AddForest(forest: array<Slot>, x: Cord, len: int, ghost junk: seq<Slot>)
      requires Valid() && Ready() && forest.Length == MAX_DEPTH
      requires AddTree(shortLimit, forest[..], x, len, 0, junk).Returns?
      modifies forest
      ensures AddTree(shortLimit, old(forest[..]), x, len, 0, junk) == Returns(forest[..])
      decreases 0, 3, 0
    {
      hide MinLen, Join, Gather, Carry, Shallow, Concatenate;
      var i, sum, sumLen := GatherLower(forest, len, junk);
      NoFuelMeansShallow(shortLimit, sum, x, junk);
      ShallowReturns(shortLimit, sum, x, 0, junk);
      var r := Cat(sum, x, 0);
      SameWithoutFuel(shortLimit, sum, x, r, junk);
      CarryUp(forest, r.value, sumLen + len, i, junk);
    }

    /** The first loop of CORD_add_forest. */
    method GatherLower(forest: array<Slot>, len: int, ghost junk: seq<Slot>) returns (i: nat, sum: Cord, sumLen: int)
      requires Valid() && Ready() && forest.Length == MAX_DEPTH
      requires Gather(shortLimit, Loop(0, Empty, 0, forest[..]), len, 0, junk).Returns?
      modifies forest
      ensures Gather(shortLimit, Loop(0, Empty, 0, old(forest[..])), len, 0, junk) == Returns(Loop(i, sum, sumLen, forest[..]))
      decreases 0, 2, 0
    {
      hide MinLen, Join, Shallow, Concatenate;
      ghost var start := Loop(0, Empty, 0, forest[..]);
      i, sum, sumLen := 0, Empty, 0;
      while len > minLen[i + 1]
        invariant i + 1 < MAX_DEPTH
        invariant Gather(shortLimit, Loop(i, sum, sumLen, forest[..]), len, 0, junk) == Gather(shortLimit, start, len, 0, junk)
        decreases MAX_DEPTH - i
      {
        ghost var f := forest[..];
        if !forest[i].c.Empty? {
          NoFuelMeansShallow(shortLimit, forest[i].c, sum, junk);
          var r := Cat(forest[i].c, sum, 0);
          SameWithoutFuel(shortLimit, forest[i].c, sum, r, junk);
          sum := r.value;
          sumLen := sumLen + forest[i].len;
          forest[i] := forest[i].(c := Empty);
          assert forest[..] == f[i := f[i].(c := Empty)];
        }
        i := i + 1;
      }
    }

    /** The second loop of CORD_add_forest, and the store after it. */
    method CarryUp(forest: array<Slot>, sum0: Cord, sumLen0: int, i0: nat, ghost junk: seq<Slot>)
      requires Valid() && Ready() && forest.Length == MAX_DEPTH
      requires Carry(shortLimit, Loop(i0, sum0, sumLen0, forest[..]), 0, junk).Returns?
      modifies forest
      ensures Carry(shortLimit, Loop(i0, sum0, sumLen0, old(forest[..])), 0, junk) == Returns(forest[..])
      decreases 0, 2, 0
    {
      hide MinLen, Join, Shallow, Concatenate;
      ghost var start := Loop(i0, sum0, sumLen0, forest[..]);
      var i, sum, sumLen := i0, sum0, sumLen0;
      while sumLen >= minLen[i]
        invariant i < MAX_DEPTH
        invariant Carry(shortLimit, Loop(i, sum, sumLen, forest[..]), 0, junk) == Carry(shortLimit, start, 0, junk)
        decreases MAX_DEPTH - i
      {
        ghost var f := forest[..];
        if !forest[i].c.Empty? {
          NoFuelMeansShallow(shortLimit, forest[i].c, sum, junk);
          var r := Cat(forest[i].c, sum, 0);
          SameWithoutFuel(shortLimit, forest[i].c, sum, r, junk);
          sum := r.value;
          sumLen := sumLen + forest[i].len;
          forest[i] := forest[i].(c := Empty);
          assert forest[..] == f[i := f[i].(c := Empty)];
        }
        i := i + 1;
      }
      i := i - 1;
      ghost var f := forest[..];
      forest[i] := Slot(sum, sumLen);
      assert forest[..] == f[i := Slot(sum, sumLen)];
    }

    /** CORD_concat_forest. */
    method ConcatForest(forest: array<Slot>, expectedLen: int, ghost junk: seq<Slot>) returns (sum: Cord)
      requires Valid() && Ready() && forest.Length == MAX_DEPTH
      requires Collect(shortLimit, Loop(0, Empty, 0, forest[..]), expectedLen, 0, junk).Returns?
      ensures Collect(shortLimit, Loop(0, Empty, 0, forest[..]), expectedLen, 0, junk) == Returns(sum)
      decreases 0, 2, 0
    {
      hide MinLen, Join, Shallow, Concatenate;
      ghost var start := Loop(0, Empty, 0, forest[..]);
      var i, sumLen := 0, 0;
      sum := Empty;
      while sumLen != expectedLen
        invariant i <= MAX_DEPTH
        invariant Collect(shortLimit, Loop(i, sum, sumLen, forest[..]), expectedLen, 0, junk) == Collect(shortLimit, start, expectedLen, 0, junk)
        decreases MAX_DEPTH - i
      {
        if !forest[i].c.Empty? {
          NoFuelMeansShallow(shortLimit, forest[i].c, sum, junk);
          var r := Cat(forest[i].c, sum, 0);
          SameWithoutFuel(shortLimit, forest[i].c, sum, r, junk);
          sum := r.value;
          sumLen := sumLen + forest[i].len;
        }
        i := i + 1;
      }
    }

    /** CORD_balance_insert. */
    method BalanceInsert(x: Cord, len: int, forest: array<Slot>, ghost junk: seq<Slot>)
      requires Valid() && Ready() && forest.Length == MAX_DEPTH
      requires InsertFrontier(shortLimit, forest[..], x, len, 0, junk).Returns?
      modifies forest
      ensures InsertFrontier(shortLimit, old(forest[..]), x, len, 0, junk) == Returns(forest[..])
      decreases 0, 4, Size(x)
    {
      hide MinLen, Join, LeftLen, AddTree;
      if x.Leaf? {
        AddForest(forest, x, len, junk);
      } else if x.Concat? && (x.depth >= MAX_DEPTH || len < minLen[x.depth]) {
        var leftLen := LeftLen(x);
        BalanceInsert(x.left, leftLen, forest, junk);
        BalanceInsert(x.right, len - leftLen, forest, junk);
      } else {
        AddForest(forest, x, len, junk);
      }
    }

    /** CORD_balance. */
    method Balance(x: Cord) returns (r: Run<Cord>)
      requires Valid() && (x.Concat? ==> Good(shortLimit, x) && InRange(|Text(x)|))
      modifies this, minLen
      ensures Valid()
      ensures exists junk: seq<Slot> :: |junk| == MAX_DEPTH && r == Rebalance(shortLimit, x, 0, junk)
      ensures BalanceMeets(shortLimit, x, r)
      decreases 0, 6, 0
    {
      hide Text, Cords.Valid, ShortAreFlat, MinLen, Rebalanced, Good, InRange, Initialised, InsertFrontier, Collect, Depth;
      if !x.Concat? {
        ghost var junk := SomeJunk();
        assert Rebalance(shortLimit, x, 0, junk) == Returns(x);
        return Returns(x);
      }
      if !minLenInit {
        InitMinLen();
      }
      r := Rebuild(x);
    }

    /** The part of CORD_balance behind its two tests. */
    method Rebuild(x: Cord) returns (r: Run<Cord>)
      requires Valid() && Ready() && x.Concat? && Good(shortLimit, x) && InRange(|Text(x)|)
      ensures exists junk: seq<Slot> :: |junk| == MAX_DEPTH && r == Rebalance(shortLimit, x, 0, junk)
      ensures BalanceMeets(shortLimit, x, r)
      decreases 0, 5, 0
    {
      hide Text, Cords.Valid, ShortAreFlat, MinLen, Rebalanced, Good, InRange, Initialised, InsertFrontier, Collect, Depth;
      var forest := new Slot[MAX_DEPTH];
      ghost var junk := forest[..];
      Parts(shortLimit, x);
      RebalanceMeets(shortLimit, x, 0, junk);
      ghost var k, f := InitialisedMeets(junk, x.len, 0);
      var ok := InitForest(forest, x.len);
      if !ok {
        return TooLong;
      }
      BalanceInsert(x, x.len, forest, junk);
      var c := ConcatForest(forest, x.len, junk);
      r := Returns(c);
    }

    /** CORD_substr_checked. A slice is no deeper than the cord, so taking one never rebalances. */
    method SubstrChecked(x: Cord, i: nat, n: nat) returns (r: Cord)
      requires Valid() && Client(shortLimit, x) && 0 < n && i + n <= |Text(x)|
      ensures Valid() && Client(shortLimit, r) && Text(r) == Text(x)[i..i + n] && Depth(r) <= Depth(x)
      decreases Size(x)
    {
      hide Text, Cords.Valid, ShortAreFlat, MinLen, InRange, Join, Depth, LeftLen;
      ClientParts(shortLimit, x);
      if x.Leaf? {
        LeafSlice(shortLimit, x, i, n);
        return Leaf(x.s[i..i + n]);
      }
      var leftLen := LeftLen(x);
      var rightLen := x.len - leftLen;
      Slices(Text(x.left), Text(x.right), i, n);
      if i >= leftLen {
        if n == rightLen {
          return x.right;
        }
        r := SubstrChecked(x.right, i - leftLen, n);
      } else if i + n <= leftLen {
        if n == leftLen {
          return x.left;
        }
        r := SubstrChecked(x.left, i, n);
      } else {
        var leftPartLen := leftLen - i;
        var leftPart := x.left;
        if i != 0 {
          leftPart := SubstrChecked(x.left, i, leftPartLen);
        }
        var rightPart := x.right;
        if i + n != rightLen + leftLen {
          rightPart := SubstrChecked(x.right, 0, n - leftPartLen);
        }
        SliceJoin(shortLimit, x, leftPart, rightPart);
        var c := Cat(leftPart, rightPart, 0);
        r := c.value;
      }
    }

    /** CORD_substr: clipped to the cord, empty when it starts beyond it. */
    method Substr(x: Cord, i: nat, n: nat) returns (r: Cord)
      requires Valid() && Client(shortLimit, x)
      ensures Valid() && Client(shortLimit, r) && Depth(r) <= Depth(x)
      ensures Text(r) == if i >= |Text(x)| then "" else Text(x)[i..if i + n > |Text(x)| then |Text(x)| else i + n]
    {
      LengthIsExact(x);
      var len := Length(x);
      if i >= len || n == 0 {
        return Empty;
      }
      var m := if i + n > len then len - i else n;
      r := SubstrChecked(x, i, m);
    }
  }
}
