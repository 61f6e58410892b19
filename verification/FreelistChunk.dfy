/** A chunk of equal cells whose freelist is threaded through the cells themselves, lazily: only the
    first `init` cells have been touched, and every exhaustion threads twice as many as the last. */
module FreelistChunk {
  import opened Common

  function After(list: seq<nat>, i: nat, stop: nat): nat {
    if i < |list| then list[i] else stop
  }

  /** The chain from `from` visits `list` and ends at `stop`. */
  predicate Chain(word: seq<nat>, from: nat, list: seq<nat>, stop: nat) {
    && NoRepeats(list) && stop <= |word|
    && (forall i :: 0 <= i < |list| ==> list[i] < stop)
    && from == After(list, 0, stop)
    && forall i :: 0 <= i < |list| ==> word[list[i]] == After(list, i + 1, stop)
  }

  function Span(lo: nat, hi: nat): (r: seq<nat>)
    requires lo <= hi
    ensures |r| == hi - lo && forall i :: 0 <= i < |r| ==> r[i] == lo + i
  {
    seq(hi - lo, i requires 0 <= i < hi - lo => lo + i)
  }

  lemma ChainPut(word: seq<nat>, from: nat, list: seq<nat>, stop: nat, p: nat)
    requires Chain(word, from, list, stop) && p < stop && p !in list
    ensures Chain(word[p := from], p, [p] + list, stop)
  {
    var word', list' := word[p := from], [p] + list;
    forall i | 0 <= i < |list'| ensures word'[list'[i]] == After(list', i + 1, stop) {
      assert i > 0 ==> list'[i] == list[i - 1] && list[i - 1] in list && After(list', i + 1, stop) == After(list, i, stop);
    }
  }

  lemma ChainTake(word: seq<nat>, from: nat, list: seq<nat>, stop: nat)
    requires Chain(word, from, list, stop) && from != stop
    ensures list != [] && from == list[0] && from < stop && list[0] !in list[1..] && list == [from] + list[1..]
    ensures Chain(word, word[from], list[1..], stop)
  {
    assert list == [list[0]] + list[1..];
    forall i | 0 <= i < |list[1..]| ensures word[list[1..][i]] == After(list[1..], i + 1, stop) {
      assert list[1..][i] == list[i + 1] && After(list[1..], i + 1, stop) == After(list, i + 2, stop);
    }
  }

  /** Threading leaves the handed-out cells as they were. */
  lemma ThreadedSame(init: nat, end: nat)
    requires init <= end
    ensures forall c: nat :: c < end && c !in Span(init, end) <==> c < init
  {
    forall c: nat | init <= c < end ensures c in Span(init, end) {
      assert Span(init, end)[c - init] == c;
    }
  }

  class Chunk {
    /** The first word of every cell; a pointer is a cell number, and `word.Length` is the chunk's end. */
    const word: array<nat>
    var next: nat
    var init: nat
    var gain: nat
    var allocCnt: nat
    ghost var free: seq<nat>

    constructor (cells: nat)
      requires cells > 0
      ensures Valid() && fresh(word) && word.Length == cells && Allocated() == {}
    {
      word := new nat[cells];
      next, init, gain, allocCnt := 0, 0, 1, 0;
      free := [];
    }

    ghost predicate Valid()
      reads this, word
    {
      && init <= word.Length && gain > 0
      && Chain(word[..], next, free, init)
      && allocCnt + |free| == init
    }

    /** The cells handed out: touched, and not on the chain. */
    ghost function Allocated(): set<nat>
      reads this
    {
      set c: nat | c < init && c !in free
    }

    lemma AllocatedCount()
      requires Valid()
      ensures |Allocated()| == allocCnt
    {
      MembersCount(free);
      assert Allocated() == UpTo(init) - Members(free);
      assert Members(free) <= UpTo(init);
    }

    /** Memory is available exactly as long as not every cell is handed out. */
    method MemoryAvailable() returns (b: bool)
      requires Valid()
      ensures b <==> |Allocated()| < word.Length
    {
      AllocatedCount();
      b := next != word.Length;
    }

    /** The threading loop: cells [init, end) become the chain. */
    method Thread(end: nat)
      requires init < end <= word.Length && next == init
      modifies word
      ensures Chain(word[..], next, Span(init, end), end)
    {
      for it := init to end
        invariant forall c :: init <= c < it ==> word[c] == c + 1
      {
        word[it] := it + 1;
      }
    }

    method Allocate() returns (p: nat)
      requires Valid() && next != word.Length
      modifies this, word
      ensures Valid() && p < word.Length && p !in old(Allocated()) && Allocated() == old(Allocated()) + {p}
    {
      ghost var before := Allocated();
      if next == init {
        assert free == [];
        var end := if init + gain < word.Length then init + gain else word.Length;
        Thread(end);
        ThreadedSame(init, end);
        free := Span(init, end);
        init := end;
        gain := gain * 2;
      }
      assert Allocated() == before;
      ChainTake(word[..], next, free, init);
      p := next;
      next := word[next];
      free := free[1..];
      allocCnt := allocCnt + 1;
    }

    method Deallocate(p: nat)
      requires Valid() && p in Allocated()
      modifies this, word
      ensures Valid() && Allocated() == old(Allocated()) - {p}
    {
      AllocatedCount();
      assert |Allocated()| > 0;
      ChainPut(word[..], next, free, init, p);
      word[p] := next;
      next := p;
      free := [p] + free;
      allocCnt := allocCnt - 1;
    }
  }
}
