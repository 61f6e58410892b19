/** Mark packets and the three pools they move between: bounded stacks of grey cells in one storage
    array, chained into pools through the packets themselves. */
module Packets {
  import opened Common

  const PACKET_SIZE: nat := 512
  const PACKETS_COUNT: nat := 256

  /** No packet: a null handle, or the end of a chain. */
  const NIL: int := -1

  /** Where a packet is: in one of the three pools, or with a worker or the marker. */
  datatype Place = InFull | InPartial | InEmpty | Held

  datatype Pool = Pool(head: int, size: nat)

  function KindOf(size: nat): Place {
    if size == 0 then InEmpty else if size < PACKET_SIZE / 2 then InPartial else InFull
  }

  // ---- Chains

  predicate InStorage(list: seq<nat>) {
    forall i :: 0 <= i < |list| ==> list[i] < PACKETS_COUNT
  }

  function Nth(list: seq<nat>, i: nat): int {
    if i < |list| then list[i] else NIL
  }

  /** `list` is what the chain from the pool's head along `next` visits. */
  predicate Chain(next: seq<int>, pool: Pool, list: seq<nat>) {
    && |next| == PACKETS_COUNT && InStorage(list) && NoRepeats(list)
    && pool.size == |list| && pool.head == Nth(list, 0)
    && forall i :: 0 <= i < |list| ==> next[list[i]] == Nth(list, i + 1)
  }

  lemma ChainPush(next: seq<int>, pool: Pool, list: seq<nat>, p: nat)
    requires Chain(next, pool, list) && p < PACKETS_COUNT && p !in list
    ensures Chain(next[p := pool.head], Pool(p, pool.size + 1), [p] + list)
  {
    var list', next' := [p] + list, next[p := pool.head];
    forall i | 0 <= i < |list'| ensures next'[list'[i]] == Nth(list', i + 1) {
      assert i > 0 ==> list'[i] == list[i - 1] && list[i - 1] in list;
    }
  }

  lemma ChainPop(next: seq<int>, pool: Pool, list: seq<nat>)
    requires Chain(next, pool, list) && list != []
    ensures pool.head == list[0] && Chain(next, Pool(next[list[0]], pool.size - 1), list[1..])
  {
  }

  /** A chain does not notice a change to a packet outside of it. */
  lemma ChainApart(next: seq<int>, pool: Pool, list: seq<nat>, p: nat, n: int)
    requires Chain(next, pool, list) && p < PACKETS_COUNT && p !in list
    ensures Chain(next[p := n], pool, list)
  {
    forall i | 0 <= i < |list| ensures next[p := n][list[i]] == Nth(list, i + 1) {
      assert list[i] in list;
    }
  }

  // ---- Places

  /** The packets whose place is `at` are exactly those of the list. */
  predicate Holds(place: seq<Place>, at: Place, list: seq<nat>) {
    |place| == PACKETS_COUNT && forall p: nat :: p < PACKETS_COUNT ==> (p in list <==> place[p] == at)
  }

  lemma HoldsPush(place: seq<Place>, at: Place, list: seq<nat>, p: nat)
    requires Holds(place, at, list) && p < PACKETS_COUNT
    ensures Holds(place[p := at], at, [p] + list)
  {
  }

  lemma HoldsPop(place: seq<Place>, at: Place, list: seq<nat>, to: Place)
    requires Holds(place, at, list) && list != [] && NoRepeats(list) && InStorage(list) && to != at
    ensures Holds(place[list[0] := to], at, list[1..])
  {
    forall p: nat | p < PACKETS_COUNT ensures p in list[1..] <==> place[list[0] := to][p] == at {
      if p in list[1..] {
        var i :| 0 <= i < |list[1..]| && list[1..][i] == p;
        assert list[i + 1] == p && list[0] != list[i + 1];
      }
      if p in list && p != list[0] {
        var i :| 0 <= i < |list| && list[i] == p;
        assert list[1..][i - 1] == p;
      }
    }
  }

  lemma HoldsApart(place: seq<Place>, at: Place, list: seq<nat>, p: nat, to: Place)
    requires Holds(place, at, list) && p < PACKETS_COUNT && place[p] != at && to != at
    ensures Holds(place[p := to], at, list)
  {
  }

  /** A pool as long as the storage has every packet in it. */
  lemma FullCountIff(place: seq<Place>, at: Place, list: seq<nat>)
    requires Holds(place, at, list) && NoRepeats(list) && InStorage(list)
    ensures |list| == PACKETS_COUNT <==> forall p: nat :: p < PACKETS_COUNT ==> place[p] == at
  {
    MembersCount(list);
    if |list| == PACKETS_COUNT {
      FullSetHasAll(Members(list), PACKETS_COUNT);
      forall p: nat | p < PACKETS_COUNT ensures place[p] == at {
        assert p in Members(list);
      }
    }
    if forall p: nat :: p < PACKETS_COUNT ==> place[p] == at {
      forall p: nat ensures p in Members(list) <==> p < PACKETS_COUNT {
        assert p in Members(list) <==> p in list;
      }
      AllCounted(Members(list), PACKETS_COUNT);
    }
  }

  lemma AllCounted(a: set<nat>, n: nat)
    requires forall p: nat :: p in a <==> p < n
    ensures |a| == n
  {
    assert a == UpTo(n);
  }

  /** Packets in a pool are of its kind. */
  predicate Sorted(cells: seq<seq<nat>>, place: seq<Place>) {
    && |cells| == |place| == PACKETS_COUNT
    && forall p: nat :: p < PACKETS_COUNT ==>
         |cells[p]| <= PACKET_SIZE && (!place[p].Held? ==> place[p] == KindOf(|cells[p]|))
  }

  class PacketManager {
    /** The filled part of every packet's m_data, and the packets' m_next. */
    var cells: seq<seq<nat>>
    var next: seq<int>
    var full: Pool
    var partial: Pool
    var empty: Pool
    ghost var place: seq<Place>
    ghost var fulls: seq<nat>
    ghost var partials: seq<nat>
    ghost var empties: seq<nat>

    /** Every packet is in exactly one pool or held, and the pools' chains visit exactly their packets. */
    ghost predicate Valid()
      reads this
    {
      && Chain(next, full, fulls) && Chain(next, partial, partials) && Chain(next, empty, empties)
      && Holds(place, InFull, fulls) && Holds(place, InPartial, partials) && Holds(place, InEmpty, empties)
      && Sorted(cells, place)
    }

    constructor ()
      ensures Valid() && cells == seq(PACKETS_COUNT, _ => [])
      ensures forall p: nat :: p < PACKETS_COUNT ==> place[p].InEmpty?
    {
      cells := seq(PACKETS_COUNT, _ => []);
      next := seq(PACKETS_COUNT, _ => NIL);
      full, partial, empty := Pool(NIL, 0), Pool(NIL, 0), Pool(NIL, 0);
      place := seq(PACKETS_COUNT, _ => Held);
      fulls, partials, empties := [], [], [];
      new;
      for p := 0 to PACKETS_COUNT
        invariant Valid() && fulls == [] && partials == []
        invariant cells == seq(PACKETS_COUNT, _ => [])
        invariant forall q: nat :: q < PACKETS_COUNT ==> place[q] == if q < p then InEmpty else Held
      {
        PushPacket(p);
      }
    }

    /** mark_packet::push into a packet one holds. */
    method PushCell(p: nat, cell: nat)
      requires Valid() && p < PACKETS_COUNT && place[p].Held? && |cells[p]| < PACKET_SIZE
      modifies this`cells
      ensures Valid() && cells == old(cells)[p := old(cells)[p] + [cell]]
    {
      cells := cells[p := cells[p] + [cell]];
    }

    method PopCell(p: nat) returns (cell: nat)
      requires Valid() && p < PACKETS_COUNT && place[p].Held? && |cells[p]| > 0
      modifies this`cells
      ensures Valid() && cells == old(cells)[p := cells[p]] && old(cells)[p] == cells[p] + [cell]
    {
      var n := |cells[p]| - 1;
      cell := cells[p][n];
      cells := cells[p := cells[p][..n]];
    }

    /** packet_manager::pop_input_packet: a full packet, else a partial one. */
    method PopInput() returns (p: int)
      requires Valid()
      modifies this`next, this`full, this`partial, this`place, this`fulls, this`partials
      ensures Valid()
      ensures p == NIL <==> forall q: nat :: q < PACKETS_COUNT ==> !old(place)[q].InFull? && !old(place)[q].InPartial?
      ensures p == NIL ==> place == old(place)
      ensures p != NIL ==> 0 <= p < PACKETS_COUNT && place == old(place)[p := Held] && |cells[p]| > 0
      ensures p != NIL ==> old(place)[p].InFull? || (old(place)[p].InPartial? && forall q: nat :: q < PACKETS_COUNT ==> !old(place)[q].InFull?)
    {
      if full.size != 0 {
        p := PopFull();
      } else if partial.size != 0 {
        assert fulls == [];
        p := PopPartial();
      } else {
        assert fulls == [] && partials == [];
        p := NIL;
      }
    }

    method PopFull() returns (p: nat)
      requires Valid() && full.size > 0
      modifies this`full, this`place, this`fulls
      ensures Valid() && p < PACKETS_COUNT && old(place)[p].InFull? && place == old(place)[p := Held]
    {
      ChainPop(next, full, fulls);
      p := full.head;
      HoldsPop(place, InFull, fulls, Held);
      HoldsApart(place, InPartial, partials, p, Held);
      HoldsApart(place, InEmpty, empties, p, Held);
      full := Pool(next[p], full.size - 1);
      fulls, place := fulls[1..], place[p := Held];
    }

    method PopPartial() returns (p: nat)
      requires Valid() && partial.size > 0
      modifies this`partial, this`place, this`partials
      ensures Valid() && p < PACKETS_COUNT && old(place)[p].InPartial? && place == old(place)[p := Held]
    {
      ChainPop(next, partial, partials);
      p := partial.head;
      HoldsPop(place, InPartial, partials, Held);
      HoldsApart(place, InFull, fulls, p, Held);
      HoldsApart(place, InEmpty, empties, p, Held);
      partial := Pool(next[p], partial.size - 1);
      partials, place := partials[1..], place[p := Held];
    }

    method PopEmpty() returns (p: nat)
      requires Valid() && empty.size > 0
      modifies this`empty, this`place, this`empties
      ensures Valid() && p < PACKETS_COUNT && old(place)[p].InEmpty? && place == old(place)[p := Held]
    {
      ChainPop(next, empty, empties);
      p := empty.head;
      HoldsPop(place, InEmpty, empties, Held);
      HoldsApart(place, InFull, fulls, p, Held);
      HoldsApart(place, InPartial, partials, p, Held);
      empty := Pool(next[p], empty.size - 1);
      empties, place := empties[1..], place[p := Held];
    }

    /** packet_manager::pop_output_packet: an empty packet, else a partial one. */
    method PopOutput() returns (p: int)
      requires Valid()
      modifies this`next, this`empty, this`partial, this`place, this`empties, this`partials
      ensures Valid()
      ensures p == NIL <==> forall q: nat :: q < PACKETS_COUNT ==> !old(place)[q].InEmpty? && !old(place)[q].InPartial?
      ensures p == NIL ==> place == old(place)
      ensures p != NIL ==> 0 <= p < PACKETS_COUNT && place == old(place)[p := Held] && |cells[p]| < PACKET_SIZE / 2
      ensures p != NIL ==> old(place)[p].InEmpty? || (old(place)[p].InPartial? && forall q: nat :: q < PACKETS_COUNT ==> !old(place)[q].InEmpty?)
    {
      if empty.size != 0 {
        p := PopEmpty();
      } else if partial.size != 0 {
        assert empties == [];
        p := PopPartial();
      } else {
        assert empties == [] && partials == [];
        p := NIL;
      }
    }

    /** packet_manager::push_packet: to the pool of the packet's kind. */
    method PushPacket(p: nat)
      requires Valid() && p < PACKETS_COUNT && place[p].Held?
      modifies this`next, this`full, this`partial, this`empty, this`place, this`fulls, this`partials, this`empties
      ensures Valid() && place == old(place)[p := KindOf(|cells[p]|)]
      ensures |cells[p]| == 0 ==> fulls == old(fulls) && partials == old(partials)
    {
      var n := |cells[p]|;
      if n == 0 {
        PushTo(InEmpty, p);
        empty := Pool(p, empty.size + 1);
        empties := [p] + empties;
      } else if n < PACKET_SIZE / 2 {
        PushTo(InPartial, p);
        partial := Pool(p, partial.size + 1);
        partials := [p] + partials;
      } else if n >= PACKET_SIZE / 2 {
        PushTo(InFull, p);
        full := Pool(p, full.size + 1);
        fulls := [p] + fulls;
      }
    }

    /** The part of packet_pool::push that the three pools share: the link from the packet. */
    method PushTo(at: Place, p: nat)
      requires Valid() && p < PACKETS_COUNT && place[p].Held? && at == KindOf(|cells[p]|)
      modifies this`next, this`place
      ensures place == old(place)[p := at] && Sorted(cells, place)
      ensures if at.InFull? then Chain(next, Pool(p, full.size + 1), [p] + fulls) && Holds(place, at, [p] + fulls)
              else Chain(next, full, fulls) && Holds(place, InFull, fulls)
      ensures if at.InPartial? then Chain(next, Pool(p, partial.size + 1), [p] + partials) && Holds(place, at, [p] + partials)
              else Chain(next, partial, partials) && Holds(place, InPartial, partials)
      ensures if at.InEmpty? then Chain(next, Pool(p, empty.size + 1), [p] + empties) && Holds(place, at, [p] + empties)
              else Chain(next, empty, empties) && Holds(place, InEmpty, empties)
    {
      var head := if at.InFull? then full.head else if at.InPartial? then partial.head else empty.head;
      if at.InFull? {
        ChainPush(next, full, fulls, p);
        HoldsPush(place, at, fulls, p);
      } else {
        ChainApart(next, full, fulls, p, head);
        HoldsApart(place, InFull, fulls, p, at);
      }
      if at.InPartial? {
        ChainPush(next, partial, partials, p);
        HoldsPush(place, at, partials, p);
      } else {
        ChainApart(next, partial, partials, p, head);
        HoldsApart(place, InPartial, partials, p, at);
      }
      if at.InEmpty? {
        ChainPush(next, empty, empties, p);
        HoldsPush(place, at, empties, p);
      } else {
        ChainApart(next, empty, empties, p, head);
        HoldsApart(place, InEmpty, empties, p, at);
      }
      next := next[p := head];
      place := place[p := at];
    }

    /** packet_manager::is_no_input holds exactly when every packet is in the empty pool: then none is
        held and no packet has a cell in it. */
    method IsNoInput() returns (b: bool)
      requires Valid()
      ensures b <==> forall p: nat :: p < PACKETS_COUNT ==> place[p].InEmpty?
      ensures b ==> forall p: nat :: p < PACKETS_COUNT ==> cells[p] == []
    {
      FullCountIff(place, InEmpty, empties);
      b := empty.size == PACKETS_COUNT;
    }
  }
}
