/** The remembered set: a bounded store buffer per thread in front of a shared hash set. */
module Remset {
  import opened Common
  import opened HeapGraph
  import opened ConcurrentMark

  function Held(table: set<Ptr>, buffers: map<nat, seq<Ptr>>): set<Ptr> {
    table + set t, i | t in buffers && 0 <= i < |buffers[t]| :: buffers[t][i]
  }

  class RememberedSet {
    var table: set<Ptr>
    var buffers: map<nat, seq<Ptr>>

    constructor ()
      ensures Valid() && Contents() == {}
    {
      table, buffers := {}, map[];
    }

    ghost predicate Valid()
      reads this
    {
      forall t :: t in buffers ==> |buffers[t]| <= SSB_SIZE
    }

    /** Everything that was added and not yet taken: what the marker will see. */
    ghost function Contents(): set<Ptr>
      reads this
    {
      Held(table, buffers)
    }

    /** remset::add by thread `t`. The hash set and the buffers change as one step of the machine says. */
    method Add(t: nat, p: Ptr, ghost s: State)
      requires Valid() && s.remset == table && s.ssb == buffers
      modifies this
      ensures Valid() && Contents() == old(Contents()) + {p}
      ensures AddToBuffer(s, t, p) == s.(remset := table, ssb := buffers)
    {
      var buffer := if t in buffers then buffers[t] else [];
      if |buffer| == SSB_SIZE {
        table := table + set q | q in buffer;
        buffer := [];
      }
      assert [] + [p] == [p];
      buffers := buffers[t := buffer + [p]];
      AddedContents(old(table), old(buffers), table, buffers, t, p);
    }

    /** remset::get: takes some pointer out of the hash set, or finds it empty. */
    method Get() returns (p: Option<Ptr>)
      requires Valid()
      modifies this
      ensures Valid() && buffers == old(buffers)
      ensures p.None? <==> old(table) == {}
      ensures p.None? ==> table == old(table)
      ensures p.Some? ==> p.value in old(table) && table == old(table) - {p.value}
    {
      if table == {} {
        return None;
      }
      var q :| q in table;
      table := table - {q};
      p := Some(q);
    }

    /** remset::flush_buffers, one flush_ssb per thread: everything added is in the hash set. */
    method FlushBuffers(ghost s: State)
      requires Valid() && s.remset == table && s.ssb == buffers
      modifies this
      ensures Valid() && Contents() == old(Contents()) == table
      ensures table == s.remset + Buffered(s) && buffers == map t | t in s.ssb :: []
    {
      hide Held, Buffered;
      var todo := buffers.Keys;
      ghost var before := Contents();
      while todo != {}
        invariant todo <= buffers.Keys == s.ssb.Keys
        invariant forall t :: t in buffers ==> buffers[t] == if t in todo then s.ssb[t] else []
        invariant Contents() == before
        decreases |todo|
      {
        var t :| t in todo;
        ghost var table0, buffers0 := table, buffers;
        table := table + set q | q in buffers[t];
        buffers := buffers[t := []];
        todo := todo - {t};
        FlushedContents(table0, buffers0, t);
      }
      HeldByMachine(s);
      HeldWhenFlushed(table, buffers);
    }

    lemma HeldByMachine(s: State)
      ensures Held(s.remset, s.ssb) == s.remset + Buffered(s)
    {
      forall u, i | u in s.ssb && 0 <= i < |s.ssb[u]| ensures s.ssb[u][i] in Buffered(s) {
        assert s.ssb[u][i] in s.ssb[u];
      }
    }

    lemma HeldWhenFlushed(table: set<Ptr>, buffers: map<nat, seq<Ptr>>)
      requires forall t :: t in buffers ==> buffers[t] == []
      ensures Held(table, buffers) == table
    {
    }

    lemma FlushedContents(table0: set<Ptr>, buffers0: map<nat, seq<Ptr>>, t: nat)
      requires t in buffers0
      ensures var table := table0 + (set q | q in buffers0[t]); var buffers := buffers0[t := []];
        Held(table, buffers) == Held(table0, buffers0)
    {
      var buffers := buffers0[t := []];
      var now := set u, i | u in buffers && 0 <= i < |buffers[u]| :: buffers[u][i];
      forall u, i | u in buffers0 && 0 <= i < |buffers0[u]|
        ensures buffers0[u][i] in now || buffers0[u][i] in buffers0[t]
      {
        if u != t {
          assert buffers[u][i] == buffers0[u][i];
        }
      }
      forall u, i | u in buffers && 0 <= i < |buffers[u]| ensures u != t && buffers[u][i] == buffers0[u][i] {
      }
    }

    /** remset::clear empties the hash set only. */
    method Clear()
      requires Valid()
      modifies this
      ensures Valid() && table == {} && buffers == old(buffers)
    {
      table := {};
    }

    lemma AddedContents(table0: set<Ptr>, buffers0: map<nat, seq<Ptr>>, table: set<Ptr>, buffers: map<nat, seq<Ptr>>, t: nat, p: Ptr)
      requires var b := if t in buffers0 then buffers0[t] else [];
        if |b| == SSB_SIZE then table == table0 + (set q | q in b) && buffers == buffers0[t := [p]]
        else table == table0 && buffers == buffers0[t := b + [p]]
      ensures Held(table, buffers) == Held(table0, buffers0) + {p}
    {
      var b := if t in buffers0 then buffers0[t] else [];
      var now := set u, i | u in buffers && 0 <= i < |buffers[u]| :: buffers[u][i];
      var was := set u, i | u in buffers0 && 0 <= i < |buffers0[u]| :: buffers0[u][i];
      assert buffers[t][|buffers[t]| - 1] == p;
      forall u, i | u in buffers0 && 0 <= i < |buffers0[u]| ensures buffers0[u][i] in table + now {
        if u != t || |b| < SSB_SIZE {
          assert buffers[u][i] == buffers0[u][i];
        }
      }
      forall u, i | u in buffers && 0 <= i < |buffers[u]| ensures buffers[u][i] in was + {p} {
        if buffers[u][i] != p {
          assert buffers0[u][i] == buffers[u][i];
        }
      }
      forall q | q in b ensures q in was {
        var i :| 0 <= i < |b| && b[i] == q;
        assert buffers0[t][i] == q;
      }
    }
  }
}
