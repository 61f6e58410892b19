/** What a collection leaves behind in the whole heap: the pools, compacted or swept one after the other,
    change cells of their own ranges only, and together they move every live cell at most once. */
module Rearrangement {
  import opened Common
  import opened Compaction

  /** A cell that neither moved nor received another: garbage may be freed, and an unmarked cell may hold
      a link. */
  predicate StaysAt(s0: Snapshot, s: Snapshot, freed: set<nat>, c: nat) {
    && c < |s0.mark| == |s0.init| == |s0.box| == |s.mark| == |s.init| == |s.box|
    && s.mark[c] == s0.mark[c] && s.init[c] == (s0.init[c] && c !in freed) && (s0.mark[c] ==> s.box[c] == s0.box[c])
  }

  /** Live cells have moved by `fwd` and the garbage cells `freed` have been freed. */
  predicate Rearranged(types: Types, s0: Snapshot, s: Snapshot, fwd: map<nat, nat>, freed: set<nat>) {
    && Sized(s0, s)
    && (forall c :: c in fwd ==> Relocated(types, s0, s, c, fwd[c]))
    && Injective(fwd)
    && (forall c :: 0 <= c < |s0.mark| && c !in fwd && c !in fwd.Values ==> StaysAt(s0, s, freed, c))
    && Freed(s0, freed)
  }

  lemma SlidRearranges(types: Types, s0: Snapshot, s: Snapshot, fwd: map<nat, nat>, freed: set<nat>)
    requires Slid(types, s0, s, fwd, freed)
    ensures Rearranged(types, s0, s, fwd, freed)
  {
    hide Relocated;
  }

  lemma SweptRearranges(types: Types, rng: Range, s0: Snapshot, s: Snapshot)
    requires Sized(s0, s0) && SweptBelow(rng, s0, s, rng.hi)
    ensures Rearranged(types, s0, s, map[], GarbageBelow(rng, s0, rng.hi))
    ensures Inside(rng, map[], GarbageBelow(rng, s0, rng.hi))
  {
  }

  lemma NothingRearranged(types: Types, s: Snapshot)
    requires Sized(s, s)
    ensures Rearranged(types, s, s, map[], {})
  {
  }

  /** Nothing outside of the range has changed. */
  predicate Outside(rng: Range, s0: Snapshot, s: Snapshot) {
    |s.mark| == |s0.mark| && forall c: nat :: c < |s0.mark| && !Within(rng, c) ==> SameAt(s0, s, c)
  }

  lemma SlidOutside(types: Types, rng: Range, s0: Snapshot, s: Snapshot, fwd: map<nat, nat>, freed: set<nat>)
    requires Slid(types, s0, s, fwd, freed) && Inside(rng, fwd, freed)
    ensures Outside(rng, s0, s)
  {
    hide Relocated, Within;
    forall c: nat | c < |s0.mark| && !Within(rng, c) ensures SameAt(s0, s, c) {
      assert c !in fwd && c !in fwd.Values;
    }
  }

  lemma SweptOutside(rng: Range, s0: Snapshot, s: Snapshot)
    requires SweptBelow(rng, s0, s, rng.hi)
    ensures Outside(rng, s0, s)
  {
  }

  /** Everything so far has happened below `n`. */
  predicate Below(n: nat, s0: Snapshot, s: Snapshot, fwd: map<nat, nat>, freed: set<nat>) {
    && |s.mark| == |s0.mark|
    && (forall c: nat :: n <= c < |s0.mark| ==> SameAt(s0, s, c))
    && (forall c :: c in fwd ==> c < n && fwd[c] < n)
    && (forall c :: c in freed ==> c < n)
  }

  lemma NothingBelow(s: Snapshot)
    requires Sized(s, s)
    ensures Below(0, s, s, map[], {})
  {
  }

  /** The next pool's cells have not been touched before, and it touches no others. */
  lemma BelowThen(rng: Range, s0: Snapshot, s1: Snapshot, s2: Snapshot,
                  fwd1: map<nat, nat>, freed1: set<nat>, fwd2: map<nat, nat>, freed2: set<nat>)
    requires Below(rng.lo, s0, s1, fwd1, freed1) && Outside(rng, s1, s2) && Inside(rng, fwd2, freed2) && rng.lo <= rng.hi
    ensures Below(rng.hi, s0, s2, fwd1 + fwd2, freed1 + freed2)
  {
    forall c: nat | rng.hi <= c < |s0.mark| ensures SameAt(s0, s2, c) {
      assert SameAt(s0, s1, c) && SameAt(s1, s2, c);
    }
  }

  lemma RelocatedBefore(types: Types, s0: Snapshot, s1: Snapshot, s2: Snapshot, c: nat, t: nat)
    requires Relocated(types, s1, s2, c, t) && SameAt(s0, s1, c) && SameAt(s0, s1, t) && s0.pin == s1.pin
    ensures Relocated(types, s0, s2, c, t)
  {
  }

  lemma ValuesOfSum(m: map<nat, nat>, n: map<nat, nat>)
    requires m.Keys !! n.Keys
    ensures forall v :: v in (m + n).Values <==> v in m.Values || v in n.Values
  {
    forall v | v in m.Values ensures v in (m + n).Values {
      var k :| k in m && m[k] == v;
      assert (m + n)[k] == v;
    }
    forall v | v in n.Values ensures v in (m + n).Values {
      var k :| k in n && n[k] == v;
      assert (m + n)[k] == v;
    }
  }

  /** Rearranging the cells below a pool and then the pool's own is one rearrangement. */
  lemma RearrangedThen(types: Types, rng: Range, s0: Snapshot, s1: Snapshot, s2: Snapshot,
                       fwd1: map<nat, nat>, freed1: set<nat>, fwd2: map<nat, nat>, freed2: set<nat>)
    requires Rearranged(types, s0, s1, fwd1, freed1) && Below(rng.lo, s0, s1, fwd1, freed1)
    requires Rearranged(types, s1, s2, fwd2, freed2) && Outside(rng, s1, s2) && Inside(rng, fwd2, freed2)
    ensures Rearranged(types, s0, s2, fwd1 + fwd2, freed1 + freed2)
  {
    hide Relocated, StaysAt, SameAt, Injective, Freed;
    var fwd, freed := fwd1 + fwd2, freed1 + freed2;
    forall c | c in fwd ensures Relocated(types, s0, s2, c, fwd[c]) {
      RelocatedThen(types, rng, s0, s1, s2, fwd1, freed1, fwd2, freed2, c);
    }
    forall c: nat | c < |s0.mark| && c !in fwd && c !in fwd.Values ensures StaysAt(s0, s2, freed, c) {
      ValuesOfSum(fwd1, fwd2);
      StaysThen(rng, s0, s1, s2, fwd1, freed1, fwd2, freed2, c);
    }
    InjectiveThen(rng, s0, s1, fwd1, freed1, fwd2, freed2);
    FreedThen(rng, s0, s1, fwd1, freed1, fwd2, freed2);
  }

  lemma RelocatedThen(types: Types, rng: Range, s0: Snapshot, s1: Snapshot, s2: Snapshot,
                      fwd1: map<nat, nat>, freed1: set<nat>, fwd2: map<nat, nat>, freed2: set<nat>, c: nat)
    requires Rearranged(types, s0, s1, fwd1, freed1) && Below(rng.lo, s0, s1, fwd1, freed1)
    requires Rearranged(types, s1, s2, fwd2, freed2) && Outside(rng, s1, s2) && Inside(rng, fwd2, freed2)
    requires c in fwd1 + fwd2
    ensures Relocated(types, s0, s2, c, (fwd1 + fwd2)[c])
  {
    if c in fwd2 {
      assert Relocated(types, s1, s2, c, fwd2[c]);
      RelocatedBefore(types, s0, s1, s2, c, fwd2[c]);
    } else {
      assert Relocated(types, s0, s1, c, fwd1[c]);
      RelocatedStays(types, s0, s1, s2, c, fwd1[c]);
    }
  }

  lemma StaysThen(rng: Range, s0: Snapshot, s1: Snapshot, s2: Snapshot,
                  fwd1: map<nat, nat>, freed1: set<nat>, fwd2: map<nat, nat>, freed2: set<nat>, c: nat)
    requires Below(rng.lo, s0, s1, fwd1, freed1) && Outside(rng, s1, s2) && Inside(rng, fwd2, freed2)
    requires c < |s0.mark| && StaysAt(s0, s1, freed1, c) && StaysAt(s1, s2, freed2, c)
    ensures StaysAt(s0, s2, freed1 + freed2, c)
  {
  }

  lemma InjectiveThen(rng: Range, s0: Snapshot, s1: Snapshot,
                      fwd1: map<nat, nat>, freed1: set<nat>, fwd2: map<nat, nat>, freed2: set<nat>)
    requires Below(rng.lo, s0, s1, fwd1, freed1) && Inside(rng, fwd2, freed2) && Injective(fwd1) && Injective(fwd2)
    ensures Injective(fwd1 + fwd2) && fwd1.Keys !! fwd2.Keys
  {
  }

  lemma FreedThen(rng: Range, s0: Snapshot, s1: Snapshot,
                  fwd1: map<nat, nat>, freed1: set<nat>, fwd2: map<nat, nat>, freed2: set<nat>)
    requires Below(rng.lo, s0, s1, fwd1, freed1) && Inside(rng, fwd2, freed2)
    requires |s0.init| == |s0.mark| == |s1.init| == |s1.mark| && Freed(s0, freed1) && Freed(s1, freed2)
    ensures Freed(s0, freed1 + freed2)
  {
    forall c | c in freed2 ensures SameAt(s0, s1, c) {
    }
  }
}
