/** Arcs of the hash ring and the arcs a silo newly owns (`Arc` in
    `pyleans/cluster/directory_messages.py`, `compute_new_arcs` in
    `pyleans/cluster/directory_rebuild.py`). */
module Arcs {
  import opened Wrappers
  import opened Identity
  import opened Sequences
  import opened HashRing

  /** The positions after `start` up to and including `end`, wrapping when `start > end`. */
  datatype Arc = Arc(start: Hash64, end: Hash64) {
    predicate Contains(key: Hash64) {
      if start <= end then start < key <= end else key > start || key <= end
    }
  }

  function ArcAt(ring: Ring, i: nat): Arc
    requires i < |ring.positions|
  {
    Arc(ring.positions[(i - 1) % |ring.positions|].position, ring.positions[i].position)
  }

  predicate NewlyOwned(prior: Option<Ring>, arc: Arc, local: SiloAddress) {
    prior.None? || OwnerOf(prior.value, arc.end) != Some(local)
  }

  /** The arcs kept among the first `n` positions. */
  function NewArcsUpTo(prior: Option<Ring>, ring: Ring, local: SiloAddress, n: nat): seq<Arc>
    requires n <= |ring.positions|
  {
    if n == 0 then []
    else
      var front := NewArcsUpTo(prior, ring, local, n - 1);
      if ring.positions[n - 1].silo == local && NewlyOwned(prior, ArcAt(ring, n - 1), local)
      then front + [ArcAt(ring, n - 1)] else front
  }

  function NewArcs(prior: Option<Ring>, ring: Ring, local: SiloAddress): seq<Arc> {
    NewArcsUpTo(prior, ring, local, |ring.positions|)
  }

  method ComputeNewArcs(prior: Option<Ring>, ring: Ring, local: SiloAddress) returns (arcs: seq<Arc>)
    ensures arcs == NewArcs(prior, ring, local)
  {
    arcs := [];
    for i := 0 to |ring.positions|
      invariant arcs == NewArcsUpTo(prior, ring, local, i)
    {
      if ring.positions[i].silo == local {
        var arc := ArcAt(ring, i);
        if NewlyOwned(prior, arc, local) {
          arcs := arcs + [arc];
        }
      }
    }
  }

  /** How many arcs of the list contain `key`. */
  function Covering(arcs: seq<Arc>, key: Hash64): nat {
    if arcs == [] then 0
    else Covering(arcs[..|arcs| - 1], key) + if arcs[|arcs| - 1].Contains(key) then 1 else 0
  }

  predicate TwoPositions(ring: Ring) {
    exists i, j :: 0 <= i < |ring.positions| && 0 <= j < |ring.positions|
                && ring.positions[i].position != ring.positions[j].position
  }

  lemma InOrder(ring: Ring, i: nat, j: nat)
    requires i <= j < |ring.positions|
    ensures ring.positions[i].position <= ring.positions[j].position
  {
    assert i < j ==> !PositionLess(ring.positions[j], ring.positions[i]);
  }

  lemma TwoPositionsAreFirstAndLast(ring: Ring)
    ensures TwoPositions(ring) <==>
            |ring.positions| > 0 && ring.positions[0].position < ring.positions[|ring.positions| - 1].position
  {
    hide PositionLess;
    if TwoPositions(ring) {
      var i, j :| 0 <= i < |ring.positions| && 0 <= j < |ring.positions| &&
                  ring.positions[i].position != ring.positions[j].position;
      var last := |ring.positions| - 1;
      InOrder(ring, 0, i);
      InOrder(ring, 0, j);
      InOrder(ring, i, last);
      InOrder(ring, j, last);
    }
  }

  lemma Predecessor(i: nat, n: nat)
    requires i < n
    ensures (i - 1) % n == if i == 0 then n - 1 else i - 1
  {
    if i == 0 {
      assert (-1) % n == n - 1 by {
        assert -1 == (-1) * n + (n - 1);
      }
    }
  }

  /** With two different positions on the ring, an arc contains exactly the keys `owner_of` maps to
      its end, even where virtual nodes collide. */
  lemma ArcHoldsTheKeysOfItsEnd(ring: Ring, i: nat, key: Hash64)
    requires TwoPositions(ring) && i < |ring.positions|
    ensures ArcAt(ring, i).Contains(key) <==> i == OwnerIndex(ring, key)
  {
    hide PositionLess, TwoPositions;
    TwoPositionsAreFirstAndLast(ring);
    Predecessor(i, |ring.positions|);
    var k := BisectLeft(ring.positions, key, 0, |ring.positions|);
    InOrder(ring, if i == 0 then 0 else i - 1, i);
    if k < |ring.positions| {
      InOrder(ring, k, |ring.positions| - 1);
    }
  }

  predicate Covered(ring: Ring, key: Hash64) {
    exists i :: 0 <= i < |ring.positions| && ArcAt(ring, i).Contains(key)
  }

  /** The arcs of the whole ring cover the circle exactly when it has two different positions; with
      a single one they contain nothing, although `owner_of` gives every key an owner. */
  lemma ArcsCoverIffTwoPositions(ring: Ring)
    ensures TwoPositions(ring) <==>
            forall key :: Covered(ring, key)
  {
    hide PositionLess, TwoPositions;
    TwoPositionsAreFirstAndLast(ring);
    if TwoPositions(ring) {
      forall key
        ensures Covered(ring, key)
      {
        ArcHoldsTheKeysOfItsEnd(ring, OwnerIndex(ring, key), key);
      }
    } else {
      forall i | 0 <= i < |ring.positions|
        ensures !ArcAt(ring, i).Contains(0)
      {
        var prev := (i - 1) % |ring.positions|;
        Predecessor(i, |ring.positions|);
        InOrder(ring, 0, i);
        InOrder(ring, i, |ring.positions| - 1);
        InOrder(ring, 0, prev);
        InOrder(ring, prev, |ring.positions| - 1);
      }
      assert !Covered(ring, 0);
    }
  }

  /** The arc of the ring that `key` falls in. */
  function ArcOf(ring: Ring, key: Hash64): Arc
    requires ring.positions != []
  {
    ArcAt(ring, OwnerIndex(ring, key))
  }

  lemma {:induction false} CoveringUpTo(prior: Option<Ring>, ring: Ring, local: SiloAddress, n: nat, key: Hash64)
    requires TwoPositions(ring) && n <= |ring.positions|
    ensures Covering(NewArcsUpTo(prior, ring, local, n), key) ==
            if OwnerIndex(ring, key) < n && OwnerOf(ring, key) == Some(local)
             && NewlyOwned(prior, ArcOf(ring, key), local)
            then 1 else 0
  {
    hide PositionLess, TwoPositions, NewlyOwned, OwnerIndex;
    if n > 0 {
      CoveringUpTo(prior, ring, local, n - 1, key);
      ArcHoldsTheKeysOfItsEnd(ring, n - 1, key);
      var front := NewArcsUpTo(prior, ring, local, n - 1);
      assert (front + [ArcAt(ring, n - 1)])[..|front|] == front;
    }
  }

  /** Exactly what `compute_new_arcs` covers: a key is in one of the returned arcs, and in no second
      one, if the silo owns it on the new ring and did not own its arc's end on the old one. */
  lemma NewArcsCover(prior: Option<Ring>, ring: Ring, local: SiloAddress, key: Hash64)
    requires TwoPositions(ring)
    ensures Covering(NewArcs(prior, ring, local), key) ==
            if OwnerOf(ring, key) == Some(local) && NewlyOwned(prior, ArcOf(ring, key), local) then 1 else 0
  {
    CoveringUpTo(prior, ring, local, |ring.positions|, key);
  }

  /** Without an old ring, the arcs of all silos put every key in exactly one arc, its owner's. */
  lemma FreshArcsPartitionTheCircle(ring: Ring, silo: SiloAddress, key: Hash64)
    requires TwoPositions(ring)
    ensures Covering(NewArcs(None, ring, silo), key) == if OwnerOf(ring, key) == Some(silo) then 1 else 0
  {
    NewArcsCover(None, ring, silo, key);
  }

  /** A silo that was not on the old ring gets arcs for exactly the keys it owns now. */
  lemma JoiningSiloGetsItsKeys(hash: StableHash, before: seq<SiloAddress>, vnodes: nat, ring: Ring,
                               local: SiloAddress, key: Hash64)
    requires TwoPositions(ring) && vnodes >= 1 && local !in before
    ensures Covering(NewArcs(Some(MakeRing(hash, before, vnodes)), ring, local), key) ==
            if OwnerOf(ring, key) == Some(local) then 1 else 0
  {
    hide OwnerOf, MakeRing, OwnerIndex;
    NewArcsCover(Some(MakeRing(hash, before, vnodes)), ring, local, key);
    OwnerExists(hash, before, vnodes, ArcOf(ring, key).end);
  }

  // ---- A silo that stays ----------------------------------------------------------

  /** No other silo of `silos` with a smaller id has a virtual node where `local` has one. */
  ghost predicate Unshadowed(hash: StableHash, silos: seq<SiloAddress>, vnodes: nat, local: SiloAddress) {
    forall s, i, k :: s in silos && 0 <= i < vnodes && 0 <= k < vnodes ==>
      VnodeHash(hash, s, k) == VnodeHash(hash, local, i) ==> !SiloLess(s, local)
  }

  /** A silo owns its own virtual node's position unless a smaller silo collides with it. */
  lemma OwnsItsOwnPositions(hash: StableHash, silos: seq<SiloAddress>, vnodes: nat, local: SiloAddress, i: nat)
    requires local in silos && i < vnodes
    ensures OwnerOf(MakeRing(hash, silos, vnodes), VnodeHash(hash, local, i)) == Some(local) <==>
            forall s, k :: s in silos && 0 <= k < vnodes && VnodeHash(hash, s, k) == VnodeHash(hash, local, i) ==>
              !SiloLess(s, local)
  {
    hide VnodeHash, SiloLess, MakeRing, OwnerOf;
    var key := VnodeHash(hash, local, i);
    OwnerIsNearest(hash, silos, vnodes, key, local);
    if forall s, k :: s in silos && 0 <= k < vnodes && VnodeHash(hash, s, k) == key ==> !SiloLess(s, local) {
      forall s, k | s in Elements(silos) && 0 <= k < vnodes
        ensures NotAfter(key, key, local, VnodeHash(hash, s, k), s)
      {
        ClockwiseValue(key, VnodeHash(hash, s, k));
        ClockwiseValue(key, key);
        SiloLessTotal(local, s);
      }
      assert Nearest(hash, Elements(silos), vnodes, key, local, i);
    }
    if j :| Nearest(hash, Elements(silos), vnodes, key, local, j) {
      forall s, k | s in silos && 0 <= k < vnodes && VnodeHash(hash, s, k) == key
        ensures !SiloLess(s, local)
      {
        assert s in Elements(silos);
        assert NotAfter(key, VnodeHash(hash, local, j), local, key, s);
        ClockwiseValue(key, key);
        SiloLessTotal(local, s);
      }
    }
  }

  lemma {:induction false} NothingNew(prior: Ring, ring: Ring, local: SiloAddress, n: nat)
    requires n <= |ring.positions|
    ensures NewArcsUpTo(Some(prior), ring, local, n) == [] <==>
            forall i :: 0 <= i < n && ring.positions[i].silo == local ==>
              OwnerOf(prior, ring.positions[i].position) == Some(local)
  {
    hide OwnerOf;
    if n > 0 {
      NothingNew(prior, ring, local, n - 1);
    }
  }

  /** A silo on both rings gets no arcs at all, exactly when none of its virtual nodes is shadowed on
      the old ring. So keys it gained from a silo that left are in no returned arc. */
  lemma StayingSiloGetsNoArcs(hash: StableHash, before: seq<SiloAddress>, after: seq<SiloAddress>, vnodes: nat,
                              local: SiloAddress)
    requires vnodes >= 1 && local in before && local in after
    ensures NewArcs(Some(MakeRing(hash, before, vnodes)), MakeRing(hash, after, vnodes), local) == [] <==>
            Unshadowed(hash, before, vnodes, local)
  {
    hide VnodeHash, SiloLess, MakeRing, OwnerOf, NewArcsUpTo;
    var prior, ring := MakeRing(hash, before, vnodes), MakeRing(hash, after, vnodes);
    RingContents(hash, after, vnodes);
    NothingNew(prior, ring, local, |ring.positions|);
    forall i | 0 <= i < vnodes
      ensures exists n ::
                0 <= n < |ring.positions| && ring.positions[n] == RingPosition(VnodeHash(hash, local, i), local, i)
      ensures OwnerOf(prior, VnodeHash(hash, local, i)) == Some(local) <==>
              forall s, k :: s in before && 0 <= k < vnodes && VnodeHash(hash, s, k) == VnodeHash(hash, local, i) ==>
                !SiloLess(s, local)
    {
      assert RingPosition(VnodeHash(hash, local, i), local, i) in ring.positions;
      OwnsItsOwnPositions(hash, before, vnodes, local, i);
    }
    forall n | 0 <= n < |ring.positions| && ring.positions[n].silo == local
      ensures ring.positions[n].vnode < vnodes
           && ring.positions[n].position == VnodeHash(hash, local, ring.positions[n].vnode)
    {
      assert ring.positions[n] in ring.positions;
    }
  }

  /** Silos "a", "b", "c" at positions 10, 20, 30, one virtual node each. */
  function HostHash(text: string): Hash64 {
    if text == [] then 0 else if text[0] == 'a' then 10 else if text[0] == 'b' then 20 else 30
  }

  lemma HostPositions()
    ensures var a, b, c := SiloAddress("a", 0, 0), SiloAddress("b", 0, 0), SiloAddress("c", 0, 0);
            && VnodeHash(HostHash, a, 0) == 10 && VnodeHash(HostHash, b, 0) == 20 && VnodeHash(HostHash, c, 0) == 30
            && Unshadowed(HostHash, [a, b, c], 1, c)
  {
    hide SiloLess;
    SiloLessTotal(SiloAddress("c", 0, 0), SiloAddress("c", 0, 0));
  }

  /** When silo "b" leaves, key 15 moves from "b" to "c", yet "c" is told of no new arc. */
  lemma GainedKeyIsMissed()
    ensures var a, b, c := SiloAddress("a", 0, 0), SiloAddress("b", 0, 0), SiloAddress("c", 0, 0);
            var before, after := MakeRing(HostHash, [a, b, c], 1), MakeRing(HostHash, [a, c], 1);
            && OwnerOf(before, 15) == Some(b) && OwnerOf(after, 15) == Some(c)
            && NewArcs(Some(before), after, c) == []
  {
    hide SiloLess, MakeRing, OwnerOf, NewArcs, VnodeHash, HostHash, Unshadowed;
    var a, b, c := SiloAddress("a", 0, 0), SiloAddress("b", 0, 0), SiloAddress("c", 0, 0);
    HostPositions();
    ClockwiseValue(15, 10);
    ClockwiseValue(15, 20);
    ClockwiseValue(15, 30);
    assert Elements([a, b, c]) == {a, b, c} && Elements([a, c]) == {a, c};
    assert Nearest(HostHash, {a, b, c}, 1, 15, b, 0);
    assert Nearest(HostHash, {a, c}, 1, 15, c, 0);
    OwnerIsNearest(HostHash, [a, b, c], 1, 15, b);
    OwnerIsNearest(HostHash, [a, c], 1, 15, c);
    StayingSiloGetsNoArcs(HostHash, [a, b, c], [a, c], 1, c);
  }
}
