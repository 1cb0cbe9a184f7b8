/** The consistent hash ring with virtual nodes (`pyleans/cluster/hash_ring.py`).

    `stable_hash` is any function from text to 64-bit values; collisions are allowed. */
module HashRing {
  import opened Wrappers
  import opened Text
  import opened Identity
  import opened Sequences

  const MODULUS := 0x1_0000_0000_0000_0000

  type Hash64 = h: nat | h < MODULUS

  type StableHash = string -> Hash64

  function VnodeText(silo: SiloAddress, vnode: nat): string {
    SiloId(silo) + "#" + Decimal(vnode)
  }

  function GrainText(grain: GrainId): string {
    grain.grainType + "/" + grain.key
  }

  function VnodeHash(hash: StableHash, silo: SiloAddress, vnode: nat): Hash64 {
    hash(VnodeText(silo, vnode))
  }

  function GrainHash(hash: StableHash, grain: GrainId): Hash64 {
    hash(GrainText(grain))
  }

  /** Different virtual nodes are hashed from different texts. */
  lemma VnodeTextsDiffer(a: SiloAddress, i: nat, b: SiloAddress, j: nat)
    requires VnodeText(a, i) == VnodeText(b, j)
    ensures a == b && i == j
  {
    LastSplit(SiloId(a), Decimal(i), SiloId(b), Decimal(j), '#');
    ParseDecimal(i);
    ParseDecimal(j);
    SiloIdInjective(a, b);
  }

  /** Different grains are hashed from different texts, as long as no type has a '/' in its name. */
  lemma GrainTextsDiffer(g: GrainId, h: GrainId)
    requires '/' !in g.grainType && '/' !in h.grainType && GrainText(g) == GrainText(h)
    ensures g == h
  {
    FirstSplit(g.grainType, g.key, h.grainType, h.key, '/');
  }

  /** Grains of two types share a text for some keys if and only if one type begins the other and a '/' follows; grains
      of one type share a text only if they are one grain. */
  lemma GrainTextsCollideIff(a: string, b: string)
    ensures a != b ==>
              ((exists k, l :: GrainText(GrainId(a, k)) == GrainText(GrainId(b, l))) <==> a + "/" <= b || b + "/" <= a)
    ensures forall k, l :: GrainText(GrainId(a, k)) == GrainText(GrainId(a, l)) ==> k == l
  {
    forall k, l | GrainText(GrainId(a, k)) == GrainText(GrainId(b, l))
      ensures (a == b && k == l) || a + "/" <= b || b + "/" <= a
    {
      TextsPart(a, k, b, l);
    }
    forall k, l | GrainText(GrainId(a, k)) == GrainText(GrainId(a, l))
      ensures k == l
    {
      TextsPart(a, k, a, l);
    }
    if a + "/" <= b {
      assert b == a + "/" + b[|a| + 1..];
      assert GrainText(GrainId(a, b[|a| + 1..] + "/")) == GrainText(GrainId(b, ""));
    }
    if b + "/" <= a {
      assert a == b + "/" + a[|b| + 1..];
      assert GrainText(GrainId(a, "")) == GrainText(GrainId(b, a[|b| + 1..] + "/"));
    }
  }

  lemma TextsPart(a: string, k: string, b: string, l: string)
    requires GrainText(GrainId(a, k)) == GrainText(GrainId(b, l))
    ensures (a == b && k == l) || (|a| < |b| && a + "/" <= b) || (|b| < |a| && b + "/" <= a)
  {
    var s := a + "/" + k;
    assert s[..|a|] == a && s[|a|] == '/' && s[|a| + 1..] == k;
    assert s[..|b|] == b && s[|b|] == '/' && s[|b| + 1..] == l;
    if |a| < |b| {
      assert b[..|a| + 1] == s[..|a| + 1] == a + "/";
    } else if |b| < |a| {
      assert a[..|b| + 1] == s[..|b| + 1] == b + "/";
    }
  }

  lemma TextExamples()
    ensures VnodeText(SiloAddress("h", 7, 42), 3) == "h:7:42#3" && GrainText(GrainId("C", "k")) == "C/k"
  {
    SiloIdExample();
  }

  datatype RingPosition = RingPosition(position: Hash64, silo: SiloAddress, vnode: nat)

  /** The sort key (position, silo_id, vnode_index). */
  predicate PositionLess(p: RingPosition, q: RingPosition) {
    || p.position < q.position
    || (p.position == q.position && SiloLess(p.silo, q.silo))
    || (p.position == q.position && p.silo == q.silo && p.vnode < q.vnode)
  }

  lemma PositionOrder()
    ensures WeakOrder(PositionLess)
  {
    hide SiloLess;
    forall p, q, r
      ensures PositionLess(p, q) ==> !PositionLess(q, p)
      ensures !PositionLess(q, p) && !PositionLess(r, q) ==> !PositionLess(r, p)
    {
      SiloLessTotal(p.silo, q.silo);
      SiloLessTotal(q.silo, r.silo);
      SiloLessTotal(p.silo, r.silo);
      if SiloLess(r.silo, p.silo) && SiloLess(p.silo, q.silo) {
        SiloLessTrans(r.silo, p.silo, q.silo);
      }
      if SiloLess(q.silo, r.silo) && SiloLess(r.silo, p.silo) {
        SiloLessTrans(q.silo, r.silo, p.silo);
      }
    }
  }

  datatype RingData = RingData(silos: seq<SiloAddress>, positions: seq<RingPosition>)

  type Ring = r: RingData | SortedBy(PositionLess, r.positions) witness RingData([], [])

  function VnodesOf(hash: StableHash, silo: SiloAddress, vnodes: nat): seq<RingPosition> {
    seq(vnodes, (i: nat) => RingPosition(VnodeHash(hash, silo, i), silo, i))
  }

  function AllVnodes(hash: StableHash, silos: seq<SiloAddress>, vnodes: nat): seq<RingPosition> {
    if silos == [] then []
    else AllVnodes(hash, silos[..|silos| - 1], vnodes) + VnodesOf(hash, silos[|silos| - 1], vnodes)
  }

  lemma {:induction false} AllVnodesMembers(hash: StableHash, silos: seq<SiloAddress>, vnodes: nat, p: RingPosition)
    ensures p in AllVnodes(hash, silos, vnodes) <==>
            p.silo in silos && p.vnode < vnodes && p.position == VnodeHash(hash, p.silo, p.vnode)
  {
    hide VnodeHash;
    if silos != [] {
      var last := silos[|silos| - 1];
      AllVnodesMembers(hash, silos[..|silos| - 1], vnodes, p);
      assert silos == silos[..|silos| - 1] + [last];
      if p.silo == last && p.vnode < vnodes && p.position == VnodeHash(hash, last, p.vnode) {
        assert VnodesOf(hash, last, vnodes)[p.vnode] == p;
      }
    }
  }

  /** The ring over a list of silos; repetitions are dropped. */
  function MakeRing(hash: StableHash, silos: seq<SiloAddress>, vnodes: nat): (ring: Ring) {
    var sorted := SortBy(SiloLess, FirstSeen(silos, {}));
    PositionOrder();
    SortByCorrect(PositionLess, AllVnodes(hash, sorted, vnodes));
    RingData(sorted, SortBy(PositionLess, AllVnodes(hash, sorted, vnodes)))
  }

  lemma SiloOrder()
    ensures WeakOrder(SiloLess)
  {
    hide SiloLess;
    forall a, b, c
      ensures SiloLess(a, b) ==> !SiloLess(b, a)
      ensures !SiloLess(b, a) && !SiloLess(c, b) ==> !SiloLess(c, a)
    {
      SiloLessTotal(a, b);
      SiloLessTotal(b, c);
      SiloLessTotal(a, c);
      if SiloLess(a, b) && SiloLess(b, c) {
        SiloLessTrans(a, b, c);
      }
    }
  }

  /** Every silo is on the ring once, with exactly its virtual nodes. */
  lemma RingContents(hash: StableHash, silos: seq<SiloAddress>, vnodes: nat)
    ensures var ring := MakeRing(hash, silos, vnodes);
            && Distinct(ring.silos) && Elements(ring.silos) == Elements(silos)
            && SortedBy(SiloLess, ring.silos)
            && |ring.silos| == |Elements(silos)|
            && forall p :: p in ring.positions <==>
                 p.silo in silos && p.vnode < vnodes && p.position == VnodeHash(hash, p.silo, p.vnode)
  {
    hide VnodeHash, SiloLess, WeakOrder;
    var deduped := FirstSeen(silos, {});
    var ring := MakeRing(hash, silos, vnodes);
    SiloOrder();
    FirstSeenMembers(silos, {});
    SortByCorrect(SiloLess, deduped);
    PermutationFacts(ring.silos, deduped);
    assert Elements(deduped) == Elements(silos);
    DistinctCount(ring.silos);
    var all := AllVnodes(hash, ring.silos, vnodes);
    PositionOrder();
    SortByCorrect(PositionLess, all);
    forall p
      ensures p in ring.positions <==>
              p.silo in silos && p.vnode < vnodes && p.position == VnodeHash(hash, p.silo, p.vnode)
    {
      AllVnodesMembers(hash, ring.silos, vnodes, p);
      assert p in ring.positions <==> p in multiset(ring.positions);
      assert p in all <==> p in multiset(all);
      assert p.silo in Elements(ring.silos) <==> p.silo in Elements(silos);
    }
  }

  lemma PermutationFacts<T(!new)>(xs: seq<T>, ys: seq<T>)
    requires multiset(xs) == multiset(ys) && Distinct(ys)
    ensures Elements(xs) == Elements(ys) && Distinct(xs)
  {
    forall x
      ensures x in xs <==> x in ys
    {
      assert x in xs <==> x in multiset(xs);
      assert x in ys <==> x in multiset(ys);
    }
    forall i, j | 0 <= i < j < |xs|
      ensures xs[i] != xs[j]
    {
      if xs[i] == xs[j] {
        assert xs == xs[..j] + [xs[j]] + xs[j + 1..];
        assert xs[i] in xs[..j];
        assert multiset(xs)[xs[j]] >= 2;
        CountInDistinct(ys, xs[j]);
      }
    }
  }

  lemma {:induction false} CountInDistinct<T>(ys: seq<T>, y: T)
    requires Distinct(ys)
    ensures multiset(ys)[y] <= 1
  {
    if ys != [] {
      var front := ys[..|ys| - 1];
      CountInDistinct(front, y);
      assert ys == front + [ys[|ys| - 1]];
      assert ys[|ys| - 1] == y ==> y !in front;
    }
  }

  // ---- Ownership -----------------------------------------------------------------

  /** First index whose position is not below `key`. */
  function BisectLeft(positions: seq<RingPosition>, key: Hash64, lo: nat, hi: nat): (i: nat)
    requires lo <= hi <= |positions|
    requires SortedBy(PositionLess, positions)
    ensures lo <= i <= hi
    ensures forall k :: lo <= k < i ==> positions[k].position < key
    ensures forall k :: i <= k < hi ==> positions[k].position >= key
    decreases hi - lo
  {
    if lo == hi then lo
    else
      var mid := (lo + hi) / 2;
      assert forall k :: lo <= k < mid ==> !PositionLess(positions[mid], positions[k]);
      assert forall k :: mid < k < hi ==> !PositionLess(positions[k], positions[mid]);
      if positions[mid].position < key then BisectLeft(positions, key, mid + 1, hi)
      else BisectLeft(positions, key, lo, mid)
  }

  function OwnerIndex(ring: Ring, key: Hash64): (i: nat)
    requires ring.positions != []
    ensures i < |ring.positions|
  {
    var i := BisectLeft(ring.positions, key, 0, |ring.positions|);
    if i == |ring.positions| then 0 else i
  }

  function OwnerOf(ring: Ring, key: Hash64): Option<SiloAddress> {
    if ring.positions == [] then None else Some(ring.positions[OwnerIndex(ring, key)].silo)
  }

  /** How far clockwise `position` lies from `key`: their difference modulo 2^64. */
  function Clockwise(key: Hash64, position: Hash64): Hash64 {
    (position - key) % MODULUS
  }

  /** No virtual node of `silos` is nearer clockwise than number `vnode` of `silo`, and a silo with one
      equally near has no smaller id. */
  ghost predicate Nearest(hash: StableHash, silos: set<SiloAddress>, vnodes: nat, key: Hash64,
                          silo: SiloAddress, vnode: nat)
  {
    && silo in silos && vnode < vnodes
    && forall s, i :: s in silos && 0 <= i < vnodes ==>
         NotAfter(key, VnodeHash(hash, silo, vnode), silo, VnodeHash(hash, s, i), s)
  }

  predicate NotAfter(key: Hash64, p: Hash64, silo: SiloAddress, q: Hash64, other: SiloAddress) {
    || Clockwise(key, p) < Clockwise(key, q)
    || (Clockwise(key, p) == Clockwise(key, q) && (silo == other || SiloLess(silo, other)))
  }

  ghost predicate NearestOwner(hash: StableHash, silos: set<SiloAddress>, vnodes: nat, key: Hash64, silo: SiloAddress) {
    exists i :: Nearest(hash, silos, vnodes, key, silo, i)
  }

  lemma NearestIsUnique(hash: StableHash, silos: set<SiloAddress>, vnodes: nat, key: Hash64,
                        a: SiloAddress, b: SiloAddress)
    requires NearestOwner(hash, silos, vnodes, key, a) && NearestOwner(hash, silos, vnodes, key, b)
    ensures a == b
  {
    hide VnodeHash, SiloLess, Clockwise;
    var i :| Nearest(hash, silos, vnodes, key, a, i);
    var j :| Nearest(hash, silos, vnodes, key, b, j);
    assert NotAfter(key, VnodeHash(hash, a, i), a, VnodeHash(hash, b, j), b);
    assert NotAfter(key, VnodeHash(hash, b, j), b, VnodeHash(hash, a, i), a);
    SiloLessTotal(a, b);
  }

  /** The position `owner_of` finds comes first clockwise among all positions of the ring. */
  lemma OwnerIndexIsNearest(ring: Ring, key: Hash64, k: nat)
    requires k < |ring.positions|
    ensures var p, q := ring.positions[OwnerIndex(ring, key)], ring.positions[k];
            NotAfter(key, p.position, p.silo, q.position, q.silo)
  {
    hide SiloLess;
    var i := OwnerIndex(ring, key);
    var p, q := ring.positions[i], ring.positions[k];
    SiloLessTotal(p.silo, q.silo);
    assert i < k ==> !PositionLess(q, p);
    ClockwiseValue(key, p.position);
    ClockwiseValue(key, q.position);
  }

  lemma ClockwiseValue(key: Hash64, position: Hash64)
    ensures Clockwise(key, position) == if position >= key then position - key else position + MODULUS - key
  {
  }

  /** `owner_of` by sorting and bisection returns the silo of the virtual node at least clockwise
      distance from the key, ties going to the least silo id. */
  lemma OwnerIsNearest(hash: StableHash, silos: seq<SiloAddress>, vnodes: nat, key: Hash64, silo: SiloAddress)
    requires vnodes >= 1
    ensures OwnerOf(MakeRing(hash, silos, vnodes), key) == Some(silo) <==>
            NearestOwner(hash, Elements(silos), vnodes, key, silo)
  {
    hide VnodeHash, SiloLess, Clockwise, OwnerIndex, NotAfter, MakeRing;
    var ring := MakeRing(hash, silos, vnodes);
    var all := Elements(silos);
    RingContents(hash, silos, vnodes);
    assert forall i :: Nearest(hash, all, vnodes, key, silo, i) ==>
             RingPosition(VnodeHash(hash, silo, i), silo, i) in ring.positions;
    if ring.positions != [] {
      var p := ring.positions[OwnerIndex(ring, key)];
      assert p in ring.positions;
      forall s, i | s in all && 0 <= i < vnodes
        ensures NotAfter(key, VnodeHash(hash, p.silo, p.vnode), p.silo, VnodeHash(hash, s, i), s)
      {
        var q := RingPosition(VnodeHash(hash, s, i), s, i);
        assert q in ring.positions;
        var k :| 0 <= k < |ring.positions| && ring.positions[k] == q;
        OwnerIndexIsNearest(ring, key, k);
      }
      assert Nearest(hash, all, vnodes, key, p.silo, p.vnode);
      if NearestOwner(hash, all, vnodes, key, silo) {
        NearestIsUnique(hash, all, vnodes, key, p.silo, silo);
      }
    }
  }

  /** Only an empty list of silos leaves keys without an owner. */
  lemma OwnerExists(hash: StableHash, silos: seq<SiloAddress>, vnodes: nat, key: Hash64)
    requires vnodes >= 1
    ensures OwnerOf(MakeRing(hash, silos, vnodes), key).Some? <==> silos != []
    ensures silos != [] ==> OwnerOf(MakeRing(hash, silos, vnodes), key).value in silos
  {
    hide VnodeHash, OwnerIndex, MakeRing;
    var ring := MakeRing(hash, silos, vnodes);
    RingContents(hash, silos, vnodes);
    assert ring.positions != [] ==> ring.positions[0] in ring.positions;
    if silos != [] {
      assert RingPosition(VnodeHash(hash, silos[0], 0), silos[0], 0) in ring.positions;
      assert ring.positions[OwnerIndex(ring, key)] in ring.positions;
    }
  }

  /** Ownership depends on the set of silos only, not on their order or repetition. */
  lemma OwnerDependsOnSetOnly(hash: StableHash, xs: seq<SiloAddress>, ys: seq<SiloAddress>, vnodes: nat, key: Hash64)
    requires vnodes >= 1 && Elements(xs) == Elements(ys)
    ensures OwnerOf(MakeRing(hash, xs, vnodes), key) == OwnerOf(MakeRing(hash, ys, vnodes), key)
  {
    hide NearestOwner, MakeRing, OwnerOf;
    OwnerExists(hash, xs, vnodes, key);
    OwnerExists(hash, ys, vnodes, key);
    assert xs != [] ==> xs[0] in Elements(ys);
    assert ys != [] ==> ys[0] in Elements(xs);
    if xs != [] {
      var owner := OwnerOf(MakeRing(hash, xs, vnodes), key).value;
      OwnerIsNearest(hash, xs, vnodes, key, owner);
      OwnerIsNearest(hash, ys, vnodes, key, owner);
    }
  }

  /** When a silo leaves, only the keys it owned change owner. */
  lemma RemovalMovesOnlyItsKeys(hash: StableHash, before: seq<SiloAddress>, after: seq<SiloAddress>, vnodes: nat,
                                key: Hash64, gone: SiloAddress)
    requires vnodes >= 1 && Elements(after) == Elements(before) - {gone}
    requires OwnerOf(MakeRing(hash, before, vnodes), key) != Some(gone)
    ensures OwnerOf(MakeRing(hash, after, vnodes), key) == OwnerOf(MakeRing(hash, before, vnodes), key)
  {
    hide VnodeHash, MakeRing, OwnerOf, NotAfter;
    OwnerExists(hash, before, vnodes, key);
    OwnerExists(hash, after, vnodes, key);
    assert after != [] ==> after[0] in Elements(after);
    if before != [] {
      var owner := OwnerOf(MakeRing(hash, before, vnodes), key).value;
      OwnerIsNearest(hash, before, vnodes, key, owner);
      var i :| Nearest(hash, Elements(before), vnodes, key, owner, i);
      assert Nearest(hash, Elements(after), vnodes, key, owner, i);
      OwnerIsNearest(hash, after, vnodes, key, owner);
    }
  }

  /** When a silo joins, keys move only to it. */
  lemma AdditionMovesKeysOnlyToIt(hash: StableHash, before: seq<SiloAddress>, after: seq<SiloAddress>, vnodes: nat,
                                  key: Hash64, joined: SiloAddress)
    requires vnodes >= 1 && Elements(after) == Elements(before) + {joined}
    ensures OwnerOf(MakeRing(hash, after, vnodes), key) == Some(joined)
         || OwnerOf(MakeRing(hash, after, vnodes), key) == OwnerOf(MakeRing(hash, before, vnodes), key)
  {
    if joined in Elements(before) {
      assert Elements(after) == Elements(before);
      OwnerDependsOnSetOnly(hash, before, after, vnodes, key);
    } else if OwnerOf(MakeRing(hash, after, vnodes), key) != Some(joined) {
      assert Elements(before) == Elements(after) - {joined};
      RemovalMovesOnlyItsKeys(hash, after, before, vnodes, key, joined);
    }
  }

  /** Ring construction as the constructor performs it; `Err` stands for `ValueError`. */
  method BuildRing(hash: StableHash, silos: seq<SiloAddress>, vnodes: int) returns (r: Result<Ring, string>)
    ensures r.Err? <==> vnodes < 1
    ensures r.Ok? ==> r.value == MakeRing(hash, silos, vnodes)
  {
    hide VnodeHash, SiloLess;
    if vnodes < 1 {
      return Err("virtual_nodes_per_silo must be >= 1");
    }
    var sorted := SortBy(SiloLess, FirstSeen(silos, {}));
    var positions: seq<RingPosition> := [];
    for i := 0 to |sorted|
      invariant positions == AllVnodes(hash, sorted[..i], vnodes)
    {
      for k: nat := 0 to vnodes
        invariant positions == AllVnodes(hash, sorted[..i], vnodes) + VnodesOf(hash, sorted[i], vnodes)[..k]
      {
        positions := positions + [RingPosition(VnodeHash(hash, sorted[i], k), sorted[i], k)];
      }
      assert sorted[..i + 1][..i] == sorted[..i];
    }
    assert sorted[..|sorted|] == sorted;
    PositionOrder();
    SortByCorrect(PositionLess, AllVnodes(hash, sorted, vnodes));
    return Ok(RingData(sorted, SortBy(PositionLess, positions)));
  }

  // ---- Successors ------------------------------------------------------------------

  function SilosAt(ring: Ring): seq<SiloAddress> {
    seq(|ring.positions|, i requires 0 <= i < |ring.positions| => ring.positions[i].silo)
  }

  /** The silos met on one full clockwise turn that starts just after `silo`'s first virtual node. */
  function Turn(ring: Ring, silo: SiloAddress): (turn: seq<SiloAddress>)
    requires silo in SilosAt(ring)
    ensures |turn| == |ring.positions|
    ensures Elements(turn) == Elements(SilosAt(ring))
  {
    assert FirstIndex(SilosAt(ring), silo) < |ring.positions| by {
      var k :| 0 <= k < |SilosAt(ring)| && SilosAt(ring)[k] == silo;
    }
    var start := FirstIndex(SilosAt(ring), silo);
    assert SilosAt(ring) == SilosAt(ring)[..start + 1] + SilosAt(ring)[start + 1..];
    Rotation(SilosAt(ring), start + 1)
  }

  function Successors(ring: Ring, silo: SiloAddress, count: int): seq<SiloAddress> {
    if count <= 0 || silo !in ring.silos || |ring.silos| <= 1 || silo !in SilosAt(ring) then []
    else
      var others := FirstSeen(Turn(ring, silo), {silo});
      if count <= |others| then others[..count] else others
  }

  /** The loop over the ring computes `Successors`. */
  method WalkSuccessors(ring: Ring, silo: SiloAddress, count: int) returns (result: seq<SiloAddress>)
    ensures result == Successors(ring, silo, count)
  {
    if count <= 0 || silo !in ring.silos || |ring.silos| <= 1 {
      return [];
    }
    var start := FirstVnodeIndex(ring, silo);
    if start == None {
      return [];
    }
    result := DistinctAround(SilosAt(ring), start.value, silo, count);
  }

  /** The new silos met on one turn around `xs` after position `start`, until `count` are found. */
  method DistinctAround<T(==, !new)>(xs: seq<T>, start: nat, silo: T, count: nat) returns (result: seq<T>)
    requires start < |xs| && count > 0
    ensures var others := FirstSeen(Rotation(xs, start + 1), {silo});
            result == if count <= |others| then others[..count] else others
  {
    ghost var turn := Rotation(xs, start + 1);
    assert SeenAfter(turn, {silo}, 0) == [] && turn[..|xs|] == turn;
    assert SeenAfter(turn, {silo}, |xs|) == FirstSeen(turn, {silo});
    hide Rotation, Around, FirstSeen, SeenAfter;
    result := [];
    var seen := {silo};
    for met := 0 to |xs|
      invariant result == SeenAfter(turn, {silo}, met) && |result| < count
      invariant forall s :: s in seen <==> s in result || s == silo
    {
      var candidate := Around(xs, start + 1 + met);
      RotationAt(xs, start + 1, met);
      SeenAfterStep(turn, {silo}, met);
      if candidate !in seen {
        NowSeen(seen, result, silo, candidate);
        result := result + [candidate];
        seen := seen + {candidate};
        if |result| == count {
          PrefixIsTaken(result, FirstSeen(turn, {silo}));
          return;
        }
      }
    }
  }

  lemma NowSeen<T(!new)>(seen: set<T>, result: seq<T>, silo: T, candidate: T)
    requires forall s :: s in seen <==> s in result || s == silo
    ensures forall s :: s in seen + {candidate} <==> s in result + [candidate] || s == silo
  {
  }

  lemma PrefixIsTaken<T>(front: seq<T>, all: seq<T>)
    requires front <= all
    ensures |front| <= |all| && all[..|front|] == front
  {
  }

  method FirstVnodeIndex(ring: Ring, silo: SiloAddress) returns (index: Option<nat>)
    ensures index == if silo in SilosAt(ring) then Some(FirstIndex(SilosAt(ring), silo)) else None
  {
    hide FirstIndex;
    for i := 0 to |ring.positions|
      invariant forall k :: 0 <= k < i ==> SilosAt(ring)[k] != silo
    {
      if ring.positions[i].silo == silo {
        FirstIndexIs(SilosAt(ring), silo, i);
        return Some(i);
      }
    }
    return None;
  }

  lemma FirstIndexIs<T>(xs: seq<T>, x: T, i: nat)
    requires i < |xs| && xs[i] == x && forall k :: 0 <= k < i ==> xs[k] != x
    ensures x in xs && FirstIndex(xs, x) == i
  {
  }

  /** For a silo on the ring and `count >= 0`: exactly min(count, n - 1) distinct other silos, in the order
      in which a clockwise walk from the silo's first virtual node first meets them, none skipped. */
  lemma SuccessorsAreNextDistinct(hash: StableHash, silos: seq<SiloAddress>, vnodes: nat, silo: SiloAddress, count: nat)
    requires vnodes >= 1 && silo in silos
    ensures var ring := MakeRing(hash, silos, vnodes);
            var r := Successors(ring, silo, count);
            && silo in SilosAt(ring)
            && |r| == (if count <= |Elements(silos)| - 1 then count else |Elements(silos)| - 1)
            && Distinct(r) && silo !in r && Elements(r) <= Elements(silos)
            && InOrderOfAppearance(Turn(ring, silo), r)
            && NoneSkipped(Turn(ring, silo), {silo}, r)
  {
    hide MakeRing, VnodeHash, SilosAt, FirstSeen, InOrderOfAppearance, NoneSkipped;
    var ring := MakeRing(hash, silos, vnodes);
    RingContents(hash, silos, vnodes);
    SilosAtIsSilos(hash, silos, vnodes);
    assert silo in Elements(silos);
    var turn := Turn(ring, silo);
    var others := FirstSeen(turn, {silo});
    FirstSeenMembers(turn, {silo});
    DistinctCount(others);
    assert Elements(turn) == Elements(silos);
    assert Elements(others) == Elements(silos) - {silo};
    var n := if count <= |others| then count else |others|;
    assert Successors(ring, silo, count) == others[..n];
    FirstSeenTaken(turn, {silo}, n);
  }

  lemma SilosAtIsSilos(hash: StableHash, silos: seq<SiloAddress>, vnodes: nat)
    requires vnodes >= 1
    ensures Elements(SilosAt(MakeRing(hash, silos, vnodes))) == Elements(silos)
  {
    hide MakeRing, VnodeHash;
    var ring := MakeRing(hash, silos, vnodes);
    RingContents(hash, silos, vnodes);
    forall s
      ensures s in SilosAt(ring) <==> s in silos
    {
      if s in silos {
        var p := RingPosition(VnodeHash(hash, s, 0), s, 0);
        assert p in ring.positions;
        var k :| 0 <= k < |ring.positions| && ring.positions[k] == p;
        assert SilosAt(ring)[k] == s;
      }
      if s in SilosAt(ring) {
        var k :| 0 <= k < |ring.positions| && SilosAt(ring)[k] == s;
        assert ring.positions[k] in ring.positions;
      }
    }
  }

  /** The turn goes clockwise, position by position, from the one after the silo's first. */
  lemma TurnIsClockwise(ring: Ring, silo: SiloAddress, s: nat, m: nat)
    requires s < |ring.positions| && ring.positions[s].silo == silo && m < |ring.positions|
    requires forall k :: 0 <= k < s ==> ring.positions[k].silo != silo
    ensures silo in SilosAt(ring)
    ensures Turn(ring, silo)[m] == ring.positions[(s + 1 + m) % |ring.positions|].silo
  {
    hide FirstIndex, Rotation;
    var silos := SilosAt(ring);
    assert forall k :: 0 <= k < |silos| ==> silos[k] == ring.positions[k].silo;
    FirstIndexIs(silos, silo, s);
    RotationAt(silos, s + 1, m);
  }

  /** A silo that is not on the ring has no successors, and nor has any when none are asked for. */
  lemma StrangersHaveNoSuccessors(hash: StableHash, silos: seq<SiloAddress>, vnodes: nat, silo: SiloAddress, count: int)
    requires count <= 0 || silo !in silos
    ensures Successors(MakeRing(hash, silos, vnodes), silo, count) == []
  {
    hide MakeRing, VnodeHash;
    RingContents(hash, silos, vnodes);
    assert silo in MakeRing(hash, silos, vnodes).silos ==> silo in Elements(silos);
  }

  /** Asking for more successors only adds at the end. */
  lemma MoreSuccessorsExtend(ring: Ring, silo: SiloAddress, count: int)
    ensures Successors(ring, silo, count) <= Successors(ring, silo, count + 1)
  {
  }
}
