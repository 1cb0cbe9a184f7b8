/** One silo's share of the distributed grain directory
    (`pyleans/cluster/distributed_directory.py`).

    `Node` is the value of a `GrainDirectory` object; each method of the object runs under
    the object's lock and is specified by a function on `Node`. */
module DirectoryNode {
  import opened Wrappers
  import opened Identity
  import opened Sequences
  import opened HashRing
  import opened Arcs
  import opened Directory
  import opened RebuildMerge

  const VIRTUAL_NODES_PER_SILO: nat := 30

  datatype Node = Node(local: SiloAddress, ring: Ring, active: seq<SiloAddress>, owned: Partition, epoch: int)

  datatype DirectoryError = ClusterNotReady

  datatype Handoff = Handoff(owner: SiloAddress, entry: DirectoryEntry)

  function OwnerOfGrain(hash: StableHash, ring: Ring, g: GrainId): Option<SiloAddress> {
    OwnerOf(ring, GrainHash(hash, g))
  }

  function Max(a: int, b: int): int {
    if a >= b then a else b
  }

  function Create(n: Node, g: GrainId, silo: SiloAddress): (Node, DirectoryEntry) {
    var entry := DirectoryEntry(g, silo, n.epoch + 1);
    (n.(owned := n.owned[g := entry], epoch := n.epoch + 1), entry)
  }

  function Register(n: Node, g: GrainId, silo: SiloAddress): (Node, DirectoryEntry) {
    if g in n.owned then (n, n.owned[g]) else Create(n, g, silo)
  }

  function Unregister(n: Node, g: GrainId, silo: SiloAddress): Node {
    if g in n.owned && n.owned[g].silo == silo then n.(owned := n.owned - {g}) else n
  }

  function PlacementCandidates(n: Node): seq<SiloAddress> {
    if n.active != [] then n.active else n.ring.silos
  }

  /** `chosen` is the placement strategy's pick. */
  function Resolve(n: Node, g: GrainId, chosen: SiloAddress): (Node, Result<DirectoryEntry, DirectoryError>) {
    if g in n.owned then (n, Ok(n.owned[g]))
    else if PlacementCandidates(n) == [] then (n, Err(ClusterNotReady))
    else
      var (n', entry) := Create(n, g, chosen);
      (n', Ok(entry))
  }

  /** The entries `n` no longer owns on `ring`, each addressed to its owner there. */
  function Moved(hash: StableHash, n: Node, ring: Ring): map<GrainId, Handoff> {
    map g | g in n.owned && OwnerOfGrain(hash, ring, g).Some? && OwnerOfGrain(hash, ring, g) != Some(n.local)
      :: Handoff(OwnerOfGrain(hash, ring, g).value, n.owned[g])
  }

  /** A membership change: take the new ring, give up what now belongs elsewhere. An empty list keeps the ring. */
  function ChangeMembership(hash: StableHash, n: Node, active: seq<SiloAddress>)
    : (Node, Result<map<GrainId, Handoff>, DirectoryError>)
  {
    var ring := if active != [] then MakeRing(hash, active, VIRTUAL_NODES_PER_SILO) else n.ring;
    var n' := n.(active := active, ring := ring);
    if ring.positions == [] && n.owned != map[] then (n', Err(ClusterNotReady))
    else
      var moved := Moved(hash, n, ring);
      (n'.(owned := n.owned - moved.Keys), Ok(moved))
  }

  /** What the rebuild coordinator is asked to do after a membership change. */
  datatype RebuildCall = RebuildCall(arcs: seq<Arc>, peers: seq<SiloAddress>, existing: Partition)

  function Peers(local: SiloAddress, active: seq<SiloAddress>): seq<SiloAddress> {
    if active == [] then []
    else
      var front := Peers(local, active[..|active| - 1]);
      if active[|active| - 1] == local then front else front + [active[|active| - 1]]
  }

  /** The rebuild that follows the change of `n` to `after`, if there is anything to rebuild and anyone to ask. */
  function RebuildAfter(n: Node, after: Node, active: seq<SiloAddress>): Option<RebuildCall> {
    var arcs := NewArcs(Some(n.ring), after.ring, n.local);
    var peers := Peers(n.local, active);
    if arcs != [] && peers != [] then Some(RebuildCall(arcs, peers, after.owned)) else None
  }

  /** A silo that is on its old ring and in the new membership asks for no rebuild, whatever it gained, unless one of
      its virtual nodes was shadowed on the old ring. */
  lemma StayingSiloAsksForNoRebuild(hash: StableHash, n: Node, before: seq<SiloAddress>, active: seq<SiloAddress>)
    requires n.ring == MakeRing(hash, before, VIRTUAL_NODES_PER_SILO) && n.local in before && n.local in active
    ensures RebuildAfter(n, ChangeMembership(hash, n, active).0, active).None? <==>
            Unshadowed(hash, before, VIRTUAL_NODES_PER_SILO, n.local) || Peers(n.local, active) == []
  {
    hide MakeRing, NewArcs, Unshadowed, OwnerOfGrain;
    StayingSiloGetsNoArcs(hash, before, active, VIRTUAL_NODES_PER_SILO, n.local);
  }

  /** A handoff from another silo; the second result is who is told to stand down. */
  function ApplyHandoff(hash: StableHash, n: Node, incoming: DirectoryEntry): (Node, Option<Loser>) {
    var g := incoming.grain;
    if OwnerOfGrain(hash, n.ring, g) != Some(n.local) then (n, None)
    else if g !in n.owned then
      (n.(owned := n.owned[g := incoming], epoch := Max(n.epoch, incoming.epoch)), None)
    else if n.owned[g].epoch <= incoming.epoch then
      (n, Some(AsLoser(incoming)))
    else
      (n.(owned := n.owned[g := incoming], epoch := Max(n.epoch, incoming.epoch)), Some(AsLoser(n.owned[g])))
  }

  /** Merged rebuild entries overwrite what is held. */
  function ApplyRebuild(n: Node, merged: seq<DirectoryEntry>): Node {
    if merged == [] then n
    else
      var front := ApplyRebuild(n, merged[..|merged| - 1]);
      var e := merged[|merged| - 1];
      front.(owned := front.owned[e.grain := e], epoch := Max(front.epoch, e.epoch))
  }

  // ---- Epochs ----------------------------------------------------------------------

  /** The counter is at least every epoch held. */
  predicate Dominates(n: Node) {
    forall g :: g in n.owned ==> n.owned[g].epoch <= n.epoch
  }

  /** A created entry is newer than everything held, and the counter moves to its epoch. */
  lemma CreatedIsNewest(n: Node, g: GrainId, silo: SiloAddress)
    requires Dominates(n) && g !in n.owned
    ensures var (n', e) := Register(n, g, silo);
            && Dominates(n') && e == n'.owned[g] && e.silo == silo && e.grain == g
            && n.epoch + 1 == e.epoch == n'.epoch
            && n'.owned.Keys == n.owned.Keys + {g}
            && (forall k :: k in n.owned ==> n.owned[k].epoch < e.epoch && n'.owned[k] == n.owned[k])
            && (PlacementCandidates(n) != [] ==> Resolve(n, g, silo) == (n', Ok(e)))
  {
  }

  lemma {:induction false} RebuildDominates(n: Node, merged: seq<DirectoryEntry>)
    requires Dominates(n)
    ensures Dominates(ApplyRebuild(n, merged)) && ApplyRebuild(n, merged).epoch >= n.epoch
    ensures ApplyRebuild(n, merged).local == n.local
  {
    if merged != [] {
      RebuildDominates(n, merged[..|merged| - 1]);
    }
  }

  /** No operation lowers the counter or lets an entry overtake it. */
  lemma EpochsStayDominated(hash: StableHash, n: Node, g: GrainId, silo: SiloAddress, active: seq<SiloAddress>,
                            incoming: DirectoryEntry, merged: seq<DirectoryEntry>)
    requires Dominates(n)
    ensures forall n' :: n' in {Register(n, g, silo).0, Unregister(n, g, silo), Resolve(n, g, silo).0,
                                ChangeMembership(hash, n, active).0, ApplyHandoff(hash, n, incoming).0,
                                ApplyRebuild(n, merged)}
              ==> Dominates(n') && n'.epoch >= n.epoch && n'.local == n.local
  {
    hide MakeRing, OwnerOf;
    RebuildDominates(n, merged);
  }

  /** Who may be picked for a new activation: the active silos whenever there are any, and else those on the ring; with
      nobody to pick, a grain that is not held cannot be resolved, and nothing changes. */
  lemma CandidatesAreActive(n: Node, g: GrainId, chosen: SiloAddress)
    ensures n.active != [] ==> PlacementCandidates(n) == n.active
    ensures n.active == [] ==> PlacementCandidates(n) == n.ring.silos
    ensures Resolve(n, g, chosen).1 == Err(ClusterNotReady) <==>
            g !in n.owned && n.active == [] && n.ring.silos == []
    ensures Resolve(n, g, chosen).1.Err? ==> Resolve(n, g, chosen).0 == n
  {
  }

  /** Whom a rebuild asks: the active silos other than this one, in order. */
  lemma {:induction false} PeersAreTheOthers(local: SiloAddress, active: seq<SiloAddress>)
    ensures forall s :: s in Peers(local, active) <==> s in active && s != local
    ensures local !in active ==> Peers(local, active) == active
  {
    if active != [] {
      var front := active[..|active| - 1];
      PeersAreTheOthers(local, front);
      assert active == front + [active[|active| - 1]];
    }
  }

  /** A rebuild is asked for exactly when there are new arcs and there is another silo, with the arcs, those silos and
      what is still held. */
  lemma RebuildIsAskedFor(n: Node, after: Node, active: seq<SiloAddress>)
    ensures RebuildAfter(n, after, active).Some? <==>
            NewArcs(Some(n.ring), after.ring, n.local) != [] && exists s :: s in active && s != n.local
    ensures RebuildAfter(n, after, active).Some? ==>
            var call := RebuildAfter(n, after, active).value;
            && call.arcs == NewArcs(Some(n.ring), after.ring, n.local) && call.existing == after.owned
            && (forall s :: s in call.peers <==> s in active && s != n.local)
  {
    hide NewArcs, Peers;
    PeersAreTheOthers(n.local, active);
    assert Peers(n.local, active) != [] ==> Peers(n.local, active)[0] in Peers(n.local, active);
  }

  // ---- Giving up entries ------------------------------------------------------------------

  /** A membership change splits what was held: each entry is kept or given up, as it was, kept exactly if this silo
      owns it on the new ring; an empty list of silos leaves the ring alone. Without a ring nothing can be given up,
      which is an error if there is anything held. The counter stays. */
  lemma ChangeSplits(hash: StableHash, n: Node, active: seq<SiloAddress>)
    ensures var (n', r) := ChangeMembership(hash, n, active);
            && n'.local == n.local && n'.active == active && n'.epoch == n.epoch
            && (active == [] ==> n'.ring == n.ring)
            && (active != [] ==> n'.ring == MakeRing(hash, active, VIRTUAL_NODES_PER_SILO))
            && (r.Err? <==> n'.ring.positions == [] && n.owned != map[])
            && (r.Err? ==> n'.owned == n.owned)
            && (r.Ok? ==> n'.owned.Keys !! r.value.Keys && n'.owned.Keys + r.value.Keys == n.owned.Keys)
            && (forall g :: g in n'.owned ==> n'.owned[g] == n.owned[g])
            && (r.Ok? ==> forall g :: g in n'.owned ==> OwnerOfGrain(hash, n'.ring, g) == Some(n.local))
            && (r.Ok? ==> forall g :: g in r.value ==>
                  && r.value[g].entry == n.owned[g] && r.value[g].owner != n.local
                  && OwnerOfGrain(hash, n'.ring, g) == Some(r.value[g].owner))
  {
    hide MakeRing, OwnerOf;
    OwnerWhenPositions(hash, ChangeMembership(hash, n, active).0.ring);
    hide OwnerOfGrain;
  }

  // ---- Installing what a rebuild recovered ------------------------------------------------

  /** As the values of a dictionary are: one entry for each grain. */
  predicate OnePerGrain(merged: seq<DirectoryEntry>) {
    forall i, j :: 0 <= i < j < |merged| ==> merged[i].grain != merged[j].grain
  }

  predicate About(merged: seq<DirectoryEntry>, g: GrainId) {
    exists e :: e in merged && e.grain == g
  }

  /** The counter is the highest of what it was and the installed epochs. */
  predicate IsHighest(epoch: int, was: int, merged: seq<DirectoryEntry>) {
    && was <= epoch && (forall e :: e in merged ==> e.epoch <= epoch)
    && (epoch == was || exists e :: e in merged && e.epoch == epoch)
  }

  lemma {:induction false} RebuildInstallsAt(n: Node, merged: seq<DirectoryEntry>, g: GrainId)
    requires OnePerGrain(merged)
    ensures var n' := ApplyRebuild(n, merged);
            && (forall e :: e in merged && e.grain == g ==> g in n'.owned && n'.owned[g] == e)
            && (g in n'.owned <==> g in n.owned || About(merged, g))
            && (g in n.owned && !About(merged, g) ==> n'.owned[g] == n.owned[g])
  {
    if merged != [] {
      var front, last := merged[..|merged| - 1], merged[|merged| - 1];
      assert merged == front + [last];
      assert last.grain == g ==> forall e :: e in front ==> e.grain != g;
      RebuildInstallsAt(n, front, g);
      AboutOneMore(front, last, g);
      hide OnePerGrain, About, IsHighest;
    }
  }

  lemma AboutOneMore(front: seq<DirectoryEntry>, last: DirectoryEntry, g: GrainId)
    ensures About(front + [last], g) <==> About(front, g) || last.grain == g
    ensures forall e :: e in front + [last] <==> e in front || e == last
  {
    assert last in front + [last];
  }

  lemma {:induction false} RebuildCounts(n: Node, merged: seq<DirectoryEntry>)
    ensures var n' := ApplyRebuild(n, merged);
            && n'.local == n.local && n'.ring == n.ring && n'.active == n.active
            && IsHighest(n'.epoch, n.epoch, merged)
  {
    if merged != [] {
      var front, last := merged[..|merged| - 1], merged[|merged| - 1];
      assert merged == front + [last];
      assert forall e :: e in merged <==> e in front || e == last;
      RebuildCounts(n, front);
    }
  }

  /** After a rebuild every merged entry is held, every other grain keeps what it had, and the counter has caught up. */
  lemma RebuildInstalls(n: Node, merged: seq<DirectoryEntry>)
    requires OnePerGrain(merged)
    ensures var n' := ApplyRebuild(n, merged);
            && n'.local == n.local && n'.ring == n.ring && n'.active == n.active
            && (forall e :: e in merged ==> e.grain in n'.owned && n'.owned[e.grain] == e)
            && (forall g :: g in n'.owned <==> g in n.owned || About(merged, g))
            && (forall g :: g in n.owned && !About(merged, g) ==> n'.owned[g] == n.owned[g])
            && IsHighest(n'.epoch, n.epoch, merged)
  {
    hide ApplyRebuild, OnePerGrain, IsHighest, About;
    RebuildCounts(n, merged);
    forall g {
      RebuildInstallsAt(n, merged, g);
    }
  }

  /** `winners` lists the values of the merged dictionary. */
  ghost predicate Lists(winners: seq<DirectoryEntry>, best: Partition) {
    OnePerGrain(winners) && forall e :: e in winners <==> e.grain in best && best[e.grain] == e
  }

  /** So a rebuild recovers: of every grain that was reported, by a peer or by this silo, the partition then holds the
      least entry reported, and of no other grain is anything changed. */
  lemma RebuildRecovers(n: Node, candidates: seq<DirectoryEntry>, existing: Partition, winners: seq<DirectoryEntry>)
    requires WellKeyed(existing) && Lists(winners, Merge(candidates, existing).0)
    ensures var n' := ApplyRebuild(n, winners);
            && (forall e :: Reported(candidates, existing, e) ==>
                  e.grain in n'.owned && Least(candidates, existing, n'.owned[e.grain]))
            && (forall g :: g in n'.owned && (g !in n.owned || n'.owned[g] != n.owned[g]) ==>
                  Reported(candidates, existing, n'.owned[g]) && n'.owned[g].grain == g)
            && (forall g :: g in n.owned ==> g in n'.owned)
  {
    hide Merge, ApplyRebuild, Least;
    RebuildInstalls(n, winners);
    var best := Merge(candidates, existing).0;
    var n' := ApplyRebuild(n, winners);
    forall g
      ensures g in best <==> exists e :: Reported(candidates, existing, e) && e.grain == g
      ensures g in best ==> best[g].grain == g && Least(candidates, existing, best[g]) && best[g] in winners
    {
      WinnerIsLeast(candidates, existing, g);
    }
    forall g | g in best
      ensures g in n'.owned && n'.owned[g] == best[g] && Reported(candidates, existing, best[g])
    {
      LeastIsReported(candidates, existing, best[g]);
    }
    assert forall g :: About(winners, g) ==> g in best;
  }

  lemma LeastIsReported(candidates: seq<DirectoryEntry>, existing: Partition, e: DirectoryEntry)
    requires Least(candidates, existing, e)
    ensures Reported(candidates, existing, e)
  {
  }

  // ---- Reconciliation by handoff ----------------------------------------------------

  /** Handoffs delivered one after the other, with everyone told to stand down on the way. */
  function ApplyHandoffs(hash: StableHash, n: Node, incoming: seq<DirectoryEntry>): (Node, seq<Loser>) {
    if incoming == [] then (n, [])
    else
      var (front, told) := ApplyHandoffs(hash, n, incoming[..|incoming| - 1]);
      var (after, loser) := ApplyHandoff(hash, front, incoming[|incoming| - 1]);
      (after, if loser.Some? then told + [loser.value] else told)
  }

  function Held(n: Node, g: GrainId): seq<DirectoryEntry> {
    if g in n.owned then [n.owned[g]] else []
  }

  function AsLosers(es: seq<DirectoryEntry>): multiset<Loser> {
    if es == [] then multiset{} else AsLosers(es[..|es| - 1]) + multiset{AsLoser(es[|es| - 1])}
  }

  /** The earliest of the entries with the lowest epoch. */
  predicate FirstLowest(es: seq<DirectoryEntry>, w: DirectoryEntry) {
    exists i :: 0 <= i < |es| && es[i] == w
             && (forall k :: 0 <= k < i ==> es[i].epoch < es[k].epoch)
             && (forall k :: i < k < |es| ==> es[i].epoch <= es[k].epoch)
  }

  lemma FirstLowestStep(es: seq<DirectoryEntry>, w: DirectoryEntry, e: DirectoryEntry)
    requires FirstLowest(es, w)
    ensures FirstLowest(es + [e], if w.epoch <= e.epoch then w else e)
  {
    var i :| 0 <= i < |es| && es[i] == w
          && (forall k :: 0 <= k < i ==> es[i].epoch < es[k].epoch)
          && (forall k :: i < k < |es| ==> es[i].epoch <= es[k].epoch);
    var all := es + [e];
    var j := if w.epoch <= e.epoch then i else |es|;
    assert all[j] == if w.epoch <= e.epoch then w else e;
    assert forall k :: 0 <= k < |es| ==> all[k] == es[k] && w.epoch <= es[k].epoch;
  }

  function Told(loser: Option<Loser>): multiset<Loser> {
    if loser.Some? then multiset{loser.value} else multiset{}
  }

  predicate SameElsewhere(p: Partition, q: Partition, g: GrainId) {
    p - {g} == q - {g}
  }

  /** One handoff to the owner: of what is held and what arrives one is retained, the other told. */
  lemma HandoffStep(hash: StableHash, n: Node, g: GrainId, e: DirectoryEntry)
    requires OwnerOfGrain(hash, n.ring, g) == Some(n.local) && e.grain == g
    ensures var (after, loser) := ApplyHandoff(hash, n, e);
            && after.ring == n.ring && after.local == n.local
            && g in after.owned
            && after.owned[g] == (if g in n.owned && n.owned[g].epoch <= e.epoch then n.owned[g] else e)
            && loser == (if g !in n.owned then None
                         else if n.owned[g].epoch <= e.epoch then Some(AsLoser(e)) else Some(AsLoser(n.owned[g])))
            && SameElsewhere(after.owned, n.owned, g)
            && after.active == n.active
            && after.epoch == (if after.owned[g] != e || n.epoch >= e.epoch || (g in n.owned && n.owned[g] == e)
                               then n.epoch else e.epoch)
  {
    hide OwnerOf;
  }

  /** A handoff to a silo that does not own the grain is dropped. */
  lemma StrayHandoffIsDropped(hash: StableHash, n: Node, e: DirectoryEntry)
    requires OwnerOfGrain(hash, n.ring, e.grain) != Some(n.local)
    ensures ApplyHandoff(hash, n, e) == (n, None)
  {
  }

  lemma HandoffStepBalance(hash: StableHash, n: Node, g: GrainId, e: DirectoryEntry)
    requires OwnerOfGrain(hash, n.ring, g) == Some(n.local) && e.grain == g
    ensures var (after, loser) := ApplyHandoff(hash, n, e);
            AsLosers(Held(after, g)) + Told(loser) == AsLosers(Held(n, g)) + multiset{AsLoser(e)}
  {
    HandoffStep(hash, n, g, e);
    hide OwnerOfGrain, ApplyHandoff, SameElsewhere, AsLosers;
    var (after, loser) := ApplyHandoff(hash, n, e);
    SingleIsLowest(after.owned[g]);
    NoLosers();
    if g in n.owned {
      SingleIsLowest(n.owned[g]);
    }
  }

  lemma NoLosers()
    ensures AsLosers([]) == multiset{}
  {
  }

  lemma AsLosersAppend(es: seq<DirectoryEntry>, e: DirectoryEntry)
    ensures AsLosers(es + [e]) == AsLosers(es) + multiset{AsLoser(e)}
  {
    assert (es + [e])[..|es|] == es;
  }

  lemma Balance(held: multiset<Loser>, told: multiset<Loser>, before: multiset<Loser>, toldBefore: multiset<Loser>,
                arrived: multiset<Loser>, all: multiset<Loser>)
    requires held + told == before + arrived && before + toldBefore == all
    ensures held + (toldBefore + told) == all + arrived
  {
    assert held + (toldBefore + told) == (held + told) + toldBefore;
    assert (before + arrived) + toldBefore == (before + toldBefore) + arrived;
  }

  /** Handoffs of one grain to its owner touch nothing else, and leave an entry if there was or came any. */
  lemma {:induction false} HandoffsFrame(hash: StableHash, n: Node, g: GrainId, incoming: seq<DirectoryEntry>)
    requires OwnerOfGrain(hash, n.ring, g) == Some(n.local)
    requires forall e :: e in incoming ==> e.grain == g
    ensures var after := ApplyHandoffs(hash, n, incoming).0;
            && after.ring == n.ring && after.local == n.local
            && SameElsewhere(after.owned, n.owned, g)
            && (g in after.owned <==> g in n.owned || incoming != [])
  {
    hide OwnerOfGrain, ApplyHandoff, SameElsewhere;
    SameElsewhereTrans(n.owned, n.owned, n.owned, g);
    if incoming != [] {
      var front := incoming[..|incoming| - 1];
      var e := incoming[|incoming| - 1];
      HandoffsFrame(hash, n, g, front);
      var mid := ApplyHandoffs(hash, n, front).0;
      HandoffStep(hash, mid, g, e);
      SameElsewhereTrans(ApplyHandoff(hash, mid, e).0.owned, mid.owned, n.owned, g);
    }
  }

  /** Handoffs of one grain delivered to its owner lose no activation and invent none: what is retained and
      what is told to stand down are together what was held and what was delivered. */
  lemma {:induction false} HandoffsConserve(hash: StableHash, n: Node, g: GrainId, incoming: seq<DirectoryEntry>)
    requires OwnerOfGrain(hash, n.ring, g) == Some(n.local)
    requires forall e :: e in incoming ==> e.grain == g
    ensures var (after, told) := ApplyHandoffs(hash, n, incoming);
            AsLosers(Held(after, g)) + multiset(told) == AsLosers(Held(n, g) + incoming)
  {
    var held := Held(n, g);
    hide OwnerOfGrain, ApplyHandoff, SameElsewhere, Held, AsLosers;
    if incoming == [] {
      assert held + incoming == held;
    } else {
      var front := incoming[..|incoming| - 1];
      var e := incoming[|incoming| - 1];
      assert held + incoming == (held + front) + [e];
      HandoffsConserve(hash, n, g, front);
      HandoffsFrame(hash, n, g, front);
      var (mid, told) := ApplyHandoffs(hash, n, front);
      var (after, loser) := ApplyHandoff(hash, mid, e);
      HandoffStepBalance(hash, mid, g, e);
      AsLosersAppend(held + front, e);
      Balance(AsLosers(Held(after, g)), Told(loser), AsLosers(Held(mid, g)), multiset(told),
              multiset{AsLoser(e)}, AsLosers(held + front));
    }
  }

  /** What is retained is the earliest arrival with the lowest epoch, counting what was held as first. */
  lemma {:induction false} HandoffsRetainLowest(hash: StableHash, n: Node, g: GrainId, incoming: seq<DirectoryEntry>)
    requires OwnerOfGrain(hash, n.ring, g) == Some(n.local)
    requires forall e :: e in incoming ==> e.grain == g
    requires Held(n, g) + incoming != []
    ensures var after := ApplyHandoffs(hash, n, incoming).0;
            g in after.owned && FirstLowest(Held(n, g) + incoming, after.owned[g])
  {
    var held := Held(n, g);
    hide OwnerOfGrain, FirstLowest, ApplyHandoff, SameElsewhere;
    HandoffsFrame(hash, n, g, incoming);
    if incoming == [] {
      assert held + incoming == held;
      SingleIsLowest(n.owned[g]);
    } else {
      var front := incoming[..|incoming| - 1];
      var e := incoming[|incoming| - 1];
      assert held + incoming == (held + front) + [e];
      HandoffsFrame(hash, n, g, front);
      var mid := ApplyHandoffs(hash, n, front).0;
      HandoffStep(hash, mid, g, e);
      if held + front == [] {
        assert |held| == 0 && front == [];
        assert held + incoming == [e];
        SingleIsLowest(e);
      } else {
        HandoffsRetainLowest(hash, n, g, front);
        FirstLowestStep(held + front, mid.owned[g], e);
      }
    }
  }

  lemma SameElsewhereTrans(p: Partition, q: Partition, r: Partition, g: GrainId)
    ensures SameElsewhere(p, p, g)
    ensures SameElsewhere(p, q, g) && SameElsewhere(q, r, g) ==> SameElsewhere(p, r, g)
  {
  }

  lemma SingleIsLowest(e: DirectoryEntry)
    ensures FirstLowest([e], e)
    ensures AsLosers([e]) == multiset{AsLoser(e)}
  {
    assert [e][0] == e;
  }

  // ---- The object ---------------------------------------------------------------------

  class GrainDirectory {
    const hash: StableHash
    const local: SiloAddress
    var ring: Ring
    var activeSilos: seq<SiloAddress>
    var owned: Partition
    var epoch: int

    ghost function Value(): Node
      reads this
    {
      Node(local, ring, activeSilos, owned, epoch)
    }

    ghost predicate Valid()
      reads this
    {
      WellKeyed(owned) && Dominates(Value())
    }

    constructor (hash: StableHash, local: SiloAddress, initialRing: Ring, active: seq<SiloAddress>)
      ensures Value() == Node(local, initialRing, active, map[], 0) && this.hash == hash && Valid()
    {
      this.hash, this.local := hash, local;
      ring, activeSilos, owned, epoch := initialRing, active, map[], 0;
    }

    method RegisterLocal(g: GrainId, silo: SiloAddress) returns (entry: DirectoryEntry)
      requires Valid()
      modifies this
      ensures Valid()
      ensures (Value(), entry) == Register(old(Value()), g, silo)
    {
      if g in owned {
        return owned[g];
      }
      epoch := epoch + 1;
      entry := DirectoryEntry(g, silo, epoch);
      owned := owned[g := entry];
    }

    method UnregisterLocal(g: GrainId, silo: SiloAddress)
      requires Valid()
      modifies this
      ensures Valid()
      ensures Value() == Unregister(old(Value()), g, silo)
    {
      if g !in owned {
        return;
      }
      if owned[g].silo != silo {
        return;
      }
      owned := owned - {g};
    }

    method ResolveOrActivateLocal(g: GrainId, pick: seq<SiloAddress> -> SiloAddress)
      returns (r: Result<DirectoryEntry, DirectoryError>)
      requires Valid()
      modifies this
      ensures Valid()
      ensures (Value(), r) == Resolve(old(Value()), g, pick(PlacementCandidates(old(Value()))))
    {
      if g in owned {
        return Ok(owned[g]);
      }
      var active := if activeSilos != [] then activeSilos else ring.silos;
      if active == [] {
        return Err(ClusterNotReady);
      }
      var chosen := pick(active);
      epoch := epoch + 1;
      var entry := DirectoryEntry(g, chosen, epoch);
      owned := owned[g := entry];
      return Ok(entry);
    }

    /** The handoffs to stream, one for each entry given up, in no particular order; and the rebuild to schedule. */
    method OnMembershipChanged(active: seq<SiloAddress>)
      returns (r: Result<seq<Handoff>, DirectoryError>, rebuild: Option<RebuildCall>)
      requires Valid()
      modifies this
      ensures Valid()
      ensures var (after, moved) := ChangeMembership(hash, old(Value()), active);
              && Value() == after
              && (r.Err? <==> moved.Err?) && (r.Err? ==> rebuild == None)
              && (r.Ok? ==>
                    && |r.value| == |moved.value|
                    && (forall h :: h in r.value ==> h.entry.grain in moved.value && moved.value[h.entry.grain] == h)
                    && (forall g :: g in moved.value ==> moved.value[g] in r.value)
                    && rebuild == RebuildAfter(old(Value()), after, active))
    {
      hide MakeRing, OwnerOf, NewArcs, SortedBy;
      rebuild := None;
      activeSilos := active;
      var oldRing := ring;
      if active != [] {
        var built := BuildRing(hash, active, VIRTUAL_NODES_PER_SILO);
        ring := built.value;
      }
      if ring.positions == [] && owned != map[] {
        return Err(ClusterNotReady), None;
      }
      OwnerWhenPositions(hash, ring);
      var handoffs, stale := CollectHandoffs();
      owned := owned - stale;
      var arcs := ComputeNewArcs(Some(oldRing), ring, local);
      var peers := Others(active);
      if arcs != [] && peers != [] {
        rebuild := Some(RebuildCall(arcs, peers, owned));
      }
      return Ok(handoffs), rebuild;
    }

    method Others(active: seq<SiloAddress>) returns (peers: seq<SiloAddress>)
      ensures peers == Peers(local, active)
    {
      peers := [];
      for i := 0 to |active|
        invariant peers == Peers(local, active[..i])
      {
        assert active[..i + 1][..i] == active[..i];
        if active[i] != local {
          peers := peers + [active[i]];
        }
      }
      assert active[..|active|] == active;
    }

    /** The scan of the partition against the new ring. */
    method CollectHandoffs() returns (handoffs: seq<Handoff>, stale: set<GrainId>)
      requires ring.positions != [] || owned == map[]
      requires WellKeyed(owned)
      ensures var moved := Moved(hash, Value(), ring);
              && stale == moved.Keys
              && |handoffs| == |moved|
              && (forall h :: h in handoffs ==> h.entry.grain in moved && moved[h.entry.grain] == h)
              && (forall g :: g in moved ==> moved[g] in handoffs)
    {
      OwnerWhenPositions(hash, ring);
      hide OwnerOfGrain, SortedBy;
      ghost var moved := Moved(hash, Value(), ring);
      assert forall g :: g in owned ==> (g in moved <==> OwnerOfGrain(hash, ring, g) != Some(local));
      assert forall g :: g in moved ==> moved[g] == Handoff(OwnerOfGrain(hash, ring, g).value, owned[g]);
      hide Moved;
      handoffs, stale := [], {};
      var todo := owned.Keys;
      while todo != {}
        invariant todo <= owned.Keys
        invariant forall g :: g in stale <==> g in moved && g !in todo
        invariant |handoffs| == |stale|
        invariant forall h :: h in handoffs ==> h.entry.grain in stale && moved[h.entry.grain] == h
        invariant forall g :: g in stale ==> moved[g] in handoffs
      {
        var g :| g in todo;
        todo := todo - {g};
        var owner := OwnerOfGrain(hash, ring, g);
        if owner != Some(local) {
          handoffs := handoffs + [Handoff(owner.value, owned[g])];
          stale := stale + {g};
        }
      }
      assert stale == moved.Keys;
    }

    /** Who is to be told to stand down, if anyone; on an empty ring nobody owns anything, which is an error. */
    method ReceiveHandoff(incoming: DirectoryEntry) returns (r: Result<Option<Loser>, DirectoryError>)
      requires Valid()
      modifies this
      ensures Valid()
      ensures r.Err? <==> old(ring).positions == []
      ensures Value() == ApplyHandoff(hash, old(Value()), incoming).0
      ensures r.Ok? ==> r.value == ApplyHandoff(hash, old(Value()), incoming).1
    {
      OwnerWhenPositions(hash, ring);
      hide OwnerOf;
      var g := incoming.grain;
      var owner := OwnerOfGrain(hash, ring, g);
      if owner.None? {
        return Err(ClusterNotReady);
      }
      if owner != Some(local) {
        return Ok(None);
      }
      if g !in owned {
        owned := owned[g := incoming];
        epoch := Max(epoch, incoming.epoch);
        return Ok(None);
      }
      var existing := owned[g];
      if existing.epoch <= incoming.epoch {
        return Ok(Some(Loser(incoming.silo, g, incoming.epoch)));
      }
      owned := owned[g := incoming];
      epoch := Max(epoch, incoming.epoch);
      return Ok(Some(Loser(existing.silo, g, existing.epoch)));
    }

    method ApplyRebuildEntries(merged: seq<DirectoryEntry>)
      requires Valid()
      modifies this
      ensures Valid()
      ensures Value() == ApplyRebuild(old(Value()), merged)
    {
      for i := 0 to |merged|
        invariant WellKeyed(owned)
        invariant Value() == ApplyRebuild(old(Value()), merged[..i])
      {
        assert merged[..i + 1][..i] == merged[..i];
        owned := owned[merged[i].grain := merged[i]];
        epoch := Max(epoch, merged[i].epoch);
      }
      assert merged[..|merged|] == merged;
      RebuildDominates(old(Value()), merged);
    }
  }

  lemma OwnerWhenPositions(hash: StableHash, ring: Ring)
    ensures forall g :: OwnerOfGrain(hash, ring, g).Some? <==> ring.positions != []
  {
  }
}
