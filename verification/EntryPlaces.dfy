/** Where the entries of the distributed directory are while it follows the discipline
    `Allowed`: each in exactly one silo's partition, or in exactly one handoff in flight. */
module EntryPlaces {
  import opened Wrappers
  import opened Identity
  import opened Sequences
  import opened HashRing
  import opened Directory
  import opened DirectoryNode
  import opened DirectoryCluster

  /** Who owns `g` on the ring over `members`. */
  function OwnerIn(hash: StableHash, members: seq<SiloAddress>, g: GrainId): Option<SiloAddress> {
    OwnerOfGrain(hash, MakeRing(hash, members, VIRTUAL_NODES_PER_SILO), g)
  }

  ghost predicate RoutesAs(hash: StableHash, n: Node, members: seq<SiloAddress>) {
    forall g :: OwnerOfGrain(hash, n.ring, g) == OwnerIn(hash, members, g)
  }

  /** All silos route by the current membership and no handoff is in flight. */
  ghost predicate Settled(hash: StableHash, s: Sys) {
    s.flights == map[] && forall n :: n in s.nodes ==> RoutesAs(hash, s.nodes[n], s.target)
  }

  predicate NothingUnserved(s: Sys) {
    forall id :: id in s.requests ==> s.requests[id].answer.Some?
  }

  ghost predicate Allowed(hash: StableHash, s: Sys, step: Step) {
    match step
    case Issue(_, _, _, _) => Settled(hash, s)
    case Serve(_, _) => Settled(hash, s)
    case Change(_, active) =>
      && active != [] && Elements(active) <= s.nodes.Keys && NothingUnserved(s)
      && (s.flights == map[] || Elements(active) == Elements(s.target))
    case Deliver(key) =>
      key in s.flights && s.flights[key].owner in s.nodes ==> RoutesAs(hash, s.nodes[s.flights[key].owner], s.target)
    case LoseHandoff(_) => false
    case Stop(silo) => silo !in s.target && (silo in s.nodes ==> s.nodes[silo].owned == map[])
    case Rebuild(_, _) => false
    case _ => true
  }

  ghost predicate AllowedRun(hash: StableHash, first: SiloAddress, steps: seq<Step>) {
    forall k :: 0 <= k < |steps| ==> Allowed(hash, Run(hash, first, steps[..k]), steps[k])
  }

  // ---- Where the entries are ---------------------------------------------------------

  /** The global map the silos together stand for. */
  function Truth(s: Sys): Partition {
    Replay(s.log)
  }

  predicate Holds(s: Sys, n: SiloAddress, g: GrainId) {
    n in s.nodes && g in s.nodes[n].owned
  }

  predicate Flies(s: Sys, key: (nat, GrainId), g: GrainId) {
    key in s.flights && s.flights[key].entry.grain == g
  }

  /** Partitions and handoffs contain entries of the global map, and nothing else. */
  ghost predicate Faithful(s: Sys) {
    && (forall n, g :: Holds(s, n, g) ==> g in Truth(s) && s.nodes[n].owned[g] == Truth(s)[g])
    && (forall key :: key in s.flights ==>
          var e := s.flights[key].entry; e.grain == key.1 && e.grain in Truth(s) && e == Truth(s)[e.grain])
  }

  /** No entry is in two places. */
  ghost predicate OnePlace(s: Sys) {
    && (forall m, n, g :: Holds(s, m, g) && Holds(s, n, g) ==> m == n)
    && (forall j, k, g :: Flies(s, j, g) && Flies(s, k, g) ==> j == k)
    && (forall n, k, g :: !(Holds(s, n, g) && Flies(s, k, g)))
  }

  /** Every entry of the global map is somewhere. */
  ghost predicate Present(s: Sys) {
    forall g :: g in Truth(s) ==> (exists n :: Holds(s, n, g)) || (exists k :: Flies(s, k, g))
  }

  /** A silo holds only what its own ring assigns to it. */
  ghost predicate HoldsItsOwn(hash: StableHash, s: Sys) {
    && (forall n :: n in s.nodes ==> s.nodes[n].local == n && s.nodes[n].active != [])
    && (forall n, g :: Holds(s, n, g) ==> OwnerOfGrain(hash, s.nodes[n].ring, g) == Some(n))
  }

  /** Handoffs and unserved requests are addressed to the owner under the current membership. */
  ghost predicate Addressed(hash: StableHash, s: Sys) {
    && s.target != [] && Elements(s.target) <= s.nodes.Keys
    && (forall key :: key in s.flights ==>
          key.0 < s.changes && Some(s.flights[key].owner) == OwnerIn(hash, s.target, key.1))
    && (forall id :: id in s.requests && s.requests[id].answer.None? ==>
          Some(s.requests[id].owner) == OwnerIn(hash, s.target, s.requests[id].call.grain))
  }

  ghost predicate Located(hash: StableHash, s: Sys) {
    Faithful(s) && OnePlace(s) && Present(s) && HoldsItsOwn(hash, s) && Addressed(hash, s)
  }

  lemma OwnerInFacts(hash: StableHash, members: seq<SiloAddress>, g: GrainId)
    requires members != []
    ensures OwnerIn(hash, members, g).Some? && OwnerIn(hash, members, g).value in Elements(members)
  {
    hide OwnerOf, MakeRing;
    OwnerExists(hash, members, VIRTUAL_NODES_PER_SILO, GrainHash(hash, g));
  }

  lemma SameMembersSameOwner(hash: StableHash, xs: seq<SiloAddress>, ys: seq<SiloAddress>, g: GrainId)
    requires Elements(xs) == Elements(ys)
    ensures OwnerIn(hash, xs, g) == OwnerIn(hash, ys, g)
  {
    hide OwnerOf, MakeRing;
    OwnerDependsOnSetOnly(hash, xs, ys, VIRTUAL_NODES_PER_SILO, GrainHash(hash, g));
  }

  /** When all is settled, the owner of a grain holds its entry if there is one, and nobody else does. */
  lemma SettledAtOwner(hash: StableHash, s: Sys, g: GrainId, n: SiloAddress)
    requires Located(hash, s) && Settled(hash, s) && n in s.nodes
    ensures Holds(s, n, g) <==> g in Truth(s) && OwnerIn(hash, s.target, g) == Some(n)
    ensures Holds(s, n, g) ==> s.nodes[n].owned[g] == Truth(s)[g]
  {
    hide OwnerIn, OwnerOfGrain, Replay;
    if g in Truth(s) {
      assert forall k :: !Flies(s, k, g);
      var m :| Holds(s, m, g);
      assert OwnerOfGrain(hash, s.nodes[m].ring, g) == OwnerIn(hash, s.target, g);
    }
  }

  // ---- Serving a call -----------------------------------------------------------------

  lemma ReplayAppend(log: seq<Event>, e: Event)
    ensures Replay(log + [e]) == After(Replay(log), e.call, e.answer)
  {
    assert (log + [e])[..|log|] == log;
  }

  /** On the partition that holds the truth about `g`, the code answers as the map would, and the
      partition changes as the map does. */
  lemma ServeAtIsLegal(n: Node, m: Partition, call: Call, chosen: SiloAddress)
    requires PlacementCandidates(n) != [] && WellKeyed(m)
    requires call.grain in n.owned <==> call.grain in m
    requires call.grain in m ==> n.owned[call.grain] == m[call.grain]
    ensures var (n', answer) := ServeAt(n, call, chosen);
            var m' := After(m, call, answer);
            && Legal(m, call, answer) && WellKeyed(m')
            && n'.local == n.local && n'.ring == n.ring && n'.active == n.active
            && (call.grain in n'.owned <==> call.grain in m')
            && (call.grain in m' ==> n'.owned[call.grain] == m'[call.grain])
            && (forall g :: g != call.grain ==> (g in n'.owned <==> g in n.owned) && (g in m' <==> g in m))
            && (forall g :: g != call.grain ==>
                  (g in n.owned ==> n'.owned[g] == n.owned[g]) && (g in m ==> m'[g] == m[g]))
  {
  }

  /** `s'` differs from `s` only in what `server` holds of `g` and in what is true of `g`, and there it agrees. */
  ghost predicate Touches(s: Sys, s': Sys, server: SiloAddress, g: GrainId) {
    && server in s.nodes && s'.nodes.Keys == s.nodes.Keys
    && s'.flights == s.flights && s'.requests == s.requests && s'.target == s.target && s'.changes == s.changes
    && (forall n :: n in s.nodes && n != server ==> s'.nodes[n] == s.nodes[n])
    && s'.nodes[server].local == s.nodes[server].local && s'.nodes[server].ring == s.nodes[server].ring
    && s'.nodes[server].active == s.nodes[server].active
    && (forall k :: k != g ==> (k in Truth(s') <==> k in Truth(s)) && (Holds(s', server, k) <==> Holds(s, server, k)))
    && (forall k :: k != g && k in Truth(s) ==> Truth(s')[k] == Truth(s)[k])
    && (forall k :: k != g && Holds(s, server, k) ==> s'.nodes[server].owned[k] == s.nodes[server].owned[k])
    && (Holds(s', server, g) <==> g in Truth(s'))
    && (g in Truth(s') ==> s'.nodes[server].owned[g] == Truth(s')[g])
  }

  lemma TouchedHolders(hash: StableHash, s: Sys, s': Sys, server: SiloAddress, g: GrainId)
    requires Located(hash, s) && Settled(hash, s) && Touches(s, s', server, g)
    requires OwnerIn(hash, s.target, g) == Some(server)
    ensures forall n, k :: Holds(s', n, k) && k == g ==> n == server
    ensures forall n, k :: k != g ==> (Holds(s', n, k) <==> Holds(s, n, k))
    ensures forall n, k :: Holds(s, n, k) && k != g ==> s'.nodes[n].owned[k] == s.nodes[n].owned[k]
  {
    hide OwnerIn, OwnerOfGrain, Truth;
    forall n | Holds(s', n, g)
      ensures n == server
    {
      if n != server {
        SettledAtOwner(hash, s, g, n);
      }
    }
  }

  lemma TouchesKeepsPresent(hash: StableHash, s: Sys, s': Sys, server: SiloAddress, g: GrainId)
    requires Located(hash, s) && Settled(hash, s) && Touches(s, s', server, g)
    requires OwnerIn(hash, s.target, g) == Some(server)
    ensures Present(s')
  {
    hide OwnerIn, OwnerOfGrain, Truth, Faithful, OnePlace, HoldsItsOwn, Addressed;
    TouchedHolders(hash, s, s', server, g);
    forall k | k in Truth(s') && k != g
      ensures exists n :: Holds(s', n, k)
    {
      assert forall f :: !Flies(s, f, k);
      var n :| Holds(s, n, k);
      assert Holds(s', n, k);
    }
    assert g in Truth(s') ==> Holds(s', server, g);
  }

  lemma TouchesKeepsFaithful(hash: StableHash, s: Sys, s': Sys, server: SiloAddress, g: GrainId)
    requires Located(hash, s) && Settled(hash, s) && Touches(s, s', server, g)
    requires OwnerIn(hash, s.target, g) == Some(server)
    ensures Faithful(s')
  {
    hide OwnerIn, OwnerOfGrain, Truth, OnePlace, HoldsItsOwn, Addressed, Present;
    TouchedHolders(hash, s, s', server, g);
  }

  lemma TouchesKeepsOnePlace(hash: StableHash, s: Sys, s': Sys, server: SiloAddress, g: GrainId)
    requires Located(hash, s) && Settled(hash, s) && Touches(s, s', server, g)
    requires OwnerIn(hash, s.target, g) == Some(server)
    ensures OnePlace(s')
  {
    hide OwnerIn, OwnerOfGrain, Truth, Faithful, HoldsItsOwn, Addressed, Present;
    TouchedHolders(hash, s, s', server, g);
  }

  lemma TouchesKeepsOwn(hash: StableHash, s: Sys, s': Sys, server: SiloAddress, g: GrainId)
    requires Located(hash, s) && Settled(hash, s) && Touches(s, s', server, g)
    requires OwnerIn(hash, s.target, g) == Some(server)
    ensures HoldsItsOwn(hash, s')
  {
    hide OwnerIn, OwnerOfGrain, Truth, Faithful, OnePlace, Present, Addressed;
    TouchedHolders(hash, s, s', server, g);
    assert OwnerOfGrain(hash, s'.nodes[server].ring, g) == OwnerIn(hash, s.target, g);
  }

  lemma TouchesKeepsRouting(hash: StableHash, s: Sys, s': Sys, server: SiloAddress, g: GrainId)
    requires Located(hash, s) && Settled(hash, s) && Touches(s, s', server, g)
    requires OwnerIn(hash, s.target, g) == Some(server)
    ensures Addressed(hash, s') && Settled(hash, s')
  {
    hide OwnerIn, OwnerOfGrain, Truth, Faithful, OnePlace, Present, HoldsItsOwn;
  }

  lemma TouchesKeepsLocated(hash: StableHash, s: Sys, s': Sys, server: SiloAddress, g: GrainId)
    requires Located(hash, s) && Settled(hash, s) && Touches(s, s', server, g)
    requires OwnerIn(hash, s.target, g) == Some(server)
    ensures Located(hash, s') && Settled(hash, s')
  {
    hide OwnerIn, Faithful, OnePlace, Present, HoldsItsOwn, Addressed, Settled, Touches;
    TouchesKeepsFaithful(hash, s, s', server, g);
    TouchesKeepsOnePlace(hash, s, s', server, g);
    TouchesKeepsPresent(hash, s, s', server, g);
    TouchesKeepsOwn(hash, s, s', server, g);
    TouchesKeepsRouting(hash, s, s', server, g);
  }

  lemma ServedTouches(s: Sys, server: SiloAddress, id: nat, call: Call, chosen: SiloAddress)
    requires server in s.nodes && WellKeyed(Truth(s)) && PlacementCandidates(s.nodes[server]) != []
    requires Holds(s, server, call.grain) <==> call.grain in Truth(s)
    requires call.grain in Truth(s) ==> s.nodes[server].owned[call.grain] == Truth(s)[call.grain]
    ensures var (s', answer) := Served(s, server, id, call, chosen);
            Touches(s, s', server, call.grain) && WellKeyed(Truth(s')) && Legal(Truth(s), call, answer)
  {
    hide Replay, ServeAt, After, Legal;
    var (s', answer) := Served(s, server, id, call, chosen);
    ServeAtIsLegal(s.nodes[server], Truth(s), call, chosen);
    ReplayAppend(s.log, s'.log[|s.log|]);
  }

  /** Serving at the owner while settled keeps every entry in its one place. */
  lemma ServedLocated(hash: StableHash, s: Sys, server: SiloAddress, id: nat, call: Call, chosen: SiloAddress)
    requires Located(hash, s) && Settled(hash, s) && WellKeyed(Truth(s))
    requires server in s.nodes && OwnerIn(hash, s.target, call.grain) == Some(server)
    ensures var (s', answer) := Served(s, server, id, call, chosen);
            Located(hash, s') && WellKeyed(Truth(s')) && Settled(hash, s') && Legal(Truth(s), call, answer)
  {
    hide Touches, Faithful, OnePlace, Present, Addressed, Settled, Truth, Served, Legal, OwnerIn;
    SettledAtOwner(hash, s, call.grain, server);
    ServedTouches(s, server, id, call, chosen);
    TouchesKeepsLocated(hash, s, Served(s, server, id, call, chosen).0, server, call.grain);
  }

  // ---- Changing the ring ----------------------------------------------------------------

  lemma ChangeFacts(hash: StableHash, n: Node, active: seq<SiloAddress>)
    requires active != []
    ensures var (n', r) := ChangeMembership(hash, n, active);
            && r.Ok? && n'.local == n.local && n'.active == active
            && (forall g :: OwnerOfGrain(hash, n'.ring, g) == OwnerIn(hash, active, g))
            && (forall g :: g in r.value <==> g in n.owned && OwnerIn(hash, active, g) != Some(n.local))
            && (forall g :: g in r.value ==>
                  Some(r.value[g].owner) == OwnerIn(hash, active, g) && r.value[g].entry == n.owned[g])
            && (forall g :: g in n'.owned <==> g in n.owned && OwnerIn(hash, active, g) == Some(n.local))
            && (forall g :: g in n'.owned ==> n'.owned[g] == n.owned[g])
  {
    hide MakeRing, OwnerOf;
    forall g
      ensures OwnerIn(hash, active, g).Some?
    {
      OwnerInFacts(hash, active, g);
    }
    var ring := MakeRing(hash, active, VIRTUAL_NODES_PER_SILO);
    assert ring.positions != [] by {
      PositionsExist(hash, active);
    }
    assert forall g :: OwnerOfGrain(hash, ring, g) == OwnerIn(hash, active, g);
    hide OwnerOfGrain, OwnerIn;
  }

  lemma PositionsExist(hash: StableHash, active: seq<SiloAddress>)
    requires active != []
    ensures MakeRing(hash, active, VIRTUAL_NODES_PER_SILO).positions != []
  {
    hide MakeRing, OwnerIndex;
    OwnerExists(hash, active, VIRTUAL_NODES_PER_SILO, 0);
  }

  /** `s'` is `s` after `silo` switched to `active`: what it no longer owns is in flight to its owner. */
  ghost predicate Switched(hash: StableHash, s: Sys, s': Sys, silo: SiloAddress, active: seq<SiloAddress>) {
    && silo in s.nodes && s'.nodes.Keys == s.nodes.Keys
    && s'.log == s.log && s'.requests == s.requests && s'.target == active && s'.changes == s.changes + 1
    && (forall n :: n in s.nodes && n != silo ==> s'.nodes[n] == s.nodes[n])
    && s'.nodes[silo].local == s.nodes[silo].local && s'.nodes[silo].active == active
    && (forall g :: OwnerOfGrain(hash, s'.nodes[silo].ring, g) == OwnerIn(hash, active, g))
    && (forall g :: Holds(s', silo, g) <==> Holds(s, silo, g) && OwnerIn(hash, active, g) == Some(silo))
    && (forall g :: Holds(s', silo, g) ==> s'.nodes[silo].owned[g] == s.nodes[silo].owned[g])
    && (forall k :: k in s'.flights <==> k in s.flights || SentNow(hash, s, silo, active, k))
    && (forall k :: SentNow(hash, s, silo, active, k) ==>
          s'.flights[k].entry == s.nodes[silo].owned[k.1] && Some(s'.flights[k].owner) == OwnerIn(hash, active, k.1))
    && (forall k :: k in s.flights ==> s'.flights[k] == s.flights[k])
  }

  predicate SentNow(hash: StableHash, s: Sys, silo: SiloAddress, active: seq<SiloAddress>, k: (nat, GrainId)) {
    k.0 == s.changes && Holds(s, silo, k.1) && OwnerIn(hash, active, k.1) != Some(silo)
  }

  lemma ChangeSwitches(hash: StableHash, s: Sys, silo: SiloAddress, active: seq<SiloAddress>)
    requires silo in s.nodes && active != [] && s.nodes[silo].local == silo
    requires forall k :: k in s.flights ==> k.0 < s.changes
    ensures Switched(hash, s, NextChange(hash, s, silo, active), silo, active)
  {
    hide ChangeMembership, OwnerOfGrain, OwnerIn, Sent;
    ChangeFacts(hash, s.nodes[silo], active);
    var moved := ChangeMembership(hash, s.nodes[silo], active).1.value;
    SentFacts(s.changes, moved);
    var s' := NextChange(hash, s, silo, active);
    assert forall k :: k in Sent(s.changes, moved) <==> SentNow(hash, s, silo, active, k);
    assert s'.flights == s.flights + Sent(s.changes, moved);
  }

  lemma SentFacts(change: nat, moved: map<GrainId, Handoff>)
    ensures forall k :: k in Sent(change, moved) <==> k.0 == change && k.1 in moved
    ensures forall k :: k in Sent(change, moved) ==> Sent(change, moved)[k] == moved[k.1]
  {
  }

  lemma SwitchKeepsFaithful(hash: StableHash, s: Sys, s': Sys, silo: SiloAddress, active: seq<SiloAddress>)
    requires Faithful(s) && WellKeyed(Truth(s)) && Switched(hash, s, s', silo, active)
    ensures Faithful(s')
  {
    hide OwnerIn, OwnerOfGrain, Replay;
    assert Truth(s') == Truth(s);
    hide Truth;
    assert forall n, g :: Holds(s', n, g) ==> Holds(s, n, g) && s'.nodes[n].owned[g] == s.nodes[n].owned[g];
    forall k | k in s'.flights
      ensures var e := s'.flights[k].entry; e.grain == k.1 && e.grain in Truth(s) && e == Truth(s)[e.grain]
    {
      if k !in s.flights {
        assert Holds(s, silo, k.1);
      }
    }
  }

  lemma SwitchKeepsOnePlace(hash: StableHash, s: Sys, s': Sys, silo: SiloAddress, active: seq<SiloAddress>)
    requires Faithful(s) && OnePlace(s) && WellKeyed(Truth(s)) && Switched(hash, s, s', silo, active)
    ensures OnePlace(s')
  {
    hide OwnerIn, OwnerOfGrain, Truth;
    SwitchedFlights(hash, s, s', silo, active);
    hide Faithful;
    assert forall n, g :: Holds(s', n, g) ==> Holds(s, n, g);
  }

  lemma SwitchedFlights(hash: StableHash, s: Sys, s': Sys, silo: SiloAddress, active: seq<SiloAddress>)
    requires Faithful(s) && WellKeyed(Truth(s)) && Switched(hash, s, s', silo, active)
    ensures forall k, g :: Flies(s', k, g) <==>
              Flies(s, k, g) || (k == (s.changes, g) && SentNow(hash, s, silo, active, k))
  {
    hide OwnerIn, OwnerOfGrain, Truth;
    forall k | SentNow(hash, s, silo, active, k)
      ensures s'.flights[k].entry.grain == k.1
    {
      assert Holds(s, silo, k.1);
    }
  }

  lemma SwitchKeepsPresent(hash: StableHash, s: Sys, s': Sys, silo: SiloAddress, active: seq<SiloAddress>)
    requires Faithful(s) && Present(s) && WellKeyed(Truth(s)) && Switched(hash, s, s', silo, active)
    ensures Present(s')
  {
    hide OwnerIn, OwnerOfGrain, Replay;
    assert Truth(s') == Truth(s);
    hide Truth;
    SwitchedFlights(hash, s, s', silo, active);
    forall g | g in Truth(s)
      ensures (exists n :: Holds(s', n, g)) || (exists k :: Flies(s', k, g))
    {
      if k :| Flies(s, k, g) {
        assert Flies(s', k, g);
      } else {
        var n :| Holds(s, n, g);
        if n == silo && OwnerIn(hash, active, g) != Some(silo) {
          assert SentNow(hash, s, silo, active, (s.changes, g));
          assert Flies(s', (s.changes, g), g);
        } else {
          assert Holds(s', n, g);
        }
      }
    }
  }

  lemma SwitchKeepsRouting(hash: StableHash, s: Sys, s': Sys, silo: SiloAddress, active: seq<SiloAddress>)
    requires HoldsItsOwn(hash, s) && Addressed(hash, s) && Switched(hash, s, s', silo, active)
    requires Allowed(hash, s, Change(silo, active))
    ensures HoldsItsOwn(hash, s') && Addressed(hash, s')
  {
    hide OwnerIn, OwnerOfGrain;
    if Elements(active) == Elements(s.target) {
      forall g
        ensures OwnerIn(hash, s.target, g) == OwnerIn(hash, active, g)
      {
        SameMembersSameOwner(hash, s.target, active, g);
      }
    }
  }

  // ---- Delivering a handoff ---------------------------------------------------------------

  /** `s'` is `s` after handoff `key` reached its owner `n`, who did not hold the grain. */
  ghost predicate Arrived(s: Sys, s': Sys, key: (nat, GrainId), n: SiloAddress) {
    && key in s.flights && n in s.nodes && s'.nodes.Keys == s.nodes.Keys
    && s'.log == s.log && s'.requests == s.requests && s'.target == s.target && s'.changes == s.changes
    && s'.flights == s.flights - {key}
    && (forall m :: m in s.nodes && m != n ==> s'.nodes[m] == s.nodes[m])
    && s'.nodes[n].local == s.nodes[n].local && s'.nodes[n].ring == s.nodes[n].ring
    && s'.nodes[n].active == s.nodes[n].active
    && s'.nodes[n].owned == s.nodes[n].owned[s.flights[key].entry.grain := s.flights[key].entry]
  }

  lemma DeliverArrives(hash: StableHash, s: Sys, key: (nat, GrainId))
    requires Located(hash, s) && Allowed(hash, s, Deliver(key)) && key in s.flights
    ensures s.flights[key].owner in s.nodes
    ensures Arrived(s, NextDeliver(hash, s, key), key, s.flights[key].owner)
  {
    hide OwnerIn, OwnerOfGrain, Truth, Present;
    var n, g := s.flights[key].owner, key.1;
    OwnerInFacts(hash, s.target, g);
    assert OwnerOfGrain(hash, s.nodes[n].ring, g) == Some(n);
    assert Flies(s, key, g) && !Holds(s, n, g);
  }

  lemma ArrivalPlaces(s: Sys, s': Sys, key: (nat, GrainId), n: SiloAddress)
    requires Arrived(s, s', key, n) && s.flights[key].entry.grain == key.1
    ensures Truth(s') == Truth(s)
    ensures forall m, k :: Holds(s', m, k) <==> Holds(s, m, k) || (m == n && k == key.1)
    ensures forall j, k :: Flies(s', j, k) <==> Flies(s, j, k) && j != key
  {
    hide Replay;
  }

  lemma ArrivalKeepsContents(hash: StableHash, s: Sys, s': Sys, key: (nat, GrainId), n: SiloAddress)
    requires Faithful(s) && OnePlace(s) && Arrived(s, s', key, n)
    ensures Faithful(s') && OnePlace(s')
  {
    hide Truth;
    ArrivalPlaces(s, s', key, n);
    assert Flies(s, key, key.1);
  }

  lemma ArrivalKeepsPresent(hash: StableHash, s: Sys, s': Sys, key: (nat, GrainId), n: SiloAddress)
    requires Faithful(s) && Present(s) && Arrived(s, s', key, n)
    ensures Present(s')
  {
    hide Truth, Holds;
    ArrivalPlaces(s, s', key, n);
    assert Holds(s', n, key.1);
    hide Arrived, Faithful;
    forall k | k in Truth(s) && k != key.1
      ensures (exists m :: Holds(s', m, k)) || (exists j :: Flies(s', j, k))
    {
      if j :| Flies(s, j, k) {
        assert Flies(s', j, k);
      } else {
        var m :| Holds(s, m, k);
        assert Holds(s', m, k);
      }
    }
  }

  lemma ArrivalKeepsRouting(hash: StableHash, s: Sys, s': Sys, key: (nat, GrainId), n: SiloAddress)
    requires Faithful(s) && HoldsItsOwn(hash, s) && Addressed(hash, s) && Arrived(s, s', key, n)
    requires n == s.flights[key].owner && RoutesAs(hash, s.nodes[n], s.target)
    ensures HoldsItsOwn(hash, s') && Addressed(hash, s')
  {
    hide OwnerIn, OwnerOfGrain, Truth;
    assert OwnerOfGrain(hash, s.nodes[n].ring, key.1) == OwnerIn(hash, s.target, key.1);
    assert forall m, k :: Holds(s', m, k) <==> Holds(s, m, k) || (m == n && k == key.1);
  }
}
