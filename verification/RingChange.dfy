/** Changes of the ring over whole runs of the distributed directory
    (`pyleans/cluster/distributed_directory.py`): what they conserve, that they can always be
    completed, and two runs that show what is not promised. */
module RingChange {
  import opened Wrappers
  import opened Identity
  import opened Sequences
  import opened HashRing
  import opened Arcs
  import opened Directory
  import opened DirectoryNode
  import opened DirectoryCluster
  import opened EntryPlaces
  import opened SingleActivation

  predicate ServesNothing(step: Step) {
    !step.Issue? && !step.Serve?
  }

  lemma RunAppend(hash: StableHash, first: SiloAddress, steps: seq<Step>, step: Step)
    ensures Run(hash, first, steps + [step]) == Next(hash, Run(hash, first, steps), step)
    ensures AllowedRun(hash, first, steps) && Allowed(hash, Run(hash, first, steps), step) ==>
              AllowedRun(hash, first, steps + [step])
  {
    hide Next, Allowed, Initial;
    var all := steps + [step];
    assert all[..|steps|] == steps;
    if AllowedRun(hash, first, steps) && Allowed(hash, Run(hash, first, steps), step) {
      forall k | 0 <= k < |all|
        ensures Allowed(hash, Run(hash, first, all[..k]), all[k])
      {
        if k < |steps| {
          assert all[..k] == steps[..k];
        }
      }
    }
  }

  lemma ServesNothingKeepsTruth(hash: StableHash, s: Sys, step: Step)
    requires ServesNothing(step)
    ensures Next(hash, s, step).log == s.log
  {
    hide BootNode, ChangeMembership, ApplyHandoff, ApplyRebuild;
  }

  lemma {:induction false} LogUnmoved(hash: StableHash, first: SiloAddress, before: seq<Step>, moves: seq<Step>)
    requires forall m :: m in moves ==> ServesNothing(m)
    ensures Run(hash, first, before + moves).log == Run(hash, first, before).log
  {
    hide Run, Next;
    if moves == [] {
      assert before + moves == before;
    } else {
      var front := moves[..|moves| - 1];
      var last := moves[|moves| - 1];
      assert before + moves == (before + front) + [last];
      LogUnmoved(hash, first, before, front);
      RunAppend(hash, first, before + front, last);
      ServesNothingKeepsTruth(hash, Run(hash, first, before + front), last);
    }
  }

  /** While silos switch rings and handoffs arrive, in any order, the global map is what it was; and once all have
      switched and everything has arrived, the union of the partitions is that map, each entry at its owner. */
  lemma RingChangeConserves(hash: StableHash, first: SiloAddress, before: seq<Step>, moves: seq<Step>)
    requires AllowedRun(hash, first, before + moves) && forall m :: m in moves ==> ServesNothing(m)
    ensures var s, s' := Run(hash, first, before), Run(hash, first, before + moves);
            && Truth(s') == Truth(s)
            && (Settled(hash, s') ==>
                  && (forall n, g :: Holds(s', n, g) ==> g in Truth(s) && s'.nodes[n].owned[g] == Truth(s)[g])
                  && (forall g :: g in Truth(s) ==>
                        OwnerIn(hash, s'.target, g).Some? && Holds(s', OwnerIn(hash, s'.target, g).value, g))
                  && (forall n, g :: Holds(s', n, g) ==> OwnerIn(hash, s'.target, g) == Some(n)))
  {
    hide Run, AllowedRun, Settled, OwnerIn, Replay;
    LogUnmoved(hash, first, before, moves);
    var s' := Run(hash, first, before + moves);
    assert Truth(s') == Truth(Run(hash, first, before));
    hide Truth;
    if Settled(hash, s') {
      SettledAtOwners(hash, first, before + moves);
      EveryEntryInOnePlace(hash, first, before + moves);
      hide Holds, Flies;
      NoFlights(hash, s');
      forall g | g in Truth(s')
        ensures OwnerIn(hash, s'.target, g).Some? && Holds(s', OwnerIn(hash, s'.target, g).value, g)
      {
        var n :| Holds(s', n, g);
      }
    }
  }

  lemma NoFlights(hash: StableHash, s: Sys)
    requires Settled(hash, s)
    ensures forall k, g :: !Flies(s, k, g)
  {
    hide RoutesAs;
  }

  // ---- A change of ring can be completed ------------------------------------------------

  function Switches(order: seq<SiloAddress>, active: seq<SiloAddress>): seq<Step> {
    if order == [] then [] else Switches(order[..|order| - 1], active) + [Change(order[|order| - 1], active)]
  }

  function Deliveries(keys: seq<(nat, GrainId)>): seq<Step> {
    if keys == [] then [] else Deliveries(keys[..|keys| - 1]) + [Deliver(keys[|keys| - 1])]
  }

  predicate OnRing(hash: StableHash, s: Sys, silos: set<SiloAddress>, active: seq<SiloAddress>) {
    forall n :: n in silos && n in s.nodes ==> s.nodes[n].ring == MakeRing(hash, active, VIRTUAL_NODES_PER_SILO)
  }

  lemma OnRingRoutes(hash: StableHash, s: Sys, silos: set<SiloAddress>, active: seq<SiloAddress>, n: SiloAddress)
    requires OnRing(hash, s, silos, active) && n in silos && n in s.nodes
    ensures RoutesAs(hash, s.nodes[n], active)
  {
    hide MakeRing, OwnerOfGrain;
  }

  lemma SwitchedOn(hash: StableHash, s: Sys, silo: SiloAddress, active: seq<SiloAddress>, already: set<SiloAddress>)
    requires OnRing(hash, s, already, active) && silo in s.nodes && active != []
    ensures var s' := Next(hash, s, Change(silo, active));
            && OnRing(hash, s', already + {silo}, active) && s'.nodes.Keys == s.nodes.Keys
            && s'.requests == s.requests && s'.target == active
  {
    hide MakeRing, Moved;
  }

  lemma DeliveredOn(hash: StableHash, s: Sys, key: (nat, GrainId), silos: set<SiloAddress>, active: seq<SiloAddress>)
    requires OnRing(hash, s, silos, active)
    ensures var s' := Next(hash, s, Deliver(key));
            && OnRing(hash, s', silos, active) && s'.nodes.Keys == s.nodes.Keys
            && s'.target == s.target && s'.flights == s.flights - {key}
  {
    hide MakeRing, OwnerOfGrain;
  }

  lemma {:induction false} SwitchesRun(hash: StableHash, first: SiloAddress, before: seq<Step>,
                                       order: seq<SiloAddress>, active: seq<SiloAddress>)
    requires AllowedRun(hash, first, before)
    requires var s := Run(hash, first, before);
             && (s.flights == map[] || Elements(active) == Elements(s.target)) && NothingUnserved(s) && active != []
             && Elements(active) <= s.nodes.Keys && Elements(order) <= s.nodes.Keys
    ensures var s, s' := Run(hash, first, before), Run(hash, first, before + Switches(order, active));
            && AllowedRun(hash, first, before + Switches(order, active))
            && s'.nodes.Keys == s.nodes.Keys && s'.requests == s.requests
            && OnRing(hash, s', Elements(order), active)
            && (order != [] ==> s'.target == active) && (order == [] ==> s' == s)
    ensures forall m :: m in Switches(order, active) ==> ServesNothing(m)
  {
    hide Run, Next, MakeRing, AllowedRun, OnRing;
    if order == [] {
      assert before + Switches(order, active) == before;
      assert Elements(order) == {};
      NoneOnRing(hash, Run(hash, first, before), active);
    } else {
      var front, last := order[..|order| - 1], order[|order| - 1];
      assert Elements(order) == Elements(front) + {last};
      SwitchesRun(hash, first, before, front, active);
      var there := before + Switches(front, active);
      var s := Run(hash, first, there);
      assert before + Switches(order, active) == there + [Change(last, active)];
      assert last in Elements(order);
      SwitchedOn(hash, s, last, active, Elements(front));
      assert Allowed(hash, s, Change(last, active));
      RunAppend(hash, first, there, Change(last, active));
    }
  }

  lemma NoneOnRing(hash: StableHash, s: Sys, active: seq<SiloAddress>)
    ensures OnRing(hash, s, {}, active)
  {
  }

  lemma {:induction false} DeliveriesRun(hash: StableHash, first: SiloAddress, before: seq<Step>,
                                         keys: seq<(nat, GrainId)>, active: seq<SiloAddress>)
    requires AllowedRun(hash, first, before)
    requires var s := Run(hash, first, before); s.target == active && OnRing(hash, s, s.nodes.Keys, active)
    ensures var s, s' := Run(hash, first, before), Run(hash, first, before + Deliveries(keys));
            && AllowedRun(hash, first, before + Deliveries(keys))
            && s'.nodes.Keys == s.nodes.Keys && s'.target == active
            && OnRing(hash, s', s'.nodes.Keys, active)
            && s'.flights == s.flights - Elements(keys)
    ensures forall m :: m in Deliveries(keys) ==> ServesNothing(m)
  {
    hide Run, Next, MakeRing, AllowedRun, OnRing, RoutesAs;
    if keys == [] {
      assert before + Deliveries(keys) == before;
    } else {
      var front, last := keys[..|keys| - 1], keys[|keys| - 1];
      assert Elements(keys) == Elements(front) + {last};
      DeliveriesRun(hash, first, before, front, active);
      var there := before + Deliveries(front);
      var s := Run(hash, first, there);
      assert before + Deliveries(keys) == there + [Deliver(last)];
      DeliveredOn(hash, s, last, s.nodes.Keys, active);
      if last in s.flights && s.flights[last].owner in s.nodes {
        OnRingRoutes(hash, s, s.nodes.Keys, active, s.flights[last].owner);
      }
      RunAppend(hash, first, there, Deliver(last));
    }
  }

  /** From any quiet moment the cluster can take up any new membership, and from any point on the way there it can
      finish: let all silos switch in any order, and let what is then in flight arrive in any order. The result is
      settled on the new ring and the global map is unchanged. */
  lemma RingChangeCompletes(hash: StableHash, first: SiloAddress, before: seq<Step>, active: seq<SiloAddress>,
                            order: seq<SiloAddress>, keys: seq<(nat, GrainId)>)
    requires AllowedRun(hash, first, before)
    requires var s := Run(hash, first, before);
             && (s.flights == map[] || Elements(active) == Elements(s.target)) && NothingUnserved(s) && active != []
             && Elements(active) <= s.nodes.Keys && Elements(order) == s.nodes.Keys
    requires Elements(keys) == Run(hash, first, before + Switches(order, active)).flights.Keys
    ensures var moves := Switches(order, active) + Deliveries(keys);
            var s, s' := Run(hash, first, before), Run(hash, first, before + moves);
            && AllowedRun(hash, first, before + moves)
            && Settled(hash, s') && s'.target == active && s'.nodes.Keys == s.nodes.Keys && Truth(s') == Truth(s)
  {
    hide Run, MakeRing, AllowedRun, OnRing, RoutesAs, Truth, OwnerIn, Holds;
    assert order != [] by {
      assert active[0] in Elements(order);
    }
    var switched := before + Switches(order, active);
    var moves := Switches(order, active) + Deliveries(keys);
    SwitchesRun(hash, first, before, order, active);
    DeliveriesRun(hash, first, switched, keys, active);
    assert switched + Deliveries(keys) == before + moves;
    var s' := Run(hash, first, before + moves);
    forall n | n in s'.nodes
      ensures RoutesAs(hash, s'.nodes[n], active)
    {
      OnRingRoutes(hash, s', s'.nodes.Keys, active, n);
    }
    assert Settled(hash, s');
    hide Settled;
    RingChangeConserves(hash, first, before, moves);
  }

  predicate TakesUp(m: Step, active: seq<SiloAddress>) {
    m.Deliver? || (m.Change? && m.active == active)
  }

  function SwitchedIn(moves: seq<Step>): set<SiloAddress> {
    if moves == [] then {}
    else
      var last := moves[|moves| - 1];
      SwitchedIn(moves[..|moves| - 1]) + if last.Change? then {last.silo} else {}
  }

  lemma MoveKeepsRing(hash: StableHash, s: Sys, m: Step, active: seq<SiloAddress>, already: set<SiloAddress>)
    requires OnRing(hash, s, already, active) && active != [] && TakesUp(m, active)
    ensures var s' := Next(hash, s, m);
            && OnRing(hash, s', already + (if m.Change? then {m.silo} else {}), active)
            && s'.nodes.Keys == s.nodes.Keys
            && s'.target == if m.Change? && m.silo in s.nodes then active else s.target
  {
    hide MakeRing, Moved, OnRing, Next;
    if m.Deliver? {
      DeliveredOn(hash, s, m.key, already, active);
      assert already + {} == already;
    } else if m.silo in s.nodes {
      SwitchedOn(hash, s, m.silo, active, already);
    } else {
      StrangerOn(hash, s, m.silo, active, already);
    }
  }

  lemma StrangerOn(hash: StableHash, s: Sys, silo: SiloAddress, active: seq<SiloAddress>, already: set<SiloAddress>)
    requires OnRing(hash, s, already, active) && silo !in s.nodes
    ensures OnRing(hash, s, already + {silo}, active) && Next(hash, s, Change(silo, active)) == s
  {
    hide MakeRing;
  }

  lemma {:induction false} MovesSwitch(hash: StableHash, first: SiloAddress, before: seq<Step>, moves: seq<Step>,
                                       active: seq<SiloAddress>)
    requires active != [] && forall m :: m in moves ==> TakesUp(m, active)
    ensures var s, s' := Run(hash, first, before), Run(hash, first, before + moves);
            && s'.nodes.Keys == s.nodes.Keys && OnRing(hash, s', SwitchedIn(moves), active)
            && (SwitchedIn(moves) * s.nodes.Keys != {} ==> s'.target == active)
  {
    hide Run, Next, MakeRing, OnRing;
    if moves == [] {
      assert before + moves == before;
      NoneOnRing(hash, Run(hash, first, before), active);
    } else {
      var front, last := moves[..|moves| - 1], moves[|moves| - 1];
      assert before + moves == (before + front) + [last];
      MovesSwitch(hash, first, before, front, active);
      RunAppend(hash, first, before + front, last);
      MoveKeepsRing(hash, Run(hash, first, before + front), last, active, SwitchedIn(front));
    }
  }

  /** However switches and arrivals interleave: once every silo has switched and nothing is in flight, the cluster is
      settled on the new ring and the global map is what it was. */
  lemma AnyOrderSettles(hash: StableHash, first: SiloAddress, before: seq<Step>, moves: seq<Step>,
                        active: seq<SiloAddress>)
    requires AllowedRun(hash, first, before + moves) && active != []
    requires forall m :: m in moves ==> TakesUp(m, active)
    requires Run(hash, first, before).nodes.Keys <= SwitchedIn(moves)
    requires Run(hash, first, before + moves).flights == map[]
    ensures var s, s' := Run(hash, first, before), Run(hash, first, before + moves);
            && Settled(hash, s') && s'.target == active && s'.nodes.Keys == s.nodes.Keys && Truth(s') == Truth(s)
  {
    hide Run, MakeRing, AllowedRun, OnRing, RoutesAs, Truth, OwnerIn, Holds;
    var s, s' := Run(hash, first, before), Run(hash, first, before + moves);
    MovesSwitch(hash, first, before, moves, active);
    NodesExist(hash, first, before + moves);
    assert s.nodes.Keys <= SwitchedIn(moves) && s.nodes.Keys != {} ==> SwitchedIn(moves) * s.nodes.Keys != {};
    forall n | n in s'.nodes
      ensures RoutesAs(hash, s'.nodes[n], active)
    {
      OnRingRoutes(hash, s', SwitchedIn(moves), active, n);
    }
    assert Settled(hash, s');
    hide Settled;
    RingChangeConserves(hash, first, before, moves);
  }

  lemma NodesExist(hash: StableHash, first: SiloAddress, steps: seq<Step>)
    requires AllowedRun(hash, first, steps)
    ensures Run(hash, first, steps).nodes.Keys != {}
  {
    hide Run, AllowedRun, LogOk, CallsOk, Truth, HoldsItsOwn, OwnerIn, Faithful, OnePlace, Present;
    RunKeepsInv(hash, first, steps);
    var s := Run(hash, first, steps);
    assert s.target[0] in Elements(s.target);
  }

  // ---- Rebuilds, as the silo wires them ------------------------------------------------------

  /** A silo always counts itself among the active ones. */
  predicate CountsItself(m: Step) {
    m.Change? ==> m.silo in m.active
  }

  ghost predicate OnOwnRing(hash: StableHash, n: Node, silo: SiloAddress) {
    n.local == silo && exists members :: silo in members && IsRingOf(hash, n.ring, members)
  }

  predicate IsRingOf(hash: StableHash, ring: Ring, members: seq<SiloAddress>) {
    ring == MakeRing(hash, members, VIRTUAL_NODES_PER_SILO)
  }

  ghost predicate AllOnOwnRings(hash: StableHash, s: Sys) {
    forall n :: n in s.nodes ==> OnOwnRing(hash, s.nodes[n], n)
  }

  /** Only a membership change gives a silo another ring. */
  lemma NodeKeepsRing(hash: StableHash, n: Node, call: Call, chosen: SiloAddress, incoming: DirectoryEntry,
                      merged: seq<DirectoryEntry>)
    ensures forall n' :: n' in {ServeAt(n, call, chosen).0, ApplyHandoff(hash, n, incoming).0, ApplyRebuild(n, merged)}
              ==> n'.ring == n.ring && n'.local == n.local
  {
    hide OwnerOfGrain;
    RebuildKeepsRing(n, merged);
  }

  lemma {:induction false} RebuildKeepsRing(n: Node, merged: seq<DirectoryEntry>)
    ensures ApplyRebuild(n, merged).ring == n.ring && ApplyRebuild(n, merged).local == n.local
  {
    if merged != [] {
      RebuildKeepsRing(n, merged[..|merged| - 1]);
    }
  }

  lemma SameRing(hash: StableHash, n: Node, n': Node, silo: SiloAddress)
    requires OnOwnRing(hash, n, silo) && n'.ring == n.ring && n'.local == n.local
    ensures OnOwnRing(hash, n', silo)
  {
    hide IsRingOf;
  }

  lemma NewRing(hash: StableHash, n: Node, silo: SiloAddress, active: seq<SiloAddress>)
    requires OnOwnRing(hash, n, silo) && silo in active
    ensures OnOwnRing(hash, ChangeMembership(hash, n, active).0, silo)
  {
    hide MakeRing, Moved;
    assert IsRingOf(hash, ChangeMembership(hash, n, active).0.ring, active);
  }

  lemma BootRing(hash: StableHash, silo: SiloAddress)
    ensures OnOwnRing(hash, BootNode(hash, silo), silo)
  {
    hide MakeRing;
    assert silo in [silo] && IsRingOf(hash, BootNode(hash, silo).ring, [silo]);
  }

  lemma ServedKeepsRings(hash: StableHash, s: Sys, server: SiloAddress, id: nat, call: Call, chosen: SiloAddress)
    requires server in s.nodes
    ensures var s' := Served(s, server, id, call, chosen).0;
            && s'.nodes.Keys == s.nodes.Keys
            && forall n :: n in s.nodes ==> s'.nodes[n].ring == s.nodes[n].ring && s'.nodes[n].local == s.nodes[n].local
  {
    hide ServeAt;
    NodeKeepsRing(hash, s.nodes[server], call, chosen, DirectoryEntry(GrainId("", ""), server, 0), []);
  }

  lemma OtherStepsKeepRing(hash: StableHash, s: Sys, step: Step, n: SiloAddress)
    requires n in s.nodes && n in Next(hash, s, step).nodes && !(step.Change? && step.silo == n)
    ensures var n' := Next(hash, s, step).nodes[n];
            n'.ring == s.nodes[n].ring && n'.local == s.nodes[n].local
  {
    hide BootNode, Served, ApplyHandoff, ApplyRebuild, ChangeMembership, OwnerOfGrain;
    var any, entry := LookupCall(GrainId("", "")), DirectoryEntry(GrainId("", ""), n, 0);
    match step
    case Issue(id, from, call, chosen) =>
      if from in s.nodes {
        ServedKeepsRings(hash, s.(issued := s.issued + {id}), from, id, call, chosen);
      }
    case Serve(id, chosen) =>
      if id in s.requests && s.requests[id].owner in s.nodes {
        ServedKeepsRings(hash, s, s.requests[id].owner, id, s.requests[id].call, chosen);
      }
    case Deliver(key) =>
      NodeKeepsRing(hash, s.nodes[n], any, n, if key in s.flights then s.flights[key].entry else entry, []);
    case Rebuild(_, merged) => NodeKeepsRing(hash, s.nodes[n], any, n, entry, merged);
    case _ =>
  }

  lemma NewNodeOwnRing(hash: StableHash, s: Sys, step: Step, n: SiloAddress)
    requires n !in s.nodes && n in Next(hash, s, step).nodes
    ensures Next(hash, s, step).nodes[n] == BootNode(hash, n)
  {
    hide BootNode, ServeAt, ApplyHandoff, ApplyRebuild, ChangeMembership, OwnerOfGrain;
  }

  lemma ChangedNode(hash: StableHash, s: Sys, silo: SiloAddress, active: seq<SiloAddress>)
    requires silo in s.nodes
    ensures var s' := Next(hash, s, Change(silo, active));
            silo in s'.nodes && s'.nodes[silo] == ChangeMembership(hash, s.nodes[silo], active).0
  {
    hide ChangeMembership;
  }

  lemma StepKeepsOwnRings(hash: StableHash, s: Sys, step: Step)
    requires AllOnOwnRings(hash, s) && CountsItself(step)
    ensures AllOnOwnRings(hash, Next(hash, s, step))
  {
    hide OnOwnRing, BootNode, ChangeMembership, Next;
    var s' := Next(hash, s, step);
    forall n | n in s'.nodes
      ensures OnOwnRing(hash, s'.nodes[n], n)
    {
      if n !in s.nodes {
        NewNodeOwnRing(hash, s, step, n);
        BootRing(hash, n);
      } else if step.Change? && step.silo == n {
        NewRing(hash, s.nodes[n], n, step.active);
        ChangedNode(hash, s, n, step.active);
      } else {
        OtherStepsKeepRing(hash, s, step, n);
        SameRing(hash, s.nodes[n], s'.nodes[n], n);
      }
    }
  }

  lemma {:induction false} RunKeepsOwnRings(hash: StableHash, first: SiloAddress, steps: seq<Step>)
    requires forall m :: m in steps ==> CountsItself(m)
    ensures AllOnOwnRings(hash, Run(hash, first, steps))
  {
    hide Next, OnOwnRing, BootNode;
    if steps == [] {
      BootRing(hash, first);
    } else {
      RunKeepsOwnRings(hash, first, steps[..|steps| - 1]);
      StepKeepsOwnRings(hash, Run(hash, first, steps[..|steps| - 1]), steps[|steps| - 1]);
    }
  }

  /** Silos start on the ring of themselves alone and never leave themselves out. So in every run, joining or staying, a
      silo asks for a rebuild only if one of its virtual nodes was shadowed on the ring it had. */
  lemma RebuildNeedsAShadow(hash: StableHash, first: SiloAddress, steps: seq<Step>, silo: SiloAddress,
                            active: seq<SiloAddress>)
    returns (before: seq<SiloAddress>)
    requires (forall m :: m in steps ==> CountsItself(m)) && silo in active
    requires silo in Run(hash, first, steps).nodes
    ensures var n := Run(hash, first, steps).nodes[silo];
            && silo in before && n.ring == MakeRing(hash, before, VIRTUAL_NODES_PER_SILO)
            && (RebuildAfter(n, ChangeMembership(hash, n, active).0, active).None? <==>
                  Unshadowed(hash, before, VIRTUAL_NODES_PER_SILO, silo) || Peers(silo, active) == [])
  {
    hide Run, MakeRing, Unshadowed, RebuildAfter, ChangeMembership;
    RunKeepsOwnRings(hash, first, steps);
    var n := Run(hash, first, steps).nodes[silo];
    assert OnOwnRing(hash, n, silo);
    before :| silo in before && IsRingOf(hash, n.ring, before);
    StayingSiloAsksForNoRebuild(hash, n, before, active);
  }

  // ---- What is not promised ------------------------------------------------------------

  lemma AloneOwnsAll(hash: StableHash, silo: SiloAddress, g: GrainId)
    ensures OwnerOfGrain(hash, MakeRing(hash, [silo], VIRTUAL_NODES_PER_SILO), g) == Some(silo)
  {
    hide MakeRing, OwnerOfGrain;
    OwnerInFacts(hash, [silo], g);
    assert OwnerIn(hash, [silo], g).value in Elements([silo]);
  }

  /** The ring owner decides alone: a silo whose own ring gives it the grain serves the call itself. */
  lemma LocalRegister(hash: StableHash, s: Sys, id: nat, a: SiloAddress, g: GrainId, x: SiloAddress)
    requires a in s.nodes && id !in s.issued && g !in s.nodes[a].owned
    requires OwnerOfGrain(hash, s.nodes[a].ring, g) == Some(a)
    ensures var n := s.nodes[a];
            var e := DirectoryEntry(g, x, n.epoch + 1);
            var s' := Next(hash, s, Issue(id, a, RegisterCall(g, x), x));
            && s'.nodes == s.nodes[a := n.(owned := n.owned[g := e], epoch := n.epoch + 1)]
            && s'.log == s.log + [Event(id, a, RegisterCall(g, x), Found(e), true)]
            && s'.issued == s.issued + {id} && s'.requests == s.requests
            && s'.flights == s.flights && s'.target == s.target && s'.retired == s.retired
  {
    hide OwnerOfGrain;
  }

  lemma LocalUnregister(hash: StableHash, s: Sys, id: nat, a: SiloAddress, g: GrainId, x: SiloAddress)
    requires a in s.nodes && id !in s.issued && g in s.nodes[a].owned && s.nodes[a].owned[g].silo == x
    requires OwnerOfGrain(hash, s.nodes[a].ring, g) == Some(a)
    ensures var n := s.nodes[a];
            var s' := Next(hash, s, Issue(id, a, UnregisterCall(g, x), x));
            && s'.nodes == s.nodes[a := n.(owned := n.owned - {g})]
            && s'.log == s.log + [Event(id, a, UnregisterCall(g, x), Done, false)]
            && s'.issued == s.issued + {id} && s'.requests == s.requests
            && s'.flights == s.flights && s'.target == s.target && s'.retired == s.retired
  {
    hide OwnerOfGrain;
  }

  lemma EmptyPartitionSwitches(hash: StableHash, s: Sys, a: SiloAddress, active: seq<SiloAddress>)
    requires a in s.nodes && s.nodes[a].owned == map[] && active != []
    ensures var n := s.nodes[a];
            var s' := Next(hash, s, Change(a, active));
            && s'.nodes == s.nodes[a := n.(ring := MakeRing(hash, active, VIRTUAL_NODES_PER_SILO), active := active)]
            && s'.flights == s.flights && s'.target == active && s'.log == s.log && s'.issued == s.issued
  {
    hide MakeRing, Moved;
    PositionsExist(hash, active);
    NothingMoves(hash, s.nodes[a], MakeRing(hash, active, VIRTUAL_NODES_PER_SILO));
  }

  lemma NothingMoves(hash: StableHash, n: Node, ring: Ring)
    requires n.owned == map[]
    ensures Moved(hash, n, ring) == map[] && n.owned - Moved(hash, n, ring).Keys == map[]
  {
    hide OwnerOfGrain;
  }

  /** Epochs rise at each owner, not across owners: a grain that is created, removed and created again after its
      owner changed can get the very same entry twice, epoch included, in a run that keeps the discipline. An entry
      still there when the owner changes is handed over, and is then older than what the new owner creates. */
  lemma SameEntryTwice(hash: StableHash, a: SiloAddress, b: SiloAddress, g: GrainId, x: SiloAddress)
    returns (steps: seq<Step>)
    requires a != b
    ensures AllowedRun(hash, a, steps)
    ensures var e := DirectoryEntry(g, x, 1);
            Run(hash, a, steps).log == [Event(0, a, RegisterCall(g, x), Found(e), true),
                                        Event(1, a, UnregisterCall(g, x), Done, false),
                                        Event(2, b, RegisterCall(g, x), Found(e), true)]
  {
    hide Run, Next, MakeRing, OwnerOfGrain, AllowedRun;
    AloneOwnsAll(hash, a, g);
    AloneOwnsAll(hash, b, g);
    steps := [];
    NoSteps(hash, a);
    var s := Initial(hash, a);
    var step := Issue(0, a, RegisterCall(g, x), x);
    LocalRegister(hash, s, 0, a, g, x);
    RunAppend(hash, a, steps, step);
    steps, s := steps + [step], Next(hash, s, step);

    step := Issue(1, a, UnregisterCall(g, x), x);
    LocalUnregister(hash, s, 1, a, g, x);
    RunAppend(hash, a, steps, step);
    steps, s := steps + [step], Next(hash, s, step);

    step := Boot(b);
    RunAppend(hash, a, steps, step);
    Booted(hash, s, b);
    steps, s := steps + [step], Next(hash, s, step);

    step := Change(a, [b]);
    EmptyPartitionSwitches(hash, s, a, [b]);
    RunAppend(hash, a, steps, step);
    steps, s := steps + [step], Next(hash, s, step);

    step := Issue(2, b, RegisterCall(g, x), x);
    LocalRegister(hash, s, 2, b, g, x);
    RunAppend(hash, a, steps, step);
    steps := steps + [step];
  }

  lemma Booted(hash: StableHash, s: Sys, silo: SiloAddress)
    requires silo !in s.nodes && silo !in s.retired
    ensures Next(hash, s, Boot(silo)) == s.(nodes := s.nodes[silo := BootNode(hash, silo)])
  {
  }

  /** Without the discipline two silos can each believe they own the grain, and both activate it. */
  lemma TwoHoldersInMixedViews(hash: StableHash, a: SiloAddress, b: SiloAddress, g: GrainId)
    returns (steps: seq<Step>)
    requires a != b
    ensures Holds(Run(hash, a, steps), a, g) && Holds(Run(hash, a, steps), b, g)
    ensures !AllowedRun(hash, a, steps)
  {
    hide Run, Next, MakeRing, OwnerOfGrain, AllowedRun, Truth;
    AloneOwnsAll(hash, a, g);
    AloneOwnsAll(hash, b, g);
    NoSteps(hash, a);
    var s0 := Initial(hash, a);
    var boot, first, second := Boot(b), Issue(0, a, RegisterCall(g, a), a), Issue(1, b, RegisterCall(g, b), b);
    RunAppend(hash, a, [], boot);
    Booted(hash, s0, b);
    var s1 := Next(hash, s0, boot);
    RunAppend(hash, a, [boot], first);
    LocalRegister(hash, s1, 0, a, g, a);
    var s2 := Next(hash, s1, first);
    RunAppend(hash, a, [boot, first], second);
    LocalRegister(hash, s2, 1, b, g, b);
    steps := [boot, first, second];
    assert [] + [boot] == [boot] && [boot] + [first] == [boot, first] && [boot, first] + [second] == steps;
    assert Holds(Run(hash, a, steps), a, g) && Holds(Run(hash, a, steps), b, g);
    if AllowedRun(hash, a, steps) {
      EveryEntryInOnePlace(hash, a, steps);
    }
  }

  lemma NoSteps(hash: StableHash, first: SiloAddress)
    ensures Run(hash, first, []) == Initial(hash, first) && AllowedRun(hash, first, [])
  {
  }
}
