/** A whole rebuild: the query each peer gets, the answers that come back, their merge and its installation
    (`DirectoryRebuildCoordinator` in `pyleans/cluster/directory_rebuild.py`, and how
    `pyleans/cluster/distributed_directory.py` answers a query).

    A rebuild runs some time after it was asked for: `n` is the partition when the merged entries are installed, and may
    be any, while the call still has the entries that were held when it was asked for. */
module Rebuild {
  import opened Wrappers
  import opened Identity
  import opened HashRing
  import opened Arcs
  import opened Directory
  import opened RebuildMerge
  import opened DirectoryNode

  /** A peer that is asked: what runs there, if it can tell, and whether the query fails. */
  datatype Peer = Peer(activations: Option<seq<DirectoryEntry>>, fails: bool)

  predicate InArcs(hash: StableHash, arcs: seq<Arc>, g: GrainId) {
    exists arc :: arc in arcs && arc.Contains(GrainHash(hash, g))
  }

  /** The activations of a list that lie in the arcs, in order. */
  function Matching(hash: StableHash, activations: seq<DirectoryEntry>, arcs: seq<Arc>): seq<DirectoryEntry> {
    if activations == [] then []
    else
      var last := activations[|activations| - 1];
      Matching(hash, activations[..|activations| - 1], arcs) + if InArcs(hash, arcs, last.grain) then [last] else []
  }

  function Answer(hash: StableHash, peer: Peer, arcs: seq<Arc>): seq<DirectoryEntry> {
    if peer.fails || peer.activations.None? then [] else Matching(hash, peer.activations.value, arcs)
  }

  /** All answers, in the order of the peers. */
  function Answers(hash: StableHash, peers: seq<Peer>, arcs: seq<Arc>): seq<DirectoryEntry> {
    if peers == [] then []
    else Answers(hash, peers[..|peers| - 1], arcs) + Answer(hash, peers[|peers| - 1], arcs)
  }

  /** A peer whose query did not fail runs this activation. */
  predicate RunsIt(peers: seq<Peer>, e: DirectoryEntry) {
    exists p :: p in peers && !p.fails && p.activations.Some? && e in p.activations.value
  }

  lemma {:induction false} MatchingHolds(hash: StableHash, activations: seq<DirectoryEntry>, arcs: seq<Arc>)
    ensures forall e :: e in Matching(hash, activations, arcs) <==> e in activations && InArcs(hash, arcs, e.grain)
  {
    hide InArcs;
    if activations != [] {
      var front, last := activations[..|activations| - 1], activations[|activations| - 1];
      MatchingHolds(hash, front, arcs);
      assert activations == front + [last];
    }
  }

  /** The answers are exactly the activations in the arcs that some peer runs whose query did not fail. */
  lemma {:induction false} AnswersHold(hash: StableHash, peers: seq<Peer>, arcs: seq<Arc>)
    ensures forall e :: e in Answers(hash, peers, arcs) <==> RunsIt(peers, e) && InArcs(hash, arcs, e.grain)
  {
    hide InArcs, Matching;
    if peers != [] {
      var front, last := peers[..|peers| - 1], peers[|peers| - 1];
      AnswersHold(hash, front, arcs);
      if last.activations.Some? {
        MatchingHolds(hash, last.activations.value, arcs);
      }
      assert peers == front + [last];
    }
  }

  method AnswerRebuildQuery(hash: StableHash, activations: Option<seq<DirectoryEntry>>, arcs: seq<Arc>)
    returns (matching: seq<DirectoryEntry>)
    ensures matching == Answer(hash, Peer(activations, false), arcs)
  {
    matching := [];
    if activations.None? {
      return;
    }
    var local := activations.value;
    for i := 0 to |local|
      invariant matching == Matching(hash, local[..i], arcs)
    {
      assert local[..i + 1][..i] == local[..i];
      if exists arc :: arc in arcs && arc.Contains(GrainHash(hash, local[i].grain)) {
        matching := matching + [local[i]];
      }
    }
    assert local[..|local|] == local;
  }

  /** `n'` and `told` may come of the rebuild: nothing without arcs or peers, and else the winners are installed, in any
      order, and the losers told to stand down. */
  ghost predicate Rebuilds(hash: StableHash, n: Node, call: RebuildCall, peers: seq<Peer>, n': Node, told: seq<Loser>)
  {
    if call.arcs == [] || peers == [] then n' == n && told == []
    else
      var (best, losers) := Merge(Answers(hash, peers, call.arcs), call.existing);
      told == losers && exists winners :: Lists(winners, best) && n' == ApplyRebuild(n, winners)
  }

  /** The values of the merged dictionary, one each. */
  method Values(best: Partition) returns (winners: seq<DirectoryEntry>)
    requires WellKeyed(best)
    ensures Lists(winners, best)
  {
    winners := [];
    var left := best.Keys;
    while left != {}
      invariant left <= best.Keys && OnePerGrain(winners)
      invariant forall e :: e in winners <==> e.grain in best && e.grain !in left && best[e.grain] == e
      decreases |left|
    {
      var g :| g in left;
      winners := winners + [best[g]];
      left := left - {g};
    }
  }

  method QueryPeers(hash: StableHash, peers: seq<Peer>, arcs: seq<Arc>) returns (candidates: seq<DirectoryEntry>)
    ensures candidates == Answers(hash, peers, arcs)
  {
    candidates := [];
    for i := 0 to |peers|
      invariant candidates == Answers(hash, peers[..i], arcs)
    {
      assert peers[..i + 1][..i] == peers[..i];
      if !peers[i].fails {
        var entries := AnswerRebuildQuery(hash, peers[i].activations, arcs);
        candidates := candidates + entries;
      }
    }
    assert peers[..|peers|] == peers;
  }

  /** `peers` says what each of `call.peers` does. */
  method RunRebuild(directory: GrainDirectory, call: RebuildCall, peers: seq<Peer>) returns (told: seq<Loser>)
    requires directory.Valid() && WellKeyed(call.existing) && |peers| == |call.peers|
    modifies directory
    ensures directory.Valid()
    ensures Rebuilds(directory.hash, old(directory.Value()), call, peers, directory.Value(), told)
  {
    hide Merge, ApplyRebuild, Answers, Lists;
    if call.arcs == [] || peers == [] {
      return [];
    }
    var candidates := QueryPeers(directory.hash, peers, call.arcs);
    var best, losers := MergeRebuildCandidates(candidates, call.existing);
    MergeKeyed(candidates, call.existing);
    var winners := Values(best);
    directory.ApplyRebuildEntries(winners);
    return losers;
  }

  lemma MergeKeyed(candidates: seq<DirectoryEntry>, existing: Partition)
    requires WellKeyed(existing)
    ensures WellKeyed(Merge(candidates, existing).0)
  {
    hide Merge, Least;
    forall g {
      WinnerIsLeast(candidates, existing, g);
    }
  }

  /** What a rebuild recovers. Every activation in the arcs that runs on a peer that answered, and every entry held
      when the rebuild was asked for, has its grain in the partition afterwards, under the least of them by epoch and
      silo id; its silo is the one recorded or is told to stand down. Nothing else comes in, and nothing goes. */
  lemma RebuildRecoversActivations(hash: StableHash, n: Node, call: RebuildCall, peers: seq<Peer>, n': Node,
                                   told: seq<Loser>)
    requires Rebuilds(hash, n, call, peers, n', told) && WellKeyed(call.existing)
    requires call.arcs != [] && peers != []
    ensures forall e :: Known(hash, call, peers, e) ==>
              && e.grain in n'.owned
              && Known(hash, call, peers, n'.owned[e.grain]) && n'.owned[e.grain].grain == e.grain
              && (n'.owned[e.grain] == e || Beats(n'.owned[e.grain], e))
              && (n'.owned[e.grain].silo == e.silo || StandsDown(told, e))
    ensures forall g :: g in n'.owned && (g !in n.owned || n'.owned[g] != n.owned[g]) ==>
              Known(hash, call, peers, n'.owned[g]) && n'.owned[g].grain == g
    ensures forall g :: g in n.owned ==> g in n'.owned
  {
    hide Merge, ApplyRebuild, Answers, Beats, StandsDown, Lists, InArcs, RunsIt, Least, Known;
    var candidates := Answers(hash, peers, call.arcs);
    var winners :| Lists(winners, Merge(candidates, call.existing).0) && n' == ApplyRebuild(n, winners);
    RebuildRecovers(n, candidates, call.existing, winners);
    forall e {
      KnownIsReported(hash, call, peers, e);
    }
    forall e | Known(hash, call, peers, e)
      ensures e.grain in n'.owned && Outdoes(candidates, call.existing, n'.owned[e.grain], e)
      ensures n'.owned[e.grain].silo == e.silo || StandsDown(told, e)
    {
      WinnerHeld(n, candidates, call.existing, winners, e);
    }
  }

  lemma KnownIsReported(hash: StableHash, call: RebuildCall, peers: seq<Peer>, e: DirectoryEntry)
    ensures Known(hash, call, peers, e) <==> Reported(Answers(hash, peers, call.arcs), call.existing, e)
  {
    hide InArcs, RunsIt, Answers;
    AnswersHold(hash, peers, call.arcs);
  }

  predicate Outdoes(candidates: seq<DirectoryEntry>, existing: Partition, w: DirectoryEntry, e: DirectoryEntry) {
    w.grain == e.grain && Reported(candidates, existing, w) && (w == e || Beats(w, e))
  }

  /** The winner of a reported entry's grain is held, and the entry's silo is the winner's or stands down. */
  lemma WinnerHeld(n: Node, candidates: seq<DirectoryEntry>, existing: Partition, winners: seq<DirectoryEntry>,
                   e: DirectoryEntry)
    requires WellKeyed(existing) && Lists(winners, Merge(candidates, existing).0) && Reported(candidates, existing, e)
    ensures var n' := ApplyRebuild(n, winners);
            && e.grain in n'.owned && Outdoes(candidates, existing, n'.owned[e.grain], e)
            && (n'.owned[e.grain].silo == e.silo || StandsDown(Merge(candidates, existing).1, e))
  {
    hide Merge, ApplyRebuild, Beats, StandsDown;
    WinnerIsLeast(candidates, existing, e.grain);
    ExactlyTheLosersStandDown(candidates, existing);
    RebuildInstalls(n, winners);
    assert Merge(candidates, existing).0[e.grain] in winners;
  }

  /** Reported to the rebuild: held when it was asked for, or running in the arcs on a peer that answered. */
  predicate Known(hash: StableHash, call: RebuildCall, peers: seq<Peer>, e: DirectoryEntry) {
    (e.grain in call.existing && call.existing[e.grain] == e) || (RunsIt(peers, e) && InArcs(hash, call.arcs, e.grain))
  }

  lemma {:induction false} CoveredMeansIn(arcs: seq<Arc>, key: Hash64)
    ensures Covering(arcs, key) > 0 <==> exists arc :: arc in arcs && arc.Contains(key)
  {
    if arcs != [] {
      var front, last := arcs[..|arcs| - 1], arcs[|arcs| - 1];
      CoveredMeansIn(front, key);
      assert arcs == front + [last];
    }
  }

  /** The rebuild a silo asks for when it comes onto the ring queries exactly the grains it owns there. */
  lemma JoinerAsksForItsGrains(hash: StableHash, n: Node, after: Node, before: seq<SiloAddress>,
                               active: seq<SiloAddress>, g: GrainId)
    requires n.ring == MakeRing(hash, before, VIRTUAL_NODES_PER_SILO) && n.local !in before
    requires TwoPositions(after.ring) && RebuildAfter(n, after, active).Some?
    ensures InArcs(hash, RebuildAfter(n, after, active).value.arcs, g) <==>
            OwnerOfGrain(hash, after.ring, g) == Some(n.local)
  {
    hide MakeRing, NewArcs, OwnerOf, TwoPositions, Covering, Peers;
    var key := GrainHash(hash, g);
    JoiningSiloGetsItsKeys(hash, before, VIRTUAL_NODES_PER_SILO, after.ring, n.local, key);
    CoveredMeansIn(NewArcs(Some(n.ring), after.ring, n.local), key);
  }

  /** What was held when the rebuild was asked for comes back, even if it was unregistered in between. */
  lemma RebuildUndoesUnregister(hash: StableHash, n: Node, g: GrainId, silo: SiloAddress, call: RebuildCall,
                                peers: seq<Peer>, n': Node, told: seq<Loser>)
    requires Rebuilds(hash, Unregister(n, g, silo), call, peers, n', told) && WellKeyed(call.existing)
    requires g in n.owned && n.owned[g].silo == silo
    ensures g in n'.owned <==>
            call.arcs != [] && peers != [] && exists e: DirectoryEntry :: Known(hash, call, peers, e) && e.grain == g
  {
    hide Merge, ApplyRebuild, Answers, InArcs, RunsIt, Known, Beats, StandsDown;
    var after := Unregister(n, g, silo);
    assert g !in after.owned;
    if call.arcs != [] && peers != [] {
      RebuildRecoversActivations(hash, after, call, peers, n', told);
    }
  }
}
