/** Calls to the distributed directory get answered.

    `SingleActivation` says what a finished call may have been answered. Here: in a settled cluster every call that is
    issued can finish, every outstanding request is served when its owner is asked, and the answer served is the answer
    returned. */
module CallProgress {
  import opened Wrappers
  import opened Identity
  import opened HashRing
  import opened Directory
  import opened DirectoryNode
  import opened DirectoryCluster
  import opened EntryPlaces
  import opened SingleActivation
  import opened RebuildMerge
  import opened RingChange

  /** Between `s` and `s'` the call was served once, by `server`, as the map demands; an entry made for it has the next
      epoch of the server, and is on the silo it was asked for or on the one picked. */
  ghost predicate ServedOnce(s: Sys, s': Sys, id: nat, server: SiloAddress, call: Call, chosen: SiloAddress,
                             answer: Answer)
  {
    && server in s.nodes && Legal(Truth(s), call, answer) && Truth(s') == After(Truth(s), call, answer)
    && |s'.log| == |s.log| + 1 && s'.log[..|s.log|] == s.log
    && s'.log[|s.log|] == Event(id, server, call, answer, answer.Found? && call.grain !in Truth(s))
    && (answer.Found? && call.grain !in Truth(s) ==>
          && answer.entry.epoch == s.nodes[server].epoch + 1
          && answer.entry.silo == if call.RegisterCall? then call.silo else chosen)
  }

  lemma ServedByOwner(hash: StableHash, s: Sys, server: SiloAddress, id: nat, call: Call, chosen: SiloAddress)
    requires Located(hash, s) && Settled(hash, s) && WellKeyed(Truth(s))
    requires server in s.nodes && OwnerIn(hash, s.target, call.grain) == Some(server)
    ensures var (s', answer) := Served(s, server, id, call, chosen);
            ServedOnce(s, s', id, server, call, chosen, answer)
  {
    hide Located, Settled, OwnerIn, Replay, Legal, After, ServeAt;
    var (s', answer) := Served(s, server, id, call, chosen);
    SettledAtOwner(hash, s, call.grain, server);
    ServedLocated(hash, s, server, id, call, chosen);
    ReplayAppend(s.log, s'.log[|s.log|]);
    ServeAtMakes(s.nodes[server], call, chosen);
  }

  lemma ServeAtMakes(n: Node, call: Call, chosen: SiloAddress)
    ensures var answer := ServeAt(n, call, chosen).1;
            answer.Found? && call.grain !in n.owned ==>
              && answer.entry.epoch == n.epoch + 1
              && answer.entry.silo == if call.RegisterCall? then call.silo else chosen
  {
  }

  /** Issued at the owner, a call is over at once. Issued elsewhere, it is on its way to the owner. */
  lemma IssueReachesOwner(hash: StableHash, s: Sys, id: nat, from: SiloAddress, call: Call, chosen: SiloAddress)
    requires Inv(hash, s) && Settled(hash, s) && id !in s.issued && from in s.nodes
    ensures OwnerIn(hash, s.target, call.grain).Some? && OwnerIn(hash, s.target, call.grain).value in s.nodes
    ensures var owner := OwnerIn(hash, s.target, call.grain).value;
            var s' := Next(hash, s, Issue(id, from, call, chosen));
            if owner == from then
              && id in s'.done && s'.done[id].call == call
              && ServedOnce(s, s', id, owner, call, chosen, s'.done[id].answer)
              && s'.done[id].issuedAt == |s.log| && s'.done[id].returnedAt == |s'.log|
            else
              && s' == s.(issued := s.issued + {id},
                          requests := s.requests[id := Request(call, owner, |s.log|, None)])
  {
    hide OwnerIn, OwnerOfGrain, LogOk, CallsOk, Faithful, OnePlace, Present, HoldsItsOwn, Served;
    OwnerInFacts(hash, s.target, call.grain);
    assert OwnerOfGrain(hash, s.nodes[from].ring, call.grain) == OwnerIn(hash, s.target, call.grain);
    var owner := OwnerIn(hash, s.target, call.grain).value;
    hide Settled;
    if owner == from {
      KeyedTruth(s);
      TakenIsServed(hash, s, id, owner, call, chosen);
      hide Located;
      ServedByOwner(hash, s, owner, id, call, chosen);
      SameTruth(Served(s, owner, id, call, chosen).0, Next(hash, s, Issue(id, from, call, chosen)));
    }
  }

  lemma KeyedTruth(s: Sys)
    requires LogOk(s)
    ensures WellKeyed(Truth(s))
  {
  }

  /** Taking the id first makes no difference to how a call is served. */
  lemma TakenIsServed(hash: StableHash, s: Sys, id: nat, server: SiloAddress, call: Call, chosen: SiloAddress)
    requires server in s.nodes
    ensures var (s1, a1) := Served(s, server, id, call, chosen);
            var (s2, a2) := Served(s.(issued := s.issued + {id}), server, id, call, chosen);
            a1 == a2 && s1.log == s2.log
  {
  }

  /** In a settled cluster the owner answers any outstanding request, whatever else is going on; only that request
      changes, and it keeps its call, its owner and the time it was issued. */
  lemma RequestsAreServed(hash: StableHash, s: Sys, id: nat, chosen: SiloAddress)
    requires Inv(hash, s) && Settled(hash, s) && id in s.requests && s.requests[id].answer.None?
    ensures var r := s.requests[id];
            var s' := Next(hash, s, Serve(id, chosen));
            && r.owner in s.nodes && s'.done == s.done && s'.issued == s.issued
            && id in s'.requests && s'.requests[id].answer.Some?
            && s'.requests == s.requests[id := r.(answer := s'.requests[id].answer)]
            && ServedOnce(s, s', id, r.owner, r.call, chosen, s'.requests[id].answer.value)
  {
    hide OwnerIn, OwnerOfGrain, CallsOk, Faithful, OnePlace, Present, HoldsItsOwn, Served, LogOk;
    var r := s.requests[id];
    assert Some(r.owner) == OwnerIn(hash, s.target, r.call.grain);
    OwnerInFacts(hash, s.target, r.call.grain);
    KeyedTruth(s);
    hide Settled, Located;
    ServedByOwner(hash, s, r.owner, id, r.call, chosen);
    ServedShape(s, r.owner, id, r.call, chosen);
    SameTruth(Served(s, r.owner, id, r.call, chosen).0, Next(hash, s, Serve(id, chosen)));
  }

  /** The answer served is the answer returned, and nothing else changes. */
  lemma AnswersAreReturned(hash: StableHash, s: Sys, id: nat)
    requires id in s.requests && s.requests[id].answer.Some?
    ensures var r := s.requests[id];
            Next(hash, s, Return(id)) ==
            s.(requests := s.requests - {id},
               done := s.done[id := Outcome(r.call, r.answer.value, r.issuedAt, |s.log|)])
  {
  }

  /** How a call issued in a settled cluster is carried through. */
  function CallSteps(id: nat, from: SiloAddress, owner: SiloAddress, call: Call, chosen: SiloAddress): seq<Step> {
    if owner == from then [Issue(id, from, call, chosen)]
    else [Issue(id, from, call, chosen), Serve(id, chosen), Return(id)]
  }

  /** In a settled cluster, with any other requests outstanding, every call of any of the four kinds, issued at any
      silo, can finish: with an answer that is right at that point of the history, and the map changed as it says. */
  lemma CallsFinish(hash: StableHash, first: SiloAddress, steps: seq<Step>, id: nat, from: SiloAddress, call: Call,
                    chosen: SiloAddress)
    requires AllowedRun(hash, first, steps)
    requires var s := Run(hash, first, steps); Settled(hash, s) && id !in s.issued && from in s.nodes
    ensures var s := Run(hash, first, steps);
            var owner := OwnerIn(hash, s.target, call.grain);
            && owner.Some? && owner.value in s.nodes
            && var all := steps + CallSteps(id, from, owner.value, call, chosen);
               var s' := Run(hash, first, all);
               && AllowedRun(hash, first, all) && id in s'.done && s'.done[id].call == call
               && ServedOnce(s, s', id, owner.value, call, chosen, s'.done[id].answer)
               && s'.done[id].issuedAt == |s.log| && s'.done[id].returnedAt == |s'.log|
  {
    hide Run, AllowedRun, Inv, Settled, OwnerIn, Next, ServedOnce;
    RunKeepsInv(hash, first, steps);
    var s := Run(hash, first, steps);
    var issue, serve, back := Issue(id, from, call, chosen), Serve(id, chosen), Return(id);
    IssueReachesOwner(hash, s, id, from, call, chosen);
    RunAppend(hash, first, steps, issue);
    var owner := OwnerIn(hash, s.target, call.grain).value;
    if owner == from {
      assert CallSteps(id, from, owner, call, chosen) == [issue];
    } else {
      var s1 := Next(hash, s, issue);
      StillSettled(hash, s, s1);
      RunKeepsInv(hash, first, steps + [issue]);
      RequestsAreServed(hash, s1, id, chosen);
      SameTruth(s, s1);
      RunAppend(hash, first, steps + [issue], serve);
      var s2 := Next(hash, s1, serve);
      AnswersAreReturned(hash, s2, id);
      RunAppend(hash, first, steps + [issue] + [serve], back);
      var s3 := Next(hash, s2, back);
      SameTruth(s2, s3);
      assert steps + CallSteps(id, from, owner, call, chosen) == steps + [issue] + [serve] + [back];
      SameService(s, s1, s2, s3, id, owner, call, chosen, s2.requests[id].answer.value);
    }
  }

  lemma StillSettled(hash: StableHash, s: Sys, s': Sys)
    requires Settled(hash, s) && s'.nodes == s.nodes && s'.flights == s.flights && s'.target == s.target
    ensures Settled(hash, s')
  {
    hide RoutesAs;
  }

  lemma SameService(s: Sys, s1: Sys, s2: Sys, s3: Sys, id: nat, server: SiloAddress, call: Call, chosen: SiloAddress,
                    answer: Answer)
    requires ServedOnce(s1, s2, id, server, call, chosen, answer)
    requires s1.nodes == s.nodes && s1.log == s.log && s3.log == s2.log
    ensures ServedOnce(s, s3, id, server, call, chosen, answer)
  {
    hide Replay, Legal, After;
  }

  // ---- What the other steps settle for good -------------------------------------------------

  lemma StepAfterGivingUp(hash: StableHash, s: Sys, step: Step, id: nat)
    requires id in s.issued && id !in s.requests
    ensures var s' := Next(hash, s, step);
            && id in s'.issued && id !in s'.requests
            && (id in s'.done <==> id in s.done) && (id in s.done ==> s'.done[id] == s.done[id])
  {
    hide OwnerOfGrain, ServeAt, ChangeMembership, ApplyHandoff, ApplyRebuild, BootNode;
  }

  /** A call its caller gave up is never answered: its id stays taken, and no outcome is recorded for it later. */
  lemma {:induction false} GivenUpForGood(hash: StableHash, first: SiloAddress, steps: seq<Step>, more: seq<Step>,
                                          id: nat)
    requires var s := Run(hash, first, steps); id in s.issued && id in s.requests && id !in s.done
    ensures var s := Run(hash, first, steps + [GiveUp(id)] + more); id in s.issued && id !in s.requests && id !in s.done
  {
    hide Run, Next;
    if more == [] {
      assert steps + [GiveUp(id)] + more == steps + [GiveUp(id)];
      RunAppend(hash, first, steps, GiveUp(id));
      GivingUp(hash, Run(hash, first, steps), id);
    } else {
      var front, last := more[..|more| - 1], more[|more| - 1];
      GivenUpForGood(hash, first, steps, front, id);
      assert steps + [GiveUp(id)] + more == (steps + [GiveUp(id)] + front) + [last];
      RunAppend(hash, first, steps + [GiveUp(id)] + front, last);
      StepAfterGivingUp(hash, Run(hash, first, steps + [GiveUp(id)] + front), last, id);
    }
  }

  lemma GivingUp(hash: StableHash, s: Sys, id: nat)
    ensures Next(hash, s, GiveUp(id)) == s.(requests := s.requests - {id})
  {
  }

  lemma StepAfterStop(hash: StableHash, s: Sys, step: Step, silo: SiloAddress)
    requires silo in s.retired && silo !in s.nodes
    ensures silo in Next(hash, s, step).retired && silo !in Next(hash, s, step).nodes
  {
    hide OwnerOfGrain, ServeAt, ChangeMembership, ApplyHandoff, ApplyRebuild, BootNode;
  }

  /** A silo that stopped or crashed is gone with what it held, and its address never comes back. */
  lemma {:induction false} StoppedForGood(hash: StableHash, first: SiloAddress, steps: seq<Step>, more: seq<Step>,
                                          silo: SiloAddress)
    requires silo in Run(hash, first, steps).nodes
    ensures silo !in Run(hash, first, steps + [Stop(silo)] + more).nodes
    ensures silo in Run(hash, first, steps + [Stop(silo)] + more).retired
  {
    hide Run;
    if more == [] {
      assert steps + [Stop(silo)] + more == steps + [Stop(silo)];
      RunAppend(hash, first, steps, Stop(silo));
    } else {
      var front, last := more[..|more| - 1], more[|more| - 1];
      StoppedForGood(hash, first, steps, front, silo);
      assert steps + [Stop(silo)] + more == (steps + [Stop(silo)] + front) + [last];
      RunAppend(hash, first, steps + [Stop(silo)] + front, last);
      StepAfterStop(hash, Run(hash, first, steps + [Stop(silo)] + front), last, silo);
    }
  }

  /** A handoff that is lost or delivered is no longer in flight; a delivered one was applied by its owner, if that
      lives. */
  lemma FlightsEnd(hash: StableHash, s: Sys, key: (nat, GrainId))
    requires key in s.flights
    ensures Next(hash, s, LoseHandoff(key)) == s.(flights := s.flights - {key})
    ensures var s' := Next(hash, s, Deliver(key));
            var h := s.flights[key];
            && s'.flights == s.flights - {key} && s'.nodes.Keys == s.nodes.Keys
            && (forall n :: n in s.nodes && n != h.owner ==> s'.nodes[n] == s.nodes[n])
            && (h.owner in s.nodes ==> s'.nodes[h.owner] == ApplyHandoff(hash, s.nodes[h.owner], h.entry).0)
  {
    hide ApplyHandoff;
  }

  /** A rebuild gives the silo the least entry reported of every reported grain, and touches no other silo. */
  lemma RebuildStepRecovers(hash: StableHash, s: Sys, silo: SiloAddress, candidates: seq<DirectoryEntry>,
                            winners: seq<DirectoryEntry>)
    requires silo in s.nodes && WellKeyed(s.nodes[silo].owned)
    requires Lists(winners, Merge(candidates, s.nodes[silo].owned).0)
    ensures var s' := Next(hash, s, Rebuild(silo, winners));
            && s'.nodes.Keys == s.nodes.Keys
            && (forall n :: n in s.nodes && n != silo ==> s'.nodes[n] == s.nodes[n])
            && (forall e :: Reported(candidates, s.nodes[silo].owned, e) ==>
                  && e.grain in s'.nodes[silo].owned
                  && Least(candidates, s.nodes[silo].owned, s'.nodes[silo].owned[e.grain]))
  {
    hide ApplyRebuild, Merge, Lists, Least;
    RebuildRecovers(s.nodes[silo], candidates, s.nodes[silo].owned, winners);
  }
}
