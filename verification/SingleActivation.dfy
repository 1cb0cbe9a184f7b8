/** The distributed directory refines one register-if-absent map.

    Under the discipline `Allowed` every run is linearizable: the served calls, in the order they
    were served, are a legal history of one global map, and every call that returned took effect
    once, between its issue and its return. A change of ring moves entries and changes none. */
module SingleActivation {
  import opened Wrappers
  import opened Identity
  import opened HashRing
  import opened Directory
  import opened DirectoryNode
  import opened DirectoryCluster
  import opened EntryPlaces

  /** Call `id` was served as event `k` of the log, `from <= k < to`, with this answer. */
  predicate TookEffect(log: seq<Event>, id: nat, call: Call, answer: Answer, from: nat, to: nat) {
    exists k :: from <= k < to && k < |log| && log[k].id == id && log[k].call == call && log[k].answer == answer
  }

  ghost predicate LogOk(s: Sys) {
    && LegalHistory(s.log) && WellKeyed(Truth(s))
    && (forall i, j :: 0 <= i < j < |s.log| ==> s.log[i].id != s.log[j].id)
    && (forall k :: 0 <= k < |s.log| ==> s.log[k].id in s.issued)
  }

  ghost predicate CallsOk(s: Sys) {
    && (forall id :: id in s.requests ==>
          && id in s.issued && s.requests[id].issuedAt <= |s.log|
          && (s.requests[id].answer.None? ==> forall k :: 0 <= k < |s.log| ==> s.log[k].id != id)
          && (s.requests[id].answer.Some? ==>
                TookEffect(s.log, id, s.requests[id].call, s.requests[id].answer.value,
                           s.requests[id].issuedAt, |s.log|)))
    && (forall id :: id in s.done ==>
          && id in s.issued && s.done[id].returnedAt <= |s.log|
          && TookEffect(s.log, id, s.done[id].call, s.done[id].answer, s.done[id].issuedAt, s.done[id].returnedAt))
  }

  ghost predicate Inv(hash: StableHash, s: Sys) {
    Located(hash, s) && LogOk(s) && CallsOk(s)
  }

  lemma EffectStays(log: seq<Event>, e: Event, id: nat, call: Call, answer: Answer, from: nat, to: nat)
    requires TookEffect(log, id, call, answer, from, to)
    ensures TookEffect(log + [e], id, call, answer, from, to)
    ensures TookEffect(log + [e], id, call, answer, from, to + 1)
  {
    var k :| from <= k < to && k < |log| && log[k].id == id && log[k].call == call && log[k].answer == answer;
    assert (log + [e])[k] == log[k];
  }

  lemma LogAppend(s: Sys, e: Event, s': Sys)
    requires LogOk(s) && s'.log == s.log + [e] && s'.issued == s.issued
    requires e.id in s.issued && (forall k :: 0 <= k < |s.log| ==> s.log[k].id != e.id)
    requires Legal(Truth(s), e.call, e.answer) && WellKeyed(Truth(s'))
    ensures LogOk(s')
  {
    hide Legal, Replay;
    forall k | 0 <= k < |s'.log|
      ensures Legal(Replay(s'.log[..k]), s'.log[k].call, s'.log[k].answer)
    {
      if k < |s.log| {
        assert s'.log[..k] == s.log[..k];
      } else {
        assert s'.log[..k] == s.log;
      }
    }
  }

  /** Appending an event for a new call id leaves what is recorded of other calls as it was. */
  lemma CallsAfterAppend(s: Sys, e: Event, s': Sys)
    requires CallsOk(s) && s'.log == s.log + [e] && s.issued <= s'.issued
    requires s'.requests == s.requests - {e.id} && s'.done == s.done
    ensures CallsOk(s')
  {
    forall id | id in s'.requests && s'.requests[id].answer.Some?
      ensures TookEffect(s'.log, id, s'.requests[id].call, s'.requests[id].answer.value,
                         s'.requests[id].issuedAt, |s'.log|)
    {
      var r := s.requests[id];
      EffectStays(s.log, e, id, r.call, r.answer.value, r.issuedAt, |s.log|);
    }
    forall id | id in s'.done
      ensures TookEffect(s'.log, id, s'.done[id].call, s'.done[id].answer, s'.done[id].issuedAt, s'.done[id].returnedAt)
    {
      var d := s.done[id];
      EffectStays(s.log, e, id, d.call, d.answer, d.issuedAt, d.returnedAt);
    }
  }

  lemma EffectAtEnd(log: seq<Event>, e: Event, from: nat)
    requires from <= |log|
    ensures TookEffect(log + [e], e.id, e.call, e.answer, from, |log| + 1)
  {
    assert (log + [e])[|log|] == e;
  }

  /** `Located` looks at the partitions, the handoffs, the log and the unserved requests only. */
  lemma LocatedFrame(hash: StableHash, s: Sys, s': Sys)
    requires Located(hash, s)
    requires s'.nodes == s.nodes && s'.flights == s.flights && s'.log == s.log
    requires s'.target == s.target && s'.changes == s.changes
    requires forall id :: id in s'.requests && s'.requests[id].answer.None? ==>
               Some(s'.requests[id].owner) == OwnerIn(hash, s.target, s'.requests[id].call.grain)
    ensures Located(hash, s')
  {
    hide OwnerIn, OwnerOfGrain, Replay;
    assert Truth(s') == Truth(s);
    hide Truth;
    assert forall n, g :: Holds(s', n, g) <==> Holds(s, n, g);
    assert forall k, g :: Flies(s', k, g) <==> Flies(s, k, g);
    assert Present(s') by {
      forall g | g in Truth(s)
        ensures (exists n :: Holds(s', n, g)) || (exists k :: Flies(s', k, g))
      {
        if n :| Holds(s, n, g) {
          assert Holds(s', n, g);
        } else {
          var k :| Flies(s, k, g);
          assert Flies(s', k, g);
        }
      }
    }
  }

  /** A new call served at the owner: one legal event more, and nothing else disturbed. */
  lemma ServedInv(hash: StableHash, s: Sys, server: SiloAddress, id: nat, call: Call, chosen: SiloAddress, from: nat)
    requires Located(hash, s) && LogOk(s) && CallsOk(s) && Settled(hash, s) && from <= |s.log|
    requires id in s.issued && (forall k :: 0 <= k < |s.log| ==> s.log[k].id != id)
    requires server in s.nodes && OwnerIn(hash, s.target, call.grain) == Some(server)
    ensures var (s', answer) := Served(s, server, id, call, chosen);
            && Located(hash, s') && LogOk(s') && CallsOk(s'.(requests := s.requests - {id}))
            && TookEffect(s'.log, id, call, answer, from, |s'.log|)
  {
    hide OwnerIn, TookEffect, Legal, Located, Settled, ServeAt;
    var (s', answer) := Served(s, server, id, call, chosen);
    var e := s'.log[|s.log|];
    ServedLocated(hash, s, server, id, call, chosen);
    hide Truth;
    LogAppend(s, e, s');
    hide LogOk;
    CallsAfterAppend(s, e, s'.(requests := s.requests - {id}));
    EffectAtEnd(s.log, e, from);
  }

  /** The state once `id` is taken, before the call goes anywhere. */
  function Taken(s: Sys, id: nat): Sys {
    s.(issued := s.issued + {id})
  }

  lemma TakenInv(hash: StableHash, s: Sys, id: nat)
    requires Inv(hash, s) && id !in s.issued
    ensures Inv(hash, Taken(s, id))
    ensures id !in s.requests && id !in s.done && forall k :: 0 <= k < |s.log| ==> s.log[k].id != id
  {
    hide OwnerIn, OwnerOfGrain, TookEffect, Truth, Faithful, OnePlace, Present, HoldsItsOwn, LegalHistory;
    LocatedFrame(hash, s, Taken(s, id));
    SameTruth(s, Taken(s, id));
  }

  lemma LocalCallKeepsInv(hash: StableHash, s: Sys, id: nat, from: SiloAddress, call: Call, chosen: SiloAddress)
    requires Inv(hash, s) && Settled(hash, s) && id !in s.issued && from in s.nodes
    requires OwnerIn(hash, s.target, call.grain) == Some(from)
    ensures var (s2, answer) := Served(Taken(s, id), from, id, call, chosen);
            Inv(hash, s2.(done := s.done[id := Outcome(call, answer, |s.log|, |s2.log|)]))
  {
    hide OwnerIn, OwnerOfGrain, TookEffect, Truth, Served, Faithful, OnePlace, Present, HoldsItsOwn, LegalHistory;
    TakenInv(hash, s, id);
    ServedInv(hash, Taken(s, id), from, id, call, chosen, |s.log|);
    ServedShape(Taken(s, id), from, id, call, chosen);
    var (s2, answer) := Served(Taken(s, id), from, id, call, chosen);
    var s' := s2.(done := s.done[id := Outcome(call, answer, |s.log|, |s2.log|)]);
    SameTruth(s2, s');
    LocatedFrame(hash, s2, s');
  }

  lemma RemoteCallKeepsInv(hash: StableHash, s: Sys, id: nat, call: Call, owner: SiloAddress)
    requires Inv(hash, s) && id !in s.issued
    requires OwnerIn(hash, s.target, call.grain) == Some(owner)
    ensures Inv(hash, Taken(s, id).(requests := s.requests[id := Request(call, owner, |s.log|, None)]))
  {
    hide OwnerIn, OwnerOfGrain, TookEffect, Truth, Faithful, OnePlace, Present, HoldsItsOwn, LegalHistory;
    TakenInv(hash, s, id);
    var s' := Taken(s, id).(requests := s.requests[id := Request(call, owner, |s.log|, None)]);
    SameTruth(s, s');
    LocatedFrame(hash, s, s');
  }

  lemma IssueKeepsInv(hash: StableHash, s: Sys, id: nat, from: SiloAddress, call: Call, chosen: SiloAddress)
    requires Inv(hash, s) && Settled(hash, s)
    ensures Inv(hash, NextIssue(hash, s, id, from, call, chosen))
  {
    hide OwnerIn, OwnerOfGrain, LogOk, CallsOk, Served, Faithful, OnePlace, Present, HoldsItsOwn;
    if id !in s.issued && from in s.nodes {
      OwnerInFacts(hash, s.target, call.grain);
      assert OwnerOfGrain(hash, s.nodes[from].ring, call.grain) == OwnerIn(hash, s.target, call.grain);
      var owner := OwnerIn(hash, s.target, call.grain).value;
      hide Located, Settled;
      if owner == from {
        LocalCallKeepsInv(hash, s, id, from, call, chosen);
      } else {
        RemoteCallKeepsInv(hash, s, id, call, owner);
      }
    }
  }

  lemma SameTruth(s: Sys, s': Sys)
    ensures s.log == s'.log ==> Truth(s) == Truth(s')
  {
  }

  lemma ServedShape(s: Sys, server: SiloAddress, id: nat, call: Call, chosen: SiloAddress)
    requires server in s.nodes
    ensures var (s', answer) := Served(s, server, id, call, chosen);
            && s'.requests == s.requests && s'.issued == s.issued && s'.done == s.done && s'.target == s.target
            && s'.flights == s.flights && s'.changes == s.changes && |s'.log| == |s.log| + 1
  {
  }

  /** Recording the answer of a call that took effect. */
  lemma AnswerRecorded(s1: Sys, rest: map<nat, Request>, id: nat, r: Request)
    requires CallsOk(s1.(requests := rest)) && id in s1.issued && r.answer.Some? && r.issuedAt <= |s1.log|
    requires TookEffect(s1.log, id, r.call, r.answer.value, r.issuedAt, |s1.log|)
    ensures CallsOk(s1.(requests := rest[id := r]))
  {
    hide TookEffect;
  }

  lemma ServeKeepsInv(hash: StableHash, s: Sys, id: nat, chosen: SiloAddress)
    requires Inv(hash, s) && Settled(hash, s)
    ensures Inv(hash, NextServe(s, id, chosen))
  {
    hide OwnerIn, OwnerOfGrain, TookEffect, Legal, Truth, Served, LegalHistory;
    hide Faithful, OnePlace, Present, HoldsItsOwn;
    if id !in s.requests || s.requests[id].answer.Some? || s.requests[id].owner !in s.nodes {
      return;
    }
    var r := s.requests[id];
    ServedInv(hash, s, r.owner, id, r.call, chosen, r.issuedAt);
    ServedShape(s, r.owner, id, r.call, chosen);
    var (s1, answer) := Served(s, r.owner, id, r.call, chosen);
    var s' := NextServe(s, id, chosen);
    var r' := r.(answer := Some(answer));
    assert (s.requests - {id})[id := r'] == s.requests[id := r'];
    hide CallsOk, Settled;
    AnswerRecorded(s1, s.requests - {id}, id, r');
    SameTruth(s1, s');
    LocatedFrame(hash, s1, s');
    hide Located, Next;
  }

  /** A caller collects its answer or gives up: nothing is served and nothing moves. */
  lemma ReturnKeepsCalls(hash: StableHash, s: Sys, step: Step)
    requires LogOk(s) && CallsOk(s) && (step.Return? || step.GiveUp?)
    ensures LogOk(Next(hash, s, step)) && CallsOk(Next(hash, s, step))
  {
    hide TookEffect, Truth, LegalHistory;
    SameTruth(s, Next(hash, s, step));
  }

  lemma QuietStepKeepsInv(hash: StableHash, s: Sys, step: Step)
    requires Inv(hash, s) && (step.Return? || step.GiveUp?)
    ensures Inv(hash, Next(hash, s, step))
  {
    hide OwnerIn, OwnerOfGrain, Truth, Faithful, OnePlace, Present, HoldsItsOwn, LogOk, CallsOk;
    ReturnKeepsCalls(hash, s, step);
    LocatedFrame(hash, s, Next(hash, s, step));
  }

  /** Booting a silo adds an empty partition and nothing else. */
  lemma BootPlaces(hash: StableHash, s: Sys, silo: SiloAddress)
    requires silo !in s.nodes && silo !in s.retired
    ensures var s' := Next(hash, s, Boot(silo));
            && (forall n, g :: Holds(s', n, g) <==> Holds(s, n, g))
            && (forall k, g :: Flies(s', k, g) <==> Flies(s, k, g))
            && (forall n :: n in s'.nodes <==> n in s.nodes || n == silo)
            && (forall n :: n in s.nodes ==> s'.nodes[n] == s.nodes[n])
            && s'.nodes[silo].local == silo && s'.nodes[silo].active != []
  {
    hide MakeRing;
  }

  lemma BootFaithful(hash: StableHash, s: Sys, silo: SiloAddress)
    requires Located(hash, s) && silo !in s.nodes && silo !in s.retired
    ensures Faithful(Next(hash, s, Boot(silo)))
  {
    hide OwnerIn, OwnerOfGrain, Replay, Present, OnePlace, HoldsItsOwn, Addressed, BootNode;
    BootPlaces(hash, s, silo);
    var s' := Next(hash, s, Boot(silo));
    assert Truth(s') == Truth(s);
    hide Truth;
    assert forall n, g :: Holds(s', n, g) ==> Holds(s, n, g) && s'.nodes[n] == s.nodes[n];
  }

  lemma BootPresent(hash: StableHash, s: Sys, silo: SiloAddress)
    requires Located(hash, s) && silo !in s.nodes && silo !in s.retired
    ensures Present(Next(hash, s, Boot(silo))) && OnePlace(Next(hash, s, Boot(silo)))
  {
    hide OwnerIn, OwnerOfGrain, Replay, Faithful, HoldsItsOwn, Addressed, BootNode;
    BootPlaces(hash, s, silo);
    var s' := Next(hash, s, Boot(silo));
    assert Truth(s') == Truth(s);
    hide Truth, Next, Holds, Flies;
    forall g | g in Truth(s)
      ensures (exists n :: Holds(s', n, g)) || (exists k :: Flies(s', k, g))
    {
      if n :| Holds(s, n, g) {
        assert Holds(s', n, g);
      } else {
        var k :| Flies(s, k, g);
        assert Flies(s', k, g);
      }
    }
  }

  lemma BootRouting(hash: StableHash, s: Sys, silo: SiloAddress)
    requires Located(hash, s) && silo !in s.nodes && silo !in s.retired
    ensures HoldsItsOwn(hash, Next(hash, s, Boot(silo))) && Addressed(hash, Next(hash, s, Boot(silo)))
  {
    hide OwnerIn, OwnerOfGrain, Truth, Faithful, Present, OnePlace, BootNode;
    BootPlaces(hash, s, silo);
    var s' := Next(hash, s, Boot(silo));
    assert forall n, g :: Holds(s', n, g) ==> Holds(s, n, g) && s'.nodes[n] == s.nodes[n];
  }

  lemma BootKeepsInv(hash: StableHash, s: Sys, silo: SiloAddress)
    requires Inv(hash, s)
    ensures Inv(hash, Next(hash, s, Boot(silo)))
  {
    hide OwnerIn, OwnerOfGrain, TookEffect, Truth, LegalHistory, BootNode;
    hide Faithful, Present, OnePlace, HoldsItsOwn, Addressed;
    if silo !in s.nodes && silo !in s.retired {
      SameTruth(s, Next(hash, s, Boot(silo)));
      BootFaithful(hash, s, silo);
      BootPresent(hash, s, silo);
      BootRouting(hash, s, silo);
    }
  }

  /** Stopping a silo that holds nothing takes nothing away. */
  lemma StopPlaces(hash: StableHash, s: Sys, silo: SiloAddress)
    requires silo in s.nodes && s.nodes[silo].owned == map[]
    ensures var s' := Next(hash, s, Stop(silo));
            && (forall n, g :: Holds(s', n, g) <==> Holds(s, n, g))
            && (forall k, g :: Flies(s', k, g) <==> Flies(s, k, g))
            && (forall n :: n in s'.nodes <==> n in s.nodes && n != silo)
            && (forall n :: n in s'.nodes ==> s'.nodes[n] == s.nodes[n])
  {
  }

  lemma StopFaithful(hash: StableHash, s: Sys, silo: SiloAddress)
    requires Located(hash, s) && silo in s.nodes && s.nodes[silo].owned == map[]
    ensures Faithful(Next(hash, s, Stop(silo)))
  {
    hide OwnerIn, OwnerOfGrain, Replay, Present, OnePlace, HoldsItsOwn, Addressed;
    StopPlaces(hash, s, silo);
    var s' := Next(hash, s, Stop(silo));
    assert Truth(s') == Truth(s);
    hide Truth;
    assert forall n, g :: Holds(s', n, g) ==> Holds(s, n, g) && s'.nodes[n] == s.nodes[n];
  }

  lemma StopPresent(hash: StableHash, s: Sys, silo: SiloAddress)
    requires Located(hash, s) && silo in s.nodes && s.nodes[silo].owned == map[]
    ensures Present(Next(hash, s, Stop(silo))) && OnePlace(Next(hash, s, Stop(silo)))
  {
    hide OwnerIn, OwnerOfGrain, Replay, Faithful, HoldsItsOwn, Addressed;
    StopPlaces(hash, s, silo);
    var s' := Next(hash, s, Stop(silo));
    assert Truth(s') == Truth(s);
    hide Truth, Next, Holds, Flies;
    forall g | g in Truth(s)
      ensures (exists n :: Holds(s', n, g)) || (exists k :: Flies(s', k, g))
    {
      if n :| Holds(s, n, g) {
        assert Holds(s', n, g);
      } else {
        var k :| Flies(s, k, g);
        assert Flies(s', k, g);
      }
    }
  }

  lemma StopRouting(hash: StableHash, s: Sys, silo: SiloAddress)
    requires Located(hash, s) && Allowed(hash, s, Stop(silo)) && silo in s.nodes
    ensures HoldsItsOwn(hash, Next(hash, s, Stop(silo))) && Addressed(hash, Next(hash, s, Stop(silo)))
  {
    hide OwnerIn, OwnerOfGrain, Truth, Faithful, Present, OnePlace;
    StopPlaces(hash, s, silo);
    var s' := Next(hash, s, Stop(silo));
    assert forall n, g :: Holds(s', n, g) ==> Holds(s, n, g) && s'.nodes[n] == s.nodes[n];
  }

  lemma StopKeepsInv(hash: StableHash, s: Sys, silo: SiloAddress)
    requires Inv(hash, s) && Allowed(hash, s, Stop(silo))
    ensures Inv(hash, Next(hash, s, Stop(silo)))
  {
    hide OwnerIn, OwnerOfGrain, TookEffect, Truth, LegalHistory;
    hide Faithful, Present, OnePlace, HoldsItsOwn, Addressed;
    if silo in s.nodes {
      SameTruth(s, Next(hash, s, Stop(silo)));
      StopFaithful(hash, s, silo);
      StopPresent(hash, s, silo);
      StopRouting(hash, s, silo);
    }
  }

  lemma ChangeKeepsInv(hash: StableHash, s: Sys, silo: SiloAddress, active: seq<SiloAddress>)
    requires Inv(hash, s) && Allowed(hash, s, Change(silo, active))
    ensures Inv(hash, NextChange(hash, s, silo, active))
  {
    hide OwnerIn, OwnerOfGrain, TookEffect, Truth, LegalHistory, ChangeMembership, Sent, Switched;
    hide Faithful, OnePlace, Present;
    if silo in s.nodes {
      var s' := NextChange(hash, s, silo, active);
      ChangeSwitches(hash, s, silo, active);
      SameTruth(s, s');
      SwitchKeepsFaithful(hash, s, s', silo, active);
      SwitchKeepsOnePlace(hash, s, s', silo, active);
      SwitchKeepsPresent(hash, s, s', silo, active);
      SwitchKeepsRouting(hash, s, s', silo, active);
    }
  }

  lemma DeliverKeepsInv(hash: StableHash, s: Sys, key: (nat, GrainId))
    requires Inv(hash, s) && Allowed(hash, s, Deliver(key))
    ensures Inv(hash, NextDeliver(hash, s, key))
  {
    hide OwnerIn, OwnerOfGrain, TookEffect, Truth, LegalHistory, ApplyHandoff, Arrived;
    hide Faithful, OnePlace, Present, HoldsItsOwn;
    if key in s.flights {
      var s' := NextDeliver(hash, s, key);
      DeliverArrives(hash, s, key);
      var n := s.flights[key].owner;
      SameTruth(s, s');
      ArrivalKeepsContents(hash, s, s', key, n);
      ArrivalKeepsPresent(hash, s, s', key, n);
      ArrivalKeepsRouting(hash, s, s', key, n);
    }
  }

  lemma AllowedKeepsInv(hash: StableHash, s: Sys, step: Step)
    requires Inv(hash, s) && Allowed(hash, s, step)
    ensures Inv(hash, Next(hash, s, step))
  {
    match step
    case Boot(silo) => BootKeepsInv(hash, s, silo);
    case Issue(id, from, call, chosen) => IssueKeepsInv(hash, s, id, from, call, chosen);
    case Serve(id, chosen) => ServeKeepsInv(hash, s, id, chosen);
    case Change(silo, active) => ChangeKeepsInv(hash, s, silo, active);
    case Deliver(key) => DeliverKeepsInv(hash, s, key);
    case Return(id) => QuietStepKeepsInv(hash, s, step);
    case GiveUp(id) => QuietStepKeepsInv(hash, s, step);
    case Stop(silo) => StopKeepsInv(hash, s, silo);
    case _ =>
  }

  lemma InitialInv(hash: StableHash, first: SiloAddress)
    ensures Inv(hash, Initial(hash, first))
  {
    hide OwnerIn, OwnerOfGrain, MakeRing;
  }

  lemma {:induction false} RunKeepsInv(hash: StableHash, first: SiloAddress, steps: seq<Step>)
    requires AllowedRun(hash, first, steps)
    ensures Inv(hash, Run(hash, first, steps))
  {
    hide Inv, Allowed, Next, Initial;
    if steps == [] {
      InitialInv(hash, first);
    } else {
      var front := steps[..|steps| - 1];
      AllowedPrefix(hash, first, steps, |front|);
      assert Allowed(hash, Run(hash, first, front), steps[|front|]);
      RunKeepsInv(hash, first, front);
      AllowedKeepsInv(hash, Run(hash, first, front), steps[|front|]);
    }
  }

  lemma AllowedPrefix(hash: StableHash, first: SiloAddress, steps: seq<Step>, n: nat)
    requires AllowedRun(hash, first, steps) && n <= |steps|
    ensures AllowedRun(hash, first, steps[..n])
  {
    hide Run, Allowed;
    forall k | 0 <= k < n
      ensures Allowed(hash, Run(hash, first, steps[..n][..k]), steps[..n][k])
    {
      assert steps[..n][..k] == steps[..k];
    }
  }

  // ---- Linearizability --------------------------------------------------------------------

  /** `at` is where in the log each finished call took effect. */
  ghost predicate Linearizes(log: seq<Event>, done: map<nat, Outcome>, at: map<nat, nat>) {
    && LegalHistory(log)
    && at.Keys == done.Keys
    && (forall id :: id in done ==>
          && done[id].issuedAt <= at[id] < done[id].returnedAt <= |log|
          && log[at[id]].id == id && log[at[id]].call == done[id].call && log[at[id]].answer == done[id].answer)
    && (forall a, b :: a in done && b in done && a != b ==> at[a] != at[b])
    && (forall a, b :: a in done && b in done && done[a].returnedAt <= done[b].issuedAt ==> at[a] < at[b])
  }

  /** Every run under the discipline refines one register-if-absent map: the served calls are a legal history of
      it, every call that returned is one of them, at a point between its issue and its return, and calls that
      did not overlap are in that history in the order they were made. */
  lemma Linearizable(hash: StableHash, first: SiloAddress, steps: seq<Step>)
    returns (at: map<nat, nat>)
    requires AllowedRun(hash, first, steps)
    ensures var s := Run(hash, first, steps); Linearizes(s.log, s.done, at)
  {
    hide Run, AllowedRun, LegalHistory, Located;
    RunKeepsInv(hash, first, steps);
    var s := Run(hash, first, steps);
    at := map id | id in s.done :: EffectIndex(s.log, id, s.done[id]);
  }

  ghost function EffectIndex(log: seq<Event>, id: nat, d: Outcome): (k: nat)
    requires TookEffect(log, id, d.call, d.answer, d.issuedAt, d.returnedAt)
    ensures d.issuedAt <= k < d.returnedAt && k < |log|
    ensures log[k].id == id && log[k].call == d.call && log[k].answer == d.answer
  {
    var k :| d.issuedAt <= k < d.returnedAt && k < |log|
          && log[k].id == id && log[k].call == d.call && log[k].answer == d.answer;
    k
  }

  /** Calls that create or find an entry. */
  predicate Asks(e: Event, g: GrainId) {
    (e.call.RegisterCall? || e.call.ResolveCall?) && e.call.grain == g
  }

  predicate Removes(e: Event, entry: DirectoryEntry) {
    e.call.UnregisterCall? && e.call.grain == entry.grain && e.call.silo == entry.silo
  }

  lemma CallKeepsEntry(m: Partition, e: Event, entry: DirectoryEntry)
    requires Legal(m, e.call, e.answer) && !Removes(e, entry)
    requires entry.grain in m && m[entry.grain] == entry
    ensures var m' := After(m, e.call, e.answer); entry.grain in m' && m'[entry.grain] == entry
  {
  }

  lemma AskedIsPresent(m: Partition, e: Event, g: GrainId)
    requires Legal(m, e.call, e.answer) && WellKeyed(m) && Asks(e, g) && e.answer.Found?
    ensures e.answer.entry.grain == g
    ensures var m' := After(m, e.call, e.answer); g in m' && m'[g] == e.answer.entry
  {
  }

  lemma ReplayNext(log: seq<Event>, k: nat)
    requires k < |log|
    ensures Replay(log[..k + 1]) == After(Replay(log[..k]), log[k].call, log[k].answer)
  {
    assert log[..k + 1][..k] == log[..k];
  }

  lemma {:induction false} EntryStays(log: seq<Event>, g: GrainId, i: nat, j: nat)
    requires LegalHistory(log) && i < j <= |log| && WellKeyed(Replay(log[..i])) && Asks(log[i], g)
    requires log[i].answer.Found? && forall k :: i < k < j ==> !Removes(log[k], log[i].answer.entry)
    ensures log[i].answer.entry.grain == g
    ensures var m := Replay(log[..j]); g in m && m[g] == log[i].answer.entry
  {
    hide Legal, After, Replay, Asks, Removes;
    if j == i + 1 {
      AskedIsPresent(Replay(log[..i]), log[i], g);
      ReplayNext(log, i);
    } else {
      EntryStays(log, g, i, j - 1);
      CallKeepsEntry(Replay(log[..j - 1]), log[j - 1], log[i].answer.entry);
      ReplayNext(log, j - 1);
    }
  }

  lemma {:induction false} LegalKeepsKeys(log: seq<Event>, n: nat)
    requires LegalHistory(log) && n <= |log|
    ensures WellKeyed(Replay(log[..n]))
  {
    hide Replay;
    if n == 0 {
      assert log[..n] == [];
      NoEvents();
    } else {
      LegalKeepsKeys(log, n - 1);
      ReplayNext(log, n - 1);
    }
  }

  lemma NoEvents()
    ensures Replay([]) == map[]
  {
  }

  /** Between two removals of a grain's entry, all callers that register or resolve it get the same entry. */
  lemma SameEntryBetweenRemovals(log: seq<Event>, g: GrainId, i: nat, j: nat)
    requires LegalHistory(log) && i < j < |log|
    requires Asks(log[i], g) && Asks(log[j], g) && log[i].answer.Found?
    requires forall k :: i < k < j ==> !Removes(log[k], log[i].answer.entry)
    ensures log[j].answer == log[i].answer
  {
    hide Replay, Removes;
    LegalKeepsKeys(log, i);
    EntryStays(log, g, i, j);
    assert Legal(Replay(log[..j]), log[j].call, log[j].answer);
  }

  // ---- One place, and conservation across a change of ring -----------------------------------

  /** At every moment of such a run each entry of the global map is in one partition or in one handoff in flight, as
      the map has it; at most one silo holds it; and nothing else is held or in flight. */
  lemma EveryEntryInOnePlace(hash: StableHash, first: SiloAddress, steps: seq<Step>)
    requires AllowedRun(hash, first, steps)
    ensures var s := Run(hash, first, steps);
            && (forall g :: g in Truth(s) <==> (exists n :: Holds(s, n, g)) || (exists k :: Flies(s, k, g)))
            && (forall m, n, g :: Holds(s, m, g) && Holds(s, n, g) ==> m == n)
            && (forall j, k, g :: Flies(s, j, g) && Flies(s, k, g) ==> j == k)
            && (forall n, k, g :: !(Holds(s, n, g) && Flies(s, k, g)))
            && (forall n, g :: Holds(s, n, g) ==> s.nodes[n].owned[g] == Truth(s)[g])
            && (forall k, g :: Flies(s, k, g) ==> s.flights[k].entry == Truth(s)[g])
  {
    hide Run, AllowedRun, LogOk, CallsOk, Truth, HoldsItsOwn, Addressed;
    RunKeepsInv(hash, first, steps);
  }

  /** Whenever the run is settled, each entry is at its owner on the current ring. */
  lemma SettledAtOwners(hash: StableHash, first: SiloAddress, steps: seq<Step>)
    requires AllowedRun(hash, first, steps) && Settled(hash, Run(hash, first, steps))
    ensures var s := Run(hash, first, steps);
            forall n, g :: Holds(s, n, g) <==> n in s.nodes && g in Truth(s) && OwnerIn(hash, s.target, g) == Some(n)
  {
    hide Run, AllowedRun, LogOk, CallsOk, Truth, HoldsItsOwn, Addressed, Settled, OwnerIn, Faithful, OnePlace, Present;
    RunKeepsInv(hash, first, steps);
    var s := Run(hash, first, steps);
    forall n, g
      ensures Holds(s, n, g) <==> n in s.nodes && g in Truth(s) && OwnerIn(hash, s.target, g) == Some(n)
    {
      if n in s.nodes {
        SettledAtOwner(hash, s, g, n);
      }
    }
  }
}
