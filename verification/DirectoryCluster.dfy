/** The directory as a whole: any number of silos, requests and handoffs in flight, and
    membership changes (`pyleans/cluster/distributed_directory.py`).

    `Next` is what the code does in every state, sound or not. `Allowed` is the discipline under
    which the directory is one register-if-absent map: requests are issued and served only while
    all silos route alike and no handoff is in flight, a handoff is delivered once its receiver
    has switched, and a new change of ring begins when the previous one's handoffs have arrived. */
module DirectoryCluster {
  import opened Wrappers
  import opened Identity
  import opened HashRing
  import opened Directory
  import opened DirectoryNode

  datatype Call =
    | RegisterCall(grain: GrainId, silo: SiloAddress)
    | LookupCall(grain: GrainId)
    | UnregisterCall(grain: GrainId, silo: SiloAddress)
    | ResolveCall(grain: GrainId)

  datatype Answer = Found(entry: DirectoryEntry) | NotFound | Done | NotReady

  // ---- The specification: one global map -------------------------------------------

  /** The answers a register-if-absent map may give. A new entry's epoch is not prescribed. */
  predicate Legal(m: Partition, call: Call, answer: Answer) {
    var g := call.grain;
    match call
    case LookupCall(_) => answer == if g in m then Found(m[g]) else NotFound
    case UnregisterCall(_, _) => answer == Done
    case RegisterCall(_, silo) =>
      if g in m then answer == Found(m[g])
      else answer.Found? && answer.entry.grain == g && answer.entry.silo == silo
    case ResolveCall(_) =>
      if g in m then answer == Found(m[g]) else answer.Found? && answer.entry.grain == g
  }

  function After(m: Partition, call: Call, answer: Answer): Partition {
    var g := call.grain;
    if call.UnregisterCall? then
      if g in m && m[g].silo == call.silo then m - {g} else m
    else if answer.Found? then m[g := answer.entry]
    else m
  }

  /** One served call: which silo served it, and whether it created the entry it answered with. */
  datatype Event = Event(id: nat, server: SiloAddress, call: Call, answer: Answer, created: bool)

  function Replay(log: seq<Event>): Partition {
    if log == [] then map[]
    else After(Replay(log[..|log| - 1]), log[|log| - 1].call, log[|log| - 1].answer)
  }

  ghost predicate LegalHistory(log: seq<Event>) {
    forall k :: 0 <= k < |log| ==> Legal(Replay(log[..k]), log[k].call, log[k].answer)
  }

  // ---- The system --------------------------------------------------------------------

  /** A remote call: `issuedAt` is the length of the log when the caller sent it. */
  datatype Request = Request(call: Call, owner: SiloAddress, issuedAt: nat, answer: Option<Answer>)

  /** A finished call, with the lengths of the log when it was issued and when it returned. */
  datatype Outcome = Outcome(call: Call, answer: Answer, issuedAt: nat, returnedAt: nat)

  /** `retired` are the addresses of silos that stopped or crashed. A silo that starts again has a new epoch in its
      address, so no address comes back. */
  datatype Sys = Sys(
    nodes: map<SiloAddress, Node>,
    issued: set<nat>,
    requests: map<nat, Request>,
    done: map<nat, Outcome>,
    flights: map<(nat, GrainId), Handoff>,
    changes: nat,
    target: seq<SiloAddress>,
    log: seq<Event>,
    retired: set<SiloAddress>)

  datatype Step =
    | Boot(silo: SiloAddress)
    | Issue(id: nat, from: SiloAddress, call: Call, chosen: SiloAddress)
    | Serve(id: nat, chosen: SiloAddress)
    | Return(id: nat)
    | GiveUp(id: nat)
    | Change(silo: SiloAddress, active: seq<SiloAddress>)
    | Deliver(key: (nat, GrainId))
    | LoseHandoff(key: (nat, GrainId))
    | Rebuild(silo: SiloAddress, merged: seq<DirectoryEntry>)
    | Stop(silo: SiloAddress)

  function BootNode(hash: StableHash, silo: SiloAddress): Node {
    Node(silo, MakeRing(hash, [silo], VIRTUAL_NODES_PER_SILO), [silo], map[], 0)
  }

  function Initial(hash: StableHash, first: SiloAddress): Sys {
    Sys(map[first := BootNode(hash, first)], {}, map[], map[], map[], 0, [first], [], {})
  }

  /** The owner of a partition serves a call under its lock. */
  function ServeAt(n: Node, call: Call, chosen: SiloAddress): (Node, Answer) {
    match call
    case RegisterCall(g, silo) =>
      var (n', e) := Register(n, g, silo);
      (n', Found(e))
    case LookupCall(g) => (n, if g in n.owned then Found(n.owned[g]) else NotFound)
    case UnregisterCall(g, silo) => (Unregister(n, g, silo), Done)
    case ResolveCall(g) =>
      var (n', r) := Resolve(n, g, chosen);
      (n', match r case Ok(e) => Found(e) case Err(_) => NotReady)
  }

  function Served(s: Sys, server: SiloAddress, id: nat, call: Call, chosen: SiloAddress): (Sys, Answer)
    requires server in s.nodes
  {
    var n := s.nodes[server];
    var (n', answer) := ServeAt(n, call, chosen);
    var event := Event(id, server, call, answer, answer.Found? && call.grain !in n.owned);
    (s.(nodes := s.nodes[server := n'], log := s.log + [event]), answer)
  }

  function NextIssue(hash: StableHash, s: Sys, id: nat, from: SiloAddress, call: Call, chosen: SiloAddress): Sys {
    if id in s.issued || from !in s.nodes then s
    else
      var s1 := s.(issued := s.issued + {id});
      match OwnerOfGrain(hash, s.nodes[from].ring, call.grain)
      case None => s1.(done := s.done[id := Outcome(call, NotReady, |s.log|, |s.log|)])
      case Some(owner) =>
        if owner == from then
          var (s2, answer) := Served(s1, from, id, call, chosen);
          s2.(done := s.done[id := Outcome(call, answer, |s.log|, |s2.log|)])
        else s1.(requests := s.requests[id := Request(call, owner, |s.log|, None)])
  }

  function NextServe(s: Sys, id: nat, chosen: SiloAddress): Sys {
    if id !in s.requests || s.requests[id].answer.Some? || s.requests[id].owner !in s.nodes then s
    else
      var r := s.requests[id];
      var (s1, answer) := Served(s, r.owner, id, r.call, chosen);
      s1.(requests := s.requests[id := r.(answer := Some(answer))])
  }

  /** The handoffs one membership change puts in flight. */
  function Sent(change: nat, moved: map<GrainId, Handoff>): map<(nat, GrainId), Handoff> {
    map g | g in moved :: (change, g) := moved[g]
  }

  function NextChange(hash: StableHash, s: Sys, silo: SiloAddress, active: seq<SiloAddress>): Sys {
    if silo !in s.nodes then s
    else
      var (n', r) := ChangeMembership(hash, s.nodes[silo], active);
      var moved := if r.Ok? then r.value else map[];
      s.(nodes := s.nodes[silo := n'], flights := s.flights + Sent(s.changes, moved),
         changes := s.changes + 1, target := active)
  }

  function NextDeliver(hash: StableHash, s: Sys, key: (nat, GrainId)): Sys {
    if key !in s.flights then s
    else
      var h := s.flights[key];
      var s1 := s.(flights := s.flights - {key});
      if h.owner !in s.nodes then s1
      else s1.(nodes := s.nodes[h.owner := ApplyHandoff(hash, s.nodes[h.owner], h.entry).0])
  }

  function Next(hash: StableHash, s: Sys, step: Step): Sys {
    match step
    case Boot(silo) =>
      if silo in s.nodes || silo in s.retired then s else s.(nodes := s.nodes[silo := BootNode(hash, silo)])
    case Issue(id, from, call, chosen) => NextIssue(hash, s, id, from, call, chosen)
    case Serve(id, chosen) => NextServe(s, id, chosen)
    case Return(id) =>
      if id in s.requests && s.requests[id].answer.Some? then
        var r := s.requests[id];
        s.(requests := s.requests - {id}, done := s.done[id := Outcome(r.call, r.answer.value, r.issuedAt, |s.log|)])
      else s
    case GiveUp(id) => s.(requests := s.requests - {id})
    case Change(silo, active) => NextChange(hash, s, silo, active)
    case Deliver(key) => NextDeliver(hash, s, key)
    case LoseHandoff(key) => s.(flights := s.flights - {key})
    case Rebuild(silo, merged) =>
      if silo in s.nodes then s.(nodes := s.nodes[silo := ApplyRebuild(s.nodes[silo], merged)]) else s
    case Stop(silo) =>
      if silo in s.nodes then s.(nodes := s.nodes - {silo}, retired := s.retired + {silo}) else s
  }

  function Run(hash: StableHash, first: SiloAddress, steps: seq<Step>): Sys {
    if steps == [] then Initial(hash, first)
    else Next(hash, Run(hash, first, steps[..|steps| - 1]), steps[|steps| - 1])
  }

  // ---- Epochs, in every run whatsoever ------------------------------------------------

  ghost predicate EpochsOk(s: Sys) {
    && s.nodes.Keys !! s.retired
    && (forall n :: n in s.nodes ==> Dominates(s.nodes[n]))
    && (forall k :: 0 <= k < |s.log| && s.log[k].created ==> Counted(s, s.log[k]))
    && (forall i, j ::
          0 <= i < j < |s.log| && s.log[i].created && s.log[j].created && s.log[i].server == s.log[j].server ==>
          s.log[i].answer.entry.epoch < s.log[j].answer.entry.epoch)
  }

  /** The creator's counter is at least the epoch it gave, as long as the creator lives. */
  predicate Counted(s: Sys, e: Event) {
    && e.answer.Found? && (e.server in s.nodes || e.server in s.retired)
    && (e.server in s.nodes ==> e.answer.entry.epoch <= s.nodes[e.server].epoch)
  }

  /** Serving a call creates at most one entry, with the next epoch of the server's counter. */
  lemma ServeAtEpochs(n: Node, call: Call, chosen: SiloAddress)
    requires Dominates(n)
    ensures var (n', answer) := ServeAt(n, call, chosen);
            && Dominates(n') && n'.epoch >= n.epoch && n'.local == n.local && n'.ring == n.ring
            && (answer.Found? && call.grain !in n.owned ==> answer.entry.epoch == n.epoch + 1 == n'.epoch)
  {
  }

  lemma ServedEpochs(s: Sys, server: SiloAddress, id: nat, call: Call, chosen: SiloAddress)
    requires EpochsOk(s) && server in s.nodes
    ensures EpochsOk(Served(s, server, id, call, chosen).0)
  {
    hide ServeAt, Dominates;
    ServeAtEpochs(s.nodes[server], call, chosen);
    var s' := Served(s, server, id, call, chosen).0;
    forall k | 0 <= k < |s'.log| && s'.log[k].created
      ensures Counted(s', s'.log[k])
    {
      assert k < |s.log| ==> Counted(s, s.log[k]);
    }
    forall i, j |
      0 <= i < j < |s'.log| && s'.log[i].created && s'.log[j].created && s'.log[i].server == s'.log[j].server
      ensures s'.log[i].answer.entry.epoch < s'.log[j].answer.entry.epoch
    {
      assert i < |s.log| ==> Counted(s, s.log[i]);
    }
  }

  /** A step that serves nothing keeps the log in order if no living silo's counter falls. */
  lemma EpochsFrame(s: Sys, s': Sys)
    requires EpochsOk(s) && Rises(s, s')
    ensures EpochsOk(s')
  {
    hide Dominates;
    forall k | 0 <= k < |s.log| && s.log[k].created
      ensures Counted(s', s'.log[k])
    {
      assert Counted(s, s.log[k]);
    }
  }

  lemma IssueEpochs(hash: StableHash, s: Sys, id: nat, from: SiloAddress, call: Call, chosen: SiloAddress)
    requires EpochsOk(s)
    ensures EpochsOk(NextIssue(hash, s, id, from, call, chosen))
  {
    hide Served, OwnerOfGrain, EpochsOk;
    var s' := NextIssue(hash, s, id, from, call, chosen);
    if id !in s.issued && from in s.nodes {
      var s1 := s.(issued := s.issued + {id});
      EpochsOfParts(s, s1);
      ServedEpochs(s1, from, id, call, chosen);
      EpochsOfParts(Served(s1, from, id, call, chosen).0, s');
    }
    EpochsOfParts(s, s');
  }

  lemma ServeEpochs(s: Sys, id: nat, chosen: SiloAddress)
    requires EpochsOk(s)
    ensures EpochsOk(NextServe(s, id, chosen))
  {
    hide Served, EpochsOk;
    var s' := NextServe(s, id, chosen);
    if id in s.requests && s.requests[id].owner in s.nodes {
      ServedEpochs(s, s.requests[id].owner, id, s.requests[id].call, chosen);
      EpochsOfParts(Served(s, s.requests[id].owner, id, s.requests[id].call, chosen).0, s');
    }
    EpochsOfParts(s, s');
  }

  lemma NextEpochs(hash: StableHash, s: Sys, step: Step)
    requires EpochsOk(s)
    ensures EpochsOk(Next(hash, s, step))
  {
    hide EpochsOk, NextIssue, NextServe, NextChange, NextDeliver, BootNode, ApplyRebuild, Dominates;
    match step
    case Issue(id, from, call, chosen) => IssueEpochs(hash, s, id, from, call, chosen);
    case Serve(id, chosen) => ServeEpochs(s, id, chosen);
    case _ =>
      CounterRises(hash, s, step);
      hide Next;
      EpochsFrame(s, Next(hash, s, step));
  }

  lemma EpochsOfParts(s: Sys, s': Sys)
    ensures s'.nodes == s.nodes && s'.log == s.log && s'.retired == s.retired ==> (EpochsOk(s) <==> EpochsOk(s'))
  {
    hide Dominates;
    if s'.nodes == s.nodes && s'.log == s.log && s'.retired == s.retired {
      if EpochsOk(s) {
        EpochsFrame(s, s');
      }
      if EpochsOk(s') {
        EpochsFrame(s', s);
      }
    }
  }

  /** No living silo's counter falls or is overtaken, and nobody comes back. */
  ghost predicate Rises(s: Sys, s': Sys) {
    && s'.log == s.log && s'.nodes.Keys !! s'.retired && s.retired <= s'.retired
    && (forall n :: n in s.nodes ==> n in s'.nodes || n in s'.retired)
    && (forall n :: n in s'.nodes ==> Dominates(s'.nodes[n]))
    && (forall n :: n in s'.nodes && n in s.nodes ==> s.nodes[n].epoch <= s'.nodes[n].epoch)
  }

  ghost predicate Sound(s: Sys) {
    s.nodes.Keys !! s.retired && forall m :: m in s.nodes ==> Dominates(s.nodes[m])
  }

  lemma OneNodeRises(s: Sys, s': Sys, n: SiloAddress, node: Node)
    requires Sound(s) && n !in s.retired && Dominates(node) && (n in s.nodes ==> s.nodes[n].epoch <= node.epoch)
    requires s'.log == s.log && s'.retired == s.retired && s'.nodes == s.nodes[n := node]
    ensures Rises(s, s')
  {
    hide Dominates;
  }

  lemma NoNodeRises(s: Sys, s': Sys, gone: set<SiloAddress>)
    requires Sound(s) && s'.log == s.log && s'.nodes == s.nodes - gone && s'.retired == s.retired + gone
    ensures Rises(s, s')
  {
    hide Dominates;
  }

  /** A step that serves no call. */
  lemma CounterRises(hash: StableHash, s: Sys, step: Step)
    requires EpochsOk(s) && !step.Issue? && !step.Serve?
    ensures Rises(s, Next(hash, s, step))
  {
    assert Sound(s) && forall n :: n in s.nodes ==> n !in s.retired && Dominates(s.nodes[n]);
    hide BootNode, OwnerOfGrain, ChangeMembership, ApplyHandoff, ApplyRebuild, Dominates, EpochsOk, Rises, Sound;
    var s' := Next(hash, s, step);
    assert s.nodes - {} == s.nodes && s.retired + {} == s.retired;
    match step
    case Boot(silo) =>
      BootDominates(hash, silo);
      if s' == s {
        NoNodeRises(s, s', {});
      } else {
        OneNodeRises(s, s', silo, BootNode(hash, silo));
      }
    case Change(silo, active) =>
      if silo in s.nodes {
        NodeEpochs(hash, s.nodes[silo], active, [], None);
        OneNodeRises(s, s', silo, ChangeMembership(hash, s.nodes[silo], active).0);
      } else {
        NoNodeRises(s, s', {});
      }
    case Deliver(key) =>
      if key in s.flights && s.flights[key].owner in s.nodes {
        var n := s.nodes[s.flights[key].owner];
        NodeEpochs(hash, n, [], [], Some(s.flights[key].entry));
        OneNodeRises(s, s', s.flights[key].owner, ApplyHandoff(hash, n, s.flights[key].entry).0);
      } else {
        NoNodeRises(s, s', {});
      }
    case Rebuild(silo, merged) =>
      if silo in s.nodes {
        NodeEpochs(hash, s.nodes[silo], [], merged, None);
        OneNodeRises(s, s', silo, ApplyRebuild(s.nodes[silo], merged));
      } else {
        NoNodeRises(s, s', {});
      }
    case Stop(silo) =>
      NoNodeRises(s, s', if silo in s.nodes then {silo} else {});
    case _ =>
      NoNodeRises(s, s', {});
  }

  lemma BootDominates(hash: StableHash, silo: SiloAddress)
    ensures Dominates(BootNode(hash, silo))
  {
    hide MakeRing;
  }

  lemma NodeEpochs(hash: StableHash, n: Node, active: seq<SiloAddress>, merged: seq<DirectoryEntry>,
                   incoming: Option<DirectoryEntry>)
    requires Dominates(n)
    ensures var c := ChangeMembership(hash, n, active).0; Dominates(c) && c.epoch >= n.epoch
    ensures var r := ApplyRebuild(n, merged); Dominates(r) && r.epoch >= n.epoch
    ensures incoming.Some? ==> var h := ApplyHandoff(hash, n, incoming.value).0; Dominates(h) && h.epoch >= n.epoch
  {
    hide MakeRing, OwnerOf;
    RebuildDominates(n, merged);
  }

  lemma {:induction false} RunEpochs(hash: StableHash, first: SiloAddress, steps: seq<Step>)
    ensures EpochsOk(Run(hash, first, steps))
  {
    hide Next;
    if steps == [] {
      hide MakeRing;
    } else {
      RunEpochs(hash, first, steps[..|steps| - 1]);
      NextEpochs(hash, Run(hash, first, steps[..|steps| - 1]), steps[|steps| - 1]);
    }
  }

  /** In every run, under any mixture of views, handoffs, losses, crashes and rebuilds: of two entries a silo created,
      the later has the higher epoch, and no entry a silo holds is ahead of its counter. */
  lemma EpochsIncrease(hash: StableHash, first: SiloAddress, steps: seq<Step>, i: nat, j: nat)
    requires var log := Run(hash, first, steps).log;
             i < j < |log| && log[i].created && log[j].created && log[i].server == log[j].server
    ensures var log := Run(hash, first, steps).log;
            log[i].answer.Found? && log[j].answer.Found? && log[i].answer.entry.epoch < log[j].answer.entry.epoch
    ensures forall n :: n in Run(hash, first, steps).nodes ==> Dominates(Run(hash, first, steps).nodes[n])
  {
    hide Run;
    RunEpochs(hash, first, steps);
    assert Counted(Run(hash, first, steps), Run(hash, first, steps).log[i]);
    assert Counted(Run(hash, first, steps), Run(hash, first, steps).log[j]);
  }

  /** The step serves a call that creates an entry. */
  predicate Creates(hash: StableHash, s: Sys, step: Step) {
    var s' := Next(hash, s, step);
    |s'.log| == |s.log| + 1 && s'.log[|s.log|].created
  }

  function Created(hash: StableHash, s: Sys, step: Step): Event
    requires Creates(hash, s, step)
  {
    Next(hash, s, step).log[|s.log|]
  }

  lemma CreatedWithNextEpoch(hash: StableHash, s: Sys, step: Step)
    requires EpochsOk(s) && Creates(hash, s, step)
    ensures var e := Created(hash, s, step);
            e.server in s.nodes && e.answer.Found? && e.answer.entry.epoch == s.nodes[e.server].epoch + 1
  {
    hide OwnerOfGrain, ServeAt, Dominates, Counted;
    match step
    case Issue(id, from, call, chosen) =>
      if id !in s.issued && from in s.nodes {
        ServeAtEpochs(s.nodes[from], call, chosen);
      }
    case Serve(id, chosen) =>
      if id in s.requests && s.requests[id].owner in s.nodes {
        ServeAtEpochs(s.nodes[s.requests[id].owner], s.requests[id].call, chosen);
      }
    case _ =>
      CounterRises(hash, s, step);
  }

  /** In every run, a new entry's epoch is above that of any other entry, of whatever origin, if and only if that one is
      not ahead of the creating silo's counter before the call. */
  lemma NewerIffCounted(hash: StableHash, first: SiloAddress, steps: seq<Step>, step: Step, other: DirectoryEntry)
    requires Creates(hash, Run(hash, first, steps), step)
    ensures var s := Run(hash, first, steps);
            var e := Created(hash, s, step);
            && e.answer.Found? && e.server in s.nodes
            && (other.epoch < e.answer.entry.epoch <==> other.epoch <= s.nodes[e.server].epoch)
  {
    hide Run, Creates, Created;
    RunEpochs(hash, first, steps);
    CreatedWithNextEpoch(hash, Run(hash, first, steps), step);
  }

  lemma ServedCounters(hash: StableHash, s: Sys, step: Step)
    requires EpochsOk(s) && (step.Issue? || step.Serve?)
    ensures var s' := Next(hash, s, step);
            && s'.nodes.Keys == s.nodes.Keys && s'.retired == s.retired
            && forall n :: n in s.nodes ==> s.nodes[n].epoch <= s'.nodes[n].epoch
  {
    hide OwnerOfGrain, ServeAt, Dominates, Counted;
    forall n, call, chosen | n in s.nodes
      ensures ServeAt(s.nodes[n], call, chosen).0.epoch >= s.nodes[n].epoch
    {
      ServeAtEpochs(s.nodes[n], call, chosen);
    }
  }

  /** A silo's counter never falls while it lives, and it does not come back. */
  lemma {:induction false} CounterNeverFalls(hash: StableHash, first: SiloAddress, steps: seq<Step>, i: nat,
                                             n: SiloAddress)
    requires i <= |steps| && n in Run(hash, first, steps[..i]).nodes
    ensures var s, s' := Run(hash, first, steps[..i]), Run(hash, first, steps);
            n in s'.retired || (n in s'.nodes && s.nodes[n].epoch <= s'.nodes[n].epoch)
  {
    hide Next, EpochsOk, Initial;
    if i == |steps| {
      assert steps[..i] == steps;
    } else {
      var front, last := steps[..|steps| - 1], steps[|steps| - 1];
      assert front[..i] == steps[..i];
      CounterNeverFalls(hash, first, front, i, n);
      RunEpochs(hash, first, front);
      if last.Issue? || last.Serve? {
        ServedCounters(hash, Run(hash, first, front), last);
      } else {
        CounterRises(hash, Run(hash, first, front), last);
      }
    }
  }

  /** In every run, whatever a silo held at any time, entries handed over or rebuilt included, is older than anything it
      creates later. */
  lemma HeldIsOlder(hash: StableHash, first: SiloAddress, steps: seq<Step>, i: nat, step: Step, g: GrainId)
    requires i <= |steps| && Creates(hash, Run(hash, first, steps), step)
    requires var e := Created(hash, Run(hash, first, steps), step);
             var s := Run(hash, first, steps[..i]);
             e.server in s.nodes && g in s.nodes[e.server].owned
    ensures var e := Created(hash, Run(hash, first, steps), step);
            e.answer.Found? && Run(hash, first, steps[..i]).nodes[e.server].owned[g].epoch < e.answer.entry.epoch
  {
    hide Run, Creates, Created;
    var n := Created(hash, Run(hash, first, steps), step).server;
    RunEpochs(hash, first, steps[..i]);
    RunEpochs(hash, first, steps);
    CounterNeverFalls(hash, first, steps, i, n);
    CreatedWithNextEpoch(hash, Run(hash, first, steps), step);
  }

  // ---- The counter, exactly ------------------------------------------------------------------

  /** The counter moved, if at all, to the epoch of an entry now held. */
  predicate MovesToHeld(n: Node, n': Node) {
    n'.epoch == n.epoch || exists g :: g in n'.owned && n'.owned[g].epoch == n'.epoch
  }

  lemma ServedMovesToHeld(n: Node, call: Call, chosen: SiloAddress)
    ensures MovesToHeld(n, ServeAt(n, call, chosen).0)
  {
    var n' := ServeAt(n, call, chosen).0;
    if n'.epoch != n.epoch {
      assert call.grain in n'.owned && n'.owned[call.grain].epoch == n'.epoch;
    }
  }

  lemma ChangeMovesToHeld(hash: StableHash, n: Node, active: seq<SiloAddress>, incoming: DirectoryEntry)
    ensures MovesToHeld(n, ChangeMembership(hash, n, active).0) && MovesToHeld(n, ApplyHandoff(hash, n, incoming).0)
  {
    hide MakeRing, OwnerOfGrain;
    var n' := ApplyHandoff(hash, n, incoming).0;
    if n'.epoch != n.epoch {
      assert incoming.grain in n'.owned && n'.owned[incoming.grain].epoch == n'.epoch;
    }
  }

  lemma RebuildMovesToHeld(n: Node, merged: seq<DirectoryEntry>)
    requires OnePerGrain(merged)
    ensures MovesToHeld(n, ApplyRebuild(n, merged))
  {
    hide ApplyRebuild, OnePerGrain;
    RebuildInstalls(n, merged);
    var n' := ApplyRebuild(n, merged);
    if n'.epoch != n.epoch {
      var e :| e in merged && e.epoch == n'.epoch;
      assert e.grain in n'.owned && n'.owned[e.grain].epoch == n'.epoch;
    }
  }

  /** A rebuild installs the values of a dictionary. */
  predicate FromDictionary(step: Step) {
    step.Rebuild? ==> OnePerGrain(step.merged)
  }

  lemma StepMovesToHeld(hash: StableHash, s: Sys, step: Step, n: SiloAddress)
    requires FromDictionary(step) && n in Next(hash, s, step).nodes
    ensures n in s.nodes ==> MovesToHeld(s.nodes[n], Next(hash, s, step).nodes[n])
    ensures n !in s.nodes ==> Next(hash, s, step).nodes[n].epoch == 0
  {
    hide MakeRing, OwnerOfGrain, ChangeMembership, ApplyHandoff, ApplyRebuild, ServeAt, OnePerGrain;
    if n in s.nodes {
      var node := s.nodes[n];
      match step
      case Issue(id, from, call, chosen) => ServedMovesToHeld(node, call, chosen);
      case Serve(id, chosen) =>
        if id in s.requests {
          ServedMovesToHeld(node, s.requests[id].call, chosen);
        }
      case Change(_, active) => ChangeMovesToHeld(hash, node, active, DirectoryEntry(GrainId("", ""), n, 0));
      case Deliver(key) =>
        if key in s.flights {
          ChangeMovesToHeld(hash, node, [], s.flights[key].entry);
        }
      case Rebuild(_, merged) => RebuildMovesToHeld(node, merged);
      case _ =>
    }
  }

  /** At some time of the run the silo held an entry of this epoch. */
  ghost predicate EverHeld(hash: StableHash, first: SiloAddress, steps: seq<Step>, n: SiloAddress, epoch: int) {
    exists i, g :: 0 <= i <= |steps| && HeldAt(Run(hash, first, steps[..i]), n, g, epoch)
  }

  predicate HeldAt(s: Sys, n: SiloAddress, g: GrainId, epoch: int) {
    n in s.nodes && g in s.nodes[n].owned && s.nodes[n].owned[g].epoch == epoch
  }

  lemma EverHeldLater(hash: StableHash, first: SiloAddress, steps: seq<Step>, step: Step, n: SiloAddress, epoch: int)
    requires EverHeld(hash, first, steps, n, epoch)
    ensures EverHeld(hash, first, steps + [step], n, epoch)
  {
    hide Run, HeldAt;
    var i, g :| 0 <= i <= |steps| && HeldAt(Run(hash, first, steps[..i]), n, g, epoch);
    assert (steps + [step])[..i] == steps[..i];
  }

  lemma {:induction false} CounterWasHeld(hash: StableHash, first: SiloAddress, steps: seq<Step>, n: SiloAddress)
    requires (forall m :: m in steps ==> FromDictionary(m)) && n in Run(hash, first, steps).nodes
    ensures var epoch := Run(hash, first, steps).nodes[n].epoch; epoch == 0 || EverHeld(hash, first, steps, n, epoch)
  {
    hide Next, FromDictionary, EverHeld, MakeRing;
    if steps != [] {
      var front, last := steps[..|steps| - 1], steps[|steps| - 1];
      var s, s' := Run(hash, first, front), Run(hash, first, steps);
      assert steps == front + [last];
      StepMovesToHeld(hash, s, last, n);
      if n in s.nodes {
        CounterWasHeld(hash, first, front, n);
        if s'.nodes[n].epoch == s.nodes[n].epoch {
          if s.nodes[n].epoch != 0 {
            EverHeldLater(hash, first, front, last, n, s.nodes[n].epoch);
          }
        } else {
          var g :| g in s'.nodes[n].owned && s'.nodes[n].owned[g].epoch == s'.nodes[n].epoch;
          HoldsNow(hash, first, steps, n, g);
        }
      }
    }
  }

  lemma HoldsNow(hash: StableHash, first: SiloAddress, steps: seq<Step>, n: SiloAddress, g: GrainId)
    requires n in Run(hash, first, steps).nodes && g in Run(hash, first, steps).nodes[n].owned
    ensures EverHeld(hash, first, steps, n, Run(hash, first, steps).nodes[n].owned[g].epoch)
  {
    hide Run;
    assert steps[..|steps|] == steps;
    assert HeldAt(Run(hash, first, steps[..|steps|]), n, g, Run(hash, first, steps).nodes[n].owned[g].epoch);
  }

  /** In every run, a living silo's counter is exactly the highest epoch it ever held, or 0 if that is higher. */
  lemma CounterIsHighestHeld(hash: StableHash, first: SiloAddress, steps: seq<Step>, n: SiloAddress)
    requires (forall m :: m in steps ==> FromDictionary(m)) && n in Run(hash, first, steps).nodes
    ensures var epoch := Run(hash, first, steps).nodes[n].epoch;
            && (epoch == 0 || EverHeld(hash, first, steps, n, epoch))
            && (forall e :: EverHeld(hash, first, steps, n, e) ==> e <= epoch)
  {
    hide Run;
    CounterWasHeld(hash, first, steps, n);
    RunEpochs(hash, first, steps);
    forall i, g, e | 0 <= i <= |steps| && HeldAt(Run(hash, first, steps[..i]), n, g, e)
      ensures e <= Run(hash, first, steps).nodes[n].epoch
    {
      RunEpochs(hash, first, steps[..i]);
      CounterNeverFalls(hash, first, steps, i, n);
    }
  }
}
