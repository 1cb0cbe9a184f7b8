/** The failure detector object (`pyleans/cluster/failure_detector.py`): per-peer miss counts
    and the bounded vote drive against the shared table.

    What the rest of the cluster does while a detector awaits is an input: `Attempt` lists the
    writes of others before the read and between the read and the write, the clock reading,
    the outcome of the indirect probe and whether the table is reachable. */
module FailureDetector {
  import opened Wrappers
  import opened MembershipTable
  import opened Voting

  const MAX_STALE_RETRY := 3

  datatype Options = Options(voting: Config, missedProbesLimit: nat)

  datatype PeerHealth = PeerHealth(missCount: nat, consecutiveOk: nat, lastProbeOkTime: real, lastRtt: real)

  const UNKNOWN := PeerHealth(0, 0, 0.0, 0.0)

  datatype ProbeResult = ProbeResult(ok: bool, rtt: real)

  datatype VoteError = TableStale | SiloNotFound | TableUnavailable

  datatype Attempt = Attempt(
    before: seq<Op>, readDown: bool, now: real, between: seq<Op>, alive: bool, writeDown: bool)

  /** What one attempt saw and did: the table when it read, when it wrote and when it ended,
      and the call it made, if it got that far. */
  datatype Effect = Effect(
    atRead: Table, atWrite: Table, after: Table, wrote: Option<Op>, outcome: Result<bool, VoteError>)

  function PerformAll(t: Table, ops: seq<Op>): Table {
    if ops == [] then t else Perform(PerformAll(t, ops[..|ops| - 1]), ops[|ops| - 1])
  }

  lemma {:induction false} PerformAllOk(t: Table, ops: seq<Op>)
    requires TableOk(t)
    ensures TableOk(PerformAll(t, ops)) && Evolves(t, PerformAll(t, ops))
  {
    if ops != [] {
      var front := PerformAll(t, ops[..|ops| - 1]);
      PerformAllOk(t, ops[..|ops| - 1]);
      PerformEvolves(front, ops[|ops| - 1]);
      EvolvesTrans(t, front, PerformAll(t, ops));
    }
  }

  /** How the detector reports the result of its write. */
  function WriteOutcome(t: Table, op: Op, declare: bool): Result<bool, VoteError> {
    var r := match op
             case Update(row) => TryUpdate(t, row).1
             case AddSuspicion(id, vote, etag) => TryAddSuspicion(t, id, vote, etag).1
             case Delete(_) => Err(NotFound);
    match r
    case Ok(_) => Ok(declare)
    case Err(Stale) => Err(TableStale)
    case Err(NotFound) => Err(SiloNotFound)
  }

  /** The rest of an attempt that has decided to vote. */
  function Written(atRead: Table, peer: string, row: SiloInfo, vote: SuspicionVote, deciding: bool, a: Attempt)
    : Effect
  {
    var atWrite := PerformAll(atRead, a.between);
    var declare := deciding && !a.alive;
    var op := VoteOp(peer, row, vote, declare);
    if a.writeDown then Effect(atRead, atWrite, atWrite, None, Err(TableUnavailable))
    else Effect(atRead, atWrite, Perform(atWrite, op), Some(op), WriteOutcome(atWrite, op, declare))
  }

  /** One vote attempt against table `t` while others behave as `a` says. */
  function Attempted(cfg: Config, local: string, peer: string, t: Table, a: Attempt): Effect {
    var atRead := PerformAll(t, a.before);
    var seen := Find(atRead, peer);
    var plan := PlanVote(cfg, local, seen, a.now);
    if a.readDown then Effect(atRead, atRead, atRead, None, Err(TableUnavailable))
    else if !plan.Cast? then Effect(atRead, atRead, atRead, None, Ok(plan.AlreadyDead?))
    else Written(atRead, peer, seen.value, plan.vote, plan.deciding, a)
  }

  predicate Landed(e: Effect) {
    e.wrote.Some? && Succeeds(e.atWrite, e.wrote.value)
  }

  /** An attempt reports a death only if the row is DEAD in the table when it reads or when it ends;
      it reports success or failure of its write truthfully; and a write that lands extends the very
      row it read by one vote of the local silo. */
  lemma AttemptFacts(cfg: Config, local: string, peer: string, t: Table, a: Attempt)
    requires TableOk(t)
    ensures var e := Attempted(cfg, local, peer, t, a);
            && TableOk(e.after)
            && (e.outcome == Ok(true) ==> DeadIn(e.atRead, peer) || DeadIn(e.after, peer))
            && (Landed(e) <==> e.wrote.Some? && e.outcome.Ok?)
            && (!Landed(e) ==> e.after == e.atWrite)
            && (Landed(e) ==>
                  && Find(e.atWrite, peer) == Find(e.atRead, peer) != None
                  && peer in e.after.rows
                  && e.after.rows[peer].suspicions ==
                       e.atRead.rows[peer].suspicions + [SuspicionVote(local, a.now)])
  {
    hide Identity.SiloId, MembershipTable.Stamp, MembershipTable.EtagOf, FreshVoters;
    var e := Attempted(cfg, local, peer, t, a);
    PerformAllOk(t, a.before);
    PerformAllOk(e.atRead, a.between);
    if e.wrote.Some? {
      PerformEvolves(e.atWrite, e.wrote.value);
      assert Target(e.wrote.value) == peer;
      if Landed(e) {
        SameEtagSameRow(e.atRead, e.atWrite, peer);
      }
    }
  }

  /** Whether the attempt, from the row it read, has a vote to cast. */
  predicate HasVote(cfg: Config, local: string, seen: Option<SiloInfo>, now: real) {
    seen.Some? && !seen.value.status.Dead? && local !in FreshVoters(cfg, seen.value.suspicions, now)
  }

  /** Whether that vote is to declare the death: it completes the quorum and the probe finds nobody. */
  predicate Condemns(cfg: Config, local: string, row: SiloInfo, a: Attempt) {
    |FreshVoters(cfg, row.suspicions, a.now) + {local}| >= cfg.votes && !a.alive
  }

  /** Everything an attempt does, whatever the others write: it writes exactly when the table is reachable and it has a
      vote to cast; the write lands exactly when the row is still the one read, and otherwise the attempt reports that
      the row is gone or that it is another. */
  lemma AttemptOutcome(cfg: Config, local: string, peer: string, t: Table, a: Attempt)
    requires TableOk(t)
    ensures var e := Attempted(cfg, local, peer, t, a);
            var seen, now := Find(e.atRead, peer), Find(e.atWrite, peer);
            && (e.wrote.Some? <==> !a.readDown && !a.writeDown && HasVote(cfg, local, seen, a.now))
            && (e.wrote.None? && (a.readDown || HasVote(cfg, local, seen, a.now)) ==>
                  e.outcome == Err(TableUnavailable))
            && (e.wrote.None? && !a.readDown && !HasVote(cfg, local, seen, a.now) ==>
                  e.outcome == Ok(seen.Some? && seen.value.status.Dead?))
            && (e.wrote.Some? ==>
                  && (Landed(e) <==> now == seen)
                  && (e.outcome == Err(SiloNotFound) <==> now.None?)
                  && (e.outcome == Err(TableStale) <==> now.Some? && now != seen)
                  && (Landed(e) ==> e.outcome == Ok(Condemns(cfg, local, seen.value, a))))
            && (e.wrote.Some? && Landed(e) ==>
                  && peer in e.after.rows
                  && (e.after.rows[peer].status.Dead? <==> Condemns(cfg, local, seen.value, a))
                  && e.after.rows[peer].suspicions == seen.value.suspicions + [SuspicionVote(local, a.now)])
  {
    hide Identity.SiloId, MembershipTable.Stamp, MembershipTable.EtagOf, FreshVoters;
    var e := Attempted(cfg, local, peer, t, a);
    PerformAllOk(t, a.before);
    PerformAllOk(e.atRead, a.between);
    if peer in e.atRead.rows && peer in e.atWrite.rows && e.atRead.rows[peer].etag == e.atWrite.rows[peer].etag {
      SameEtagSameRow(e.atRead, e.atWrite, peer);
    }
  }

  /** An attempt that cannot read the table makes no finding; one that reads no row returns at once. */
  lemma AttemptReads(cfg: Config, local: string, peer: string, t: Table, a: Attempt)
    ensures var e := Attempted(cfg, local, peer, t, a);
            && (a.readDown ==> e.outcome == Err(TableUnavailable))
            && (!a.readDown && Find(e.atRead, peer).None? ==> e.outcome == Ok(false))
  {
  }

  /** With nobody else writing and the table reachable, an attempt on a live row adds this silo's vote unless a fresh
      one is there, and declares the row DEAD exactly when that vote completes the quorum and the probe finds nobody. */
  lemma UndisturbedAttempt(cfg: Config, local: string, peer: string, t: Table, a: Attempt)
    requires TableOk(t) && peer in t.rows
    requires a.before == [] && a.between == [] && !a.readDown && !a.writeDown
    ensures var e := Attempted(cfg, local, peer, t, a);
            var row := t.rows[peer];
            var voters := FreshVoters(cfg, row.suspicions, a.now);
            var votes := !row.status.Dead? && local !in voters;
            && peer in e.after.rows
            && e.after.rows[peer].suspicions == row.suspicions + (if votes then [SuspicionVote(local, a.now)] else [])
            && (e.after.rows[peer].status.Dead? <==>
                  row.status.Dead? || (votes && |voters + {local}| >= cfg.votes && !a.alive))
            && e.outcome == Ok(e.after.rows[peer].status.Dead?)
            && (Landed(e) <==> votes)
  {
    hide Identity.SiloId, MembershipTable.Stamp, MembershipTable.EtagOf, FreshVoters;
  }

  /** The call an attempt makes is the one the corresponding task of the interleaved system makes. */
  lemma AttemptIsATask(cfg: Config, local: string, peer: string, t: Table, a: Attempt, k: nat)
    requires Attempted(cfg, local, peer, t, a).wrote.Some?
    ensures var e := Attempted(cfg, local, peer, t, a);
            var s0 := Next(cfg, Sys(e.atRead, map[]), ReadForVote(k, local, peer, a.now));
            var s1 := Next(cfg, s0, ProbeAnswered(k, a.alive));
            var s2 := Next(cfg, s1.(table := e.atWrite), Write(k));
            && k in s1.tasks && s1.tasks[k].Writing? && s1.tasks[k].op == e.wrote.value
            && s2.table == e.after
  {
  }

  /** The table attempt number `i` of a drive starts from. */
  function Before(t: Table, effects: seq<Effect>, i: nat): Table
    requires i <= |effects|
  {
    if i == 0 then t else effects[i - 1].after
  }

  /** The attempts of one drive: each starts from the table the previous one left. */
  predicate Drive(cfg: Config, local: string, peer: string, t: Table, script: seq<Attempt>, effects: seq<Effect>) {
    && |effects| <= |script|
    && forall i :: 0 <= i < |effects| ==>
         effects[i] == Attempted(cfg, local, peer, Before(t, effects, i), script[i])
  }

  lemma DriveExtends(cfg: Config, local: string, peer: string, t: Table, script: seq<Attempt>,
                     effects: seq<Effect>, e: Effect)
    requires Drive(cfg, local, peer, t, script, effects) && |effects| < |script|
    requires e == Attempted(cfg, local, peer, Before(t, effects, |effects|), script[|effects|])
    ensures Drive(cfg, local, peer, t, script, effects + [e])
  {
    hide Attempted;
    assert forall i :: 0 <= i <= |effects| ==> Before(t, effects + [e], i) == Before(t, effects, i);
  }

  /** The attempt found the peer gone from the table, when it read or when it wrote. */
  predicate FoundGone(e: Effect, peer: string) {
    e.outcome == Err(SiloNotFound) || (e.outcome.Ok? && Find(e.atRead, peer).None?)
  }

  /** Every attempt but the last found the row changed under it, and so did the last only if it was the third. */
  predicate RetriesStale(effects: seq<Effect>) {
    && (forall i :: 0 <= i < |effects| - 1 ==> effects[i].outcome == Err(TableStale))
    && (0 < |effects| < MAX_STALE_RETRY ==> effects[|effects| - 1].outcome != Err(TableStale))
  }

  predicate Undisturbed(a: Attempt) {
    a.before == [] && a.between == [] && !a.readDown && !a.writeDown
  }

  /** The row carries a vote of `local` no older than the expiration. */
  predicate VotedFresh(cfg: Config, local: string, peer: string, now: real, t: Table) {
    peer in t.rows &&
    exists v :: v in t.rows[peer].suspicions && v.suspectingSilo == local && v.timestamp >= now - cfg.expiration
  }

  /** A drive that nobody disturbs takes one attempt and leaves this silo's fresh vote on a live row. */
  lemma UndisturbedDriveVotes(cfg: Config, local: string, peer: string, t: Table, script: seq<Attempt>,
                              effects: seq<Effect>)
    requires TableOk(t) && Drive(cfg, local, peer, t, script, effects) && effects != [] && RetriesStale(effects)
    requires Undisturbed(script[0]) && peer in t.rows && cfg.Valid()
    ensures |effects| == 1
    ensures !t.rows[peer].status.Dead? ==> VotedFresh(cfg, local, peer, script[0].now, effects[0].after)
  {
    hide MembershipTable.TableOk, FreshVoters;
    UndisturbedAttempt(cfg, local, peer, t, script[0]);
    assert effects[0] == Attempted(cfg, local, peer, Before(t, effects, 0), script[0]);
    hide Attempted;
    if !t.rows[peer].status.Dead? {
      FreshVoterVoted(cfg, t.rows[peer].suspicions, local, script[0].now);
      var votes := effects[0].after.rows[peer].suspicions;
      var mine := SuspicionVote(local, script[0].now);
      if local !in FreshVoters(cfg, t.rows[peer].suspicions, script[0].now) {
        assert votes[|votes| - 1] == mine && mine in votes;
      }
    }
  }

  lemma FreshVoterVoted(cfg: Config, votes: seq<SuspicionVote>, voter: string, now: real)
    ensures voter in FreshVoters(cfg, votes, now) <==>
            exists v :: v in votes && v.suspectingSilo == voter && v.timestamp >= now - cfg.expiration
  {
  }

  // ---- Evidence --------------------------------------------------------------------

  datatype HealthEvent = ProbeOk(peer: string) | ProbeMissed(peer: string) | Disconnected(peer: string)

  /** Misses and disconnect hints against `peer` since its last successful probe. */
  function Evidence(history: seq<HealthEvent>, peer: string): nat {
    if history == [] then 0
    else
      var last := history[|history| - 1];
      var front := history[..|history| - 1];
      if last.peer != peer then Evidence(front, peer)
      else if last.ProbeOk? then 0
      else Evidence(front, peer) + 1
  }

  lemma EvidenceAfter(history: seq<HealthEvent>, event: HealthEvent, peer: string)
    ensures Evidence(history + [event], peer) ==
            if event.peer != peer then Evidence(history, peer)
            else if event.ProbeOk? then 0 else Evidence(history, peer) + 1
  {
    assert (history + [event])[..|history|] == history;
  }

  class Detector {
    const local: string
    const options: Options
    var peerHealth: map<string, PeerHealth>
    ghost var history: seq<HealthEvent>

    function Health(peer: string): PeerHealth
      reads this
    {
      if peer in peerHealth then peerHealth[peer] else UNKNOWN
    }

    /** The options are those their constructor accepts, and no peer has more misses on record than there is evidence
        against it. */
    ghost predicate Valid()
      reads this
    {
      options.voting.Valid() && forall p :: Health(p).missCount <= Evidence(history, p)
    }

    constructor (local: string, options: Options)
      requires options.voting.Valid()
      ensures Valid() && history == [] && peerHealth == map[]
      ensures this.local == local && this.options == options
    {
      this.local, this.options := local, options;
      peerHealth, history := map[], [];
    }

    /** A lost connection counts as one miss; the count is cut down to the limit. */
    method BumpMissCount(peer: string)
      requires Valid()
      modifies this
      ensures Valid()
      ensures history == old(history) + [Disconnected(peer)]
      ensures Health(peer).missCount ==
              if old(Health(peer).missCount) < options.missedProbesLimit
              then old(Health(peer).missCount) + 1 else options.missedProbesLimit
      ensures forall p :: p != peer ==> Health(p) == old(Health(p))
    {
      forall p {
        EvidenceAfter(history, Disconnected(peer), p);
      }
      history := history + [Disconnected(peer)];
      var h := Health(peer);
      var bumped := if h.missCount + 1 <= options.missedProbesLimit then h.missCount + 1
                    else options.missedProbesLimit;
      peerHealth := peerHealth[peer := h.(missCount := bumped)];
    }

    method ForgetMisses(peer: string)
      requires Valid()
      modifies `peerHealth
      ensures Valid()
      ensures Health(peer) == old(Health(peer)).(missCount := 0)
      ensures forall p :: p != peer ==> Health(p) == old(Health(p))
    {
      peerHealth := peerHealth[peer := Health(peer).(missCount := 0)];
    }

    method AttemptVote(table: InMemoryMembershipProvider, peer: string, a: Attempt) returns (e: Effect)
      requires Valid() && table.Valid()
      modifies `peerHealth, table
      ensures Valid() && table.Valid()
      ensures e == Attempted(options.voting, local, peer, old(table.Value()), a)
      ensures table.Value() == e.after
      ensures Health(peer) == if !a.readDown && Find(e.atRead, peer).None?
                              then old(Health(peer)).(missCount := 0) else old(Health(peer))
      ensures forall p :: p != peer ==> Health(p) == old(Health(p))
    {
      hide MembershipTable.TableOk, PerformAll, FreshVoters, Written;
      OthersWrite(table, a.before);
      var atRead := Table(table.version, table.silos, table.heartbeatCount);
      if a.readDown {
        return Effect(atRead, atRead, atRead, None, Err(TableUnavailable));
      }
      var seen := table.ReadSilo(peer);
      var plan := PlanVote(options.voting, local, seen, a.now);
      match plan
      case Gone =>
        ForgetMisses(peer);
        return Effect(atRead, atRead, atRead, None, Ok(false));
      case AlreadyDead =>
        return Effect(atRead, atRead, atRead, None, Ok(true));
      case AlreadyVoted =>
        return Effect(atRead, atRead, atRead, None, Ok(false));
      case Cast(vote, deciding) =>
        e := CastVote(table, peer, seen.value, vote, deciding, a);
    }

    /** The probe before a deciding vote, and the write. */
    method CastVote(table: InMemoryMembershipProvider, peer: string, row: SiloInfo, vote: SuspicionVote, deciding: bool,
                    a: Attempt)
      returns (e: Effect)
      requires table.Valid()
      modifies table
      ensures table.Valid() && table.Value() == e.after && e.atRead == old(table.Value())
      ensures e == Written(old(table.Value()), peer, row, vote, deciding, a)
    {
      hide MembershipTable.TableOk, PerformAll;
      var atRead := Table(table.version, table.silos, table.heartbeatCount);
      OthersWrite(table, a.between);
      var atWrite := Table(table.version, table.silos, table.heartbeatCount);
      if a.writeDown {
        return Effect(atRead, atWrite, atWrite, None, Err(TableUnavailable));
      }
      var declare := deciding && !a.alive;
      var op := VoteOp(peer, row, vote, declare);
      var r;
      if declare {
        r := table.TryUpdateSilo(op.row);
      } else {
        r := table.TryAddSuspicionVote(peer, vote, EtagOrEmpty(row));
      }
      var after := Table(table.version, table.silos, table.heartbeatCount);
      return Effect(atRead, atWrite, after, Some(op), WriteOutcome(atWrite, op, declare));
    }

    /** At most three attempts, each on the table the previous one left; at most one write lands, and
        it is the last thing done; True is returned only if the row was DEAD in the table meanwhile. */
    method VoteOrDeclare(table: InMemoryMembershipProvider, peer: string, script: seq<Attempt>)
      returns (declared: bool, effects: seq<Effect>)
      requires Valid() && table.Valid() && |script| == MAX_STALE_RETRY
      modifies `peerHealth, table
      ensures Valid() && table.Valid()
      ensures 1 <= |effects| <= MAX_STALE_RETRY
      ensures Health(peer) == if FoundGone(effects[|effects| - 1], peer)
                              then old(Health(peer)).(missCount := 0) else old(Health(peer))
      ensures forall p :: p != peer ==> Health(p) == old(Health(p))
      ensures Drive(options.voting, local, peer, old(table.Value()), script, effects)
      ensures table.Value() == Before(old(table.Value()), effects, |effects|)
      ensures forall i :: 0 <= i < |effects| && Landed(effects[i]) ==> i == |effects| - 1
      ensures RetriesStale(effects)
      ensures declared <==> effects[|effects| - 1].outcome == Ok(true)
      ensures declared ==>
                exists i :: 0 <= i < |effects| && (DeadIn(effects[i].atRead, peer) || DeadIn(effects[i].after, peer))
    {
      hide Attempted, Landed, DeadIn, MembershipTable.TableOk;
      effects := [];
      for n := 0 to MAX_STALE_RETRY
        invariant Valid() && table.Valid() && |effects| == n
        invariant Drive(options.voting, local, peer, old(table.Value()), script, effects)
        invariant table.Value() == Before(old(table.Value()), effects, n)
        invariant forall i :: 0 <= i < n ==> !Landed(effects[i])
        invariant forall i :: 0 <= i < n ==> effects[i].outcome == Err(TableStale)
        invariant forall p :: Health(p) == old(Health(p))
      {
        AttemptReads(options.voting, local, peer, table.Value(), script[n]);
        AttemptFacts(options.voting, local, peer, table.Value(), script[n]);
        var e := AttemptVote(table, peer, script[n]);
        DriveExtends(options.voting, local, peer, old(table.Value()), script, effects, e);
        effects := effects + [e];
        match e.outcome
        case Ok(dead) =>
          assert dead ==> DeadIn(effects[n].atRead, peer) || DeadIn(effects[n].after, peer);
          return dead, effects;
        case Err(TableUnavailable) =>
          return false, effects;
        case Err(SiloNotFound) =>
          ForgetMisses(peer);
          return false, effects;
        case Err(TableStale) =>
      }
      return false, effects;
    }

    /** The table is touched only after a miss that brings the evidence against the peer, misses and
        disconnect hints since its last successful probe, to the limit. */
    method OnProbeResult(table: InMemoryMembershipProvider, peer: string, result: ProbeResult, now: real,
                         script: seq<Attempt>)
      returns (declared: bool, effects: seq<Effect>)
      requires Valid() && table.Valid() && |script| == MAX_STALE_RETRY
      modifies this, table
      ensures Valid() && table.Valid()
      ensures history == old(history) + [if result.ok then ProbeOk(peer) else ProbeMissed(peer)]
      ensures result.ok ==>
                Health(peer) == PeerHealth(0, old(Health(peer).consecutiveOk) + 1, now, result.rtt)
      ensures !result.ok ==>
                Health(peer) == old(Health(peer)).(
                  consecutiveOk := 0,
                  missCount := if effects != [] && FoundGone(effects[|effects| - 1], peer) then 0
                               else old(Health(peer).missCount) + 1)
      ensures forall p :: p != peer ==> Health(p) == old(Health(p))
      ensures effects != [] <==> !result.ok && old(Health(peer).missCount) + 1 >= options.missedProbesLimit
      ensures effects != [] ==> Evidence(history, peer) >= options.missedProbesLimit
      ensures RetriesStale(effects)
      ensures declared <==> effects != [] && effects[|effects| - 1].outcome == Ok(true)
      ensures !result.ok && old(Health(peer).missCount) + 1 >= options.missedProbesLimit &&
              Undisturbed(script[0]) &&
              peer in old(table.Value()).rows && !old(table.Value()).rows[peer].status.Dead? ==>
                VotedFresh(options.voting, local, peer, script[0].now, table.Value())
      ensures Drive(options.voting, local, peer, old(table.Value()), script, effects)
      ensures table.Value() == Before(old(table.Value()), effects, |effects|)
      ensures forall i :: 0 <= i < |effects| && Landed(effects[i]) ==> i == |effects| - 1
      ensures declared ==>
                exists i :: 0 <= i < |effects| && (DeadIn(effects[i].atRead, peer) || DeadIn(effects[i].after, peer))
    {
      hide Attempted, Landed, DeadIn, FoundGone, MembershipTable.TableOk, VotedFresh, Undisturbed;
      var event := if result.ok then ProbeOk(peer) else ProbeMissed(peer);
      forall p {
        EvidenceAfter(history, event, p);
      }
      history := history + [event];
      var h := Health(peer);
      if result.ok {
        peerHealth := peerHealth[peer := PeerHealth(0, h.consecutiveOk + 1, now, result.rtt)];
        return false, [];
      }
      peerHealth := peerHealth[peer := h.(consecutiveOk := 0, missCount := h.missCount + 1)];
      if h.missCount + 1 < options.missedProbesLimit {
        return false, [];
      }
      declared, effects := VoteOrDeclare(table, peer, script);
      if Undisturbed(script[0]) && peer in old(table.Value()).rows {
        UndisturbedDriveVotes(options.voting, local, peer, old(table.Value()), script, effects);
      }
    }
  }

  /** The rest of the cluster writes to the table. */
  method OthersWrite(table: InMemoryMembershipProvider, ops: seq<Op>)
    requires table.Valid()
    modifies table
    ensures table.Valid()
    ensures table.Value() == PerformAll(old(table.Value()), ops)
  {
    for i := 0 to |ops|
      invariant table.Valid()
      invariant table.Value() == PerformAll(old(table.Value()), ops[..i])
    {
      assert ops[..i + 1][..i] == ops[..i];
      match ops[i] {
        case Update(row) => var _ := table.TryUpdateSilo(row);
        case AddSuspicion(id, vote, etag) => var _ := table.TryAddSuspicionVote(id, vote, etag);
        case Delete(row) => var _ := table.TryDeleteSilo(row);
      }
    }
    assert ops[..|ops|] == ops;
  }
}
