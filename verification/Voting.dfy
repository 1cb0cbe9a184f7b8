/** Suspicion voting over the membership table (`pyleans/cluster/failure_detector.py`),
    interleaved with every other writer of the table.

    A read-modify-write of the table is two separate steps, and the deciding vote has the
    indirect probe as a third step in between. Any number of such tasks, by any silos, run at
    once; a run is any sequence of steps, and a step that is not enabled changes nothing. */
module Voting {
  import opened Wrappers
  import opened Identity
  import opened Sequences
  import opened MembershipTable

  /** `num_votes_for_death_declaration` and `death_vote_expiration`. */
  datatype Config = Config(votes: nat, expiration: real) {
    predicate Valid() {
      votes >= 1 && expiration > 0.0
    }
  }

  // ---- One vote attempt ----------------------------------------------------------

  function FreshVoters(cfg: Config, votes: seq<SuspicionVote>, now: real): set<string> {
    set v | v in votes && v.timestamp >= now - cfg.expiration :: v.suspectingSilo
  }

  datatype Plan = Gone | AlreadyDead | AlreadyVoted | Cast(vote: SuspicionVote, deciding: bool)

  /** What a detector decides from the row it read. */
  function PlanVote(cfg: Config, local: string, seen: Option<SiloInfo>, now: real): Plan {
    if seen.None? then Gone
    else if seen.value.status.Dead? then AlreadyDead
    else
      var voters := FreshVoters(cfg, seen.value.suspicions, now);
      if local in voters then AlreadyVoted
      else Cast(SuspicionVote(local, now), |voters + {local}| >= cfg.votes)
  }

  function EtagOrEmpty(row: SiloInfo): string {
    if row.etag.Some? then row.etag.value else ""
  }

  /** The call that accumulates a vote, or, with `declare`, the one that also flips the row to DEAD. */
  function VoteOp(peer: string, seen: SiloInfo, vote: SuspicionVote, declare: bool): Op {
    if declare then Update(seen.(status := Dead, suspicions := seen.suspicions + [vote]))
    else AddSuspicion(peer, vote, EtagOrEmpty(seen))
  }

  // ---- The system ----------------------------------------------------------------

  datatype Author = Detector | Heartbeat | Silo

  datatype Task =
    | Probing(peer: string, seen: SiloInfo, vote: SuspicionVote)
    | Writing(author: Author, read: Option<SiloInfo>, op: Op)

  datatype Sys = Sys(table: Table, tasks: map<nat, Task>)

  datatype Step =
    | ReadForVote(task: nat, local: string, peer: string, now: real)
    | ProbeAnswered(task: nat, alive: bool)
    | ReadForHeartbeat(task: nat, id: string, now: real)
    | ReadForShutdown(task: nat, id: string)
    | ReadForRegister(task: nat, address: SiloAddress, clusterId: string, gatewayPort: Option<int>, now: real)
    | ReadForDelete(task: nat, id: string)
    | Write(task: nat)

  const INITIAL := Sys(EMPTY, map[])

  /** The row `_register_in_membership` builds, with the etag of what is stored now. */
  function Registration(step: Step, stored: Option<SiloInfo>): SiloInfo
    requires step.ReadForRegister?
  {
    SiloInfo(step.address, Active, step.now, step.now, Some(step.clusterId), step.gatewayPort, 0, step.now, [],
             if stored.Some? then stored.value.etag else None)
  }

  /** What a read step starts, if it leads to a write. */
  function Started(cfg: Config, t: Table, step: Step): Option<Task>
    requires !step.ProbeAnswered? && !step.Write?
  {
    match step
    case ReadForVote(_, local, peer, now) =>
      var seen := Find(t, peer);
      (match PlanVote(cfg, local, seen, now)
       case Cast(vote, deciding) =>
         if deciding then Some(Probing(peer, seen.value, vote))
         else Some(Writing(Detector, seen, VoteOp(peer, seen.value, vote, false)))
       case _ => None)
    case ReadForHeartbeat(_, id, now) =>
      var seen := Find(t, id);
      if seen.None? then None
      else Some(Writing(Heartbeat, seen, Update(seen.value.(iAmAlive := now, lastHeartbeat := now))))
    case ReadForShutdown(_, id) =>
      var seen := Find(t, id);
      if seen.None? then None else Some(Writing(Silo, seen, Update(seen.value.(status := ShuttingDown))))
    case ReadForRegister(_, address, _, _, _) =>
      var stored := Find(t, SiloId(address));
      Some(Writing(Silo, stored, Update(Registration(step, stored))))
    case ReadForDelete(_, id) =>
      var seen := Find(t, id);
      if seen.None? then None else Some(Writing(Silo, seen, Delete(seen.value)))
  }

  function Next(cfg: Config, s: Sys, step: Step): Sys {
    match step
    case ProbeAnswered(k, alive) =>
      if k in s.tasks && s.tasks[k].Probing? then
        var Probing(peer, seen, vote) := s.tasks[k];
        s.(tasks := s.tasks[k := Writing(Detector, Some(seen), VoteOp(peer, seen, vote, !alive))])
      else s
    case Write(k) =>
      if k in s.tasks && s.tasks[k].Writing? then Sys(Perform(s.table, s.tasks[k].op), s.tasks - {k}) else s
    case _ =>
      var task := Started(cfg, s.table, step);
      if step.task !in s.tasks && task.Some? then s.(tasks := s.tasks[step.task := task.value]) else s
  }

  /** The state after a run, from the empty table with no task running. */
  function Run(cfg: Config, steps: seq<Step>): Sys {
    if steps == [] then INITIAL else Next(cfg, Run(cfg, steps[..|steps| - 1]), steps[|steps| - 1])
  }

  // ---- What a row may look like ----------------------------------------------------

  /** Two votes by one silo are more than the expiration apart, in list order. */
  predicate Spaced(cfg: Config, votes: seq<SuspicionVote>) {
    forall i, j :: 0 <= i < j < |votes| && votes[i].suspectingSilo == votes[j].suspectingSilo ==>
      votes[i].timestamp < votes[j].timestamp - cfg.expiration
  }

  /** Each of `voters` cast a vote no older than the expiration when the last vote was cast. */
  predicate StandBehind(cfg: Config, votes: seq<SuspicionVote>, voters: set<string>) {
    && |votes| > 0
    && forall q :: q in voters ==>
         exists v :: v in votes && v.suspectingSilo == q && v.timestamp >= votes[|votes| - 1].timestamp - cfg.expiration
  }

  ghost predicate Quorum(cfg: Config, votes: seq<SuspicionVote>) {
    exists voters: set<string> :: |voters| >= cfg.votes && StandBehind(cfg, votes, voters)
  }

  ghost predicate RowOk(cfg: Config, row: SiloInfo) {
    Spaced(cfg, row.suspicions) && (row.status.Dead? ==> Quorum(cfg, row.suspicions))
  }

  // ---- The inductive invariant -------------------------------------------------------

  /** `row` was read from an earlier table: if its etag is still current, so is the row. */
  ghost predicate Remembered(cfg: Config, t: Table, id: string, row: SiloInfo) {
    && SiloId(row.address) == id && Stamped(row, t.version) && RowOk(cfg, row)
    && (id in t.rows && t.rows[id].etag == row.etag ==> t.rows[id] == row)
  }

  predicate MayVote(cfg: Config, seen: SiloInfo, vote: SuspicionVote) {
    !seen.status.Dead? && vote.suspectingSilo !in FreshVoters(cfg, seen.suspicions, vote.timestamp)
  }

  predicate Decides(cfg: Config, seen: SiloInfo, vote: SuspicionVote) {
    |FreshVoters(cfg, seen.suspicions, vote.timestamp) + {vote.suspectingSilo}| >= cfg.votes
  }

  ghost predicate TaskOk(cfg: Config, t: Table, task: Task) {
    match task
    case Probing(peer, seen, vote) =>
      Remembered(cfg, t, peer, seen) && MayVote(cfg, seen, vote) && Decides(cfg, seen, vote)
    case Writing(author, read, op) =>
      && (read.Some? ==> Remembered(cfg, t, Target(op), read.value))
      && ExpectedEtag(op) == (if read.Some? then read.value.etag else None)
      && (match op
          case AddSuspicion(_, vote, _) => author.Detector? && read.Some? && MayVote(cfg, read.value, vote)
          case Update(row) =>
            && RowOk(cfg, row)
            && (author.Silo? ==> !row.status.Dead?)
            && (!author.Silo? ==>
                  && read.Some? && read.value.suspicions <= row.suspicions
                  && (read.value.status.Dead? ==> row.status.Dead?))
          case Delete(_) => author.Silo? && read.Some?)
  }

  ghost predicate Inv(cfg: Config, s: Sys) {
    && TableOk(s.table)
    && (forall id :: id in s.table.rows ==> RowOk(cfg, s.table.rows[id]))
    && (forall k :: k in s.tasks ==> TaskOk(cfg, s.table, s.tasks[k]))
  }

  lemma AppendKeepsSpacing(cfg: Config, seen: SiloInfo, vote: SuspicionVote)
    requires Spaced(cfg, seen.suspicions) && MayVote(cfg, seen, vote)
    ensures Spaced(cfg, seen.suspicions + [vote])
  {
    var votes := seen.suspicions + [vote];
    forall i, j | 0 <= i < j < |votes| && votes[i].suspectingSilo == votes[j].suspectingSilo
      ensures votes[i].timestamp < votes[j].timestamp - cfg.expiration
    {
      assert votes[i] in seen.suspicions;
    }
  }

  /** The voters the detector counted stand behind the declaration it writes. */
  lemma DeclarationHasQuorum(cfg: Config, seen: SiloInfo, vote: SuspicionVote)
    requires cfg.Valid() && Decides(cfg, seen, vote)
    ensures Quorum(cfg, seen.suspicions + [vote])
  {
    var votes := seen.suspicions + [vote];
    var voters := FreshVoters(cfg, seen.suspicions, vote.timestamp) + {vote.suspectingSilo};
    assert votes[|votes| - 1] == vote;
    assert vote in votes;
    forall q | q in voters
      ensures exists v :: v in votes && v.suspectingSilo == q && v.timestamp >= vote.timestamp - cfg.expiration
    {
      if q != vote.suspectingSilo {
        var v :| v in seen.suspicions && v.timestamp >= vote.timestamp - cfg.expiration && v.suspectingSilo == q;
        assert v in votes;
      }
    }
    assert StandBehind(cfg, votes, voters);
  }

  lemma StillRemembered(cfg: Config, t: Table, t': Table, id: string, row: SiloInfo)
    requires Remembered(cfg, t, id, row) && Evolves(t, t') && TableOk(t')
    ensures Remembered(cfg, t', id, row)
  {
    hide Identity.SiloId, MembershipTable.EtagOf, RowOk;
    if id in t'.rows && t'.rows[id].etag == row.etag {
      assert Stamp(t'.rows[id]) == Stamp(row);
    }
  }

  /** A task that is still valid before another task's write is valid after it. */
  lemma TaskSurvivesWrite(cfg: Config, t: Table, op: Op, task: Task)
    requires TableOk(t) && TaskOk(cfg, t, task)
    ensures TaskOk(cfg, Perform(t, op), task)
  {
    hide Identity.SiloId, RowOk, MembershipTable.Perform, MembershipTable.TableOk, MembershipTable.Evolves, Remembered;
    hide MayVote, Decides;
    PerformEvolves(t, op);
    match task
    case Probing(peer, seen, vote) => StillRemembered(cfg, t, Perform(t, op), peer, seen);
    case Writing(author, read, mine) =>
      if read.Some? {
        StillRemembered(cfg, t, Perform(t, op), Target(mine), read.value);
      }
  }

  lemma VoteTaskOk(cfg: Config, t: Table, peer: string, seen: SiloInfo, vote: SuspicionVote, declare: bool)
    requires cfg.Valid() && Remembered(cfg, t, peer, seen) && MayVote(cfg, seen, vote)
    requires declare ==> Decides(cfg, seen, vote)
    ensures TaskOk(cfg, t, Writing(Detector, Some(seen), VoteOp(peer, seen, vote, declare)))
  {
    AppendKeepsSpacing(cfg, seen, vote);
    if declare {
      DeclarationHasQuorum(cfg, seen, vote);
    }
  }

  lemma StartedOk(cfg: Config, s: Sys, step: Step)
    requires cfg.Valid() && Inv(cfg, s) && !step.ProbeAnswered? && !step.Write?
    ensures var task := Started(cfg, s.table, step); task.Some? ==> TaskOk(cfg, s.table, task.value)
  {
    hide Identity.SiloId, MembershipTable.Stamp, MembershipTable.EtagOf, Quorum;
    match step
    case ReadForVote(_, local, peer, now) =>
      var seen := Find(s.table, peer);
      var plan := PlanVote(cfg, local, seen, now);
      if plan.Cast? && !plan.deciding {
        VoteTaskOk(cfg, s.table, peer, seen.value, plan.vote, false);
      }
    case _ =>
  }

  /** The row is still there, with its votes and perhaps more at the end, and still DEAD if it was. */
  predicate Grows(t: Table, t': Table, id: string) {
    id in t.rows ==>
      && id in t'.rows
      && t.rows[id].suspicions <= t'.rows[id].suspicions
      && (t.rows[id].status.Dead? ==> t'.rows[id].status.Dead?)
  }

  /** What a task's write leaves in its row. */
  lemma WriteResult(cfg: Config, t: Table, task: Task)
    requires cfg.Valid() && TableOk(t) && task.Writing? && TaskOk(cfg, t, task)
    requires forall id :: id in t.rows ==> RowOk(cfg, t.rows[id])
    ensures var t' := Perform(t, task.op);
            && (forall id :: id in t'.rows ==> RowOk(cfg, t'.rows[id]))
            && (!task.author.Silo? ==> Grows(t, t', Target(task.op)))
  {
    hide Identity.SiloId, MembershipTable.Stamp, MembershipTable.EtagOf;
    var Writing(author, read, op) := task;
    match op
    case AddSuspicion(id, vote, etag) =>
      AppendKeepsSpacing(cfg, read.value, vote);
    case Update(row) =>
    case Delete(row) =>
  }

  lemma WriteKeepsInv(cfg: Config, s: Sys, k: nat)
    requires cfg.Valid() && Inv(cfg, s) && k in s.tasks && s.tasks[k].Writing?
    ensures Inv(cfg, Next(cfg, s, Write(k)))
  {
    hide MembershipTable.Perform, RowOk, TaskOk;
    var op := s.tasks[k].op;
    PerformEvolves(s.table, op);
    WriteResult(cfg, s.table, s.tasks[k]);
    forall j | j in s.tasks
      ensures TaskOk(cfg, Perform(s.table, op), s.tasks[j])
    {
      TaskSurvivesWrite(cfg, s.table, op, s.tasks[j]);
    }
  }

  lemma NextKeepsInv(cfg: Config, s: Sys, step: Step)
    requires cfg.Valid() && Inv(cfg, s)
    ensures Inv(cfg, Next(cfg, s, step))
  {
    match step
    case ProbeAnswered(k, alive) =>
      if k in s.tasks && s.tasks[k].Probing? {
        var Probing(peer, seen, vote) := s.tasks[k];
        VoteTaskOk(cfg, s.table, peer, seen, vote, !alive);
      }
    case Write(k) =>
      if k in s.tasks && s.tasks[k].Writing? {
        WriteKeepsInv(cfg, s, k);
      }
    case _ =>
      StartedOk(cfg, s, step);
  }

  lemma {:induction false} RunKeepsInv(cfg: Config, steps: seq<Step>)
    requires cfg.Valid()
    ensures Inv(cfg, Run(cfg, steps))
  {
    if steps != [] {
      RunKeepsInv(cfg, steps[..|steps| - 1]);
      NextKeepsInv(cfg, Run(cfg, steps[..|steps| - 1]), steps[|steps| - 1]);
    }
  }

  // ---- Main results --------------------------------------------------------------------

  /** In every interleaving, a DEAD row carries votes of at least `cfg.votes` distinct silos, none
      older than the expiration when the deciding vote, the last in the list, was cast. */
  lemma DeadCarriesQuorum(cfg: Config, steps: seq<Step>, id: string)
    requires cfg.Valid()
    requires id in Run(cfg, steps).table.rows && Run(cfg, steps).table.rows[id].status.Dead?
    ensures Quorum(cfg, Run(cfg, steps).table.rows[id].suspicions)
  {
    RunKeepsInv(cfg, steps);
  }

  /** In every reachable table, whatever the clocks show, a silo's later vote on a row is more than
      the expiration after its earlier one. */
  lemma VotesOfOneSiloAreSpaced(cfg: Config, steps: seq<Step>, id: string, i: nat, j: nat)
    requires cfg.Valid()
    requires id in Run(cfg, steps).table.rows
    requires i < j < |Run(cfg, steps).table.rows[id].suspicions|
    requires var votes := Run(cfg, steps).table.rows[id].suspicions;
             votes[i].suspectingSilo == votes[j].suspectingSilo
    ensures var votes := Run(cfg, steps).table.rows[id].suspicions;
            votes[i].timestamp < votes[j].timestamp - cfg.expiration
  {
    RunKeepsInv(cfg, steps);
  }

  /** A task's successful write replaces exactly the row it read, or creates where it read none;
      only a delete may find its row already gone. */
  lemma WriteReplacesWhatItRead(cfg: Config, steps: seq<Step>, k: nat)
    requires cfg.Valid()
    requires k in Run(cfg, steps).tasks && Run(cfg, steps).tasks[k].Writing?
    requires Succeeds(Run(cfg, steps).table, Run(cfg, steps).tasks[k].op)
    ensures var s := Run(cfg, steps);
            var found := Find(s.table, Target(s.tasks[k].op));
            found == s.tasks[k].read || (s.tasks[k].op.Delete? && found.None?)
  {
    hide Identity.SiloId, MembershipTable.Stamp, MembershipTable.EtagOf, RowOk, Run;
    RunKeepsInv(cfg, steps);
  }

  /** The step is a successful write to row `id` by silo start-up or shut-down code. */
  predicate Overwrites(s: Sys, step: Step, id: string) {
    && step.Write? && step.task in s.tasks && s.tasks[step.task].Writing? && s.tasks[step.task].author.Silo?
    && Target(s.tasks[step.task].op) == id && Succeeds(s.table, s.tasks[step.task].op)
  }

  predicate DeadIn(t: Table, id: string) {
    id in t.rows && t.rows[id].status.Dead?
  }

  lemma FailureChangesNothing(t: Table, op: Op)
    ensures !Succeeds(t, op) ==> Perform(t, op) == t
  {
  }

  lemma StepGrows(cfg: Config, s: Sys, step: Step, id: string)
    requires cfg.Valid() && Inv(cfg, s) && !Overwrites(s, step, id)
    ensures Grows(s.table, Next(cfg, s, step).table, id)
  {
    hide MembershipTable.Perform, MembershipTable.Succeeds, RowOk, TaskOk, MembershipTable.TableOk;
    if step.Write? && step.task in s.tasks && s.tasks[step.task].Writing? {
      var op := s.tasks[step.task].op;
      FailureChangesNothing(s.table, op);
      PerformEvolves(s.table, op);
      WriteResult(cfg, s.table, s.tasks[step.task]);
      assert Find(s.table, id) == Find(Perform(s.table, op), id) || id == Target(op);
    }
  }

  /** A silo's successful write leaves its row gone or not DEAD. */
  lemma OverwriteRevives(cfg: Config, s: Sys, step: Step, id: string)
    requires Inv(cfg, s) && Overwrites(s, step, id)
    ensures !DeadIn(Next(cfg, s, step).table, id)
  {
    hide Identity.SiloId, MembershipTable.Stamp, MembershipTable.EtagOf, RowOk, MembershipTable.TableOk;
    assert TaskOk(cfg, s.table, s.tasks[step.task]);
  }

  /** In every run, a DEAD row is DEAD after the next step if and only if that step is not a successful write to it by
      silo start-up or shut-down code. */
  lemma DeadStaysIff(cfg: Config, steps: seq<Step>, step: Step, id: string)
    requires cfg.Valid() && DeadIn(Run(cfg, steps).table, id)
    ensures DeadIn(Run(cfg, steps + [step]).table, id) <==> !Overwrites(Run(cfg, steps), step, id)
  {
    hide Run, Next, Inv, Overwrites;
    RunKeepsInv(cfg, steps);
    RunAppend(cfg, steps, step);
    if Overwrites(Run(cfg, steps), step, id) {
      OverwriteRevives(cfg, Run(cfg, steps), step, id);
    } else {
      StepGrows(cfg, Run(cfg, steps), step, id);
    }
  }

  ghost predicate DeadThroughout(cfg: Config, steps: seq<Step>, i: nat, id: string) {
    forall n :: i <= n <= |steps| ==> DeadIn(Run(cfg, steps[..n]).table, id)
  }

  ghost predicate NeverOverwritten(cfg: Config, steps: seq<Step>, i: nat, id: string) {
    forall n :: i <= n < |steps| ==> !Overwrites(Run(cfg, steps[..n]), steps[n], id)
  }

  /** A row that is DEAD at some point of a run is DEAD at every later point if and only if no such write happens. */
  lemma {:induction false} DeadUntilOverwritten(cfg: Config, steps: seq<Step>, i: nat, id: string)
    requires cfg.Valid() && i <= |steps| && DeadIn(Run(cfg, steps[..i]).table, id)
    ensures DeadThroughout(cfg, steps, i, id) <==> NeverOverwritten(cfg, steps, i, id)
  {
    hide Run, Next, Overwrites, DeadIn;
    if i == |steps| {
      assert forall n :: i <= n <= |steps| ==> steps[..n] == steps[..i];
    } else {
      var last := |steps| - 1;
      var front := steps[..last];
      assert front[..i] == steps[..i] && front[..last] == front;
      assert front + [steps[last]] == steps && steps[..|steps|] == steps;
      assert forall n :: i <= n <= last ==> front[..n] == steps[..n];
      assert forall n :: i <= n < last ==> front[n] == steps[n];
      DeadUntilOverwritten(cfg, front, i, id);
      if DeadThroughout(cfg, front, i, id) {
        assert DeadIn(Run(cfg, front[..last]).table, id);
        DeadStaysIff(cfg, front, steps[last], id);
      }
      assert DeadThroughout(cfg, steps, i, id) <==>
             DeadThroughout(cfg, front, i, id) && DeadIn(Run(cfg, steps).table, id);
      assert NeverOverwritten(cfg, steps, i, id) <==>
             NeverOverwritten(cfg, front, i, id) && !Overwrites(Run(cfg, front), steps[last], id);
    }
  }

  /** Until such a write, a row's votes only grow at the end, and DEAD stays. */
  lemma {:induction false} VotesOnlyGrow(cfg: Config, steps: seq<Step>, i: nat, id: string)
    requires cfg.Valid() && i <= |steps| && NeverOverwritten(cfg, steps, i, id)
    ensures Grows(Run(cfg, steps[..i]).table, Run(cfg, steps).table, id)
  {
    hide Next, Inv, Overwrites;
    if i == |steps| {
      assert steps[..i] == steps;
    } else {
      var last := |steps| - 1;
      var front := steps[..last];
      assert front[..i] == steps[..i];
      assert forall n :: i <= n < last ==> front[..n] == steps[..n] && front[n] == steps[n];
      VotesOnlyGrow(cfg, front, i, id);
      RunKeepsInv(cfg, front);
      assert !Overwrites(Run(cfg, steps[..last]), steps[last], id);
      StepGrows(cfg, Run(cfg, front), steps[last], id);
    }
  }

  // ---- What silo start-up and shut-down may undo -------------------------------------------

  lemma RunAppend(cfg: Config, steps: seq<Step>, step: Step)
    ensures Run(cfg, steps + [step]) == Next(cfg, Run(cfg, steps), step)
  {
    hide Next;
    assert (steps + [step])[..|steps|] == steps;
  }

  /** A read written back before anything else happens. */
  lemma ReadAndWrite(cfg: Config, s: Sys, read: Step)
    requires !read.ProbeAnswered? && !read.Write? && read.task !in s.tasks
    requires var task := Started(cfg, s.table, read); task.Some? && task.value.Writing?
    ensures Next(cfg, Next(cfg, s, read), Write(read.task)) ==
            Sys(Perform(s.table, Started(cfg, s.table, read).value.op), s.tasks)
  {
    hide MembershipTable.Perform, Started;
    var task := Started(cfg, s.table, read).value;
    assert s.tasks[read.task := task] - {read.task} == s.tasks;
  }

  /** The row as an undisturbed heartbeat, shutdown or registration leaves it, but for its etag. */
  function Intended(read: Step, row: Option<SiloInfo>): Option<SiloInfo> {
    match read
    case ReadForHeartbeat(_, _, now) =>
      if row.None? then None else Some(row.value.(iAmAlive := now, lastHeartbeat := now))
    case ReadForShutdown(_, _) =>
      if row.None? then None else Some(row.value.(status := ShuttingDown))
    case ReadForRegister(_, address, clusterId, gatewayPort, now) =>
      Some(SiloInfo(address, Active, now, now, Some(clusterId), gatewayPort, 0, now, [], None))
    case _ => None
  }

  function RowOf(read: Step): string
    requires read.ReadForHeartbeat? || read.ReadForShutdown? || read.ReadForRegister? || read.ReadForDelete?
  {
    if read.ReadForRegister? then SiloId(read.address) else read.id
  }

  predicate SameButEtag(a: Option<SiloInfo>, b: Option<SiloInfo>) {
    if a.Some? && b.Some? then a.value == b.value.(etag := a.value.etag) else a == b
  }

  /** Undisturbed, the silo's own writers do to their row what they are for, and nothing to any other: a heartbeat
      stamps the times, a shutdown sets the status, a registration writes a fresh ACTIVE row and a deletion removes
      it. */
  lemma UndisturbedWrite(cfg: Config, s: Sys, read: Step)
    requires read.ReadForHeartbeat? || read.ReadForShutdown? || read.ReadForRegister? || read.ReadForDelete?
    requires TableOk(s.table) && read.task !in s.tasks
    ensures var s' := Next(cfg, Next(cfg, s, read), Write(read.task));
            && s'.tasks == s.tasks
            && SameButEtag(Find(s'.table, RowOf(read)), Intended(read, Find(s.table, RowOf(read))))
            && forall id :: id != RowOf(read) ==> Find(s'.table, id) == Find(s.table, id)
  {
    hide Identity.SiloId, MembershipTable.Stamp, MembershipTable.EtagOf;
    if Started(cfg, s.table, read).Some? {
      ReadAndWrite(cfg, s, read);
      PerformEvolves(s.table, Started(cfg, s.table, read).value.op);
    }
  }

  predicate Live(s: Sys, id: string) {
    s.tasks == map[] && TableOk(s.table) && id in s.table.rows && !s.table.rows[id].status.Dead?
  }

  function VotesAt(voters: seq<string>, now: real): seq<SuspicionVote> {
    seq(|voters|, i requires 0 <= i < |voters| => SuspicionVote(voters[i], now))
  }

  lemma VotersAt(cfg: Config, voters: seq<string>, now: real)
    requires cfg.Valid()
    ensures FreshVoters(cfg, VotesAt(voters, now), now) == Elements(voters)
  {
    var votes := VotesAt(voters, now);
    forall v
      ensures v in FreshVoters(cfg, votes, now) <==> v in voters
    {
      if v in voters {
        var i :| 0 <= i < |voters| && voters[i] == v;
        assert votes[i] in votes;
      }
    }
  }

  /** One more voter's steps: reading, and for the deciding vote an unanswered indirect probe, and writing. */
  function VoteSteps(cfg: Config, id: string, local: string, now: real, deciding: bool): seq<Step> {
    if deciding then [ReadForVote(1, local, id, now), ProbeAnswered(1, false), Write(1)]
    else [ReadForVote(1, local, id, now), Write(1)]
  }

  function From(cfg: Config, s: Sys, steps: seq<Step>): Sys {
    if steps == [] then s else Next(cfg, From(cfg, s, steps[..|steps| - 1]), steps[|steps| - 1])
  }

  lemma {:induction false} RunFrom(cfg: Config, before: seq<Step>, steps: seq<Step>)
    ensures Run(cfg, before + steps) == From(cfg, Run(cfg, before), steps)
  {
    hide Next, Run;
    if steps == [] {
      assert before + steps == before;
    } else {
      var front, last := steps[..|steps| - 1], steps[|steps| - 1];
      assert before + steps == (before + front) + [last];
      RunFrom(cfg, before, front);
      RunAppend(cfg, before + front, last);
    }
  }

  /** A new voter on an idle system adds its vote, and completes the quorum when it is the last one needed. */
  lemma OneMoreVote(cfg: Config, s: Sys, id: string, voters: seq<string>, local: string, now: real)
    requires cfg.Valid() && Live(s, id) && s.table.rows[id].suspicions == VotesAt(voters, now)
    requires Distinct(voters + [local]) && |voters| < cfg.votes
    ensures var deciding := |voters| + 1 == cfg.votes;
            var s' := From(cfg, s, VoteSteps(cfg, id, local, now, deciding));
            && s'.tasks == map[] && TableOk(s'.table) && id in s'.table.rows
            && s'.table.rows[id].suspicions == VotesAt(voters + [local], now)
            && (s'.table.rows[id].status.Dead? <==> deciding)
  {
    hide Identity.SiloId, MembershipTable.Stamp, MembershipTable.EtagOf, FreshVoters, From;
    hide MembershipTable.TableOk, MembershipTable.Perform;
    var row, vote := s.table.rows[id], SuspicionVote(local, now);
    var deciding := |voters| + 1 == cfg.votes;
    VoterIsNew(cfg, voters, local, now);
    assert PlanVote(cfg, local, Some(row), now) == Cast(vote, deciding);
    assert VotesAt(voters + [local], now) == VotesAt(voters, now) + [vote];
    var read := ReadForVote(1, local, id, now);
    var op := VoteOp(id, row, vote, deciding);
    VoteWritten(s.table, id, row, vote, deciding);
    PerformEvolves(s.table, op);
    var s1 := Next(cfg, s, read);
    if deciding {
      assert s1.tasks == map[1 := Probing(id, row, vote)];
      var s2 := Next(cfg, s1, ProbeAnswered(1, false));
      assert s2.tasks == map[1 := Writing(Detector, Some(row), op)] && s2.table == s.table;
      assert map[1 := s2.tasks[1]] - {1} == map[];
      ThreeSteps(cfg, s, read, ProbeAnswered(1, false), Write(1));
    } else {
      assert s1.tasks == map[1 := Writing(Detector, Some(row), op)] && s1.table == s.table;
      assert map[1 := s1.tasks[1]] - {1} == map[];
      TwoSteps(cfg, s, read, Write(1));
    }
  }

  lemma VoterIsNew(cfg: Config, voters: seq<string>, local: string, now: real)
    requires cfg.Valid() && Distinct(voters + [local])
    ensures var counted := FreshVoters(cfg, VotesAt(voters, now), now);
            local !in counted && |counted + {local}| == |voters| + 1
  {
    var all := voters + [local];
    VotersAt(cfg, voters, now);
    assert Distinct(voters) by {
      assert forall i :: 0 <= i < |voters| ==> all[i] == voters[i];
    }
    DistinctCount(voters);
    assert forall i :: 0 <= i < |voters| ==> voters[i] == all[i] && all[i] != all[|voters|];
    assert local !in voters;
  }

  /** What the vote call leaves in the row it read. */
  lemma VoteWritten(t: Table, id: string, row: SiloInfo, vote: SuspicionVote, declare: bool)
    requires TableOk(t) && id in t.rows && t.rows[id] == row
    ensures var t' := Perform(t, VoteOp(id, row, vote, declare));
            && id in t'.rows && t'.rows[id].suspicions == row.suspicions + [vote]
            && t'.rows[id].status == if declare then Dead else row.status
  {
    hide Identity.SiloId, MembershipTable.Stamp, MembershipTable.EtagOf;
  }

  lemma TwoSteps(cfg: Config, s: Sys, a: Step, b: Step)
    ensures From(cfg, s, [a, b]) == Next(cfg, Next(cfg, s, a), b)
  {
    hide Next;
    assert [a, b][..1] == [a] && [a][..0] == [];
    LastStep(cfg, s, [a]);
    LastStep(cfg, s, [a, b]);
  }

  lemma ThreeSteps(cfg: Config, s: Sys, a: Step, b: Step, c: Step)
    ensures From(cfg, s, [a, b, c]) == Next(cfg, Next(cfg, Next(cfg, s, a), b), c)
  {
    hide Next, From;
    assert [a, b, c][..2] == [a, b];
    TwoSteps(cfg, s, a, b);
    LastStep(cfg, s, [a, b, c]);
  }

  lemma LastStep(cfg: Config, s: Sys, steps: seq<Step>)
    requires steps != []
    ensures From(cfg, s, steps) == Next(cfg, From(cfg, s, steps[..|steps| - 1]), steps[|steps| - 1])
  {
  }

  /** All of `voters` in turn. */
  function CampaignSteps(cfg: Config, id: string, voters: seq<string>, now: real): seq<Step> {
    if voters == [] then []
    else
      var last := VoteSteps(cfg, id, voters[|voters| - 1], now, |voters| == cfg.votes);
      CampaignSteps(cfg, id, voters[..|voters| - 1], now) + last
  }

  lemma {:induction false} Campaign(cfg: Config, before: seq<Step>, id: string, voters: seq<string>, now: real)
    requires cfg.Valid() && Distinct(voters) && |voters| <= cfg.votes
    requires Live(Run(cfg, before), id) && Run(cfg, before).table.rows[id].suspicions == []
    ensures var s := Run(cfg, before + CampaignSteps(cfg, id, voters, now));
            && s.tasks == map[] && TableOk(s.table) && id in s.table.rows
            && s.table.rows[id].suspicions == VotesAt(voters, now)
            && (s.table.rows[id].status.Dead? <==> |voters| == cfg.votes)
  {
    hide Run, From, VoteSteps, MembershipTable.TableOk;
    if voters == [] {
      assert before + CampaignSteps(cfg, id, voters, now) == before;
    } else {
      var front, last := voters[..|voters| - 1], voters[|voters| - 1];
      assert front + [last] == voters;
      Campaign(cfg, before, id, front, now);
      var there := before + CampaignSteps(cfg, id, front, now);
      var steps := VoteSteps(cfg, id, last, now, |voters| == cfg.votes);
      OneMoreVote(cfg, Run(cfg, there), id, front, last, now);
      RunFrom(cfg, there, steps);
      assert before + CampaignSteps(cfg, id, voters, now) == there + steps;
    }
  }

  /** DEAD is not final, whatever the quorum: any silos enough for it can declare a death that the silo's own shutdown,
      reading it, then overwrites. */
  lemma DeadCanRevert(cfg: Config, address: SiloAddress, voters: seq<string>, now: real)
    returns (steps: seq<Step>, n: nat)
    requires cfg.Valid() && Distinct(voters) && |voters| == cfg.votes
    ensures n <= |steps| && DeadIn(Run(cfg, steps[..n]).table, SiloId(address))
    ensures var t := Run(cfg, steps).table; SiloId(address) in t.rows && t.rows[SiloId(address)].status.ShuttingDown?
  {
    hide Identity.SiloId, MembershipTable.Stamp, MembershipTable.EtagOf, MembershipTable.TableOk, Next, PlanVote;
    var id := SiloId(address);
    var register := ReadForRegister(0, address, "", None, now);
    var shutdown := ReadForShutdown(2, id);
    EmptyRun(cfg);
    ReadAndWrite(cfg, INITIAL, register);
    RunAppend(cfg, [], register);
    RunAppend(cfg, [register], Write(0));
    PerformEvolves(EMPTY, Update(Registration(register, None)));
    var born := [register, Write(0)];
    assert [] + [register] == [register] && [register] + [Write(0)] == born;
    Campaign(cfg, born, id, voters, now);
    var dead := born + CampaignSteps(cfg, id, voters, now);
    ReadAndWrite(cfg, Run(cfg, dead), shutdown);
    ShutdownWritten(Run(cfg, dead).table, id);
    RunAppend(cfg, dead, shutdown);
    RunAppend(cfg, dead + [shutdown], Write(2));
    steps, n := dead + [shutdown] + [Write(2)], |dead|;
    assert steps[..n] == dead;
  }

  lemma ShutdownWritten(t: Table, id: string)
    requires TableOk(t) && id in t.rows
    ensures var t' := Perform(t, Update(t.rows[id].(status := ShuttingDown)));
            id in t'.rows && t'.rows[id].status.ShuttingDown?
  {
    hide Identity.SiloId, MembershipTable.Stamp, MembershipTable.EtagOf;
  }

  lemma EmptyRun(cfg: Config)
    ensures Run(cfg, []) == INITIAL && TableOk(INITIAL.table)
  {
  }
}
