/** Vote drives of detector objects inside runs of the interleaved system.

    A drive of `FailureDetector.Detector` reads and writes the shared table while others work on it. When what the
    others do are steps of the system, the drive is steps of the system too, so whatever holds in every run of
    `Voting` holds of the table the object leaves. */
module VoteDrives {
  import opened Wrappers
  import opened MembershipTable
  import opened Voting
  import opened FailureDetector

  /** One attempt by one detector, with the system's steps before its read and between its read and its write. */
  datatype Round = Round(local: string, peer: string, before: seq<Step>, mid: seq<Step>, attempt: Attempt)

  predicate Avoids(steps: seq<Step>, k: nat) {
    forall step :: step in steps ==> step.task != k
  }

  /** What the attempt was told of the others' writes is what the steps do to the table. */
  ghost predicate Realizes(cfg: Config, s: Sys, round: Round) {
    var atRead := From(cfg, s, round.before);
    && PerformAll(s.table, round.attempt.before) == atRead.table
    && PerformAll(atRead.table, round.attempt.between) == From(cfg, atRead, round.mid).table
  }

  /** The steps the round adds, the detector's own being those of task `k`. */
  function Activity(cfg: Config, s: Sys, round: Round, k: nat): seq<Step> {
    var a := round.attempt;
    var plan := PlanVote(cfg, round.local, Find(From(cfg, s, round.before).table, round.peer), a.now);
    if a.readDown || !plan.Cast? then round.before
    else if a.writeDown then round.before + round.mid
    else
      var own := [ProbeAnswered(k, a.alive), Write(k)];
      round.before + ([ReadForVote(k, round.local, round.peer, a.now)] + (round.mid + own))
  }

  lemma {:induction false} FromTwice(cfg: Config, s: Sys, xs: seq<Step>, ys: seq<Step>)
    ensures From(cfg, s, xs + ys) == From(cfg, From(cfg, s, xs), ys)
  {
    hide Next;
    if ys == [] {
      assert xs + ys == xs;
    } else {
      var front, last := ys[..|ys| - 1], ys[|ys| - 1];
      assert (xs + ys)[..|xs + ys| - 1] == xs + front;
      FromTwice(cfg, s, xs, front);
    }
  }

  function With(s: Sys, k: nat, task: Task): Sys {
    s.(tasks := s.tasks[k := task])
  }

  /** A task that does nothing is in nobody's way. */
  lemma NextWith(cfg: Config, s: Sys, step: Step, k: nat, task: Task)
    requires step.task != k && k !in s.tasks
    ensures Next(cfg, With(s, k, task), step) == With(Next(cfg, s, step), k, task)
    ensures k !in Next(cfg, s, step).tasks
  {
    hide MembershipTable.Perform, Started;
    var j: nat := step.task;
    assert s.tasks[k := task] - {j} == (s.tasks - {j})[k := task];
    if step.ProbeAnswered? && j in s.tasks && s.tasks[j].Probing? {
      var w := Next(cfg, s, step).tasks[j];
      assert s.tasks[k := task][j := w] == s.tasks[j := w][k := task];
    } else if !step.ProbeAnswered? && !step.Write? && Started(cfg, s.table, step).Some? {
      var w := Started(cfg, s.table, step).value;
      assert s.tasks[k := task][j := w] == s.tasks[j := w][k := task];
    }
  }

  lemma {:induction false} FromWith(cfg: Config, s: Sys, steps: seq<Step>, k: nat, task: Task)
    requires Avoids(steps, k) && k !in s.tasks
    ensures From(cfg, With(s, k, task), steps) == With(From(cfg, s, steps), k, task)
    ensures k !in From(cfg, s, steps).tasks
  {
    hide Next, With;
    if steps != [] {
      var front, last := steps[..|steps| - 1], steps[|steps| - 1];
      FromWith(cfg, s, front, k, task);
      NextWith(cfg, From(cfg, s, front), last, k, task);
    }
  }

  /** The attempt's own steps end with its table, and its task is over. */
  lemma OwnSteps(cfg: Config, s: Sys, round: Round, k: nat)
    requires k !in s.tasks && Avoids(round.mid, k) && !round.attempt.readDown && !round.attempt.writeDown
    requires round.before == [] && round.attempt.before == [] && Realizes(cfg, s, round)
    requires PlanVote(cfg, round.local, Find(s.table, round.peer), round.attempt.now).Cast?
    ensures var a := round.attempt;
            var read := ReadForVote(k, round.local, round.peer, a.now);
            var s' := From(cfg, s, [read] + (round.mid + [ProbeAnswered(k, a.alive), Write(k)]));
            s'.table == Attempted(cfg, round.local, round.peer, s.table, a).after && k !in s'.tasks
  {
    hide PlanVote, MembershipTable.Perform, From, VoteOp;
    var a := round.attempt;
    var read := ReadForVote(k, round.local, round.peer, a.now);
    var plan := PlanVote(cfg, round.local, Find(s.table, round.peer), a.now);
    PlanSees(cfg, round.local, Find(s.table, round.peer), a.now);
    var seen := s.table.rows[round.peer];
    var task := if plan.deciding then Probing(round.peer, seen, plan.vote)
                else Writing(Detector, Some(seen), VoteOp(round.peer, seen, plan.vote, false));
    NoSteps(cfg, s);
    Single(cfg, s, read);
    assert Next(cfg, s, read) == With(s, k, task);
    FromWith(cfg, s, round.mid, k, task);
    var own := [ProbeAnswered(k, a.alive), Write(k)];
    var mid := From(cfg, s, round.mid);
    FromTwice(cfg, s, [read], round.mid + own);
    FromTwice(cfg, With(s, k, task), round.mid, own);
    TwoSteps(cfg, With(mid, k, task), ProbeAnswered(k, a.alive), Write(k));
  }

  lemma PlanSees(cfg: Config, local: string, seen: Option<SiloInfo>, now: real)
    ensures PlanVote(cfg, local, seen, now).Cast? ==> seen.Some?
  {
  }

  lemma NoSteps(cfg: Config, s: Sys)
    ensures From(cfg, s, []) == s
  {
  }

  lemma Single(cfg: Config, s: Sys, step: Step)
    ensures From(cfg, s, [step]) == Next(cfg, s, step)
  {
    hide Next;
    assert [step][..0] == [];
    LastStep(cfg, s, [step]);
  }

  lemma RoundIsRun(cfg: Config, s: Sys, round: Round, k: nat)
    requires k !in s.tasks && Avoids(round.before, k) && Avoids(round.mid, k) && Realizes(cfg, s, round)
    ensures var s' := From(cfg, s, Activity(cfg, s, round, k));
            && s'.table == Attempted(cfg, round.local, round.peer, s.table, round.attempt).after
            && k !in s'.tasks
  {
    hide Next, PlanVote, From;
    var a := round.attempt;
    var idle := Probing("", Anybody(), SuspicionVote("", 0.0));
    FromWith(cfg, s, round.before, k, idle);
    var atRead := From(cfg, s, round.before);
    var plan := PlanVote(cfg, round.local, Find(atRead.table, round.peer), a.now);
    FromTwice(cfg, s, round.before, round.mid);
    if !a.readDown && plan.Cast? {
      FromWith(cfg, atRead, round.mid, k, idle);
      if !a.writeDown {
        var rest := round.(before := [], attempt := a.(before := []));
        NoSteps(cfg, atRead);
        OwnSteps(cfg, atRead, rest, k);
        var own := [ProbeAnswered(k, a.alive), Write(k)];
        FromTwice(cfg, s, round.before, [ReadForVote(k, round.local, round.peer, a.now)] + (round.mid + own));
      }
    }
  }

  function Anybody(): SiloInfo {
    SiloInfo(Identity.SiloAddress("", 0, 0), Active, 0.0, 0.0, None, None, 0, 0.0, [], None)
  }

  // ---- Any number of rounds -----------------------------------------------------------

  function Story(cfg: Config, s: Sys, rounds: seq<Round>, k: nat): seq<Step> {
    if rounds == [] then []
    else
      var front := Story(cfg, s, rounds[..|rounds| - 1], k);
      front + Activity(cfg, From(cfg, s, front), rounds[|rounds| - 1], k)
  }

  ghost predicate AllRealize(cfg: Config, s: Sys, rounds: seq<Round>, k: nat) {
    rounds == [] ||
    (var front, last := rounds[..|rounds| - 1], rounds[|rounds| - 1];
     && AllRealize(cfg, s, front, k) && Avoids(last.before, k) && Avoids(last.mid, k)
     && Realizes(cfg, From(cfg, s, Story(cfg, s, front, k)), last))
  }

  /** The table the objects leave. */
  function TableAfter(cfg: Config, t: Table, rounds: seq<Round>): Table {
    if rounds == [] then t
    else
      var last := rounds[|rounds| - 1];
      Attempted(cfg, last.local, last.peer, TableAfter(cfg, t, rounds[..|rounds| - 1]), last.attempt).after
  }

  lemma {:induction false} RoundsAreSteps(cfg: Config, s: Sys, rounds: seq<Round>, k: nat)
    requires k !in s.tasks && AllRealize(cfg, s, rounds, k)
    ensures var s' := From(cfg, s, Story(cfg, s, rounds, k));
            s'.table == TableAfter(cfg, s.table, rounds) && k !in s'.tasks
  {
    hide From, Activity, Attempted, Realizes;
    if rounds == [] {
      NoSteps(cfg, s);
    } else {
      var front, last := rounds[..|rounds| - 1], rounds[|rounds| - 1];
      RoundsAreSteps(cfg, s, front, k);
      var there := From(cfg, s, Story(cfg, s, front, k));
      RoundIsRun(cfg, there, last, k);
      FromTwice(cfg, s, Story(cfg, s, front, k), Activity(cfg, there, last, k));
    }
  }

  /** Any number of attempts by detector objects, among any steps of the others, leave the table of a run. */
  lemma AttemptsAreRuns(cfg: Config, steps: seq<Step>, rounds: seq<Round>, k: nat)
    requires k !in Run(cfg, steps).tasks && AllRealize(cfg, Run(cfg, steps), rounds, k)
    ensures var s := Run(cfg, steps);
            Run(cfg, steps + Story(cfg, s, rounds, k)).table == TableAfter(cfg, s.table, rounds)
  {
    hide Run, From, Story, TableAfter, AllRealize;
    RoundsAreSteps(cfg, Run(cfg, steps), rounds, k);
    RunFrom(cfg, steps, Story(cfg, Run(cfg, steps), rounds, k));
  }

  /** The attempts of a drive are rounds. */
  lemma {:induction false} DriveIsRounds(cfg: Config, local: string, peer: string, t: Table, script: seq<Attempt>,
                                         effects: seq<Effect>, rounds: seq<Round>)
    requires Drive(cfg, local, peer, t, script, effects) && |rounds| == |effects|
    requires forall i :: 0 <= i < |rounds| ==>
               rounds[i].local == local && rounds[i].peer == peer && rounds[i].attempt == script[i]
    ensures TableAfter(cfg, t, rounds) == Before(t, effects, |effects|)
  {
    hide Attempted, Drive;
    if effects != [] {
      DriveFront(cfg, local, peer, t, script, effects);
      DriveIsRounds(cfg, local, peer, t, script, effects[..|effects| - 1], rounds[..|rounds| - 1]);
    }
  }

  lemma DriveFront(cfg: Config, local: string, peer: string, t: Table, script: seq<Attempt>, effects: seq<Effect>)
    requires Drive(cfg, local, peer, t, script, effects) && effects != []
    ensures var n := |effects| - 1;
            && n < |script| && Drive(cfg, local, peer, t, script, effects[..n])
            && effects[n] == Attempted(cfg, local, peer, Before(t, effects[..n], n), script[n])
  {
    hide Attempted;
    var n := |effects| - 1;
    assert forall i :: 0 <= i <= n ==> Before(t, effects[..n], i) == Before(t, effects, i);
  }

  /** So a row that is DEAD in the table a vote drive leaves carries its quorum. */
  lemma DrivenDeathsCarryQuorum(cfg: Config, steps: seq<Step>, local: string, peer: string, script: seq<Attempt>,
                                effects: seq<Effect>, rounds: seq<Round>, k: nat, id: string)
    requires cfg.Valid() && k !in Run(cfg, steps).tasks && AllRealize(cfg, Run(cfg, steps), rounds, k)
    requires Drive(cfg, local, peer, Run(cfg, steps).table, script, effects) && |rounds| == |effects|
    requires forall i :: 0 <= i < |rounds| ==>
               rounds[i].local == local && rounds[i].peer == peer && rounds[i].attempt == script[i]
    requires DeadIn(Before(Run(cfg, steps).table, effects, |effects|), id)
    ensures Quorum(cfg, Before(Run(cfg, steps).table, effects, |effects|).rows[id].suspicions)
  {
    hide Run, Story, TableAfter, AllRealize, Quorum, Drive;
    AttemptsAreRuns(cfg, steps, rounds, k);
    DriveIsRounds(cfg, local, peer, Run(cfg, steps).table, script, effects, rounds);
    DeadCarriesQuorum(cfg, steps + Story(cfg, Run(cfg, steps), rounds, k), id);
  }
}
