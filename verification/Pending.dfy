/** The registry of outstanding requests (`pyleans/transport/tcp/pending.py`).

    Futures and timer handles are numbered in the order they are created; `Registry` is the value
    of a `PendingRequests` object together with the futures and timers it has handed out. */
module Pending {
  import opened Wrappers
  import opened Wire

  /** How many ids there are: 1 up to 2^64 - 1. */
  const ID_COUNT: nat := UINT64_MAX

  datatype Failure = TimedOut(id: nat) | Raised(text: string)

  /** Of a future: still waiting, settled by the registry, or cancelled by its caller. */
  datatype FutureState = Waiting | Completed(header: seq<byte>, body: seq<byte>) | Failed(error: Failure) | Abandoned

  datatype TimerState = Armed | Disarmed | Fired

  /** `request` is the request the timer was armed for; its callback knows only the id. */
  datatype Timer = Timer(id: nat, request: nat, state: TimerState)

  datatype Registry = Registry(
    nextId: nat,
    pending: map<nat, nat>,
    timeouts: map<nat, nat>,
    futures: seq<FutureState>,
    timers: seq<Timer>)

  const EMPTY := Registry(1, map[], map[], [], [])

  datatype Op =
    | AllocateOp(timed: bool)
    | CompleteOp(id: nat, header: seq<byte>, body: seq<byte>)
    | FailOp(id: nat, error: Failure)
    | FailAllOp(error: Failure)
    | DiscardOp(id: nat)
    | FireOp(timer: nat)
    | CancelOp(future: nat)

  function NextId(id: nat): nat {
    if id + 1 > UINT64_MAX then 1 else id + 1
  }

  /** The id of the `k`-th request. */
  function IdOf(k: nat): nat {
    1 + k % ID_COUNT
  }

  function Settle(futures: seq<FutureState>, k: nat, outcome: FutureState): seq<FutureState> {
    if k < |futures| && futures[k].Waiting? then futures[k := outcome] else futures
  }

  function SetTimer(timers: seq<Timer>, t: nat, state: TimerState): seq<Timer> {
    if t < |timers| then timers[t := timers[t].(state := state)] else timers
  }

  function CancelTimeout(r: Registry, id: nat): Registry {
    if id in r.timeouts then
      r.(timeouts := r.timeouts - {id}, timers := SetTimer(r.timers, r.timeouts[id], Disarmed))
    else r
  }

  function PopAndSettle(r: Registry, id: nat, outcome: FutureState): Registry {
    if id in r.pending then
      r.(pending := r.pending - {id}, futures := Settle(r.futures, r.pending[id], outcome))
    else r
  }

  function Entered(r: Registry): Registry {
    r.(nextId := NextId(r.nextId), pending := r.pending[r.nextId := |r.futures|], futures := r.futures + [Waiting])
  }

  function WithTimer(r: Registry, id: nat, request: nat): Registry {
    r.(timeouts := r.timeouts[id := |r.timers|], timers := r.timers + [Timer(id, request, Armed)])
  }

  function Allocate(r: Registry, timed: bool): Registry {
    if timed then WithTimer(Entered(r), r.nextId, |r.futures|) else Entered(r)
  }

  function FailThese(futures: seq<FutureState>, ks: set<nat>, error: Failure): seq<FutureState> {
    seq(|futures|, k requires 0 <= k < |futures| =>
      if k in ks && futures[k].Waiting? then Failed(error) else futures[k])
  }

  function DisarmThese(timers: seq<Timer>, ts: set<nat>): seq<Timer> {
    seq(|timers|, t requires 0 <= t < |timers| =>
      if t in ts then timers[t].(state := Disarmed) else timers[t])
  }

  function FailAll(r: Registry, error: Failure): Registry {
    r.(pending := map[], timeouts := map[],
       futures := FailThese(r.futures, r.pending.Values, error),
       timers := DisarmThese(r.timers, r.timeouts.Values))
  }

  function Marked(r: Registry, t: nat, id: nat): Registry {
    r.(timers := SetTimer(r.timers, t, Fired), timeouts := r.timeouts - {id})
  }

  /** The event loop runs a timer's callback. */
  function Fire(r: Registry, t: nat): Registry {
    if t < |r.timers| && r.timers[t].state.Armed? then
      var id := r.timers[t].id;
      PopAndSettle(Marked(r, t, id), id, Failed(TimedOut(id)))
    else r
  }

  function Apply(r: Registry, op: Op): Registry {
    match op
    case AllocateOp(timed) => Allocate(r, timed)
    case CompleteOp(id, header, body) => PopAndSettle(CancelTimeout(r, id), id, Completed(header, body))
    case FailOp(id, error) => PopAndSettle(CancelTimeout(r, id), id, Failed(error))
    case FailAllOp(error) => FailAll(r, error)
    case DiscardOp(id) => CancelTimeout(r, id).(pending := r.pending - {id})
    case FireOp(t) => Fire(r, t)
    case CancelOp(k) => r.(futures := Settle(r.futures, k, Abandoned))
  }

  function Run(ops: seq<Op>): Registry {
    if ops == [] then EMPTY else Apply(Run(ops[..|ops| - 1]), ops[|ops| - 1])
  }

  // ---- Invariants of every run --------------------------------------------------------

  predicate PendingOk(r: Registry) {
    forall id :: id in r.pending ==> PendingAt(r, id, r.pending[id])
  }

  /** `k` is the latest request with this id, and nobody but its caller has settled it. */
  predicate PendingAt(r: Registry, id: nat, k: nat) {
    && k < |r.futures| <= k + ID_COUNT && IdOf(k) == id
    && (r.futures[k].Waiting? || r.futures[k].Abandoned?)
  }

  predicate TimeoutAt(r: Registry, id: nat, t: nat) {
    t < |r.timers| && r.timers[t].id == id && r.timers[t].state.Armed? && id in r.pending
  }

  predicate TimeoutsOk(r: Registry) {
    forall id :: id in r.timeouts ==> TimeoutAt(r, id, r.timeouts[id])
  }

  predicate Valid(r: Registry) {
    r.nextId == IdOf(|r.futures|) && PendingOk(r) && TimeoutsOk(r)
  }

  lemma IdsCycle(k: nat)
    ensures 1 <= IdOf(k) <= UINT64_MAX && NextId(IdOf(k)) == IdOf(k + 1)
  {
  }

  lemma SameIdApart(j: nat, k: nat)
    requires j < k && IdOf(j) == IdOf(k)
    ensures k - j >= ID_COUNT
  {
  }

  lemma AllocateKeepsPending(r: Registry, timed: bool)
    requires Valid(r)
    ensures PendingOk(Allocate(r, timed)) && Allocate(r, timed).nextId == IdOf(|r.futures| + 1)
  {
    hide IdOf;
    IdsCycle(|r.futures|);
    var r' := Allocate(r, timed);
    forall id | id in r'.pending
      ensures PendingAt(r', id, r'.pending[id])
    {
      if id != r.nextId && |r.futures| == r.pending[id] + ID_COUNT {
        IdsRepeat(r.pending[id]);
      }
    }
  }

  lemma IdsRepeat(k: nat)
    ensures IdOf(k + ID_COUNT) == IdOf(k)
  {
  }

  lemma CancelKeepsValid(r: Registry, id: nat)
    requires Valid(r)
    ensures Valid(CancelTimeout(r, id)) && id !in CancelTimeout(r, id).timeouts
  {
    hide IdOf;
  }

  lemma PopKeepsValid(r: Registry, id: nat, outcome: FutureState)
    requires Valid(r) && id !in r.timeouts
    ensures Valid(PopAndSettle(r, id, outcome)) && Valid(r.(pending := r.pending - {id}))
  {
    hide IdOf;
    var r' := PopAndSettle(r, id, outcome);
    forall i | i in r'.pending
      ensures PendingAt(r', i, r'.pending[i])
    {
      assert PendingAt(r, i, r.pending[i]);
      assert id in r.pending ==> PendingAt(r, id, r.pending[id]);
    }
  }

  lemma FireKeepsValid(r: Registry, t: nat)
    requires Valid(r)
    ensures Valid(Fire(r, t))
  {
    hide IdOf, PopAndSettle, PendingAt;
    if t < |r.timers| && r.timers[t].state.Armed? {
      var id := r.timers[t].id;
      var mid := Marked(r, t, id);
      assert PendingOk(mid) by {
        SamePending(r, mid);
      }
      PopKeepsValid(mid, id, Failed(TimedOut(id)));
    }
  }

  lemma SamePending(r: Registry, r': Registry)
    requires PendingOk(r) && r'.pending == r.pending && r'.futures == r.futures
    ensures PendingOk(r')
  {
    hide IdOf;
    forall id | id in r.pending
      ensures PendingAt(r', id, r.pending[id])
    {
      assert PendingAt(r, id, r.pending[id]);
    }
  }

  lemma ApplyKeepsValid(r: Registry, op: Op)
    requires Valid(r)
    ensures Valid(Apply(r, op))
  {
    hide IdOf, PopAndSettle, CancelTimeout;
    match op
    case AllocateOp(timed) => AllocateKeepsPending(r, timed);
    case CompleteOp(id, header, body) =>
      CancelKeepsValid(r, id);
      PopKeepsValid(CancelTimeout(r, id), id, Completed(header, body));
    case FailOp(id, error) =>
      CancelKeepsValid(r, id);
      PopKeepsValid(CancelTimeout(r, id), id, Failed(error));
    case DiscardOp(id) =>
      CancelKeepsValid(r, id);
      SameKeys(r, id);
      PopKeepsValid(CancelTimeout(r, id), id, Waiting);
    case FireOp(t) => FireKeepsValid(r, t);
    case FailAllOp(_) =>
    case CancelOp(_) =>
  }

  lemma SameKeys(r: Registry, id: nat)
    ensures CancelTimeout(r, id).pending == r.pending && CancelTimeout(r, id).futures == r.futures
  {
  }

  /** In every run: ids are handed out in rotation within 1..2^64-1, a pending id belongs to the latest request that
      got it, and timers in the table are armed and belong to pending ids. */
  lemma {:induction false} RunIsValid(ops: seq<Op>)
    ensures Valid(Run(ops)) && 1 <= Run(ops).nextId <= UINT64_MAX && Run(ops).timeouts.Keys <= Run(ops).pending.Keys
  {
    hide Apply;
    if ops == [] {
    } else {
      RunIsValid(ops[..|ops| - 1]);
      ApplyKeepsValid(Run(ops[..|ops| - 1]), ops[|ops| - 1]);
    }
    IdsCycle(|Run(ops).futures|);
  }

  // ---- What becomes of a future ---------------------------------------------------------

  predicate IsPending(r: Registry, k: nat) {
    IdOf(k) in r.pending && r.pending[IdOf(k)] == k
  }

  /** This operation, in this state, settles the `k`-th future this way. */
  predicate Settles(r: Registry, op: Op, k: nat, outcome: FutureState) {
    match op
    case CompleteOp(id, header, body) => id == IdOf(k) && IsPending(r, k) && outcome == Completed(header, body)
    case FailOp(id, error) => id == IdOf(k) && IsPending(r, k) && outcome == Failed(error)
    case FailAllOp(error) => IsPending(r, k) && outcome == Failed(error)
    case FireOp(t) =>
      && t < |r.timers| && r.timers[t].id == IdOf(k) && r.timers[t].state.Armed?
      && IsPending(r, k) && outcome == Failed(TimedOut(IdOf(k)))
    case CancelOp(f) => f == k && outcome == Abandoned
    case _ => false
  }

  /** This operation, in this state, drops the `k`-th request from the registry without settling it: the caller
      discards it, or its id comes round again 2^64 - 1 allocations later while it is still live. */
  predicate Drops(r: Registry, op: Op, k: nat) {
    IsPending(r, k) && (op == DiscardOp(IdOf(k)) || (op.AllocateOp? && |r.futures| == k + ID_COUNT))
  }

  /** A settled future stays as it is; a waiting one is settled exactly by the ways above, with their outcomes, and
      otherwise waits on; and a waiting one is dropped in one of two ways or remains pending. */
  ghost predicate Fate(r: Registry, op: Op, k: nat, r': Registry)
    requires k < |r.futures|
  {
    && k < |r'.futures|
    && (!r.futures[k].Waiting? ==> r'.futures[k] == r.futures[k])
    && (r.futures[k].Waiting? && !r'.futures[k].Waiting? ==> Settles(r, op, k, r'.futures[k]))
    && (forall outcome :: r.futures[k].Waiting? && Settles(r, op, k, outcome) ==> r'.futures[k] == outcome)
    && (r'.futures[k].Waiting? ==> (IsPending(r', k) <==> IsPending(r, k) && !Drops(r, op, k)))
  }

  lemma StepFate(r: Registry, op: Op, k: nat)
    requires Valid(r) && k < |r.futures|
    ensures Fate(r, op, k, Apply(r, op))
  {
    if op.AllocateOp? {
      hide IdOf;
      AllocateReuses(r, op.timed, k);
    } else if op.FailAllOp? {
      FailAllFate(r, op.error, k);
    } else {
      OneFate(r, op, k);
    }
  }

  lemma FailAllFate(r: Registry, error: Failure, k: nat)
    requires Valid(r) && k < |r.futures|
    ensures Fate(r, FailAllOp(error), k, FailAll(r, error))
  {
    hide IdOf;
    assert forall id :: id in r.pending ==> PendingAt(r, id, r.pending[id]);
  }

  /** Popping an id settles the request pending under it, if it waits, and no other. */
  lemma PopFate(r: Registry, mid: Registry, id: nat, outcome: FutureState, k: nat)
    requires PendingOk(r) && mid.pending == r.pending && mid.futures == r.futures && k < |r.futures|
    ensures var r' := PopAndSettle(mid, id, outcome);
            && |r'.futures| == |r.futures|
            && (if id == IdOf(k) && IsPending(r, k)
                then !IsPending(r', k) && r'.futures[k] == (if r.futures[k].Waiting? then outcome else r.futures[k])
                else (IsPending(r', k) <==> IsPending(r, k)) && r'.futures[k] == r.futures[k])
  {
    hide IdOf;
    assert id in r.pending ==> PendingAt(r, id, r.pending[id]);
    hide PendingOk;
  }

  lemma OneFate(r: Registry, op: Op, k: nat)
    requires Valid(r) && k < |r.futures| && !op.AllocateOp? && !op.FailAllOp?
    ensures Fate(r, op, k, Apply(r, op))
  {
    hide IdOf, TimeoutsOk, PendingOk, PopAndSettle, SetTimer;
    match op
    case CompleteOp(id, header, body) =>
      SameKeys(r, id);
      PopFate(r, CancelTimeout(r, id), id, Completed(header, body), k);
    case FailOp(id, error) =>
      SameKeys(r, id);
      PopFate(r, CancelTimeout(r, id), id, Failed(error), k);
    case FireOp(t) =>
      if t < |r.timers| && r.timers[t].state.Armed? {
        var id := r.timers[t].id;
        PopFate(r, Marked(r, t, id), id, Failed(TimedOut(id)), k);
      }
    case DiscardOp(id) =>
      SameKeys(r, id);
    case CancelOp(_) =>
  }

  /** The next id is taken exactly when a live request is 2^64 - 1 allocations old. */
  lemma AllocateReuses(r: Registry, timed: bool, k: nat)
    requires Valid(r) && k < |r.futures|
    ensures IsPending(r, k) ==> (r.nextId == IdOf(k) <==> |r.futures| == k + ID_COUNT)
  {
    if IsPending(r, k) {
      assert PendingAt(r, IdOf(k), k);
      if r.nextId == IdOf(k) {
        SameIdApart(k, |r.futures|);
      }
      IdsRepeat(k);
    }
  }

  lemma {:induction false} RunGrows(ops: seq<Op>, more: seq<Op>, k: nat)
    requires k < |Run(ops).futures|
    ensures k < |Run(ops + more).futures|
    ensures !Run(ops).futures[k].Waiting? ==> Run(ops + more).futures[k] == Run(ops).futures[k]
  {
    hide Run, Apply, Settles, Drops, IsPending, Valid;
    if more == [] {
      assert ops + more == ops;
    } else {
      var front, last := more[..|more| - 1], more[|more| - 1];
      RunGrows(ops, front, k);
      RunIsValid(ops + front);
      RunAppend(ops + front, last);
      assert ops + more == (ops + front) + [last];
      StepFate(Run(ops + front), last, k);
    }
  }

  lemma RunAppend(ops: seq<Op>, op: Op)
    ensures Run(ops + [op]) == Apply(Run(ops), op)
  {
    hide Apply;
    assert (ops + [op])[..|ops|] == ops;
  }

  /** An operation meant for a waiting future settles it with its outcome, for good. */
  lemma SettlesForGood(ops: seq<Op>, op: Op, more: seq<Op>, k: nat, outcome: FutureState)
    requires k < |Run(ops).futures| && Run(ops).futures[k].Waiting? && Settles(Run(ops), op, k, outcome)
    ensures var r := Run(ops + [op] + more); k < |r.futures| && r.futures[k] == outcome && !outcome.Waiting?
  {
    hide Run, Apply;
    RunIsValid(ops);
    RunAppend(ops, op);
    StepFate(Run(ops), op, k);
    RunGrows(ops + [op], more, k);
  }

  /** The `k`-th future got this outcome at one of the operations. */
  ghost predicate SettledDuring(ops: seq<Op>, k: nat, outcome: FutureState) {
    exists j :: 0 <= j < |ops| && Settles(Run(ops[..j]), ops[j], k, outcome)
  }

  ghost predicate DroppedDuring(ops: seq<Op>, k: nat) {
    exists j :: 0 <= j < |ops| && Drops(Run(ops[..j]), ops[j], k)
  }

  lemma DuringGrows(ops: seq<Op>, op: Op, k: nat, outcome: FutureState)
    ensures SettledDuring(ops, k, outcome) || Settles(Run(ops), op, k, outcome) ==>
              SettledDuring(ops + [op], k, outcome)
    ensures DroppedDuring(ops + [op], k) <==> DroppedDuring(ops, k) || Drops(Run(ops), op, k)
  {
    hide Run, Settles, Drops;
    var all := ops + [op];
    assert all[..|ops|] == ops && all[|ops|] == op;
    assert forall j :: 0 <= j < |ops| ==> all[..j] == ops[..j] && all[j] == ops[j];
    if DroppedDuring(ops, k) {
      var j :| 0 <= j < |ops| && Drops(Run(ops[..j]), ops[j], k);
      assert Drops(Run(all[..j]), all[j], k);
    }
    if SettledDuring(ops, k, outcome) {
      var j :| 0 <= j < |ops| && Settles(Run(ops[..j]), ops[j], k, outcome);
      assert Settles(Run(all[..j]), all[j], k, outcome);
    }
    if DroppedDuring(all, k) {
      var j :| 0 <= j < |all| && Drops(Run(all[..j]), all[j], k);
      assert j < |ops| ==> Drops(Run(ops[..j]), ops[j], k);
    }
    assert Settles(Run(ops), op, k, outcome) ==> Settles(Run(all[..|ops|]), all[|ops|], k, outcome);
    assert Drops(Run(ops), op, k) ==> Drops(Run(all[..|ops|]), all[|ops|], k);
  }

  /** No future is lost and none settled from nowhere, in any run: one that still waits is pending unless it was
      dropped, and exactly then; one that does not was settled by an operation meant for it. */
  lemma {:induction false} NoFutureIsLost(ops: seq<Op>, k: nat)
    requires k < |Run(ops).futures|
    ensures var outcome := Run(ops).futures[k];
            && (outcome.Waiting? ==> (IsPending(Run(ops), k) <==> !DroppedDuring(ops, k)))
            && (!outcome.Waiting? ==> SettledDuring(ops, k, outcome))
  {
    hide Run, Apply, Settles, Drops, SettledDuring, DroppedDuring, IdOf, Valid;
    if ops == [] {
      assert Run(ops) == EMPTY by {
        EmptyRun();
      }
    } else {
      var front, last := ops[..|ops| - 1], ops[|ops| - 1];
      assert ops == front + [last];
      RunAppend(front, last);
      RunIsValid(front);
      DuringGrows(front, last, k, Run(ops).futures[k]);
      if k < |Run(front).futures| {
        NoFutureIsLost(front, k);
        StepFate(Run(front), last, k);
      } else {
        NewFuture(front, last, k);
      }
    }
  }

  lemma EmptyRun()
    ensures Run([]) == EMPTY
  {
  }

  /** A request just allocated is pending, waits, and was not dropped before it existed. */
  lemma NewFuture(ops: seq<Op>, op: Op, k: nat)
    requires |Run(ops).futures| <= k < |Run(ops + [op]).futures|
    ensures var r := Run(ops + [op]); r.futures[k].Waiting? && IsPending(r, k) && !DroppedDuring(ops + [op], k)
  {
    hide Run, PendingAt;
    RunAppend(ops, op);
    RunIsValid(ops);
    assert k == |Run(ops).futures|;
    forall j | 0 <= j < |ops + [op]|
      ensures !Drops(Run((ops + [op])[..j]), (ops + [op])[j], k)
    {
      assert (ops + [op])[..j] == ops[..j];
      assert ops == ops[..j] + ops[j..];
      NotYetPending(ops[..j], ops[j..], k);
    }
  }

  lemma NotYetPending(ops: seq<Op>, more: seq<Op>, k: nat)
    requires |Run(ops + more).futures| <= k
    ensures !IsPending(Run(ops), k)
  {
    hide Run, IdOf;
    RunIsValid(ops);
    if IsPending(Run(ops), k) {
      assert PendingAt(Run(ops), IdOf(k), k);
      RunGrows(ops, more, k);
    }
  }

  // ---- What the operations leave behind ----------------------------------------------------

  /** The timer the table had for this id is disarmed. */
  predicate TimerGone(r: Registry, id: nat, r': Registry) {
    && id !in r'.timeouts && |r'.timers| == |r.timers|
    && (id in r.timeouts && r.timeouts[id] < |r.timers| ==>
          r'.timers[r.timeouts[id]] == r.timers[r.timeouts[id]].(state := Disarmed))
  }

  /** Nothing else in the tables or among the timers has changed. */
  predicate OthersKept(r: Registry, id: nat, r': Registry) {
    && r'.pending == r.pending - {id} && r'.timeouts == r.timeouts - {id} && r'.nextId == r.nextId
    && |r'.timers| == |r.timers|
    && (forall t :: 0 <= t < |r.timers| && !(id in r.timeouts && r.timeouts[id] == t) ==> r'.timers[t] == r.timers[t])
  }

  /** After a completion, a failure or a discard the request is neither pending nor timed, and only its own timer was
      disarmed; a discard settles nothing. */
  lemma RequestIsOver(r: Registry, op: Op)
    requires op.CompleteOp? || op.FailOp? || op.DiscardOp?
    ensures var r' := Apply(r, op);
            && op.id !in r'.pending && TimerGone(r, op.id, r') && OthersKept(r, op.id, r')
            && (op.DiscardOp? ==> r'.futures == r.futures)
  {
    hide Settle;
    assert op.id !in r.timeouts ==> r.timeouts - {op.id} == r.timeouts;
    assert op.id !in r.pending ==> r.pending - {op.id} == r.pending;
  }

  /** After a disconnect nothing is pending or timed, and every timer the table had is disarmed. */
  lemma AllRequestsAreOver(r: Registry, error: Failure)
    ensures var r' := Apply(r, FailAllOp(error));
            && r'.pending == map[] && r'.timeouts == map[] && r'.nextId == r.nextId && |r'.timers| == |r.timers|
            && (forall id :: id in r.timeouts && r.timeouts[id] < |r.timers| ==>
                  r'.timers[r.timeouts[id]] == r.timers[r.timeouts[id]].(state := Disarmed))
            && (forall t :: 0 <= t < |r.timers| && t !in r.timeouts.Values ==> r'.timers[t] == r.timers[t])
  {
  }

  /** A timer that fires is spent, and the request now under its id is neither pending nor timed. */
  lemma FiredIsOver(r: Registry, t: nat)
    requires t < |r.timers| && r.timers[t].state.Armed?
    ensures var r' := Apply(r, FireOp(t));
            && r'.timers == r.timers[t := r.timers[t].(state := Fired)]
            && r'.pending == r.pending - {r.timers[t].id} && r'.timeouts == r.timeouts - {r.timers[t].id}
            && r'.nextId == r.nextId
  {
    hide Settle;
    var id := r.timers[t].id;
    assert id !in r.pending ==> r.pending - {id} == r.pending;
  }

  /** A timer that is not armed does nothing; and a caller that cancels its future leaves the registry as it is. */
  lemma NothingElseHappens(r: Registry, t: nat, k: nat)
    ensures !(t < |r.timers| && r.timers[t].state.Armed?) ==> Apply(r, FireOp(t)) == r
    ensures var r' := Apply(r, CancelOp(k)); r'.(futures := r.futures) == r
  {
  }

  /** A new request is pending under the next id and waits; it has an armed timer in the table exactly if it is
      timed. */
  lemma AllocationEnters(r: Registry, timed: bool)
    requires Valid(r)
    ensures var r' := Apply(r, AllocateOp(timed));
            var k := |r.futures|;
            && r.nextId == IdOf(k) && r'.futures == r.futures + [Waiting] && IsPending(r', k)
            && r'.pending.Keys == r.pending.Keys + {r.nextId}
            && r'.timers == r.timers + (if timed then [Timer(r.nextId, k, Armed)] else [])
            && r'.timeouts == if timed then r.timeouts[r.nextId := |r.timers|] else r.timeouts
  {
    hide IdOf, NextId;
  }

  // ---- Timers ---------------------------------------------------------------------------

  /** Every armed timer is in the table, under its own id. */
  predicate TimersInTable(r: Registry) {
    forall t :: 0 <= t < |r.timers| && r.timers[t].state.Armed? ==> InTable(r, t)
  }

  predicate InTable(r: Registry, t: nat)
    requires t < |r.timers|
  {
    r.timers[t].id in r.timeouts && r.timeouts[r.timers[t].id] == t
  }

  /** Every armed timer is in the table, and can time out no request but the one it was armed for. */
  predicate TimersTrue(r: Registry) {
    TimersInTable(r) && forall t :: 0 <= t < |r.timers| && r.timers[t].state.Armed? ==> HitsOwn(r, t)
  }

  predicate HitsOwn(r: Registry, t: nat)
    requires t < |r.timers|
  {
    && r.timers[t].request < |r.futures|
    && (r.timers[t].id in r.pending ==> r.pending[r.timers[t].id] == r.timers[t].request)
  }

  /** The allocation takes an id whose timer is still in the table. */
  predicate Overtakes(r: Registry, op: Op) {
    op.AllocateOp? && r.nextId in r.timeouts
  }

  /** The allocation arms a second timer for that id, and the first leaves the table still armed. */
  predicate Orphans(r: Registry, op: Op) {
    Overtakes(r, op) && op.timed
  }

  lemma OvertakenTimer(r: Registry, timed: bool)
    requires Valid(r) && r.nextId in r.timeouts
    ensures timed ==> !TimersInTable(Allocate(r, timed))
    ensures TimersTrue(r) ==> !TimersTrue(Allocate(r, timed))
  {
    hide IdOf, NextId;
    var t := r.timeouts[r.nextId];
    assert TimeoutAt(r, r.nextId, t);
    if timed {
      assert !InTable(Allocate(r, timed), t);
    }
    if TimersTrue(r) {
      assert HitsOwn(r, t);
      assert !HitsOwn(Allocate(r, timed), t);
    }
  }

  lemma AllocateTimers(r: Registry, timed: bool)
    requires Valid(r) && TimersInTable(r)
    ensures TimersInTable(Allocate(r, timed)) <==> !(timed && r.nextId in r.timeouts)
    ensures TimersTrue(r) ==> (TimersTrue(Allocate(r, timed)) <==> r.nextId !in r.timeouts)
  {
    hide Valid, IdOf, NextId;
    var r' := Allocate(r, timed);
    if r.nextId in r.timeouts {
      OvertakenTimer(r, timed);
    }
    if !(timed && r.nextId in r.timeouts) {
      forall t | 0 <= t < |r'.timers| && r'.timers[t].state.Armed?
        ensures InTable(r', t)
      {
        assert t < |r.timers| ==> InTable(r, t);
      }
    }
    if TimersTrue(r) && r.nextId !in r.timeouts {
      forall t | 0 <= t < |r'.timers| && r'.timers[t].state.Armed?
        ensures HitsOwn(r', t)
      {
        assert t < |r.timers| ==> InTable(r, t) && HitsOwn(r, t);
      }
    }
  }

  lemma PopKeepsTimers(r: Registry, id: nat, outcome: FutureState)
    ensures PopAndSettle(r, id, outcome).timers == r.timers && PopAndSettle(r, id, outcome).timeouts == r.timeouts
  {
  }

  lemma OtherTimers(r: Registry, op: Op)
    requires TimersInTable(r) && !op.AllocateOp?
    ensures TimersInTable(Apply(r, op))
  {
    hide Settle, PopAndSettle;
    var r' := Apply(r, op);
    match op {
      case CompleteOp(id, header, body) => PopKeepsTimers(CancelTimeout(r, id), id, Completed(header, body));
      case FailOp(id, error) => PopKeepsTimers(CancelTimeout(r, id), id, Failed(error));
      case FireOp(t) =>
        if t < |r.timers| && r.timers[t].state.Armed? {
          var id := r.timers[t].id;
          PopKeepsTimers(Marked(r, t, id), id, Failed(TimedOut(id)));
        }
      case _ =>
    }
    forall t | 0 <= t < |r'.timers| && r'.timers[t].state.Armed?
      ensures InTable(r', t)
    {
      assert InTable(r, t);
    }
  }

  lemma OtherTimersHit(r: Registry, op: Op)
    requires TimersTrue(r) && !op.AllocateOp?
    ensures TimersTrue(Apply(r, op))
  {
    OtherTimers(r, op);
    hide TimersInTable, InTable;
    var r' := Apply(r, op);
    forall t | 0 <= t < |r'.timers| && r'.timers[t].state.Armed?
      ensures HitsOwn(r', t)
    {
      assert HitsOwn(r, t);
    }
  }

  /** One operation leaves an armed timer outside the table exactly when it orphans one, and makes a timer a danger to
      another request exactly when it overtakes one. */
  lemma ApplyTimers(r: Registry, op: Op)
    requires Valid(r) && TimersInTable(r)
    ensures TimersInTable(Apply(r, op)) <==> !Orphans(r, op)
    ensures TimersTrue(r) ==> (TimersTrue(Apply(r, op)) <==> !Overtakes(r, op))
  {
    hide Valid, TimersInTable, TimersTrue;
    if op.AllocateOp? {
      AllocateTimers(r, op.timed);
    } else {
      OtherTimers(r, op);
      if TimersTrue(r) {
        OtherTimersHit(r, op);
      }
    }
  }

  ghost predicate AlwaysInTable(ops: seq<Op>) {
    forall n :: 0 <= n <= |ops| ==> TimersInTable(Run(ops[..n]))
  }

  ghost predicate AlwaysTrue(ops: seq<Op>) {
    forall n :: 0 <= n <= |ops| ==> TimersTrue(Run(ops[..n]))
  }

  ghost predicate NeverOrphans(ops: seq<Op>) {
    forall j :: 0 <= j < |ops| ==> !Orphans(Run(ops[..j]), ops[j])
  }

  ghost predicate NeverOvertakes(ops: seq<Op>) {
    forall j :: 0 <= j < |ops| ==> !Overtakes(Run(ops[..j]), ops[j])
  }

  lemma Prefixes(ops: seq<Op>, op: Op)
    ensures AlwaysInTable(ops + [op]) <==> AlwaysInTable(ops) && TimersInTable(Run(ops + [op]))
    ensures AlwaysTrue(ops + [op]) <==> AlwaysTrue(ops) && TimersTrue(Run(ops + [op]))
    ensures NeverOrphans(ops + [op]) <==> NeverOrphans(ops) && !Orphans(Run(ops), op)
    ensures NeverOvertakes(ops + [op]) <==> NeverOvertakes(ops) && !Overtakes(Run(ops), op)
  {
    hide Run, TimersInTable, TimersTrue, Orphans, Overtakes;
    var all := ops + [op];
    assert all[..|ops|] == ops && all[..|all|] == all;
    assert forall n :: 0 <= n <= |ops| ==> all[..n] == ops[..n];
    assert forall n :: 0 <= n < |ops| ==> all[n] == ops[n];
    AtEnd(ops);
  }

  lemma AtEnd(ops: seq<Op>)
    ensures AlwaysInTable(ops) ==> TimersInTable(Run(ops))
    ensures AlwaysTrue(ops) ==> TimersTrue(Run(ops))
  {
    hide Run, TimersInTable, TimersTrue;
    assert ops[..|ops|] == ops;
  }

  /** Armed timers stay known to the table throughout a run exactly when no timed allocation takes an id whose timer is
      in the table; and throughout it no timer can time out another's request exactly when no allocation does. */
  lemma {:induction false} ArmedTimersAreKnown(ops: seq<Op>)
    ensures AlwaysInTable(ops) <==> NeverOrphans(ops)
    ensures AlwaysTrue(ops) <==> NeverOvertakes(ops)
  {
    hide Run, Apply, Orphans, Overtakes, TimersInTable, TimersTrue;
    hide AlwaysInTable, AlwaysTrue, NeverOrphans, NeverOvertakes;
    if ops == [] {
      NoTimers();
    } else {
      var front, last := ops[..|ops| - 1], ops[|ops| - 1];
      assert ops == front + [last];
      ArmedTimersAreKnown(front);
      Prefixes(front, last);
      RunIsValid(front);
      RunAppend(front, last);
      AtEnd(front);
      TrueIsInTable(Run(front));
      if TimersInTable(Run(front)) {
        ApplyTimers(Run(front), last);
      }
    }
  }

  lemma TrueIsInTable(r: Registry)
    ensures TimersTrue(r) ==> TimersInTable(r)
  {
    hide TimersInTable;
  }

  lemma NoTimers()
    ensures AlwaysInTable([]) && AlwaysTrue([]) && NeverOrphans([]) && NeverOvertakes([])
  {
    var none: seq<Op> := [];
    assert none[..0] == none;
    EmptyRun();
  }

  /** No request stays live through 2^64 - 2 later allocations. */
  ghost predicate NoneOutlivesTheIds(ops: seq<Op>) {
    forall j, k :: 0 <= j < |ops| && ops[j].AllocateOp? && IsPending(Run(ops[..j]), k) ==>
      |Run(ops[..j]).futures| - 1 - k < ID_COUNT - 1
  }

  /** If no request lives that long, nothing is overtaken. */
  lemma YoungRequestsKeepTheirTimers(ops: seq<Op>)
    requires NoneOutlivesTheIds(ops)
    ensures AlwaysTrue(ops) && TimersInTable(Run(ops)) && TimeoutsOk(Run(ops))
  {
    hide Run, AlwaysTrue, AlwaysInTable, NeverOrphans, TimersInTable, TimersTrue;
    ArmedTimersAreKnown(ops);
    RunIsValid(ops);
    forall j | 0 <= j < |ops| && ops[j].AllocateOp?
      ensures Run(ops[..j]).nextId !in Run(ops[..j]).timeouts
    {
      FreshId(ops, j);
    }
    AtEnd(ops);
    TrueIsInTable(Run(ops));
  }

  lemma FreshId(ops: seq<Op>, j: nat)
    requires j < |ops| && ops[j].AllocateOp? && NoneOutlivesTheIds(ops)
    ensures var r := Run(ops[..j]); r.nextId !in r.pending && r.nextId !in r.timeouts
  {
    hide Run, IdOf;
    var r := Run(ops[..j]);
    RunIsValid(ops[..j]);
    assert r.nextId in r.timeouts ==> TimeoutAt(r, r.nextId, r.timeouts[r.nextId]);
    forall k | IsPending(r, k)
      ensures r.nextId != IdOf(k)
    {
      assert PendingAt(r, IdOf(k), k);
      assert IsPending(Run(ops[..j]), k);
      AllocateReuses(r, false, k);
    }
    assert r.nextId in r.pending ==> PendingAt(r, r.nextId, r.pending[r.nextId]);
  }

  /** When an id does come round to a live request with a timer, that timer stays armed, outside the table if the new
      request has one of its own, and times out the new request. */
  lemma OvertakenTimerHitsTheNewRequest(r: Registry, timed: bool)
    requires Valid(r) && r.nextId in r.timeouts
    ensures var t := r.timeouts[r.nextId];
            var r' := Allocate(r, timed);
            && t < |r'.timers| && r'.timers[t].state.Armed?
            && (timed ==> !TimersInTable(r'))
            && |r.futures| < |Fire(r', t).futures| && Fire(r', t).futures[|r.futures|] == Failed(TimedOut(r.nextId))
  {
    hide IdOf;
    assert TimeoutAt(r, r.nextId, r.timeouts[r.nextId]);
    OvertakenTimer(r, timed);
  }

  /** One request with a timer, and then `n` without. */
  function Allocations(n: nat): seq<Op> {
    if n == 0 then [AllocateOp(true)] else Allocations(n - 1) + [AllocateOp(false)]
  }

  lemma {:induction false} AllocationsRun(n: nat)
    requires n < ID_COUNT
    ensures var r := Run(Allocations(n));
            |r.futures| == n + 1 && r.timeouts == map[1 := 0] && r.timers == [Timer(1, 0, Armed)]
  {
    hide Run;
    if n == 0 {
      EmptyRun();
      RunAppend([], AllocateOp(true));
      assert [] + [AllocateOp(true)] == [AllocateOp(true)];
    } else {
      AllocationsRun(n - 1);
      RunAppend(Allocations(n - 1), AllocateOp(false));
    }
  }

  /** An actual run: a request that outlives 2^64 - 2 later allocations is overtaken by the next one, whose request its
      timer then times out. */
  lemma OvertakingHappens(n: nat, timed: bool)
    requires n == ID_COUNT - 1
    ensures var r := Run(Allocations(n));
            var futures := Run(Allocations(n) + [AllocateOp(timed)] + [FireOp(0)]).futures;
            && r.nextId in r.timeouts && Overtakes(r, AllocateOp(timed))
            && |futures| > ID_COUNT && futures[ID_COUNT] == Failed(TimedOut(1))
  {
    hide Run, Allocations, Fire, Valid;
    AllocationsRun(n);
    RunIsValid(Allocations(n));
    var r := Run(Allocations(n));
    assert r.nextId == 1 by {
      IdWrapped(r);
    }
    RunAppend(Allocations(n), AllocateOp(timed));
    RunAppend(Allocations(n) + [AllocateOp(timed)], FireOp(0));
    OvertakenTimerHitsTheNewRequest(r, timed);
  }

  lemma IdWrapped(r: Registry)
    requires Valid(r) && |r.futures| == ID_COUNT
    ensures r.nextId == 1
  {
  }

  // ---- The objects ------------------------------------------------------------------------

  /** An `asyncio.Future`: setting it twice is an error of the event loop, so nobody may. */
  class Future {
    ghost const serial: nat
    var state: FutureState

    constructor (ghost serial: nat)
      ensures this.serial == serial && state == Waiting
    {
      this.serial := serial;
      state := Waiting;
    }

    method Set(outcome: FutureState)
      requires state.Waiting?
      modifies this
      ensures state == outcome
    {
      state := outcome;
    }
  }

  /** An `asyncio.TimerHandle` whose callback expires request `id`. */
  class TimerHandle {
    ghost const serial: nat
    ghost const request: nat
    const id: nat
    var state: TimerState

    constructor (ghost serial: nat, ghost request: nat, id: nat)
      ensures this.serial == serial && this.request == request && this.id == id && state == Armed
    {
      this.serial, this.request, this.id := serial, request, id;
      state := Armed;
    }

    method Cancel()
      modifies this
      ensures state == Disarmed
    {
      state := Disarmed;
    }
  }

  method CancelAll(handles: set<TimerHandle>)
    modifies handles
    ensures forall h :: h in handles ==> h.state == Disarmed
  {
    var todo := handles;
    while todo != {}
      invariant todo <= handles
      invariant forall h :: h in handles - todo ==> h.state == Disarmed
    {
      var h :| h in todo;
      h.Cancel();
      todo := todo - {h};
    }
  }

  /** Settle every future that its caller has not cancelled. */
  method SetAll(futures: set<Future>, outcome: FutureState)
    modifies futures
    ensures forall f :: f in futures ==> f.state == if old(f.state).Waiting? then outcome else old(f.state)
  {
    var todo := futures;
    while todo != {}
      invariant todo <= futures
      invariant forall f :: f in todo ==> f.state == old(f.state)
      invariant forall f :: f in futures - todo ==> f.state == if old(f.state).Waiting? then outcome else old(f.state)
    {
      var f :| f in todo;
      if f.state.Waiting? {
        f.Set(outcome);
      }
      todo := todo - {f};
    }
  }

  class PendingRequests {
    const defaultTimeout: real
    var nextId: nat
    var pending: map<nat, Future>
    var timeouts: map<nat, TimerHandle>
    ghost var futures: seq<Future>
    ghost var handles: seq<TimerHandle>

    ghost function PendingIds(): map<nat, nat>
      reads this`pending
    {
      map id | id in pending :: pending[id].serial
    }

    ghost function TimeoutIds(): map<nat, nat>
      reads this`timeouts
    {
      map id | id in timeouts :: timeouts[id].serial
    }

    ghost function FutureStates(): seq<FutureState>
      reads this`futures, futures
    {
      var fs := futures;
      seq(|fs|, k requires 0 <= k < |fs| reads fs => fs[k].state)
    }

    ghost function Timers(): seq<Timer>
      reads this`handles, handles
    {
      var hs := handles;
      seq(|hs|, t requires 0 <= t < |hs| reads hs => Timer(hs[t].id, hs[t].request, hs[t].state))
    }

    ghost function Value(): Registry
      reads this, futures, handles
    {
      Registry(nextId, PendingIds(), TimeoutIds(), FutureStates(), Timers())
    }

    /** Futures and handles are numbered as created, and the tables hold no others. */
    ghost predicate Numbered()
      reads this`pending, this`timeouts, this`futures, this`handles
    {
      && (forall k :: 0 <= k < |futures| ==> futures[k].serial == k)
      && (forall t :: 0 <= t < |handles| ==> handles[t].serial == t)
      && (forall id :: id in pending ==> pending[id] in futures)
      && (forall id :: id in timeouts ==> timeouts[id] in handles)
    }

    ghost predicate Ok()
      reads this, futures, handles
    {
      Numbered() && Valid(Value())
    }

    constructor (defaultTimeout: real)
      ensures Ok() && Value() == EMPTY && this.defaultTimeout == defaultTimeout
    {
      this.defaultTimeout := defaultTimeout;
      nextId, pending, timeouts, futures, handles := 1, map[], map[], [], [];
    }

    method Allocate(timeout: Option<real>) returns (id: nat, future: Future)
      requires Ok()
      modifies this
      ensures Ok()
      ensures var resolved := if timeout.None? then defaultTimeout else timeout.value;
              Value() == Apply(old(Value()), AllocateOp(resolved > 0.0))
      ensures id == old(nextId) == IdOf(|old(futures)|)
      ensures fresh(future) && futures == old(futures) + [future] && future.state == Waiting
    {
      hide Valid, IdOf, Numbered, Value, Entered, WithTimer;
      var resolved := if timeout.None? then defaultTimeout else timeout.value;
      ApplyKeepsValid(Value(), AllocateOp(resolved > 0.0));
      ValueSize();
      id, future := Enter();
      if resolved > 0.0 {
        Arm(id, |old(futures)|);
      }
    }

    lemma ValueSize()
      ensures Value().nextId == nextId && |Value().futures| == |futures|
      ensures Valid(Value()) ==> nextId == IdOf(|futures|)
    {
    }

    method Enter() returns (id: nat, future: Future)
      requires Numbered()
      modifies this`nextId, this`pending, this`futures
      ensures Numbered() && id == old(nextId) && Value() == Entered(old(Value()))
      ensures fresh(future) && futures == old(futures) + [future] && future.state == Waiting
    {
      hide NextId;
      id := nextId;
      AdvanceNextId();
      future := new Future(|futures|);
      pending := pending[id := future];
      futures := futures + [future];
      assert PendingIds() == old(PendingIds())[id := |old(futures)|];
      assert FutureStates() == old(FutureStates()) + [Waiting];
      assert Timers() == old(Timers());
    }

    method Arm(id: nat, ghost request: nat)
      requires Numbered()
      modifies this`timeouts, this`handles
      ensures Numbered() && Value() == WithTimer(old(Value()), id, request)
    {
      var handle := new TimerHandle(|handles|, request, id);
      timeouts := timeouts[id := handle];
      handles := handles + [handle];
      assert TimeoutIds() == old(TimeoutIds())[id := |old(handles)|];
      assert Timers() == old(Timers()) + [Timer(id, request, Armed)];
      assert FutureStates() == old(FutureStates());
    }

    method AdvanceNextId()
      modifies this`nextId
      ensures nextId == NextId(old(nextId))
    {
      nextId := nextId + 1;
      if nextId > UINT64_MAX {
        nextId := 1;
      }
    }

    method CancelTimer(id: nat)
      requires Numbered()
      modifies this`timeouts, handles
      ensures Numbered() && Value() == CancelTimeout(old(Value()), id)
    {
      if id in timeouts {
        timeouts[id].Cancel();
        timeouts := timeouts - {id};
        assert Timers() == SetTimer(old(Timers()), old(timeouts[id].serial), Disarmed);
        assert TimeoutIds() == old(TimeoutIds()) - {id};
        assert FutureStates() == old(FutureStates());
      }
    }

    /** Remove the entry and settle its future, unless the caller has cancelled it. */
    method PopSet(id: nat, outcome: FutureState)
      requires Numbered()
      modifies this`pending, futures
      ensures Numbered() && Value() == PopAndSettle(old(Value()), id, outcome)
    {
      if id in pending {
        var future := pending[id];
        pending := pending - {id};
        if future.state.Waiting? {
          future.Set(outcome);
        }
        assert FutureStates() == Settle(old(FutureStates()), future.serial, outcome);
        assert PendingIds() == old(PendingIds()) - {id};
        assert Timers() == old(Timers());
      }
    }

    method Complete(id: nat, header: seq<byte>, body: seq<byte>)
      requires Ok()
      modifies this`pending, this`timeouts, futures, handles
      ensures Ok() && Value() == Apply(old(Value()), CompleteOp(id, header, body))
    {
      hide Valid, Numbered, Value, CancelTimeout, PopAndSettle;
      ApplyKeepsValid(Value(), CompleteOp(id, header, body));
      CancelTimer(id);
      PopSet(id, Completed(header, body));
    }

    method Fail(id: nat, error: Failure)
      requires Ok()
      modifies this`pending, this`timeouts, futures, handles
      ensures Ok() && Value() == Apply(old(Value()), FailOp(id, error))
    {
      hide Valid, Numbered, Value, CancelTimeout, PopAndSettle;
      ApplyKeepsValid(Value(), FailOp(id, error));
      CancelTimer(id);
      PopSet(id, Failed(error));
    }

    method Discard(id: nat)
      requires Ok()
      modifies this`pending, this`timeouts, handles
      ensures Ok() && Value() == Apply(old(Value()), DiscardOp(id))
    {
      hide Valid, Numbered, Value, CancelTimeout;
      ApplyKeepsValid(Value(), DiscardOp(id));
      SameKeys(Value(), id);
      CancelTimer(id);
      Drop(id);
    }

    method Drop(id: nat)
      requires Numbered()
      modifies this`pending
      ensures Numbered() && Value() == old(Value()).(pending := old(Value()).pending - {id})
    {
      pending := pending - {id};
      assert PendingIds() == old(PendingIds()) - {id};
    }

    /** The event loop runs an armed timer's callback. */
    method Expire(handle: TimerHandle)
      requires Ok() && handle in handles && handle.state.Armed?
      modifies this`pending, this`timeouts, futures, handle
      ensures Ok() && Value() == Apply(old(Value()), FireOp(handle.serial))
    {
      hide Valid, Numbered, Value, Marked, PopAndSettle;
      ApplyKeepsValid(Value(), FireOp(handle.serial));
      TimerOf(handle);
      MarkFired(handle);
      PopSet(handle.id, Failed(TimedOut(handle.id)));
    }

    lemma TimerOf(handle: TimerHandle)
      requires Numbered() && handle in handles
      ensures handle.serial < |Value().timers|
      ensures Value().timers[handle.serial] == Timer(handle.id, handle.request, handle.state)
    {
    }

    method MarkFired(handle: TimerHandle)
      requires Numbered() && handle in handles
      modifies this`timeouts, handle
      ensures Numbered() && Value() == Marked(old(Value()), handle.serial, handle.id)
    {
      handle.state := Fired;
      timeouts := timeouts - {handle.id};
      assert TimeoutIds() == old(TimeoutIds()) - {handle.id};
      assert Timers() == SetTimer(old(Timers()), handle.serial, Fired);
      assert FutureStates() == old(FutureStates());
    }

    lemma ValuesAgree()
      requires Numbered()
      ensures forall k :: 0 <= k < |futures| ==> (futures[k] in pending.Values <==> k in PendingIds().Values)
      ensures forall t :: 0 <= t < |handles| ==> (handles[t] in timeouts.Values <==> t in TimeoutIds().Values)
    {
      assert forall id :: id in pending ==> id in PendingIds() && PendingIds()[id] == pending[id].serial;
      assert forall id :: id in timeouts ==> id in TimeoutIds() && TimeoutIds()[id] == timeouts[id].serial;
    }

    method FailAll(error: Failure)
      requires Ok()
      modifies this`pending, this`timeouts, futures, handles
      ensures Ok() && Value() == Apply(old(Value()), FailAllOp(error))
    {
      hide Valid, Numbered, Value, FailThese, DisarmThese;
      ghost var before := Value();
      ApplyKeepsValid(before, FailAllOp(error));
      var outstanding, armed := Empty();
      DisarmAll(armed, before.timeouts.Values);
      SettleAll(outstanding, error, before.pending.Values);
    }

    /** The futures numbered `ks`. */
    ghost predicate AreFutures(fs: set<Future>, ks: set<nat>)
      reads this`futures
    {
      fs <= (set f | f in futures) && forall k :: 0 <= k < |futures| ==> (futures[k] in fs <==> k in ks)
    }

    /** The timers numbered `ts`. */
    ghost predicate AreHandles(hs: set<TimerHandle>, ts: set<nat>)
      reads this`handles
    {
      hs <= (set h | h in handles) && forall t :: 0 <= t < |handles| ==> (handles[t] in hs <==> t in ts)
    }

    method Empty() returns (outstanding: set<Future>, armed: set<TimerHandle>)
      requires Numbered()
      modifies this`pending, this`timeouts
      ensures Numbered() && Value() == old(Value()).(pending := map[], timeouts := map[])
      ensures AreFutures(outstanding, old(Value()).pending.Values)
      ensures AreHandles(armed, old(Value()).timeouts.Values)
    {
      ValuesAgree();
      outstanding, armed := pending.Values, timeouts.Values;
      pending, timeouts := map[], map[];
      assert PendingIds() == map[] && TimeoutIds() == map[];
    }

    method DisarmAll(armed: set<TimerHandle>, ghost ts: set<nat>)
      requires Numbered() && AreHandles(armed, ts)
      modifies armed
      ensures Numbered()
      ensures Value() == old(Value()).(timers := DisarmThese(old(Value()).timers, ts))
    {
      CancelAll(armed);
      assert Timers() == DisarmThese(old(Timers()), ts);
      assert FutureStates() == old(FutureStates());
    }

    method SettleAll(outstanding: set<Future>, error: Failure, ghost ks: set<nat>)
      requires Numbered() && AreFutures(outstanding, ks)
      modifies outstanding
      ensures Numbered()
      ensures Value() == old(Value()).(futures := FailThese(old(Value()).futures, ks, error))
    {
      SetAll(outstanding, Failed(error));
      assert FutureStates() == FailThese(old(FutureStates()), ks, error);
      assert Timers() == old(Timers());
    }
  }
}
