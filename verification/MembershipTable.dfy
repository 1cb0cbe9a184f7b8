/** The shared membership table with its optimistic-concurrency writes
    (`pyleans/testing/membership_fake.py`, `pyleans/providers/membership.py`).

    The table is a value, `Table`; `InMemoryMembershipProvider` is the object that
    updates it in place, one method per primitive, and each method is specified by
    the corresponding function on `Table`. */
module MembershipTable {
  import opened Wrappers
  import opened Text
  import opened Identity

  datatype Status = Joining | Active | ShuttingDown | Dead

  datatype SuspicionVote = SuspicionVote(suspectingSilo: string, timestamp: real)

  datatype SiloInfo = SiloInfo(
    address: SiloAddress,
    status: Status,
    lastHeartbeat: real,
    startTime: real,
    clusterId: Option<string>,
    gatewayPort: Option<int>,
    version: int,
    iAmAlive: real,
    suspicions: seq<SuspicionVote>,
    etag: Option<string>)

  datatype Table = Table(version: nat, rows: map<string, SiloInfo>, heartbeats: nat)

  datatype TableError = NotFound | Stale

  /** One call of a writing primitive. */
  datatype Op =
    | Update(row: SiloInfo)
    | AddSuspicion(siloId: string, vote: SuspicionVote, expectedEtag: string)
    | Delete(row: SiloInfo)

  const EMPTY := Table(0, map[], 0)

  function EtagOf(version: nat): string {
    "v" + Decimal(version)
  }

  function Find(t: Table, id: string): Option<SiloInfo> {
    if id in t.rows then Some(t.rows[id]) else None
  }

  function TryUpdate(t: Table, silo: SiloInfo): (Table, Result<SiloInfo, TableError>) {
    var id := SiloId(silo.address);
    var current := Find(t, id);
    if current.None? && silo.etag.Some? then
      (t, Err(NotFound))
    else if current.Some? && current.value.etag != silo.etag then
      (t, Err(Stale))
    else
      var v := t.version + 1;
      var beat := if current.Some? && current.value.iAmAlive != silo.iAmAlive then 1 else 0;
      var stored := silo.(etag := Some(EtagOf(v)));
      (Table(v, t.rows[id := stored], t.heartbeats + beat), Ok(stored))
  }

  function TryAddSuspicion(t: Table, id: string, vote: SuspicionVote, expectedEtag: string)
    : (Table, Result<SiloInfo, TableError>)
  {
    var current := Find(t, id);
    if current.None? then
      (t, Err(NotFound))
    else if current.value.etag != Some(expectedEtag) then
      (t, Err(Stale))
    else
      var v := t.version + 1;
      var updated := current.value.(suspicions := current.value.suspicions + [vote], etag := Some(EtagOf(v)));
      (Table(v, t.rows[id := updated], t.heartbeats), Ok(updated))
  }

  function TryDelete(t: Table, silo: SiloInfo): (Table, Result<(), TableError>) {
    var id := SiloId(silo.address);
    var current := Find(t, id);
    if current.None? then
      (t, Ok(()))
    else if current.value.etag != silo.etag then
      (t, Err(Stale))
    else
      (Table(t.version + 1, t.rows - {id}, t.heartbeats), Ok(()))
  }

  function Perform(t: Table, op: Op): Table {
    match op
    case Update(row) => TryUpdate(t, row).0
    case AddSuspicion(id, vote, etag) => TryAddSuspicion(t, id, vote, etag).0
    case Delete(row) => TryDelete(t, row).0
  }

  predicate Succeeds(t: Table, op: Op) {
    match op
    case Update(row) => TryUpdate(t, row).1.Ok?
    case AddSuspicion(id, vote, etag) => TryAddSuspicion(t, id, vote, etag).1.Ok?
    case Delete(row) => TryDelete(t, row).1.Ok?
  }

  function Target(op: Op): string {
    match op
    case Update(row) => SiloId(row.address)
    case AddSuspicion(id, _, _) => id
    case Delete(row) => SiloId(row.address)
  }

  /** The etag a call presents; `None` is the create form of an update. */
  function ExpectedEtag(op: Op): Option<string> {
    match op
    case Update(row) => row.etag
    case AddSuspicion(_, _, etag) => Some(etag)
    case Delete(row) => row.etag
  }

  /** The table after a sequence of calls by any writers, from the empty table. */
  function RunOps(ops: seq<Op>): Table {
    if ops == [] then EMPTY else Perform(RunOps(ops[..|ops| - 1]), ops[|ops| - 1])
  }

  // ---- Etags are stamps of the table version ----------------------------------

  /** The version a row's etag was drawn from. */
  function Stamp(row: SiloInfo): nat {
    if row.etag.Some? && |row.etag.value| > 0 then
      match ParseDigits(row.etag.value[1..])
      case Some(n) => n
      case None => 0
    else 0
  }

  lemma StampOfEtag(row: SiloInfo, v: nat)
    requires row.etag == Some(EtagOf(v))
    ensures Stamp(row) == v
  {
    assert row.etag.value[1..] == Decimal(v);
    ParseDecimal(v);
  }

  predicate Stamped(row: SiloInfo, version: nat) {
    1 <= Stamp(row) <= version && row.etag == Some(EtagOf(Stamp(row)))
  }

  predicate TableOk(t: Table) {
    forall id :: id in t.rows ==> SiloId(t.rows[id].address) == id && Stamped(t.rows[id], t.version)
  }

  /** `t'` is a later table: a row whose stamp is not newer than `t` was already in `t`, unchanged. */
  predicate Evolves(t: Table, t': Table) {
    && t.version <= t'.version
    && forall id :: id in t'.rows && Stamp(t'.rows[id]) <= t.version ==>
         id in t.rows && t.rows[id] == t'.rows[id]
  }

  /** One call keeps the table well formed, touches its target only, and stamps what it writes anew. */
  lemma PerformEvolves(t: Table, op: Op)
    requires TableOk(t)
    ensures TableOk(Perform(t, op))
    ensures Evolves(t, Perform(t, op))
    ensures forall id :: id != Target(op) ==> Find(Perform(t, op), id) == Find(t, id)
    ensures Perform(t, op) != t ==> Perform(t, op).version == t.version + 1
  {
    hide Identity.SiloId, Text.ParseDigits, Text.Decimal;
    var t' := Perform(t, op);
    if Target(op) in t'.rows && t' != t {
      StampOfEtag(t'.rows[Target(op)], t.version + 1);
    }
  }

  /** An unchanged etag means an unchanged row. */
  lemma SameEtagSameRow(t: Table, t': Table, id: string)
    requires TableOk(t) && Evolves(t, t') && id in t.rows && id in t'.rows
    requires t.rows[id].etag == t'.rows[id].etag
    ensures t.rows[id] == t'.rows[id]
  {
    assert Stamp(t.rows[id]) == Stamp(t'.rows[id]);
  }

  lemma EvolvesTrans(a: Table, b: Table, c: Table)
    requires Evolves(a, b) && Evolves(b, c)
    ensures Evolves(a, c)
  {
  }

  lemma {:induction false} RunOpsEvolves(ops: seq<Op>, i: nat)
    requires i <= |ops|
    ensures TableOk(RunOps(ops[..i])) && TableOk(RunOps(ops))
    ensures Evolves(RunOps(ops[..i]), RunOps(ops))
  {
    hide Perform, Stamp, EtagOf, Identity.SiloId;
    if i == |ops| {
      assert ops[..i] == ops;
      if ops != [] {
        RunOpsEvolves(ops[..|ops| - 1], 0);
        PerformEvolves(RunOps(ops[..|ops| - 1]), ops[|ops| - 1]);
      }
    } else {
      var front := ops[..|ops| - 1];
      assert front[..i] == ops[..i];
      RunOpsEvolves(front, i);
      PerformEvolves(RunOps(front), ops[|ops| - 1]);
      EvolvesTrans(RunOps(ops[..i]), RunOps(front), RunOps(ops));
    }
  }

  /** No ABA: over any run of any writers, deletes and re-creations included, a
      (silo id, etag) pair never names two different rows. */
  lemma NoAba(ops: seq<Op>, i: nat, j: nat, id: string)
    requires i <= j <= |ops|
    requires id in RunOps(ops[..i]).rows && id in RunOps(ops[..j]).rows
    requires RunOps(ops[..i]).rows[id].etag == RunOps(ops[..j]).rows[id].etag
    ensures RunOps(ops[..i]).rows[id] == RunOps(ops[..j]).rows[id]
  {
    assert ops[..j][..i] == ops[..i];
    RunOpsEvolves(ops[..j], i);
    SameEtagSameRow(RunOps(ops[..i]), RunOps(ops[..j]), id);
  }

  /** No lost update: a call that presents what its caller read at time `i` and succeeds at
      time `j` replaces exactly what the caller read, whatever ran in between. */
  lemma SuccessReplacesWhatWasRead(ops: seq<Op>, i: nat, j: nat, op: Op)
    requires i <= j <= |ops|
    requires !op.Delete?
    requires var seen := Find(RunOps(ops[..i]), Target(op));
             ExpectedEtag(op) == if seen.Some? then seen.value.etag else None
    requires Succeeds(RunOps(ops[..j]), op)
    ensures Find(RunOps(ops[..j]), Target(op)) == Find(RunOps(ops[..i]), Target(op))
  {
    assert ops[..j][..i] == ops[..i];
    RunOpsEvolves(ops[..j], i);
    if Target(op) in RunOps(ops[..j]).rows && Target(op) in RunOps(ops[..i]).rows {
      NoAba(ops, i, j, Target(op));
    }
  }

  // ---- What each call does, and which error it reports ---------------------------------

  /** The error a call reports; `None` for a call that succeeds. */
  function Failure(t: Table, op: Op): Option<TableError> {
    match op
    case Update(row) =>
      var r := TryUpdate(t, row).1;
      if r.Err? then Some(r.error) else None
    case AddSuspicion(id, vote, etag) =>
      var r := TryAddSuspicion(t, id, vote, etag).1;
      if r.Err? then Some(r.error) else None
    case Delete(row) =>
      var r := TryDelete(t, row).1;
      if r.Err? then Some(r.error) else None
  }

  /** The etag stored under an id; `None` when there is no row. */
  function StoredEtag(t: Table, id: string): Option<string> {
    if id in t.rows then t.rows[id].etag else None
  }

  /** A call succeeds exactly when it presents the stored etag, or deletes what is not there. It fails with NotFound
      when the row is gone and with Stale when there is one; and a call that fails changes nothing. */
  lemma SucceedsIffCurrent(t: Table, op: Op)
    requires TableOk(t)
    ensures Failure(t, op) == None <==>
            ExpectedEtag(op) == StoredEtag(t, Target(op)) || (op.Delete? && Target(op) !in t.rows)
    ensures Failure(t, op) == Some(Stale) <==>
            Target(op) in t.rows && ExpectedEtag(op) != t.rows[Target(op)].etag
    ensures Failure(t, op) == Some(NotFound) <==>
            Target(op) !in t.rows && ExpectedEtag(op) != None && !op.Delete?
    ensures Succeeds(t, op) <==> Failure(t, op) == None
    ensures !Succeeds(t, op) ==> Perform(t, op) == t
  {
    hide Identity.SiloId, Stamp, EtagOf;
  }

  /** What is read back after a call that succeeds: the row written, or the row with the vote at the end, under the etag
      of the new version; or nothing. Heartbeats count the updates that change a row's liveness time. */
  lemma ReadsBack(t: Table, op: Op)
    requires Succeeds(t, op)
    ensures var t', found := Perform(t, op), Find(t, Target(op));
            var etag := Some("v" + Decimal(t.version + 1));
            && Find(t', Target(op)) ==
                 (match op
                  case Update(row) => Some(row.(etag := etag))
                  case AddSuspicion(_, vote, _) =>
                    if found.None? then None
                    else Some(found.value.(suspicions := found.value.suspicions + [vote], etag := etag))
                  case Delete(_) => None)
            && t'.version == t.version + (if op.Delete? && found.None? then 0 else 1)
            && t'.heartbeats ==
                 t.heartbeats + if op.Update? && found.Some? && found.value.iAmAlive != op.row.iAmAlive then 1 else 0
  {
    hide Identity.SiloId, Text.Decimal;
  }

  /** Over any run: a call that presents what its caller read fails with Stale exactly when another row stands where the
      caller read, with NotFound exactly when the row is gone, and otherwise succeeds. */
  lemma FailuresTellTheTruth(ops: seq<Op>, i: nat, j: nat, op: Op)
    requires i <= j <= |ops|
    requires var seen := Find(RunOps(ops[..i]), Target(op));
             ExpectedEtag(op) == if seen.Some? then seen.value.etag else None
    ensures var seen, now := Find(RunOps(ops[..i]), Target(op)), Find(RunOps(ops[..j]), Target(op));
            var failure := Failure(RunOps(ops[..j]), op);
            && (failure == Some(Stale) <==> now.Some? && now != seen)
            && (failure == Some(NotFound) <==> now.None? && seen.Some? && !op.Delete?)
            && (failure == None <==> now == seen || (op.Delete? && now.None?))
  {
    hide Identity.SiloId, Stamp, EtagOf, Perform, Failure;
    var before, t := RunOps(ops[..i]), RunOps(ops[..j]);
    assert ops[..j][..i] == ops[..i];
    RunOpsEvolves(ops[..j], i);
    SucceedsIffCurrent(t, op);
    if Target(op) in before.rows {
      StampedRow(before, Target(op));
    }
    if Target(op) in t.rows {
      StampedRow(t, Target(op));
      if Target(op) in before.rows && before.rows[Target(op)].etag == t.rows[Target(op)].etag {
        NoAba(ops, i, j, Target(op));
      }
    }
  }

  lemma StampedRow(t: Table, id: string)
    requires TableOk(t) && id in t.rows
    ensures t.rows[id].etag.Some?
  {
    hide Stamp, EtagOf, Identity.SiloId;
  }

  // ---- The provider object -----------------------------------------------------

  class InMemoryMembershipProvider {
    var version: nat
    var silos: map<string, SiloInfo>
    var heartbeatCount: nat

    ghost function Value(): Table
      reads this
    {
      Table(version, silos, heartbeatCount)
    }

    ghost predicate Valid()
      reads this
    {
      TableOk(Value())
    }

    constructor ()
      ensures Value() == EMPTY && Valid()
    {
      version, silos, heartbeatCount := 0, map[], 0;
    }

    /** The version, and a copy of every row, once each. */
    method ReadAll() returns (snapshot: int, rows: seq<SiloInfo>)
      requires Valid()
      ensures snapshot == version
      ensures forall id :: id in silos ==> silos[id] in rows
      ensures forall row :: row in rows ==> SiloId(row.address) in silos && silos[SiloId(row.address)] == row
      ensures |rows| == |silos|
    {
      hide Identity.SiloId, Text.ParseDigits, Text.Decimal;
      snapshot, rows := version, [];
      var todo := silos.Keys;
      while todo != {}
        invariant todo <= silos.Keys
        invariant forall id :: id in silos.Keys - todo ==> silos[id] in rows
        invariant forall row :: row in rows ==> SiloId(row.address) in silos && silos[SiloId(row.address)] == row
        invariant |rows| + |todo| == |silos.Keys|
      {
        var id :| id in todo;
        todo := todo - {id};
        rows := rows + [silos[id]];
      }
    }

    /** The search of the snapshot by each row's own id finds the row stored under that id. */
    method ReadSilo(id: string) returns (row: Option<SiloInfo>)
      requires Valid()
      ensures row == Find(Value(), id)
    {
      hide Identity.SiloId, Text.ParseDigits, Text.Decimal;
      var _, rows := ReadAll();
      for i := 0 to |rows|
        invariant id in silos ==> silos[id] in rows[i..]
      {
        if SiloId(rows[i].address) == id {
          assert rows[i] in rows;
          return Some(rows[i]);
        }
      }
      return None;
    }

    method TryUpdateSilo(silo: SiloInfo) returns (r: Result<SiloInfo, TableError>)
      requires Valid()
      modifies this
      ensures Valid()
      ensures (Value(), r) == TryUpdate(old(Value()), silo)
    {
      hide Identity.SiloId, Text.ParseDigits, Text.Decimal;
      PerformEvolves(Value(), Update(silo));
      var id := SiloId(silo.address);
      if id !in silos {
        if silo.etag.Some? {
          return Err(NotFound);
        }
      } else if silos[id].etag != silo.etag {
        return Err(Stale);
      }
      version := version + 1;
      if id in silos && silos[id].iAmAlive != silo.iAmAlive {
        heartbeatCount := heartbeatCount + 1;
      }
      var stored := silo.(etag := Some(EtagOf(version)));
      silos := silos[id := stored];
      return Ok(stored);
    }

    method TryAddSuspicionVote(id: string, vote: SuspicionVote, expectedEtag: string)
      returns (r: Result<SiloInfo, TableError>)
      requires Valid()
      modifies this
      ensures Valid()
      ensures (Value(), r) == TryAddSuspicion(old(Value()), id, vote, expectedEtag)
    {
      hide Identity.SiloId, Text.ParseDigits, Text.Decimal;
      PerformEvolves(Value(), AddSuspicion(id, vote, expectedEtag));
      if id !in silos {
        return Err(NotFound);
      }
      var current := silos[id];
      if current.etag != Some(expectedEtag) {
        return Err(Stale);
      }
      version := version + 1;
      var updated := current.(suspicions := current.suspicions + [vote], etag := Some(EtagOf(version)));
      silos := silos[id := updated];
      return Ok(updated);
    }

    method TryDeleteSilo(silo: SiloInfo) returns (r: Result<(), TableError>)
      requires Valid()
      modifies this
      ensures Valid()
      ensures (Value(), r) == TryDelete(old(Value()), silo)
    {
      hide Identity.SiloId, Text.ParseDigits, Text.Decimal;
      PerformEvolves(Value(), Delete(silo));
      var id := SiloId(silo.address);
      if id !in silos {
        return Ok(());
      }
      if silos[id].etag != silo.etag {
        return Err(Stale);
      }
      version := version + 1;
      silos := silos - {id};
      return Ok(());
    }
  }
}
