/** The single-silo directory (`pyleans/server/local_directory.py`) and the cache that decorates it
    (`pyleans/cluster/directory_cache.py`).

    `BareStep` is the directory by itself. `CachedStep` is the directory behind a cache, with
    eviction described by when each grain was last used; the object `DirectoryCache` keeps an
    ordered dictionary instead, and is proved to compute the same. */
module DirectoryCache {
  import opened Wrappers
  import opened Identity
  import opened Sequences
  import opened Directory
  import Port = DirectoryCluster

  // ---- Last uses, on any keys ------------------------------------------------------------

  /** `k` was used before all others. */
  predicate Oldest<K>(touched: map<K, nat>, k: K) {
    k in touched && forall h :: h in touched && h != k ==> touched[k] < touched[h]
  }

  predicate OneEach<K>(touched: map<K, nat>) {
    forall k, h :: k in touched && h in touched && k != h ==> touched[k] != touched[h]
  }

  predicate Before<K>(touched: map<K, nat>, now: nat) {
    forall k :: k in touched ==> touched[k] < now
  }

  lemma {:induction false} OldestExists<K>(touched: map<K, nat>)
    requires OneEach(touched) && touched != map[]
    ensures exists k :: Oldest(touched, k)
    decreases |touched.Keys|
  {
    var k :| k in touched;
    var rest := touched - {k};
    assert forall h :: h in touched && h != k ==> h in rest && rest[h] == touched[h];
    if rest == map[] {
      assert Oldest(touched, k);
    } else {
      assert rest.Keys == touched.Keys - {k};
      OldestExists(rest);
      var h :| Oldest(rest, h);
      assert Oldest(touched, if touched[k] < touched[h] then k else h);
    }
  }

  lemma OldestIsOne<K>(touched: map<K, nat>, g: K, h: K)
    requires Oldest(touched, g) && Oldest(touched, h)
    ensures g == h
  {
  }

  lemma StampNow<K>(touched: map<K, nat>, k: K, now: nat)
    requires OneEach(touched) && Before(touched, now)
    ensures OneEach(touched[k := now]) && Before(touched[k := now], now + 1)
  {
  }

  lemma Unstamp<K>(touched: map<K, nat>, ks: set<K>, now: nat)
    requires OneEach(touched) && Before(touched, now)
    ensures OneEach(touched - ks) && Before(touched - ks, now)
  {
  }

  /** With `k` just used and another key about, the oldest is another, and was the oldest before. */
  lemma OldestBefore<K>(touched: map<K, nat>, k: K, now: nat, h: K)
    requires Before(touched, now) && k !in touched && touched != map[] && Oldest(touched[k := now], h)
    ensures h != k && Oldest(touched, h)
  {
    var x :| x in touched;
    assert x in touched[k := now];
    assert forall y :: y in touched ==> y in touched[k := now] && touched[k := now][y] == touched[y];
  }

  lemma KeysSize<K, V>(m: map<K, V>)
    ensures |m| == |m.Keys|
  {
  }

  lemma PlacedSize<K, V>(m: map<K, V>, k: K, v: V)
    ensures m[k := v].Keys == m.Keys + {k}
    ensures |m[k := v]| == |m| + if k in m then 0 else 1
  {
    KeysSize(m);
    KeysSize(m[k := v]);
    assert m[k := v].Keys == m.Keys + {k};
    if k in m {
      assert m.Keys + {k} == m.Keys;
    }
  }

  lemma DroppedSize<K, V>(m: map<K, V>, ks: set<K>)
    ensures (m - ks).Keys == m.Keys - ks && |m - ks| <= |m|
  {
    KeysSize(m);
    KeysSize(m - ks);
    assert (m - ks).Keys == m.Keys - ks;
    assert m.Keys == (m.Keys - ks) + (m.Keys * ks);
  }

  lemma DroppedOne<K, V>(m: map<K, V>, k: K)
    requires k in m
    ensures |m - {k}| == |m| - 1
  {
    KeysSize(m);
    KeysSize(m - {k});
    assert (m - {k}).Keys == m.Keys - {k};
  }

  // ---- Keys in the order of their last use, as an ordered dictionary keeps them -------------

  ghost predicate InUseOrder<K(!new)>(order: seq<K>, touched: map<K, nat>) {
    && (forall k :: k in order ==> k in touched) && (forall k :: k in touched ==> k in order)
    && (forall i, j :: 0 <= i < j < |order| ==> touched[order[i]] < touched[order[j]])
  }

  function Removed<K(==)>(order: seq<K>, k: K): seq<K> {
    var i := FirstIndex(order, k);
    if i < |order| then order[..i] + order[i + 1..] else order
  }

  lemma RemovedMembers<K(!new)>(order: seq<K>, k: K)
    requires Distinct(order)
    ensures forall x :: x in Removed(order, k) <==> x in order && x != k
  {
    var i := FirstIndex(order, k);
    if i < |order| {
      assert order == order[..i] + [k] + order[i + 1..];
      assert forall x :: x in order <==> x in order[..i] || x == k || x in order[i + 1..];
    }
  }

  lemma RemovedAt<K(!new)>(order: seq<K>, k: K, j: nat)
    requires j < |Removed(order, k)|
    ensures var c := if j < FirstIndex(order, k) then j else j + 1; c < |order| && Removed(order, k)[j] == order[c]
  {
    hide FirstIndex;
    var i := FirstIndex(order, k);
    if i < |order| {
      if j < i {
        assert (order[..i] + order[i + 1..])[j] == order[..i][j];
      } else {
        assert (order[..i] + order[i + 1..])[j] == order[i + 1..][j - i];
      }
    }
  }

  lemma RemovedKeepsOrder<K(!new)>(order: seq<K>, touched: map<K, nat>, k: K)
    requires InUseOrder(order, touched)
    ensures InUseOrder(Removed(order, k), touched - {k})
  {
    hide FirstIndex, Removed;
    assert Distinct(order);
    RemovedMembers(order, k);
    hide Distinct;
    var r := Removed(order, k);
    forall a, b | 0 <= a < b < |r|
      ensures r[a] in touched && r[b] in touched && touched[r[a]] < touched[r[b]]
    {
      RemovedAt(order, k, a);
      RemovedAt(order, k, b);
    }
  }

  lemma AppendKeepsOrder<K(!new)>(order: seq<K>, touched: map<K, nat>, k: K, now: nat)
    requires InUseOrder(order, touched) && Before(touched, now) && k !in touched
    ensures InUseOrder(order + [k], touched[k := now])
  {
  }

  lemma FirstIsOldest<K(!new)>(order: seq<K>, touched: map<K, nat>)
    requires InUseOrder(order, touched) && touched != map[]
    ensures order != [] && Oldest(touched, order[0])
  {
    var x :| x in touched;
    assert x in order;
  }

  // ---- The directory by itself ---------------------------------------------------------

  datatype Store = Store(local: SiloAddress, entries: Partition, epoch: int)

  /** What a caller gets: an entry, nothing, a plain return, or the error for a non-local placement. */
  datatype Answer = Entry(entry: DirectoryEntry) | Nothing | Done | Refused

  /** Clock readings are inputs: `seenAt` when a cached entry is examined, `putAt` when one is stored. */
  datatype Op =
    | RegisterOp(grain: GrainId, silo: SiloAddress, putAt: real)
    | LookupOp(grain: GrainId, seenAt: real, putAt: real)
    | UnregisterOp(grain: GrainId, silo: SiloAddress)
    | ResolveOp(grain: GrainId, pick: SiloAddress, seenAt: real, putAt: real)
    | InvalidateOp(grain: GrainId)
    | InvalidateAllOp
    | InvalidateSiloOp(silo: SiloAddress)

  function StoreRegister(s: Store, g: GrainId, silo: SiloAddress): (Store, Answer) {
    if g in s.entries then (s, Entry(s.entries[g]))
    else
      var e := DirectoryEntry(g, silo, s.epoch + 1);
      (s.(entries := s.entries[g := e], epoch := s.epoch + 1), Entry(e))
  }

  function StoreLookup(s: Store, g: GrainId): Answer {
    if g in s.entries then Entry(s.entries[g]) else Nothing
  }

  function StoreUnregister(s: Store, g: GrainId, silo: SiloAddress): Store {
    if g in s.entries && s.entries[g].silo == silo then s.(entries := s.entries - {g}) else s
  }

  function StoreResolve(s: Store, g: GrainId, pick: SiloAddress): (Store, Answer) {
    if g in s.entries then (s, Entry(s.entries[g]))
    else if pick != s.local then (s, Refused)
    else StoreRegister(s, g, s.local)
  }

  /** The directory never hears of invalidations. */
  function BareStep(s: Store, op: Op): (Store, Answer) {
    match op
    case RegisterOp(g, silo, _) => StoreRegister(s, g, silo)
    case LookupOp(g, _, _) => (s, StoreLookup(s, g))
    case UnregisterOp(g, silo) => (StoreUnregister(s, g, silo), Done)
    case ResolveOp(g, pick, _, _) => StoreResolve(s, g, pick)
    case _ => (s, Done)
  }

  function BareRun(local: SiloAddress, ops: seq<Op>): (Store, seq<Answer>) {
    if ops == [] then (Store(local, map[], 0), [])
    else
      var (s, answers) := BareRun(local, ops[..|ops| - 1]);
      var (s', a) := BareStep(s, ops[|ops| - 1]);
      (s', answers + [a])
  }

  // ---- The directory by itself is the register-if-absent map -----------------------------

  /** The call of the directory port that an operation makes. */
  function CallOf(op: Op): (c: Port.Call)
    requires !op.InvalidateOp? && !op.InvalidateAllOp? && !op.InvalidateSiloOp?
  {
    match op
    case RegisterOp(g, silo, _) => Port.RegisterCall(g, silo)
    case LookupOp(g, _, _) => Port.LookupCall(g)
    case UnregisterOp(g, silo) => Port.UnregisterCall(g, silo)
    case ResolveOp(g, _, _, _) => Port.ResolveCall(g)
  }

  function PortAnswer(a: Answer): Port.Answer
    requires !a.Refused?
  {
    match a
    case Entry(e) => Port.Found(e)
    case Nothing => Port.NotFound
    case Done => Port.Done
  }

  predicate Invalidates(op: Op) {
    op.InvalidateOp? || op.InvalidateAllOp? || op.InvalidateSiloOp?
  }

  /** A grain that is not held is registered. */
  predicate Creates(s: Store, op: Op) {
    (op.RegisterOp? || (op.ResolveOp? && op.pick == s.local)) && op.grain !in s.entries
  }

  /** `op` answers as the map of the port does and leaves that map's next state. What it creates has the next epoch,
      and is on the local silo if placed; a placement elsewhere is refused. */
  ghost predicate ActsAsMap(s: Store, op: Op, a: Answer, s': Store) {
    && s'.local == s.local
    && s'.epoch == s.epoch + (if Creates(s, op) then 1 else 0)
    && (Creates(s, op) ==> a.Entry? && a.entry.epoch == s'.epoch && (op.ResolveOp? ==> a.entry.silo == s.local))
    && (Invalidates(op) ==> s' == s)
    && (a.Refused? <==> op.ResolveOp? && op.grain !in s.entries && op.pick != s.local)
    && (a.Refused? ==> s' == s)
    && (!Invalidates(op) && !a.Refused? ==>
          Port.Legal(s.entries, CallOf(op), PortAnswer(a)) &&
          s'.entries == Port.After(s.entries, CallOf(op), PortAnswer(a)))
  }

  function Creations(local: SiloAddress, ops: seq<Op>): nat {
    if ops == [] then 0
    else
      var front := ops[..|ops| - 1];
      Creations(local, front) + if Creates(BareRun(local, front).0, ops[|ops| - 1]) then 1 else 0
  }

  lemma StepActsAsMap(s: Store, op: Op)
    ensures ActsAsMap(s, op, BareStep(s, op).1, BareStep(s, op).0)
  {
    if !Invalidates(op) && op.grain in s.entries {
      assert s.entries[op.grain := s.entries[op.grain]] == s.entries;
    }
  }

  /** Every operation of a run acts on what the operations before it left as the map of the port does, and the epoch
      counter is the number of entries ever created. */
  lemma {:induction false} LocalDirectoryIsAMap(local: SiloAddress, ops: seq<Op>)
    ensures var (s, answers) := BareRun(local, ops);
            && |answers| == |ops| && s.local == local && s.epoch == Creations(local, ops)
            && forall k :: 0 <= k < |ops| ==>
                 ActsAsMap(BareRun(local, ops[..k]).0, ops[k], answers[k], BareRun(local, ops[..k + 1]).0)
  {
    hide ActsAsMap, BareStep, Creates;
    if ops != [] {
      var front, n := ops[..|ops| - 1], |ops| - 1;
      LocalDirectoryIsAMap(local, front);
      var s := BareRun(local, front).0;
      StepActsAsMap(s, ops[n]);
      CountsCreation(s, ops[n], BareStep(s, ops[n]).1, BareStep(s, ops[n]).0);
      var answers := BareRun(local, ops).1;
      forall k | 0 <= k < |ops|
        ensures ActsAsMap(BareRun(local, ops[..k]).0, ops[k], answers[k], BareRun(local, ops[..k + 1]).0)
      {
        if k < n {
          assert front[..k] == ops[..k] && front[..k + 1] == ops[..k + 1];
        } else {
          assert ops[..k + 1] == ops;
        }
      }
    }
  }

  lemma CountsCreation(s: Store, op: Op, a: Answer, s': Store)
    requires ActsAsMap(s, op, a, s')
    ensures s'.local == s.local && s'.epoch == s.epoch + if Creates(s, op) then 1 else 0
  {
  }

  // ---- The directory behind a cache ------------------------------------------------------

  datatype Slot = Slot(value: DirectoryEntry, expiresAt: real)

  /** `touched` is the number of the operation that last put or hit a cached grain; `tick` numbers the next one. */
  datatype State = State(store: Store, slots: map<GrainId, Slot>, touched: map<GrainId, nat>, tick: nat)

  predicate FreshAt(s: State, g: GrainId, now: real) {
    g in s.slots && now < s.slots[g].expiresAt
  }

  function Drop(s: State, gs: set<GrainId>): State {
    s.(slots := s.slots - gs, touched := s.touched - gs)
  }

  function Hit(s: State, g: GrainId): State {
    s.(touched := s.touched[g := s.tick])
  }

  function Placed(s: State, g: GrainId, slot: Slot): State {
    s.(slots := s.slots[g := slot], touched := s.touched[g := s.tick])
  }

  /** Whoever must make room in a cache over its size: the grain unused for longest. */
  ghost function Victim(s: State, maxSize: nat): set<GrainId> {
    if |s.slots| > maxSize && exists h :: Oldest(s.touched, h) then
      var h :| Oldest(s.touched, h);
      {h}
    else {}
  }

  ghost function Put(s: State, maxSize: nat, g: GrainId, slot: Slot): State {
    var s1 := Placed(s, g, slot);
    Drop(s1, Victim(s1, maxSize))
  }

  ghost function PutAnswer(s: State, maxSize: nat, g: GrainId, a: Answer, expiresAt: real): State {
    if a.Entry? then Put(s, maxSize, g, Slot(a.entry, expiresAt)) else s
  }

  function StaleFor(s: State, silo: SiloAddress): set<GrainId> {
    set g | g in s.slots && s.slots[g].value.silo == silo
  }

  ghost function RegisterEffect(s: State, maxSize: nat, g: GrainId, silo: SiloAddress, expiresAt: real)
    : (State, Answer)
  {
    var (store, a) := StoreRegister(s.store, g, silo);
    (PutAnswer(s.(store := store), maxSize, g, a, expiresAt), a)
  }

  ghost function LookupEffect(s: State, maxSize: nat, g: GrainId, seenAt: real, expiresAt: real): (State, Answer) {
    if FreshAt(s, g, seenAt) then (Hit(s, g), Entry(s.slots[g].value))
    else
      var a := StoreLookup(s.store, g);
      (PutAnswer(Drop(s, {g}), maxSize, g, a, expiresAt), a)
  }

  function UnregisterEffect(s: State, g: GrainId, silo: SiloAddress): State {
    Drop(s, {g}).(store := StoreUnregister(s.store, g, silo))
  }

  ghost function ResolveEffect(s: State, maxSize: nat, g: GrainId, pick: SiloAddress, seenAt: real, expiresAt: real)
    : (State, Answer)
  {
    if FreshAt(s, g, seenAt) then (Hit(s, g), Entry(s.slots[g].value))
    else
      var (store, a) := StoreResolve(s.store, g, pick);
      (PutAnswer(Drop(s, {g}).(store := store), maxSize, g, a, expiresAt), a)
  }

  ghost function CachedEffect(s: State, maxSize: nat, ttl: real, op: Op): (State, Answer) {
    match op
    case RegisterOp(g, silo, putAt) => RegisterEffect(s, maxSize, g, silo, putAt + ttl)
    case LookupOp(g, seenAt, putAt) => LookupEffect(s, maxSize, g, seenAt, putAt + ttl)
    case UnregisterOp(g, silo) => (UnregisterEffect(s, g, silo), Done)
    case ResolveOp(g, pick, seenAt, putAt) => ResolveEffect(s, maxSize, g, pick, seenAt, putAt + ttl)
    case InvalidateOp(g) => (Drop(s, {g}), Done)
    case InvalidateAllOp => (s.(slots := map[], touched := map[]), Done)
    case InvalidateSiloOp(silo) => (Drop(s, StaleFor(s, silo)), Done)
  }

  ghost function CachedStep(s: State, maxSize: nat, ttl: real, op: Op): (State, Answer) {
    var (s', a) := CachedEffect(s, maxSize, ttl, op);
    (s'.(tick := s.tick + 1), a)
  }

  ghost function CachedRun(local: SiloAddress, maxSize: nat, ttl: real, ops: seq<Op>): (State, seq<Answer>) {
    if ops == [] then (State(Store(local, map[], 0), map[], map[], 0), [])
    else
      var (s, answers) := CachedRun(local, maxSize, ttl, ops[..|ops| - 1]);
      var (s', a) := CachedStep(s, maxSize, ttl, ops[|ops| - 1]);
      (s', answers + [a])
  }

  // ---- Transparency, size, eviction --------------------------------------------------------

  /** What is cached is what the directory holds. */
  predicate Coherent(s: State) {
    forall g :: g in s.slots ==> g in s.store.entries && s.slots[g].value == s.store.entries[g]
  }

  /** Every cached grain has its own last use, before `now`. */
  predicate Stamped(s: State, now: nat) {
    s.touched.Keys == s.slots.Keys && OneEach(s.touched) && Before(s.touched, now)
  }

  predicate InOrder(s: State, maxSize: nat) {
    Coherent(s) && Stamped(s, s.tick) && |s.slots| <= maxSize
  }

  /** As `InOrder`, with the current operation's number already given to a grain. */
  predicate InOrderNow(s: State, maxSize: nat) {
    Coherent(s) && Stamped(s, s.tick + 1) && |s.slots| <= maxSize
  }

  lemma DropKeeps(s: State, maxSize: nat, gs: set<GrainId>)
    requires InOrder(s, maxSize)
    ensures InOrder(Drop(s, gs), maxSize)
  {
    DropKeepsNow(s, gs, s.tick);
    DroppedSize(s.slots, gs);
  }

  lemma PlacedOk(s: State, g: GrainId, slot: Slot)
    requires Coherent(s) && Stamped(s, s.tick) && g in s.store.entries && slot.value == s.store.entries[g]
    ensures Coherent(Placed(s, g, slot)) && Stamped(Placed(s, g, slot), s.tick + 1)
  {
    hide OneEach, Before;
    PlacedSize(s.slots, g, slot);
    PlacedSize(s.touched, g, s.tick);
    StampNow(s.touched, g, s.tick);
  }

  /** Only a full cache that does not have the grain gives one up, and that is the one unused for longest. */
  lemma VictimIsOldest(s: State, maxSize: nat, g: GrainId, slot: Slot)
    returns (h: GrainId)
    requires InOrder(s, maxSize) && maxSize > 0 && g in s.store.entries && slot.value == s.store.entries[g]
    ensures var gone := Victim(Placed(s, g, slot), maxSize);
            && (gone == {} <==> g in s.slots || |s.slots| < maxSize)
            && (gone != {} ==> gone == {h} && h != g && h in s.slots && Oldest(s.touched, h))
  {
    hide OneEach, Before, Oldest, Coherent;
    var s1 := Placed(s, g, slot);
    PlacedSize(s.slots, g, slot);
    PlacedOk(s, g, slot);
    h := g;
    if |s1.slots| > maxSize {
      OldestExists(s1.touched);
      h :| Oldest(s1.touched, h) && Victim(s1, maxSize) == {h};
      assert s.touched.Keys == s.slots.Keys && s.slots != map[];
      OldestBefore(s.touched, g, s.tick, h);
    }
  }

  lemma DropKeepsNow(s: State, gs: set<GrainId>, now: nat)
    requires Coherent(s) && Stamped(s, now)
    ensures Coherent(Drop(s, gs)) && Stamped(Drop(s, gs), now)
  {
    hide OneEach, Before;
    DroppedSize(s.slots, gs);
    DroppedSize(s.touched, gs);
    Unstamp(s.touched, gs, now);
  }

  lemma PutSize(s: State, maxSize: nat, g: GrainId, slot: Slot)
    requires InOrder(s, maxSize) && maxSize > 0 && g in s.store.entries && slot.value == s.store.entries[g]
    ensures |Put(s, maxSize, g, slot).slots| <= maxSize
  {
    var s1 := Placed(s, g, slot);
    var h := VictimIsOldest(s, maxSize, g, slot);
    hide Coherent, Stamped, Victim, Oldest;
    PlacedSize(s.slots, g, slot);
    var gone := Victim(s1, maxSize);
    DroppedSize(s1.slots, gone);
    if gone != {} {
      DroppedOne(s1.slots, h);
    }
  }

  /** Storing an entry the directory holds keeps the cache coherent and within its size. */
  lemma PutKeeps(s: State, maxSize: nat, g: GrainId, slot: Slot)
    requires InOrder(s, maxSize) && maxSize > 0 && g in s.store.entries && slot.value == s.store.entries[g]
    ensures InOrderNow(Put(s, maxSize, g, slot), maxSize)
  {
    PutSize(s, maxSize, g, slot);
    PlacedOk(s, g, slot);
    var s1 := Placed(s, g, slot);
    var gone := Victim(s1, maxSize);
    DropKeepsNow(s1, gone, s.tick + 1);
    assert Put(s, maxSize, g, slot) == Drop(s1, gone) && Drop(s1, gone).tick == s.tick;
    hide Put, Drop, Placed, Coherent, Stamped;
  }

  // ---- One step ----------------------------------------------------------------------------

  predicate SameBut(p: Partition, q: Partition, g: GrainId) {
    forall h :: h != g && h in p ==> h in q && q[h] == p[h]
  }

  /** The directory's own step changes at most the entry of the grain it names, and never one already there except
      to remove it. */
  lemma StoreSteps(s: Store, g: GrainId, silo: SiloAddress)
    ensures var (r, a) := StoreRegister(s, g, silo);
            SameBut(s.entries, r.entries, g) && a.Entry? && g in r.entries && a.entry == r.entries[g] &&
            (g in s.entries ==> r == s)
    ensures var (r, a) := StoreResolve(s, g, silo);
            SameBut(s.entries, r.entries, g) && (g in s.entries ==> r == s && a == Entry(s.entries[g])) &&
            (a.Entry? ==> g in r.entries && a.entry == r.entries[g]) && (!a.Entry? ==> r == s)
    ensures SameBut(s.entries, StoreUnregister(s, g, silo).entries, g)
    ensures var a := StoreLookup(s, g); a.Entry? ==> g in s.entries && a.entry == s.entries[g]
  {
  }

  lemma StoreChangeKeeps(s: State, maxSize: nat, g: GrainId, store: Store)
    requires InOrder(s, maxSize) && SameBut(s.store.entries, store.entries, g)
    requires g in s.slots ==> g in store.entries && store.entries[g] == s.store.entries[g]
    ensures InOrder(s.(store := store), maxSize)
  {
    hide Stamped;
    assert Stamped(s.(store := store), s.tick) by {
      SameStamps(s, s.(store := store));
    }
  }

  lemma SameStamps(s: State, s': State)
    ensures s'.slots == s.slots && s'.touched == s.touched ==> forall now :: Stamped(s, now) <==> Stamped(s', now)
    ensures s'.slots == s.slots && s'.store == s.store ==> (Coherent(s) <==> Coherent(s'))
  {
    hide OneEach, Before;
  }

  lemma PutAnswerKeeps(s: State, maxSize: nat, g: GrainId, a: Answer, expiresAt: real)
    requires InOrder(s, maxSize) && maxSize > 0
    requires a.Entry? ==> g in s.store.entries && a.entry == s.store.entries[g]
    ensures var s' := PutAnswer(s, maxSize, g, a, expiresAt);
            InOrderNow(s', maxSize) && s'.store == s.store && s'.tick == s.tick
  {
    if a.Entry? {
      PutKeeps(s, maxSize, g, Slot(a.entry, expiresAt));
      hide Victim, InOrderNow;
    } else {
      hide OneEach;
    }
  }

  lemma HitKeeps(s: State, maxSize: nat, g: GrainId)
    requires InOrder(s, maxSize) && g in s.slots
    ensures InOrderNow(Hit(s, g), maxSize)
  {
    hide OneEach, Before;
    StampNow(s.touched, g, s.tick);
    PlacedSize(s.touched, g, s.tick);
    assert s.touched.Keys + {g} == s.touched.Keys;
  }

  lemma OkSoonEnough(s: State, maxSize: nat)
    requires InOrder(s, maxSize)
    ensures InOrderNow(s, maxSize)
  {
    hide OneEach, Coherent;
  }

  /** Behind the cache the directory has become `store`, and the cache is in order. */
  predicate Serves(s: State, maxSize: nat, store: Store, s': State) {
    InOrderNow(s', maxSize) && s'.store == store && s'.tick == s.tick
  }

  lemma RegisterTransparent(s: State, maxSize: nat, g: GrainId, silo: SiloAddress, expiresAt: real)
    requires InOrder(s, maxSize) && maxSize > 0
    ensures var (s', a) := RegisterEffect(s, maxSize, g, silo, expiresAt);
            var (store, b) := StoreRegister(s.store, g, silo);
            Serves(s, maxSize, store, s') && a == b
  {
    var (store, a) := StoreRegister(s.store, g, silo);
    StoreSteps(s.store, g, silo);
    assert g in s.slots ==> g in s.store.entries;
    StoreChangeKeeps(s, maxSize, g, store);
    hide InOrder, InOrderNow, PutAnswer, StoreRegister;
    PutAnswerKeeps(s.(store := store), maxSize, g, a, expiresAt);
  }

  lemma MissTransparent(s: State, maxSize: nat, g: GrainId, store: Store, a: Answer, expiresAt: real)
    requires InOrder(s, maxSize) && maxSize > 0 && SameBut(s.store.entries, store.entries, g)
    requires a.Entry? ==> g in store.entries && a.entry == store.entries[g]
    ensures Serves(s, maxSize, store, PutAnswer(Drop(s, {g}).(store := store), maxSize, g, a, expiresAt))
  {
    DropKeeps(s, maxSize, {g});
    StoreChangeKeeps(Drop(s, {g}), maxSize, g, store);
    hide InOrder, InOrderNow, PutAnswer, SameBut;
    PutAnswerKeeps(Drop(s, {g}).(store := store), maxSize, g, a, expiresAt);
  }

  lemma HitTransparent(s: State, maxSize: nat, g: GrainId)
    requires InOrder(s, maxSize) && g in s.slots
    ensures Serves(s, maxSize, s.store, Hit(s, g)) && g in s.store.entries && s.slots[g].value == s.store.entries[g]
  {
    HitKeeps(s, maxSize, g);
    hide InOrderNow, Stamped;
  }

  lemma LookupTransparent(s: State, maxSize: nat, g: GrainId, seenAt: real, expiresAt: real)
    requires InOrder(s, maxSize) && maxSize > 0
    ensures var (s', a) := LookupEffect(s, maxSize, g, seenAt, expiresAt);
            Serves(s, maxSize, s.store, s') && a == StoreLookup(s.store, g)
  {
    hide InOrder, Serves, PutAnswer, SameBut, Hit;
    if FreshAt(s, g, seenAt) {
      HitTransparent(s, maxSize, g);
    } else {
      StoreSteps(s.store, g, s.store.local);
      assert SameBut(s.store.entries, s.store.entries, g) by {
        SameButItself(s.store.entries, g);
      }
      MissTransparent(s, maxSize, g, s.store, StoreLookup(s.store, g), expiresAt);
      assert Drop(s, {g}).(store := s.store) == Drop(s, {g});
    }
  }

  lemma SameButItself(p: Partition, g: GrainId)
    ensures SameBut(p, p, g)
  {
  }

  lemma ResolveTransparent(s: State, maxSize: nat, g: GrainId, pick: SiloAddress, seenAt: real, expiresAt: real)
    requires InOrder(s, maxSize) && maxSize > 0
    ensures var (s', a) := ResolveEffect(s, maxSize, g, pick, seenAt, expiresAt);
            var (store, b) := StoreResolve(s.store, g, pick);
            Serves(s, maxSize, store, s') && a == b
  {
    hide InOrder, Serves, PutAnswer, SameBut, Hit, StoreResolve;
    StoreSteps(s.store, g, pick);
    if FreshAt(s, g, seenAt) {
      HitTransparent(s, maxSize, g);
    } else {
      var (store, a) := StoreResolve(s.store, g, pick);
      MissTransparent(s, maxSize, g, store, a, expiresAt);
    }
  }

  lemma UnregisterTransparent(s: State, maxSize: nat, g: GrainId, silo: SiloAddress)
    requires InOrder(s, maxSize)
    ensures Serves(s, maxSize, StoreUnregister(s.store, g, silo), UnregisterEffect(s, g, silo))
  {
    var store := StoreUnregister(s.store, g, silo);
    StoreSteps(s.store, g, silo);
    DropKeeps(s, maxSize, {g});
    StoreChangeKeeps(Drop(s, {g}), maxSize, g, store);
    hide InOrder, InOrderNow, StoreUnregister;
    OkSoonEnough(Drop(s, {g}).(store := store), maxSize);
  }

  lemma DropTransparent(s: State, maxSize: nat, gs: set<GrainId>)
    requires InOrder(s, maxSize)
    ensures Serves(s, maxSize, s.store, Drop(s, gs))
  {
    DropKeeps(s, maxSize, gs);
    hide InOrder, InOrderNow;
    OkSoonEnough(Drop(s, gs), maxSize);
  }

  lemma ClearTransparent(s: State, maxSize: nat)
    requires InOrder(s, maxSize)
    ensures Serves(s, maxSize, s.store, s.(slots := map[], touched := map[]))
  {
  }

  lemma EffectTransparent(s: State, maxSize: nat, ttl: real, op: Op)
    requires InOrder(s, maxSize) && maxSize > 0
    ensures var (s', a) := CachedEffect(s, maxSize, ttl, op);
            Serves(s, maxSize, BareStep(s.store, op).0, s') && a == BareStep(s.store, op).1
  {
    hide InOrder, Serves, RegisterEffect, LookupEffect, ResolveEffect, UnregisterEffect, StaleFor, Drop;
    hide StoreRegister, StoreLookup, StoreResolve, StoreUnregister;
    match op
    case RegisterOp(g, silo, putAt) => RegisterTransparent(s, maxSize, g, silo, putAt + ttl);
    case LookupOp(g, seenAt, putAt) => LookupTransparent(s, maxSize, g, seenAt, putAt + ttl);
    case ResolveOp(g, pick, seenAt, putAt) => ResolveTransparent(s, maxSize, g, pick, seenAt, putAt + ttl);
    case UnregisterOp(g, silo) => UnregisterTransparent(s, maxSize, g, silo);
    case InvalidateOp(g) => DropTransparent(s, maxSize, {g});
    case InvalidateSiloOp(silo) => DropTransparent(s, maxSize, StaleFor(s, silo));
    case InvalidateAllOp => ClearTransparent(s, maxSize);
  }

  lemma StepTransparent(s: State, maxSize: nat, ttl: real, op: Op)
    requires InOrder(s, maxSize) && maxSize > 0
    ensures var (s', a) := CachedStep(s, maxSize, ttl, op);
            InOrder(s', maxSize) && (s'.store, a) == BareStep(s.store, op) && s'.tick == s.tick + 1
  {
    hide CachedEffect, BareStep, Stamped, Coherent;
    EffectTransparent(s, maxSize, ttl, op);
    var (s', a) := CachedEffect(s, maxSize, ttl, op);
    SameStamps(s', s'.(tick := s.tick + 1));
  }

  /** Whatever the clock reads and whatever is invalidated, callers of the cached directory get what the bare directory
      would have answered, the directory ends as it would have, and the cache never outgrows its size. */
  lemma {:induction false} CacheIsTransparent(local: SiloAddress, maxSize: nat, ttl: real, ops: seq<Op>)
    requires maxSize > 0
    ensures var (s, answers) := CachedRun(local, maxSize, ttl, ops);
            && (s.store, answers) == BareRun(local, ops)
            && InOrder(s, maxSize) && s.tick == |ops| == |answers|
  {
    hide CachedStep, BareStep, InOrder;
    if ops == [] {
      assert InOrder(CachedRun(local, maxSize, ttl, ops).0, maxSize) by {
        EmptyOk(local, maxSize);
      }
    } else {
      var front := ops[..|ops| - 1];
      CacheIsTransparent(local, maxSize, ttl, front);
      StepTransparent(CachedRun(local, maxSize, ttl, front).0, maxSize, ttl, ops[|ops| - 1]);
    }
  }

  lemma EmptyOk(local: SiloAddress, maxSize: nat)
    ensures InOrder(State(Store(local, map[], 0), map[], map[], 0), maxSize)
  {
  }

  // ---- Which entry is given up ---------------------------------------------------------------

  /** The caller got an entry for `g` from this operation. */
  predicate Uses(op: Op, a: Answer, g: GrainId) {
    (op.RegisterOp? || op.LookupOp? || op.ResolveOp?) && op.grain == g && a.Entry?
  }

  /** How many operations up to and including the last that used `g`; 0 if none did. */
  function LastUse(ops: seq<Op>, answers: seq<Answer>, g: GrainId): nat
    requires |ops| == |answers|
  {
    if ops == [] then 0
    else if Uses(ops[|ops| - 1], answers[|ops| - 1], g) then |ops|
    else LastUse(ops[..|ops| - 1], answers[..|ops| - 1], g)
  }

  /** The operation itself is a reason for `g` to leave the cache. */
  predicate Names(s: State, op: Op, g: GrainId) {
    match op
    case RegisterOp(_, _, _) => false
    case LookupOp(k, _, _) => k == g
    case UnregisterOp(k, _) => k == g
    case ResolveOp(k, _, _, _) => k == g
    case InvalidateOp(k) => k == g
    case InvalidateAllOp => true
    case InvalidateSiloOp(silo) => g in s.slots && s.slots[g].value.silo == silo
  }

  /** After an operation that may have used `used`, last uses are as before but for its. */
  predicate Restamped(s: State, used: set<GrainId>, s': State) {
    forall g :: g in s'.touched ==>
      if g in used then s'.touched[g] == s.tick else g in s.touched && s'.touched[g] == s.touched[g]
  }

  lemma PutRestamps(s: State, maxSize: nat, gs: set<GrainId>, store: Store, g: GrainId, a: Answer, expiresAt: real)
    ensures Restamped(s, if a.Entry? then {g} else {},
                      PutAnswer(Drop(s, gs).(store := store), maxSize, g, a, expiresAt))
  {
    hide Victim;
  }

  lemma StepRestamps(s: State, maxSize: nat, ttl: real, op: Op, g: GrainId)
    ensures var (s', a) := CachedStep(s, maxSize, ttl, op);
            g in s'.touched ==>
              if Uses(op, a, g) then s'.touched[g] == s.tick else g in s.touched && s'.touched[g] == s.touched[g]
  {
    hide PutAnswer, StoreRegister, StoreResolve, StoreLookup, StoreUnregister;
    match op
    case RegisterOp(k, silo, putAt) =>
      var (store, a) := StoreRegister(s.store, k, silo);
      PutRestamps(s, maxSize, {}, store, k, a, putAt + ttl);
      DropNone(s);
    case LookupOp(k, seenAt, putAt) =>
      var a := StoreLookup(s.store, k);
      PutRestamps(s, maxSize, {k}, s.store, k, a, putAt + ttl);
      assert Drop(s, {k}).(store := s.store) == Drop(s, {k});
    case ResolveOp(k, pick, seenAt, putAt) =>
      var (store, a) := StoreResolve(s.store, k, pick);
      PutRestamps(s, maxSize, {k}, store, k, a, putAt + ttl);
    case _ =>
  }

  lemma DropNone(s: State)
    ensures Drop(s, {}) == s
  {
    assert s.slots - {} == s.slots && s.touched - {} == s.touched;
  }

  lemma PutAnswerCaches(s: State, maxSize: nat, g: GrainId, a: Answer, expiresAt: real)
    requires InOrder(s, maxSize) && maxSize > 0 && a.Entry?
    requires g in s.store.entries && a.entry == s.store.entries[g]
    ensures var s' := PutAnswer(s, maxSize, g, a, expiresAt);
            g in s'.slots && s'.slots[g] == Slot(a.entry, expiresAt)
  {
    hide InOrder, Oldest;
    var h := VictimIsOldest(s, maxSize, g, Slot(a.entry, expiresAt));
    hide Victim;
  }

  lemma MissCaches(s: State, maxSize: nat, g: GrainId, store: Store, a: Answer, expiresAt: real)
    requires InOrder(s, maxSize) && maxSize > 0 && SameBut(s.store.entries, store.entries, g)
    requires a.Entry? && g in store.entries && a.entry == store.entries[g]
    ensures var s' := PutAnswer(Drop(s, {g}).(store := store), maxSize, g, a, expiresAt);
            g in s'.slots && s'.slots[g] == Slot(a.entry, expiresAt)
  {
    DropKeeps(s, maxSize, {g});
    StoreChangeKeeps(Drop(s, {g}), maxSize, g, store);
    hide InOrder, PutAnswer, SameBut;
    PutAnswerCaches(Drop(s, {g}).(store := store), maxSize, g, a, expiresAt);
  }

  /** An entry found fresh keeps its expiry; one the directory was asked for is cached for a full lifetime. */
  predicate CachedAfter(s: State, ttl: real, op: Op, a: Answer, s': State)
    requires op.RegisterOp? || op.LookupOp? || op.ResolveOp?
  {
    var g := op.grain;
    && g in s'.slots && a.Entry? && s'.slots[g].value == a.entry
    && s'.slots[g].expiresAt ==
         if !op.RegisterOp? && FreshAt(s, g, op.seenAt) then s.slots[g].expiresAt else op.putAt + ttl
  }

  lemma RegisterCaches(s: State, maxSize: nat, ttl: real, g: GrainId, silo: SiloAddress, putAt: real)
    requires InOrder(s, maxSize) && maxSize > 0
    ensures var op := RegisterOp(g, silo, putAt);
            var (s', a) := CachedStep(s, maxSize, ttl, op);
            CachedAfter(s, ttl, op, a, s')
  {
    hide InOrder, PutAnswer, StoreRegister;
    RegisterKeepsCached(s, maxSize, g, silo);
    var (store, a) := StoreRegister(s.store, g, silo);
    PutAnswerCaches(s.(store := store), maxSize, g, a, putAt + ttl);
  }

  lemma LookupCaches(s: State, maxSize: nat, ttl: real, g: GrainId, seenAt: real, putAt: real)
    requires InOrder(s, maxSize) && maxSize > 0
    ensures var op := LookupOp(g, seenAt, putAt);
            var (s', a) := CachedStep(s, maxSize, ttl, op);
            a.Entry? ==> CachedAfter(s, ttl, op, a, s')
  {
    hide InOrder, PutAnswer, StoreLookup, SameBut, CachedStep;
    LookupStep(s, maxSize, ttl, g, seenAt, putAt);
    var a := StoreLookup(s.store, g);
    if !FreshAt(s, g, seenAt) && a.Entry? {
      StoreSteps(s.store, g, s.store.local);
      SameButItself(s.store.entries, g);
      MissCaches(s, maxSize, g, s.store, a, putAt + ttl);
      assert Drop(s, {g}).(store := s.store) == Drop(s, {g});
    }
  }

  lemma ResolveCaches(s: State, maxSize: nat, ttl: real, g: GrainId, pick: SiloAddress, seenAt: real, putAt: real)
    requires InOrder(s, maxSize) && maxSize > 0
    ensures var op := ResolveOp(g, pick, seenAt, putAt);
            var (s', a) := CachedStep(s, maxSize, ttl, op);
            a.Entry? ==> CachedAfter(s, ttl, op, a, s')
  {
    hide InOrder, PutAnswer, StoreResolve, SameBut, CachedStep;
    ResolveStep(s, maxSize, ttl, g, pick, seenAt, putAt);
    var (store, a) := StoreResolve(s.store, g, pick);
    if !FreshAt(s, g, seenAt) && a.Entry? {
      StoreSteps(s.store, g, pick);
      MissCaches(s, maxSize, g, store, a, putAt + ttl);
    }
  }

  /** Whatever entry a caller was given is in the cache afterwards. */
  lemma UsedIsCached(s: State, maxSize: nat, ttl: real, op: Op)
    requires InOrder(s, maxSize) && maxSize > 0 && (op.RegisterOp? || op.LookupOp? || op.ResolveOp?)
    ensures var (s', a) := CachedStep(s, maxSize, ttl, op);
            a.Entry? ==> CachedAfter(s, ttl, op, a, s')
  {
    hide InOrder, CachedStep, CachedAfter;
    match op
    case RegisterOp(g, silo, putAt) => RegisterCaches(s, maxSize, ttl, g, silo, putAt);
    case LookupOp(g, seenAt, putAt) => LookupCaches(s, maxSize, ttl, g, seenAt, putAt);
    case ResolveOp(g, pick, seenAt, putAt) => ResolveCaches(s, maxSize, ttl, g, pick, seenAt, putAt);
  }

  predicate KeepsSlot(s: State, g: GrainId, s': State) {
    g in s.slots && g in s'.slots && s'.slots[g] == s.slots[g]
  }

  /** Whenever it would store, a lookup of `g` at this reading leaves the slot of `g` as it is. */
  ghost predicate AnswersFromCache(s: State, maxSize: nat, ttl: real, g: GrainId, now: real) {
    forall putAt :: KeepsSlot(s, g, CachedStep(s, maxSize, ttl, LookupOp(g, now, putAt)).0)
  }

  lemma FreshMeansHit(s: State, maxSize: nat, ttl: real, g: GrainId, now: real)
    requires InOrder(s, maxSize) && maxSize > 0
    ensures FreshAt(s, g, now) <==> AnswersFromCache(s, maxSize, ttl, g, now)
    ensures FreshAt(s, g, now) ==> g in s.store.entries && forall putAt ::
              CachedStep(s, maxSize, ttl, LookupOp(g, now, putAt)).1 == Entry(s.store.entries[g])
  {
    InCacheIsHeld(s, maxSize, g);
    hide InOrder, CachedStep;
    if FreshAt(s, g, now) {
      forall putAt
        ensures KeepsSlot(s, g, CachedStep(s, maxSize, ttl, LookupOp(g, now, putAt)).0)
        ensures CachedStep(s, maxSize, ttl, LookupOp(g, now, putAt)).1 == Entry(s.store.entries[g])
      {
        LookupStep(s, maxSize, ttl, g, now, putAt);
      }
    } else if g in s.slots {
      var putAt := s.slots[g].expiresAt - ttl + 1.0;
      LookupCaches(s, maxSize, ttl, g, now, putAt);
      LookupStep(s, maxSize, ttl, g, now, putAt);
      assert !KeepsSlot(s, g, CachedStep(s, maxSize, ttl, LookupOp(g, now, putAt)).0);
    } else {
      assert !KeepsSlot(s, g, CachedStep(s, maxSize, ttl, LookupOp(g, now, 0.0)).0);
    }
  }

  lemma InCacheIsHeld(s: State, maxSize: nat, g: GrainId)
    requires InOrder(s, maxSize)
    ensures g in s.slots ==> g in s.store.entries && s.slots[g].value == s.store.entries[g]
  {
  }

  lemma {:induction false} TouchedIsLastUse(local: SiloAddress, maxSize: nat, ttl: real, ops: seq<Op>, g: GrainId)
    requires maxSize > 0 && g in CachedRun(local, maxSize, ttl, ops).0.touched
    ensures var (s, answers) := CachedRun(local, maxSize, ttl, ops);
            |answers| == |ops| && s.touched[g] + 1 == LastUse(ops, answers, g)
  {
    hide CachedStep, Uses, InOrder;
    CacheIsTransparent(local, maxSize, ttl, ops);
    var front := ops[..|ops| - 1];
    var (s, answers) := CachedRun(local, maxSize, ttl, front);
    CacheIsTransparent(local, maxSize, ttl, front);
    StepRestamps(s, maxSize, ttl, ops[|ops| - 1], g);
    var all := CachedRun(local, maxSize, ttl, ops).1;
    assert all[..|front|] == answers;
    if !Uses(ops[|ops| - 1], all[|front|], g) {
      TouchedIsLastUse(local, maxSize, ttl, front, g);
    }
  }

  lemma PutEvicts(s: State, maxSize: nat, k: GrainId, a: Answer, expiresAt: real, g: GrainId)
    requires InOrder(s, maxSize) && maxSize > 0 && g in s.slots
    requires a.Entry? ==> k in s.store.entries && a.entry == s.store.entries[k]
    requires g !in PutAnswer(s, maxSize, k, a, expiresAt).slots
    ensures |s.slots| == maxSize && k !in s.slots && Oldest(s.touched, g)
  {
    if a.Entry? {
      hide Coherent, Stamped, Oldest;
      var h := VictimIsOldest(s, maxSize, k, Slot(a.entry, expiresAt));
      hide Victim;
    }
  }

  lemma MissEvicts(s: State, maxSize: nat, k: GrainId, store: Store, a: Answer, expiresAt: real, g: GrainId)
    requires InOrder(s, maxSize) && maxSize > 0 && g in s.slots && g != k && SameBut(s.store.entries, store.entries, k)
    requires a.Entry? ==> k in store.entries && a.entry == store.entries[k]
    requires g !in PutAnswer(Drop(s, {k}).(store := store), maxSize, k, a, expiresAt).slots
    ensures |s.slots| == maxSize && Oldest(s.touched, g)
  {
    var d := Drop(s, {k});
    DropKeeps(s, maxSize, {k});
    StoreChangeKeeps(d, maxSize, k, store);
    DropAbsent(s, maxSize, k);
    assert |s.slots| <= maxSize;
    hide InOrder, PutAnswer, SameBut, Oldest;
    PutEvicts(d.(store := store), maxSize, k, a, expiresAt, g);
    hide Drop;
  }

  /** Dropping a grain makes room for one, or changes nothing. */
  lemma DropAbsent(s: State, maxSize: nat, k: GrainId)
    requires InOrder(s, maxSize)
    ensures if k in s.slots then |Drop(s, {k}).slots| == |s.slots| - 1 else Drop(s, {k}) == s
  {
    hide Coherent, OneEach, Before;
    if k in s.slots {
      DroppedOne(s.slots, k);
    } else {
      assert s.touched.Keys == s.slots.Keys;
      assert s.slots - {k} == s.slots && s.touched - {k} == s.touched;
    }
  }

  lemma RegisterEvicts(s: State, maxSize: nat, k: GrainId, silo: SiloAddress, expiresAt: real, g: GrainId)
    requires InOrder(s, maxSize) && maxSize > 0 && g in s.slots
    requires g !in RegisterEffect(s, maxSize, k, silo, expiresAt).0.slots
    ensures |s.slots| == maxSize && Oldest(s.touched, g)
  {
    var (store, a) := StoreRegister(s.store, k, silo);
    StoreSteps(s.store, k, silo);
    assert k in s.slots ==> k in s.store.entries;
    StoreChangeKeeps(s, maxSize, k, store);
    hide InOrder, PutAnswer, StoreRegister, Oldest;
    PutEvicts(s.(store := store), maxSize, k, a, expiresAt, g);
  }

  lemma StepEvicts(s: State, maxSize: nat, ttl: real, op: Op, g: GrainId)
    requires InOrder(s, maxSize) && maxSize > 0 && g in s.slots && !Names(s, op, g)
    requires g !in CachedStep(s, maxSize, ttl, op).0.slots
    ensures |s.slots| == maxSize && Oldest(s.touched, g)
  {
    hide InOrder, PutAnswer, Oldest, StoreRegister, StoreResolve, StoreLookup, StoreUnregister, SameBut;
    match op
    case RegisterOp(k, silo, putAt) =>
      RegisterEvicts(s, maxSize, k, silo, putAt + ttl, g);
    case LookupOp(k, seenAt, putAt) =>
      StoreSteps(s.store, k, s.store.local);
      SameButItself(s.store.entries, k);
      assert Drop(s, {k}).(store := s.store) == Drop(s, {k});
      MissEvicts(s, maxSize, k, s.store, StoreLookup(s.store, k), putAt + ttl, g);
    case ResolveOp(k, pick, seenAt, putAt) =>
      var (store, a) := StoreResolve(s.store, k, pick);
      StoreSteps(s.store, k, pick);
      MissEvicts(s, maxSize, k, store, a, putAt + ttl, g);
    case _ =>
  }

  /** A grain leaves the cache for room only when the cache is full, and then callers got every other cached grain's
      entry more recently than its. */
  lemma EvictsLeastRecentlyUsed(local: SiloAddress, maxSize: nat, ttl: real, ops: seq<Op>, op: Op, g: GrainId)
    requires maxSize > 0
    requires var s := CachedRun(local, maxSize, ttl, ops).0;
             g in s.slots && !Names(s, op, g) && g !in CachedStep(s, maxSize, ttl, op).0.slots
    ensures var (s, answers) := CachedRun(local, maxSize, ttl, ops);
            && |answers| == |ops| && |s.slots| == maxSize
            && forall h :: h in s.slots && h != g ==> LastUse(ops, answers, g) < LastUse(ops, answers, h)
  {
    hide CachedRun, CachedStep, LastUse, Names, OneEach, Before;
    CacheIsTransparent(local, maxSize, ttl, ops);
    var (s, answers) := CachedRun(local, maxSize, ttl, ops);
    StepEvicts(s, maxSize, ttl, op, g);
    forall h | h in s.slots
      ensures h in s.touched && LastUse(ops, answers, h) == s.touched[h] + 1
    {
      TouchedIsLastUse(local, maxSize, ttl, ops, h);
    }
  }

  // ---- How long an entry is answered from, and what invalidation takes -----------------------

  /** `op` asked the directory for the entry of `g`, got one, and stored it: a registration, or a lookup or
      resolution that the cache did not answer. */
  ghost predicate Fills(s: State, maxSize: nat, ttl: real, op: Op, a: Answer, g: GrainId) {
    Uses(op, a, g) && (op.RegisterOp? || !AnswersFromCache(s, maxSize, ttl, g, op.seenAt))
  }

  /** Operation `i` of the run is the last that stored an entry of `g`. */
  ghost predicate LastFill(local: SiloAddress, maxSize: nat, ttl: real, ops: seq<Op>, answers: seq<Answer>,
                           g: GrainId, i: nat)
    requires |answers| == |ops|
  {
    && i < |ops| && Fills(CachedRun(local, maxSize, ttl, ops[..i]).0, maxSize, ttl, ops[i], answers[i], g)
    && forall j :: i < j < |ops| ==>
         !Fills(CachedRun(local, maxSize, ttl, ops[..j]).0, maxSize, ttl, ops[j], answers[j], g)
  }

  lemma PutKeepsSlot(s: State, maxSize: nat, gs: set<GrainId>, store: Store, k: GrainId, a: Answer, expiresAt: real,
                     g: GrainId)
    requires g in PutAnswer(Drop(s, gs).(store := store), maxSize, k, a, expiresAt).slots
    ensures (g == k && a.Entry?) || KeepsSlot(s, g, PutAnswer(Drop(s, gs).(store := store), maxSize, k, a, expiresAt))
  {
    hide Victim;
  }

  lemma StepKeepsSlot(s: State, maxSize: nat, ttl: real, op: Op, g: GrainId)
    requires g in CachedStep(s, maxSize, ttl, op).0.slots
    ensures var (s', a) := CachedStep(s, maxSize, ttl, op);
            Uses(op, a, g) || KeepsSlot(s, g, s')
  {
    hide PutAnswer, StoreRegister, StoreResolve, StoreLookup, StoreUnregister;
    match op
    case RegisterOp(k, silo, putAt) =>
      var (store, a) := StoreRegister(s.store, k, silo);
      DropNone(s);
      PutKeepsSlot(s, maxSize, {}, store, k, a, putAt + ttl, g);
    case LookupOp(k, seenAt, putAt) =>
      if !FreshAt(s, k, seenAt) {
        assert Drop(s, {k}).(store := s.store) == Drop(s, {k});
        PutKeepsSlot(s, maxSize, {k}, s.store, k, StoreLookup(s.store, k), putAt + ttl, g);
      }
    case ResolveOp(k, pick, seenAt, putAt) =>
      if !FreshAt(s, k, seenAt) {
        var (store, a) := StoreResolve(s.store, k, pick);
        PutKeepsSlot(s, maxSize, {k}, store, k, a, putAt + ttl, g);
      }
    case _ =>
  }

  /** A slot is there after a step because the step stored it, for a full lifetime, or because it was there before. */
  lemma StepFills(s: State, maxSize: nat, ttl: real, op: Op, g: GrainId)
    requires InOrder(s, maxSize) && maxSize > 0 && g in CachedStep(s, maxSize, ttl, op).0.slots
    ensures var (s', a) := CachedStep(s, maxSize, ttl, op);
            if Fills(s, maxSize, ttl, op, a, g) then s'.slots[g] == Slot(a.entry, op.putAt + ttl)
            else KeepsSlot(s, g, s')
  {
    hide InOrder, CachedStep, AnswersFromCache;
    StepKeepsSlot(s, maxSize, ttl, op, g);
    var (s', a) := CachedStep(s, maxSize, ttl, op);
    if Uses(op, a, g) {
      UsedIsCached(s, maxSize, ttl, op);
      InCacheIsHeld(s, maxSize, g);
      if !op.RegisterOp? {
        FreshMeansHit(s, maxSize, ttl, g, op.seenAt);
        if FreshAt(s, g, op.seenAt) {
          HitKeepsSlot(s, maxSize, ttl, op);
        }
      }
    }
  }

  lemma HitKeepsSlot(s: State, maxSize: nat, ttl: real, op: Op)
    requires (op.LookupOp? || op.ResolveOp?) && FreshAt(s, op.grain, op.seenAt)
    ensures KeepsSlot(s, op.grain, CachedStep(s, maxSize, ttl, op).0)
  {
  }

  lemma {:induction false} SlotIsLastFill(local: SiloAddress, maxSize: nat, ttl: real, ops: seq<Op>, g: GrainId)
    returns (i: nat)
    requires maxSize > 0 && g in CachedRun(local, maxSize, ttl, ops).0.slots
    ensures var (s, answers) := CachedRun(local, maxSize, ttl, ops);
            && |answers| == |ops| && LastFill(local, maxSize, ttl, ops, answers, g, i)
            && s.slots[g] == Slot(answers[i].entry, ops[i].putAt + ttl)
  {
    hide CachedStep, InOrder, Fills;
    CacheIsTransparent(local, maxSize, ttl, ops);
    var front, n := ops[..|ops| - 1], |ops| - 1;
    CacheIsTransparent(local, maxSize, ttl, front);
    var (s, answers) := CachedRun(local, maxSize, ttl, front);
    var all := CachedRun(local, maxSize, ttl, ops).1;
    assert all == answers + [all[n]] && ops[..n] == front;
    StepFills(s, maxSize, ttl, ops[n], g);
    i := n;
    if Fills(s, maxSize, ttl, ops[n], all[n], g) {
      FilledWithEntry(s, maxSize, ttl, ops[n], all[n], g);
    } else {
      i := SlotIsLastFill(local, maxSize, ttl, front, g);
      LastFillExtends(local, maxSize, ttl, ops, all, g, i);
    }
  }

  lemma FilledWithEntry(s: State, maxSize: nat, ttl: real, op: Op, a: Answer, g: GrainId)
    ensures Fills(s, maxSize, ttl, op, a, g) ==> a.Entry? && (op.RegisterOp? || op.LookupOp? || op.ResolveOp?)
  {
  }

  lemma LastFillExtends(local: SiloAddress, maxSize: nat, ttl: real, ops: seq<Op>, answers: seq<Answer>, g: GrainId,
                        i: nat)
    requires |answers| == |ops| > 0
    requires var n := |ops| - 1; LastFill(local, maxSize, ttl, ops[..n], answers[..n], g, i)
    requires var n := |ops| - 1;
             !Fills(CachedRun(local, maxSize, ttl, ops[..n]).0, maxSize, ttl, ops[n], answers[n], g)
    ensures LastFill(local, maxSize, ttl, ops, answers, g, i)
  {
    hide CachedRun, Fills;
    var n := |ops| - 1;
    assert forall j :: 0 <= j < n ==> ops[..n][..j] == ops[..j];
  }

  /** In every run, a cached grain is answered from the cache exactly until one lifetime after the last operation that
      stored it, however often it was hit since; the answer is that operation's. What is not cached never is. */
  lemma CachedUntilExpiry(local: SiloAddress, maxSize: nat, ttl: real, ops: seq<Op>, g: GrainId) returns (i: nat)
    requires maxSize > 0
    ensures var (s, answers) := CachedRun(local, maxSize, ttl, ops);
            |answers| == |ops| &&
            if g in s.slots then
              && LastFill(local, maxSize, ttl, ops, answers, g, i) && answers[i] == Entry(s.slots[g].value)
              && forall now :: AnswersFromCache(s, maxSize, ttl, g, now) <==> now < ops[i].putAt + ttl
            else forall now :: !AnswersFromCache(s, maxSize, ttl, g, now)
  {
    hide CachedStep, InOrder, AnswersFromCache, LastFill;
    CacheIsTransparent(local, maxSize, ttl, ops);
    var (s, answers) := CachedRun(local, maxSize, ttl, ops);
    i := 0;
    if g in s.slots {
      i := SlotIsLastFill(local, maxSize, ttl, ops, g);
      LastFillUses(local, maxSize, ttl, ops, answers, g, i);
    }
    forall now
      ensures AnswersFromCache(s, maxSize, ttl, g, now) <==> FreshAt(s, g, now)
    {
      FreshMeansHit(s, maxSize, ttl, g, now);
    }
  }

  lemma LastFillUses(local: SiloAddress, maxSize: nat, ttl: real, ops: seq<Op>, answers: seq<Answer>, g: GrainId,
                     i: nat)
    requires |answers| == |ops| && LastFill(local, maxSize, ttl, ops, answers, g, i)
    ensures i < |ops| && Uses(ops[i], answers[i], g)
  {
  }

  /** An unregistration or an invalidation takes exactly the slots it is about: that of its grain, those that point to
      its silo, or all. No other slot or last use changes, and an invalidation leaves the directory alone. */
  lemma InvalidationsDrop(s: State, maxSize: nat, ttl: real, op: Op)
    requires InOrder(s, maxSize) && (op.UnregisterOp? || Invalidates(op))
    ensures var s' := CachedStep(s, maxSize, ttl, op).0;
            && (forall g :: g in s'.slots <==> g in s.slots && !Names(s, op, g))
            && (forall g :: g in s'.slots ==> KeepsSlot(s, g, s'))
            && (forall g :: g in s'.slots ==> g in s.touched && g in s'.touched && s'.touched[g] == s.touched[g])
            && (!op.UnregisterOp? ==> s'.store == s.store)
            && (op.InvalidateSiloOp? ==> forall g :: g in s'.slots ==> s'.slots[g].value.silo != op.silo)
  {
    hide Coherent, OneEach, Before, StoreUnregister;
  }

  // ---- The objects ----------------------------------------------------------------------------

  datatype PlacementError = PickedNonLocal

  class LocalGrainDirectory {
    const local: SiloAddress
    var entries: Partition
    var epoch: int

    ghost function Value(): Store
      reads this
    {
      Store(local, entries, epoch)
    }

    constructor (local: SiloAddress)
      ensures Value() == Store(local, map[], 0)
    {
      this.local := local;
      entries, epoch := map[], 0;
    }

    method Register(g: GrainId, silo: SiloAddress) returns (entry: DirectoryEntry)
      modifies this
      ensures (Value(), Entry(entry)) == StoreRegister(old(Value()), g, silo)
    {
      if g in entries {
        return entries[g];
      }
      epoch := epoch + 1;
      entry := DirectoryEntry(g, silo, epoch);
      entries := entries[g := entry];
    }

    method Lookup(g: GrainId) returns (r: Option<DirectoryEntry>)
      ensures StoreLookup(Value(), g) == if r.Some? then Entry(r.value) else Nothing
    {
      return if g in entries then Some(entries[g]) else None;
    }

    method Unregister(g: GrainId, silo: SiloAddress)
      modifies this
      ensures Value() == StoreUnregister(old(Value()), g, silo)
    {
      if g !in entries {
        return;
      }
      if entries[g].silo != silo {
        return;
      }
      entries := entries - {g};
    }

    /** `pick` is what the placement strategy answers for the one silo there is. */
    method ResolveOrActivate(g: GrainId, pick: SiloAddress) returns (r: Result<DirectoryEntry, PlacementError>)
      modifies this
      ensures (Value(), if r.Ok? then Entry(r.value) else Refused) == StoreResolve(old(Value()), g, pick)
    {
      if g in entries {
        return Ok(entries[g]);
      }
      if pick != local {
        return Err(PickedNonLocal);
      }
      var entry := Register(g, local);
      return Ok(entry);
    }
  }

  datatype CacheError = ValueError

  class DirectoryCache {
    const inner: LocalGrainDirectory
    const maxSize: nat
    const ttl: real
    var order: seq<GrainId>
    var slots: map<GrainId, Slot>
    ghost var touched: map<GrainId, nat>
    ghost var tick: nat

    ghost function Value(): State
      reads this, inner
    {
      State(inner.Value(), slots, touched, tick)
    }

    ghost predicate Valid()
      reads this, inner
    {
      maxSize > 0 && InOrder(Value(), maxSize) && InUseOrder(order, touched)
    }

    constructor (inner: LocalGrainDirectory, maxSize: nat, ttl: real)
      requires maxSize > 0
      ensures Valid() && this.inner == inner && this.maxSize == maxSize && this.ttl == ttl
      ensures Value() == State(inner.Value(), map[], map[], 0)
    {
      this.inner, this.maxSize, this.ttl := inner, maxSize, ttl;
      order, slots, touched, tick := [], map[], map[], 0;
    }

    static method Create(inner: LocalGrainDirectory, maxSize: int, ttl: real)
      returns (r: Result<DirectoryCache, CacheError>)
      ensures r.Ok? <==> maxSize > 0 && ttl > 0.0
      ensures r.Ok? ==> fresh(r.value) && r.value.Valid() && r.value.inner == inner && r.value.maxSize == maxSize
                        && r.value.ttl == ttl && r.value.slots == map[]
    {
      if maxSize <= 0 {
        return Err(ValueError);
      }
      if ttl <= 0.0 {
        return Err(ValueError);
      }
      var cache := new DirectoryCache(inner, maxSize, ttl);
      return Ok(cache);
    }

    /** True exactly when a lookup at this reading would answer from the cache and leave the slot alone; its answer is
        then what the directory holds. */
    method Contains(g: GrainId, now: real) returns (b: bool)
      requires Valid()
      ensures b <==> AnswersFromCache(Value(), maxSize, ttl, g, now)
      ensures b ==> g in inner.entries && forall putAt ::
                      CachedStep(Value(), maxSize, ttl, LookupOp(g, now, putAt)).1 == Entry(inner.entries[g])
    {
      FreshMeansHit(Value(), maxSize, ttl, g, now);
      hide InOrder, CachedStep, AnswersFromCache;
      return g in slots && now < slots[g].expiresAt;
    }

    method MoveToEnd(g: GrainId)
      requires g in touched && Before(touched, tick) && InUseOrder(order, touched)
      modifies this`order, this`touched
      ensures touched == old(touched)[g := tick] && InUseOrder(order, touched)
    {
      hide Removed, InUseOrder;
      RemovedKeepsOrder(order, touched, g);
      AppendKeepsOrder(Removed(order, g), touched - {g}, g, tick);
      assert (touched - {g})[g := tick] == touched[g := tick];
      order := Removed(order, g) + [g];
      touched := touched[g := tick];
    }

    method Pop(g: GrainId)
      requires InUseOrder(order, touched)
      modifies this`order, this`slots, this`touched
      ensures Value() == Drop(old(Value()), {g}) && InUseOrder(order, touched)
    {
      hide Removed, InUseOrder;
      RemovedKeepsOrder(order, touched, g);
      order := Removed(order, g);
      slots := slots - {g};
      touched := touched - {g};
    }

    method PutEntry(g: GrainId, value: DirectoryEntry, now: real)
      requires Valid() && g in inner.entries && value == inner.entries[g]
      modifies this`order, this`slots, this`touched
      ensures InUseOrder(order, touched)
      ensures Value() == Put(old(Value()), maxSize, g, Slot(value, now + ttl))
    {
      ghost var before := Value();
      var slot := Slot(value, now + ttl);
      hide InOrder, InUseOrder, Victim, Placed, Drop;
      PlacedFacts(before, maxSize, g, slot);
      DropNone(Placed(before, g, slot));
      if g in slots {
        VictimOfRoomy(Placed(before, g, slot), maxSize);
        Replace(g, slot);
        return;
      }
      Append(g, slot);
      Shrink();
    }

    method Replace(g: GrainId, slot: Slot)
      requires g in touched && Before(touched, tick) && InUseOrder(order, touched)
      modifies this`order, this`slots, this`touched
      ensures InUseOrder(order, touched) && Value() == Placed(old(Value()), g, slot)
    {
      hide InUseOrder, Before;
      slots := slots[g := slot];
      MoveToEnd(g);
    }

    method Append(g: GrainId, slot: Slot)
      requires g !in touched && Before(touched, tick) && InUseOrder(order, touched)
      modifies this`order, this`slots, this`touched
      ensures InUseOrder(order, touched) && Value() == Placed(old(Value()), g, slot)
    {
      hide InUseOrder, Before;
      AppendKeepsOrder(order, touched, g, tick);
      slots := slots[g := slot];
      order := order + [g];
      touched := touched[g := tick];
    }

    /** `popitem(last=False)` while the cache is over its size. */
    method Shrink()
      requires InUseOrder(order, touched) && touched.Keys == slots.Keys && |slots| <= maxSize + 1
      modifies this`order, this`slots, this`touched
      ensures InUseOrder(order, touched)
      ensures Value() == Drop(old(Value()), Victim(old(Value()), maxSize))
    {
      ghost var placed := Value();
      hide InUseOrder, Victim, Oldest, Drop;
      DropNone(placed);
      if |slots| <= maxSize {
        VictimOfRoomy(placed, maxSize);
      }
      while |slots| > maxSize
        invariant InUseOrder(order, touched)
        invariant if |slots| > maxSize then Value() == placed
                  else Value() == Drop(placed, Victim(placed, maxSize))
        decreases |slots|
      {
        FirstIsOldest(order, touched);
        VictimIsFirst(placed, maxSize, order[0]);
        DropOneSize(placed, order[0]);
        Pop(order[0]);
      }
    }

    method Register(g: GrainId, silo: SiloAddress, putAt: real) returns (entry: DirectoryEntry)
      requires Valid()
      modifies this, inner
      ensures Valid()
      ensures (Value(), Entry(entry)) == CachedStep(old(Value()), maxSize, ttl, RegisterOp(g, silo, putAt))
    {
      ghost var before := Value();
      hide InOrder, InUseOrder, Put, StoreRegister;
      StepTransparent(before, maxSize, ttl, RegisterOp(g, silo, putAt));
      RegisterKeepsCached(before, maxSize, g, silo);
      entry := inner.Register(g, silo);
      assert Value() == before.(store := StoreRegister(before.store, g, silo).0);
      PutEntry(g, entry, putAt);
      tick := tick + 1;
    }

    /** How `lookup` and `resolve_or_activate` begin: a fresh entry is a hit, a stale one is dropped. */
    method Examine(g: GrainId, seenAt: real) returns (hit: Option<DirectoryEntry>)
      requires Valid()
      modifies this`order, this`slots, this`touched
      ensures InUseOrder(order, touched)
      ensures if FreshAt(old(Value()), g, seenAt)
              then Value() == Hit(old(Value()), g) && hit == Some(old(slots)[g].value)
              else Value() == Drop(old(Value()), {g}) && hit == None
    {
      DropAbsent(Value(), maxSize, g);
      assert Stamped(Value(), tick);
      hide InUseOrder, Before, OneEach, Coherent, InOrder;
      if g in slots && seenAt < slots[g].expiresAt {
        MoveToEnd(g);
        return Some(slots[g].value);
      }
      if g in slots {
        Pop(g);
      }
      return None;
    }

    method Lookup(g: GrainId, seenAt: real, putAt: real) returns (r: Option<DirectoryEntry>)
      requires Valid()
      modifies this
      ensures Valid()
      ensures (Value(), if r.Some? then Entry(r.value) else Nothing)
              == CachedStep(old(Value()), maxSize, ttl, LookupOp(g, seenAt, putAt))
    {
      ghost var before := Value();
      hide InOrder, InUseOrder, PutAnswer, FreshAt, Hit, Drop, CachedStep, StoreLookup;
      DropKeeps(before, maxSize, {g});
      StepTransparent(before, maxSize, ttl, LookupOp(g, seenAt, putAt));
      LookupStep(before, maxSize, ttl, g, seenAt, putAt);
      var hit := Examine(g, seenAt);
      if hit.Some? {
        r := hit;
      } else {
        r := inner.Lookup(g);
        FoundIsHeld(before.store, g);
        Refill(g, r, putAt);
      }
      tick := tick + 1;
    }

    method Refill(g: GrainId, found: Option<DirectoryEntry>, putAt: real)
      requires Valid() && (found.Some? ==> g in inner.entries && found.value == inner.entries[g])
      modifies this`order, this`slots, this`touched
      ensures InUseOrder(order, touched)
      ensures Value() == PutAnswer(old(Value()), maxSize, g,
                                   if found.Some? then Entry(found.value) else Nothing, putAt + ttl)
    {
      hide InOrder, InUseOrder, Put;
      if found.Some? {
        PutEntry(g, found.value, putAt);
      }
    }

    /** The entry is dropped even when the directory keeps it. */
    method Unregister(g: GrainId, silo: SiloAddress)
      requires Valid()
      modifies this, inner
      ensures Valid()
      ensures Value() == CachedStep(old(Value()), maxSize, ttl, UnregisterOp(g, silo)).0
    {
      ghost var before := Value();
      hide InOrder, InUseOrder, StoreUnregister;
      StepTransparent(before, maxSize, ttl, UnregisterOp(g, silo));
      inner.Unregister(g, silo);
      Pop(g);
      tick := tick + 1;
    }

    method ResolveOrActivate(g: GrainId, pick: SiloAddress, seenAt: real, putAt: real)
      returns (r: Result<DirectoryEntry, PlacementError>)
      requires Valid()
      modifies this, inner
      ensures Valid()
      ensures (Value(), if r.Ok? then Entry(r.value) else Refused)
              == CachedStep(old(Value()), maxSize, ttl, ResolveOp(g, pick, seenAt, putAt))
    {
      ghost var before := Value();
      hide InOrder, InUseOrder, PutAnswer, FreshAt, Hit, Drop, CachedStep, StoreResolve;
      ResolveKeepsCached(before, maxSize, g, pick);
      StepTransparent(before, maxSize, ttl, ResolveOp(g, pick, seenAt, putAt));
      ResolveStep(before, maxSize, ttl, g, pick, seenAt, putAt);
      DropsStore(before, {g});
      var hit := Examine(g, seenAt);
      if hit.Some? {
        r := Ok(hit.value);
      } else {
        r := inner.ResolveOrActivate(g, pick);
        Refill(g, if r.Ok? then Some(r.value) else None, putAt);
      }
      tick := tick + 1;
    }

    method Invalidate(g: GrainId)
      requires Valid()
      modifies this
      ensures Valid()
      ensures Value() == CachedStep(old(Value()), maxSize, ttl, InvalidateOp(g)).0
    {
      hide InOrder, InUseOrder;
      StepTransparent(Value(), maxSize, ttl, InvalidateOp(g));
      Pop(g);
      tick := tick + 1;
    }

    method InvalidateAll()
      requires Valid()
      modifies this
      ensures Valid()
      ensures Value() == CachedStep(old(Value()), maxSize, ttl, InvalidateAllOp).0
    {
      hide InOrder;
      StepTransparent(Value(), maxSize, ttl, InvalidateAllOp);
      order, slots, touched := [], map[], map[];
      tick := tick + 1;
    }

    method InvalidateSilo(silo: SiloAddress)
      requires Valid()
      modifies this
      ensures Valid()
      ensures Value() == CachedStep(old(Value()), maxSize, ttl, InvalidateSiloOp(silo)).0
    {
      hide InOrder, InUseOrder, StaleFor, Drop, Elements;
      KeysAgree(Value(), maxSize);
      StepTransparent(Value(), maxSize, ttl, InvalidateSiloOp(silo));
      var stale := Stale(silo);
      PopAll(stale);
      tick := tick + 1;
    }

    method PopAll(stale: seq<GrainId>)
      requires InUseOrder(order, touched)
      modifies this`order, this`slots, this`touched
      ensures Value() == Drop(old(Value()), Elements(stale)) && InUseOrder(order, touched)
    {
      ghost var before := Value();
      DropNone(before);
      hide InUseOrder, Drop;
      assert Elements(stale[..0]) == {};
      for i := 0 to |stale|
        invariant Value() == Drop(before, Elements(stale[..i])) && InUseOrder(order, touched)
      {
        assert Elements(stale[..i + 1]) == Elements(stale[..i]) + {stale[i]};
        DropTwice(before, Elements(stale[..i]), {stale[i]});
        Pop(stale[i]);
      }
      assert stale[..|stale|] == stale;
    }

    method Stale(silo: SiloAddress) returns (stale: seq<GrainId>)
      requires InUseOrder(order, touched) && touched.Keys == slots.Keys
      ensures Elements(stale) == StaleFor(Value(), silo)
    {
      stale := [];
      for i := 0 to |order|
        invariant forall g :: g in stale <==> g in order[..i] && g in slots && slots[g].value.silo == silo
      {
        if slots[order[i]].value.silo == silo {
          stale := stale + [order[i]];
        }
      }
      assert order[..|order|] == order;
    }
  }

  lemma KeysAgree(s: State, maxSize: nat)
    requires InOrder(s, maxSize)
    ensures s.touched.Keys == s.slots.Keys
  {
  }

  lemma FoundIsHeld(s: Store, g: GrainId)
    ensures StoreLookup(s, g).Entry? ==> g in s.entries && StoreLookup(s, g).entry == s.entries[g]
    ensures !StoreLookup(s, g).Refused? && !StoreLookup(s, g).Done?
  {
  }

  lemma LookupStep(s: State, maxSize: nat, ttl: real, g: GrainId, seenAt: real, putAt: real)
    ensures var (s', a) := CachedStep(s, maxSize, ttl, LookupOp(g, seenAt, putAt));
            if FreshAt(s, g, seenAt) then s' == Hit(s, g).(tick := s.tick + 1) && a == Entry(s.slots[g].value)
            else
              && a == StoreLookup(s.store, g)
              && s' == PutAnswer(Drop(s, {g}), maxSize, g, a, putAt + ttl).(tick := s.tick + 1)
  {
    hide PutAnswer;
  }

  lemma ResolveStep(s: State, maxSize: nat, ttl: real, g: GrainId, pick: SiloAddress, seenAt: real, putAt: real)
    ensures var (s', a) := CachedStep(s, maxSize, ttl, ResolveOp(g, pick, seenAt, putAt));
            var (store, b) := StoreResolve(s.store, g, pick);
            if FreshAt(s, g, seenAt) then s' == Hit(s, g).(tick := s.tick + 1) && a == Entry(s.slots[g].value)
            else
              && a == b && (a.Entry? || a.Refused?)
              && s' == PutAnswer(Drop(s, {g}).(store := store), maxSize, g,
                                 if a.Entry? then a else Nothing, putAt + ttl).(tick := s.tick + 1)
  {
    hide Put;
  }

  lemma DropsStore(s: State, gs: set<GrainId>)
    ensures Drop(s, gs).store == s.store
  {
  }

  lemma DropTwice(s: State, a: set<GrainId>, b: set<GrainId>)
    ensures Drop(Drop(s, a), b) == Drop(s, a + b)
  {
    assert s.slots - a - b == s.slots - (a + b) && s.touched - a - b == s.touched - (a + b);
  }

  lemma ResolveKeepsCached(s: State, maxSize: nat, g: GrainId, pick: SiloAddress)
    requires InOrder(s, maxSize)
    ensures var (store, a) := StoreResolve(s.store, g, pick);
            && InOrder(Drop(s, {g}).(store := store), maxSize)
            && (a.Entry? ==> g in store.entries && a.entry == store.entries[g])
  {
    var (store, a) := StoreResolve(s.store, g, pick);
    StoreSteps(s.store, g, pick);
    DropKeeps(s, maxSize, {g});
    StoreChangeKeeps(Drop(s, {g}), maxSize, g, store);
  }

  lemma RegisterKeepsCached(s: State, maxSize: nat, g: GrainId, silo: SiloAddress)
    requires InOrder(s, maxSize)
    ensures var (store, a) := StoreRegister(s.store, g, silo);
            InOrder(s.(store := store), maxSize) && g in store.entries && a == Entry(store.entries[g])
  {
    var (store, a) := StoreRegister(s.store, g, silo);
    StoreSteps(s.store, g, silo);
    assert g in s.slots ==> g in s.store.entries;
    StoreChangeKeeps(s, maxSize, g, store);
  }

  /** What storing an entry the directory holds does to the size and the stamps. */
  lemma PlacedFacts(s: State, maxSize: nat, g: GrainId, slot: Slot)
    requires InOrder(s, maxSize) && g in s.store.entries && slot.value == s.store.entries[g]
    ensures s.touched.Keys == s.slots.Keys && Before(s.touched, s.tick)
    ensures var s1 := Placed(s, g, slot);
            s1.touched.Keys == s1.slots.Keys && |s1.slots| <= maxSize + 1 && (g in s.slots ==> |s1.slots| <= maxSize)
  {
    hide OneEach, Coherent;
    PlacedSize(s.slots, g, slot);
    PlacedSize(s.touched, g, s.tick);
  }

  lemma DropOneSize(s: State, g: GrainId)
    requires g in s.slots
    ensures |Drop(s, {g}).slots| == |s.slots| - 1
  {
    DroppedOne(s.slots, g);
  }

  lemma VictimOfRoomy(s: State, maxSize: nat)
    requires |s.slots| <= maxSize
    ensures Victim(s, maxSize) == {}
  {
  }

  lemma VictimIsFirst(s: State, maxSize: nat, g: GrainId)
    requires |s.slots| > maxSize && Oldest(s.touched, g)
    ensures Victim(s, maxSize) == {g}
  {
    var h :| Oldest(s.touched, h) && Victim(s, maxSize) == {h};
    OldestIsOne(s.touched, g, h);
  }
}
