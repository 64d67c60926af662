/** Applying a plan: the bounded fan-out to an upstream, the write-back to the store and
    the retry gate (internal/reconcile/executor.go). Times are nanoseconds. */
module Effects {
  import opened Text
  import opened Arith
  import opened Model
  import opened Diff
  import opened Registry

  const BACKOFF_BASE := 30 * SECOND
  const BACKOFF_MAX := 3600 * SECOND

  /** defaultBackoff; the shift is capped at 20, so it stays inside int64. */
  function Backoff(failures: int): int {
    if failures <= 0 then 0
    else
      var d := BACKOFF_BASE * Pow2(Min(failures - 1, 20));
      if d <= 0 || d > BACKOFF_MAX then BACKOFF_MAX else d
  }

  /** The delay is min(30s * 2^(n-1), 1h) for every n, and the capped shift never leaves int64. */
  lemma BackoffIsCappedDoubling(n: nat)
    requires n >= 1
    ensures Backoff(n) == Min(30 * SECOND * Pow2(n - 1), 3600 * SECOND)
    ensures 0 < Backoff(n) <= 3600 * SECOND
    ensures BACKOFF_BASE * Pow2(Min(n - 1, 20)) < 0x8000_0000_0000_0000
  {
    assert Pow2(7) == 128;
    Pow2Monotone(Min(n - 1, 20), 20);
    assert Pow2(20) == 1048576 by { assert Pow2(10) == 1024; assert Pow2(15) == 32768; }
    if n - 1 > 20 { Pow2Monotone(7, n - 1); Pow2Monotone(7, 20); }
  }

  /** What one Upsert or Delete call does: `left` is what a call that did not succeed leaves in its own slot. */
  datatype Outcome =
    | Succeeds(at: int)
    | Fails(message: string, left: Option<Applied>)
    | Panics(message: string, left: Option<Applied>)
    | Canceled(left: Option<Applied>)

  datatype Result = Skip | Upserted(record: Record) | Removed(record: Record) | Errored(record: Record)

  /** do, with the recover around it. */
  function Attempt(op: Op, prior: Option<Record>, outcome: Outcome): Result {
    var r := op.record;
    if op.kind == Noop then Skip
    else match outcome
      case Canceled(_) => Skip
      case Panics(m, _) => Errored(r.(failures := r.failures + 1, status := Failed, syncError := "panic: " + m))
      case Fails(m, _) =>
        if op.kind == Delete
        then Errored(r.(failures := r.failures + 1, status := PendingDelete, syncError := m))
        else Errored(r.(failures := (if prior.Some? then prior.value.failures else 0) + 1,
                        status := Failed, syncError := m))
      case Succeeds(at) =>
        if op.kind == Delete then Removed(r)
        else Upserted(r.(failures := 0, status := Synced, syncedAt := at, syncError := ""))
  }

  /** Whatever a call comes to, only the bookkeeping of its record changes. A success is synced at the time it says,
      with no failures and no error. An error keeps the time of syncing and stores its message; it is pending_delete if
      a delete reported it, else failed. */
  lemma AttemptKeepsContent(op: Op, prior: Option<Record>, outcome: Outcome)
    ensures var res := Attempt(op, prior, outcome);
            !res.Skip? ==>
              && res.record.(status := op.record.status, syncedAt := op.record.syncedAt,
                             syncError := op.record.syncError, failures := op.record.failures) == op.record
              && (res.Upserted? ==>
                    res.record.status == Synced && res.record.failures == 0 && res.record.syncError == "")
              && (res.Errored? ==> res.record.status == Failed || res.record.status == PendingDelete)
    ensures op.kind != Noop && outcome.Succeeds? ==>
              Attempt(op, prior, outcome) ==
              if op.kind == Delete then Removed(op.record)
              else Upserted(op.record.(status := Synced, syncedAt := outcome.at, failures := 0, syncError := ""))
    ensures op.kind != Noop && (outcome.Fails? || outcome.Panics?) ==>
              var res := Attempt(op, prior, outcome);
              && res.Errored? && res.record.syncedAt == op.record.syncedAt
              && res.record.syncError == (if outcome.Panics? then "panic: " + outcome.message else outcome.message)
              && (res.record.status == PendingDelete <==> op.kind == Delete && outcome.Fails?)
  {
  }

  // ---- the upstreams as slots ----

  type Slots = map<Slot, Applied>

  /** What upstream `u` holds, and lists back, for applied fields it accepted. */
  type Shows = (string, Applied) -> Applied

  function SlotAt(slots: Slots, s: Slot): Option<Applied> {
    if s in slots then Some(slots[s]) else None
  }

  function Put(slots: Slots, s: Slot, content: Option<Applied>): Slots {
    match content
    case Some(a) => slots[s := a]
    case None => slots - {s}
  }

  function LeftBy(op: Op, outcome: Outcome, shows: Shows): Option<Applied> {
    match outcome
    case Succeeds(_) => if op.kind == Delete then None else Some(shows(op.record.upstream, AppliedOf(op.record)))
    case Fails(_, left) => left
    case Panics(_, left) => left
    case Canceled(left) => left
  }

  /** The slots after the calls for `calls`, in that order. */
  function RunCalls(slots: Slots, calls: seq<string>, ops: map<string, Op>, oracle: string -> Outcome,
                    shows: Shows): Slots
    requires forall k :: k in calls ==> k in ops
  {
    if calls == [] then slots
    else
      var k := calls[|calls| - 1];
      Put(RunCalls(slots, calls[..|calls| - 1], ops, oracle, shows), SlotOf(ops[k].record),
          LeftBy(ops[k], oracle(k), shows))
  }

  lemma {:induction false} RunCallsConcat(slots: Slots, a: seq<string>, b: seq<string>, ops: map<string, Op>,
                                          oracle: string -> Outcome, shows: Shows)
    requires forall k :: k in a ==> k in ops
    requires forall k :: k in b ==> k in ops
    ensures RunCalls(slots, a + b, ops, oracle, shows)
        == RunCalls(RunCalls(slots, a, ops, oracle, shows), b, ops, oracle, shows)
  {
    if b == [] {
      assert a + b == a;
    } else {
      assert (a + b)[..|a + b| - 1] == a + b[..|b| - 1];
      RunCallsConcat(slots, a, b[..|b| - 1], ops, oracle, shows);
    }
  }

  lemma {:induction false} RunCallsSameOps(slots: Slots, calls: seq<string>, ops: map<string, Op>, ops': map<string,
                                           Op>,
                                           oracle: string -> Outcome, shows: Shows)
    requires forall k :: k in calls ==> k in ops && k in ops' && ops[k] == ops'[k]
    ensures RunCalls(slots, calls, ops, oracle, shows) == RunCalls(slots, calls, ops', oracle, shows)
  {
    if calls != [] { RunCallsSameOps(slots, calls[..|calls| - 1], ops, ops', oracle, shows); }
  }

  // ---- one pass, key by key ----

  /** What a pass is given: configured upstreams, recorded state, its time, and every call's outcome. */
  datatype Env = Env(upstreams: set<string>, recorded: map<string, Record>, now: int,
                     oracle: string -> Outcome, shows: Shows)

  type Gates = map<string, int>

  predicate Gated(gates: Gates, key: string, now: int) {
    key in gates && now < gates[key]
  }

  predicate IsAttempted(e: Env, gates: Gates, op: Op) {
    op.record.upstream in e.upstreams && op.kind != Noop && !Gated(gates, KeyOf(op), e.now)
  }

  function ResultOf(e: Env, gates: Gates, op: Op): Result {
    if IsAttempted(e, gates, op) then Attempt(op, Get(e.recorded, KeyOf(op)), e.oracle(KeyOf(op))) else Skip
  }

  function Attempted(e: Env, gates: Gates, ops: map<string, Op>): set<string> {
    set k | k in ops && IsAttempted(e, gates, ops[k])
  }

  /** A key's store cell after its op; ops of unknown upstreams only drop deleted records. */
  function CellAfter(e: Env, gates: Gates, op: Op, before: Option<Record>): Option<Record> {
    if op.record.upstream !in e.upstreams then (if op.kind == Delete then None else before)
    else match ResultOf(e, gates, op)
      case Skip => before
      case Upserted(r) => Some(r)
      case Errored(r) => Some(r)
      case Removed(_) => None
  }

  function GateAfter(e: Env, gates: Gates, op: Op, before: Option<int>): Option<int> {
    match ResultOf(e, gates, op)
    case Skip => before
    case Errored(r) => Some(e.now + Backoff(r.failures))
    case Upserted(_) => None
    case Removed(_) => None
  }

  function StoreCell(e: Env, gates: Gates, store: map<string, Record>, ops: map<string, Op>,
                     k: string): Option<Record> {
    if k in ops then CellAfter(e, gates, ops[k], Get(store, k)) else Get(store, k)
  }

  function GateCell(e: Env, gates: Gates, ops: map<string, Op>, k: string): Option<int> {
    if k in ops then GateAfter(e, gates, ops[k], Get(gates, k)) else Get(gates, k)
  }

  function StoreAfter(e: Env, gates: Gates, store: map<string, Record>, ops: map<string, Op>): map<string, Record> {
    map k | k in store.Keys + ops.Keys && StoreCell(e, gates, store, ops, k).Some?
        :: StoreCell(e, gates, store, ops, k).value
  }

  function GatesAfter(e: Env, gates: Gates, ops: map<string, Op>): Gates {
    map k | k in gates.Keys + ops.Keys && GateCell(e, gates, ops, k).Some? :: GateCell(e, gates, ops, k).value
  }

  lemma StoreAfterAt(e: Env, gates: Gates, store: map<string, Record>, ops: map<string, Op>, k: string)
    ensures Get(StoreAfter(e, gates, store, ops), k) == StoreCell(e, gates, store, ops, k)
  {
  }

  lemma GatesAfterAt(e: Env, gates: Gates, ops: map<string, Op>, k: string)
    ensures Get(GatesAfter(e, gates, ops), k) == GateCell(e, gates, ops, k)
  {
  }

  lemma ResultKeepsKey(e: Env, gates: Gates, op: Op)
    ensures var res := ResultOf(e, gates, op); res.Skip? || RecordKey(res.record) == KeyOf(op)
  {
  }

  lemma SameMap<T>(a: map<string, T>, b: map<string, T>)
    requires forall k :: Get(a, k) == Get(b, k)
    ensures a == b
  {
    forall k ensures k in a <==> k in b { assert Get(a, k) == Get(b, k); }
    forall k | k in a ensures a[k] == b[k] { assert Get(a, k) == Get(b, k); }
  }

  /** A well-keyed store stays well-keyed. */
  lemma StoreStaysKeyed(e: Env, gates: Gates, store: map<string, Record>, ops: map<string, Op>)
    requires KeyedByRecord(store) && KeyedByOp(ops)
    ensures KeyedByRecord(StoreAfter(e, gates, store, ops))
  {
  }

  /** An op's gate and result are not touched by an earlier batch over other keys. */
  lemma GateElsewhere(e: Env, gates: Gates, a: map<string, Op>, op: Op)
    requires KeyOf(op) !in a
    ensures Get(GatesAfter(e, gates, a), KeyOf(op)) == Get(gates, KeyOf(op))
    ensures IsAttempted(e, GatesAfter(e, gates, a), op) == IsAttempted(e, gates, op)
    ensures ResultOf(e, GatesAfter(e, gates, a), op) == ResultOf(e, gates, op)
  {
  }

  lemma GatesElsewhere(e: Env, gates: Gates, a: map<string, Op>, b: map<string, Op>)
    requires KeyedByOp(b) && a.Keys !! b.Keys
    ensures forall k :: k in b ==> Get(GatesAfter(e, gates, a), k) == Get(gates, k)
    ensures forall k :: k in b ==> ResultOf(e, GatesAfter(e, gates, a), b[k]) == ResultOf(e, gates, b[k])
    ensures Attempted(e, GatesAfter(e, gates, a), b) == Attempted(e, gates, b)
  {
  }

  /** Two batches over disjoint keys compose. */
  lemma BatchesCompose(e: Env, gates: Gates, store: map<string, Record>, a: map<string, Op>, b: map<string, Op>)
    requires KeyedByOp(b) && a.Keys !! b.Keys
    ensures StoreAfter(e, GatesAfter(e, gates, a), StoreAfter(e, gates, store, a), b)
        == StoreAfter(e, gates, store, a + b)
  {
    var gates', store' := GatesAfter(e, gates, a), StoreAfter(e, gates, store, a);
    forall k ensures Get(StoreAfter(e, gates', store', b), k) == Get(StoreAfter(e, gates, store, a + b), k) {
      BatchesComposeAt(e, gates, store, a, b, k);
    }
    SameMap(StoreAfter(e, gates', store', b), StoreAfter(e, gates, store, a + b));
  }

  lemma BatchesComposeAt(e: Env, gates: Gates, store: map<string, Record>, a: map<string, Op>, b: map<string, Op>,
                         k: string)
    requires KeyedByOp(b) && a.Keys !! b.Keys
    ensures Get(StoreAfter(e, GatesAfter(e, gates, a), StoreAfter(e, gates, store, a), b), k)
         == Get(StoreAfter(e, gates, store, a + b), k)
  {
    StoreAfterAt(e, gates, store, a, k);
    StoreAfterAt(e, GatesAfter(e, gates, a), StoreAfter(e, gates, store, a), b, k);
    StoreAfterAt(e, gates, store, a + b, k);
    if k in b {
      GateElsewhere(e, gates, a, b[k]);
    }
  }

  lemma GatesCompose(e: Env, gates: Gates, a: map<string, Op>, b: map<string, Op>)
    requires KeyedByOp(b) && a.Keys !! b.Keys
    ensures GatesAfter(e, GatesAfter(e, gates, a), b) == GatesAfter(e, gates, a + b)
  {
    forall k ensures Get(GatesAfter(e, GatesAfter(e, gates, a), b), k) == Get(GatesAfter(e, gates, a + b), k) {
      GatesComposeAt(e, gates, a, b, k);
    }
    SameMap(GatesAfter(e, GatesAfter(e, gates, a), b), GatesAfter(e, gates, a + b));
  }

  lemma GatesComposeAt(e: Env, gates: Gates, a: map<string, Op>, b: map<string, Op>, k: string)
    requires KeyedByOp(b) && a.Keys !! b.Keys
    ensures Get(GatesAfter(e, GatesAfter(e, gates, a), b), k) == Get(GatesAfter(e, gates, a + b), k)
  {
    GatesAfterAt(e, GatesAfter(e, gates, a), b, k);
    GatesAfterAt(e, gates, a + b, k);
    if k in b {
      GateElsewhere(e, gates, a, b[k]);
    } else {
      GatesAfterAt(e, gates, a, k);
    }
  }
}
