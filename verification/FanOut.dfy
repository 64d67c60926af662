/** The Executor object: worker fan-out per upstream, then the serial write-back
    (internal/reconcile/executor.go). */
module FanOut {
  import opened Model
  import opened Drift
  import opened Diff
  import opened Registry
  import opened Stores
  import opened Effects

  /** The ops of a group as a map; a group has each key once. */
  function OpsOf(group: seq<Op>): (ops: map<string, Op>)
    ensures KeyedByOp(ops)
  {
    if group == [] then map[]
    else
      var last := group[|group| - 1];
      OpsOf(group[..|group| - 1])[KeyOf(last) := last]
  }

  ghost predicate DistinctKeys(group: seq<Op>) {
    forall i, j :: 0 <= i < j < |group| ==> KeyOf(group[i]) != KeyOf(group[j])
  }

  lemma {:induction false} OpsOfMembers(group: seq<Op>)
    requires DistinctKeys(group)
    ensures forall i :: 0 <= i < |group| ==>
              KeyOf(group[i]) in OpsOf(group) && OpsOf(group)[KeyOf(group[i])] == group[i]
    ensures forall k :: k in OpsOf(group) ==> OpsOf(group)[k] in group && KeyOf(OpsOf(group)[k]) == k
  {
    if group != [] {
      var init := group[..|group| - 1];
      OpsOfMembers(init);
      assert forall i :: 0 <= i < |init| ==> group[i] == init[i];
    }
  }

  /** The keys whose call has been made: dispatched, attempted, and not among `waiting`. */
  ghost function Called(e: Env, gates: Gates, group: seq<Op>, dispatched: nat, waiting: set<nat>): set<string>
    requires dispatched <= |group|
  {
    set i: nat | i < dispatched && i !in waiting && IsAttempted(e, gates, group[i]) :: KeyOf(group[i])
  }

  lemma DispatchStarts(e: Env, gates: Gates, group: seq<Op>, dispatched: nat, waiting: set<nat>)
    requires dispatched < |group|
    ensures Called(e, gates, group, dispatched + 1, waiting + {dispatched})
        == Called(e, gates, group, dispatched, waiting)
  {
  }

  lemma CallMade(e: Env, gates: Gates, group: seq<Op>, dispatched: nat, waiting: set<nat>, i: nat)
    requires dispatched <= |group| && i < dispatched && i in waiting && IsAttempted(e, gates, group[i])
        && DistinctKeys(group)
    ensures Called(e, gates, group, dispatched, waiting - {i})
        == Called(e, gates, group, dispatched, waiting) + {KeyOf(group[i])}
    ensures KeyOf(group[i]) !in Called(e, gates, group, dispatched, waiting)
  {
  }

  lemma CallRecorded(slots: Slots, calls: seq<string>, k: string, ops: map<string, Op>, e: Env)
    requires k in ops && forall c :: c in calls ==> c in ops
    ensures RunCalls(slots, calls + [k], ops, e.oracle, e.shows)
         == Put(RunCalls(slots, calls, ops, e.oracle, e.shows), SlotOf(ops[k].record),
             LeftBy(ops[k], e.oracle(k), e.shows))
  {
  }

  /** The state of one upstream's fan-out: ops dispatched so far, workers whose call is still to come,
      workers holding the semaphore after theirs, the results slice, and the calls made in order. */
  datatype Pool = Pool(next: nat, waiting: set<nat>, leaving: set<nat>, results: seq<Result>, calls: seq<string>,
      slots: Slots)

  ghost predicate PoolInv(e: Env, gates: Gates, group: seq<Op>, start: Slots, p: Pool) {
    && p.next <= |group| && |p.results| == |group|
    && (forall i :: i in p.waiting ==> i < p.next && IsAttempted(e, gates, group[i]))
    && (forall i: nat :: i < p.next && i !in p.waiting ==> p.results[i] == ResultOf(e, gates, group[i]))
    && CallsInv(e, gates, group, start, p)
  }

  ghost predicate CallsInv(e: Env, gates: Gates, group: seq<Op>, start: Slots, p: Pool)
    requires p.next <= |group|
  {
    && Enumerates(p.calls, Called(e, gates, group, p.next, p.waiting))
    && (forall k :: k in p.calls ==> k in OpsOf(group))
    && p.slots == RunCalls(start, p.calls, OpsOf(group), e.oracle, e.shows)
  }

  /** The dispatcher passes over a noop or gated op. */
  function SkipStep(p: Pool): Pool
    requires p.next < |p.results|
  {
    p.(next := p.next + 1, results := p.results[p.next := Skip])
  }

  /** The dispatcher takes a semaphore slot and starts a worker. */
  function StartStep(p: Pool): Pool {
    p.(next := p.next + 1, waiting := p.waiting + {p.next})
  }

  /** Worker i makes its call and stores its result. */
  function CallStep(e: Env, group: seq<Op>, p: Pool, i: nat): Pool
    requires i < |group| == |p.results|
  {
    var op := group[i];
    var outcome := e.oracle(KeyOf(op));
    p.(waiting := p.waiting - {i}, leaving := p.leaving + {i},
       results := p.results[i := Attempt(op, Get(e.recorded, KeyOf(op)), outcome)],
       calls := p.calls + [KeyOf(op)],
       slots := Put(p.slots, SlotOf(op.record), LeftBy(op, outcome, e.shows)))
  }

  /** Worker i releases the semaphore. */
  function LeaveStep(p: Pool, i: nat): Pool {
    p.(leaving := p.leaving - {i})
  }

  lemma NoneCalled(e: Env, gates: Gates, group: seq<Op>, start: Slots, p: Pool)
    requires p.next == 0 && p.waiting == {} && p.calls == [] && p.slots == start && |p.results| == |group|
    ensures PoolInv(e, gates, group, start, p)
  {
  }

  lemma SkipKeeps(e: Env, gates: Gates, group: seq<Op>, start: Slots, p: Pool)
    requires PoolInv(e, gates, group, start, p) && p.next < |group| && !IsAttempted(e, gates, group[p.next])
    ensures PoolInv(e, gates, group, start, SkipStep(p))
  {
  }

  lemma StartKeeps(e: Env, gates: Gates, group: seq<Op>, start: Slots, p: Pool)
    requires PoolInv(e, gates, group, start, p) && p.next < |group| && IsAttempted(e, gates, group[p.next])
    ensures PoolInv(e, gates, group, start, StartStep(p))
    ensures InFlight(StartStep(p)) == InFlight(p) + 1 && Remaining(group, StartStep(p)) < Remaining(group, p)
  {
    DispatchStarts(e, gates, group, p.next, p.waiting);
    StartMeasure(group, p);
  }

  lemma StartMeasure(group: seq<Op>, p: Pool)
    requires p.next !in p.waiting
    ensures InFlight(StartStep(p)) == InFlight(p) + 1 && Remaining(group, StartStep(p)) < Remaining(group, p)
  {
    assert |p.waiting + {p.next}| == |p.waiting| + 1;
  }

  lemma CallKeeps(e: Env, gates: Gates, group: seq<Op>, start: Slots, p: Pool, i: nat)
    requires DistinctKeys(group) && PoolInv(e, gates, group, start, p) && i in p.waiting
    ensures PoolInv(e, gates, group, start, CallStep(e, group, p, i))
    ensures var q := CallStep(e, group, p, i); InFlight(q) <= InFlight(p) && Remaining(group, q) < Remaining(group, p)
  {
    var op := group[i];
    OpsOfMembers(group);
    CallMade(e, gates, group, p.next, p.waiting, i);
    CallRecorded(start, p.calls, KeyOf(op), OpsOf(group), e);
    EnumerateOneMore(p.calls, Called(e, gates, group, p.next, p.waiting), KeyOf(op));
  }

  lemma LeaveKeeps(e: Env, gates: Gates, group: seq<Op>, start: Slots, p: Pool, i: nat)
    requires PoolInv(e, gates, group, start, p) && i in p.leaving
    ensures PoolInv(e, gates, group, start, LeaveStep(p, i))
    ensures InFlight(LeaveStep(p, i)) < InFlight(p) && Remaining(group, LeaveStep(p, i)) < Remaining(group, p)
  {
  }

  lemma AllCalled(e: Env, gates: Gates, group: seq<Op>)
    requires DistinctKeys(group)
    ensures Called(e, gates, group, |group|, {}) == Attempted(e, gates, OpsOf(group))
  {
    forall k ensures k in Called(e, gates, group, |group|, {}) <==> k in Attempted(e, gates, OpsOf(group)) {
      CalledIffAttempted(e, gates, group, k);
    }
  }

  lemma CalledIffAttempted(e: Env, gates: Gates, group: seq<Op>, k: string)
    requires DistinctKeys(group)
    ensures k in Called(e, gates, group, |group|, {}) <==> k in OpsOf(group) && IsAttempted(e, gates, OpsOf(group)[k])
  {
    OpsOfMembers(group);
    if k in OpsOf(group) {
      var i: nat := IndexOfOp(group, OpsOf(group)[k]);
      assert i !in {};
      assert IsAttempted(e, gates, group[i]) ==> KeyOf(group[i]) in Called(e, gates, group, |group|, {});
    }
  }

  lemma IndexOfOp(group: seq<Op>, op: Op) returns (i: nat)
    requires op in group
    ensures i < |group| && group[i] == op
  {
    i :| i < |group| && group[i] == op;
  }

  lemma AllStored(e: Env, gates: Gates, group: seq<Op>, start: Slots, p: Pool)
    requires PoolInv(e, gates, group, start, p) && p.next == |group| && p.waiting == {}
    ensures p.results == ResultsOf(e, gates, group)
  {
  }

  function ResultsOf(e: Env, gates: Gates, group: seq<Op>): seq<Result> {
    seq(|group|, i requires 0 <= i < |group| => ResultOf(e, gates, group[i]))
  }

  /** Workers holding the semaphore. */
  function InFlight(p: Pool): nat {
    |p.waiting| + |p.leaving|
  }

  ghost function Remaining(group: seq<Op>, p: Pool): int {
    3 * (|group| - p.next) + 2 * |p.waiting| + |p.leaving|
  }

  /** applyUpstream: one dispatcher and up to maxConc workers. Every turn of the loop is one step of
      the dispatcher or of any worker, so the loop runs through every interleaving. The pool's `calls`
      is the order the upstream saw, `peak` the most workers holding the semaphore at once. */
  method ApplyUpstream(e: Env, gates: Gates, group: seq<Op>, maxConc: nat, start: Slots)
    returns (p: Pool, peak: nat)
    requires maxConc >= 1 && DistinctKeys(group)
    requires forall op :: op in group ==> op.record.upstream in e.upstreams
    ensures p.results == ResultsOf(e, gates, group)
    ensures Enumerates(p.calls, Attempted(e, gates, OpsOf(group)))
    ensures CallsInv(e, gates, group, start, p.(next := |group|))
    ensures peak <= maxConc
  {
    p, peak := Pool(0, {}, {}, seq(|group|, i => Skip), [], start), 0;
    NoneCalled(e, gates, group, start, p);
    while p.next < |group| || p.waiting != {} || p.leaving != {}
      invariant PoolInv(e, gates, group, start, p)
      invariant InFlight(p) <= maxConc && peak <= maxConc
      decreases Remaining(group, p)
    {
      if
      case p.next < |group| && !IsAttempted(e, gates, group[p.next]) =>
        SkipKeeps(e, gates, group, start, p);
        p := SkipStep(p);
      case p.next < |group| && IsAttempted(e, gates, group[p.next]) && InFlight(p) < maxConc =>
        StartKeeps(e, gates, group, start, p);
        p := StartStep(p);
        peak := if peak < InFlight(p) then InFlight(p) else peak;
      case p.waiting != {} =>
        var i :| i in p.waiting;
        CallKeeps(e, gates, group, start, p, i);
        p := CallStep(e, group, p, i);
      case p.leaving != {} =>
        var i :| i in p.leaving;
        LeaveKeeps(e, gates, group, start, p, i);
        p := LeaveStep(p, i);
    }
    AllStored(e, gates, group, start, p);
    AllCalled(e, gates, group);
  }

  // ---- the serial write-back ----

  function Stored(store: map<string, Record>, res: Result): map<string, Record> {
    match res
    case Skip => store
    case Upserted(r) => store[RecordKey(r) := r]
    case Errored(r) => store[RecordKey(r) := r]
    case Removed(r) => store - {RecordKey(r)}
  }

  function Regated(gates: Gates, res: Result, now: int): Gates {
    match res
    case Skip => gates
    case Errored(r) => gates[RecordKey(r) := now + Backoff(r.failures)]
    case Upserted(r) => gates - {RecordKey(r)}
    case Removed(r) => gates - {RecordKey(r)}
  }

  lemma StoreOneMore(e: Env, gates: Gates, store: map<string, Record>, a: map<string, Op>, op: Op)
    requires KeyOf(op) !in a
    ensures forall k :: Get(StoreAfter(e, gates, store, a[KeyOf(op) := op]), k) ==
              if k == KeyOf(op) then CellAfter(e, gates, op, Get(store, k)) else Get(StoreAfter(e, gates, store, a), k)
    ensures Get(StoreAfter(e, gates, store, a), KeyOf(op)) == Get(store, KeyOf(op))
  {
  }

  lemma GatesOneMore(e: Env, gates: Gates, a: map<string, Op>, op: Op)
    requires KeyOf(op) !in a
    ensures forall k :: Get(GatesAfter(e, gates, a[KeyOf(op) := op]), k) ==
              if k == KeyOf(op) then GateAfter(e, gates, op, Get(gates, k)) else Get(GatesAfter(e, gates, a), k)
    ensures Get(GatesAfter(e, gates, a), KeyOf(op)) == Get(gates, KeyOf(op))
  {
  }

  lemma StoredCell(e: Env, gates: Gates, store: map<string, Record>, op: Op, k: string)
    requires op.record.upstream in e.upstreams
    ensures Get(Stored(store, ResultOf(e, gates, op)), k) ==
            if k == KeyOf(op) then CellAfter(e, gates, op, Get(store, k)) else Get(store, k)
  {
    ResultKeepsKey(e, gates, op);
  }

  /** Writing one result back is adding its op to the batch. */
  lemma PersistOne(e: Env, gates: Gates, store: map<string, Record>, a: map<string, Op>, op: Op)
    requires KeyOf(op) !in a && op.record.upstream in e.upstreams
    ensures StoreAfter(e, gates, store, a[KeyOf(op) := op])
        == Stored(StoreAfter(e, gates, store, a), ResultOf(e, gates, op))
  {
    StoreOneMore(e, gates, store, a, op);
    var before := StoreAfter(e, gates, store, a);
    forall k ensures Get(StoreAfter(e, gates, store, a[KeyOf(op) := op]), k) ==
                     Get(Stored(before, ResultOf(e, gates, op)), k) {
      StoredCell(e, gates, before, op, k);
    }
    SameMap(StoreAfter(e, gates, store, a[KeyOf(op) := op]), Stored(before, ResultOf(e, gates, op)));
  }

  lemma RegateOne(e: Env, gates: Gates, a: map<string, Op>, op: Op)
    requires KeyOf(op) !in a
    ensures GatesAfter(e, gates, a[KeyOf(op) := op]) == Regated(GatesAfter(e, gates, a), ResultOf(e, gates, op), e.now)
  {
    ResultKeepsKey(e, gates, op);
    GatesOneMore(e, gates, a, op);
    SameMap(GatesAfter(e, gates, a[KeyOf(op) := op]), Regated(GatesAfter(e, gates, a), ResultOf(e, gates, op), e.now));
  }

  /** An op of an unknown upstream: a delete drops the store entry, anything else is skipped. */
  lemma UnknownOne(e: Env, gates: Gates, store: map<string, Record>, a: map<string, Op>, op: Op)
    requires KeyOf(op) !in a && op.record.upstream !in e.upstreams
    ensures StoreAfter(e, gates, store, a[KeyOf(op) := op]) ==
            if op.kind == Delete then StoreAfter(e, gates, store, a) - {KeyOf(op)} else StoreAfter(e, gates, store, a)
    ensures GatesAfter(e, gates, a[KeyOf(op) := op]) == GatesAfter(e, gates, a)
  {
    StoreOneMore(e, gates, store, a, op);
    SameMap(StoreAfter(e, gates, store, a[KeyOf(op) := op]),
            if op.kind == Delete then StoreAfter(e, gates, store, a) - {KeyOf(op)} else StoreAfter(e, gates, store, a));
    RegateOne(e, gates, a, op);
  }

  lemma NextOp(group: seq<Op>, i: nat)
    requires i < |group| && DistinctKeys(group)
    ensures OpsOf(group[..i + 1]) == OpsOf(group[..i])[KeyOf(group[i]) := group[i]]
    ensures KeyOf(group[i]) !in OpsOf(group[..i])
  {
    assert group[..i + 1][..i] == group[..i];
    OpsOfMembers(group[..i]);
  }

  lemma NothingApplied(e: Env, gates: Gates, store: map<string, Record>)
    ensures StoreAfter(e, gates, store, map[]) == store && GatesAfter(e, gates, map[]) == gates
  {
  }

  // ---- the groups of a plan, one after another in any order ----

  ghost function DoneOps(ops: map<string, Op>, left: set<string>): map<string, Op> {
    map k | k in ops && ops[k].record.upstream !in left :: ops[k]
  }

  ghost function GroupOps(ops: map<string, Op>, u: string): map<string, Op> {
    map k | k in ops && ops[k].record.upstream == u :: ops[k]
  }

  lemma GroupIsItsOps(plan: Plan, ops: map<string, Op>, u: string)
    requires Groups(plan, ops) && KeyedByOp(ops) && u in plan
    ensures OpsOf(plan[u]) == GroupOps(ops, u) && DistinctKeys(plan[u])
  {
    assert GroupOf(plan[u], u, ops);
    OpsOfMembers(plan[u]);
    forall k | k in GroupOps(ops, u) ensures k in OpsOf(plan[u]) { assert Planned(plan, ops[k]); }
    forall k | k in OpsOf(plan[u]) ensures k in GroupOps(ops, u) && OpsOf(plan[u])[k] == ops[k] {
      var i := IndexOfOp(plan[u], OpsOf(plan[u])[k]);
    }
  }

  lemma GroupDone(ops: map<string, Op>, left: set<string>, u: string)
    requires u in left
    ensures DoneOps(ops, left - {u}) == DoneOps(ops, left) + GroupOps(ops, u)
    ensures DoneOps(ops, left).Keys !! GroupOps(ops, u).Keys
  {
  }

  lemma EnumerateBoth(a: seq<string>, b: seq<string>, s: set<string>, t: set<string>)
    requires Enumerates(a, s) && Enumerates(b, t) && s !! t
    ensures Enumerates(a + b, s + t)
  {
    var c := a + b;
    forall i, j | 0 <= i < j < |c| ensures c[i] != c[j] {
      if i < |a| <= j { assert c[i] in s && c[j] in t; }
    }
  }

  /** What is true between two groups of apply. */
  ghost predicate BatchDone(e: Env, gates: Gates, store: map<string, Record>, slots: Slots, ops: map<string, Op>,
                           gatesNow: Gates, storeNow: map<string, Record>, slotsNow: Slots, calls: seq<string>) {
    && storeNow == StoreAfter(e, gates, store, ops)
    && gatesNow == GatesAfter(e, gates, ops)
    && CallsRun(e, gates, slots, ops, slotsNow, calls)
  }

  ghost predicate CallsRun(e: Env, gates: Gates, slots: Slots, ops: map<string, Op>, slotsNow: Slots,
                           calls: seq<string>) {
    && Enumerates(calls, Attempted(e, gates, ops))
    && slotsNow == RunCalls(slots, calls, ops, e.oracle, e.shows)
  }

  lemma AttemptedBoth(e: Env, gates: Gates, a: map<string, Op>, b: map<string, Op>)
    requires a.Keys !! b.Keys
    ensures Attempted(e, gates, a + b) == Attempted(e, gates, a) + Attempted(e, gates, b)
    ensures Attempted(e, gates, a) !! Attempted(e, gates, b)
  {
  }

  lemma CallsCompose(e: Env, gates: Gates, slots: Slots, a: map<string, Op>, b: map<string, Op>,
                     mid: Slots, calls: seq<string>, end: Slots, more: seq<string>)
    requires a.Keys !! b.Keys && KeyedByOp(b)
    requires CallsRun(e, gates, slots, a, mid, calls) && CallsRun(e, GatesAfter(e, gates, a), mid, b, end, more)
    ensures CallsRun(e, gates, slots, a + b, end, calls + more)
  {
    GatesElsewhere(e, gates, a, b);
    AttemptedBoth(e, gates, a, b);
    EnumerateBoth(calls, more, Attempted(e, gates, a), Attempted(e, gates, b));
    RunCallsSameOps(slots, calls, a, a + b, e.oracle, e.shows);
    RunCallsSameOps(mid, more, b, a + b, e.oracle, e.shows);
    RunCallsConcat(slots, calls, more, a + b, e.oracle, e.shows);
  }

  class Upstreams {
    var slots: Slots
  }

  class Executor {
    const upstreams: set<string>
    const maxConc: nat
    const store: Store
    const net: Upstreams
    var gates: Gates

    constructor (upstreams: set<string>, maxConcurrency: int, store: Store, net: Upstreams)
      ensures this.upstreams == upstreams && this.store == store && this.net == net && gates == map[]
      ensures maxConc == if maxConcurrency < 1 then 1 else maxConcurrency
    {
      this.upstreams, this.store, this.net := upstreams, store, net;
      maxConc, gates := if maxConcurrency < 1 then 1 else maxConcurrency, map[];
    }

    method PersistResult(res: Result, now: int)
      requires store.Valid() && store.Deferred()
      modifies this`gates, store.memory, store.file
      ensures store.Valid() && store.Journal() == old(store.Journal())
      ensures store.Records() == Stored(old(store.Records()), res)
      ensures gates == Regated(old(gates), res, now)
    {
      match res {
        case Skip =>
        case Errored(r) =>
          gates := gates[RecordKey(r) := now + Backoff(r.failures)];
          store.Upsert(r);
        case Removed(r) =>
          gates := gates - {RecordKey(r)};
          store.DeleteRecord(r);
        case Upserted(r) =>
          gates := gates - {RecordKey(r)};
          store.Upsert(r);
      }
    }

    /** persist: the results of one group, in slice order. */
    method Persist(e: Env, ghost group: seq<Op>, results: seq<Result>)
      requires DistinctKeys(group) && results == ResultsOf(e, gates, group)
      requires forall op :: op in group ==> op.record.upstream in e.upstreams
      requires store.Valid() && store.Deferred()
      modifies this`gates, store.memory, store.file
      ensures store.Valid() && store.Journal() == old(store.Journal())
      ensures store.Records() == StoreAfter(e, old(gates), old(store.Records()), OpsOf(group))
      ensures gates == GatesAfter(e, old(gates), OpsOf(group))
    {
      ghost var gates0, store0 := gates, store.Records();
      NothingApplied(e, gates, store.Records());
      for i := 0 to |results|
        invariant store.Valid() && store.Deferred() && store.Journal() == old(store.Journal())
        invariant store.Records() == StoreAfter(e, gates0, store0, OpsOf(group[..i]))
        invariant gates == GatesAfter(e, gates0, OpsOf(group[..i]))
      {
        NextOp(group, i);
        PersistOne(e, gates0, store0, OpsOf(group[..i]), group[i]);
        RegateOne(e, gates0, OpsOf(group[..i]), group[i]);
        PersistResult(results[i], e.now);
      }
      assert group[..|results|] == group;
    }

    method ApplyUnknownUpstream(ghost e: Env, group: seq<Op>)
      requires DistinctKeys(group)
      requires forall op :: op in group ==> op.record.upstream !in e.upstreams
      requires store.Valid() && store.Deferred()
      modifies store.memory, store.file
      ensures store.Valid() && store.Journal() == old(store.Journal())
      ensures store.Records() == StoreAfter(e, gates, old(store.Records()), OpsOf(group))
      ensures gates == GatesAfter(e, gates, OpsOf(group))
    {
      ghost var store0 := store.Records();
      NothingApplied(e, gates, store.Records());
      for i := 0 to |group|
        invariant store.Valid() && store.Deferred() && store.Journal() == old(store.Journal())
        invariant store.Records() == StoreAfter(e, gates, store0, OpsOf(group[..i]))
        invariant gates == GatesAfter(e, gates, OpsOf(group[..i]))
      {
        NextOp(group, i);
        UnknownOne(e, gates, store0, OpsOf(group[..i]), group[i]);
        if group[i].kind == Delete {
          store.DeleteRecord(group[i].record);
        }
      }
      assert group[..|group|] == group;
    }

    /** One upstream's group: nothing is written to the store before every worker has returned. */
    method ApplyGroup(e: Env, group: seq<Op>, u: string) returns (calls: seq<string>)
      requires e.upstreams == upstreams && maxConc >= 1 && DistinctKeys(group)
      requires forall op :: op in group ==> op.record.upstream == u
      requires store.Valid() && store.Deferred()
      modifies this`gates, store.memory, store.file, net
      ensures store.Valid() && store.Journal() == old(store.Journal())
      ensures BatchDone(e, old(gates), old(store.Records()), old(net.slots), OpsOf(group), gates, store.Records(),
          net.slots, calls)
    {
      if u !in upstreams {
        ApplyUnknownUpstream(e, group);
        calls := [];
        OpsOfMembers(group);
        assert Attempted(e, old(gates), OpsOf(group)) == {};
      } else {
        var p, peak := ApplyUpstream(e, gates, group, maxConc, net.slots);
        net.slots := p.slots;
        calls := p.calls;
        Persist(e, group, p.results);
      }
    }

    /** apply: the groups in any order. The outcome is the key-by-key one, whatever that order and
        whatever the interleaving of workers inside each group. */
    method ApplyOps(plan: Plan, e: Env, ghost ops: map<string, Op>) returns (calls: seq<string>)
      requires e.upstreams == upstreams && maxConc >= 1
      requires Groups(plan, ops) && KeyedByOp(ops)
      requires store.Valid() && store.Deferred()
      modifies this`gates, store.memory, store.file, net
      ensures store.Valid() && store.Journal() == old(store.Journal())
      ensures BatchDone(e, old(gates), old(store.Records()), old(net.slots), ops, gates, store.Records(), net.slots,
          calls)
    {
      ghost var gates0, store0, slots0 := gates, store.Records(), net.slots;
      NothingApplied(e, gates, store.Records());
      calls := [];
      var left := plan.Keys;
      NoOpsDone(plan, ops);
      assert Attempted(e, gates0, map[]) == {};
      while left != {}
        invariant left <= plan.Keys
        invariant store.Valid() && store.Deferred() && store.Journal() == old(store.Journal())
        invariant BatchDone(e, gates0, store0, slots0, DoneOps(ops, left), gates, store.Records(), net.slots, calls)
        decreases left
      {
        var u :| u in left;
        ghost var done, mid := DoneOps(ops, left), net.slots;
        GroupIsItsOps(plan, ops, u);
        GroupDone(ops, left, u);
        var more := ApplyGroup(e, plan[u], u);
        BatchesCompose(e, gates0, store0, done, GroupOps(ops, u));
        GatesCompose(e, gates0, done, GroupOps(ops, u));
        CallsCompose(e, gates0, slots0, done, GroupOps(ops, u), mid, calls, net.slots, more);
        calls, left := calls + more, left - {u};
      }
      assert DoneOps(ops, {}) == ops;
    }

    /** Apply: over a file-backed store the pass's writes are one batch, flushed once after every call has returned. A
        failing flush is logged and otherwise dropped. */
    method Apply(plan: Plan, e: Env, ghost ops: map<string, Op>) returns (calls: seq<string>)
      requires e.upstreams == upstreams && maxConc >= 1
      requires Groups(plan, ops) && KeyedByOp(ops)
      requires store.Valid() && store.Idle()
      modifies this`gates, store.memory, store.file, net
      ensures BatchDone(e, old(gates), old(store.Records()), old(net.slots), ops, gates, store.Records(), net.slots,
          calls)
      ensures store.Valid() && store.Idle()
      ensures store.file != null ==> store.file.Stored(store.file.records, old(store.file.Now()))
    {
      if store.file == null {
        calls := ApplyOps(plan, e, ops);
      } else {
        var outermost := store.file.Begin();
        calls := ApplyOps(plan, e, ops);
        var _ := store.file.End(outermost, false);
      }
    }
  }

  lemma NoOpsDone(plan: Plan, ops: map<string, Op>)
    requires Groups(plan, ops)
    ensures DoneOps(ops, plan.Keys) == map[]
  {
  }
}
