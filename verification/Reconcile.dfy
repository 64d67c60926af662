/** One reconcile pass and runs of passes (internal/reconcile/reconcile.go). */
module Reconcile {
  import opened Text
  import opened Arith
  import opened Model
  import opened Drift
  import opened Diff
  import opened Registry
  import opened Stores
  import opened FileStores
  import opened Effects
  import opened Calls
  import opened FanOut
  import opened Collect

  /** What is fixed for the process: source names, configured upstreams, which of them list, how often to
      list them, their comparers, and what they show for applied fields. */
  datatype Config = Config(sources: seq<string>, upstreams: set<string>, listers: set<string>,
                           interval: map<string, int>, compare: map<string, Comparer>, shows: Shows)

  /** How far a pass gets: through, or to a store that cannot be read, or to a panic in a source, a List call or a
      comparer, which it recovers from. `listed` is None if a source panicked; that source, and those after it, are then
      Unavailable. Otherwise it says which upstreams had been listed by then. */
  datatype End = Completed | Unreadable | Abandoned(listed: Option<set<string>>)

  /** What one pass meets: snapshot results, how it ends, list results, the clock, and call outcomes; and the orders in
      which maps were ranged over and calls were made. */
  datatype Input = Input(snaps: seq<Snapshot>, end: End, checkAt: int, listing: Listing, listOrder: seq<string>,
                         now: int, oracle: string -> Outcome, calls: seq<string>)

  datatype World = World(cache: Cache, store: map<string, Record>, nextCheck: map<string, int>, gates: Gates,
                         slots: Slots, listFailures: nat)

  function Orphans(sources: seq<string>, store: map<string, Record>): set<string> {
    set k | k in store && store[k].sourceName !in sources :: store[k].sourceName
  }

  function Snapshotted(c: Config, w: World, i: Input): set<string>
    requires |i.snaps| == |c.sources|
  {
    CleanSources(c.sources, i.snaps) + Orphans(c.sources, w.store)
  }

  function Fetched(c: Config, w: World, i: Input): set<string> {
    FetchedOf(c.listers, c.interval, w.nextCheck, i.checkAt, i.listing)
  }

  function Verified(c: Config, w: World, i: Input): Verification {
    Verification(ActualOf(Fetched(c, w, i), i.listing), Fetched(c, w, i), c.compare)
  }

  function Desired(c: Config, w: World, i: Input): map<string, Record>
    requires |i.snaps| == |c.sources|
  {
    ByKey(DesiredOf(c.sources, i.snaps, w.cache))
  }

  function EnvOf(c: Config, w: World, i: Input): Env {
    Env(c.upstreams, w.store, i.now, i.oracle, c.shows)
  }

  predicate Collectable(c: Config, w: World, i: Input) {
    |i.snaps| == |c.sources| && KeyedByRecord(w.store) && forall u :: u in i.listOrder ==> u in Fetched(c, w, i)
  }

  function PassOps(c: Config, w: World, i: Input): map<string, Op>
    requires Collectable(c, w, i)
  {
    var v := Verified(c, w, i);
    PlanOps(Desired(c, w, i), w.store, Snapshotted(c, w, i), IndexOf(Flatten(v.actual, i.listOrder)), v)
  }

  /** Which op a key gets: its desired record's, or a delete of a recorded-only record of a snapshotted source. */
  lemma OpAt(c: Config, w: World, i: Input, k: string)
    requires Collectable(c, w, i)
    ensures var ops, want := PassOps(c, w, i), Desired(c, w, i);
            && (k in ops <==> k in want || (k in w.store && w.store[k].sourceName in Snapshotted(c, w, i)))
            && (k in want ==> ops[k].record == want[k] && ops[k].kind != Delete)
            && (k in ops && k !in want ==> ops[k] == Op(Delete, w.store[k], NoDrift))
            && (k in ops ==> KeyOf(ops[k]) == k)
  {
  }

  function PassAttempts(c: Config, w: World, i: Input): set<string>
    requires Collectable(c, w, i)
  {
    Attempted(EnvOf(c, w, i), w.gates, PassOps(c, w, i))
  }

  /** The orders in `i` are orders of what the pass ranges over and calls. */
  ghost predicate ValidInput(c: Config, w: World, i: Input) {
    && Collectable(c, w, i)
    && (i.end.Completed? ==> Enumerates(i.listOrder, Fetched(c, w, i)) && Enumerates(i.calls, PassAttempts(c, w, i)))
  }

  function Pass(c: Config, w: World, i: Input): World
    requires Collectable(c, w, i) && forall k :: k in i.calls ==> k in PassOps(c, w, i)
  {
    match i.end
    case Unreadable =>
      w.(cache := CacheAfter(c.sources, i.snaps, w.cache), listFailures := w.listFailures + 1)
    case Abandoned(None) =>
      w.(cache := CacheAfter(c.sources, i.snaps, w.cache))
    case Abandoned(Some(listed)) =>
      w.(cache := CacheAfter(c.sources, i.snaps, w.cache), listFailures := 0,
         nextCheck := NextCheckAfter(c.interval, w.nextCheck, Fetched(c, w, i) * listed, i.checkAt))
    case Completed =>
      var ops, e := PassOps(c, w, i), EnvOf(c, w, i);
      World(CacheAfter(c.sources, i.snaps, w.cache),
            StoreAfter(e, w.gates, w.store, ops),
            NextCheckAfter(c.interval, w.nextCheck, Fetched(c, w, i), i.checkAt),
            GatesAfter(e, w.gates, ops),
            RunCalls(w.slots, i.calls, ops, i.oracle, c.shows),
            0)
  }

  ghost predicate Step(c: Config, w: World, i: Input, w': World) {
    && ValidInput(c, w, i)
    && (!i.end.Completed? ==> i.calls == [])
    && w' == Pass(c, w, i)
  }

  ghost predicate AllCollectable(c: Config, ws: seq<World>, ins: seq<Input>) {
    |ws| == |ins| + 1 && forall m :: 0 <= m < |ins| ==> Collectable(c, ws[m], ins[m])
  }

  ghost predicate AllSteps(c: Config, ws: seq<World>, ins: seq<Input>) {
    |ws| == |ins| + 1 && forall n :: 0 <= n < |ins| ==> Step(c, ws[n], ins[n], ws[n + 1])
  }

  /** Worlds ws[0], ws[1], ... joined by the passes ins[0], ins[1], ... */
  ghost predicate IsRun(c: Config, ws: seq<World>, ins: seq<Input>) {
    AllSteps(c, ws, ins) && AllCollectable(c, ws, ins) && KeyedByRecord(ws[0].store)
  }

  /** Any steps from a well-keyed store make a run. */
  lemma StepsMakeRun(c: Config, ws: seq<World>, ins: seq<Input>)
    requires AllSteps(c, ws, ins) && KeyedByRecord(ws[0].store)
    ensures IsRun(c, ws, ins)
  {
    forall m | 0 <= m < |ins| ensures Collectable(c, ws[m], ins[m]) {
      assert Step(c, ws[m], ins[m], ws[m + 1]);
    }
  }

  /** A pass that is not completed calls no upstream and leaves store, gates and upstreams alone. */
  lemma EarlyEndChangesNothing(c: Config, w: World, i: Input, w': World)
    requires Step(c, w, i, w') && !i.end.Completed?
    ensures i.calls == [] && w'.store == w.store && w'.gates == w.gates && w'.slots == w.slots
  {
  }

  /** However far it gets, the sources' caches are those of the snapshots it got. */
  lemma StepCaches(c: Config, w: World, i: Input, w': World)
    requires Step(c, w, i, w')
    ensures |i.snaps| == |c.sources| && w'.cache == CacheAfter(c.sources, i.snaps, w.cache)
  {
  }

  lemma CompletedStore(c: Config, w: World, i: Input, w': World)
    requires Step(c, w, i, w') && i.end.Completed?
    ensures w'.store == StoreAfter(EnvOf(c, w, i), w.gates, w.store, PassOps(c, w, i))
  {
  }

  lemma PassKeepsKeys(c: Config, w: World, i: Input, w': World)
    requires Step(c, w, i, w')
    ensures KeyedByRecord(w'.store)
  {
    if i.end.Completed? {
      CompletedStore(c, w, i, w');
      StoreStaysKeyed(EnvOf(c, w, i), w.gates, w.store, PassOps(c, w, i));
    } else {
      EarlyEndChangesNothing(c, w, i, w');
    }
  }

  /** One key's part in a pass. */
  ghost predicate KeyStep(c: Config, w: World, i: Input, w': World, k: string)
    requires Collectable(c, w, i)
  {
    && (k in PassOps(c, w, i) ==>
          var e, op := EnvOf(c, w, i), PassOps(c, w, i)[k];
          && KeyOf(op) == k
          && Get(w'.store, k) == CellAfter(e, w.gates, op, Get(w.store, k))
          && Get(w'.gates, k) == GateAfter(e, w.gates, op, Get(w.gates, k))
          && (k in i.calls <==> IsAttempted(e, w.gates, op)))
    && (k !in PassOps(c, w, i) ==> Get(w'.store, k) == Get(w.store, k) && Get(w'.gates, k) == Get(w.gates, k))
  }

  /** What a pass does to one key's store cell and gate. */
  lemma PassAt(c: Config, w: World, i: Input, w': World, k: string)
    requires Step(c, w, i, w') && i.end.Completed?
    ensures KeyStep(c, w, i, w', k)
  {
    var ops, e := PassOps(c, w, i), EnvOf(c, w, i);
    OpAt(c, w, i, k);
    StoreAfterAt(e, w.gates, w.store, ops, k);
    GatesAfterAt(e, w.gates, ops, k);
  }

  /** What a pass does to the slot of one of its ops, when no two ops share a slot. */
  lemma PassSlotAt(c: Config, w: World, i: Input, w': World, k: string)
    requires Step(c, w, i, w') && i.end.Completed? && k in PassOps(c, w, i)
    requires OwnSlots(PassOps(c, w, i).Keys, PassOps(c, w, i))
    ensures var e, op := EnvOf(c, w, i), PassOps(c, w, i)[k];
            SlotAt(w'.slots, SlotOf(op.record)) ==
            if IsAttempted(e, w.gates, op) then LeftBy(op, i.oracle(k), c.shows) else SlotAt(w.slots, SlotOf(op.record))
  {
    var ops := PassOps(c, w, i);
    OwnSlotSettled(w.slots, i.calls, ops.Keys, ops, i.oracle, c.shows, k);
  }

  // ---- the store read backoff ----

  /** Passes m to n all found the store unreadable. */
  ghost predicate UnreadableFrom(ins: seq<Input>, m: nat, n: nat) {
    m <= n <= |ins| && forall p :: m <= p < n ==> ins[p].end.Unreadable?
  }

  /** The count the read backoff goes by grows by one with each unreadable pass in a row and starts over once the store
      has been read; a pass that a source's panic ends before that leaves it. */
  lemma {:induction false} ReadFailuresCounted(c: Config, ws: seq<World>, ins: seq<Input>, m: nat, n: nat)
    requires AllSteps(c, ws, ins) && UnreadableFrom(ins, m, n)
    ensures ws[n].listFailures == ws[m].listFailures + (n - m)
    ensures m > 0 && !ins[m - 1].end.Unreadable? && ins[m - 1].end != Abandoned(None) ==> ws[n].listFailures == n - m
    ensures m > 0 && ins[m - 1].end == Abandoned(None) ==> ws[n].listFailures == ws[m - 1].listFailures + (n - m)
    decreases n
  {
    if m < n {
      ReadFailuresCounted(c, ws, ins, m, n - 1);
      ReadFailuresStep(c, ws[n - 1], ins[n - 1], ws[n]);
    } else if m > 0 {
      ReadFailuresStep(c, ws[m - 1], ins[m - 1], ws[m]);
    }
  }

  lemma ReadFailuresStep(c: Config, w: World, i: Input, w': World)
    requires Step(c, w, i, w')
    ensures w'.listFailures == if i.end.Unreadable? then w.listFailures + 1
                               else if i.end == Abandoned(None) then w.listFailures else 0
  {
  }

  const READ_BASE := SECOND
  const READ_MAX := 30 * SECOND

  function StoreReadBackoff(failures: int): int {
    if failures <= 0 then 0
    else
      var d := READ_BASE * Pow2(Min(failures - 1, 20));
      if d <= 0 || d > READ_MAX then READ_MAX else d
  }

  lemma ReadBackoffIsCappedDoubling(n: nat)
    requires n >= 1
    ensures StoreReadBackoff(n) == Min(SECOND * Pow2(n - 1), 30 * SECOND)
  {
    assert Pow2(5) == 32;
    if n - 1 > 20 { Pow2Monotone(5, n - 1); Pow2Monotone(5, 20); }
  }

  /** The parts of a readable pass make up the whole step. */
  lemma PassMade(c: Config, w: World, i: Input, e: Env, calls: seq<string>, w': World)
    requires Collectable(c, w, i) && i.end.Completed? && e == EnvOf(c, w, i)
    requires Enumerates(i.listOrder, Fetched(c, w, i))
    requires BatchDone(e, w.gates, w.store, w.slots, PassOps(c, w, i), w'.gates, w'.store, w'.slots, calls)
    requires w'.cache == CacheAfter(c.sources, i.snaps, w.cache) && w'.listFailures == 0
    requires w'.nextCheck == NextCheckAfter(c.interval, w.nextCheck, Fetched(c, w, i), i.checkAt)
    ensures Step(c, w, i.(calls := calls), w') && KeyedByRecord(w'.store)
  {
    var i' := i.(calls := calls);
    assert PassOps(c, w, i') == PassOps(c, w, i) && Fetched(c, w, i') == Fetched(c, w, i) && EnvOf(c, w, i') == e;
    StoreStaysKeyed(e, w.gates, w.store, PassOps(c, w, i));
  }

  /** Of the upstreams only `listed` answer. */
  function Answers(listing: Listing, listed: set<string>): Listing {
    (u: string) => if u in listed then listing(u) else None
  }

  lemma AnswersFetched(c: Config, w: World, i: Input, listed: set<string>)
    ensures FetchedOf(c.listers, c.interval, w.nextCheck, i.checkAt, Answers(i.listing, listed)) ==
            Fetched(c, w, i) * listed
  {
  }

  class Reconciler {
    const c: Config
    const collector: Collector
    const upstreamCollector: UpstreamCollector
    const executor: Executor
    var listFailures: nat

    ghost predicate Valid()
      reads this, collector, upstreamCollector, executor, executor.store.memory, executor.store.file, executor.net
    {
      && collector.sources == c.sources
      && upstreamCollector.listers == c.listers && upstreamCollector.interval == c.interval
      && executor.upstreams == c.upstreams && executor.maxConc >= 1
      && executor.store.Valid() && executor.store.Idle() && KeyedByRecord(executor.store.Records())
    }

    ghost function Now(): World
      reads this, collector, upstreamCollector, executor, executor.store.memory, executor.store.file, executor.net
    {
      World(collector.lastGood, executor.store.Records(), upstreamCollector.nextCheck, executor.gates,
            executor.net.slots, listFailures)
    }

    constructor (c: Config, maxConcurrency: int, store: Store, net: Upstreams)
      requires store.Valid() && store.Idle() && KeyedByRecord(store.Records())
      ensures Valid() && this.c == c && executor.store == store && executor.net == net
      ensures Now() == World(map[], store.Records(), map[], map[], net.slots, 0)
      ensures fresh(collector) && fresh(upstreamCollector) && fresh(executor)
    {
      this.c := c;
      collector := new Collector(c.sources);
      upstreamCollector := new UpstreamCollector(c.listers, c.interval);
      executor := new Executor(c.upstreams, maxConcurrency, store, net);
      listFailures := 0;
    }

    /** markOrphanSources: names in the store that are no longer configured count as snapshotted. */
    method MarkOrphanSources(recorded: seq<Record>, snapshotted: set<string>) returns (marked: set<string>)
      ensures marked == snapshotted + OrphanNames(c.sources, recorded)
    {
      marked := snapshotted;
      for i := 0 to |recorded|
        invariant marked == snapshotted + OrphanNames(c.sources, recorded[..i])
      {
        assert recorded[..i + 1] == recorded[..i] + [recorded[i]];
        if recorded[i].sourceName !in c.sources {
          marked := marked + {recorded[i].sourceName};
        }
      }
      assert recorded[..|recorded|] == recorded;
    }

    /** What a pass did to the file: nothing if it got no further than planning, else one flush of the store it ended
        with. */
    ghost predicate OnDisk(i: Input, past: Past)
      requires executor.store.file != null
      reads this, executor, executor.store.file
    {
      if i.end.Completed? then executor.store.file.Stored(executor.store.file.records, past)
      else executor.store.file.Now() == past
    }

    /** reconcile: one pass, however far it gets, or nothing if the context has ended. Everything the source leaves to
        map ranging and to worker scheduling is in the orders of the returned input, and the world moves exactly as that
        pass says. */
    method Reconcile(i: Input, ended: bool) returns (i': Input)
      requires Valid() && |i.snaps| == |c.sources|
      modifies this`listFailures, collector, upstreamCollector, executor`gates
      modifies executor.store.memory, executor.store.file, executor.net
      ensures Valid() && i' == i.(listOrder := i'.listOrder, calls := i'.calls)
      ensures if ended then Now() == old(Now()) && i'.calls == [] else Step(c, old(Now()), i', Now())
      ensures var file := executor.store.file;
              file != null ==> if ended then file.Now() == old(file.Now()) else OnDisk(i', old(file.Now()))
    {
      ghost var w := Now();
      i' := i.(listOrder := [], calls := []);
      if ended { return; }
      var desired, snapshotted := collector.Collect(i.snaps);
      if i.end.Completed? {
        i' := FinishPass(i, desired, snapshotted, w);
      } else {
        EndEarly(i', w);
      }
    }

    /** The pass from there, if it goes no further than planning. */
    method EndEarly(i: Input, ghost w: World)
      requires Valid() && |i.snaps| == |c.sources| && !i.end.Completed? && i.calls == i.listOrder == []
      requires Now() == w.(cache := CacheAfter(c.sources, i.snaps, w.cache))
      modifies this`listFailures, upstreamCollector
      ensures Valid() && Step(c, w, i, Now())
    {
      match i.end {
        case Abandoned(None) =>
        case Unreadable =>
          listFailures := listFailures + 1;
        case Abandoned(Some(listed)) =>
          listFailures := 0;
          var _, _ := upstreamCollector.Collect(i.checkAt, Answers(i.listing, listed));
          AnswersFetched(c, w, i, listed);
      }
    }

    /** The pass from the point where the sources have been collected and the store can be read. */
    method FinishPass(i: Input, desired: seq<Record>, clean: set<string>, ghost w: World) returns (i': Input)
      requires Valid() && |i.snaps| == |c.sources| && i.end.Completed?
      requires desired == DesiredOf(c.sources, i.snaps, w.cache) && clean == CleanSources(c.sources, i.snaps)
      requires Now() == w.(cache := CacheAfter(c.sources, i.snaps, w.cache))
      modifies this`listFailures, upstreamCollector, executor`gates
      modifies executor.store.memory, executor.store.file, executor.net
      ensures Valid() && i' == i.(listOrder := i'.listOrder, calls := i'.calls)
      ensures Step(c, w, i', Now())
      ensures executor.store.file != null ==> OnDisk(i', old(executor.store.file.Now()))
    {
      listFailures := 0;
      var recorded, plan, order := ComputePlan(i, desired, clean, w);
      i' := i.(listOrder := order);
      var calls := ApplyPlan(plan, recorded, i', w);
      i' := i'.(calls := calls);
    }

    /** The applying half: outcomes written back, and a file-backed store flushed. */
    method ApplyPlan(plan: Plan, recorded: seq<Record>, i: Input, ghost w: World) returns (calls: seq<string>)
      requires Valid() && |i.snaps| == |c.sources| && i.end.Completed? && Collectable(c, w, i)
      requires ListingOf(recorded, w.store) && Enumerates(i.listOrder, Fetched(c, w, i))
          && Groups(plan, PassOps(c, w, i))
      requires executor.store.Records() == w.store && executor.gates == w.gates && executor.net.slots == w.slots
      requires collector.lastGood == CacheAfter(c.sources, i.snaps, w.cache) && listFailures == 0
      requires upstreamCollector.nextCheck == NextCheckAfter(c.interval, w.nextCheck, Fetched(c, w, i), i.checkAt)
      modifies executor`gates, executor.store.memory, executor.store.file, executor.net
      ensures Valid() && Step(c, w, i.(calls := calls), Now())
      ensures executor.store.file != null ==> OnDisk(i, old(executor.store.file.Now()))
    {
      var e := Env(c.upstreams, IndexRecorded(recorded), i.now, i.oracle, c.shows);
      calls := executor.Apply(plan, e, PassOps(c, w, i));
      PassMade(c, w, i, e, calls, Now());
    }

    /** The planning half: the recorded state, orphans, upstream listing and diff. */
    method ComputePlan(i: Input, desired: seq<Record>, clean: set<string>, ghost w: World)
      returns (recorded: seq<Record>, plan: Plan, order: seq<string>)
      requires Valid() && |i.snaps| == |c.sources| && executor.store.Records() == w.store
      requires desired == DesiredOf(c.sources, i.snaps, w.cache) && clean == CleanSources(c.sources, i.snaps)
      requires upstreamCollector.nextCheck == w.nextCheck
      modifies upstreamCollector
      ensures Valid() && ListingOf(recorded, w.store)
      ensures upstreamCollector.nextCheck == NextCheckAfter(c.interval, w.nextCheck, Fetched(c, w, i), i.checkAt)
      ensures Enumerates(order, Fetched(c, w, i))
      ensures Groups(plan, PassOps(c, w, i.(listOrder := order)))
    {
      recorded := executor.store.List();
      OrphansListed(c.sources, recorded, w.store);
      var snapshotted := MarkOrphanSources(recorded, clean);
      var actual, fetched := upstreamCollector.Collect(i.checkAt, i.listing);
      var v := Verification(actual, fetched, c.compare);
      plan, order := ComputeDiff(desired, recorded, snapshotted, v);
    }

    function IndexRecorded(recorded: seq<Record>): map<string, Record> {
      ByKey(recorded)
    }
  }

  function OrphanNames(sources: seq<string>, recorded: seq<Record>): set<string> {
    set r | r in recorded && r.sourceName !in sources :: r.sourceName
  }

  lemma OrphansListed(sources: seq<string>, recorded: seq<Record>, store: map<string, Record>)
    requires ListingOf(recorded, store)
    ensures OrphanNames(sources, recorded) == Orphans(sources, store)
  {
  }
}
