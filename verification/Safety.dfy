/** Safety over every run of passes: no data means no change, and what the status "synced" is worth
    (internal/reconcile/collect.go, diff.go, executor.go, reconcile.go). */
module Safety {
  import opened Text
  import opened Model
  import opened Drift
  import opened Diff
  import opened Registry
  import opened Effects
  import opened Calls
  import opened Collect
  import opened Reconcile
  import opened Plain

  // ---- desired state: a failing source contributes its most recent good snapshot ----

  ghost predicate DistinctSources(sources: seq<string>) {
    forall a, b :: 0 <= a < b < |sources| ==> sources[a] != sources[b]
  }

  /** Source s's records in the last of the first n passes that snapshotted it; none before the first such pass. */
  function LastSnapshot(ins: seq<Input>, s: nat, n: nat): seq<Record>
    requires n <= |ins| && forall m :: 0 <= m < n ==> s < |ins[m].snaps|
  {
    if n == 0 then []
    else if ins[n - 1].snaps[s].Records? then ins[n - 1].snaps[s].records
    else LastSnapshot(ins, s, n - 1)
  }

  /** Desired state read off the history alone. */
  function HistoryDesired(ins: seq<Input>, n: nat, count: nat): seq<Record>
    requires n < |ins| && forall m :: 0 <= m <= n ==> count <= |ins[m].snaps|
  {
    if count == 0 then [] else HistoryDesired(ins, n, count - 1) + LastSnapshot(ins, count - 1, n + 1)
  }

  lemma {:induction false} CacheElsewhere(sources: seq<string>, snaps: seq<Snapshot>, cache: Cache, name: string)
    requires |sources| == |snaps| && name !in sources
    ensures Cached(CacheAfter(sources, snaps, cache), name) == Cached(cache, name)
  {
    if sources != [] {
      var last := |sources| - 1;
      assert sources == sources[..last] + [sources[last]];
      CacheElsewhere(sources[..last], snaps[..last], cache, name);
    }
  }

  lemma {:induction false} CacheAt(sources: seq<string>, snaps: seq<Snapshot>, cache: Cache, s: nat)
    requires |sources| == |snaps| && s < |sources| && DistinctSources(sources)
    ensures Cached(CacheAfter(sources, snaps, cache), sources[s]) ==
            if snaps[s].Records? then snaps[s].records else Cached(cache, sources[s])
  {
    var last := |sources| - 1;
    if s == last {
      CacheElsewhere(sources[..last], snaps[..last], cache, sources[s]);
    } else {
      CacheAt(sources[..last], snaps[..last], cache, s);
    }
  }

  /** The sources' caches over a run, however far each pass gets. */
  ghost predicate CachesFollow(sources: seq<string>, ws: seq<World>, ins: seq<Input>) {
    |ws| == |ins| + 1 && forall m :: 0 <= m < |ins| ==>
      |ins[m].snaps| == |sources| && ws[m + 1].cache == CacheAfter(sources, ins[m].snaps, ws[m].cache)
  }

  lemma RunCaches(c: Config, ws: seq<World>, ins: seq<Input>)
    requires IsRun(c, ws, ins)
    ensures CachesFollow(c.sources, ws, ins)
  {
    forall m | 0 <= m < |ins|
      ensures |ins[m].snaps| == |c.sources| && ws[m + 1].cache == CacheAfter(c.sources, ins[m].snaps, ws[m].cache)
    {
      StepCaches(c, ws[m], ins[m], ws[m + 1]);
    }
  }

  lemma {:induction false} CacheIsHistory(sources: seq<string>, ws: seq<World>, ins: seq<Input>, n: nat, s: nat)
    requires CachesFollow(sources, ws, ins) && ws[0].cache == map[] && DistinctSources(sources)
    requires n <= |ins| && s < |sources|
    ensures Cached(ws[n].cache, sources[s]) == LastSnapshot(ins, s, n)
  {
    if n > 0 {
      CacheIsHistory(sources, ws, ins, n - 1, s);
      CacheAt(sources, ins[n - 1].snaps, ws[n - 1].cache, s);
    }
  }

  lemma {:induction false} DesiredIsHistoryUpTo(sources: seq<string>, ws: seq<World>, ins: seq<Input>, n: nat,
                                                count: nat)
    requires CachesFollow(sources, ws, ins) && ws[0].cache == map[] && DistinctSources(sources)
    requires n < |ins| && count <= |sources|
    ensures DesiredOf(sources[..count], ins[n].snaps[..count], ws[n].cache) == HistoryDesired(ins, n, count)
  {
    if count > 0 {
      var last := count - 1;
      DesiredIsHistoryUpTo(sources, ws, ins, n, last);
      CacheIsHistory(sources, ws, ins, n, last);
      var first, snaps := sources[..count], ins[n].snaps[..count];
      assert first[..last] == sources[..last] && snaps[..last] == ins[n].snaps[..last];
      CacheElsewhere(first[..last], snaps[..last], ws[n].cache, first[last]);
    }
  }

  /** In every pass of every run, each source contributes exactly its most recent good snapshot. */
  lemma DesiredIsLatestSnapshots(c: Config, ws: seq<World>, ins: seq<Input>, n: nat)
    requires IsRun(c, ws, ins) && ws[0].cache == map[] && DistinctSources(c.sources) && n < |ins|
    ensures forall m :: 0 <= m < |ins| ==> |ins[m].snaps| == |c.sources|
    ensures Desired(c, ws[n], ins[n]) == ByKey(HistoryDesired(ins, n, |c.sources|))
  {
    RunCaches(c, ws, ins);
    DesiredIsHistoryUpTo(c.sources, ws, ins, n, |c.sources|);
    assert c.sources[..|c.sources|] == c.sources && ins[n].snaps[..|c.sources|] == ins[n].snaps;
  }

  // ---- no data means no change ----

  predicate HasKey(records: seq<Record>, key: string) {
    exists r :: r in records && RecordKey(r) == key
  }

  lemma {:induction false} CleanContributes(sources: seq<string>, snaps: seq<Snapshot>, cache: Cache, s: nat)
    requires |sources| == |snaps| && s < |sources| && snaps[s].Records?
    ensures forall r :: r in snaps[s].records ==> r in DesiredOf(sources, snaps, cache)
  {
    var last := |sources| - 1;
    if s < last { CleanContributes(sources[..last], snaps[..last], cache, s); }
  }

  /** A stored record of a configured source leaves the store, or gets a delete op, only in a pass in which a
      source of that name snapshotted, and only if every snapshot of the pass omits its key. */
  lemma NoDataNoChange(c: Config, w: World, i: Input, w': World, key: string)
    requires Step(c, w, i, w') && key in w.store && w.store[key].sourceName in c.sources
    requires key !in w'.store || (i.end.Completed? && key in PassOps(c, w, i) && PassOps(c, w, i)[key].kind == Delete)
    ensures i.end.Completed?
    ensures exists s :: 0 <= s < |c.sources| && c.sources[s] == w.store[key].sourceName && i.snaps[s].Records?
    ensures forall s :: 0 <= s < |c.sources| && i.snaps[s].Records? ==> !HasKey(i.snaps[s].records, key)
  {
    if i.end.Completed? && key !in w'.store {
      PassAt(c, w, i, w', key);
      LeavesByDelete(c, w, i, w', key);
    }
    OpAt(c, w, i, key);
    assert w.store[key].sourceName in CleanSources(c.sources, i.snaps);
    forall s | 0 <= s < |c.sources| && i.snaps[s].Records? ensures !HasKey(i.snaps[s].records, key) {
      CleanContributes(c.sources, i.snaps, w.cache, s);
    }
  }

  lemma LeavesByDelete(c: Config, w: World, i: Input, w': World, key: string)
    requires Collectable(c, w, i) && KeyStep(c, w, i, w', key) && key in w.store && key !in w'.store
    ensures key in PassOps(c, w, i) && PassOps(c, w, i)[key].kind == Delete
  {
  }

  /** No source of that name snapshots in this pass. */
  ghost predicate Silent(c: Config, i: Input, name: string) {
    forall s :: 0 <= s < |c.sources| && s < |i.snaps| && c.sources[s] == name ==> i.snaps[s].Unavailable?
  }

  /** Over a run: as long as nobody of that name snapshots, a stored record stays stored. */
  lemma {:induction false} OutageKeepsRecord(c: Config, ws: seq<World>, ins: seq<Input>, key: string, n: nat)
    requires IsRun(c, ws, ins) && n <= |ins| && key in ws[0].store
    requires forall m :: 0 <= m < n && key in ws[m].store ==>
               ws[m].store[key].sourceName in c.sources && Silent(c, ins[m], ws[m].store[key].sourceName)
    ensures forall m :: 0 <= m <= n ==> key in ws[m].store
  {
    if n > 0 {
      OutageKeepsRecord(c, ws, ins, key, n - 1);
      assert Step(c, ws[n - 1], ins[n - 1], ws[n]);
      if key !in ws[n].store {
        NoDataNoChange(c, ws[n - 1], ins[n - 1], ws[n], key);
      }
    }
  }

  // ---- what "synced" promises ----

  /** A fixed slot per key, no two keys on one slot: what record sources give when names are not reused or renamed. */
  ghost predicate Assigned(records: seq<Record>, keys: set<string>, slotOf: string -> Slot) {
    forall r :: r in records ==> RecordKey(r) in keys && SlotOf(r) == slotOf(RecordKey(r))
  }

  ghost predicate OneSlotPerKey(keys: set<string>, slotOf: string -> Slot) {
    forall a, b :: a in keys && b in keys && slotOf(a) == slotOf(b) ==> a == b
  }

  ghost predicate CacheAssigned(cache: Cache, keys: set<string>, slotOf: string -> Slot) {
    forall name :: name in cache ==> Assigned(cache[name], keys, slotOf)
  }

  ghost predicate InputAssigned(i: Input, keys: set<string>, slotOf: string -> Slot) {
    forall s :: 0 <= s < |i.snaps| && i.snaps[s].Records? ==> Assigned(i.snaps[s].records, keys, slotOf)
  }

  ghost predicate StoreAssigned(store: map<string, Record>, keys: set<string>, slotOf: string -> Slot) {
    KeyedByRecord(store) && forall k :: k in store ==> k in keys && SlotOf(store[k]) == slotOf(k)
  }

  /** A synced record's slot holds what the record applies. */
  predicate SyncedTrue(r: Record, slots: Slots, shows: Shows) {
    r.status == Synced ==> SlotAt(slots, SlotOf(r)) == Some(shows(r.upstream, AppliedOf(r)))
  }

  ghost predicate SyncedSound(store: map<string, Record>, slots: Slots, shows: Shows) {
    forall k :: k in store ==> SyncedTrue(store[k], slots, shows)
  }

  ghost predicate NoneCanceled(i: Input) {
    forall k :: k in i.calls ==> !i.oracle(k).Canceled?
  }

  lemma {:induction false} CacheStaysAssigned(sources: seq<string>, snaps: seq<Snapshot>, cache: Cache,
                                              keys: set<string>, slotOf: string -> Slot)
    requires |sources| == |snaps| && CacheAssigned(cache, keys, slotOf)
    requires forall s :: 0 <= s < |snaps| && snaps[s].Records? ==> Assigned(snaps[s].records, keys, slotOf)
    ensures CacheAssigned(CacheAfter(sources, snaps, cache), keys, slotOf)
    ensures Assigned(DesiredOf(sources, snaps, cache), keys, slotOf)
  {
    if sources != [] {
      var last := |sources| - 1;
      CacheStaysAssigned(sources[..last], snaps[..last], cache, keys, slotOf);
    }
  }

  /** Every op's record is on its key's slot. */
  lemma OpsAssigned(c: Config, w: World, i: Input, keys: set<string>, slotOf: string -> Slot)
    requires Collectable(c, w, i) && CacheAssigned(w.cache, keys, slotOf) && InputAssigned(i, keys, slotOf)
    requires StoreAssigned(w.store, keys, slotOf)
    ensures forall k :: k in PassOps(c, w, i) ==> k in keys && SlotOfKey(PassOps(c, w, i), k) == slotOf(k)
  {
    CacheStaysAssigned(c.sources, i.snaps, w.cache, keys, slotOf);
    forall k | k in PassOps(c, w, i) ensures k in keys && SlotOfKey(PassOps(c, w, i), k) == slotOf(k) {
      OpAt(c, w, i, k);
    }
  }

  lemma CellAssigned(e: Env, gates: Gates, op: Op, before: Option<Record>, slot: Slot)
    requires SlotOf(op.record) == slot && (before.Some? ==> SlotOf(before.value) == slot)
    ensures CellAfter(e, gates, op, before).Some? ==> SlotOf(CellAfter(e, gates, op, before).value) == slot
  {
  }

  /** The call for key k, if it was canceled, left what the synced record promises. */
  predicate HarmlessCancel(w: World, i: Input, shows: Shows, k: string) {
    i.oracle(k).Canceled? && k in w.store && w.store[k].status == Synced ==>
      i.oracle(k).left == Some(shows(w.store[k].upstream, AppliedOf(w.store[k])))
  }

  /** One key's promise after its own op: kept unless the call was canceled and left something else. */
  lemma CellSoundIff(e: Env, gates: Gates, op: Op, before: Option<Record>, slots: Slots, slots': Slots)
    requires before.Some? ==> SlotOf(before.value) == SlotOf(op.record) && SyncedTrue(before.value, slots, e.shows)
    requires SlotAt(slots', SlotOf(op.record)) ==
             if IsAttempted(e, gates, op) then LeftBy(op, e.oracle(KeyOf(op)), e.shows)
                 else SlotAt(slots, SlotOf(op.record))
    ensures var after := CellAfter(e, gates, op, before);
            (after.Some? ==> SyncedTrue(after.value, slots', e.shows)) <==>
            (IsAttempted(e, gates, op) && e.oracle(KeyOf(op)).Canceled? && before.Some? &&
             before.value.status == Synced ==>
               e.oracle(KeyOf(op)).left == Some(e.shows(before.value.upstream, AppliedOf(before.value))))
  {
  }

  /** The store keeps the fixed assignment of keys to slots, whatever the calls come to. */
  lemma PassKeepsAssigned(c: Config, w: World, i: Input, w': World, keys: set<string>, slotOf: string -> Slot)
    requires Step(c, w, i, w') && CacheAssigned(w.cache, keys, slotOf) && InputAssigned(i, keys, slotOf)
    requires StoreAssigned(w.store, keys, slotOf)
    ensures CacheAssigned(w'.cache, keys, slotOf) && StoreAssigned(w'.store, keys, slotOf)
  {
    PassKeepsKeys(c, w, i, w');
    StepCaches(c, w, i, w');
    CacheStaysAssigned(c.sources, i.snaps, w.cache, keys, slotOf);
    if i.end.Completed? {
      OpsAssigned(c, w, i, keys, slotOf);
      forall k | k in w'.store ensures k in keys && SlotOf(w'.store[k]) == slotOf(k) {
        PassAt(c, w, i, w', k);
        KeyStaysAssigned(c, w, i, w', keys, slotOf, k);
      }
    }
  }

  lemma KeyStaysAssigned(c: Config, w: World, i: Input, w': World, keys: set<string>, slotOf: string -> Slot, k: string)
    requires Collectable(c, w, i) && KeyStep(c, w, i, w', k) && StoreAssigned(w.store, keys, slotOf) && k in w'.store
    requires forall k :: k in PassOps(c, w, i) ==> k in keys && SlotOfKey(PassOps(c, w, i), k) == slotOf(k)
    ensures k in keys && SlotOf(w'.store[k]) == slotOf(k)
  {
    if k in PassOps(c, w, i) {
      CellAssigned(EnvOf(c, w, i), w.gates, PassOps(c, w, i)[k], Get(w.store, k), slotOf(k));
    }
  }

  /** After one pass from a sound world, every "synced" is true exactly when each canceled call about a synced record
      left just what that record promises. Calls that fail or panic may have left anything in their own slot. */
  lemma PassSyncedIff(c: Config, w: World, i: Input, w': World, keys: set<string>, slotOf: string -> Slot)
    requires Step(c, w, i, w') && OneSlotPerKey(keys, slotOf)
    requires CacheAssigned(w.cache, keys, slotOf) && InputAssigned(i, keys, slotOf)
        && StoreAssigned(w.store, keys, slotOf)
    requires SyncedSound(w.store, w.slots, c.shows)
    ensures SyncedSound(w'.store, w'.slots, c.shows) <==> forall k :: k in i.calls ==> HarmlessCancel(w, i, c.shows, k)
  {
    if i.end.Completed? {
      OpsAssigned(c, w, i, keys, slotOf);
      forall k ensures (k in w'.store ==> SyncedTrue(w'.store[k], w'.slots, c.shows))
                       <==> (k in i.calls ==> HarmlessCancel(w, i, c.shows, k)) {
        KeySyncedIff(c, w, i, w', keys, slotOf, k);
      }
    }
  }

  lemma KeySyncedIff(c: Config, w: World, i: Input, w': World, keys: set<string>, slotOf: string -> Slot, k: string)
    requires Step(c, w, i, w') && i.end.Completed?
    requires OneSlotPerKey(keys, slotOf) && StoreAssigned(w.store, keys, slotOf)
    requires forall k :: k in PassOps(c, w, i) ==> k in keys && SlotOfKey(PassOps(c, w, i), k) == slotOf(k)
    requires SyncedSound(w.store, w.slots, c.shows)
    ensures (k in w'.store ==> SyncedTrue(w'.store[k], w'.slots, c.shows))
            <==> (k in i.calls ==> HarmlessCancel(w, i, c.shows, k))
  {
    PassAt(c, w, i, w', k);
    if k in PassOps(c, w, i) {
      PassSlotAt(c, w, i, w', k);
      CellSoundIff(EnvOf(c, w, i), w.gates, PassOps(c, w, i)[k], Get(w.store, k), w.slots, w'.slots);
    } else if k in w.store {
      SlotUntouched(w.slots, i.calls, PassOps(c, w, i), i.oracle, c.shows, slotOf(k));
    }
  }

  /** In particular an uncanceled pass keeps every "synced" true. */
  lemma PassKeepsSyncedSound(c: Config, w: World, i: Input, w': World, keys: set<string>, slotOf: string -> Slot)
    requires Step(c, w, i, w') && OneSlotPerKey(keys, slotOf)
    requires CacheAssigned(w.cache, keys, slotOf) && InputAssigned(i, keys, slotOf)
        && StoreAssigned(w.store, keys, slotOf)
    requires SyncedSound(w.store, w.slots, c.shows) && NoneCanceled(i)
    ensures CacheAssigned(w'.cache, keys, slotOf) && StoreAssigned(w'.store, keys, slotOf)
    ensures SyncedSound(w'.store, w'.slots, c.shows)
  {
    PassKeepsAssigned(c, w, i, w', keys, slotOf);
    PassSyncedIff(c, w, i, w', keys, slotOf);
  }

  /** Synced soundness: in every world of every uncanceled run from an empty store, a record with status synced has
      exactly its applied fields on its upstream. */
  lemma {:induction false} SyncedSoundOverRuns(c: Config, ws: seq<World>, ins: seq<Input>, keys: set<string>,
                                               slotOf: string -> Slot, n: nat)
    requires IsRun(c, ws, ins) && n <= |ins| && ws[0].store == map[] && ws[0].cache == map[]
    requires OneSlotPerKey(keys, slotOf)
    requires forall m :: 0 <= m < n ==> InputAssigned(ins[m], keys, slotOf) && NoneCanceled(ins[m])
    ensures CacheAssigned(ws[n].cache, keys, slotOf) && StoreAssigned(ws[n].store, keys, slotOf)
    ensures SyncedSound(ws[n].store, ws[n].slots, c.shows)
  {
    if n > 0 {
      SyncedSoundOverRuns(c, ws, ins, keys, slotOf, n - 1);
      assert Step(c, ws[n - 1], ins[n - 1], ws[n]);
      PassKeepsSyncedSound(c, ws[n - 1], ins[n - 1], ws[n], keys, slotOf);
    }
  }

  /** Where it stops: a synced record, whose source asks for another TTL, and an update canceled in flight after it had
      cleared the slot. The pass leaves the store saying synced, which is no longer true. */
  lemma CanceledBreaksSynced(have: Record, want: Record) returns (c: Config, w: World, i: Input, w': World)
    requires have.status == Synced && want == have.(ttl := have.ttl + 1)
    ensures Step(c, w, i, w') && SyncedSound(w.store, w.slots, c.shows)
    ensures w'.store == w.store == map[RecordKey(have) := have] && !SyncedSound(w'.store, w'.slots, c.shows)
  {
    var u, k := have.upstream, RecordKey(have);
    var slots := map[SlotOf(have) := AppliedOf(have)];
    assert PlainOp(Some(want), Some(have)) == Some(Op(Update, want, NoDrift));
    c, w, i, w' := SmallPass(u, k, Some(want), Some(have), slots, Canceled(None));
    CanceledPass(c, w, i, w', k, have, want);
  }

  lemma CanceledPass(c: Config, w: World, i: Input, w': World, k: string, have: Record, want: Record)
    requires Step(c, w, i, w') && i.end.Completed? && i.calls == [k] && i.oracle(k) == Canceled(None)
    requires PassOps(c, w, i) == map[k := Op(Update, want, NoDrift)]
    requires w.store == map[k := have] && have.status == Synced && SlotOf(want) == SlotOf(have)
        && want.upstream in c.upstreams
    ensures w'.store == w.store && !SyncedSound(w'.store, w'.slots, c.shows)
  {
    forall j ensures Get(w'.store, j) == Get(w.store, j) {
      CanceledCell(c, w, i, w', k, j);
    }
    SameMap(w'.store, w.store);
    CanceledSlot(c, w, i, w', k, have);
    assert !SyncedTrue(w'.store[k], w'.slots, c.shows);
  }

  /** A canceled call writes nothing back. */
  lemma CanceledCell(c: Config, w: World, i: Input, w': World, k: string, j: string)
    requires Step(c, w, i, w') && i.end.Completed? && i.oracle(k).Canceled?
    requires j in PassOps(c, w, i) ==> j == k && PassOps(c, w, i)[j].record.upstream in c.upstreams
    ensures Get(w'.store, j) == Get(w.store, j)
  {
    PassAt(c, w, i, w', j);
    if j in PassOps(c, w, i) {
      CanceledIsSkipped(EnvOf(c, w, i), w.gates, PassOps(c, w, i)[j], Get(w.store, j));
    }
  }

  lemma CanceledIsSkipped(e: Env, gates: Gates, op: Op, before: Option<Record>)
    requires op.record.upstream in e.upstreams && e.oracle(KeyOf(op)).Canceled?
    ensures CellAfter(e, gates, op, before) == before
  {
  }

  lemma CanceledSlot(c: Config, w: World, i: Input, w': World, k: string, have: Record)
    requires Step(c, w, i, w') && i.end.Completed? && i.calls == [k] && i.oracle(k) == Canceled(None)
    requires k in PassOps(c, w, i) && SlotOfKey(PassOps(c, w, i), k) == SlotOf(have)
    ensures SlotAt(w'.slots, SlotOf(have)) == None
  {
    RunLast(w.slots, [], k, PassOps(c, w, i), i.oracle, c.shows);
    assert [] + [k] == [k];
  }
}
