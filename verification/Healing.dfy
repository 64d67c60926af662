/** Convergence: what one clean pass achieves, with and without upstream verification
    (internal/reconcile/reconcile.go, diff.go, executor.go). */
module Healing {
  import opened Text
  import opened Arith
  import opened Model
  import opened Drift
  import opened Diff
  import opened Registry
  import opened Effects
  import opened Calls
  import opened Collect
  import opened Reconcile
  import opened Plain
  import opened Spacing

  // ---- what a listing says about the slots ----

  ghost predicate WellSlotted(slots: Slots) {
    forall s :: s in slots ==> slots[s].rtype == s.rtype && slots[s].name == s.name
  }

  /** `records` lists exactly what upstream u holds. */
  ghost predicate Faithful(records: seq<Record>, slots: Slots, u: string) {
    && (forall r :: r in records ==>
          Slot(u, r.rtype, r.name) in slots && r == Listed(u, slots[Slot(u, r.rtype, r.name)]))
    && (forall s :: s in slots && s.upstream == u ==> Listed(u, slots[s]) in records)
  }

  /** Want's slot holds want's value and passes the upstream's own comparison. */
  predicate Accepted(cmp: Comparer, want: Record, slots: Slots) {
    && SlotOf(want) in slots && slots[SlotOf(want)].value == want.value
    && cmp(want, Listed(want.upstream, slots[SlotOf(want)]))
  }

  lemma FirstExactIsSlot(records: seq<Record>, slots: Slots, want: Record)
    requires WellSlotted(slots) && Faithful(records, slots, want.upstream)
    ensures FirstExact(records, want) ==
            if SlotOf(want) in slots && slots[SlotOf(want)].value == want.value
            then Some(Listed(want.upstream, slots[SlotOf(want)])) else None
  {
    ScanFirst(records, want);
    if SlotOf(want) in slots {
      assert Listed(want.upstream, slots[SlotOf(want)]) in records;
    }
  }

  /** On a faithful listing the scan finds no drift exactly when the slot is accepted. */
  lemma ScanIsAcceptance(v: Verification, slots: Slots, want: Record)
    requires want.upstream in v.fetched && want.upstream in v.actual
    requires WellSlotted(slots) && Faithful(v.actual[want.upstream], slots, want.upstream)
    ensures ScanCorrection(v, want) == NoDrift <==> Accepted(ComparerOf(v, want.upstream), want, slots)
  {
    FirstExactIsSlot(v.actual[want.upstream], slots, want);
  }

  function CompareBy(c: Config, u: string): Comparer {
    if u in c.compare then c.compare[u] else AppliedEqual
  }

  /** What the adapter owes a record: after accepting it, it lists back something its own comparison accepts. */
  predicate Representable(c: Config, want: Record) {
    var a := c.shows(want.upstream, AppliedOf(want));
    a.rtype == want.rtype && a.name == want.name && a.value == want.value
    && CompareBy(c, want.upstream)(want, Listed(want.upstream, a))
  }

  /** Every upstream listed in this pass is listed faithfully, and no key field has a slash. */
  ghost predicate FaithfulInput(c: Config, w: World, i: Input) {
    WellSlotted(w.slots) && FaithfulListing(c, w, i)
  }

  ghost predicate FaithfulListing(c: Config, w: World, i: Input) {
    && (forall u :: u in Fetched(c, w, i) ==> Faithful(i.listing(u).value, w.slots, u))
    && ListsPathFree(ActualOf(Fetched(c, w, i), i.listing))
  }

  ghost predicate PlainNames(desired: map<string, Record>) {
    forall k :: k in desired ==> PathFree(desired[k].upstream, desired[k].rtype, desired[k].name)
  }

  lemma CorrectionIsAcceptance(c: Config, w: World, i: Input, want: Record)
    requires Collectable(c, w, i) && Enumerates(i.listOrder, Fetched(c, w, i)) && FaithfulInput(c, w, i)
    requires PathFree(want.upstream, want.rtype, want.name)
    ensures var v := Verified(c, w, i);
            Correction(IndexOf(Flatten(v.actual, i.listOrder)), v, want) == NoDrift
            <==> want.upstream !in v.fetched || Accepted(CompareBy(c, want.upstream), want, w.slots)
  {
    var v := Verified(c, w, i);
    assert v.actual.Keys == v.fetched;
    IndexAgreesWithScan(v, i.listOrder, want);
    if want.upstream in v.fetched {
      ScanIsAcceptance(v, w.slots, want);
    }
  }

  /** The store already says `want` is in place. */
  predicate Settled(want: Record, store: map<string, Record>) {
    RecordKey(want) in store && store[RecordKey(want)].status != Failed && AppliedEqual(want, store[RecordKey(want)])
  }

  /** A desired key is left alone exactly when the store says so and verification, if any, agrees. */
  lemma NoopIff(c: Config, w: World, i: Input, k: string)
    requires Collectable(c, w, i) && Enumerates(i.listOrder, Fetched(c, w, i)) && FaithfulInput(c, w, i)
    requires k in Desired(c, w, i) && PlainNames(Desired(c, w, i))
    ensures k in PassOps(c, w, i)
    ensures var want := Desired(c, w, i)[k];
            PassOps(c, w, i)[k].kind == Noop <==>
            Settled(want, w.store) &&
            (want.upstream in Fetched(c, w, i) ==> Accepted(CompareBy(c, want.upstream), want, w.slots))
  {
    var v, want := Verified(c, w, i), Desired(c, w, i)[k];
    PlanAt(Desired(c, w, i), w.store, Snapshotted(c, w, i), IndexOf(Flatten(v.actual, i.listOrder)), v, k);
    CorrectionIsAcceptance(c, w, i, want);
  }

  // ---- one clean pass ----

  ghost predicate NoneGated(c: Config, w: World, i: Input)
    requires Collectable(c, w, i)
  {
    forall k :: k in PassOps(c, w, i) ==> !Gated(w.gates, k, i.now)
  }

  ghost predicate AllConfigured(c: Config, ops: map<string, Op>) {
    forall k :: k in ops ==> ops[k].record.upstream in c.upstreams
  }

  /** All is well but for the gates: every source snapshots, every involved upstream is configured, every call succeeds,
      and no two keys of the plan share a slot. */
  ghost predicate CleanButGates(c: Config, w: World, i: Input, w': World) {
    && Step(c, w, i, w') && i.end.Completed? && AllClean(i)
    && AllConfigured(c, PassOps(c, w, i)) && (forall k :: i.oracle(k).Succeeds?)
    && OwnSlots(PassOps(c, w, i).Keys, PassOps(c, w, i))
    && FaithfulInput(c, w, i) && PlainNames(Desired(c, w, i))
    && (forall k :: k in Desired(c, w, i) ==> Representable(c, Desired(c, w, i)[k]))
  }

  /** Every desired record's upstream is listed in this pass. */
  ghost predicate AllVerified(c: Config, w: World, i: Input)
    requires |i.snaps| == |c.sources|
  {
    forall k :: k in Desired(c, w, i) ==> Desired(c, w, i)[k].upstream in Fetched(c, w, i)
  }

  /** A clean pass: besides, nothing is gated. */
  ghost predicate CleanPass(c: Config, w: World, i: Input, w': World) {
    CleanButGates(c, w, i, w') && NoneGated(c, w, i)
  }

  /** What an unhindered, configured op does to its cell. */
  lemma CleanCell(e: Env, gates: Gates, op: Op, before: Option<Record>)
    requires op.record.upstream in e.upstreams && !Gated(gates, KeyOf(op), e.now) && e.oracle(KeyOf(op)).Succeeds?
    ensures IsAttempted(e, gates, op) <==> op.kind != Noop
    ensures var after := CellAfter(e, gates, op, before);
            && (op.kind == Noop ==> after == before)
            && (op.kind == Delete ==> after.None?)
            && (op.kind != Noop && op.kind != Delete ==>
                  after.Some? && after.value.status == Synced && AppliedEqual(op.record, after.value))
  {
  }

  /** What the pass does to one key's cell and slot. */
  lemma CleanKey(c: Config, w: World, i: Input, w': World, k: string)
    requires CleanPass(c, w, i, w') && k in PassOps(c, w, i)
    ensures var op := PassOps(c, w, i)[k];
            && KeyOf(op) == k
            && (op.kind == Noop ==>
                  Get(w'.store, k) == Get(w.store, k) &&
                  SlotAt(w'.slots, SlotOf(op.record)) == SlotAt(w.slots, SlotOf(op.record)))
            && (op.kind == Delete ==> k !in w'.store && SlotOf(op.record) !in w'.slots)
            && (op.kind != Noop && op.kind != Delete ==>
                  k in w'.store && w'.store[k].status == Synced && AppliedEqual(op.record, w'.store[k])
                  && SlotAt(w'.slots, SlotOf(op.record)) == Some(c.shows(op.record.upstream, AppliedOf(op.record))))
  {
    var op := PassOps(c, w, i)[k];
    PassAt(c, w, i, w', k);
    PassSlotAt(c, w, i, w', k);
    CleanCell(EnvOf(c, w, i), w.gates, op, Get(w.store, k));
  }

  /** Self-healing, key by key: a desired key ends settled in the store with its slot accepted if its upstream was
      listed or the op was not a noop; a recorded-only key ends out of the store with its slot empty. */
  lemma CleanPassHealsKey(c: Config, w: World, i: Input, w': World, k: string)
    requires CleanPass(c, w, i, w')
    ensures k in w'.store <==> k in Desired(c, w, i)
    ensures k in Desired(c, w, i) ==>
              var want := Desired(c, w, i)[k];
              Settled(want, w'.store) &&
              (want.upstream in Fetched(c, w, i) ==> Accepted(CompareBy(c, want.upstream), want, w'.slots))
    ensures k in w.store && k !in Desired(c, w, i) ==> SlotOf(w.store[k]) !in w'.slots
  {
    EveryKeyPlanned(c, w, i, k);
    OpAt(c, w, i, k);
    if k in PassOps(c, w, i) {
      CleanKey(c, w, i, w', k);
      if k in Desired(c, w, i) {
        NoopIff(c, w, i, k);
        var want := Desired(c, w, i)[k];
        assert SlotAt(w'.slots, SlotOf(want))
            == (if SlotOf(want) in w'.slots then Some(w'.slots[SlotOf(want)]) else None);
        assert Representable(c, want);
      }
    } else {
      StoreAfterAt(EnvOf(c, w, i), w.gates, w.store, PassOps(c, w, i), k);
    }
  }

  /** In place both for the store and on the upstream. */
  predicate Healed(c: Config, want: Record, w: World) {
    Settled(want, w.store) && Accepted(CompareBy(c, want.upstream), want, w.slots)
  }

  /** The store holds exactly the desired keys, each healed. */
  ghost predicate AllHealed(c: Config, desired: map<string, Record>, w: World) {
    forall k :: HealedKey(c, desired, w, k)
  }

  predicate HealedKey(c: Config, desired: map<string, Record>, w: World, k: string) {
    (k in w.store <==> k in desired) && (k in desired ==> Healed(c, desired[k], w))
  }

  /** Self-healing in one verified pass, from any store and any upstream contents: the store holds exactly the desired
      keys, every desired slot is accepted by its comparer, every recorded-only slot is empty, no other slot changed. */
  lemma SelfHealing(c: Config, w: World, i: Input, w': World)
    requires CleanPass(c, w, i, w') && AllVerified(c, w, i)
    ensures AllHealed(c, Desired(c, w, i), w')
    ensures forall k :: k in w.store && k !in Desired(c, w, i) ==> SlotOf(w.store[k]) !in w'.slots
    ensures forall s :: (forall k :: k in PassOps(c, w, i) ==> SlotOfKey(PassOps(c, w, i), k) != s) ==>
              SlotAt(w'.slots, s) == SlotAt(w.slots, s)
  {
    DesiredHealed(c, w, i, w');
    forall k | k in w.store && k !in Desired(c, w, i) ensures SlotOf(w.store[k]) !in w'.slots {
      CleanPassHealsKey(c, w, i, w', k);
    }
    OthersUntouched(c, w, i, w');
  }

  lemma DesiredHealed(c: Config, w: World, i: Input, w': World)
    requires CleanPass(c, w, i, w') && AllVerified(c, w, i)
    ensures AllHealed(c, Desired(c, w, i), w')
  {
    var desired := Desired(c, w, i);
    forall k ensures HealedKey(c, desired, w', k) {
      DesiredHealedAt(c, w, i, w', desired, k);
    }
  }

  lemma DesiredHealedAt(c: Config, w: World, i: Input, w': World, desired: map<string, Record>, k: string)
    requires CleanPass(c, w, i, w') && desired == Desired(c, w, i)
    requires k in desired ==> desired[k].upstream in Fetched(c, w, i)
    ensures HealedKey(c, desired, w', k)
  {
    CleanPassHealsKey(c, w, i, w', k);
  }

  lemma OthersUntouched(c: Config, w: World, i: Input, w': World)
    requires Step(c, w, i, w') && i.end.Completed?
    ensures forall s :: (forall k :: k in PassOps(c, w, i) ==> SlotOfKey(PassOps(c, w, i), k) != s) ==>
              SlotAt(w'.slots, s) == SlotAt(w.slots, s)
  {
    forall s | forall k :: k in PassOps(c, w, i) ==> SlotOfKey(PassOps(c, w, i), k) != s
      ensures SlotAt(w'.slots, s) == SlotAt(w.slots, s)
    {
      SlotUntouched(w.slots, i.calls, PassOps(c, w, i), i.oracle, c.shows, s);
    }
  }

  /** A stored record's slot, if it holds something and no other op of the pass is about it, is vacated by a clean pass
      exactly when the record's key is no longer desired. A record that keeps its key and changes its name keeps it. */
  lemma OldSlotVacatedIff(c: Config, w: World, i: Input, w': World, k: string)
    requires CleanPass(c, w, i, w') && k in w.store && SlotOf(w.store[k]) in w.slots
    requires forall j :: j in PassOps(c, w, i) && j != k ==> SlotOfKey(PassOps(c, w, i), j) != SlotOf(w.store[k])
    ensures SlotOf(w.store[k]) !in w'.slots <==> k !in Desired(c, w, i)
  {
    var s := SlotOf(w.store[k]);
    EveryKeyPlanned(c, w, i, k);
    OpAt(c, w, i, k);
    if k in Desired(c, w, i) {
      if SlotOf(Desired(c, w, i)[k]) == s {
        CleanKey(c, w, i, w', k);
      } else {
        SlotUntouched(w.slots, i.calls, PassOps(c, w, i), i.oracle, c.shows, s);
      }
      assert SlotAt(w'.slots, s).Some?;
    } else {
      CleanPassHealsKey(c, w, i, w', k);
    }
  }

  /** A rename: one source that asks for the stored record under another name, and every call succeeds. The store
      settles on the new name, the old one stays on the upstream, and nothing in the store is left to delete it by. */
  lemma RenameLeavesOldName(have: Record, want: Record) returns (c: Config, w: World, i: Input, w': World)
    requires want == have.(name := want.name) && want.name != have.name
    ensures Step(c, w, i, w') && i.end.Completed? && AllClean(i) && forall k :: i.oracle(k).Succeeds?
    ensures w.store == map[RecordKey(have) := have] && Desired(c, w, i) == map[RecordKey(have) := want]
    ensures SlotOf(have) in w.slots && SlotOf(have) in w'.slots
    ensures w'.store.Keys == {RecordKey(have)} && Settled(want, w'.store)
  {
    var u, k := have.upstream, RecordKey(have);
    var slots := map[SlotOf(have) := AppliedOf(have)];
    c, w, i, w' := SmallPass(u, k, Some(want), Some(have), slots, Succeeds(0));
    RenamedCell(c, w, i, w', k, have, want);
    SlotUntouched(w.slots, i.calls, PassOps(c, w, i), i.oracle, c.shows, SlotOf(have));
    assert SlotAt(w'.slots, SlotOf(have)) == SlotAt(w.slots, SlotOf(have));
  }

  lemma RenamedCell(c: Config, w: World, i: Input, w': World, k: string, have: Record, want: Record)
    requires Step(c, w, i, w') && i.end.Completed? && i.oracle(k).Succeeds? && w.gates == map[] && k == RecordKey(want)
    requires PassOps(c, w, i) == map[k := Op(Update, want, NoDrift)] && want.upstream in c.upstreams
    requires w.store == map[k := have]
    ensures w'.store.Keys == {k} && Settled(want, w'.store)
  {
    PassAt(c, w, i, w', k);
    CleanCell(EnvOf(c, w, i), w.gates, Op(Update, want, NoDrift), Some(have));
    forall j ensures j in w'.store <==> j == k {
      PassAt(c, w, i, w', j);
    }
  }

  /** Quiescence: after a world in which every desired key is settled and accepted and nothing else is recorded, the
      next pass over the same desired set, verified or not, is all noops and calls no upstream. */
  lemma HealedIsQuiet(c: Config, w: World, i: Input, w': World)
    requires Step(c, w, i, w') && i.end.Completed? && FaithfulInput(c, w, i) && PlainNames(Desired(c, w, i))
    requires AllHealed(c, Desired(c, w, i), w)
    ensures forall k :: k in PassOps(c, w, i) ==> k in Desired(c, w, i) && PassOps(c, w, i)[k].kind == Noop
    ensures i.calls == [] && w'.slots == w.slots && w'.store == w.store
  {
    forall k | k in PassOps(c, w, i) ensures k in Desired(c, w, i) && PassOps(c, w, i)[k].kind == Noop {
      OpAt(c, w, i, k);
      assert HealedKey(c, Desired(c, w, i), w, k);
      NoopIff(c, w, i, k);
    }
    if i.calls != [] { assert i.calls[0] in i.calls; }
    NoopsChangeNothing(c, w, i, w');
  }

  lemma NoopsChangeNothing(c: Config, w: World, i: Input, w': World)
    requires Step(c, w, i, w') && i.end.Completed?
        && forall k :: k in PassOps(c, w, i) ==> PassOps(c, w, i)[k].kind == Noop
    ensures w'.store == w.store
  {
    forall k ensures Get(w'.store, k) == Get(w.store, k) {
      PassAt(c, w, i, w', k);
    }
    SameMap(w'.store, w.store);
  }

  // ---- what a clean pass leaves is well slotted again ----

  predicate FitsSlot(content: Option<Applied>, s: Slot) {
    content.Some? ==> content.value.rtype == s.rtype && content.value.name == s.name
  }

  lemma {:induction false} CallsKeepWellSlotted(slots: Slots, calls: seq<string>, ops: map<string, Op>,
                                                oracle: string -> Outcome, shows: Shows)
    requires WellSlotted(slots) && forall k :: k in calls ==> k in ops
    requires forall k :: k in calls ==> FitsSlot(LeftBy(ops[k], oracle(k), shows), SlotOfKey(ops, k))
    ensures WellSlotted(RunCalls(slots, calls, ops, oracle, shows))
  {
    if calls != [] {
      CallsKeepWellSlotted(slots, calls[..|calls| - 1], ops, oracle, shows);
      assert calls[|calls| - 1] in calls;
    }
  }

  lemma CleanPassWellSlotted(c: Config, w: World, i: Input, w': World)
    requires CleanPass(c, w, i, w')
    ensures WellSlotted(w'.slots)
  {
    forall k | k in i.calls
        ensures FitsSlot(LeftBy(PassOps(c, w, i)[k], i.oracle(k), c.shows), SlotOfKey(PassOps(c, w, i), k)) {
      OpAt(c, w, i, k);
      if k in Desired(c, w, i) {
        assert Representable(c, Desired(c, w, i)[k]);
      }
    }
    CallsKeepWellSlotted(w.slots, i.calls, PassOps(c, w, i), i.oracle, c.shows);
  }

  /** One verified pass heals everything and the next one, over the same desired set, has nothing left to do. */
  lemma HealThenQuiet(c: Config, w: World, i: Input, w': World, i': Input, w'': World)
    requires CleanPass(c, w, i, w') && AllVerified(c, w, i)
    requires Step(c, w', i', w'') && i'.end.Completed? && FaithfulListing(c, w', i')
        && Desired(c, w', i') == Desired(c, w, i)
    ensures i'.calls == [] && w''.slots == w'.slots && w''.store == w'.store
    ensures forall k :: k in PassOps(c, w', i') ==> PassOps(c, w', i')[k].kind == Noop
  {
    CleanPassWellSlotted(c, w, i, w');
    SelfHealing(c, w, i, w');
    HealedIsQuiet(c, w', i', w'');
  }

  /** In any run, whatever failed or panicked before: a verified pass an hour after the last error of each key it plans,
      in which nothing else goes wrong, finds every gate open and heals everything. */
  lemma HourLaterHeals(c: Config, ws: seq<World>, ins: seq<Input>, n: nat)
    requires IsRun(c, ws, ins) && n < |ins|
    requires forall k :: k in PassOps(c, ws[n], ins[n]) ==> !Gated(ws[0].gates, k, ins[n].now)
    requires forall k, m :: k in PassOps(c, ws[n], ins[n]) && 0 <= m < n && ErrorIn(c, ws[m], ins[m], k) ==>
               ins[m].now + 3600 * SECOND <= ins[n].now
    requires CleanButGates(c, ws[n], ins[n], ws[n + 1]) && AllVerified(c, ws[n], ins[n])
    ensures AllHealed(c, Desired(c, ws[n], ins[n]), ws[n + 1])
  {
    forall k | k in PassOps(c, ws[n], ins[n]) ensures !Gated(ws[n].gates, k, ins[n].now) {
      GatesOpenWithinTheHour(c, ws, ins, n, k, ins[n].now);
    }
    SelfHealing(c, ws[n], ins[n], ws[n + 1]);
  }

  // ---- the hypotheses can be met ----

  /** One source asks for r alone; its upstream is listed and empty; nothing is stored yet. */
  ghost predicate FirstSetting(c: Config, w: World, i: Input, r: Record) {
    && c.sources == ["source"] && i.snaps == [Records([r])] && i.end.Completed? && i.calls == [RecordKey(r)]
    && c.upstreams == c.listers == {r.upstream} && c.interval == map[r.upstream := 1] && c.compare == map[]
    && (forall u, a :: c.shows(u, a) == a) && (forall k :: i.oracle(k).Succeeds?)
    && i.listing(r.upstream) == Some([]) && i.listOrder == [r.upstream]
    && w == World(map[], map[], map[], map[], map[], 0)
  }

  lemma FirstFetched(c: Config, w: World, i: Input, r: Record)
    requires FirstSetting(c, w, i, r)
    ensures Fetched(c, w, i) == {r.upstream} && Collectable(c, w, i)
  {
  }

  lemma FirstOps(c: Config, w: World, i: Input, r: Record)
    requires FirstSetting(c, w, i, r) && Collectable(c, w, i) && Desired(c, w, i) == map[RecordKey(r) := r]
    ensures PassOps(c, w, i).Keys == {RecordKey(r)} && PassAttempts(c, w, i) == {RecordKey(r)}
    ensures PassOps(c, w, i)[RecordKey(r)].record == r
  {
    forall key ensures key in PassOps(c, w, i) <==> key == RecordKey(r) { OpAt(c, w, i, key); }
    OpAt(c, w, i, RecordKey(r));
  }

  lemma FirstStep(c: Config, w: World, i: Input, r: Record, w': World)
    requires FirstSetting(c, w, i, r) && Collectable(c, w, i) && Fetched(c, w, i) == {r.upstream}
    requires PassOps(c, w, i).Keys == {RecordKey(r)} && PassAttempts(c, w, i) == {RecordKey(r)} && w' == Pass(c, w, i)
    ensures Step(c, w, i, w')
  {
  }

  lemma FirstIsFaithful(c: Config, w: World, i: Input, r: Record)
    requires FirstSetting(c, w, i, r) && Fetched(c, w, i) == {r.upstream}
    ensures FaithfulInput(c, w, i) && Representable(c, r)
  {
  }

  lemma FirstPassIsClean(c: Config, w: World, i: Input, r: Record) returns (w': World)
    requires FirstSetting(c, w, i, r) && PathFree(r.upstream, r.rtype, r.name)
    ensures CleanPass(c, w, i, w') && Desired(c, w, i) == map[RecordKey(r) := r] && Fetched(c, w, i) == {r.upstream}
  {
    OneSource("source", r, w.cache);
    FirstFetched(c, w, i, r);
    FirstOps(c, w, i, r);
    w' := Pass(c, w, i);
    FirstStep(c, w, i, r, w');
    FirstIsFaithful(c, w, i, r);
  }

  /** From nothing, any record without slashes in its names is in place after one pass. */
  lemma FirstPassHeals(r: Record, now: int) returns (c: Config, w: World, i: Input, w': World)
    requires PathFree(r.upstream, r.rtype, r.name)
    ensures CleanPass(c, w, i, w') && AllHealed(c, map[RecordKey(r) := r], w')
  {
    var u := r.upstream;
    c := Config(["source"], {u}, {u}, map[u := 1], map[], (v, a) => a);
    w := World(map[], map[], map[], map[], map[], 0);
    i := Input([Records([r])], Completed, now, v => Some([]), [u], now, key => Succeeds(now), [RecordKey(r)]);
    w' := FirstPassIsClean(c, w, i, r);
    SelfHealing(c, w, i, w');
  }

  // ---- without verification ----

  /** An unverified clean pass leaves a desired slot accepted exactly when it was accepted already or the store did
      not say the record was settled. In particular a settled record the upstream lost is never healed. */
  lemma UnverifiedHealsIff(c: Config, w: World, i: Input, w': World, k: string)
    requires CleanPass(c, w, i, w') && k in Desired(c, w, i) && Desired(c, w, i)[k].upstream !in Fetched(c, w, i)
    ensures var want := Desired(c, w, i)[k];
            Accepted(CompareBy(c, want.upstream), want, w'.slots) <==>
            !Settled(want, w.store) || Accepted(CompareBy(c, want.upstream), want, w.slots)
  {
    NoopIff(c, w, i, k);
    OpAt(c, w, i, k);
    CleanKey(c, w, i, w', k);
    var want := Desired(c, w, i)[k];
    assert Representable(c, want);
    assert SlotAt(w'.slots, SlotOf(want)) == (if SlotOf(want) in w'.slots then Some(w'.slots[SlotOf(want)]) else None);
    assert SlotAt(w.slots, SlotOf(want)) == (if SlotOf(want) in w.slots then Some(w.slots[SlotOf(want)]) else None);
  }

  /** How a settled record gets lost: its delete reported failure but took effect, and the store then says
      pending_delete, not failed. In the next pass its source brings it back, equal in all applied fields, and its
      upstream is not verified: the record counts as settled, nobody calls the upstream for it, and its slot stays
      empty. */
  lemma FailedDeleteForgotten(c: Config, w: World, i: Input, w1: World, i2: Input, w2: World, k: string,
                              message: string)
    requires Step(c, w, i, w1) && i.end.Completed? && k in i.calls && k !in Desired(c, w, i)
    requires i.oracle(k) == Fails(message, None) && OwnSlots(PassOps(c, w, i).Keys, PassOps(c, w, i))
    requires Step(c, w1, i2, w2) && i2.end.Completed? && k in w.store && k in Desired(c, w1, i2)
    requires AppliedEqual(Desired(c, w1, i2)[k], w.store[k]) && Desired(c, w1, i2)[k].upstream !in Fetched(c, w1, i2)
    requires forall j :: j in PassOps(c, w1, i2) && j != k ==> SlotOfKey(PassOps(c, w1, i2), j) != SlotOf(w.store[k])
    ensures k in w1.store && w1.store[k].status == PendingDelete && SlotOf(w.store[k]) !in w1.slots
    ensures k in PassOps(c, w1, i2) && PassOps(c, w1, i2)[k].kind == Noop && k !in i2.calls
    ensures Get(w2.store, k) == Get(w1.store, k) && SlotOf(w.store[k]) !in w2.slots
  {
    FailedDelete(c, w, i, w1, k, message);
    SettledIsNoop(c, w1, i2, w2, k);
    SlotUntouched(w1.slots, i2.calls, PassOps(c, w1, i2), i2.oracle, c.shows, SlotOf(w.store[k]));
    assert SlotAt(w2.slots, SlotOf(w.store[k])) == SlotAt(w1.slots, SlotOf(w.store[k]));
  }

  lemma FailedDelete(c: Config, w: World, i: Input, w1: World, k: string, message: string)
    requires Step(c, w, i, w1) && i.end.Completed? && k in i.calls && k !in Desired(c, w, i) && k in w.store
    requires i.oracle(k) == Fails(message, None) && OwnSlots(PassOps(c, w, i).Keys, PassOps(c, w, i))
    ensures k in w1.store && SlotOf(w.store[k]) !in w1.slots
    ensures w1.store[k] == w.store[k].(failures := w.store[k].failures + 1, status := PendingDelete,
                                       syncError := message)
  {
    OpAt(c, w, i, k);
    PassAt(c, w, i, w1, k);
    FailedDeleteStored(c, w, i, w1, k, message);
    FailedDeleteSlot(c, w, i, w1, k, w.store[k], message);
  }

  lemma FailedDeleteStored(c: Config, w: World, i: Input, w1: World, k: string, message: string)
    requires Collectable(c, w, i) && KeyStep(c, w, i, w1, k) && k in i.calls && k in w.store && k in PassOps(c, w, i)
    requires i.oracle(k) == Fails(message, None) && PassOps(c, w, i)[k] == Op(Delete, w.store[k], NoDrift)
    ensures k in w1.store
    ensures w1.store[k] == w.store[k].(failures := w.store[k].failures + 1, status := PendingDelete,
                                       syncError := message)
  {
    FailedDeleteCell(EnvOf(c, w, i), w.gates, w.store[k], message);
  }

  lemma FailedDeleteSlot(c: Config, w: World, i: Input, w1: World, k: string, have: Record, message: string)
    requires Step(c, w, i, w1) && i.end.Completed? && k in i.calls && i.oracle(k) == Fails(message, None)
    requires k in PassOps(c, w, i) && PassOps(c, w, i)[k].record == have
    requires OwnSlots(PassOps(c, w, i).Keys, PassOps(c, w, i))
    ensures SlotOf(have) !in w1.slots
  {
    PassAt(c, w, i, w1, k);
    PassSlotAt(c, w, i, w1, k);
    assert SlotAt(w1.slots, SlotOf(have)) == None;
  }

  lemma FailedDeleteCell(e: Env, gates: Gates, have: Record, message: string)
    requires var op := Op(Delete, have, NoDrift);
             IsAttempted(e, gates, op) && e.oracle(KeyOf(op)) == Fails(message, None)
    ensures CellAfter(e, gates, Op(Delete, have, NoDrift), Some(have)) ==
            Some(have.(failures := have.failures + 1, status := PendingDelete, syncError := message))
  {
  }

  /** An unverified settled record is left alone. */
  lemma SettledIsNoop(c: Config, w: World, i: Input, w': World, k: string)
    requires Step(c, w, i, w') && i.end.Completed? && k in Desired(c, w, i) && k in w.store
    requires Settled(Desired(c, w, i)[k], w.store) && Desired(c, w, i)[k].upstream !in Fetched(c, w, i)
    ensures k in PassOps(c, w, i) && PassOps(c, w, i)[k].kind == Noop && k !in i.calls
    ensures Get(w'.store, k) == Get(w.store, k)
  {
    var v := Verified(c, w, i);
    PlanAt(Desired(c, w, i), w.store, Snapshotted(c, w, i), IndexOf(Flatten(v.actual, i.listOrder)), v, k);
    PassAt(c, w, i, w', k);
  }

  /** It happens to any record: delete it, with a failure reported for a call that took effect, and ask for it again. */
  lemma FailedDeleteHappens(have: Record, want: Record, message: string)
    returns (c: Config, w: World, i: Input, w1: World, i2: Input, w2: World)
    requires RecordKey(want) == RecordKey(have) && want.upstream == have.upstream && AppliedEqual(want, have)
    ensures Step(c, w, i, w1) && Step(c, w1, i2, w2) && i.end.Completed? && i2.end.Completed?
    ensures w.store == map[RecordKey(have) := have] && Desired(c, w, i) == map[] && i.calls == [RecordKey(have)]
    ensures i.oracle(RecordKey(have)) == Fails(message, None)
    ensures Desired(c, w1, i2) == map[RecordKey(have) := want] && i2.calls == []
    ensures w2.store == w1.store && w2.store.Keys == {RecordKey(have)}
    ensures w2.store[RecordKey(have)].status == PendingDelete && SlotOf(want) !in w2.slots
  {
    var u, k := have.upstream, RecordKey(have);
    c, w, i, w1 := SmallPass(u, k, None, Some(have), map[SlotOf(have) := AppliedOf(have)], Fails(message, None));
    SmallFailedDelete(c, w, i, w1, k, have, message);
    i2, w2 := AskAgain(u, w1, k, want);
  }

  lemma SmallFailedDelete(c: Config, w: World, i: Input, w1: World, k: string, have: Record, message: string)
    requires Step(c, w, i, w1) && i.end.Completed? && i.calls == [k] && Desired(c, w, i) == map[]
    requires k == RecordKey(have) && w.store == map[k := have]
    requires PassOps(c, w, i) == map[k := Op(Delete, have, NoDrift)]
    requires i.oracle(k) == Fails(message, None)
    ensures SlotOf(have) !in w1.slots
    ensures w1.store == map[k := have.(failures := have.failures + 1, status := PendingDelete, syncError := message)]
  {
    FailedDelete(c, w, i, w1, k, message);
    forall j ensures Get(w1.store, j) == Get(map[k := w1.store[k]], j) {
      PassAt(c, w, i, w1, j);
    }
    SameMap(w1.store, map[k := w1.store[k]]);
  }

  /** A pass that asks for a record the store has settled. */
  lemma AskAgain(u: string, w: World, k: string, want: Record) returns (i: Input, w': World)
    requires k == RecordKey(want) && KeyedByRecord(w.store) && w.store.Keys == {k} && Settled(want, w.store)
    ensures Step(SmallConfig(u), w, i, w') && i.end.Completed? && i.calls == []
    ensures Desired(SmallConfig(u), w, i) == map[k := want] && w'.slots == w.slots && w'.store == w.store
  {
    i := SmallInput(Some(want), Some(w.store[k]), Succeeds(0));
    AskAgainOps(u, w, k, want, i);
    w' := Pass(SmallConfig(u), w, i);
    NoopsChangeNothing(SmallConfig(u), w, i, w');
  }

  lemma AskAgainOps(u: string, w: World, k: string, want: Record, i: Input)
    requires k == RecordKey(want) && KeyedByRecord(w.store) && w.store.Keys == {k} && Settled(want, w.store)
    requires i == SmallInput(Some(want), Some(w.store[k]), Succeeds(0))
    ensures ValidInput(SmallConfig(u), w, i) && Desired(SmallConfig(u), w, i) == map[k := want]
    ensures PassOps(SmallConfig(u), w, i) == map[k := Op(Noop, want, NoDrift)] && i.calls == []
  {
    OneSource("source", want, w.cache);
    assert w.store == SmallStore(Some(w.store[k]));
    OneKeyPlan(SmallConfig(u), w, i, k, Some(want), Some(w.store[k]));
    assert PassAttempts(SmallConfig(u), w, i) == {};
  }
}
