/** Crash and replay with the file store and no upstream verification
    (internal/reconcile/executor.go, diff.go, internal/registry/file.go). */
module Replay {
  import opened Text
  import opened Model
  import opened Drift
  import opened Diff
  import opened Registry
  import opened FileStores
  import opened Effects
  import opened Calls
  import opened Reconcile
  import opened Plain

  function ForgetTime(cell: Option<Record>): Option<Record> {
    if cell.Some? then Some(cell.value.(syncedAt := 0)) else None
  }

  // ---- what a pass decides about one key, from its desired and its stored record ----

  datatype Decision = Keeps(cell: Option<Record>) | Sets | Clears(slot: Slot)

  function Decide(upstreams: set<string>, want: Option<Record>, have: Option<Record>): Decision {
    match PlainOp(want, have)
    case None => Keeps(None)
    case Some(op) =>
      if op.kind == Noop then Keeps(ForgetTime(have))
      else if op.record.upstream !in upstreams then Keeps(if op.kind == Delete then None else ForgetTime(have))
      else if op.kind == Delete then Clears(SlotOf(op.record))
      else Sets
  }

  predicate Acts(d: Decision) {
    !d.Keeps?
  }

  predicate Fits(want: Option<Record>, d: Decision) {
    d.Sets? ==> want.Some?
  }

  function ActSlot(want: Option<Record>, d: Decision): Slot
    requires Acts(d) && Fits(want, d)
  {
    match d
    case Clears(s) => s
    case Sets => SlotOf(want.value)
  }

  /** What the slot holds once the call has succeeded. */
  function ActContent(shows: Shows, want: Option<Record>, d: Decision): Option<Applied>
    requires Acts(d) && Fits(want, d)
  {
    match d
    case Clears(_) => None
    case Sets => Some(shows(want.value.upstream, AppliedOf(want.value)))
  }

  /** What the store holds, but for the time of syncing. */
  function FinalCell(want: Option<Record>, d: Decision): Option<Record>
    requires Fits(want, d)
  {
    match d
    case Keeps(cell) => cell
    case Clears(_) => None
    case Sets => Some(want.value.(failures := 0, status := Synced, syncedAt := 0, syncError := ""))
  }

  lemma DecisionFits(upstreams: set<string>, want: Option<Record>, have: Option<Record>)
    ensures Fits(want, Decide(upstreams, want, have))
  {
  }

  function DecisionAt(c: Config, desired: map<string, Record>, store: map<string, Record>, k: string): (d: Decision)
    ensures Fits(Get(desired, k), d)
  {
    DecisionFits(c.upstreams, Get(desired, k), Get(store, k));
    Decide(c.upstreams, Get(desired, k), Get(store, k))
  }

  /** A pass in which all goes well: clean sources, no planned key gated, every call succeeds. */
  ghost predicate GoesWell(c: Config, w: World, i: Input) {
    && ValidInput(c, w, i) && i.end.Completed? && AllClean(i) && (forall k :: i.oracle(k).Succeeds?)
    && forall k :: k in PassOps(c, w, i) ==> !Gated(w.gates, k, i.now)
  }

  ghost predicate CleanReplay(c: Config, w: World, i: Input, w': World) {
    GoesWell(c, w, i) && Step(c, w, i, w')
  }

  function OptCell(e: Env, gates: Gates, op: Option<Op>, before: Option<Record>): Option<Record> {
    if op.Some? then CellAfter(e, gates, op.value, before) else before
  }

  lemma GoodCell(e: Env, gates: Gates, want: Option<Record>, have: Option<Record>, k: string)
    requires KeyedAt(want, k) && KeyedAt(have, k) && e.oracle(k).Succeeds? && !Gated(gates, k, e.now)
    ensures Fits(want, Decide(e.upstreams, want, have))
    ensures ForgetTime(OptCell(e, gates, PlainOp(want, have), have)) == FinalCell(want, Decide(e.upstreams, want, have))
  {
  }

  lemma PlannedKeys(c: Config, w: World, i: Input, k: string)
    requires Collectable(c, w, i)
    ensures KeyedAt(Get(Desired(c, w, i), k), k) && KeyedAt(Get(w.store, k), k)
  {
  }

  /** What such a pass does about one key. */
  lemma DecidedCell(c: Config, w: World, i: Input, w': World, k: string)
    requires NoVerification(c) && CleanReplay(c, w, i, w')
    ensures var want, d := Get(Desired(c, w, i), k), DecisionAt(c, Desired(c, w, i), w.store, k);
            ForgetTime(Get(w'.store, k)) == FinalCell(want, d)
  {
    PassOpIsPlain(c, w, i, k);
    PassAt(c, w, i, w', k);
    PlannedKeys(c, w, i, k);
    if k in PassOps(c, w, i) {
      GoodCell(EnvOf(c, w, i), w.gates, Get(Desired(c, w, i), k), Get(w.store, k), k);
    }
  }

  /** The call made for a key in such a pass is the one decided on. */
  lemma GoodCall(e: Env, gates: Gates, want: Option<Record>, have: Option<Record>, k: string)
    requires KeyedAt(want, k) && KeyedAt(have, k) && e.oracle(k).Succeeds? && !Gated(gates, k, e.now)
    ensures var op, d := PlainOp(want, have), Decide(e.upstreams, want, have);
            && Fits(want, d) && (op.Some? && IsAttempted(e, gates, op.value) <==> Acts(d))
            && (Acts(d) ==> SlotOf(op.value.record) == ActSlot(want, d)
                            && LeftBy(op.value, e.oracle(k), e.shows) == ActContent(e.shows, want, d))
  {
  }

  lemma DecidedCall(c: Config, w: World, i: Input, w': World, k: string)
    requires NoVerification(c) && CleanReplay(c, w, i, w')
    ensures var want, d := Get(Desired(c, w, i), k), DecisionAt(c, Desired(c, w, i), w.store, k);
            && (k in i.calls <==> Acts(d))
            && (Acts(d) ==> k in PassOps(c, w, i) && SlotOfKey(PassOps(c, w, i), k) == ActSlot(want, d)
                            && LeftBy(PassOps(c, w, i)[k], i.oracle(k), c.shows) == ActContent(c.shows, want, d))
  {
    PassOpIsPlain(c, w, i, k);
    PlannedKeys(c, w, i, k);
    if k in PassOps(c, w, i) {
      GoodCall(EnvOf(c, w, i), w.gates, Get(Desired(c, w, i), k), Get(w.store, k), k);
    }
  }

  /** No two keys decide to act on one slot. */
  ghost predicate SlotsApart(c: Config, desired: map<string, Record>, store: map<string, Record>) {
    forall a, b :: SameActSlot(c, desired, store, a, b) ==> a == b
  }

  predicate SameActSlot(c: Config, desired: map<string, Record>, store: map<string, Record>, a: string, b: string) {
    var p, q := DecisionAt(c, desired, store, a), DecisionAt(c, desired, store, b);
    Acts(p) && Acts(q) && ActSlot(Get(desired, a), p) == ActSlot(Get(desired, b), q)
  }

  lemma DecidedSlot(c: Config, w: World, i: Input, w': World, k: string)
    requires NoVerification(c) && CleanReplay(c, w, i, w') && SlotsApart(c, Desired(c, w, i), w.store)
    requires Acts(DecisionAt(c, Desired(c, w, i), w.store, k))
    ensures var want, d := Get(Desired(c, w, i), k), DecisionAt(c, Desired(c, w, i), w.store, k);
            SlotAt(w'.slots, ActSlot(want, d)) == ActContent(c.shows, want, d)
  {
    DecidedCall(c, w, i, w', k);
    forall j | j in i.calls && SlotOfKey(PassOps(c, w, i), j) == SlotOfKey(PassOps(c, w, i), k) ensures j == k {
      DecidedCall(c, w, i, w', j);
      assert SameActSlot(c, Desired(c, w, i), w.store, j, k);
    }
    SlotWritten(w.slots, i.calls, PassOps(c, w, i), i.oracle, c.shows, k);
  }

  /** Key k decides to act on slot s. */
  predicate ActsOn(c: Config, desired: map<string, Record>, store: map<string, Record>, k: string, s: Slot) {
    var d := DecisionAt(c, desired, store, k);
    Acts(d) && ActSlot(Get(desired, k), d) == s
  }

  lemma UndecidedSlot(c: Config, w: World, i: Input, w': World, s: Slot)
    requires NoVerification(c) && CleanReplay(c, w, i, w')
    requires forall k :: !ActsOn(c, Desired(c, w, i), w.store, k, s)
    ensures SlotAt(w'.slots, s) == SlotAt(w.slots, s)
  {
    forall j | j in i.calls ensures SlotOfKey(PassOps(c, w, i), j) != s {
      DecidedCall(c, w, i, w', j);
      assert !ActsOn(c, Desired(c, w, i), w.store, j, s);
    }
    SlotUntouched(w.slots, i.calls, PassOps(c, w, i), i.oracle, c.shows, s);
  }

  // ---- two passes that come to the same ----

  /** Equal stores but for the time of syncing, and equal upstreams. */
  ghost predicate SameOutcome(x: World, y: World) {
    (forall k :: ForgetTime(Get(x.store, k)) == ForgetTime(Get(y.store, k))) && x.slots == y.slots
  }

  /** Starting from w1 instead of w, key k comes to the same. */
  predicate Recovers(c: Config, desired: map<string, Record>, w: World, w1: World, k: string) {
    var want := Get(desired, k);
    var d, e := DecisionAt(c, desired, w.store, k), DecisionAt(c, desired, w1.store, k);
    && FinalCell(want, e) == FinalCell(want, d)
    && (Acts(e) ==>
          Acts(d) && ActSlot(want, e) == ActSlot(want, d) &&
          ActContent(c.shows, want, e) == ActContent(c.shows, want, d))
    && (Acts(d) && !Acts(e) ==> SlotAt(w1.slots, ActSlot(want, d)) == ActContent(c.shows, want, d))
  }

  ghost predicate AllRecover(c: Config, desired: map<string, Record>, w: World, w1: World) {
    && (forall k :: Recovers(c, desired, w, w1, k))
    && (forall s :: (forall k :: !ActsOn(c, desired, w.store, k, s)) ==> SlotAt(w1.slots, s) == SlotAt(w.slots, s))
  }

  lemma ReplayMeets(c: Config, w: World, i0: Input, w0: World, w1: World, i2: Input, w2: World)
    requires NoVerification(c) && CleanReplay(c, w, i0, w0) && CleanReplay(c, w1, i2, w2)
    requires Desired(c, w1, i2) == Desired(c, w, i0) && SlotsApart(c, Desired(c, w, i0), w.store)
    requires AllRecover(c, Desired(c, w, i0), w, w1)
    ensures SameOutcome(w0, w2)
  {
    var desired := Desired(c, w, i0);
    forall k ensures ForgetTime(Get(w0.store, k)) == ForgetTime(Get(w2.store, k)) {
      DecidedCell(c, w, i0, w0, k);
      DecidedCell(c, w1, i2, w2, k);
      assert Recovers(c, desired, w, w1, k);
    }
    ApartAgain(c, desired, w, w1);
    forall s ensures SlotAt(w0.slots, s) == SlotAt(w2.slots, s) {
      SlotMeets(c, w, i0, w0, w1, i2, w2, s);
    }
    SameSlots(w0.slots, w2.slots);
  }

  lemma ApartAgain(c: Config, desired: map<string, Record>, w: World, w1: World)
    requires SlotsApart(c, desired, w.store) && AllRecover(c, desired, w, w1)
    ensures SlotsApart(c, desired, w1.store)
  {
    forall a, b | SameActSlot(c, desired, w1.store, a, b) ensures a == b {
      assert Recovers(c, desired, w, w1, a) && Recovers(c, desired, w, w1, b);
      assert SameActSlot(c, desired, w.store, a, b);
    }
  }

  lemma SlotMeets(c: Config, w: World, i0: Input, w0: World, w1: World, i2: Input, w2: World, s: Slot)
    requires NoVerification(c) && CleanReplay(c, w, i0, w0) && CleanReplay(c, w1, i2, w2)
    requires Desired(c, w1, i2) == Desired(c, w, i0) && SlotsApart(c, Desired(c, w, i0), w.store)
    requires SlotsApart(c, Desired(c, w, i0), w1.store) && AllRecover(c, Desired(c, w, i0), w, w1)
    ensures SlotAt(w0.slots, s) == SlotAt(w2.slots, s)
  {
    var desired := Desired(c, w, i0);
    if k :| ActsOn(c, desired, w.store, k, s) {
      DecidedSlot(c, w, i0, w0, k);
      assert Recovers(c, desired, w, w1, k);
      if Acts(DecisionAt(c, desired, w1.store, k)) {
        DecidedSlot(c, w1, i2, w2, k);
      } else {
        OnlyActor(c, desired, w, w1, k, s);
        UndecidedSlot(c, w1, i2, w2, s);
      }
    } else {
      forall k ensures !ActsOn(c, desired, w1.store, k, s) {
        assert Recovers(c, desired, w, w1, k) && !ActsOn(c, desired, w.store, k, s);
      }
      UndecidedSlot(c, w, i0, w0, s);
      UndecidedSlot(c, w1, i2, w2, s);
    }
  }

  lemma OnlyActor(c: Config, desired: map<string, Record>, w: World, w1: World, k: string, s: Slot)
    requires SlotsApart(c, desired, w.store) && AllRecover(c, desired, w, w1) && ActsOn(c, desired, w.store, k, s)
    requires !Acts(DecisionAt(c, desired, w1.store, k))
    ensures forall j :: !ActsOn(c, desired, w1.store, j, s)
  {
    forall j ensures !ActsOn(c, desired, w1.store, j, s) {
      if ActsOn(c, desired, w1.store, j, s) {
        assert Recovers(c, desired, w, w1, j);
        assert SameActSlot(c, desired, w.store, j, k);
      }
    }
  }

  // ---- a crash ----

  /** A process that starts over: caches and gates are gone, the store is what loading the path gave. */
  function Reloaded(image: Image, slots: Slots): World {
    World(map[], image, map[], map[], slots, 0)
  }

  /** Calls the pass attempts. */
  ghost predicate Attempts(c: Config, w: World, i1: Input, made: seq<string>)
    requires Collectable(c, w, i1)
  {
    forall k :: k in made ==> k in PassOps(c, w, i1) && k in PassAttempts(c, w, i1)
  }

  /** The store the pass would have ended with. */
  function PassStore(c: Config, w: World, i: Input): Image
    requires Collectable(c, w, i)
  {
    StoreAfter(EnvOf(c, w, i), w.gates, w.store, PassOps(c, w, i))
  }

  /** Only complete images can survive a crash, as the file store keeps it. */
  ghost predicate Sound(d: Disk) {
    exists start, images :: Whole(d, start, images)
  }

  lemma SoundLoads(d: Disk, found: Option<Content>)
    requires Sound(d) && CrashLeaves(d, found)
    ensures Loaded(found).Some?
  {
    var start, images :| Whole(d, start, images);
    CrashLoads(d, start, images, found);
  }

  /** The process dies in pass i1, the calls `made` having taken effect. Either the flush had not begun, and the disk is
      as before; or every call had returned, and the disk is in some state of the one flush, of the store the pass ended
      with. `found` is what the path holds afterwards, and w1 is where the new process starts from it. */
  ghost predicate Crashed(c: Config, w: World, i1: Input, before: Disk, flush: seq<Disk>, made: seq<string>, at: Disk,
                          found: Option<Content>, w1: World) {
    && ValidInput(c, w, i1) && i1.end.Completed? && AllClean(i1)
    && Attempts(c, w, i1, made)
    && Kept(before, flush, [PassStore(c, w, i1)])
    && (at == before || (at in flush && forall k :: k in PassAttempts(c, w, i1) ==> k in made))
    && Sound(at) && CrashLeaves(at, found)
    && (Loaded(found).Some? ==>
          w1 == Reloaded(Loaded(found).value, RunCalls(w.slots, made, PassOps(c, w, i1), i1.oracle, c.shows)))
  }

  /** The diff decides alike from the image as from the memory. */
  ghost predicate DecidesAlike(c: Config, desired: map<string, Record>, store: map<string, Record>, image: Image) {
    forall k :: DecisionAt(c, desired, image, k) == DecisionAt(c, desired, store, k)
  }

  /** It does so from whatever a crash now would leave on disk. */
  ghost predicate DiskDecidesAlike(c: Config, desired: map<string, Record>, store: map<string, Record>, d: Disk) {
    forall found :: CrashLeaves(d, found) && Loaded(found).Some?
        ==> DecidesAlike(c, desired, store, Loaded(found).value)
  }

  /** A disk that holds the memory, as after a flush that succeeded, decides alike whatever is desired. */
  lemma SavedDecidesAlike(c: Config, desired: map<string, Record>, store: map<string, Record>, d: Disk)
    requires Holds(d, store)
    ensures DiskDecidesAlike(c, desired, store, d)
  {
  }

  lemma AlikeRecovers(c: Config, desired: map<string, Record>, w: World, w1: World, k: string)
    requires DecidesAlike(c, desired, w.store, w1.store)
    ensures Recovers(c, desired, w, w1, k)
  {
    assert DecisionAt(c, desired, w1.store, k) == DecisionAt(c, desired, w.store, k);
  }

  /** A key whose call was made, or not attempted, and whose outcome was written: replaying settles it as if nothing had
      happened, whatever the call came to. */
  lemma WrittenRecovers(e: Env, gates: Gates, want: Option<Record>, have: Option<Record>, k: string, slots: Slots)
    requires KeyedAt(want, k) && KeyedAt(have, k)
    requires var op := PlainOp(want, have);
             op.Some? && IsAttempted(e, gates, op.value) ==>
               SlotAt(slots, SlotOf(op.value.record)) == LeftBy(op.value, e.oracle(k), e.shows)
    ensures var d, m := Decide(e.upstreams, want, have), OptCell(e, gates, PlainOp(want, have), have);
            var a := Decide(e.upstreams, want, m);
            && Fits(want, d) && Fits(want, a) && FinalCell(want, a) == FinalCell(want, d)
            && (Acts(a) ==> Acts(d) && ActSlot(want, a) == ActSlot(want, d))
            && (Acts(d) && !Acts(a) ==> SlotAt(slots, ActSlot(want, d)) == ActContent(e.shows, want, d))
  {
  }

  lemma PassStoreAt(c: Config, w: World, i1: Input, k: string)
    requires ValidInput(c, w, i1) && AllClean(i1) && NoVerification(c)
    ensures Get(PassStore(c, w, i1), k)
         == OptCell(EnvOf(c, w, i1), w.gates, PlainOp(Get(Desired(c, w, i1), k), Get(w.store, k)), Get(w.store, k))
  {
    PassOpIsPlain(c, w, i1, k);
    StoreAfterAt(EnvOf(c, w, i1), w.gates, w.store, PassOps(c, w, i1), k);
  }

  /** An attempted op is one the diff decided to act on. */
  lemma AttemptedActs(c: Config, w: World, i1: Input, k: string)
    requires ValidInput(c, w, i1) && AllClean(i1) && NoVerification(c) && k in PassAttempts(c, w, i1)
    ensures ActsOn(c, Desired(c, w, i1), w.store, k, SlotOfKey(PassOps(c, w, i1), k))
    ensures Get(PassOps(c, w, i1), k) == PlainOp(Get(Desired(c, w, i1), k), Get(w.store, k))
  {
    PassOpIsPlain(c, w, i1, k);
  }

  /** Slots nobody decides to act on are as before the pass. */
  lemma CrashedElsewhere(c: Config, w: World, i1: Input, made: seq<string>, s: Slot)
    requires ValidInput(c, w, i1) && AllClean(i1) && NoVerification(c)
    requires Attempts(c, w, i1, made)
    requires forall k :: !ActsOn(c, Desired(c, w, i1), w.store, k, s)
    ensures SlotAt(RunCalls(w.slots, made, PassOps(c, w, i1), i1.oracle, c.shows), s) == SlotAt(w.slots, s)
  {
    forall k | k in made ensures SlotOfKey(PassOps(c, w, i1), k) != s {
      AttemptedActs(c, w, i1, k);
      assert !ActsOn(c, Desired(c, w, i1), w.store, k, s);
    }
    SlotUntouched(w.slots, made, PassOps(c, w, i1), i1.oracle, c.shows, s);
  }

  /** Once every call has been made, an attempted key's slot holds what its call left. */
  lemma CrashedSlot(c: Config, w: World, i1: Input, made: seq<string>, k: string)
    requires ValidInput(c, w, i1) && AllClean(i1) && NoVerification(c) && SlotsApart(c, Desired(c, w, i1), w.store)
    requires Attempts(c, w, i1, made)
    requires k in made
    ensures var ops := PassOps(c, w, i1);
            SlotAt(RunCalls(w.slots, made, ops, i1.oracle, c.shows), SlotOfKey(ops, k))
                == LeftBy(ops[k], i1.oracle(k), c.shows)
  {
    var ops := PassOps(c, w, i1);
    forall j | j in made && SlotOfKey(ops, j) == SlotOfKey(ops, k) ensures j == k {
      AttemptedActs(c, w, i1, j);
      AttemptedActs(c, w, i1, k);
      assert SameActSlot(c, Desired(c, w, i1), w.store, j, k);
    }
    SlotWritten(w.slots, made, ops, i1.oracle, c.shows, k);
  }

  lemma FlushedKeyRecovers(c: Config, w: World, i1: Input, made: seq<string>, w1: World, k: string)
    requires ValidInput(c, w, i1) && AllClean(i1) && NoVerification(c) && SlotsApart(c, Desired(c, w, i1), w.store)
    requires Attempts(c, w, i1, made) && forall j :: j in PassAttempts(c, w, i1) ==> j in made
    requires w1 == Reloaded(PassStore(c, w, i1), RunCalls(w.slots, made, PassOps(c, w, i1), i1.oracle, c.shows))
    ensures Recovers(c, Desired(c, w, i1), w, w1, k)
  {
    var want, have := Get(Desired(c, w, i1), k), Get(w.store, k);
    PassOpIsPlain(c, w, i1, k);
    PassStoreAt(c, w, i1, k);
    PlannedKeys(c, w, i1, k);
    if k in made {
      CrashedSlot(c, w, i1, made, k);
    }
    WrittenRecovers(EnvOf(c, w, i1), w.gates, want, have, k, w1.slots);
  }

  /** Every key recovers from every crash. */
  lemma CrashRecovers(c: Config, w: World, i1: Input, before: Disk, flush: seq<Disk>, made: seq<string>, at: Disk,
                      found: Option<Content>, w1: World)
    requires NoVerification(c) && Crashed(c, w, i1, before, flush, made, at, found, w1)
    requires SlotsApart(c, Desired(c, w, i1), w.store) && DiskDecidesAlike(c, Desired(c, w, i1), w.store, before)
    ensures AllRecover(c, Desired(c, w, i1), w, w1)
  {
    SoundLoads(at, found);
    forall s | forall k :: !ActsOn(c, Desired(c, w, i1), w.store, k, s)
        ensures SlotAt(w1.slots, s) == SlotAt(w.slots, s) {
      CrashedElsewhere(c, w, i1, made, s);
    }
    if CrashLeaves(before, found) {
      forall k ensures Recovers(c, Desired(c, w, i1), w, w1, k) {
        AlikeRecovers(c, Desired(c, w, i1), w, w1, k);
      }
    } else {
      CrashInFlush(before, flush, PassStore(c, w, i1), at, found);
      forall k ensures Recovers(c, Desired(c, w, i1), w, w1, k) {
        FlushedKeyRecovers(c, w, i1, made, w1, k);
      }
    }
  }

  /** Crash replay: whatever subset of the pass's calls took effect, whatever they came to, and wherever in the pass or
      in its flush the process died, what the disk then holds loads, and one clean pass from there over the same desired
      set comes to the same as a clean pass that never crashed, provided that the disk at the start of the pass decides
      as the memory does. It does whenever the last flush succeeded. */
  lemma CrashReplay(c: Config, w: World, i0: Input, w0: World, i1: Input, before: Disk, flush: seq<Disk>,
                    made: seq<string>, at: Disk, found: Option<Content>, w1: World, i2: Input, w2: World)
    requires NoVerification(c) && CleanReplay(c, w, i0, w0)
    requires Crashed(c, w, i1, before, flush, made, at, found, w1) && CleanReplay(c, w1, i2, w2)
    requires Desired(c, w, i1) == Desired(c, w, i0) && Desired(c, w1, i2) == Desired(c, w, i0)
    requires SlotsApart(c, Desired(c, w, i0), w.store)
    requires DiskDecidesAlike(c, Desired(c, w, i0), w.store, before)
    ensures Loaded(found).Some? && SameOutcome(w0, w2)
  {
    SoundLoads(at, found);
    CrashRecovers(c, w, i1, before, flush, made, at, found, w1);
    ReplayMeets(c, w, i0, w0, w1, i2, w2);
  }

  /** A file-backed pass is exposed to just these crashes while it flushes. */
  lemma FlushCrash(c: Config, w: World, i: Input, w': World, before: Disk, flush: seq<Disk>, at: Disk,
                   found: Option<Content>, start: Option<Image>, images: seq<Image>)
    requires Step(c, w, i, w') && i.end.Completed? && AllClean(i) && Kept(before, flush, [w'.store]) && at in flush
    requires Whole(at, start, images) && CrashLeaves(at, found)
    ensures Loaded(found).Some?
    ensures Crashed(c, w, i, before, flush, i.calls, at, found, Reloaded(Loaded(found).value, w'.slots))
  {
    assert Sound(at);
    SoundLoads(at, found);
    assert PassStore(c, w, i) == w'.store;
  }

  // ---- when the disk and the memory differ ----

  /** Whatever the upstreams hold: die before the first call, reload `image`, run one clean pass; it comes to
      the same. */
  ghost predicate AlwaysRecovers(c: Config, w: World, i0: Input, image: Image, i2: Input) {
    forall slots, w0, w2 ::
      CleanReplay(c, w.(slots := slots), i0, w0) && CleanReplay(c, Reloaded(image, slots), i2, w2) ==>
        SameOutcome(w0, w2)
  }

  /** Keys, and a slot for each. */
  datatype Layout = Layout(keys: set<string>, slotOf: string -> Slot)

  ghost predicate LaidOut(records: map<string, Record>, l: Layout) {
    forall k :: k in records ==> k in l.keys && SlotOf(records[k]) == l.slotOf(k)
  }

  /** Every key has one slot of its own, in the desired set, in memory and on disk. */
  ghost predicate OwnSlotEach(desired: map<string, Record>, store: map<string, Record>, image: Image, l: Layout) {
    && LaidOut(desired, l) && LaidOut(store, l) && LaidOut(image, l)
    && forall a, b :: a in l.keys && b in l.keys && l.slotOf(a) == l.slotOf(b) ==> a == b
  }

  lemma ActsOnOwnSlot(c: Config, desired: map<string, Record>, store: map<string, Record>, image: Image,
                      l: Layout, k: string)
    requires OwnSlotEach(desired, store, image, l)
    ensures forall s :: ActsOn(c, desired, store, k, s) ==> s == l.slotOf(k) && k in l.keys
    ensures forall s :: ActsOn(c, desired, image, k, s) ==> s == l.slotOf(k) && k in l.keys
  {
  }

  lemma OwnSlotsApart(c: Config, desired: map<string, Record>, store: map<string, Record>, image: Image,
                      l: Layout)
    requires OwnSlotEach(desired, store, image, l)
    ensures SlotsApart(c, desired, store)
  {
    forall a, b | SameActSlot(c, desired, store, a, b) ensures a == b {
      ActsOnOwnSlot(c, desired, store, image, l, a);
      ActsOnOwnSlot(c, desired, store, image, l, b);
      assert ActsOn(c, desired, store, a, l.slotOf(a)) && ActsOn(c, desired, store, b, l.slotOf(b));
    }
  }

  /** The passes do not depend on what the upstreams hold. */
  lemma AnySlots(c: Config, w: World, i: Input, slots: Slots) returns (w': World)
    requires GoesWell(c, w, i)
    ensures CleanReplay(c, w.(slots := slots), i, w') && Desired(c, w.(slots := slots), i) == Desired(c, w, i)
  {
    var x := w.(slots := slots);
    assert PassOps(c, x, i) == PassOps(c, w, i) && PassAttempts(c, x, i) == PassAttempts(c, w, i);
    w' := Pass(c, x, i);
  }

  /** Contents for slot s that differ from `content`, and nothing anywhere else. */
  function Against(s: Slot, content: Option<Applied>): (slots: Slots)
    ensures SlotAt(slots, s) != content
  {
    if content.Some? then map[] else map[s := Applied("", "", "", 0, 0, "")]
  }

  /** With slots of their own, memory and disk that decide differently about one key come to different ends for some
      contents of the upstreams. */
  lemma DifferentEnds(c: Config, w: World, i0: Input, image: Image, i2: Input, l: Layout, k: string)
    requires NoVerification(c) && GoesWell(c, w, i0) && GoesWell(c, Reloaded(image, map[]), i2)
    requires Desired(c, Reloaded(image, map[]), i2) == Desired(c, w, i0)
    requires OwnSlotEach(Desired(c, w, i0), w.store, image, l)
    requires DecisionAt(c, Desired(c, w, i0), image, k) != DecisionAt(c, Desired(c, w, i0), w.store, k)
    ensures !AlwaysRecovers(c, w, i0, image, i2)
  {
    var slots := ContentsAgainst(c, Desired(c, w, i0), w.store, image, l, k);
    var w0 := AnySlots(c, w, i0, slots);
    var w2 := AnySlots(c, Reloaded(image, map[]), i2, slots);
    assert Reloaded(image, map[]).(slots := slots) == Reloaded(image, slots);
    EndsDiffer(c, w.(slots := slots), i0, w0, Reloaded(image, slots), i2, w2, l, k);
  }

  /** The contents that tell the two decisions about key k apart. */
  lemma ContentsAgainst(c: Config, desired: map<string, Record>, store: map<string, Record>, image: Image,
                        l: Layout, k: string) returns (slots: Slots)
    requires OwnSlotEach(desired, store, image, l)
    requires DecisionAt(c, desired, image, k) != DecisionAt(c, desired, store, k)
    ensures var want, d, e := Get(desired, k), DecisionAt(c, desired, store, k), DecisionAt(c, desired, image, k);
            && (Acts(d) ==> SlotAt(slots, l.slotOf(k)) != ActContent(c.shows, want, d))
            && (Acts(e) ==> SlotAt(slots, l.slotOf(k)) != ActContent(c.shows, want, e))
  {
    var want, d, e := Get(desired, k), DecisionAt(c, desired, store, k), DecisionAt(c, desired, image, k);
    ActsOnOwnSlot(c, desired, store, image, l, k);
    assert Acts(d) ==> ActsOn(c, desired, store, k, ActSlot(want, d));
    assert Acts(e) ==> ActsOn(c, desired, image, k, ActSlot(want, e));
    slots := if Acts(d) then Against(l.slotOf(k), ActContent(c.shows, want, d))
             else if Acts(e) then Against(l.slotOf(k), ActContent(c.shows, want, e)) else map[];
  }

  /** Two clean passes over the same desired set, from stores with the same slots. */
  ghost predicate Twins(c: Config, w: World, i0: Input, w0: World, w1: World, i2: Input, w2: World, l: Layout) {
    && NoVerification(c) && CleanReplay(c, w, i0, w0) && CleanReplay(c, w1, i2, w2) && w1.slots == w.slots
    && Desired(c, w1, i2) == Desired(c, w, i0) && OwnSlotEach(Desired(c, w, i0), w.store, w1.store, l)
  }

  lemma TwinsSwap(c: Config, w: World, i0: Input, w0: World, w1: World, i2: Input, w2: World, l: Layout)
    requires Twins(c, w, i0, w0, w1, i2, w2, l)
    ensures Twins(c, w1, i2, w2, w, i0, w0, l)
  {
  }

  lemma EndsDiffer(c: Config, w: World, i0: Input, w0: World, w1: World, i2: Input, w2: World, l: Layout, k: string)
    requires Twins(c, w, i0, w0, w1, i2, w2, l)
    requires var want, d := Get(Desired(c, w, i0), k), DecisionAt(c, Desired(c, w, i0), w.store, k);
             var e := DecisionAt(c, Desired(c, w, i0), w1.store, k);
             && e != d && (Acts(d) ==> SlotAt(w.slots, l.slotOf(k)) != ActContent(c.shows, want, d))
             && (Acts(e) ==> SlotAt(w.slots, l.slotOf(k)) != ActContent(c.shows, want, e))
    ensures !SameOutcome(w0, w2)
  {
    var desired := Desired(c, w, i0);
    var d, e := DecisionAt(c, desired, w.store, k), DecisionAt(c, desired, w1.store, k);
    ActsOnOwnSlot(c, desired, w.store, w1.store, l, k);
    assert Acts(d) ==> ActsOn(c, desired, w.store, k, ActSlot(Get(desired, k), d));
    assert Acts(e) ==> ActsOn(c, desired, w1.store, k, ActSlot(Get(desired, k), e));
    if Acts(d) && !Acts(e) {
      OneActs(c, w, i0, w0, w1, i2, w2, l, k);
    } else if Acts(e) && !Acts(d) {
      TwinsSwap(c, w, i0, w0, w1, i2, w2, l);
      OneActs(c, w1, i2, w2, w, i0, w0, l, k);
    } else {
      DecidedCell(c, w, i0, w0, k);
      DecidedCell(c, w1, i2, w2, k);
    }
  }

  lemma OneActs(c: Config, w: World, i0: Input, w0: World, w1: World, i2: Input, w2: World, l: Layout, k: string)
    requires Twins(c, w, i0, w0, w1, i2, w2, l)
    requires var want, d := Get(Desired(c, w, i0), k), DecisionAt(c, Desired(c, w, i0), w.store, k);
             && Acts(d) && !Acts(DecisionAt(c, Desired(c, w, i0), w1.store, k))
             && SlotAt(w.slots, l.slotOf(k)) != ActContent(c.shows, want, d)
    ensures w0.slots != w2.slots
  {
    ActedSlot(c, w, i0, w0, w1.store, l, k);
    NobodyElse(c, Desired(c, w, i0), w.store, w1.store, l, k);
    UndecidedSlot(c, w1, i2, w2, l.slotOf(k));
  }

  /** The slot of a key that is acted on. */
  lemma ActedSlot(c: Config, w: World, i: Input, w': World, image: Image, l: Layout, k: string)
    requires NoVerification(c) && CleanReplay(c, w, i, w') && OwnSlotEach(Desired(c, w, i), w.store, image, l)
    requires Acts(DecisionAt(c, Desired(c, w, i), w.store, k))
    ensures k in l.keys
    ensures SlotAt(w'.slots, l.slotOf(k)) ==
            ActContent(c.shows, Get(Desired(c, w, i), k), DecisionAt(c, Desired(c, w, i), w.store, k))
  {
    var desired := Desired(c, w, i);
    OwnSlotsApart(c, desired, w.store, image, l);
    ActsOnOwnSlot(c, desired, w.store, image, l, k);
    assert ActsOn(c, desired, w.store, k, ActSlot(Get(desired, k), DecisionAt(c, desired, w.store, k)));
    DecidedSlot(c, w, i, w', k);
  }

  /** Where a key does not act on its own slot, nobody does. */
  lemma NobodyElse(c: Config, desired: map<string, Record>, store: map<string, Record>, image: Image,
                   l: Layout, k: string)
    requires OwnSlotEach(desired, store, image, l) && k in l.keys
    ensures !Acts(DecisionAt(c, desired, image, k)) ==> forall j :: !ActsOn(c, desired, image, j, l.slotOf(k))
  {
    forall j ensures ActsOn(c, desired, image, j, l.slotOf(k)) ==> j == k {
      ActsOnOwnSlot(c, desired, store, image, l, j);
    }
  }

  /** Exactly when replay is safe: an image left by a crash always recovers if and only if the diff decides from it, key
      by key, as it would have from the memory. */
  lemma RecoversIff(c: Config, w: World, i0: Input, image: Image, i2: Input, l: Layout)
    requires NoVerification(c) && GoesWell(c, w, i0) && GoesWell(c, Reloaded(image, map[]), i2)
    requires Desired(c, Reloaded(image, map[]), i2) == Desired(c, w, i0)
    requires OwnSlotEach(Desired(c, w, i0), w.store, image, l)
    ensures AlwaysRecovers(c, w, i0, image, i2) <==> DecidesAlike(c, Desired(c, w, i0), w.store, image)
  {
    var desired := Desired(c, w, i0);
    if DecidesAlike(c, desired, w.store, image) {
      forall slots, w0, w2 | CleanReplay(c, w.(slots := slots), i0, w0)
          && CleanReplay(c, Reloaded(image, slots), i2, w2)
        ensures SameOutcome(w0, w2)
      {
        AlikeMeets(c, w.(slots := slots), i0, w0, Reloaded(image, slots), i2, w2, l);
      }
    } else {
      var k :| DecisionAt(c, desired, image, k) != DecisionAt(c, desired, w.store, k);
      DifferentEnds(c, w, i0, image, i2, l, k);
    }
  }

  lemma AlikeMeets(c: Config, w: World, i0: Input, w0: World, w1: World, i2: Input, w2: World, l: Layout)
    requires Twins(c, w, i0, w0, w1, i2, w2, l) && DecidesAlike(c, Desired(c, w, i0), w.store, w1.store)
    ensures SameOutcome(w0, w2)
  {
    OwnSlotsApart(c, Desired(c, w, i0), w.store, w1.store, l);
    forall k ensures Recovers(c, Desired(c, w, i0), w, w1, k) {
      AlikeRecovers(c, Desired(c, w, i0), w, w1, k);
    }
    ReplayMeets(c, w, i0, w0, w1, i2, w2);
  }

  lemma SmallGoesWell(c: Config, w: World, i: Input, w': World, u: string, k: string, want: Option<Record>,
                      have: Option<Record>, slots: Slots)
    requires IsSmallPass(c, w, i, w', u, k, want, have, slots, Succeeds(0))
    ensures CleanReplay(c, w, i, w')
  {
  }

  lemma OneKeyApart(c: Config, desired: map<string, Record>, store: map<string, Record>, k: string)
    requires forall j :: j in desired || j in store ==> j == k
    ensures SlotsApart(c, desired, store)
  {
    forall a, b | SameActSlot(c, desired, store, a, b) ensures a == b {
      assert a in desired || a in store;
      assert b in desired || b in store;
    }
  }

  /** The hypotheses of crash replay can be met: a first pass, which asks for r, dies after its call and before its
      flush. */
  lemma CrashHappens(r: Record) returns (c: Config, w: World, i: Input, w0: World, before: Disk, w1: World, w2: World)
    ensures NoVerification(c) && CleanReplay(c, w, i, w0) && i.calls == [RecordKey(r)]
    ensures Crashed(c, w, i, before, [], i.calls, before, None, w1) && CleanReplay(c, w1, i, w2)
    ensures Desired(c, w1, i) == Desired(c, w, i) && SlotsApart(c, Desired(c, w, i), w.store) && Holds(before, w.store)
  {
    var k := RecordKey(r);
    c, w, i, w0 := SmallPass(r.upstream, k, Some(r), None, map[], Succeeds(0));
    var d, x, j, y := SmallPass(r.upstream, k, Some(r), None, w0.slots, Succeeds(0));
    SmallGoesWell(c, w, i, w0, r.upstream, k, Some(r), None, map[]);
    SmallGoesWell(d, x, j, y, r.upstream, k, Some(r), None, w0.slots);
    before, w1, w2 := Fresh(None), x, y;
    assert Whole(before, None, []);
    FreshHolds(None);
    OneKeyApart(c, Desired(c, w, i), w.store, k);
    assert w1 == Reloaded(map[], w0.slots);
  }

  /** Without that hypothesis replay can fail: the memory has a record whose flush was lost, the disk holds nothing, and
      the source no longer wants it. The pass would have deleted it from the upstream; after a crash before its call
      nobody knows of it, and it stays there for good. */
  lemma LostFlushLeaks(have: Record) returns (c: Config, w: World, i0: Input, w0: World, i2: Input, w2: World)
    ensures NoVerification(c) && w.store == map[RecordKey(have) := have] && CleanReplay(c, w, i0, w0)
    ensures CrashLeaves(Fresh(None), None) && CleanReplay(c, Reloaded(map[], w.slots), i2, w2)
    ensures Desired(c, Reloaded(map[], w.slots), i2) == Desired(c, w, i0) == map[]
    ensures SlotOf(have) !in w0.slots && SlotOf(have) in w2.slots && w2.store == map[]
  {
    var u, k := have.upstream, RecordKey(have);
    var slots := map[SlotOf(have) := AppliedOf(have)];
    c, w, i0, w0 := SmallPass(u, k, None, Some(have), slots, Succeeds(0));
    var d, x, y;
    d, x, i2, y := SmallPass(u, k, None, None, slots, Succeeds(0));
    w2 := y;
    SmallGoesWell(c, w, i0, w0, u, k, None, Some(have), slots);
    SmallGoesWell(d, x, i2, y, u, k, None, None, slots);
    DeletedSlot(c, w, i0, w0, k, have);
    NothingPlanned(d, x, i2, y);
    assert x == Reloaded(map[], w.slots);
  }

  lemma DeletedSlot(c: Config, w: World, i: Input, w': World, k: string, have: Record)
    requires Step(c, w, i, w') && i.end.Completed? && i.calls == [k]
        && PassOps(c, w, i) == map[k := Op(Delete, have, NoDrift)]
    requires i.oracle(k).Succeeds?
    ensures SlotOf(have) !in w'.slots
  {
    RunLast(w.slots, [], k, PassOps(c, w, i), i.oracle, c.shows);
    assert [] + [k] == [k];
    assert SlotAt(w'.slots, SlotOf(have)) == None;
  }

  lemma NothingPlanned(c: Config, w: World, i: Input, w': World)
    requires Step(c, w, i, w') && i.end.Completed? && PassOps(c, w, i) == map[] && i.calls == []
    ensures w'.slots == w.slots && w'.store == w.store
  {
    SameMap(w'.store, w.store);
  }
}
