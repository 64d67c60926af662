/** Passes whose sources are all clean: what gets planned, and the smallest such passes, over one key
    (internal/reconcile/reconcile.go, diff.go). */
module Plain {
  import opened Text
  import opened Model
  import opened Drift
  import opened Diff
  import opened Registry
  import opened Effects
  import opened Collect
  import opened Reconcile

  ghost predicate AllClean(i: Input) {
    forall s :: 0 <= s < |i.snaps| ==> i.snaps[s].Records?
  }

  lemma EveryKeyPlanned(c: Config, w: World, i: Input, k: string)
    requires Collectable(c, w, i) && AllClean(i)
    ensures k in PassOps(c, w, i) <==> k in Desired(c, w, i) || k in w.store
  {
  }

  ghost predicate NoVerification(c: Config) {
    forall u :: u in c.listers && u in c.interval ==> c.interval[u] <= 0
  }

  /** The op of a key when every source is clean and nothing is verified. */
  function PlainOp(want: Option<Record>, have: Option<Record>): Option<Op> {
    match want
    case None => if have.Some? then Some(Op(Delete, have.value, NoDrift)) else None
    case Some(r) =>
      if have.None? then Some(Op(Create, r, NoDrift))
      else if have.value.status != Failed && AppliedEqual(r, have.value) then Some(Op(Noop, r, NoDrift))
      else Some(Op(Update, r, NoDrift))
  }

  lemma PassOpIsPlain(c: Config, w: World, i: Input, k: string)
    requires Collectable(c, w, i) && NoVerification(c) && AllClean(i)
    ensures Get(PassOps(c, w, i), k) == PlainOp(Get(Desired(c, w, i), k), Get(w.store, k))
  {
  }

  ghost predicate KeyedAt(cell: Option<Record>, k: string) {
    cell.Some? ==> RecordKey(cell.value) == k
  }

  // ---- one key ----

  /** One source, one upstream that shows what it is given, no verification. */
  function SmallConfig(u: string): Config {
    Config(["source"], {u}, {}, map[], map[], (v, a) => a)
  }

  function SmallStore(have: Option<Record>): map<string, Record> {
    if have.Some? then map[RecordKey(have.value) := have.value] else map[]
  }

  function SmallWorld(have: Option<Record>, slots: Slots): World {
    World(map[], SmallStore(have), map[], map[], slots, 0)
  }

  /** The source asks for `want` alone, or for nothing; the call, if any, comes to `outcome`. */
  function SmallInput(want: Option<Record>, have: Option<Record>, outcome: Outcome): Input {
    Input([Records(if want.Some? then [want.value] else [])], Completed, 0, u => None, [], 0, k => outcome,
          CallsFor(PlainOp(want, have)))
  }

  function CallsFor(op: Option<Op>): seq<string> {
    if op.None? || op.value.kind == Noop then [] else [KeyOf(op.value)]
  }

  lemma OneSource(name: string, r: Record, cache: Cache)
    ensures ByKey(DesiredOf([name], [Records([r])], cache)) == map[RecordKey(r) := r]
  {
    var sources, snaps := [name], [Records([r])];
    assert sources[..0] == [] && snaps[..0] == [] && [r][..0] == [];
    assert DesiredOf(sources, snaps, cache) == [] + [r] == [r];
  }

  lemma SmallDesired(u: string, want: Option<Record>, have: Option<Record>, slots: Slots, outcome: Outcome)
    ensures Desired(SmallConfig(u), SmallWorld(have, slots), SmallInput(want, have, outcome)) == SmallStore(want)
  {
    if want.Some? {
      OneSource("source", want.value, map[]);
    } else {
      var sources, snaps: seq<Snapshot> := ["source"], [Records([])];
      assert sources[..0] == [] && snaps[..0] == [];
      assert DesiredOf(sources, snaps, map[]) == [] + [];
    }
  }

  predicate OnUpstream(r: Option<Record>, u: string) {
    r.Some? ==> r.value.upstream == u
  }

  function SmallPlan(k: string, want: Option<Record>, have: Option<Record>): map<string, Op> {
    if PlainOp(want, have).Some? then map[k := PlainOp(want, have).value] else map[]
  }

  lemma SmallOps(u: string, k: string, want: Option<Record>, have: Option<Record>, slots: Slots, outcome: Outcome)
    requires KeyedAt(want, k) && KeyedAt(have, k)
    ensures var c, w, i := SmallConfig(u), SmallWorld(have, slots), SmallInput(want, have, outcome);
            && Collectable(c, w, i) && NoVerification(c) && AllClean(i) && Fetched(c, w, i) == {}
            && Desired(c, w, i) == SmallStore(want) && PassOps(c, w, i) == SmallPlan(k, want, have)
  {
    var c, w, i := SmallConfig(u), SmallWorld(have, slots), SmallInput(want, have, outcome);
    SmallDesired(u, want, have, slots, outcome);
    assert Collectable(c, w, i);
    OneKeyPlan(c, w, i, k, want, have);
  }

  lemma OneKeyPlan(c: Config, w: World, i: Input, k: string, want: Option<Record>, have: Option<Record>)
    requires KeyedAt(want, k) && KeyedAt(have, k) && Collectable(c, w, i) && NoVerification(c) && AllClean(i)
    requires Desired(c, w, i) == SmallStore(want) && w.store == SmallStore(have)
    ensures PassOps(c, w, i) == SmallPlan(k, want, have)
  {
    forall j ensures Get(PassOps(c, w, i), j) == Get(SmallPlan(k, want, have), j) {
      PassOpIsPlain(c, w, i, j);
    }
    SameMap(PassOps(c, w, i), SmallPlan(k, want, have));
  }

  lemma SmallAttempts(u: string, k: string, want: Option<Record>, have: Option<Record>, slots: Slots, outcome: Outcome)
    requires KeyedAt(want, k) && KeyedAt(have, k) && OnUpstream(want, u) && OnUpstream(have, u)
    ensures var c, w, i := SmallConfig(u), SmallWorld(have, slots), SmallInput(want, have, outcome);
            Collectable(c, w, i) && Enumerates(i.calls, PassAttempts(c, w, i))
  {
    var c, w, i := SmallConfig(u), SmallWorld(have, slots), SmallInput(want, have, outcome);
    SmallOps(u, k, want, have, slots, outcome);
  }

  /** What is known of such a pass. */
  ghost predicate IsSmallPass(c: Config, w: World, i: Input, w': World, u: string, k: string, want: Option<Record>,
                              have: Option<Record>, slots: Slots, outcome: Outcome)
  {
    && Step(c, w, i, w') && i.end.Completed? && AllClean(i) && NoVerification(c) && Fetched(c, w, i) == {}
    && c.upstreams == {u} && c.compare == map[] && (forall v, a :: c.shows(v, a) == a)
    && w.store == SmallStore(have) && w.slots == slots && w.gates == map[] && w.cache == map[]
    && (forall j :: i.oracle(j) == outcome) && i.calls == CallsFor(PlainOp(want, have))
    && Desired(c, w, i) == SmallStore(want) && PassOps(c, w, i) == SmallPlan(k, want, have)
  }

  /** With want and have under one key and on upstream u, it is a step. */
  lemma SmallPass(u: string, k: string, want: Option<Record>, have: Option<Record>, slots: Slots, outcome: Outcome)
    returns (c: Config, w: World, i: Input, w': World)
    requires KeyedAt(want, k) && KeyedAt(have, k) && OnUpstream(want, u) && OnUpstream(have, u)
    ensures IsSmallPass(c, w, i, w', u, k, want, have, slots, outcome)
    ensures c == SmallConfig(u) && w == SmallWorld(have, slots) && i == SmallInput(want, have, outcome)
  {
    c, w, i := SmallConfig(u), SmallWorld(have, slots), SmallInput(want, have, outcome);
    SmallOps(u, k, want, have, slots, outcome);
    w' := SmallStep(u, k, want, have, slots, outcome);
  }

  lemma SmallStep(u: string, k: string, want: Option<Record>, have: Option<Record>, slots: Slots, outcome: Outcome)
    returns (w': World)
    requires KeyedAt(want, k) && KeyedAt(have, k) && OnUpstream(want, u) && OnUpstream(have, u)
    ensures Step(SmallConfig(u), SmallWorld(have, slots), SmallInput(want, have, outcome), w')
  {
    SmallOps(u, k, want, have, slots, outcome);
    SmallAttempts(u, k, want, have, slots, outcome);
    w' := Pass(SmallConfig(u), SmallWorld(have, slots), SmallInput(want, have, outcome));
  }
}
