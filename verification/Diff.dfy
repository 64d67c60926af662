/** The plan that moves recorded state toward desired state
    (internal/reconcile/diff.go, internal/reconcile/plan.go). */
module Diff {
  import opened Model
  import opened Drift
  import opened Sets

  datatype OpKind = Noop | Create | Update | Delete

  datatype Op = Op(kind: OpKind, record: Record, reason: Reason)

  type Plan = map<string, seq<Op>>

  function KeyOf(op: Op): string {
    RecordKey(op.record)
  }

  /** Later records of the same key win. */
  function ByKey(records: seq<Record>): (m: map<string, Record>)
    ensures KeyedByRecord(m)
    ensures forall k :: k in m ==> m[k] in records
    ensures forall r :: r in records ==> RecordKey(r) in m
  {
    if records == [] then map[]
    else
      var last := records[|records| - 1];
      ByKey(records[..|records| - 1])[RecordKey(last) := last]
  }

  /** The op of a desired record. It is left alone exactly if the store has it settled and verification finds no drift;
      it is created exactly if the store does not have it, or has it settled and verification finds it missing. The
      reason is that drift, if the store has it settled. */
  function DesiredOp(want: Record, recorded: map<string, Record>, idx: Index, v: Verification): (op: Op)
    ensures op.record == want && op.kind != Delete
    ensures op.kind == Noop <==> Checked(want, recorded) && Correction(idx, v, want) == NoDrift
    ensures op.kind == Create <==>
              RecordKey(want) !in recorded || (Checked(want, recorded) && Correction(idx, v, want) == Missing)
    ensures op.reason == if Checked(want, recorded) then Correction(idx, v, want) else NoDrift
  {
    var key := RecordKey(want);
    if key !in recorded then Op(Create, want, NoDrift)
    else if recorded[key].status == Failed then Op(Update, want, NoDrift)
    else if AppliedEqual(want, recorded[key]) then
      match Correction(idx, v, want)
        case NoDrift => Op(Noop, want, NoDrift)
        case Missing => Op(Create, want, Missing)
        case Changed => Op(Update, want, Changed)
    else Op(Update, want, NoDrift)
  }

  /** The one op of each key: desired keys, and recorded-only keys of snapshotted sources. */
  function PlanOps(desired: map<string, Record>, recorded: map<string, Record>, snapshotted: set<string>,
                   idx: Index, v: Verification): (ops: map<string, Op>)
    requires KeyedByRecord(desired) && KeyedByRecord(recorded)
    ensures KeyedByOp(ops)
  {
    map k | k in desired.Keys + recorded.Keys && (k in desired || recorded[k].sourceName in snapshotted) ::
      if k in desired then DesiredOp(desired[k], recorded, idx, v) else Op(Delete, recorded[k], NoDrift)
  }

  /** Which op a key gets. */
  lemma PlanAt(desired: map<string, Record>, recorded: map<string, Record>, snapshotted: set<string>,
               idx: Index, v: Verification, k: string)
    requires KeyedByRecord(desired) && KeyedByRecord(recorded)
    ensures var ops := PlanOps(desired, recorded, snapshotted, idx, v);
            && (k in ops <==> k in desired || (k in recorded && recorded[k].sourceName in snapshotted))
            && (k in desired ==> ops[k] == DesiredOp(desired[k], recorded, idx, v) && ops[k].record == desired[k])
            && (k in desired ==> ops[k].kind != Delete && KeyOf(ops[k]) == k)
            && (k in ops && k !in desired ==> ops[k] == Op(Delete, recorded[k], NoDrift) && KeyOf(ops[k]) == k)
  {
  }

  ghost predicate KeyedByOp(ops: map<string, Op>) {
    forall k :: k in ops ==> KeyOf(ops[k]) == k
  }

  ghost predicate GroupOf(group: seq<Op>, u: string, ops: map<string, Op>) {
    && group != []
    && (forall i :: 0 <= i < |group| ==>
          group[i].record.upstream == u && KeyOf(group[i]) in ops && ops[KeyOf(group[i])] == group[i])
    && (forall i, j :: 0 <= i < j < |group| ==> KeyOf(group[i]) != KeyOf(group[j]))
  }

  ghost predicate Planned(plan: Plan, op: Op) {
    op.record.upstream in plan && op in plan[op.record.upstream]
  }

  /** `plan` holds exactly `ops`, each once and in its own record's upstream group. */
  ghost predicate Groups(plan: Plan, ops: map<string, Op>) {
    && (forall u :: u in plan ==> GroupOf(plan[u], u, ops))
    && (forall k :: k in ops ==> Planned(plan, ops[k]))
  }

  function Add(plan: Plan, op: Op): Plan {
    var u := op.record.upstream;
    plan[u := (if u in plan then plan[u] else []) + [op]]
  }

  lemma AddKeepsGroups(plan: Plan, ops: map<string, Op>, op: Op)
    requires Groups(plan, ops) && KeyOf(op) !in ops
    ensures Groups(Add(plan, op), ops[KeyOf(op) := op])
  {
  }

  method IndexByKey(records: seq<Record>) returns (m: map<string, Record>)
    ensures m == ByKey(records)
  {
    m := map[];
    for i := 0 to |records|
      invariant m == ByKey(records[..i])
    {
      assert records[..i + 1][..i] == records[..i];
      m := m[RecordKey(records[i]) := records[i]];
    }
    assert records[..|records|] == records;
  }

  function Only(ops: map<string, Op>, keys: set<string>): map<string, Op> {
    map k | k in ops && k in keys :: ops[k]
  }

  /** One more op of the plan is placed. */
  lemma Placed(plan: Plan, all: map<string, Op>, keys: set<string>, key: string)
    requires KeyedByOp(all) && Groups(plan, Only(all, keys)) && key in all && key !in keys
    ensures Groups(Add(plan, all[key]), Only(all, keys + {key}))
  {
    AddKeepsGroups(plan, Only(all, keys), all[key]);
    assert Only(all, keys)[key := all[key]] == Only(all, keys + {key});
  }

  /** One more desired record has been looked at. */
  lemma DesiredPlaced(plan: Plan, desired: map<string, Record>, recorded: map<string, Record>, snapshotted: set<string>,
                      idx: Index, v: Verification, left: set<string>, key: string)
    requires KeyedByRecord(desired) && KeyedByRecord(recorded) && key in left && left <= desired.Keys
    requires Groups(plan, Only(PlanOps(desired, recorded, snapshotted, idx, v), desired.Keys - left))
    ensures Groups(Add(plan, DesiredOp(desired[key], recorded, idx, v)),
                   Only(PlanOps(desired, recorded, snapshotted, idx, v), desired.Keys - (left - {key})))
  {
    var all := PlanOps(desired, recorded, snapshotted, idx, v);
    TakeOne(desired.Keys, left, key);
    Placed(plan, all, desired.Keys - left, key);
  }

  /** One more recorded record has been looked at. */
  lemma DeletePlaced(plan: Plan, desired: map<string, Record>, recorded: map<string, Record>, snapshotted: set<string>,
                     idx: Index, v: Verification, left: set<string>, key: string)
    requires KeyedByRecord(desired) && KeyedByRecord(recorded)
    requires key in left && left <= recorded.Keys
    requires Groups(plan, Only(PlanOps(desired, recorded, snapshotted, idx, v), desired.Keys + (recorded.Keys - left)))
    ensures var next := if key !in desired && recorded[key].sourceName in snapshotted
                        then Add(plan, Op(Delete, recorded[key], NoDrift)) else plan;
            Groups(next, Only(PlanOps(desired, recorded, snapshotted, idx, v), desired.Keys
                + (recorded.Keys - (left - {key}))))
  {
    var all := PlanOps(desired, recorded, snapshotted, idx, v);
    var keys := desired.Keys + (recorded.Keys - left);
    TakeOneBeside(desired.Keys, recorded.Keys, left, key);
    if key !in desired && recorded[key].sourceName in snapshotted {
      Placed(plan, all, keys, key);
    } else {
      assert Only(all, keys + {key}) == Only(all, keys);
    }
  }

  /** diff: both loops run over Go maps, so in any order. */
  method ComputeDiff(desired: seq<Record>, recorded: seq<Record>, snapshotted: set<string>, v: Verification)
    returns (plan: Plan, order: seq<string>)
    ensures Enumerates(order, v.actual.Keys)
    ensures Groups(plan, PlanOps(ByKey(desired), ByKey(recorded), snapshotted, IndexOf(Flatten(v.actual, order)), v))
  {
    var desiredByKey := IndexByKey(desired);
    var recordedByKey := IndexByKey(recorded);
    var idx;
    idx, order := BuildActualIndex(v.actual);
    ghost var all := PlanOps(desiredByKey, recordedByKey, snapshotted, idx, v);
    plan := PlanDesired(desiredByKey, recordedByKey, snapshotted, idx, v);
    plan := PlanDeletes(plan, desiredByKey, recordedByKey, snapshotted, idx, v);
    assert Only(all, desiredByKey.Keys + recordedByKey.Keys) == all;
  }

  /** Creates, updates and noops, driven by desired state. */
  method PlanDesired(desired: map<string, Record>, recorded: map<string, Record>, ghost snapshotted: set<string>,
                     idx: Index, v: Verification) returns (plan: Plan)
    requires KeyedByRecord(desired) && KeyedByRecord(recorded)
    ensures Groups(plan, Only(PlanOps(desired, recorded, snapshotted, idx, v), desired.Keys))
  {
    ghost var all := PlanOps(desired, recorded, snapshotted, idx, v);
    plan := map[];
    var left := desired.Keys;
    while left != {}
      invariant left <= desired.Keys
      invariant Groups(plan, Only(all, desired.Keys - left))
      decreases left
    {
      var key :| key in left;
      DesiredPlaced(plan, desired, recorded, snapshotted, idx, v, left, key);
      plan, left := Add(plan, DesiredOp(desired[key], recorded, idx, v)), left - {key};
    }
  }

  /** Deletes, driven by recorded records absent from desired, of snapshotted sources. */
  method PlanDeletes(start: Plan, desired: map<string, Record>, recorded: map<string, Record>, snapshotted: set<string>,
                     ghost idx: Index, ghost v: Verification) returns (plan: Plan)
    requires KeyedByRecord(desired) && KeyedByRecord(recorded)
    requires Groups(start, Only(PlanOps(desired, recorded, snapshotted, idx, v), desired.Keys))
    ensures Groups(plan, Only(PlanOps(desired, recorded, snapshotted, idx, v), desired.Keys + recorded.Keys))
  {
    ghost var all := PlanOps(desired, recorded, snapshotted, idx, v);
    plan := start;
    var left := recorded.Keys;
    assert desired.Keys + (recorded.Keys - left) == desired.Keys;
    while left != {}
      invariant left <= recorded.Keys
      invariant Groups(plan, Only(all, desired.Keys + (recorded.Keys - left)))
      decreases left
    {
      var key :| key in left;
      DeletePlaced(plan, desired, recorded, snapshotted, idx, v, left, key);
      if key !in desired && recorded[key].sourceName in snapshotted {
        plan := Add(plan, Op(Delete, recorded[key], NoDrift));
      }
      left := left - {key};
    }
    assert recorded.Keys - left == recorded.Keys;
  }

  lemma {:induction false} CountOfDistinct(ops: seq<Op>, op: Op)
    requires forall i, j :: 0 <= i < j < |ops| ==> KeyOf(ops[i]) != KeyOf(ops[j])
    ensures multiset(ops)[op] == if op in ops then 1 else 0
  {
    if ops != [] {
      assert ops == [ops[0]] + ops[1..];
      CountOfDistinct(ops[1..], op);
      assert op in ops[1..] ==> exists i :: 0 < i < |ops| && ops[i] == op;
    }
  }

  // ---- iteration order ----

  /** The same upstreams, with the same ops up to order. */
  ghost predicate SamePlan(p: Plan, q: Plan) {
    p.Keys == q.Keys && forall u :: u in p ==> multiset(p[u]) == multiset(q[u])
  }

  /** Plans agree up to order exactly when they are plans of the same ops. */
  lemma SamePlanIff(p: Plan, q: Plan, a: map<string, Op>, b: map<string, Op>)
    requires Groups(p, a) && Groups(q, b) && KeyedByOp(a) && KeyedByOp(b)
    ensures SamePlan(p, q) <==> a == b
  {
    if a == b {
      SameOpsSamePlan(p, q, a);
    }
    if SamePlan(p, q) {
      forall k | k in a ensures k in b && a[k] == b[k] { PlannedInBoth(p, q, a, b, k); }
      forall k | k in b ensures k in a { PlannedInBoth(q, p, b, a, k); }
    }
  }

  lemma PlannedInBoth(p: Plan, q: Plan, a: map<string, Op>, b: map<string, Op>, k: string)
    requires Groups(p, a) && Groups(q, b) && KeyedByOp(a) && SamePlan(p, q) && k in a
    ensures k in b && a[k] == b[k]
  {
    var u := a[k].record.upstream;
    assert Planned(p, a[k]);
    assert a[k] in multiset(p[u]);
    assert a[k] in q[u];
    assert GroupOf(q[u], u, b);
  }

  lemma SameOpsSamePlan(p: Plan, q: Plan, ops: map<string, Op>)
    requires Groups(p, ops) && Groups(q, ops)
    ensures SamePlan(p, q)
  {
    forall u | u in p ensures u in q { assert p[u][0].record.upstream == u; }
    forall u | u in q ensures u in p { assert q[u][0].record.upstream == u; }
    forall u, op: Op | u in p ensures multiset(p[u])[op] == multiset(q[u])[op] {
      CountOfDistinct(p[u], op);
      CountOfDistinct(q[u], op);
    }
  }

  lemma {:induction false} APlan(ops: map<string, Op>, keys: set<string>) returns (plan: Plan)
    requires KeyedByOp(ops) && keys <= ops.Keys
    ensures Groups(plan, Only(ops, keys))
    decreases keys
  {
    if keys == {} {
      plan := map[];
    } else {
      var k :| k in keys;
      var rest := APlan(ops, keys - {k});
      Placed(rest, ops, keys - {k}, k);
      plan := Add(rest, ops[k]);
      assert keys - {k} + {k} == keys;
    }
  }

  /** The ops of a pass whose listing was indexed in the given order. */
  function OpsBy(desired: map<string, Record>, recorded: map<string, Record>, snapshotted: set<string>, v: Verification,
                 order: seq<string>): (ops: map<string, Op>)
    requires KeyedByRecord(desired) && KeyedByRecord(recorded) && forall u :: u in order ==> u in v.actual
    ensures KeyedByOp(ops)
  {
    PlanOps(desired, recorded, snapshotted, IndexOf(Flatten(v.actual, order)), v)
  }

  /** The diff checks this desired record for drift: the store has it, not failed and with the same applied fields. */
  predicate Checked(want: Record, recorded: map<string, Record>) {
    RecordKey(want) in recorded && recorded[RecordKey(want)].status != Failed
        && AppliedEqual(want, recorded[RecordKey(want)])
  }

  /** No checked record's joined key is listed by two upstreams that answer differently. */
  ghost predicate NoConflict(desired: map<string, Record>, recorded: map<string, Record>, v: Verification) {
    forall k :: k in desired && Checked(desired[k], recorded) && desired[k].upstream in v.fetched
        ==> OneAnswer(v, desired[k])
  }

  ghost predicate OpsOrderFree(desired: map<string, Record>, recorded: map<string, Record>, snapshotted: set<string>,
                               v: Verification)
    requires KeyedByRecord(desired) && KeyedByRecord(recorded)
  {
    forall p, q :: Enumerates(p, v.actual.Keys) && Enumerates(q, v.actual.Keys) ==>
      OpsBy(desired, recorded, snapshotted, v, p) == OpsBy(desired, recorded, snapshotted, v, q)
  }

  /** Any two plans of the pass, whatever the orders of indexing and of planning, agree up to order. */
  ghost predicate PlanOrderFree(desired: map<string, Record>, recorded: map<string, Record>, snapshotted: set<string>,
                                v: Verification)
    requires KeyedByRecord(desired) && KeyedByRecord(recorded)
  {
    forall o1, o2, p, q ::
      (Enumerates(o1, v.actual.Keys) && Enumerates(o2, v.actual.Keys) &&
       Groups(p, OpsBy(desired, recorded, snapshotted, v, o1))
           && Groups(q, OpsBy(desired, recorded, snapshotted, v, o2)))
      ==> SamePlan(p, q)
  }

  lemma OpsOrderFreeIff(desired: map<string, Record>, recorded: map<string, Record>, snapshotted: set<string>,
                        v: Verification)
    requires KeyedByRecord(desired) && KeyedByRecord(recorded)
    ensures OpsOrderFree(desired, recorded, snapshotted, v) <==> NoConflict(desired, recorded, v)
  {
    if NoConflict(desired, recorded, v) {
      forall p, q | Enumerates(p, v.actual.Keys) && Enumerates(q, v.actual.Keys)
        ensures OpsBy(desired, recorded, snapshotted, v, p) == OpsBy(desired, recorded, snapshotted, v, q)
      {
        OpsAgree(desired, recorded, snapshotted, v, p, q);
      }
    } else {
      var k :| k in desired && Checked(desired[k], recorded) && desired[k].upstream in v.fetched
          && !OneAnswer(v, desired[k]);
      VerdictOrderFreeIff(v, desired[k]);
      var p, q :| Enumerates(p, v.actual.Keys) && Enumerates(q, v.actual.Keys) &&
        VerdictBy(v, p, desired[k]) != VerdictBy(v, q, desired[k]);
      OpsDiffer(desired, recorded, snapshotted, v, p, q, k);
    }
  }

  lemma OpsAgree(desired: map<string, Record>, recorded: map<string, Record>, snapshotted: set<string>, v: Verification,
                 p: seq<string>, q: seq<string>)
    requires KeyedByRecord(desired) && KeyedByRecord(recorded) && NoConflict(desired, recorded, v)
    requires Enumerates(p, v.actual.Keys) && Enumerates(q, v.actual.Keys)
    ensures OpsBy(desired, recorded, snapshotted, v, p) == OpsBy(desired, recorded, snapshotted, v, q)
  {
    var a, b := OpsBy(desired, recorded, snapshotted, v, p), OpsBy(desired, recorded, snapshotted, v, q);
    forall k | k in a ensures a[k] == b[k] {
      if k in desired {
        VerdictsAgree(desired, recorded, v, p, q, k);
      }
    }
  }

  lemma VerdictsAgree(desired: map<string, Record>, recorded: map<string, Record>, v: Verification, p: seq<string>,
                      q: seq<string>, k: string)
    requires NoConflict(desired, recorded, v) && k in desired
    requires Enumerates(p, v.actual.Keys) && Enumerates(q, v.actual.Keys)
    ensures Checked(desired[k], recorded) ==> VerdictBy(v, p, desired[k]) == VerdictBy(v, q, desired[k])
  {
    VerdictOrderFreeIff(v, desired[k]);
  }

  lemma OpsDiffer(desired: map<string, Record>, recorded: map<string, Record>, snapshotted: set<string>,
                  v: Verification,
                  p: seq<string>, q: seq<string>, k: string)
    requires KeyedByRecord(desired) && KeyedByRecord(recorded) && k in desired && Checked(desired[k], recorded)
    requires Enumerates(p, v.actual.Keys) && Enumerates(q, v.actual.Keys)
    requires VerdictBy(v, p, desired[k]) != VerdictBy(v, q, desired[k])
    ensures OpsBy(desired, recorded, snapshotted, v, p) != OpsBy(desired, recorded, snapshotted, v, q)
  {
    PlanAt(desired, recorded, snapshotted, IndexOf(Flatten(v.actual, p)), v, k);
    PlanAt(desired, recorded, snapshotted, IndexOf(Flatten(v.actual, q)), v, k);
  }

  /** The plan is independent of every map iteration order, the indexing of the listings included, exactly when no
      checked record's joined key is listed by two upstreams that answer differently. */
  lemma PlanOrderFreeIff(desired: map<string, Record>, recorded: map<string, Record>, snapshotted: set<string>,
                         v: Verification)
    requires KeyedByRecord(desired) && KeyedByRecord(recorded)
    ensures PlanOrderFree(desired, recorded, snapshotted, v) <==> NoConflict(desired, recorded, v)
  {
    OpsOrderFreeIff(desired, recorded, snapshotted, v);
    if NoConflict(desired, recorded, v) {
      forall o1, o2, p, q | Enumerates(o1, v.actual.Keys) && Enumerates(o2, v.actual.Keys) &&
        Groups(p, OpsBy(desired, recorded, snapshotted, v, o1))
            && Groups(q, OpsBy(desired, recorded, snapshotted, v, o2))
        ensures SamePlan(p, q)
      {
        SameOpsSamePlan(p, q, OpsBy(desired, recorded, snapshotted, v, o1));
      }
    } else {
      var o1, o2 :| Enumerates(o1, v.actual.Keys) && Enumerates(o2, v.actual.Keys) &&
        OpsBy(desired, recorded, snapshotted, v, o1) != OpsBy(desired, recorded, snapshotted, v, o2);
      DifferentPlans(OpsBy(desired, recorded, snapshotted, v, o1), OpsBy(desired, recorded, snapshotted, v, o2));
    }
  }

  lemma DifferentPlans(a: map<string, Op>, b: map<string, Op>)
    requires KeyedByOp(a) && KeyedByOp(b) && a != b
    ensures exists p, q :: Groups(p, a) && Groups(q, b) && !SamePlan(p, q)
  {
    var p := APlan(a, a.Keys);
    var q := APlan(b, b.Keys);
    assert Only(a, a.Keys) == a && Only(b, b.Keys) == b;
    SamePlanIff(p, q, a, b);
  }

  /** In particular it is independent of every order when no upstream name, type or record name has a slash. */
  lemma PlanIndependentOfOrder(desired: map<string, Record>, recorded: map<string, Record>, snapshotted: set<string>,
                               v: Verification)
    requires KeyedByRecord(desired) && KeyedByRecord(recorded) && ListsPathFree(v.actual)
    requires forall k :: k in desired ==> PathFree(desired[k].upstream, desired[k].rtype, desired[k].name)
    ensures PlanOrderFree(desired, recorded, snapshotted, v)
  {
    forall k | k in desired ensures OneAnswer(v, desired[k]) {
      PathFreeOneAnswer(v, desired[k]);
    }
    PlanOrderFreeIff(desired, recorded, snapshotted, v);
  }

  /** With slashes it is not: one desired, recorded and synced record, and the order of two upstreams decides between
      leaving it alone and updating it. */
  lemma PlanOrderMatters(want: Record, other: Record) returns (v: Verification)
    requires want.upstream == "u" && want.rtype == "A" && want.name == "A/n" && want.status == Synced
    requires other == want.(upstream := "u/A", name := "n", ttl := want.ttl + 1)
    ensures AsCollected(v) && v.actual == map["u" := [want], "u/A" := [other]]
    ensures var store := map[RecordKey(want) := want]; !PlanOrderFree(store, store, {}, v)
  {
    var p, q;
    v, p, q := OrderMatters(want, other);
    var store := map[RecordKey(want) := want];
    assert Checked(store[RecordKey(want)], store) && store[RecordKey(want)].upstream in v.fetched;
    VerdictOrderFreeIff(v, want);
    assert !NoConflict(store, store, v);
    PlanOrderFreeIff(store, store, {}, v);
  }

  // ---- Plan.Summary ----

  function OfKind(ops: map<string, Op>, kind: OpKind): set<string> {
    set k | k in ops && ops[k].kind == kind
  }

  function Count(summary: map<OpKind, int>, kind: OpKind): int {
    if kind in summary then summary[kind] else 0
  }

  ghost predicate Counts(summary: map<OpKind, int>, ops: map<string, Op>, seen: set<string>) {
    forall kind :: Count(summary, kind) == |OfKind(ops, kind) * seen|
  }

  lemma KindOneMore(ops: map<string, Op>, seen: set<string>, key: string, kind: OpKind)
    requires key in ops && key !in seen
    ensures |OfKind(ops, kind) * (seen + {key})| == |OfKind(ops, kind) * seen| + if kind == ops[key].kind then 1 else 0
  {
    if kind == ops[key].kind {
      assert OfKind(ops, kind) * (seen + {key}) == OfKind(ops, kind) * seen + {key};
    } else {
      assert OfKind(ops, kind) * (seen + {key}) == OfKind(ops, kind) * seen;
    }
  }

  lemma CountOneMore(summary: map<OpKind, int>, ops: map<string, Op>, seen: set<string>, key: string)
    requires key in ops && key !in seen && Counts(summary, ops, seen)
    ensures var kind := ops[key].kind; Counts(summary[kind := Count(summary, kind) + 1], ops, seen + {key})
  {
    forall kind
      ensures |OfKind(ops, kind) * (seen + {key})| == |OfKind(ops, kind) * seen| +
          (if kind == ops[key].kind then 1 else 0)
    {
      KindOneMore(ops, seen, key, kind);
    }
  }

  /** The ops whose upstream group is not among `left`. */
  ghost function Outside(ops: map<string, Op>, left: set<string>): set<string> {
    set k | k in ops && ops[k].record.upstream !in left
  }

  ghost function Inside(ops: map<string, Op>, u: string): set<string> {
    set k | k in ops && ops[k].record.upstream == u
  }

  lemma OutsideOneMore(ops: map<string, Op>, all: set<string>, left: set<string>, u: string)
    requires u in left && left <= all
    ensures Outside(ops, left - {u}) == Outside(ops, left) + Inside(ops, u)
    ensures Outside(ops, {}) == ops.Keys
  {
  }

  lemma FirstGroup(plan: Plan, ops: map<string, Op>)
    requires Groups(plan, ops)
    ensures Outside(ops, plan.Keys) == {} && Counts(map[], ops, {})
    ensures plan.Keys == {} ==> ops.Keys == {}
  {
  }

  method Summary(plan: Plan, ghost ops: map<string, Op>) returns (summary: map<OpKind, int>)
    requires Groups(plan, ops) && KeyedByOp(ops)
    ensures forall kind :: Count(summary, kind) == |OfKind(ops, kind)|
    ensures Count(summary, Noop) + Count(summary, Create) + Count(summary, Update) + Count(summary, Delete) == |ops|
  {
    summary := map[];
    var left := plan.Keys;
    ghost var seen: set<string> := {};
    FirstGroup(plan, ops);
    while left != {}
      invariant left <= plan.Keys
      invariant seen == Outside(ops, left) && (left == {} ==> seen == ops.Keys)
      invariant Counts(summary, ops, seen)
      decreases left
    {
      var u :| u in left;
      summary := SummaryOfGroup(plan, u, ops, seen, summary);
      OutsideOneMore(ops, plan.Keys, left, u);
      left, seen := left - {u}, Outside(ops, left - {u});
    }
    SummaryTotals(summary, ops, seen);
  }

  lemma SummaryTotals(summary: map<OpKind, int>, ops: map<string, Op>, seen: set<string>)
    requires seen == ops.Keys && Counts(summary, ops, seen)
    ensures forall kind :: Count(summary, kind) == |OfKind(ops, kind)|
    ensures Count(summary, Noop) + Count(summary, Create) + Count(summary, Update) + Count(summary, Delete) == |ops|
  {
    forall kind ensures OfKind(ops, kind) * seen == OfKind(ops, kind) {}
    KindsPartition(ops);
  }

  ghost function Prefix(group: seq<Op>, i: nat): set<string>
    requires i <= |group|
  {
    set j | 0 <= j < i :: KeyOf(group[j])
  }

  lemma SeenOneMore(group: seq<Op>, u: string, ops: map<string, Op>, before: set<string>, i: nat)
    requires GroupOf(group, u, ops) && i < |group|
    requires forall k :: k in before ==> k in ops && ops[k].record.upstream != u
    ensures KeyOf(group[i]) !in before + Prefix(group, i) && KeyOf(group[i]) in ops && ops[KeyOf(group[i])] == group[i]
    ensures before + Prefix(group, i + 1) == before + Prefix(group, i) + {KeyOf(group[i])}
  {
  }

  lemma WholeGroup(plan: Plan, u: string, ops: map<string, Op>)
    requires Groups(plan, ops) && KeyedByOp(ops) && u in plan
    ensures Prefix(plan[u], |plan[u]|) == Inside(ops, u)
  {
  }

  lemma GroupOneMore(summary: map<OpKind, int>, group: seq<Op>, u: string, ops: map<string, Op>, before: set<string>,
                     i: nat)
    requires GroupOf(group, u, ops) && i < |group|
    requires forall k :: k in before ==> k in ops && ops[k].record.upstream != u
    requires Counts(summary, ops, before + Prefix(group, i))
    ensures var kind := group[i].kind;
            Counts(summary[kind := Count(summary, kind) + 1], ops, before + Prefix(group, i + 1))
  {
    SeenOneMore(group, u, ops, before, i);
    CountOneMore(summary, ops, before + Prefix(group, i), KeyOf(group[i]));
  }

  lemma GroupStarts(summary: map<OpKind, int>, group: seq<Op>, ops: map<string, Op>, before: set<string>)
    requires Counts(summary, ops, before)
    ensures Counts(summary, ops, before + Prefix(group, 0))
  {
  }

  method SummaryOfGroup(plan: Plan, u: string, ghost ops: map<string, Op>, ghost before: set<string>,
                        start: map<OpKind, int>) returns (summary: map<OpKind, int>)
    requires Groups(plan, ops) && KeyedByOp(ops) && u in plan
    requires Counts(start, ops, before) && forall k :: k in before ==> k in ops && ops[k].record.upstream != u
    ensures Counts(summary, ops, before + Inside(ops, u))
  {
    var group := plan[u];
    summary := start;
    GroupStarts(start, group, ops, before);
    for i := 0 to |group|
      invariant Counts(summary, ops, before + Prefix(group, i))
    {
      GroupOneMore(summary, group, u, ops, before, i);
      summary := summary[group[i].kind := Count(summary, group[i].kind) + 1];
    }
    WholeGroup(plan, u, ops);
  }

  lemma KindsPartition(ops: map<string, Op>)
    ensures |OfKind(ops, Noop)| + |OfKind(ops, Create)| + |OfKind(ops, Update)| + |OfKind(ops, Delete)| == |ops|
  {
    var a, b, c, d := OfKind(ops, Noop), OfKind(ops, Create), OfKind(ops, Update), OfKind(ops, Delete);
    assert a + b + c + d == ops.Keys;
    assert |a + b| == |a| + |b| && |a + b + c| == |a + b| + |c| && |a + b + c + d| == |a + b + c| + |d|;
  }
}
