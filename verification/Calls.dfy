/** What the upstreams hold after a batch of concurrent calls, and when the order of those calls matters
    (internal/reconcile/executor.go, the worker fan-out). */
module Calls {
  import opened Text
  import opened Model
  import opened Drift
  import opened Diff
  import opened Effects

  function SlotOfKey(ops: map<string, Op>, k: string): Slot
    requires k in ops
  {
    SlotOf(ops[k].record)
  }

  /** A slot no call writes keeps its content. */
  lemma {:induction false} SlotUntouched(slots: Slots, calls: seq<string>, ops: map<string, Op>,
                                         oracle: string -> Outcome, shows: Shows, s: Slot)
    requires forall k :: k in calls ==> k in ops && SlotOfKey(ops, k) != s
    ensures SlotAt(RunCalls(slots, calls, ops, oracle, shows), s) == SlotAt(slots, s)
  {
    if calls != [] {
      assert calls[|calls| - 1] in calls;
      SlotUntouched(slots, calls[..|calls| - 1], ops, oracle, shows, s);
    }
  }

  /** A slot whose writers all leave the same content holds that content. */
  lemma {:induction false} SlotWritten(slots: Slots, calls: seq<string>, ops: map<string, Op>,
                                       oracle: string -> Outcome, shows: Shows, k: string)
    requires forall c :: c in calls ==> c in ops
    requires k in calls
    requires forall c :: c in calls && SlotOfKey(ops, c) == SlotOfKey(ops, k) ==>
               LeftBy(ops[c], oracle(c), shows) == LeftBy(ops[k], oracle(k), shows)
    ensures SlotAt(RunCalls(slots, calls, ops, oracle, shows), SlotOfKey(ops, k)) == LeftBy(ops[k], oracle(k), shows)
  {
    var init, last := calls[..|calls| - 1], calls[|calls| - 1];
    assert calls == init + [last];
    if SlotOfKey(ops, last) != SlotOfKey(ops, k) {
      SlotWritten(slots, init, ops, oracle, shows, k);
    }
  }

  /** Two ops of the batch write one slot with different contents. */
  ghost predicate Clash(keys: set<string>, ops: map<string, Op>, oracle: string -> Outcome, shows: Shows)
    requires keys <= ops.Keys
  {
    exists a, b :: a in keys && b in keys && SlotOfKey(ops, a) == SlotOfKey(ops, b) &&
                   LeftBy(ops[a], oracle(a), shows) != LeftBy(ops[b], oracle(b), shows)
  }

  ghost predicate OrderIrrelevant(slots: Slots, keys: set<string>, ops: map<string, Op>, oracle: string -> Outcome,
                                  shows: Shows)
    requires keys <= ops.Keys
  {
    forall p, q :: Enumerates(p, keys) && Enumerates(q, keys) ==>
      RunCalls(slots, p, ops, oracle, shows) == RunCalls(slots, q, ops, oracle, shows)
  }

  lemma RunLast(slots: Slots, calls: seq<string>, k: string, ops: map<string, Op>, oracle: string -> Outcome,
                shows: Shows)
    requires k in ops && forall c :: c in calls ==> c in ops
    ensures SlotAt(RunCalls(slots, calls + [k], ops, oracle, shows), SlotOfKey(ops, k))
        == LeftBy(ops[k], oracle(k), shows)
  {
  }

  lemma SlotSettled(slots: Slots, p: seq<string>, q: seq<string>, keys: set<string>, ops: map<string, Op>,
                    oracle: string -> Outcome, shows: Shows, s: Slot)
    requires keys <= ops.Keys && !Clash(keys, ops, oracle, shows) && Enumerates(p, keys) && Enumerates(q, keys)
    ensures SlotAt(RunCalls(slots, p, ops, oracle, shows), s) == SlotAt(RunCalls(slots, q, ops, oracle, shows), s)
  {
    if k :| k in keys && SlotOfKey(ops, k) == s {
      SlotWritten(slots, p, ops, oracle, shows, k);
      SlotWritten(slots, q, ops, oracle, shows, k);
    } else {
      SlotUntouched(slots, p, ops, oracle, shows, s);
      SlotUntouched(slots, q, ops, oracle, shows, s);
    }
  }

  /** Whatever the interleaving, the upstreams end the same exactly when no two ops clash on a slot. */
  lemma OrderIrrelevantIffNoClash(slots: Slots, keys: set<string>, ops: map<string, Op>, oracle: string -> Outcome,
                                  shows: Shows)
    requires keys <= ops.Keys
    ensures OrderIrrelevant(slots, keys, ops, oracle, shows) <==> !Clash(keys, ops, oracle, shows)
  {
    if Clash(keys, ops, oracle, shows) {
      ClashMatters(slots, keys, ops, oracle, shows);
    } else {
      forall p, q | Enumerates(p, keys) && Enumerates(q, keys)
        ensures RunCalls(slots, p, ops, oracle, shows) == RunCalls(slots, q, ops, oracle, shows)
      {
        AllSlotsSettled(slots, p, q, keys, ops, oracle, shows);
      }
    }
  }

  lemma AllSlotsSettled(slots: Slots, p: seq<string>, q: seq<string>, keys: set<string>, ops: map<string, Op>,
                        oracle: string -> Outcome, shows: Shows)
    requires keys <= ops.Keys && !Clash(keys, ops, oracle, shows) && Enumerates(p, keys) && Enumerates(q, keys)
    ensures RunCalls(slots, p, ops, oracle, shows) == RunCalls(slots, q, ops, oracle, shows)
  {
    var x, y := RunCalls(slots, p, ops, oracle, shows), RunCalls(slots, q, ops, oracle, shows);
    forall s ensures SlotAt(x, s) == SlotAt(y, s) {
      SlotSettled(slots, p, q, keys, ops, oracle, shows, s);
    }
    SameSlots(x, y);
  }

  lemma ClashMatters(slots: Slots, keys: set<string>, ops: map<string, Op>, oracle: string -> Outcome, shows: Shows)
    requires keys <= ops.Keys && Clash(keys, ops, oracle, shows)
    ensures !OrderIrrelevant(slots, keys, ops, oracle, shows)
  {
    var a, b :| a in keys && b in keys && SlotOfKey(ops, a) == SlotOfKey(ops, b) &&
                LeftBy(ops[a], oracle(a), shows) != LeftBy(ops[b], oracle(b), shows);
    LastOneWins(slots, keys, ops, oracle, shows, a, b);
  }

  lemma LastOneWins(slots: Slots, keys: set<string>, ops: map<string, Op>, oracle: string -> Outcome, shows: Shows,
                    a: string, b: string)
    requires keys <= ops.Keys && a in keys && b in keys && SlotOfKey(ops, a) == SlotOfKey(ops, b)
    requires LeftBy(ops[a], oracle(a), shows) != LeftBy(ops[b], oracle(b), shows)
    ensures !OrderIrrelevant(slots, keys, ops, oracle, shows)
  {
    var endA := AnOrderEnding(keys, a);
    var endB := AnOrderEnding(keys, b);
    RunLast(slots, endA, a, ops, oracle, shows);
    RunLast(slots, endB, b, ops, oracle, shows);
    var p, q := endA + [a], endB + [b];
    assert RunCalls(slots, p, ops, oracle, shows) != RunCalls(slots, q, ops, oracle, shows);
  }

  lemma AnOrderEnding(keys: set<string>, k: string) returns (init: seq<string>)
    requires k in keys
    ensures Enumerates(init + [k], keys) && forall c :: c in init ==> c in keys
  {
    init := AnOrder(keys - {k});
    EnumerateOneMore(init, keys - {k}, k);
    assert keys - {k} + {k} == keys;
  }

  lemma SameSlots(x: Slots, y: Slots)
    requires forall s :: SlotAt(x, s) == SlotAt(y, s)
    ensures x == y
  {
    forall s ensures s in x <==> s in y { assert SlotAt(x, s) == SlotAt(y, s); }
    forall s | s in x ensures x[s] == y[s] { assert SlotAt(x, s) == SlotAt(y, s); }
  }

  /** A recreated container: the same DNS record under a new source ID. Its create and the old key's delete
      share a slot, so even with every call succeeding the record may end up absent. */
  lemma RecreatedContainerClashes(r: Record, sourceId: string, oracle: string -> Outcome, shows: Shows)
    returns (ops: map<string, Op>)
    requires sourceId != r.sourceId && SlashFree(r.id) && SlashFree(r.upstream)
    requires forall k :: oracle(k).Succeeds?
    ensures var again := r.(sourceId := sourceId);
            && ops == map[RecordKey(again) := Op(Create, again, NoDrift), RecordKey(r) := Op(Delete, r, NoDrift)]
            && Clash(ops.Keys, ops, oracle, shows)
  {
    var again := r.(sourceId := sourceId);
    KeyIdentifies(r, again);
    ops := map[RecordKey(again) := Op(Create, again, NoDrift), RecordKey(r) := Op(Delete, r, NoDrift)];
    var a, b := RecordKey(again), RecordKey(r);
    assert a in ops.Keys && b in ops.Keys && SlotOfKey(ops, a) == SlotOfKey(ops, b);
    assert LeftBy(ops[a], oracle(a), shows) != LeftBy(ops[b], oracle(b), shows);
  }

  ghost predicate OwnSlots(keys: set<string>, ops: map<string, Op>)
    requires keys <= ops.Keys
  {
    forall a, b :: a in keys && b in keys && SlotOfKey(ops, a) == SlotOfKey(ops, b) ==> a == b
  }

  /** With one slot per key, each called op settles its own slot. */
  lemma OwnSlotSettled(slots: Slots, calls: seq<string>, keys: set<string>, ops: map<string, Op>,
                       oracle: string -> Outcome, shows: Shows, k: string)
    requires keys <= ops.Keys && OwnSlots(keys, ops) && k in keys && forall c :: c in calls ==> c in keys
    ensures SlotAt(RunCalls(slots, calls, ops, oracle, shows), SlotOfKey(ops, k)) ==
            if k in calls then LeftBy(ops[k], oracle(k), shows) else SlotAt(slots, SlotOfKey(ops, k))
  {
    if k in calls {
      SlotWritten(slots, calls, ops, oracle, shows, k);
    } else {
      SlotUntouched(slots, calls, ops, oracle, shows, SlotOfKey(ops, k));
    }
  }
}
