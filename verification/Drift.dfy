/** Matching desired records against what the upstreams list back
    (the drift half of internal/reconcile/diff.go). */
module Drift {
  import opened Text
  import opened Model

  type Comparer = (Record, Record) -> bool

  predicate AppliedEqual(a: Record, b: Record) {
    AppliedOf(a) == AppliedOf(b)
  }

  datatype Verification = Verification(
    actual: map<string, seq<Record>>, fetched: set<string>, compare: map<string, Comparer>)

  datatype Reason = NoDrift | Missing | Changed

  datatype Index = Index(exact: map<string, Record>, byNameType: map<string, Record>)

  function NameTypeKey(upstream: string, rtype: string, name: string): string {
    Join(Join(upstream, rtype), name)
  }

  function NaturalKey(upstream: string, rtype: string, name: string, value: string): string {
    Join(NameTypeKey(upstream, rtype, name), value)
  }

  function ComparerOf(v: Verification, upstream: string): Comparer {
    if upstream in v.compare then v.compare[upstream] else AppliedEqual
  }

  /** driftCorrection: the reason to correct `want`, or NoDrift. */
  function Correction(idx: Index, v: Verification, want: Record): Reason {
    var exactKey := NaturalKey(want.upstream, want.rtype, want.name, want.value);
    if want.upstream !in v.fetched then NoDrift
    else if exactKey in idx.exact then
      if ComparerOf(v, want.upstream)(want, idx.exact[exactKey]) then NoDrift else Changed
    else if NameTypeKey(want.upstream, want.rtype, want.name) in idx.byNameType then Changed
    else Missing
  }

  // ---- buildActualIndex: the first record of each key wins, upstreams in any order ----

  datatype Entry = Entry(upstream: string, record: Record)

  function EntryExact(e: Entry): string {
    NaturalKey(e.upstream, e.record.rtype, e.record.name, e.record.value)
  }

  function EntryNameType(e: Entry): string {
    NameTypeKey(e.upstream, e.record.rtype, e.record.name)
  }

  function Tag(upstream: string, records: seq<Record>): seq<Entry> {
    seq(|records|, i requires 0 <= i < |records| => Entry(upstream, records[i]))
  }

  /** Every listed record, upstream by upstream in the given order. */
  function Flatten(actual: map<string, seq<Record>>, order: seq<string>): seq<Entry>
    requires forall u :: u in order ==> u in actual
  {
    if order == [] then []
    else Flatten(actual, order[..|order| - 1]) + Tag(order[|order| - 1], actual[order[|order| - 1]])
  }

  function Insert(idx: Index, e: Entry): Index {
    Index(if EntryExact(e) in idx.exact then idx.exact else idx.exact[EntryExact(e) := e.record],
          if EntryNameType(e) in idx.byNameType then idx.byNameType
          else idx.byNameType[EntryNameType(e) := e.record])
  }

  function IndexOf(entries: seq<Entry>): Index {
    if entries == [] then Index(map[], map[])
    else Insert(IndexOf(entries[..|entries| - 1]), entries[|entries| - 1])
  }

  ghost predicate Enumerates(order: seq<string>, keys: set<string>) {
    && (forall i, j :: 0 <= i < j < |order| ==> order[i] != order[j])
    && (forall u :: u in order <==> u in keys)
  }

  lemma EnumerateOneMore(order: seq<string>, keys: set<string>, u: string)
    requires Enumerates(order, keys) && u !in keys
    ensures Enumerates(order + [u], keys + {u})
  {
  }

  lemma {:induction false} AnOrder(keys: set<string>) returns (order: seq<string>)
    ensures Enumerates(order, keys)
    decreases keys
  {
    if keys == {} {
      order := [];
    } else {
      var k :| k in keys;
      var rest := AnOrder(keys - {k});
      order := rest + [k];
      EnumerateOneMore(rest, keys - {k}, k);
      assert keys - {k} + {k} == keys;
    }
  }

  lemma FlattenOneMore(actual: map<string, seq<Record>>, order: seq<string>, u: string)
    requires u in actual && forall w :: w in order ==> w in actual
    ensures Flatten(actual, order + [u]) == Flatten(actual, order) + Tag(u, actual[u])
  {
  }

  lemma IndexOneMore(before: seq<Entry>, u: string, records: seq<Record>, i: nat)
    requires i < |records|
    ensures IndexOf(before + Tag(u, records[..i + 1]))
        == Insert(IndexOf(before + Tag(u, records[..i])), Entry(u, records[i]))
  {
    var longer := before + Tag(u, records[..i + 1]);
    assert longer[..|longer| - 1] == before + Tag(u, records[..i]);
  }

  method BuildActualIndex(actual: map<string, seq<Record>>) returns (idx: Index, order: seq<string>)
    ensures Enumerates(order, actual.Keys)
    ensures idx == IndexOf(Flatten(actual, order))
  {
    idx, order := Index(map[], map[]), [];
    var left := actual.Keys;
    while left != {}
      invariant left <= actual.Keys
      invariant Enumerates(order, actual.Keys - left)
      invariant idx == IndexOf(Flatten(actual, order))
      decreases left
    {
      var u :| u in left;
      idx := IndexList(idx, u, actual[u], Flatten(actual, order));
      FlattenOneMore(actual, order, u);
      EnumerateOneMore(order, actual.Keys - left, u);
      assert actual.Keys - left + {u} == actual.Keys - (left - {u});
      order, left := order + [u], left - {u};
    }
  }

  /** The inner loop: one upstream's records, in list order. */
  method IndexList(start: Index, u: string, records: seq<Record>, ghost before: seq<Entry>) returns (idx: Index)
    requires start == IndexOf(before)
    ensures idx == IndexOf(before + Tag(u, records))
  {
    idx := start;
    assert before + Tag(u, records[..0]) == before;
    for i := 0 to |records|
      invariant idx == IndexOf(before + Tag(u, records[..i]))
    {
      IndexOneMore(before, u, records, i);
      idx := Insert(idx, Entry(u, records[i]));
    }
    assert records[..|records|] == records;
  }

  // ---- what the index is meant to mean: a first-match scan of the upstream's own list ----

  function FirstExact(records: seq<Record>, want: Record): Option<Record> {
    if records == [] then None
    else if records[0].rtype == want.rtype && records[0].name == want.name && records[0].value == want.value
    then Some(records[0])
    else FirstExact(records[1..], want)
  }

  predicate HoldsNameType(records: seq<Record>, want: Record) {
    exists i :: 0 <= i < |records| && records[i].rtype == want.rtype && records[i].name == want.name
  }

  function ScanCorrection(v: Verification, want: Record): Reason {
    var records := if want.upstream in v.actual then v.actual[want.upstream] else [];
    if want.upstream !in v.fetched then NoDrift
    else match FirstExact(records, want)
      case Some(got) => if ComparerOf(v, want.upstream)(want, got) then NoDrift else Changed
      case None => if HoldsNameType(records, want) then Changed else Missing
  }

  function Lookup(entries: seq<Entry>, key: string, keyOf: Entry -> string): Option<Record> {
    if entries == [] then None
    else if keyOf(entries[0]) == key then Some(entries[0].record)
    else Lookup(entries[1..], key, keyOf)
  }

  lemma {:induction false} LookupConcat(a: seq<Entry>, b: seq<Entry>, key: string, keyOf: Entry -> string)
    ensures Lookup(a + b, key, keyOf) ==
            if Lookup(a, key, keyOf).Some? then Lookup(a, key, keyOf) else Lookup(b, key, keyOf)
  {
    if a == [] {
      assert a + b == b;
    } else {
      assert (a + b)[1..] == a[1..] + b;
      LookupConcat(a[1..], b, key, keyOf);
    }
  }

  /** The index holds, for every key, the first entry with that key. */
  lemma {:induction false} IndexKeepsFirst(entries: seq<Entry>, key: string)
    ensures key in IndexOf(entries).exact <==> Lookup(entries, key, EntryExact).Some?
    ensures key in IndexOf(entries).exact ==> Lookup(entries, key, EntryExact).value == IndexOf(entries).exact[key]
    ensures key in IndexOf(entries).byNameType <==> Lookup(entries, key, EntryNameType).Some?
    ensures key in IndexOf(entries).byNameType ==>
              Lookup(entries, key, EntryNameType).value == IndexOf(entries).byNameType[key]
  {
    if entries != [] {
      var init, last := entries[..|entries| - 1], entries[|entries| - 1];
      IndexKeepsFirst(init, key);
      assert entries == init + [last];
      LookupConcat(init, [last], key, EntryExact);
      LookupConcat(init, [last], key, EntryNameType);
    }
  }

  /** Entry `e` shares one of `want`'s keys only by being the same upstream, type and name (and value). */
  predicate Unambiguous(e: Entry, want: Record) {
    && (EntryExact(e) == NaturalKey(want.upstream, want.rtype, want.name, want.value) ==>
          e.upstream == want.upstream && e.record.rtype == want.rtype && e.record.name == want.name
          && e.record.value == want.value)
    && (EntryNameType(e) == NameTypeKey(want.upstream, want.rtype, want.name) ==>
          e.upstream == want.upstream && e.record.rtype == want.rtype && e.record.name == want.name)
  }

  lemma {:induction false} LookupInOneList(u: string, records: seq<Record>, want: Record)
    requires forall r :: r in records ==> Unambiguous(Entry(u, r), want)
    ensures Lookup(Tag(u, records), NaturalKey(want.upstream, want.rtype, want.name, want.value), EntryExact)
         == if u == want.upstream then FirstExact(records, want) else None
    ensures Lookup(Tag(u, records), NameTypeKey(want.upstream, want.rtype, want.name), EntryNameType).Some?
       <==> u == want.upstream && HoldsNameType(records, want)
  {
    if records != [] {
      assert Unambiguous(Entry(u, records[0]), want);
      assert Tag(u, records)[1..] == Tag(u, records[1..]);
      LookupInOneList(u, records[1..], want);
      assert HoldsNameType(records, want) <==>
             (records[0].rtype == want.rtype && records[0].name == want.name) || HoldsNameType(records[1..], want)
      by {
        if HoldsNameType(records[1..], want) {
          var i :| 0 <= i < |records[1..]| && records[1..][i].rtype == want.rtype && records[1..][i].name == want.name;
          assert records[i + 1].rtype == want.rtype;
        }
        if HoldsNameType(records, want) {
          var i :| 0 <= i < |records| && records[i].rtype == want.rtype && records[i].name == want.name;
          assert i > 0 ==> records[1..][i - 1].rtype == want.rtype;
        }
      }
    }
  }

  ghost predicate AllUnambiguous(actual: map<string, seq<Record>>, want: Record) {
    forall u, r :: u in actual && r in actual[u] ==> Unambiguous(Entry(u, r), want)
  }

  lemma {:induction false} LookupInLists(actual: map<string, seq<Record>>, order: seq<string>, want: Record)
    requires forall u :: u in order ==> u in actual
    requires forall i, j :: 0 <= i < j < |order| ==> order[i] != order[j]
    requires AllUnambiguous(actual, want)
    ensures var found := want.upstream in order;
            && Lookup(Flatten(actual, order), NaturalKey(want.upstream, want.rtype, want.name, want.value), EntryExact)
               == (if found then FirstExact(actual[want.upstream], want) else None)
            && (Lookup(Flatten(actual, order), NameTypeKey(want.upstream, want.rtype, want.name), EntryNameType).Some?
                <==> found && HoldsNameType(actual[want.upstream], want))
  {
    if order != [] {
      var init, u := order[..|order| - 1], order[|order| - 1];
      assert order == init + [u];
      LookupInLists(actual, init, want);
      LookupInOneList(u, actual[u], want);
      LookupConcat(Flatten(actual, init), Tag(u, actual[u]),
                   NaturalKey(want.upstream, want.rtype, want.name, want.value), EntryExact);
      LookupConcat(Flatten(actual, init), Tag(u, actual[u]),
                   NameTypeKey(want.upstream, want.rtype, want.name), EntryNameType);
    }
  }

  /** With unambiguous keys the indexed verdict is the scan's, whatever order the upstreams were indexed in. */
  lemma IndexMatchesScan(v: Verification, order: seq<string>, want: Record)
    requires Enumerates(order, v.actual.Keys)
    requires AllUnambiguous(v.actual, want)
    ensures Correction(IndexOf(Flatten(v.actual, order)), v, want) == ScanCorrection(v, want)
  {
    LookupInLists(v.actual, order, want);
    IndexKeepsFirst(Flatten(v.actual, order), NaturalKey(want.upstream, want.rtype, want.name, want.value));
    IndexKeepsFirst(Flatten(v.actual, order), NameTypeKey(want.upstream, want.rtype, want.name));
  }

  /** Exactly the upstreams whose listing is at hand count as fetched. */
  ghost predicate AsCollected(v: Verification) {
    v.fetched == v.actual.Keys
  }

  predicate PathFree(upstream: string, rtype: string, name: string) {
    SlashFree(upstream) && SlashFree(rtype) && SlashFree(name)
  }

  /** No slash in upstream names, types and record names (values may have some). */
  ghost predicate ListsPathFree(actual: map<string, seq<Record>>) {
    forall u, r :: u in actual && r in actual[u] ==> PathFree(u, r.rtype, r.name)
  }

  /** Index agrees with scan: no slash in the names on either side. */
  lemma IndexAgreesWithScan(v: Verification, order: seq<string>, want: Record)
    requires Enumerates(order, v.actual.Keys)
    requires ListsPathFree(v.actual) && PathFree(want.upstream, want.rtype, want.name)
    ensures Correction(IndexOf(Flatten(v.actual, order)), v, want) == ScanCorrection(v, want)
  {
    forall u, r | u in v.actual && r in v.actual[u] ensures Unambiguous(Entry(u, r), want) {
      PathFreeKeysDiffer(Entry(u, r), want);
    }
    IndexMatchesScan(v, order, want);
  }

  lemma PathFreeKeysDiffer(e: Entry, want: Record)
    requires PathFree(e.upstream, e.record.rtype, e.record.name) && PathFree(want.upstream, want.rtype, want.name)
    ensures Unambiguous(e, want)
  {
    var r := e.record;
    if EntryNameType(e) == NameTypeKey(want.upstream, want.rtype, want.name) {
      JoinRightUnique(Join(e.upstream, r.rtype), r.name, Join(want.upstream, want.rtype), want.name);
      JoinLeftUnique(e.upstream, r.rtype, want.upstream, want.rtype);
    }
    if EntryExact(e) == NaturalKey(want.upstream, want.rtype, want.name, want.value) {
      assert EntryExact(e) == Join(e.upstream, Join(r.rtype, Join(r.name, r.value)));
      assert EntryExact(e) == Join(want.upstream, Join(want.rtype, Join(want.name, want.value)));
      JoinLeftUnique(e.upstream, Join(r.rtype, Join(r.name, r.value)),
                     want.upstream, Join(want.rtype, Join(want.name, want.value)));
      JoinLeftUnique(r.rtype, Join(r.name, r.value), want.rtype, Join(want.name, want.value));
      JoinLeftUnique(r.name, r.value, want.name, want.value);
    }
  }

  // ---- when the order of indexing the upstreams matters ----

  function ExactKey(want: Record): string {
    NaturalKey(want.upstream, want.rtype, want.name, want.value)
  }

  /** Upstream u's own first entry with a key. */
  function FirstOf(actual: map<string, seq<Record>>, u: string, key: string, keyOf: Entry -> string): Option<Record>
    requires u in actual
  {
    Lookup(Tag(u, actual[u]), key, keyOf)
  }

  /** The first hit over all upstreams is some upstream's own first hit, and the first upstream's if it has one. */
  lemma {:induction false} LookupPicks(actual: map<string, seq<Record>>, order: seq<string>, key: string,
                                       keyOf: Entry -> string)
    requires forall u :: u in order ==> u in actual
    ensures var hit := Lookup(Flatten(actual, order), key, keyOf);
            && (hit.None? <==> forall u :: u in order ==> FirstOf(actual, u, key, keyOf).None?)
            && (hit.Some? ==> exists u :: u in order && FirstOf(actual, u, key, keyOf) == hit)
            && (order != [] && FirstOf(actual, order[0], key, keyOf).Some? ==>
                  hit == FirstOf(actual, order[0], key, keyOf))
  {
    if order != [] {
      var init, u := order[..|order| - 1], order[|order| - 1];
      assert order == init + [u];
      LookupPicks(actual, init, key, keyOf);
      LookupConcat(Flatten(actual, init), Tag(u, actual[u]), key, keyOf);
      assert u in order && forall w :: w in order ==> w in init || w == u;
      assert init != [] ==> init[0] == order[0];
    }
  }

  /** What the comparison says of the first record that upstream u lists under want's joined key. */
  function AnswerOf(v: Verification, u: string, want: Record): Option<bool>
    requires u in v.actual
  {
    match FirstOf(v.actual, u, ExactKey(want), EntryExact)
    case None => None
    case Some(got) => Some(ComparerOf(v, want.upstream)(want, got))
  }

  /** All upstreams whose listing holds want's joined key get the same answer. */
  ghost predicate OneAnswer(v: Verification, want: Record) {
    forall a, b :: a in v.actual && b in v.actual && AnswerOf(v, a, want).Some? && AnswerOf(v, b, want).Some? ==>
      AnswerOf(v, a, want) == AnswerOf(v, b, want)
  }

  function VerdictBy(v: Verification, order: seq<string>, want: Record): Reason
    requires forall u :: u in order ==> u in v.actual
  {
    Correction(IndexOf(Flatten(v.actual, order)), v, want)
  }

  ghost predicate VerdictOrderFree(v: Verification, want: Record) {
    forall p, q :: Enumerates(p, v.actual.Keys) && Enumerates(q, v.actual.Keys) ==>
      VerdictBy(v, p, want) == VerdictBy(v, q, want)
  }

  ghost predicate ListedAnywhere(v: Verification, want: Record) {
    exists u :: u in v.actual &&
      FirstOf(v.actual, u, NameTypeKey(want.upstream, want.rtype, want.name), EntryNameType).Some?
  }

  function Reply(answer: bool): Reason {
    if answer then NoDrift else Changed
  }

  /** The verdict is some upstream's answer, the first upstream's if it has one; with no answer, it depends on whether
      the joined type and name are listed at all. */
  lemma VerdictPicks(v: Verification, order: seq<string>, want: Record)
    requires Enumerates(order, v.actual.Keys) && want.upstream in v.fetched
    ensures (exists u :: u in v.actual && AnswerOf(v, u, want).Some?) ==>
              exists u :: u in v.actual && AnswerOf(v, u, want).Some? &&
                          VerdictBy(v, order, want) == Reply(AnswerOf(v, u, want).value)
    ensures (forall u :: u in v.actual ==> AnswerOf(v, u, want).None?) ==>
              VerdictBy(v, order, want) == if ListedAnywhere(v, want) then Changed else Missing
    ensures order != [] && AnswerOf(v, order[0], want).Some? ==>
              VerdictBy(v, order, want) == Reply(AnswerOf(v, order[0], want).value)
  {
    var nameType := NameTypeKey(want.upstream, want.rtype, want.name);
    IndexKeepsFirst(Flatten(v.actual, order), ExactKey(want));
    IndexKeepsFirst(Flatten(v.actual, order), nameType);
    LookupPicks(v.actual, order, ExactKey(want), EntryExact);
    LookupPicks(v.actual, order, nameType, EntryNameType);
    var hit := Lookup(Flatten(v.actual, order), ExactKey(want), EntryExact);
    if hit.Some? {
      var u :| u in order && FirstOf(v.actual, u, ExactKey(want), EntryExact) == hit;
      assert AnswerOf(v, u, want).Some?;
    }
  }

  lemma SameVerdict(v: Verification, p: seq<string>, q: seq<string>, want: Record)
    requires Enumerates(p, v.actual.Keys) && Enumerates(q, v.actual.Keys) && want.upstream in v.fetched
    requires OneAnswer(v, want)
    ensures VerdictBy(v, p, want) == VerdictBy(v, q, want)
  {
    VerdictPicks(v, p, want);
    VerdictPicks(v, q, want);
  }

  lemma OrderStarting(keys: set<string>, u: string) returns (order: seq<string>)
    requires u in keys
    ensures Enumerates(order, keys) && order != [] && order[0] == u
  {
    var rest := AnOrder(keys - {u});
    order := [u] + rest;
  }

  /** The verdict is the same for every order of ranging over the upstreams exactly when its upstream was not listed or
      all upstreams whose listing holds its joined key answer alike. */
  lemma VerdictOrderFreeIff(v: Verification, want: Record)
    ensures VerdictOrderFree(v, want) <==> want.upstream !in v.fetched || OneAnswer(v, want)
  {
    if want.upstream in v.fetched {
      if OneAnswer(v, want) {
        forall p, q | Enumerates(p, v.actual.Keys) && Enumerates(q, v.actual.Keys)
          ensures VerdictBy(v, p, want) == VerdictBy(v, q, want)
        {
          SameVerdict(v, p, q, want);
        }
      } else {
        var a, b :| a in v.actual && b in v.actual && AnswerOf(v, a, want).Some? && AnswerOf(v, b, want).Some? &&
          AnswerOf(v, a, want) != AnswerOf(v, b, want);
        var p := OrderStarting(v.actual.Keys, a);
        var q := OrderStarting(v.actual.Keys, b);
        VerdictPicks(v, p, want);
        VerdictPicks(v, q, want);
        assert VerdictBy(v, p, want) != VerdictBy(v, q, want);
      }
    }
  }

  /** Without slashes in the names only the record's own upstream can hold its key. */
  lemma PathFreeOneAnswer(v: Verification, want: Record)
    requires ListsPathFree(v.actual) && PathFree(want.upstream, want.rtype, want.name)
    ensures OneAnswer(v, want)
  {
    forall u | u in v.actual && AnswerOf(v, u, want).Some? ensures u == want.upstream {
      forall r | r in v.actual[u] ensures Unambiguous(Entry(u, r), want) {
        PathFreeKeysDiffer(Entry(u, r), want);
      }
      LookupInOneList(u, v.actual[u], want);
    }
  }

  /** An upstream "u" and another named "u/A": the record A/n of type A on the one and n of type A on the other share a
      joined key, and whichever upstream is ranged over first decides. */
  lemma OrderMatters(want: Record, other: Record) returns (v: Verification, p: seq<string>, q: seq<string>)
    requires want.upstream == "u" && want.rtype == "A" && want.name == "A/n"
    requires other == want.(upstream := "u/A", name := "n", ttl := want.ttl + 1)
    ensures v == Verification(map["u" := [want], "u/A" := [other]], {"u", "u/A"}, map[]) && AsCollected(v)
    ensures Enumerates(p, v.actual.Keys) && Enumerates(q, v.actual.Keys)
    ensures VerdictBy(v, p, want) == NoDrift && VerdictBy(v, q, want) == Changed
  {
    v := Verification(map["u" := [want], "u/A" := [other]], {"u", "u/A"}, map[]);
    p, q := ["u", "u/A"], ["u/A", "u"];
    assert NaturalKey("u/A", "A", "n", want.value) == ExactKey(want);
    assert AnswerOf(v, "u", want) == Some(true) && AnswerOf(v, "u/A", want) == Some(false);
    VerdictPicks(v, p, want);
    VerdictPicks(v, q, want);
  }

  // ---- when a record is safe from every listing ----

  /** The verdict is the scan's for every listing the collector can produce and every order of indexing it. */
  ghost predicate SafeFromAnyListing(want: Record) {
    forall v: Verification, order: seq<string> :: AsCollected(v) && Enumerates(order, v.actual.Keys) ==>
      Correction(IndexOf(Flatten(v.actual, order)), v, want) == ScanCorrection(v, want)
  }

  predicate AllSlashFree(want: Record) {
    PathFree(want.upstream, want.rtype, want.name) && SlashFree(want.value)
  }

  lemma SlashFreeKeysUnambiguous(e: Entry, want: Record)
    requires AllSlashFree(want)
    ensures Unambiguous(e, want)
  {
    var r := e.record;
    SlashFreeIffNoSlashes(want.upstream); SlashFreeIffNoSlashes(want.rtype);
    SlashFreeIffNoSlashes(want.name); SlashFreeIffNoSlashes(want.value);
    SlashFreeIffNoSlashes(e.upstream); SlashFreeIffNoSlashes(r.rtype); SlashFreeIffNoSlashes(r.name);
    CountKey(e.upstream, r.rtype, r.name, r.value);
    CountKey(want.upstream, want.rtype, want.name, want.value);
    if EntryNameType(e) == NameTypeKey(want.upstream, want.rtype, want.name)
       || EntryExact(e) == NaturalKey(want.upstream, want.rtype, want.name, want.value) {
      PathFreeKeysDiffer(e, want);
    }
  }

  /** A slash-free record gets the scan's verdict from any index, even of a listing no collector would produce. */
  lemma SlashFreeVerdict(v: Verification, order: seq<string>, want: Record)
    requires AllSlashFree(want) && Enumerates(order, v.actual.Keys)
    ensures Correction(IndexOf(Flatten(v.actual, order)), v, want) == ScanCorrection(v, want)
  {
    forall u, r | u in v.actual && r in v.actual[u] ensures Unambiguous(Entry(u, r), want) {
      SlashFreeKeysUnambiguous(Entry(u, r), want);
    }
    IndexMatchesScan(v, order, want);
  }

  lemma CountKey(u: string, t: string, n: string, v: string)
    ensures Slashes(NameTypeKey(u, t, n)) == Slashes(u) + Slashes(t) + Slashes(n) + 2
    ensures Slashes(NaturalKey(u, t, n, v)) == Slashes(u) + Slashes(t) + Slashes(n) + Slashes(v) + 3
  {
    SlashesOfJoin(u, t);
    SlashesOfJoin(Join(u, t), n);
    SlashesOfJoin(NameTypeKey(u, t, n), v);
  }

  lemma NotInOneList(r: Record, want: Record)
    requires r.rtype != want.rtype || r.name != want.name
    ensures FirstExact([r], want).None? && !HoldsNameType([r], want)
  {
  }

  /** Upstream u lists r and nothing else, upstream w lists nothing. */
  lemma OneEntry(u: string, r: Record, w: string)
    requires w != u
    ensures Flatten(map[u := [r], w := []], [u, w]) == [Entry(u, r)]
    ensures Flatten(map[u := [r]], [u]) == [Entry(u, r)]
    ensures IndexOf([Entry(u, r)]) == Insert(Index(map[], map[]), Entry(u, r))
  {
    var actual := map[u := [r], w := []];
    assert [] + [u] == [u] && [u] + [w] == [u, w];
    FlattenOneMore(actual, [], u);
    FlattenOneMore(actual, [u], w);
    FlattenOneMore(map[u := [r]], [], u);
    assert Tag(u, [r]) == [Entry(u, r)] && Tag(w, []) == [];
    assert [Entry(u, r)][..0] == [];
  }

  /** A differently cut record with the same joined key fools the index. */
  lemma ConfusedBy(want: Record, e: Entry)
    requires EntryExact(e) == NaturalKey(want.upstream, want.rtype, want.name, want.value)
    requires e.upstream != want.upstream || e.record.rtype != want.rtype || e.record.name != want.name
    requires !AppliedEqual(want, e.record)
    ensures !SafeFromAnyListing(want)
  {
    if e.upstream == want.upstream {
      ConfusedAtHome(want, e);
    } else {
      ConfusedAbroad(want, e);
    }
  }

  lemma ConfusedAtHome(want: Record, e: Entry)
    requires EntryExact(e) == NaturalKey(want.upstream, want.rtype, want.name, want.value)
    requires e.upstream == want.upstream && (e.record.rtype != want.rtype || e.record.name != want.name)
    requires !AppliedEqual(want, e.record)
    ensures !SafeFromAnyListing(want)
  {
    var v := Verification(map[e.upstream := [e.record]], {e.upstream}, map[]);
    var order := [e.upstream];
    OneEntry(e.upstream, e.record, e.upstream + "x");
    NotInOneList(e.record, want);
    assert Correction(IndexOf(Flatten(v.actual, order)), v, want) == Changed;
    assert ScanCorrection(v, want) == Missing;
    assert Enumerates(order, v.actual.Keys) && AsCollected(v);
  }

  lemma ConfusedAbroad(want: Record, e: Entry)
    requires EntryExact(e) == NaturalKey(want.upstream, want.rtype, want.name, want.value)
    requires e.upstream != want.upstream && !AppliedEqual(want, e.record)
    ensures !SafeFromAnyListing(want)
  {
    var v := Verification(map[e.upstream := [e.record], want.upstream := []], {e.upstream, want.upstream}, map[]);
    var order := [e.upstream, want.upstream];
    OneEntry(e.upstream, e.record, want.upstream);
    assert Correction(IndexOf(Flatten(v.actual, order)), v, want) == Changed;
    assert ScanCorrection(v, want) == Missing;
    assert Enumerates(order, v.actual.Keys) && AsCollected(v);
  }

  /** The verdict for `want` is right for every listing exactly when none of its four key fields has a slash. */
  lemma SafeIffSlashFree(want: Record)
    ensures SafeFromAnyListing(want) <==> AllSlashFree(want)
  {
    if AllSlashFree(want) {
      forall v: Verification, order | AsCollected(v) && Enumerates(order, v.actual.Keys)
        ensures Correction(IndexOf(Flatten(v.actual, order)), v, want) == ScanCorrection(v, want)
      {
        SlashFreeVerdict(v, order, want);
      }
    } else if !SlashFree(want.value) {
      var p, q := SplitAtSlash(want.value);
      var r := want.(name := Join(want.name, p), value := q);
      assert NaturalKey(want.upstream, want.rtype, r.name, q)
          == NaturalKey(want.upstream, want.rtype, want.name, want.value);
      assert |r.name| > |want.name|;
      ConfusedBy(want, Entry(want.upstream, r));
    } else if !SlashFree(want.name) {
      var p, q := SplitAtSlash(want.name);
      var r := want.(name := p, value := Join(q, want.value));
      assert NaturalKey(want.upstream, want.rtype, p, r.value)
          == NaturalKey(want.upstream, want.rtype, want.name, want.value);
      assert |r.name| < |want.name|;
      ConfusedBy(want, Entry(want.upstream, r));
    } else if !SlashFree(want.rtype) {
      var p, q := SplitAtSlash(want.rtype);
      var r := want.(rtype := p, name := Join(q, want.name));
      assert NaturalKey(want.upstream, p, r.name, want.value)
          == NaturalKey(want.upstream, want.rtype, want.name, want.value);
      assert |r.name| > |want.name|;
      ConfusedBy(want, Entry(want.upstream, r));
    } else {
      var p, q := SplitAtSlash(want.upstream);
      var r := want.(rtype := q, name := Join(want.rtype, want.name));
      assert NaturalKey(p, q, r.name, want.value) == NaturalKey(want.upstream, want.rtype, want.name, want.value);
      assert |r.name| > |want.name|;
      ConfusedBy(want, Entry(p, r));
    }
  }

  /** What a verdict means: missing exactly when the list has no such type and name, and a
      name-and-type hit without an exact hit holds only other values. */
  lemma {:induction false} ScanMeaning(v: Verification, want: Record)
    requires want.upstream in v.fetched && want.upstream in v.actual
    ensures var records := v.actual[want.upstream];
            && (ScanCorrection(v, want) == Missing <==> !HoldsNameType(records, want))
            && (FirstExact(records, want).None? ==>
                  forall r :: r in records && r.rtype == want.rtype && r.name == want.name ==> r.value != want.value)
  {
    ScanFirst(v.actual[want.upstream], want);
  }

  lemma {:induction false} ScanFirst(records: seq<Record>, want: Record)
    ensures FirstExact(records, want).Some? ==> HoldsNameType(records, want)
    ensures FirstExact(records, want).Some? ==>
              var got := FirstExact(records, want).value;
              got in records && got.rtype == want.rtype && got.name == want.name && got.value == want.value
    ensures FirstExact(records, want).None? ==>
              forall r :: r in records && r.rtype == want.rtype && r.name == want.name ==> r.value != want.value
  {
    if records != [] {
      ScanFirst(records[1..], want);
      assert records == [records[0]] + records[1..];
      if FirstExact(records[1..], want).Some? {
        var i :| 0 <= i < |records[1..]| && records[1..][i].rtype == want.rtype && records[1..][i].name == want.name;
        assert records[i + 1].rtype == want.rtype;
      }
    }
  }
}
