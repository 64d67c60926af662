/** The Pi-hole adapter: records kept as text entries in two lists, edited by name and read back
    for verification (pkg/upstream/pihole/pihole.go). */
module Pihole {
  import opened Text
  import opened Model
  import opened Drift
  import opened Entries

  // ---- the list edit ----

  /** The entries that nameOf ascribes to `name`, in order. */
  function Owned(entries: seq<string>, name: string, nameOf: string -> string): seq<string> {
    if entries == [] then []
    else
      var e := entries[|entries| - 1];
      Owned(entries[..|entries| - 1], name, nameOf) + if nameOf(e) == name then [e] else []
  }

  /** The entries it does not, in order. */
  function Others(entries: seq<string>, name: string, nameOf: string -> string): seq<string> {
    if entries == [] then []
    else
      var e := entries[|entries| - 1];
      Others(entries[..|entries| - 1], name, nameOf) + if nameOf(e) == name then [] else [e]
  }

  /** What the name should own afterwards. */
  function Wanted(entry: string, remove: bool): seq<string> {
    if remove then [] else [entry]
  }

  method ApplyByName(entries: seq<string>, name: string, entry: string, remove: bool, nameOf: string -> string)
    returns (out: seq<string>, changed: bool)
    ensures out == Others(entries, name, nameOf) + Wanted(entry, remove)
    ensures changed <==> Owned(entries, name, nameOf) != Wanted(entry, remove)
  {
    out := [];
    var owned, exact := 0, false;
    for i := 0 to |entries|
      invariant out == Others(entries[..i], name, nameOf)
      invariant owned == |Owned(entries[..i], name, nameOf)|
      invariant exact <==> entry in Owned(entries[..i], name, nameOf)
    {
      var e := entries[i];
      assert entries[..i + 1][..i] == entries[..i];
      if nameOf(e) == name {
        owned := owned + 1;
        if e == entry { exact := true; }
      } else {
        out := out + [e];
      }
    }
    assert entries[..|entries|] == entries;
    if remove { return out, owned > 0; }
    out := out + [entry];
    changed := !exact || owned != 1;
  }

  lemma {:induction false} OwnedConcat(a: seq<string>, b: seq<string>, name: string, nameOf: string -> string)
    ensures Owned(a + b, name, nameOf) == Owned(a, name, nameOf) + Owned(b, name, nameOf)
    decreases |b|
  {
    if b == [] {
      assert a + b == a;
    } else {
      assert (a + b)[..|a + b| - 1] == a + b[..|b| - 1];
      OwnedConcat(a, b[..|b| - 1], name, nameOf);
    }
  }

  lemma OwnedOneMore(entries: seq<string>, e: string, name: string, nameOf: string -> string)
    ensures Owned(entries + [e], name, nameOf) == Owned(entries, name, nameOf) + if nameOf(e) == name then [e] else []
  {
  }

  /** Taking one name's entries out leaves every other name's. */
  lemma {:induction false} OwnedOfOthers(entries: seq<string>, name: string, other: string, nameOf: string -> string)
    ensures Owned(Others(entries, name, nameOf), other, nameOf) ==
            if other == name then [] else Owned(entries, other, nameOf)
  {
    if entries != [] {
      var init, e := entries[..|entries| - 1], entries[|entries| - 1];
      OwnedOfOthers(init, name, other, nameOf);
      OwnedOneMore(Others(init, name, nameOf), e, other, nameOf);
      assert nameOf(e) != name ==> Others(entries, name, nameOf) == Others(init, name, nameOf) + [e];
      assert nameOf(e) == name ==> Others(entries, name, nameOf) == Others(init, name, nameOf);
    }
  }

  lemma {:induction false} OwnedMembers(entries: seq<string>, name: string, nameOf: string -> string)
    ensures forall e :: e in Owned(entries, name, nameOf) ==> nameOf(e) == name
  {
    if entries != [] {
      OwnedMembers(entries[..|entries| - 1], name, nameOf);
    }
  }

  lemma {:induction false} OwnedAndOthers(entries: seq<string>, name: string, nameOf: string -> string)
    ensures multiset(entries) == multiset(Owned(entries, name, nameOf)) + multiset(Others(entries, name, nameOf))
  {
    if entries != [] {
      var init, e := entries[..|entries| - 1], entries[|entries| - 1];
      OwnedAndOthers(init, name, nameOf);
      assert entries == init + [e];
      OneMore(init, Owned(init, name, nameOf), Others(init, name, nameOf), e);
    }
  }

  lemma OneMore(whole: seq<string>, a: seq<string>, b: seq<string>, e: string)
    requires multiset(whole) == multiset(a) + multiset(b)
    ensures multiset(whole + [e]) == multiset(a + [e]) + multiset(b) == multiset(a) + multiset(b + [e])
    ensures a + [] == a && b + [] == b
  {
  }

  /** The edit asks for a PATCH exactly when it changes which entries there are, however malformed they may be;
      order alone never causes one. */
  lemma ChangedIffContentsDiffer(entries: seq<string>, name: string, entry: string, remove: bool,
                                 nameOf: string -> string)
    ensures Owned(entries, name, nameOf) != Wanted(entry, remove) <==>
            multiset(Others(entries, name, nameOf) + Wanted(entry, remove)) != multiset(entries)
  {
    var owned, others, wanted := Owned(entries, name, nameOf), Others(entries, name, nameOf), Wanted(entry, remove);
    OwnedAndOthers(entries, name, nameOf);
    assert multiset(others + wanted) == multiset(others) + multiset(wanted);
    if multiset(others + wanted) == multiset(entries) {
      assert multiset(others) + multiset(wanted) == multiset(owned) + multiset(others);
      SameRest(multiset(wanted), multiset(owned), multiset(others));
      SmallIsItsMultiset(owned, wanted);
    }
  }

  lemma SameRest(a: multiset<string>, b: multiset<string>, rest: multiset<string>)
    requires rest + a == b + rest
    ensures a == b
  {
    forall x ensures a[x] == b[x] {
      assert (rest + a)[x] == (b + rest)[x];
    }
  }

  lemma SmallIsItsMultiset(s: seq<string>, t: seq<string>)
    requires |t| <= 1 && multiset(s) == multiset(t)
    ensures s == t
  {
    assert |s| == |multiset(s)| == |multiset(t)| == |t|;
    if |s| == 1 {
      assert s[0] in multiset(s);
      assert s[0] in multiset(t);
      assert s[0] in t;
    }
  }

  /** The list on the server after the call: untouched when the name already owns what is wanted. */
  function Edited(entries: seq<string>, name: string, entry: string, remove: bool,
                  nameOf: string -> string): seq<string> {
    if Owned(entries, name, nameOf) == Wanted(entry, remove) then entries
    else Others(entries, name, nameOf) + Wanted(entry, remove)
  }

  /** Afterwards the name owns just what was wanted, provided the new entry reads back under it. */
  lemma EditedOwned(entries: seq<string>, name: string, entry: string, remove: bool, nameOf: string -> string)
    ensures Owned(Edited(entries, name, entry, remove, nameOf), name, nameOf) ==
            if remove || nameOf(entry) == name then Wanted(entry, remove) else []
  {
    OwnedOfOthers(entries, name, name, nameOf);
    OwnedConcat(Others(entries, name, nameOf), Wanted(entry, remove), name, nameOf);
    OwnedMembers(entries, name, nameOf);
    assert [entry][..0] == [];
    if Owned(entries, name, nameOf) == [entry] {
      assert entry in Owned(entries, name, nameOf);
    }
  }

  /** No other name gains or loses an entry. */
  lemma EditedElsewhere(entries: seq<string>, name: string, entry: string, remove: bool, nameOf: string -> string,
                        other: string)
    requires other != name && (remove || nameOf(entry) != other)
    ensures Owned(Edited(entries, name, entry, remove, nameOf), other, nameOf) == Owned(entries, other, nameOf)
  {
    OwnedOfOthers(entries, name, other, nameOf);
    OwnedConcat(Others(entries, name, nameOf), Wanted(entry, remove), other, nameOf);
    assert [entry][..0] == [];
  }

  /** Repeating an upsert is a no-op exactly when its entry reads back under the record's name; otherwise every repeat
      appends another copy. */
  lemma RepeatIsNoopIff(entries: seq<string>, name: string, entry: string, nameOf: string -> string)
    ensures var once := Edited(entries, name, entry, false, nameOf);
            var twice := Edited(once, name, entry, false, nameOf);
            (twice == once <==> nameOf(entry) == name) && (nameOf(entry) != name ==> twice == once + [entry])
  {
    var once := Edited(entries, name, entry, false, nameOf);
    EditedOwned(entries, name, entry, false, nameOf);
    if nameOf(entry) != name {
      NothingOwned(once, name, nameOf);
      assert |once + [entry]| != |once|;
    }
  }

  lemma {:induction false} NothingOwned(entries: seq<string>, name: string, nameOf: string -> string)
    requires Owned(entries, name, nameOf) == []
    ensures Others(entries, name, nameOf) == entries
  {
    if entries != [] {
      var init, e := entries[..|entries| - 1], entries[|entries| - 1];
      assert entries == init + [e];
      NothingOwned(init, name, nameOf);
    }
  }

  // ---- entries ----

  function HostName(entry: string): string {
    var i := IndexByte(entry, ' ');
    if i >= 0 then TrimSpace(entry[i + 1..]) else ""
  }

  function CnameAlias(entry: string): string {
    var i := IndexByte(entry, ',');
    if i >= 0 then entry[..i] else entry
  }

  datatype Host = Host(ip: string, name: string)

  function SplitHostEntry(entry: string): Option<Host> {
    var i := IndexByte(entry, ' ');
    if i < 0 then None
    else
      var rest := TrimSpace(entry[i + 1..]);
      if rest == "" || ' ' in rest || '\t' in rest then None else Some(Host(entry[..i], rest))
  }

  function HostRecordType(ip: string): string {
    if ':' in ip then TYPE_AAAA else TYPE_A
  }

  datatype Cname = Cname(aliasName: string, target: string, ttl: int)

  function SplitCNAMEEntry(entry: string): Cname {
    var parts := SplitN(entry, ',', 3);
    Cname(parts[0], if |parts| > 1 then parts[1] else "", if |parts| > 2 then Atoi(parts[2]) else 0)
  }

  function HostEntry(r: Record): string {
    r.value + " " + r.name
  }

  function CnameEntry(r: Record): string {
    if r.ttl > 0 then r.name + "," + r.value + "," + Print(r.ttl) else r.name + "," + r.value
  }

  /** A hosts entry reads back as the value and name it was built from exactly when the value has no space and the name
      is non-empty, free of blanks inside and of any white space at its ends. */
  predicate PlainHost(r: Record) {
    ' ' !in r.value && r.name != "" && Trimmed(r.name) && ' ' !in r.name && '\t' !in r.name
  }

  lemma HostEntryRoundTripIff(r: Record)
    ensures SplitHostEntry(HostEntry(r)) == Some(Host(r.value, r.name)) <==> PlainHost(r)
    ensures PlainHost(r) ==> HostName(HostEntry(r)) == r.name
  {
    TrimKeepsIff(r.name);
    var entry := HostEntry(r);
    if ' ' !in r.value {
      IndexAt(r.value, ' ', r.name);
      assert entry == r.value + [' '] + r.name;
    } else {
      assert IndexByte(entry, ' ') >= 0;
      assert ' ' !in entry[..IndexByte(entry, ' ')];
    }
  }

  /** A cname entry reads back exactly when neither name nor target has a comma and the TTL is not negative. */
  predicate PlainCname(r: Record) {
    ',' !in r.name && ',' !in r.value && r.ttl >= 0
  }

  lemma CnameEntryRoundTripIff(r: Record)
    requires r.ttl <= MAX_INT
    ensures SplitCNAMEEntry(CnameEntry(r)) == Cname(r.name, r.value, r.ttl) <==> PlainCname(r)
    ensures ',' !in r.name ==> CnameAlias(CnameEntry(r)) == r.name
  {
    var entry := CnameEntry(r);
    var tail := if r.ttl > 0 then "," + Print(r.ttl) else "";
    assert entry == r.name + [','] + (r.value + tail);
    if ',' !in r.name {
      IndexAt(r.name, ',', r.value + tail);
      SplitTail(r, tail);
    } else {
      assert IndexByte(entry, ',') >= 0;
      assert ',' !in entry[..IndexByte(entry, ',')];
      assert SplitCNAMEEntry(entry).aliasName == entry[..IndexByte(entry, ',')];
    }
  }

  lemma SplitTail(r: Record, tail: string)
    requires r.ttl <= MAX_INT && tail == if r.ttl > 0 then "," + Print(r.ttl) else ""
    ensures var parts := SplitN(r.value + tail, ',', 2);
            parts[0] == r.value && (if |parts| > 1 then Atoi(parts[1]) else 0) == r.ttl
            <==> ',' !in r.value && r.ttl >= 0
  {
    var s := r.value + tail;
    var i := IndexByte(s, ',');
    if ',' in r.value {
      assert i >= 0 && ',' !in s[..i];
    } else if r.ttl > 0 {
      assert s == r.value + [','] + Print(r.ttl);
      IndexAt(r.value, ',', Print(r.ttl));
      AtoiUndoesPrint(r.ttl);
    } else {
      assert s == r.value;
    }
  }

  // ---- the adapter ----

  /** The two lists on the server. */
  datatype Lists = Lists(hosts: seq<string>, cnames: seq<string>)

  predicate IsHost(rtype: string) {
    rtype == TYPE_A || rtype == TYPE_AAAA
  }

  predicate Supported(rtype: string) {
    IsHost(rtype) || rtype == TYPE_CNAME
  }

  function AfterCall(l: Lists, r: Record, remove: bool): Lists {
    if IsHost(r.rtype) then l.(hosts := Edited(l.hosts, r.name, HostEntry(r), remove, HostName))
    else if r.rtype == TYPE_CNAME then l.(cnames := Edited(l.cnames, r.name, CnameEntry(r), remove, CnameAlias))
    else l
  }

  function HostRecord(u: string, entry: string): seq<Record> {
    match SplitHostEntry(entry)
    case None => []
    case Some(h) => [Listed(u, Applied(HostRecordType(h.ip), h.name, h.ip, 0, 0, ""))]
  }

  function CnameRecord(u: string, entry: string): seq<Record> {
    var c := SplitCNAMEEntry(entry);
    [Listed(u, Applied(TYPE_CNAME, c.aliasName, c.target, c.ttl, 0, ""))]
  }

  function ParseAll(u: string, entries: seq<string>, parse: (string, string) -> seq<Record>): seq<Record> {
    if entries == [] then []
    else ParseAll(u, entries[..|entries| - 1], parse) + parse(u, entries[|entries| - 1])
  }

  function Listing(u: string, l: Lists): seq<Record> {
    ParseAll(u, l.hosts, HostRecord) + ParseAll(u, l.cnames, CnameRecord)
  }

  function DriftEqual(want: Record, got: Record): bool {
    && want.rtype == got.rtype && want.name == got.name && want.value == got.value
    && (got.rtype == TYPE_CNAME ==> want.ttl == got.ttl)
  }

  /** How a call's two requests fare; a patch whose reply is lost may have been applied. */
  datatype Fault = Works | GetFails | PatchFails(applied: bool)

  predicate Lost(fault: Fault) {
    fault.GetFails? || (fault.PatchFails? && !fault.applied)
  }

  /** A list after a call that fetched `was` and, when its patch arrived, met `now`: the edit of the list fetched, which
      overwrites what others wrote in between, if a patch was due and took effect. */
  function Patched(was: seq<string>, now: seq<string>, name: string, entry: string, remove: bool,
                   nameOf: string -> string, fault: Fault): seq<string> {
    if Lost(fault) || Owned(was, name, nameOf) == Wanted(entry, remove) then now
    else Edited(was, name, entry, remove, nameOf)
  }

  function AfterPatch(was: Lists, now: Lists, r: Record, remove: bool, fault: Fault): Lists {
    if IsHost(r.rtype) then
      now.(hosts := Patched(was.hosts, now.hosts, r.name, HostEntry(r), remove, HostName, fault))
    else if r.rtype == TYPE_CNAME then
      now.(cnames := Patched(was.cnames, now.cnames, r.name, CnameEntry(r), remove, CnameAlias, fault))
    else now
  }

  /** With nobody else writing, that is the edit if the patch took effect, reported or not, and nothing otherwise. */
  lemma PatchedAlone(was: seq<string>, name: string, entry: string, remove: bool, nameOf: string -> string,
                     fault: Fault)
    ensures Patched(was, was, name, entry, remove, nameOf, fault) ==
            if fault in {GetFails, PatchFails(false)} then was else Edited(was, name, entry, remove, nameOf)
  {
  }

  /** What a call does to its list, and whether it reports success. */
  method Patch(was: seq<string>, now: seq<string>, name: string, entry: string, remove: bool,
               nameOf: string -> string, fault: Fault) returns (list: seq<string>, ok: bool)
    ensures list == Patched(was, now, name, entry, remove, nameOf, fault)
    ensures ok <==> fault == Works || (fault.PatchFails? && Owned(was, name, nameOf) == Wanted(entry, remove))
  {
    if fault.GetFails? { return now, false; }
    var desired, changed := ApplyByName(was, name, entry, remove, nameOf);
    if !changed { return now, true; }
    list := if Lost(fault) then now else desired;
    ok := fault == Works;
  }

  /** The adapter and the server behind it. Each call fetches a list, edits it and patches it back; `meanwhile` is what
      others have made of the lists by the time the patch would arrive. */
  class Upstream {
    const name: string
    var hosts: seq<string>
    var cnames: seq<string>

    constructor (name: string)
      ensures this.name == name
    {
      this.name := name;
    }

    ghost function Now(): Lists
      reads this
    {
      Lists(hosts, cnames)
    }

    method PatchHosts(r: Record, remove: bool, fault: Fault, meanwhile: Lists) returns (ok: bool)
      modifies this
      ensures cnames == meanwhile.cnames
      ensures hosts == Patched(old(hosts), meanwhile.hosts, r.name, HostEntry(r), remove, HostName, fault)
      ensures ok <==> fault == Works ||
                      (fault.PatchFails? && Owned(old(hosts), r.name, HostName) == Wanted(HostEntry(r), remove))
    {
      cnames := meanwhile.cnames;
      hosts, ok := Patch(hosts, meanwhile.hosts, r.name, HostEntry(r), remove, HostName, fault);
    }

    method PatchCNAME(r: Record, remove: bool, fault: Fault, meanwhile: Lists) returns (ok: bool)
      modifies this
      ensures hosts == meanwhile.hosts
      ensures cnames == Patched(old(cnames), meanwhile.cnames, r.name, CnameEntry(r), remove, CnameAlias, fault)
      ensures ok <==> fault == Works ||
                      (fault.PatchFails? && Owned(old(cnames), r.name, CnameAlias) == Wanted(CnameEntry(r), remove))
    {
      hosts := meanwhile.hosts;
      cnames, ok := Patch(cnames, meanwhile.cnames, r.name, CnameEntry(r), remove, CnameAlias, fault);
    }

    /** The list of the record's type is patched and the other is as others left it; any other type is an error. With
        nobody else writing a call is all or nothing: success means the edit is in place, and a failed call made it
        whole or not at all. */
    method Upsert(r: Record, fault: Fault, meanwhile: Lists) returns (ok: bool)
      modifies this
      ensures Now() == AfterPatch(old(Now()), meanwhile, r, false, fault)
      ensures meanwhile == old(Now()) ==> Now() == old(Now()) || Now() == AfterCall(old(Now()), r, false)
      ensures ok ==> Supported(r.rtype) && (meanwhile == old(Now()) ==> Now() == AfterCall(old(Now()), r, false))
      ensures fault == Works ==> (ok <==> Supported(r.rtype))
    {
      PatchedAlone(hosts, r.name, HostEntry(r), false, HostName, fault);
      PatchedAlone(cnames, r.name, CnameEntry(r), false, CnameAlias, fault);
      if r.rtype == TYPE_A || r.rtype == TYPE_AAAA {
        ok := PatchHosts(r, false, fault, meanwhile);
      } else if r.rtype == TYPE_CNAME {
        ok := PatchCNAME(r, false, fault, meanwhile);
      } else {
        hosts, cnames := meanwhile.hosts, meanwhile.cnames;
        return false;
      }
    }

    method Delete(r: Record, fault: Fault, meanwhile: Lists) returns (ok: bool)
      modifies this
      ensures Now() == AfterPatch(old(Now()), meanwhile, r, true, fault)
      ensures meanwhile == old(Now()) ==> Now() == old(Now()) || Now() == AfterCall(old(Now()), r, true)
      ensures ok ==> Supported(r.rtype) && (meanwhile == old(Now()) ==> Now() == AfterCall(old(Now()), r, true))
      ensures fault == Works ==> (ok <==> Supported(r.rtype))
    {
      PatchedAlone(hosts, r.name, HostEntry(r), true, HostName, fault);
      PatchedAlone(cnames, r.name, CnameEntry(r), true, CnameAlias, fault);
      if r.rtype == TYPE_A || r.rtype == TYPE_AAAA {
        ok := PatchHosts(r, true, fault, meanwhile);
      } else if r.rtype == TYPE_CNAME {
        ok := PatchCNAME(r, true, fault, meanwhile);
      } else {
        hosts, cnames := meanwhile.hosts, meanwhile.cnames;
        return false;
      }
    }

    method List() returns (out: seq<Record>)
      ensures out == Listing(name, Now())
    {
      out := [];
      for i := 0 to |hosts|
        invariant out == ParseAll(name, hosts[..i], HostRecord)
      {
        assert hosts[..i + 1][..i] == hosts[..i];
        match SplitHostEntry(hosts[i])
        case None =>
        case Some(h) => out := out + [Listed(name, Applied(HostRecordType(h.ip), h.name, h.ip, 0, 0, ""))];
      }
      assert hosts[..|hosts|] == hosts;
      ghost var first := out;
      for i := 0 to |cnames|
        invariant out == first + ParseAll(name, cnames[..i], CnameRecord)
      {
        assert cnames[..i + 1][..i] == cnames[..i];
        var c := SplitCNAMEEntry(cnames[i]);
        out := out + [Listed(name, Applied(TYPE_CNAME, c.aliasName, c.target, c.ttl, 0, ""))];
      }
      assert cnames[..|cnames|] == cnames;
    }
  }

  // ---- what List reports ----

  /** x is what an entry of the hosts list stands for: an AAAA record exactly if its address has a colon. */
  ghost predicate FromHost(u: string, entry: string, x: Record) {
    SplitHostEntry(entry).Some? && var h := SplitHostEntry(entry).value;
    x == Listed(u, Applied(if ':' in h.ip then "AAAA" else "A", h.name, h.ip, 0, 0, ""))
  }

  ghost predicate FromCname(u: string, entry: string, x: Record) {
    var c := SplitCNAMEEntry(entry);
    x == Listed(u, Applied("CNAME", c.aliasName, c.target, c.ttl, 0, ""))
  }

  /** List reports a record exactly if some entry stands for it; a hosts line that names several hosts, or none, stands
      for nothing. */
  lemma ListedIff(u: string, l: Lists, x: Record)
    ensures x in Listing(u, l) <==>
            (exists e :: e in l.hosts && FromHost(u, e, x)) || exists e :: e in l.cnames && FromCname(u, e, x)
  {
    ParsedIff(u, l.hosts, HostRecord, x);
    ParsedIff(u, l.cnames, CnameRecord, x);
    forall e ensures x in HostRecord(u, e) <==> FromHost(u, e, x) {
    }
    forall e ensures x in CnameRecord(u, e) <==> FromCname(u, e, x) {
    }
  }

  lemma {:induction false} ParsedIff(u: string, entries: seq<string>, parse: (string, string) -> seq<Record>, x: Record)
    ensures x in ParseAll(u, entries, parse) <==> exists e :: e in entries && x in parse(u, e)
  {
    if entries != [] {
      var init, last := entries[..|entries| - 1], entries[|entries| - 1];
      assert entries == init + [last];
      ParsedIff(u, init, parse, x);
    }
  }

  // ---- what verification sees ----

  /** The listed records of one type and name. */
  function Only(records: seq<Record>, rtype: string, name: string): seq<Record> {
    if records == [] then []
    else
      var r := records[|records| - 1];
      Only(records[..|records| - 1], rtype, name) + if r.rtype == rtype && r.name == name then [r] else []
  }

  lemma {:induction false} OnlyConcat(a: seq<Record>, b: seq<Record>, rtype: string, name: string)
    ensures Only(a + b, rtype, name) == Only(a, rtype, name) + Only(b, rtype, name)
    decreases |b|
  {
    if b == [] {
      assert a + b == a;
    } else {
      assert (a + b)[..|a + b| - 1] == a + b[..|b| - 1];
      OnlyConcat(a, b[..|b| - 1], rtype, name);
    }
  }

  lemma {:induction false} FirstExactConcat(a: seq<Record>, b: seq<Record>, want: Record)
    ensures FirstExact(a + b, want) == if FirstExact(a, want).Some? then FirstExact(a, want) else FirstExact(b, want)
  {
    if a == [] {
      assert a + b == b;
    } else {
      assert (a + b)[1..] == a[1..] + b;
      FirstExactConcat(a[1..], b, want);
    }
  }

  /** The scan reads nothing but the records of the wanted type and name. */
  lemma {:induction false} ScanReadsOnly(records: seq<Record>, want: Record)
    ensures FirstExact(records, want) == FirstExact(Only(records, want.rtype, want.name), want)
    ensures HoldsNameType(records, want) <==> Only(records, want.rtype, want.name) != []
  {
    if records != [] {
      var init, r := records[..|records| - 1], records[|records| - 1];
      assert records == init + [r];
      ScanReadsOnly(init, want);
      FirstExactConcat(init, [r], want);
      assert [r][1..] == [];
      if r.rtype == want.rtype && r.name == want.name {
        FirstExactConcat(Only(init, want.rtype, want.name), [r], want);
      } else {
        assert Only(records, want.rtype, want.name) == Only(init, want.rtype, want.name);
      }
    }
  }

  lemma OnlyOneMore(records: seq<Record>, r: Record, rtype: string, name: string)
    ensures Only(records + [r], rtype, name)
         == if r.rtype == rtype && r.name == name then Only(records, rtype, name) + [r] else Only(records, rtype, name)
  {
  }

  /** `parse` reports at most one record an entry, under the name `nameOf` ascribes to it. */
  ghost predicate Attributes(u: string, parse: (string, string) -> seq<Record>, nameOf: string -> string) {
    forall e :: |parse(u, e)| == 0 || (|parse(u, e)| == 1 && parse(u, e)[0].name == nameOf(e))
  }

  lemma ListsAttribute(u: string)
    ensures Attributes(u, HostRecord, HostName) && Attributes(u, CnameRecord, CnameAlias)
  {
  }

  lemma ParseOneMore(u: string, entries: seq<string>, e: string, parse: (string, string) -> seq<Record>,
                     nameOf: string -> string, rtype: string, name: string)
    requires Attributes(u, parse, nameOf)
    ensures Only(ParseAll(u, entries + [e], parse), rtype, name)
         == Only(ParseAll(u, entries, parse), rtype, name) + Only(parse(u, e), rtype, name)
    ensures nameOf(e) != name ==> Only(parse(u, e), rtype, name) == []
  {
    assert (entries + [e])[..|entries|] == entries;
    var rs := parse(u, e);
    if |rs| == 0 {
      assert ParseAll(u, entries, parse) + rs == ParseAll(u, entries, parse);
    } else {
      assert rs == [] + [rs[0]];
      OnlyOneMore([], rs[0], rtype, name);
      OnlyOneMore(ParseAll(u, entries, parse), rs[0], rtype, name);
    }
  }

  /** A listing's records of a name come from the entries that name owns. */
  lemma {:induction false} ListedFromOwned(u: string, entries: seq<string>, parse: (string, string) -> seq<Record>,
                                           nameOf: string -> string, rtype: string, name: string)
    requires Attributes(u, parse, nameOf)
    ensures Only(ParseAll(u, entries, parse), rtype, name)
         == Only(ParseAll(u, Owned(entries, name, nameOf), parse), rtype, name)
  {
    if entries != [] {
      var init, e := entries[..|entries| - 1], entries[|entries| - 1];
      assert entries == init + [e];
      ListedFromOwned(u, init, parse, nameOf, rtype, name);
      ParseOneMore(u, init, e, parse, nameOf, rtype, name);
      ParseOneMore(u, Owned(init, name, nameOf), e, parse, nameOf, rtype, name);
      OwnedOneMore(init, e, name, nameOf);
      assert nameOf(e) != name ==> Owned(entries, name, nameOf) == Owned(init, name, nameOf);
    }
  }

  /** Only the hosts list yields A and AAAA records, and only the cname list CNAMEs. */
  lemma {:induction false} TypesOfHosts(u: string, entries: seq<string>, rtype: string, name: string)
    requires !IsHost(rtype)
    ensures Only(ParseAll(u, entries, HostRecord), rtype, name) == []
  {
    if entries != [] {
      var init, e := entries[..|entries| - 1], entries[|entries| - 1];
      assert entries == init + [e];
      TypesOfHosts(u, init, rtype, name);
      ListsAttribute(u);
      ParseOneMore(u, init, e, HostRecord, HostName, rtype, name);
      assert forall x :: x in HostRecord(u, e) ==> IsHost(x.rtype);
    }
  }

  lemma {:induction false} TypesOfCnames(u: string, entries: seq<string>, rtype: string, name: string)
    requires rtype != TYPE_CNAME
    ensures Only(ParseAll(u, entries, CnameRecord), rtype, name) == []
  {
    if entries != [] {
      var init, e := entries[..|entries| - 1], entries[|entries| - 1];
      assert entries == init + [e];
      TypesOfCnames(u, init, rtype, name);
      ListsAttribute(u);
      ParseOneMore(u, init, e, CnameRecord, CnameAlias, rtype, name);
    }
  }

  /** What a listing holds of one type and name, read from the entries of that name alone. */
  function View(u: string, l: Lists, rtype: string, name: string): seq<Record> {
    if IsHost(rtype) then Only(ParseAll(u, Owned(l.hosts, name, HostName), HostRecord), rtype, name)
    else if rtype == TYPE_CNAME then Only(ParseAll(u, Owned(l.cnames, name, CnameAlias), CnameRecord), rtype, name)
    else []
  }

  lemma ListingOnly(u: string, l: Lists, rtype: string, name: string)
    ensures Only(Listing(u, l), rtype, name) == View(u, l, rtype, name)
  {
    OnlyConcat(ParseAll(u, l.hosts, HostRecord), ParseAll(u, l.cnames, CnameRecord), rtype, name);
    ListsAttribute(u);
    ListedFromOwned(u, l.hosts, HostRecord, HostName, rtype, name);
    ListedFromOwned(u, l.cnames, CnameRecord, CnameAlias, rtype, name);
    if !IsHost(rtype) { TypesOfHosts(u, l.hosts, rtype, name); }
    if rtype != TYPE_CNAME { TypesOfCnames(u, l.cnames, rtype, name); }
  }

  /** v is a verification that listed upstream u when its server held l. */
  ghost predicate Watches(v: Verification, u: string, l: Lists) {
    && u in v.fetched && u in v.actual && v.actual[u] == Listing(u, l)
    && u in v.compare && v.compare[u] == DriftEqual
  }

  function Verdict(view: seq<Record>, want: Record): Reason {
    match FirstExact(view, want)
    case Some(got) => if DriftEqual(want, got) then NoDrift else Changed
    case None => if view != [] then Changed else Missing
  }

  lemma VerdictOfView(v: Verification, l: Lists, want: Record)
    requires Watches(v, want.upstream, l)
    ensures ScanCorrection(v, want) == Verdict(View(want.upstream, l, want.rtype, want.name), want)
  {
    ScanReadsOnly(Listing(want.upstream, l), want);
    ListingOnly(want.upstream, l, want.rtype, want.name);
  }

  predicate SameList(a: Record, b: Record) {
    IsHost(a.rtype) == IsHost(b.rtype)
  }

  /** The records Pi-hole's entries can express: IPv6 addresses, and no others, have a colon. */
  predicate Expressible(r: Record) {
    match r.rtype
    case "A" => PlainHost(r) && ':' !in r.value
    case "AAAA" => PlainHost(r) && ':' in r.value
    case "CNAME" => PlainCname(r)
    case _ => false
  }

  function ExpressedAs(u: string, r: Record): Record {
    Listed(u, Applied(r.rtype, r.name, r.value, if IsHost(r.rtype) then 0 else r.ttl, 0, ""))
  }

  lemma OnlyOne(records: seq<Record>, rtype: string, name: string)
    requires |records| <= 1
    ensures Only(records, rtype, name) ==
            if |records| == 1 && records[0].rtype == rtype && records[0].name == name then records else []
  {
  }

  lemma ParseSingle(u: string, e: string, parse: (string, string) -> seq<Record>)
    ensures ParseAll(u, [], parse) == [] && ParseAll(u, [e], parse) == parse(u, e)
  {
  }

  /** After an upsert the record's name lists at most its own entry: itself if expressible, never anything equal to it
      if not. */
  lemma ViewAfterUpsert(u: string, l: Lists, r: Record, rtype: string)
    requires Supported(r.rtype) && IsHost(rtype) == IsHost(r.rtype) && r.ttl <= MAX_INT
    ensures var view := View(u, AfterCall(l, r, false), rtype, r.name);
            && (Expressible(r) ==> view == if rtype == r.rtype then [ExpressedAs(u, r)] else [])
            && (!Expressible(r) && rtype == r.rtype ==> Verdict(view, r) != NoDrift)
  {
    if IsHost(r.rtype) {
      HostViewAfterUpsert(u, l, r, rtype);
    } else if rtype == TYPE_CNAME {
      CnameViewAfterUpsert(u, l, r);
    }
  }

  /** A host record reads back as itself exactly when it is expressible. */
  lemma HostReadsBackIff(u: string, r: Record)
    requires IsHost(r.rtype)
    ensures |HostRecord(u, HostEntry(r))| <= 1
    ensures Expressible(r) ==> HostRecord(u, HostEntry(r)) == [ExpressedAs(u, r)] && HostName(HostEntry(r)) == r.name
    ensures !Expressible(r) && |HostRecord(u, HostEntry(r))| == 1 ==> !DriftEqual(r, HostRecord(u, HostEntry(r))[0])
  {
    HostEntryRoundTripIff(r);
  }

  lemma HostViewAfterUpsert(u: string, l: Lists, r: Record, rtype: string)
    requires IsHost(r.rtype) && IsHost(rtype)
    ensures var view := View(u, AfterCall(l, r, false), rtype, r.name);
            && (Expressible(r) ==> view == if rtype == r.rtype then [ExpressedAs(u, r)] else [])
            && (!Expressible(r) && rtype == r.rtype ==> Verdict(view, r) != NoDrift)
  {
    var e := HostEntry(r);
    var read := HostRecord(u, e);
    EditedOwned(l.hosts, r.name, e, false, HostName);
    HostReadsBackIff(u, r);
    ParseSingle(u, e, HostRecord);
    OnlyOne(read, rtype, r.name);
    if |read| == 1 { SingleVerdict(read[0], r); }
  }

  lemma CnameViewAfterUpsert(u: string, l: Lists, r: Record)
    requires r.rtype == TYPE_CNAME && r.ttl <= MAX_INT
    ensures var view := View(u, AfterCall(l, r, false), TYPE_CNAME, r.name);
            && (Expressible(r) ==> view == [ExpressedAs(u, r)])
            && (!Expressible(r) ==> Verdict(view, r) != NoDrift)
  {
    var e := CnameEntry(r);
    EditedOwned(l.cnames, r.name, e, false, CnameAlias);
    CnameEntryRoundTripIff(r);
    ParseSingle(u, e, CnameRecord);
    OnlyOne(CnameRecord(u, e), TYPE_CNAME, r.name);
    SingleVerdict(CnameRecord(u, e)[0], r);
  }

  lemma SingleVerdict(x: Record, want: Record)
    ensures Verdict([x], want) == if DriftEqual(want, x) then NoDrift else Changed
    ensures Verdict([], want) == Missing
  {
    assert [x][1..] == [];
    assert FirstExact([], want).None?;
  }

  /** The fixed point, for every server contents: after an upsert, verification agrees with the record if and only if
      the record is expressible. An inexpressible one is upserted again on every verified pass. */
  lemma UpsertHealsIff(l: Lists, r: Record, v: Verification)
    requires Supported(r.rtype) && r.ttl <= MAX_INT && Watches(v, r.upstream, AfterCall(l, r, false))
    ensures ScanCorrection(v, r) == NoDrift <==> Expressible(r)
  {
    VerdictOfView(v, AfterCall(l, r, false), r);
    ViewAfterUpsert(r.upstream, l, r, r.rtype);
    SingleVerdict(ExpressedAs(r.upstream, r), r);
  }

  /** The same through the diff's index, whatever else is listed, when none of the record's key fields has a slash. */
  lemma UpsertHealsIndexed(l: Lists, r: Record, v: Verification, order: seq<string>)
    requires Supported(r.rtype) && r.ttl <= MAX_INT && AllSlashFree(r)
    requires Watches(v, r.upstream, AfterCall(l, r, false)) && Enumerates(order, v.actual.Keys)
    ensures Correction(IndexOf(Flatten(v.actual, order)), v, r) == NoDrift <==> Expressible(r)
  {
    SlashFreeVerdict(v, order, r);
    UpsertHealsIff(l, r, v);
  }

  /** The verdict, after an upsert, for every record of the same name in the same list. */
  lemma UpsertVerdicts(l: Lists, r: Record, want: Record, v: Verification)
    requires Expressible(r) && r.ttl <= MAX_INT && Supported(want.rtype) && SameList(want, r) && want.name == r.name
    requires Watches(v, want.upstream, AfterCall(l, r, false))
    ensures ScanCorrection(v, want) ==
            if want.rtype != r.rtype then Missing
            else if want.value != r.value || (r.rtype == TYPE_CNAME && want.ttl != r.ttl) then Changed
            else NoDrift
  {
    VerdictOfView(v, AfterCall(l, r, false), want);
    ViewAfterUpsert(want.upstream, l, r, want.rtype);
    SingleVerdict(ExpressedAs(want.upstream, r), want);
  }

  /** A name's A and AAAA record cannot both be kept: upserting the second reports the first missing, in
      either order. */
  lemma DualStackDisplaces(l: Lists, a: Record, b: Record, v: Verification)
    requires Expressible(a) && Expressible(b) && IsHost(a.rtype) && IsHost(b.rtype) && a.rtype != b.rtype
    requires a.name == b.name && a.upstream == b.upstream && a.ttl <= MAX_INT && b.ttl <= MAX_INT
    requires Watches(v, a.upstream, AfterCall(AfterCall(l, a, false), b, false))
    ensures ScanCorrection(v, b) == NoDrift && ScanCorrection(v, a) == Missing
  {
    UpsertVerdicts(AfterCall(l, a, false), b, a, v);
    UpsertVerdicts(AfterCall(l, a, false), b, b, v);
  }

  /** Removing a record removes every record of its name from its list. */
  lemma DeleteVerdicts(l: Lists, r: Record, want: Record, v: Verification)
    requires Supported(r.rtype) && Supported(want.rtype) && SameList(want, r) && want.name == r.name
    requires Watches(v, want.upstream, AfterCall(l, r, true))
    ensures ScanCorrection(v, want) == Missing
  {
    VerdictOfView(v, AfterCall(l, r, true), want);
    EditedOwned(l.hosts, r.name, HostEntry(r), true, HostName);
    EditedOwned(l.cnames, r.name, CnameEntry(r), true, CnameAlias);
  }

  /** A call leaves every other name, and the other list, as they were. */
  lemma ViewElsewhere(u: string, l: Lists, r: Record, remove: bool, rtype: string, name: string)
    requires (Expressible(r) || remove) && r.ttl <= MAX_INT && (name != r.name || IsHost(rtype) != IsHost(r.rtype))
    ensures View(u, AfterCall(l, r, remove), rtype, name) == View(u, l, rtype, name)
  {
    if name != r.name {
      HostEntryRoundTripIff(r);
      CnameEntryRoundTripIff(r);
      if IsHost(r.rtype) {
        EditedElsewhere(l.hosts, r.name, HostEntry(r), remove, HostName, name);
      } else {
        EditedElsewhere(l.cnames, r.name, CnameEntry(r), remove, CnameAlias, name);
      }
    }
  }

  lemma OtherVerdictsStand(l: Lists, r: Record, remove: bool, want: Record, v: Verification, v': Verification)
    requires (Expressible(r) || remove) && r.ttl <= MAX_INT && (want.name != r.name || !SameList(want, r))
    requires Watches(v, want.upstream, l) && Watches(v', want.upstream, AfterCall(l, r, remove))
    ensures ScanCorrection(v', want) == ScanCorrection(v, want)
  {
    VerdictOfView(v, l, want);
    VerdictOfView(v', AfterCall(l, r, remove), want);
    ViewElsewhere(want.upstream, l, r, remove, want.rtype, want.name);
  }

  function OtherHostType(rtype: string): string {
    if rtype == TYPE_A then TYPE_AAAA else TYPE_A
  }

  /** The upsert sets the record's own slot and no other: what the reconciler takes every adapter to do. */
  ghost predicate SetsOnlyItsSlot(u: string, l: Lists, r: Record) {
    forall rtype, name :: View(u, AfterCall(l, r, false), rtype, name) ==
      if rtype == r.rtype && name == r.name then [ExpressedAs(u, r)] else View(u, l, rtype, name)
  }

  /** It does so exactly when no address of the other family is listed under the name. */
  lemma UpsertIsSlotUpdateIff(u: string, l: Lists, r: Record)
    requires Expressible(r) && r.ttl <= MAX_INT
    ensures SetsOnlyItsSlot(u, l, r) <==> (IsHost(r.rtype) ==> View(u, l, OtherHostType(r.rtype), r.name) == [])
  {
    if IsHost(r.rtype) {
      ViewAfterUpsert(u, l, r, OtherHostType(r.rtype));
    }
    if IsHost(r.rtype) ==> View(u, l, OtherHostType(r.rtype), r.name) == [] {
      forall rtype, name ensures View(u, AfterCall(l, r, false), rtype, name) ==
        if rtype == r.rtype && name == r.name then [ExpressedAs(u, r)] else View(u, l, rtype, name)
      {
        if name != r.name || IsHost(rtype) != IsHost(r.rtype) {
          ViewElsewhere(u, l, r, false, rtype, name);
        } else {
          ViewAfterUpsert(u, l, r, rtype);
        }
      }
    }
  }

  /** Lines the adapter cannot attribute to one record, such as multi-host lines, stay. */
  lemma HandManagedKept(l: Lists, r: Record, remove: bool, e: string)
    requires Expressible(r) && SplitHostEntry(e).None?
    ensures multiset(AfterCall(l, r, remove).hosts)[e] == multiset(l.hosts)[e]
  {
    if IsHost(r.rtype) {
      HostEntryRoundTripIff(r);
      OwnedMembers(l.hosts, r.name, HostName);
      OwnedAndOthers(l.hosts, r.name, HostName);
      assert e !in Owned(l.hosts, r.name, HostName);
      assert e !in Wanted(HostEntry(r), remove);
    }
  }
}
