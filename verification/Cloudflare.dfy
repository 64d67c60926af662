/** Cloudflare's names: zone-qualified on the wire, short in the records
    (fqdn and shortName of pkg/upstream/cloudflare/cloudflare.go). */
module Cloudflare {
  import opened Text
  import opened Model
  import opened Drift

  predicate HasSuffix(s: string, suffix: string) {
    |suffix| <= |s| && s[|s| - |suffix|..] == suffix
  }

  predicate InZone(name: string, zone: string) {
    name == zone || HasSuffix(name, "." + zone)
  }

  function Fqdn(name: string, zone: string): string {
    if InZone(name, zone) then name else name + "." + zone
  }

  function ShortName(name: string, zone: string): string {
    if name != zone && HasSuffix(name, "." + zone) then name[..|name| - |zone| - 1] else name
  }

  /** Qualified names are in the zone, and qualifying again changes nothing. */
  lemma FqdnSettles(name: string, zone: string)
    ensures InZone(Fqdn(name, zone), zone) && Fqdn(Fqdn(name, zone), zone) == Fqdn(name, zone)
  {
  }

  /** shortName undoes fqdn exactly on the apex and on names that do not already end in the zone. */
  lemma ShortUndoesFqdnIff(name: string, zone: string)
    ensures ShortName(Fqdn(name, zone), zone) == name <==> name == zone || !HasSuffix(name, "." + zone)
  {
  }

  /** fqdn undoes shortName, on a name of the zone, exactly when the short form is not itself in the zone. */
  lemma FqdnUndoesShortIff(name: string, zone: string)
    requires InZone(name, zone)
    ensures Fqdn(ShortName(name, zone), zone) == name <==> name == zone || !InZone(ShortName(name, zone), zone)
  {
  }

  /** Two record names mean one Cloudflare name exactly when they are equal or one is the other spelled out. */
  lemma SameFqdnIff(a: string, b: string, zone: string)
    ensures Fqdn(a, zone) == Fqdn(b, zone) <==> a == b || a == Fqdn(b, zone) || b == Fqdn(a, zone)
  {
  }

  /** A listing that names every record as List does: by the short form of its qualified name. */
  function ListedShort(u: string, zone: string, wire: seq<Applied>): seq<Record> {
    seq(|wire|, i requires 0 <= i < |wire| => Listed(u, wire[i].(name := ShortName(wire[i].name, zone))))
  }

  // ---- what verification makes of any zone ----

  ghost predicate AllInZone(wire: seq<Applied>, zone: string) {
    forall i :: 0 <= i < |wire| ==> InZone(wire[i].name, zone)
  }

  /** v is a verification that listed want's upstream, a zone holding `wire`. */
  ghost predicate Watches(v: Verification, want: Record, zone: string, wire: seq<Applied>) {
    && want.upstream in v.fetched && want.upstream in v.actual && want.upstream !in v.compare
    && v.actual[want.upstream] == ListedShort(want.upstream, zone, wire)
    && AllInZone(wire, zone)
  }

  /** The wire names listed under a record name: the name with the zone appended, and for the apex also the zone. */
  lemma ListedUnderIff(wireName: string, name: string, zone: string)
    requires InZone(wireName, zone)
    ensures ShortName(wireName, zone) == name <==> wireName == name + "." + zone || (name == zone && wireName == zone)
  {
    if wireName != zone {
      assert wireName == ShortName(wireName, zone) + ("." + zone) == ShortName(wireName, zone) + "." + zone;
    }
    if wireName == name + "." + zone {
      assert wireName == name + ("." + zone) && |wireName| > |zone|;
    }
  }

  predicate HoldsListed(wire: seq<Applied>, want: Record, zone: string) {
    exists i :: 0 <= i < |wire| && wire[i].rtype == want.rtype && ShortName(wire[i].name, zone) == want.name
  }

  lemma HeldAsListed(u: string, zone: string, wire: seq<Applied>, want: Record)
    ensures HoldsNameType(ListedShort(u, zone, wire), want) <==> HoldsListed(wire, want, zone)
  {
    var records := ListedShort(u, zone, wire);
    if HoldsListed(wire, want, zone) {
      var i :| 0 <= i < |wire| && wire[i].rtype == want.rtype && ShortName(wire[i].name, zone) == want.name;
      assert records[i].rtype == want.rtype && records[i].name == want.name;
    }
    if HoldsNameType(records, want) {
      var i :| 0 <= i < |records| && records[i].rtype == want.rtype && records[i].name == want.name;
      assert wire[i].rtype == want.rtype && ShortName(wire[i].name, zone) == want.name;
    }
  }

  predicate HoldsName(wire: seq<Applied>, rtype: string, name: string) {
    exists i :: 0 <= i < |wire| && wire[i].rtype == rtype && wire[i].name == name
  }

  /** Whatever the zone holds, a record whose name already ends in the zone is reported missing if and only if no record
      of its type stands under that name with the zone appended once more. Its own stored record does not count. */
  lemma SuffixedMissingIff(v: Verification, want: Record, zone: string, wire: seq<Applied>)
    requires Watches(v, want, zone, wire) && want.name != zone && HasSuffix(want.name, "." + zone)
    ensures ScanCorrection(v, want) == Missing <==> !HoldsName(wire, want.rtype, want.name + "." + zone)
  {
    ScanMeaning(v, want);
    HeldAsListed(want.upstream, zone, wire, want);
    if HoldsName(wire, want.rtype, want.name + "." + zone) {
      var i :| 0 <= i < |wire| && wire[i].rtype == want.rtype && wire[i].name == want.name + "." + zone;
      ListedUnderIff(wire[i].name, want.name, zone);
    }
    if HoldsListed(wire, want, zone) {
      var i :| 0 <= i < |wire| && wire[i].rtype == want.rtype && ShortName(wire[i].name, zone) == want.name;
      ListedUnderIff(wire[i].name, want.name, zone);
    }
  }

  /** want's record as Upsert stores it. */
  function StoredAs(want: Record, zone: string): Applied {
    AppliedOf(want).(name := Fqdn(want.name, zone))
  }

  /** The zone holds want's stored record, and no other of its type with its qualified name. */
  ghost predicate StoredAlone(wire: seq<Applied>, want: Record, zone: string, at: nat) {
    && at < |wire| && wire[at] == StoredAs(want, zone)
    && forall j :: 0 <= j < |wire| && j != at && wire[j].rtype == want.rtype ==> wire[j].name != Fqdn(want.name, zone)
  }

  /** A zone that holds a record under its qualified name, and nothing else, is one. */
  lemma StoredAloneHappens(want: Record, zone: string, stored: Applied)
    requires stored == AppliedOf(want).(name := stored.name)
    requires stored.name ==
             if want.name == zone || HasSuffix(want.name, "." + zone) then want.name else want.name + "." + zone
    ensures AllInZone([stored], zone) && StoredAlone([stored], want, zone, 0)
  {
  }

  /** Any other name but the apex: no drift when the stored record is the only one of its type and qualified name. */
  lemma StoredAgrees(v: Verification, want: Record, zone: string, wire: seq<Applied>, at: nat)
    requires Watches(v, want, zone, wire) && StoredAlone(wire, want, zone, at)
    requires want.name != zone && !HasSuffix(want.name, "." + zone)
    ensures ScanCorrection(v, want) == NoDrift
  {
    forall j | 0 <= j < |wire| && j != at && wire[j].rtype == want.rtype
        ensures ShortName(wire[j].name, zone) != want.name {
      ListedUnderIff(wire[j].name, want.name, zone);
    }
    OnlyListed(v, want, zone, wire, at);
  }

  /** Record j stands under the zone appended to itself, with the apex record's type and value. */
  predicate Shadows(wire: seq<Applied>, want: Record, zone: string, j: nat)
    requires j < |wire|
  {
    wire[j].rtype == want.rtype && wire[j].value == want.value && wire[j].name == zone + "." + zone
  }

  /** The first such record comes before the stored one, and differs in TTL, priority or comment. */
  predicate Shadowed(wire: seq<Applied>, want: Record, zone: string, at: nat)
    requires at < |wire|
  {
    exists j :: 0 <= j < at && Shadows(wire, want, zone, j)
        && (forall i :: 0 <= i < j ==> !Shadows(wire, want, zone, i)) &&
      (wire[j].ttl, wire[j].priority, wire[j].comment) != (want.ttl, want.priority, want.comment)
  }

  /** The apex, stored alone under its name: no drift exactly when no such record shadows it. */
  lemma StoredApexIff(v: Verification, want: Record, zone: string, wire: seq<Applied>, at: nat)
    requires Watches(v, want, zone, wire) && StoredAlone(wire, want, zone, at) && want.name == zone
    ensures ScanCorrection(v, want) == NoDrift <==> !Shadowed(wire, want, zone, at)
  {
    var records := v.actual[want.upstream];
    var j := FirstShadow(wire, want, zone, at);
    forall i | 0 <= i < |wire| && i != at ensures Matches(records[i], want) <==> Shadows(wire, want, zone, i) {
      ListedUnderIff(wire[i].name, zone, zone);
    }
    ListedUnderIff(wire[at].name, zone, zone);
    FirstExactAt(records, want, j);
    if Shadowed(wire, want, zone, at) {
      var i :| 0 <= i < at && Shadows(wire, want, zone, i)
          && (forall m :: 0 <= m < i ==> !Shadows(wire, want, zone, m)) &&
        (wire[i].ttl, wire[i].priority, wire[i].comment) != (want.ttl, want.priority, want.comment);
      assert i == j;
    }
  }

  /** The first shadowing record before `at`, or `at`. */
  lemma {:induction false} FirstShadow(wire: seq<Applied>, want: Record, zone: string, at: nat) returns (j: nat)
    requires at < |wire|
    ensures j <= at && (j < at ==> Shadows(wire, want, zone, j))
        && forall i :: 0 <= i < j ==> !Shadows(wire, want, zone, i)
  {
    j := 0;
    while j < at && !Shadows(wire, want, zone, j)
      invariant j <= at && forall i :: 0 <= i < j ==> !Shadows(wire, want, zone, i)
    {
      j := j + 1;
    }
  }

  lemma OnlyListed(v: Verification, want: Record, zone: string, wire: seq<Applied>, at: nat)
    requires Watches(v, want, zone, wire) && at < |wire| && wire[at] == StoredAs(want, zone)
    requires want.name == zone || !HasSuffix(want.name, "." + zone)
    requires forall j :: 0 <= j < |wire| && j != at && wire[j].rtype == want.rtype ==>
               ShortName(wire[j].name, zone) != want.name
    ensures ScanCorrection(v, want) == NoDrift
  {
    var records := v.actual[want.upstream];
    ShortUndoesFqdnIff(want.name, zone);
    assert records[at] == Listed(want.upstream, AppliedOf(want));
    FirstExactAt(records, want, at);
  }

  predicate Matches(r: Record, want: Record) {
    r.rtype == want.rtype && r.name == want.name && r.value == want.value
  }

  lemma {:induction false} FirstExactAt(records: seq<Record>, want: Record, at: nat)
    requires at < |records| && Matches(records[at], want)
    requires forall j :: 0 <= j < at ==> !Matches(records[j], want)
    ensures FirstExact(records, want) == Some(records[at])
  {
    if at > 0 {
      assert !Matches(records[0], want);
      assert records[1..][at - 1] == records[at];
      FirstExactAt(records[1..], want, at - 1);
    }
  }

  /** It can happen: an equal value under the zone appended to itself, listed first with another TTL, makes the stored
      apex record look changed. */
  lemma ApexShadowed(want: Record, zone: string, v: Verification, wire: seq<Applied>)
    requires want.name == zone && Watches(v, want, zone, wire)
    requires wire == [AppliedOf(want).(name := zone + "." + zone, ttl := want.ttl + 1), StoredAs(want, zone)]
    ensures StoredAlone(wire, want, zone, 1) && ScanCorrection(v, want) == Changed
  {
    var records := v.actual[want.upstream];
    ListedUnderIff(zone + "." + zone, zone, zone);
    assert records[0].name == zone && records[0].value == want.value;
    assert |zone + "." + zone| > |zone|;
  }
}
